/** Planning every (listener, hostname) of a build: one group's rounds until none fails, then the
    groups one by one. */
module Lifting {
  import opened Base
  import opened Paths
  import opened Frontends
  import opened RouteKeys
  import opened Sozu
  import opened Tier
  import opened Admissions
  import opened Planner
  import opened Choices
  import opened Precedence
  import opened Planning

  function Indices(skips: seq<Skip>): set<nat> {
    set s | s in skips :: s.index
  }

  /** The header matches past the cap. */
  function OverCap(fs: seq<Frontend>, members: seq<nat>): seq<nat>
    requires InGroup(fs, members)
  {
    HeaderMatches(fs, members)[|Originals(fs, members)|..]
  }

  function CapSkips(over: seq<nat>): seq<Skip> {
    seq(|over|, i requires 0 <= i < |over| => Skip(over[i], HeaderMatchLimit))
  }

  ghost predicate Ordered(fs: seq<Frontend>, members: seq<nat>) {
    InGroup(fs, members) && Ascends(members)
  }

  /** A finished plan: the header matches past the cap are skipped first, each later skip is the one
      the round without the earlier skips asks for, and the round without them all succeeds. */
  ghost predicate IsPlan(os: Platform, fs: seq<Frontend>, members: seq<nat>, skips: seq<Skip>, spec: seq<Chosen>)
  {
    && Ordered(fs, members) && WellChosen(fs, spec)
    && SkipsSoFar(os, fs, members, skips)
    && |skips| <= |OverCap(fs, members)| + |Originals(fs, members)|
    && IsRound(os, fs, members, Indices(skips), Done(spec))
  }

  // ---- a failed round names a header match it weighed --------------------------------------------------

  lemma {:induction false} ChooseAllSkips(
      os: Platform, fs: seq<Frontend>, plain: seq<nat>, held: map<RouteKey, nat>, skipped: set<nat>,
      slots: seq<nat>, brought: set<RouteKey>, chosen: seq<Chosen>)
    requires InGroup(fs, plain) && InGroup(fs, slots) && WellChosen(fs, chosen) && HeldInRange(fs, held)
    requires ChooseAll(os, fs, plain, held, skipped, slots, brought, chosen).Skipped?
    ensures var index := ChooseAll(os, fs, plain, held, skipped, slots, brought, chosen).skip.index;
            index in slots && index !in skipped
  {
    hide Candidates, Choose, CopyKeys;
    if slots != [] {
      var p := slots[0];
      if p in skipped {
        ChooseAllSkips(os, fs, plain, held, skipped, slots[1..], brought, chosen);
      } else {
        ChooseInRange(os, fs, held, skipped, p, Candidates(fs, plain, p), brought, []);
        var r := Choose(os, fs, held, skipped, p, Candidates(fs, plain, p), brought, []);
        if r.Done? {
          var c := Chosen(p, r.value);
          ChooseAllSkips(os, fs, plain, held, skipped, slots[1..], brought + CopyKeys(os, fs, c), chosen + [c]);
        }
      }
    }
  }

  /** Each failed round skips a header match it still weighed, so rounds make progress. */
  lemma SkipMakesProgress(os: Platform, fs: seq<Frontend>, members: seq<nat>, skipped: set<nat>, skip: Skip)
    requires InGroup(fs, members) && IsRound(os, fs, members, skipped, Skipped(skip))
    ensures skip.index in Originals(fs, members) && skip.index !in skipped
  {
    hide ChooseAll, HeldBy, PlainRoutes, Originals, FirstPair, TierOf;
    var plain, held, slots := PlainRoutes(fs, members), HeldBy(os, fs, members), Originals(fs, members);
    HeldInGroup(os, fs, members);
    OriginalsInGroup(fs, members);
    var all := ChooseAll(os, fs, plain, held, skipped, slots, {}, []);
    if all.Skipped? {
      ChooseAllSkips(os, fs, plain, held, skipped, slots, {}, []);
    } else {
      var tier := TierOf(fs, all.value);
      var found :| FirstPair(os, fs, tier, found) && Skipped(skip) == Verdict(tier, all.value, found);
      var low := tier[found.value.1];
      var i := TierEntry(fs, all.value, low);
      var brought := ChoiceFacts(os, fs, members, skipped, all.value);
      assert Owners(all.value)[i] in Kept(slots, skipped);
    }
  }

  lemma NothingPlanned(os: Platform, fs: seq<Frontend>, members: seq<nat>, skipped: set<nat>)
    requires InGroup(fs, members) && Originals(fs, members) == []
    ensures IsRound(os, fs, members, skipped, Done([]))
  {
    hide HeldBy, PlainRoutes;
    HeldInGroup(os, fs, members);
    OriginalsInGroup(fs, members);
    assert TierOf(fs, []) == [];
    assert FirstPair(os, fs, [], None);
  }

  function SetOf(s: seq<nat>): set<nat> {
    set x | x in s
  }

  lemma {:induction false} SetOfSize(s: seq<nat>)
    ensures |SetOf(s)| <= |s|
  {
    if s == [] {
      assert SetOf(s) == {};
    } else {
      SetOfSize(s[1..]);
      assert s == [s[0]] + s[1..];
      assert SetOf(s) == SetOf(s[1..]) + {s[0]};
    }
  }

  lemma HeaderMatchesSnoc(fs: seq<Frontend>, members: seq<nat>, i: nat)
    requires InGroup(fs, members) && i < |members|
    ensures HeaderMatches(fs, members[..i + 1]) ==
            HeaderMatches(fs, members[..i]) + if fs[members[i]].headers != [] then [members[i]] else []
  {
    assert members[..i + 1] == members[..i] + [members[i]];
    FilterSnoc((p: nat) => p < |fs| && fs[p].headers != [], members[..i], members[i]);
  }

  lemma NoHeaderMatches(fs: seq<Frontend>, members: seq<nat>)
    ensures HeaderMatches(fs, members[..0]) == []
  {
  }

  /** The header matches within the cap, and a skip for each of the rest. */
  method CapGroup(fs: seq<Frontend>, members: seq<nat>) returns (originals: seq<nat>, skips: seq<Skip>)
    requires InGroup(fs, members)
    ensures originals == Originals(fs, members) && skips == CapSkips(OverCap(fs, members))
  {
    hide HeaderMatches;
    skips, originals := [], [];
    assert HeaderMatches(fs, members[..0]) == [] by { NoHeaderMatches(fs, members); }
    for i := 0 to |members|
      invariant HeaderMatches(fs, members[..i]) == originals + Named(skips)
      invariant skips == CapSkips(Named(skips))
      invariant |originals| <= MAX_HEADER_MATCHES_PER_HOSTNAME
      invariant skips != [] ==> |originals| == MAX_HEADER_MATCHES_PER_HOSTNAME
    {
      var index := members[i];
      HeaderMatchesSnoc(fs, members, i);
      if fs[index].headers != [] {
        if |originals| < MAX_HEADER_MATCHES_PER_HOSTNAME {
          originals := originals + [index];
        } else {
          skips := skips + [Skip(index, HeaderMatchLimit)];
        }
      }
    }
    assert members[..|members|] == members;
    assert OverCap(fs, members) == Named(skips);
  }

  /** The skips so far are the cap's and those the rounds so far asked for. */
  ghost predicate SkipsSoFar(os: Platform, fs: seq<Frontend>, members: seq<nat>, skips: seq<Skip>)
    requires InGroup(fs, members)
  {
    var over := OverCap(fs, members);
    && CapSkips(over) <= skips
    && (forall k :: |over| <= k < |skips| ==>
          && IsRound(os, fs, members, Indices(skips[..k]), Skipped(skips[k]))
          && skips[k].index in Originals(fs, members) && skips[k].index !in Indices(skips[..k]))
  }

  lemma OneMoreSkip(os: Platform, fs: seq<Frontend>, members: seq<nat>, skips: seq<Skip>, skip: Skip)
    requires InGroup(fs, members) && SkipsSoFar(os, fs, members, skips)
    requires IsRound(os, fs, members, Indices(skips), Skipped(skip))
    ensures SkipsSoFar(os, fs, members, skips + [skip])
    ensures Indices(skips + [skip]) == Indices(skips) + {skip.index}
    ensures skip.index in Originals(fs, members) && skip.index !in Indices(skips)
  {
    hide IsRound, Originals, HeaderMatches;
    SkipMakesProgress(os, fs, members, Indices(skips), skip);
    var more := skips + [skip];
    assert more[..|skips|] == skips;
    assert forall k :: 0 <= k < |skips| ==> more[..k] == skips[..k];
  }

  /** Plans one group: caps its header matches, then skips one at a time until a round succeeds. */
  method PlanGroup(os: Platform, fs: seq<Frontend>, members: seq<nat>)
      returns (copies: seq<(nat, Frontend)>, skips: seq<Skip>, ghost spec: seq<Chosen>)
    requires Ordered(fs, members)
    ensures IsPlan(os, fs, members, skips, spec) && copies == Brought(TierOf(fs, spec))
  {
    hide IsRound, TierOf, Brought, Originals, OverCap, GroupPlan.Valid, Indices;
    var originals;
    originals, skips := CapGroup(fs, members);
    if originals == [] {
      NothingPlanned(os, fs, members, Indices(skips));
      EmptyTier(fs);
      return [], skips, [];
    }
    var skipped := Indices(skips);
    var plan := new GroupPlan(os, fs, members);
    ghost var left := set p | p in originals && p !in skipped;
    SetOfSize(originals);
    SubsetSize(left, SetOf(originals));
    while true
      invariant plan.Valid() && plan.os == os && plan.fs == fs && plan.members == members
      invariant fresh(plan) && fresh(plan.admission)
      invariant skipped == Indices(skips) && SkipsSoFar(os, fs, members, skips)
      invariant left == (set p | p in originals && p !in skipped)
      invariant |skips| + |left| <= |OverCap(fs, members)| + |originals|
      decreases left
    {
      var outcome, round := plan.Round(skipped);
      if outcome.Done? {
        return outcome.value, skips, round;
      }
      OneMoreSkip(os, fs, members, skips, outcome.skip);
      skipped := skipped + {outcome.skip.index};
      skips := skips + [outcome.skip];
      left := left - {outcome.skip.index};
    }
  }

  lemma EmptyTier(fs: seq<Frontend>)
    ensures TierOf(fs, []) == [] && Brought([]) == []
  {
  }

  lemma SubsetSize<T>(a: set<T>, b: set<T>)
    requires a <= b
    ensures |a| <= |b|
  {
    if a != {} {
      var x :| x in a;
      SubsetSize(a - {x}, b - {x});
    }
  }

  function Named(skips: seq<Skip>): seq<nat> {
    seq(|skips|, i requires 0 <= i < |skips| => skips[i].index)
  }

  // ---- every group --------------------------------------------------------------------------------------

  type GroupKey = (bool, Listener, string)

  /** The frontends of one group among the first `n`, in frontend order. */
  function MembersUpTo(fs: seq<Frontend>, g: GroupKey, n: nat): (r: seq<nat>)
    requires n <= |fs|
    ensures InGroup(fs, r) && Ascends(r)
    ensures forall i: nat :: i in r <==> i < n && GroupOf(fs[i]) == g
  {
    if n == 0 then []
    else
      var before := MembersUpTo(fs, g, n - 1);
      assert forall k :: 0 <= k < |before| ==> before[k] in before;
      if GroupOf(fs[n - 1]) == g then before + [n - 1] else before
  }

  function MembersOf(fs: seq<Frontend>, g: GroupKey): seq<nat> {
    MembersUpTo(fs, g, |fs|)
  }

  /** The plan of each group: its skips and what it brings. */
  datatype Plan = Plan(skips: seq<Skip>, spec: seq<Chosen>)

  ghost predicate PlansAll(os: Platform, fs: seq<Frontend>, plans: map<GroupKey, Plan>) {
    && plans.Keys == GroupsOf(fs)
    && (forall g :: g in plans ==> IsPlan(os, fs, MembersOf(fs, g), plans[g].skips, plans[g].spec))
  }

  /** `s` lists the elements of `all`, each once. */
  ghost predicate Lists<T(!new)>(s: seq<T>, all: set<T>) {
    && (forall x :: x in s <==> x in all)
    && (forall i, j :: 0 <= i < j < |s| ==> s[i] != s[j])
  }

  /** The groups of the first `n` frontends. */
  ghost function GroupsUpto(fs: seq<Frontend>, n: nat): set<GroupKey>
    requires n <= |fs|
  {
    set i | 0 <= i < n :: GroupOf(fs[i])
  }

  /** The groups of the first `n` frontends, with their members. */
  ghost predicate Grouped(fs: seq<Frontend>, n: nat, groups: map<GroupKey, seq<nat>>)
    requires n <= |fs|
  {
    groups.Keys == GroupsUpto(fs, n) && forall g :: g in groups ==> groups[g] == MembersUpTo(fs, g, n)
  }

  /** The groups of the frontends, as first met, and the members of each in frontend order. */
  method GroupFrontends(fs: seq<Frontend>) returns (keys: seq<GroupKey>, groups: map<GroupKey, seq<nat>>)
    ensures groups.Keys == GroupsOf(fs) && Lists(keys, GroupsOf(fs))
    ensures forall g :: g in groups ==> groups[g] == MembersOf(fs, g)
  {
    hide Grouped, Lists, GroupOf, MembersOf, GroupsOf;
    keys, groups := [], map[];
    NothingGrouped(fs);
    for index := 0 to |fs|
      invariant Grouped(fs, index, groups) && Lists(keys, groups.Keys)
    {
      var g := GroupOf(fs[index]);
      var members := if g in groups then groups[g] else [];
      NextMember(fs, index, groups);
      ghost var before := groups.Keys;
      if g !in groups {
        NextGroup(keys, before, g);
        keys := keys + [g];
      }
      groups := groups[g := members + [index]];
      assert groups.Keys == before + {g} && (g in before ==> before + {g} == before);
    }
    AllGrouped(fs, groups);
  }

  lemma NothingGrouped(fs: seq<Frontend>)
    ensures var none: map<GroupKey, seq<nat>> := map[]; Grouped(fs, 0, none) && Lists([], none.Keys)
  {
  }

  lemma NextMember(fs: seq<Frontend>, n: nat, groups: map<GroupKey, seq<nat>>)
    requires n < |fs| && Grouped(fs, n, groups)
    ensures var g := GroupOf(fs[n]);
            Grouped(fs, n + 1, groups[g := (if g in groups then groups[g] else []) + [n]])
  {
    hide MembersUpTo, GroupOf;
    var g := GroupOf(fs[n]);
    if g !in groups {
      NoMembers(fs, g, n);
    }
    forall h | h in groups || h == g {
      MembersStep(fs, h, n);
    }
    assert GroupsUpto(fs, n + 1) == GroupsUpto(fs, n) + {g};
  }

  lemma NextGroup(keys: seq<GroupKey>, all: set<GroupKey>, g: GroupKey)
    requires Lists(keys, all) && g !in all
    ensures Lists(keys + [g], all + {g})
  {
  }

  lemma AllGrouped(fs: seq<Frontend>, groups: map<GroupKey, seq<nat>>)
    requires Grouped(fs, |fs|, groups)
    ensures groups.Keys == GroupsOf(fs) && forall g :: g in groups ==> groups[g] == MembersOf(fs, g)
  {
  }

  lemma MembersStep(fs: seq<Frontend>, g: GroupKey, n: nat)
    requires n < |fs|
    ensures MembersUpTo(fs, g, n + 1) == MembersUpTo(fs, g, n) + if GroupOf(fs[n]) == g then [n] else []
  {
  }

  lemma NoMembers(fs: seq<Frontend>, g: GroupKey, n: nat)
    requires n <= |fs| && forall i :: 0 <= i < n ==> GroupOf(fs[i]) != g
    ensures MembersUpTo(fs, g, n) == []
  {
    assert forall k :: 0 <= k < |MembersUpTo(fs, g, n)| ==> MembersUpTo(fs, g, n)[k] in MembersUpTo(fs, g, n);
  }

  function KeptFrontends(fs: seq<Frontend>, skipped: set<nat>): seq<Frontend> {
    if fs == [] then []
    else KeptFrontends(fs[..|fs| - 1], skipped) + if |fs| - 1 in skipped then [] else [fs[|fs| - 1]]
  }

  function GroupOfCopy(c: (int, Frontend)): GroupKey { GroupOf(c.1) }

  /** The copies one group's plan brings, in the order of its tier. */
  ghost function CopiesIn(fs: seq<Frontend>, plans: map<GroupKey, Plan>, g: GroupKey): seq<(int, Frontend)> {
    if g in plans && WellChosen(fs, plans[g].spec) then Brought(TierOf(fs, plans[g].spec)) else []
  }

  /** `brought` is the groups' copies one after the other. */
  ghost predicate Concatenates(fs: seq<Frontend>, plans: map<GroupKey, Plan>, brought: seq<(int, Frontend)>) {
    forall g :: OfKey(GroupOfCopy, g, brought) == CopiesIn(fs, plans, g)
  }

  /** The copies of all the plans, each once, sorted by the header match that brought it. */
  ghost predicate CopiesOfPlans(fs: seq<Frontend>, plans: map<GroupKey, Plan>, copies: seq<(int, Frontend)>) {
    && (forall g :: g in plans ==> WellChosen(fs, plans[g].spec))
    && exists brought :: Concatenates(fs, plans, brought) && copies == SortBy(First<int, Frontend>, NatLe, brought)
  }

  function SkipsOf(plans: map<GroupKey, Plan>, g: GroupKey): seq<Skip> {
    if g in plans then plans[g].skips else []
  }

  /** The groups' skips one after the other. */
  function SkipsIn(plans: map<GroupKey, Plan>, order: seq<GroupKey>): seq<Skip> {
    if order == [] then [] else SkipsIn(plans, order[..|order| - 1]) + SkipsOf(plans, order[|order| - 1])
  }

  /** The skips of all the plans, each once, group by group. */
  ghost predicate SkipsOfPlans(plans: map<GroupKey, Plan>, skips: seq<Skip>) {
    exists order :: Lists(order, plans.Keys) && skips == SkipsIn(plans, order)
  }

  /** What planning every group leaves. */
  ghost predicate Lifted(os: Platform, fs: seq<Frontend>, kept: seq<Frontend>, copies: seq<(int, Frontend)>,
                         skips: seq<Skip>, plans: map<GroupKey, Plan>)
  {
    && PlansAll(os, fs, plans)
    && SkipsOfPlans(plans, skips)
    && kept == KeptFrontends(fs, Indices(skips))
    && CopiesOfPlans(fs, plans, copies)
  }

  /** What is kept is the frontends not skipped, each at most once, in frontend order. */
  lemma {:induction false} KeptInPlace(fs: seq<Frontend>, skipped: set<nat>, a: nat, b: nat) returns (i: nat, j: nat)
    requires a < b < |KeptFrontends(fs, skipped)|
    ensures i < j < |fs| && i !in skipped && j !in skipped
    ensures fs[i] == KeptFrontends(fs, skipped)[a] && fs[j] == KeptFrontends(fs, skipped)[b]
  {
    var n := |fs| - 1;
    var before := KeptFrontends(fs[..n], skipped);
    if b < |before| {
      i, j := KeptInPlace(fs[..n], skipped, a, b);
    } else {
      j := n;
      i := KeptAt(fs[..n], skipped, a);
    }
  }

  lemma {:induction false} KeptAt(fs: seq<Frontend>, skipped: set<nat>, a: nat) returns (i: nat)
    requires a < |KeptFrontends(fs, skipped)|
    ensures i < |fs| && i !in skipped && fs[i] == KeptFrontends(fs, skipped)[a]
  {
    var n := |fs| - 1;
    if a < |KeptFrontends(fs[..n], skipped)| {
      i := KeptAt(fs[..n], skipped, a);
    } else {
      i := n;
    }
  }

  /** The copies stand in the order of the header matches that brought them. */
  lemma CopiesAscend(fs: seq<Frontend>, plans: map<GroupKey, Plan>, copies: seq<(int, Frontend)>)
    requires CopiesOfPlans(fs, plans, copies)
    ensures forall a, b :: 0 <= a < b < |copies| ==> copies[a].0 <= copies[b].0
  {
    hide Concatenates, WellChosen;
    var brought :| Concatenates(fs, plans, brought) && copies == SortBy(First<int, Frontend>, NatLe, brought);
    SortSorted(First<int, Frontend>, NatLe, brought);
    forall a, b | 0 <= a < b < |copies| ensures copies[a].0 <= copies[b].0 {
      assert NatLe(First(copies[a]), First(copies[b]));
    }
  }

  /** The skips of a group follow those of the groups before it. */
  lemma {:induction false} SkipsByGroup(plans: map<GroupKey, Plan>, order: seq<GroupKey>, n: nat)
    requires n < |order| && order[n] in plans
    ensures SkipsIn(plans, order[..n]) + plans[order[n]].skips <= SkipsIn(plans, order)
  {
    var last := |order| - 1;
    if n < last {
      SkipsByGroup(plans, order[..last], n);
      assert order[..last][..n] == order[..n];
    }
  }

  predicate NatLe(a: int, b: int) { a <= b }

  /** Groups are visited in the order `le`. */
  ghost predicate GroupByGroup(le: (GroupKey, GroupKey) -> bool, plans: map<GroupKey, Plan>, skips: seq<Skip>) {
    exists order :: Lists(order, plans.Keys) && SortedBy(Itself<GroupKey>, le, order) && skips == SkipsIn(plans, order)
  }

  /** The whole pass: every group planned in the order of the groups, the skipped frontends dropped, and all the
      plans' copies in the order of their owners. */
  method LiftHeaderMatches(os: Platform, fs: seq<Frontend>, le: (GroupKey, GroupKey) -> bool)
      returns (kept: seq<Frontend>, copies: seq<(int, Frontend)>, skips: seq<Skip>, ghost plans: map<GroupKey, Plan>)
    requires TotalOrder(le)
    ensures Lifted(os, fs, kept, copies, skips, plans) && GroupByGroup(le, plans, skips)
  {
    hide IsPlan, MembersOf, Indices, Concatenates, SortBy, WellChosen, SkipsIn, Lists, SortedBy;
    var keys, groups := GroupFrontends(fs);
    var order := SortBy(Itself<GroupKey>, le, keys);
    SortedKeys(le, keys, groups.Keys);
    var brought: seq<(int, Frontend)> := [];
    skips, plans := [], map[];
    NoCopies(fs);
    NoSkips();
    for n := 0 to |order|
      invariant plans.Keys == Upto(order, n)
      invariant forall g :: g in plans ==> IsPlan(os, fs, MembersOf(fs, g), plans[g].skips, plans[g].spec)
      invariant forall g :: g in plans ==> WellChosen(fs, plans[g].spec)
      invariant skips == SkipsIn(plans, order[..n])
      invariant Concatenates(fs, plans, brought)
    {
      var g := order[n];
      NextKey(order, groups.Keys, n);
      MembersOrdered(fs, g);
      var lifted, more, spec := PlanGroup(os, fs, groups[g]);
      CopiesOfMore(os, fs, plans, brought, g, Plan(more, spec));
      SkipsOfMore(plans, order, n, Plan(more, spec));
      plans := plans[g := Plan(more, spec)];
      brought := brought + lifted;
      skips := skips + more;
    }
    AllKeys(order, groups.Keys);
    copies := SortBy(First<int, Frontend>, NatLe, brought);
    kept := KeepFrontends(fs, Indices(skips));
  }

  ghost function Upto(order: seq<GroupKey>, n: nat): set<GroupKey>
    requires n <= |order|
  {
    set i | 0 <= i < n :: order[i]
  }

  lemma SortedKeys(le: (GroupKey, GroupKey) -> bool, keys: seq<GroupKey>, all: set<GroupKey>)
    requires TotalOrder(le) && Lists(keys, all)
    ensures var order := SortBy(Itself<GroupKey>, le, keys); Lists(order, all) && SortedBy(Itself<GroupKey>, le, order)
  {
    var order := SortBy(Itself<GroupKey>, le, keys);
    SortSorted(Itself<GroupKey>, le, keys);
    SortContents(Itself<GroupKey>, le, keys);
    hide SortBy, SortedBy, TotalOrder;
    forall g ensures g in order <==> g in keys {
      assert g in multiset(order) <==> g in multiset(keys);
    }
    forall i, j | 0 <= i < j < |order| ensures order[i] != order[j] {
      if order[i] == order[j] {
        Twice(order, i, j);
        ListedOnce(keys, order[i]);
      }
    }
  }

  lemma {:induction false} ListedOnce<T>(s: seq<T>, x: T)
    requires forall i, j :: 0 <= i < j < |s| ==> s[i] != s[j]
    ensures multiset(s)[x] <= 1
  {
    if s != [] {
      assert s == [s[0]] + s[1..];
      ListedOnce(s[1..], x);
      if s[0] == x {
        assert x !in s[1..];
        assert x !in multiset(s[1..]);
      }
    }
  }

  lemma NextKey(order: seq<GroupKey>, all: set<GroupKey>, n: nat)
    requires Lists(order, all) && n < |order|
    ensures order[n] in all && order[n] !in Upto(order, n) && Upto(order, n + 1) == Upto(order, n) + {order[n]}
  {
  }

  lemma AllKeys(order: seq<GroupKey>, all: set<GroupKey>)
    requires Lists(order, all)
    ensures Upto(order, |order|) == all && order[..|order|] == order
  {
  }

  lemma NoSkips()
    ensures SkipsIn(map[], []) == []
  {
  }

  lemma {:induction false} SameSkips(plans: map<GroupKey, Plan>, g: GroupKey, plan: Plan, order: seq<GroupKey>)
    requires g !in order
    ensures SkipsIn(plans[g := plan], order) == SkipsIn(plans, order)
  {
    if order != [] {
      SameSkips(plans, g, plan, order[..|order| - 1]);
    }
  }

  lemma SkipsOfMore(plans: map<GroupKey, Plan>, order: seq<GroupKey>, n: nat, plan: Plan)
    requires n < |order| && order[n] !in Upto(order, n)
    ensures SkipsIn(plans[order[n] := plan], order[..n + 1]) == SkipsIn(plans, order[..n]) + plan.skips
  {
    SameSkips(plans, order[n], plan, order[..n]);
    assert order[..n + 1][..n] == order[..n];
  }

  /** A skip is one of a plan's. */
  lemma {:induction false} SkipsHold(plans: map<GroupKey, Plan>, order: seq<GroupKey>, s: Skip)
    ensures s in SkipsIn(plans, order) <==> exists g :: g in order && s in SkipsOf(plans, g)
  {
    if order != [] {
      var n := |order| - 1;
      SkipsHold(plans, order[..n], s);
      assert forall g :: g in order <==> g in order[..n] || g == order[n];
    }
  }

  lemma SkipsAre(plans: map<GroupKey, Plan>, skips: seq<Skip>)
    requires SkipsOfPlans(plans, skips)
    ensures forall s :: s in skips <==> exists g :: g in plans && s in plans[g].skips
  {
    hide SkipsIn;
    var order :| Lists(order, plans.Keys) && skips == SkipsIn(plans, order);
    forall s ensures s in skips <==> exists g :: g in plans && s in plans[g].skips {
      SkipsHold(plans, order, s);
      assert forall g :: g in order <==> g in plans;
      assert forall g :: g in plans ==> SkipsOf(plans, g) == plans[g].skips;
    }
  }

  lemma NoCopies(fs: seq<Frontend>)
    ensures Concatenates(fs, map[], [])
  {
  }

  lemma CopiesOfMore(os: Platform, fs: seq<Frontend>, plans: map<GroupKey, Plan>, brought: seq<(int, Frontend)>,
                     g: GroupKey, plan: Plan)
    requires Concatenates(fs, plans, brought) && g !in plans && IsPlan(os, fs, MembersOf(fs, g), plan.skips, plan.spec)
    ensures WellChosen(fs, plan.spec)
    ensures Concatenates(fs, plans[g := plan], brought + Brought(TierOf(fs, plan.spec)))
  {
    PlanIsWellChosen(os, fs, MembersOf(fs, g), plan.skips, plan.spec);
    hide Brought, TierOf, IsPlan, OfKey, MembersOf, WellChosen;
    var more: seq<(int, Frontend)>, after := Brought(TierOf(fs, plan.spec)), plans[g := plan];
    forall c | c in more ensures GroupOfCopy(c) == g {
      BroughtInGroup(os, fs, g, plan, c);
    }
    forall h ensures OfKey(GroupOfCopy, h, brought + more) == CopiesIn(fs, after, h) {
      OfKeyAppend(GroupOfCopy, h, brought, more);
      assert OfKey(GroupOfCopy, h, brought) == CopiesIn(fs, plans, h);
      if h == g {
        OfKeyAll(GroupOfCopy, h, more);
      } else {
        OfKeyNone(GroupOfCopy, h, more);
      }
    }
  }

  /** A copy a plan brings: one of its group's plain routes above one of its header matches. */
  lemma BroughtInGroup(os: Platform, fs: seq<Frontend>, g: GroupKey, plan: Plan, c: (int, Frontend))
    requires IsPlan(os, fs, MembersOf(fs, g), plan.skips, plan.spec) && c in Brought(TierOf(fs, plan.spec))
    ensures c.0 in MembersOf(fs, g) && GroupOf(c.1) == g
  {
    var members, skipped := MembersOf(fs, g), Indices(plan.skips);
    hide ChooseAll, TierOf, FirstPair, Brought, HeldBy, Outranks, Indices, SkipsSoFar, AllCovered, FiledApart;
    var tier := TierOf(fs, plan.spec);
    BroughtHolds(tier, (c.0, c.1));
    var e :| e in tier && e.copy && (e.owner, e.rule) == c;
    HeldInGroup(os, fs, members);
    OriginalsInGroup(fs, members);
    var brought := ChoiceFacts(os, fs, members, skipped, plan.spec);
    var i := TierEntry(fs, plan.spec, e);
    assert EntryFacts(os, fs, PlainRoutes(fs, members), HeldBy(os, fs, members), skipped, plan.spec, i);
    assert Owners(plan.spec)[i] in Kept(Originals(fs, members), skipped);
  }

  method KeepFrontends(fs: seq<Frontend>, skipped: set<nat>) returns (kept: seq<Frontend>)
    ensures kept == KeptFrontends(fs, skipped)
  {
    kept := [];
    for i := 0 to |fs|
      invariant kept == KeptFrontends(fs[..i], skipped)
    {
      assert fs[..i + 1][..i] == fs[..i];
      if i !in skipped {
        kept := kept + [fs[i]];
      }
    }
    assert fs[..|fs|] == fs;
  }

  lemma MembersOrdered(fs: seq<Frontend>, g: GroupKey)
    ensures Ordered(fs, MembersOf(fs, g))
  {
  }

  lemma PlanIsWellChosen(os: Platform, fs: seq<Frontend>, members: seq<nat>, skips: seq<Skip>, spec: seq<Chosen>)
    requires IsPlan(os, fs, members, skips, spec)
    ensures WellChosen(fs, spec)
  {
  }

  // ---- what Sozu serves from the result ----------------------------------------------------------------------

  /** The frontends as collision resolution leaves them: one per route key. */
  ghost predicate Resolved(os: Platform, fs: seq<Frontend>) {
    && (forall i :: 0 <= i < |fs| ==> Keyable(fs[i]))
    && (forall i, j :: 0 <= i < j < |fs| ==> RouteKeyOf(os, fs[i]) != RouteKeyOf(os, fs[j]))
  }

  /** Where Sozu files a frontend: its protocol, the address as a key spells it, without an IPv6 zone, and its
      hostname. */
  type LeafKey = (bool, string, string)

  function LeafOf(g: GroupKey): LeafKey {
    (g.0, g.1.address, g.2)
  }

  /** `held` lists, in any order, what Sozu holds in one leaf. */
  ghost predicate Leaf(kept: seq<Frontend>, copies: seq<(int, Frontend)>, leaf: LeafKey, held: seq<Frontend>) {
    forall f :: f in held <==> LeafOf(GroupOf(f)) == leaf && (f in kept || exists c :: c in copies && c.1 == f)
  }

  ghost function GroupsOf(fs: seq<Frontend>): set<GroupKey> {
    set i | 0 <= i < |fs| :: GroupOf(fs[i])
  }

  /** No two listeners that differ only in zone serve one hostname, so that each group has a leaf to itself. */
  ghost predicate OneGroupPerLeaf(fs: seq<Frontend>) {
    forall g, h :: g in GroupsOf(fs) && h in GroupsOf(fs) && LeafOf(g) == LeafOf(h) ==> g == h
  }

  lemma SkipsAreHeaderMatches(os: Platform, fs: seq<Frontend>, members: seq<nat>, skips: seq<Skip>, spec: seq<Chosen>)
    requires IsPlan(os, fs, members, skips, spec)
    ensures forall p :: p in HeaderMatches(fs, members) ==> p in Originals(fs, members) || p in Indices(skips)
    ensures forall p :: p in Indices(skips) ==> p in members && fs[p].headers != []
  {
    hide IsRound;
    var all, over := HeaderMatches(fs, members), OverCap(fs, members);
    assert all == Originals(fs, members) + over;
    OriginalsInGroup(fs, members);
    forall p | p in over ensures p in Indices(skips) {
      var i :| 0 <= i < |over| && over[i] == p;
      assert CapSkips(over)[i] in skips;
    }
    forall p | p in Indices(skips) ensures p in all {
      var k :| 0 <= k < |skips| && skips[k].index == p;
      if k < |over| {
        assert skips[k] == CapSkips(over)[k];
      }
    }
  }

  lemma LeafIsPlanned(os: Platform, fs: seq<Frontend>, plans: map<GroupKey, Plan>, g: GroupKey)
    requires PlansAll(os, fs, plans) && Resolved(os, fs) && g in plans
    ensures Planned(os, fs, MembersOf(fs, g), Indices(plans[g].skips), plans[g].spec)
    ensures OnHostname(fs, MembersOf(fs, g), g.2)
  {
    hide IsRound, RouteKeyOf, HeaderMatches, Originals, SkipsSoFar, Keyable, Indices;
    var members := MembersOf(fs, g);
    SkipsAreHeaderMatches(os, fs, members, plans[g].skips, plans[g].spec);
    assert Group(os, fs, members);
  }

  lemma {:induction false} KeptFrontendsHold(fs: seq<Frontend>, skipped: set<nat>, f: Frontend)
    ensures f in KeptFrontends(fs, skipped) <==> exists i: nat :: i < |fs| && i !in skipped && fs[i] == f
  {
    if fs != [] {
      KeptFrontendsHold(fs[..|fs| - 1], skipped, f);
    }
  }

  lemma {:induction false} BroughtHolds(tier: seq<Predicated>, c: (nat, Frontend))
    ensures c in Brought(tier) <==> exists e :: e in tier && e.copy && (e.owner, e.rule) == c
  {
    if tier != [] {
      var n := |tier| - 1;
      BroughtHolds(tier[..n], c);
      assert tier == tier[..n] + [tier[n]];
    }
  }

  /** A skip of a group concerns that group alone. */
  lemma SkippedInGroup(os: Platform, fs: seq<Frontend>, kept: seq<Frontend>, copies: seq<(int, Frontend)>,
                       skips: seq<Skip>, plans: map<GroupKey, Plan>, i: nat)
    requires Lifted(os, fs, kept, copies, skips, plans) && i < |fs|
    ensures i in Indices(skips) <==> i in Indices(plans[GroupOf(fs[i])].skips)
  {
    SkipsAre(plans, skips);
    hide IsRound, HeaderMatches, Originals, SkipsSoFar, CopiesOfPlans, SkipsOfPlans;
    assert GroupOf(fs[i]) in GroupsOf(fs);
    if i in Indices(skips) {
      var s :| s in skips && s.index == i;
      var g :| g in plans && s in plans[g].skips;
      SkipsAreHeaderMatches(os, fs, MembersOf(fs, g), plans[g].skips, plans[g].spec);
      assert i in Indices(plans[g].skips);
    }
  }

  /** The copies are exactly those of the plans. */
  lemma CopiesHold(fs: seq<Frontend>, plans: map<GroupKey, Plan>, copies: seq<(int, Frontend)>, c: (int, Frontend))
    requires CopiesOfPlans(fs, plans, copies)
    ensures c in copies <==> c in CopiesIn(fs, plans, GroupOf(c.1))
  {
    hide CopiesIn, OfKey, SortBy;
    var brought :| Concatenates(fs, plans, brought) && copies == SortBy(First<int, Frontend>, NatLe, brought);
    SortContents(First<int, Frontend>, NatLe, brought);
    assert c in multiset(copies) <==> c in multiset(brought);
    OfKeyMember(GroupOfCopy, GroupOf(c.1), brought, c);
  }

  /** A copy of the lists stands in the tier of its own group, whose plan brought it. */
  lemma CopyOrigin(os: Platform, fs: seq<Frontend>, kept: seq<Frontend>, copies: seq<(int, Frontend)>, skips: seq<Skip>,
                   plans: map<GroupKey, Plan>, c: (int, Frontend)) returns (g: GroupKey, e: Predicated)
    requires Lifted(os, fs, kept, copies, skips, plans) && c in copies
    ensures g == GroupOf(c.1) && g in plans && g in GroupsOf(fs) && WellChosen(fs, plans[g].spec)
    ensures e in TierOf(fs, plans[g].spec) && e.copy && (e.owner, e.rule) == c
  {
    hide IsPlan, TierOf, Brought, MembersUpTo;
    g := GroupOf(c.1);
    assert CopiesOfPlans(fs, plans, copies);
    CopiesHold(fs, plans, copies, c);
    hide CopiesOfPlans;
    BroughtInGroup(os, fs, g, plans[g], c);
    BroughtHolds(TierOf(fs, plans[g].spec), (c.0, c.1));
    e :| e in TierOf(fs, plans[g].spec) && e.copy && (e.owner, e.rule) == c;
    assert GroupOf(fs[c.0]) == g;
  }

  lemma KeptAreHeld(os: Platform, fs: seq<Frontend>, kept: seq<Frontend>, copies: seq<(int, Frontend)>,
                    skips: seq<Skip>, plans: map<GroupKey, Plan>, g: GroupKey, held: seq<Frontend>)
    requires Lifted(os, fs, kept, copies, skips, plans) && OneGroupPerLeaf(fs)
    requires g in GroupsOf(fs) && g in plans && Leaf(kept, copies, LeafOf(g), held)
    ensures forall i: nat :: KeptIn(MembersOf(fs, g), Indices(plans[g].skips), i) ==> fs[i] in held
    ensures forall f :: f in held && f in kept ==>
              exists i: nat :: KeptIn(MembersOf(fs, g), Indices(plans[g].skips), i) && fs[i] == f
  {
    hide IsPlan, Indices, CopiesOfPlans;
    var members, skipped := MembersOf(fs, g), Indices(plans[g].skips);
    forall i: nat | KeptIn(members, skipped, i) ensures fs[i] in held {
      SkippedInGroup(os, fs, kept, copies, skips, plans, i);
      KeptFrontendsHold(fs, Indices(skips), fs[i]);
    }
    forall f | f in held && f in kept ensures exists i: nat :: KeptIn(members, skipped, i) && fs[i] == f {
      KeptFrontendsHold(fs, Indices(skips), f);
      var i: nat :| i < |fs| && i !in Indices(skips) && fs[i] == f;
      assert GroupOf(fs[i]) in GroupsOf(fs);
      SkippedInGroup(os, fs, kept, copies, skips, plans, i);
    }
  }

  lemma CopiesAreHeld(os: Platform, fs: seq<Frontend>, kept: seq<Frontend>, copies: seq<(int, Frontend)>,
                      skips: seq<Skip>, plans: map<GroupKey, Plan>, g: GroupKey, held: seq<Frontend>)
    requires Lifted(os, fs, kept, copies, skips, plans) && Resolved(os, fs) && OneGroupPerLeaf(fs)
    requires g in GroupsOf(fs) && g in plans && WellChosen(fs, plans[g].spec) && Leaf(kept, copies, LeafOf(g), held)
    ensures forall e :: e in TierOf(fs, plans[g].spec) && e.copy ==> e.rule in held
    ensures forall f :: f in held && f !in kept ==> exists e :: e in TierOf(fs, plans[g].spec) && e.copy && e.rule == f
  {
    hide TierOf, Brought, RouteKeyOf, IsPlan, CopiesOfPlans, Indices;
    var tier := TierOf(fs, plans[g].spec);
    forall e | e in tier && e.copy ensures e.rule in held {
      CopyInGroup(os, fs, plans, g, e);
      BroughtHolds(tier, (e.owner, e.rule));
      CopiesHold(fs, plans, copies, (e.owner, e.rule));
      assert (e.owner, e.rule) in copies;
    }
    forall f | f in held && f !in kept ensures exists e :: e in tier && e.copy && e.rule == f {
      var c :| c in copies && c.1 == f;
      var h, e := CopyOrigin(os, fs, kept, copies, skips, plans, c);
      assert h == g;
    }
  }

  lemma EveryGroupIsPlanned(os: Platform, fs: seq<Frontend>, kept: seq<Frontend>, copies: seq<(int, Frontend)>,
                            skips: seq<Skip>, plans: map<GroupKey, Plan>, g: GroupKey)
    requires Lifted(os, fs, kept, copies, skips, plans) && g in GroupsOf(fs)
    ensures g in plans && WellChosen(fs, plans[g].spec) && InGroup(fs, MembersOf(fs, g))
  {
    hide IsPlan, Concatenates;
  }

  lemma LeafHoldsPlan(os: Platform, fs: seq<Frontend>, kept: seq<Frontend>, copies: seq<(int, Frontend)>,
                      skips: seq<Skip>, plans: map<GroupKey, Plan>, g: GroupKey, held: seq<Frontend>)
    requires Lifted(os, fs, kept, copies, skips, plans) && Resolved(os, fs) && OneGroupPerLeaf(fs)
    requires g in GroupsOf(fs) && Leaf(kept, copies, LeafOf(g), held)
    ensures g in plans && WellChosen(fs, plans[g].spec)
    ensures HoldsPlan(fs, MembersOf(fs, g), Indices(plans[g].skips), plans[g].spec, held)
  {
    hide Lifted, Resolved, OneGroupPerLeaf, Leaf, TierOf, Indices, GroupsOf;
    EveryGroupIsPlanned(os, fs, kept, copies, skips, plans, g);
    KeptAreHeld(os, fs, kept, copies, skips, plans, g, held);
    CopiesAreHeld(os, fs, kept, copies, skips, plans, g, held);
  }

  /** A copy stays on the listener and hostname it was planned for. */
  lemma CopyInGroup(os: Platform, fs: seq<Frontend>, plans: map<GroupKey, Plan>, g: GroupKey, e: Predicated)
    requires PlansAll(os, fs, plans) && Resolved(os, fs) && g in plans && WellChosen(fs, plans[g].spec)
    requires e in TierOf(fs, plans[g].spec) && e.copy
    ensures GroupOf(e.rule) == g
  {
    hide RouteKeyOf, TierOf, IsPlan, Planned, Outranks;
    LeafIsPlanned(os, fs, plans, g);
    EntryOrigin(os, fs, MembersOf(fs, g), Indices(plans[g].skips), plans[g].spec, e);
  }

  /** The promise of the whole pass, where each group has a leaf to itself: on every listener and hostname, for
      every request some kept header match takes and every order of the leaf, what is served has, against each
      matching kept frontend but a plain regex path, its effect or that of a matching kept frontend ranking over
      it. */
  lemma LiftedServesRightly(os: Platform, fs: seq<Frontend>, kept: seq<Frontend>, copies: seq<(int, Frontend)>,
                            skips: seq<Skip>, plans: map<GroupKey, Plan>, g: GroupKey, held: seq<Frontend>, q: Request,
                            p: nat, f: nat)
    requires Lifted(os, fs, kept, copies, skips, plans) && Resolved(os, fs) && OneGroupPerLeaf(fs)
    requires g in plans && Leaf(kept, copies, LeafOf(g), held)
    requires KeptIn(MembersOf(fs, g), Indices(plans[g].skips), p) && fs[p].headers != [] && Matches(os, fs[p], q)
    requires Weighed(os, fs, MembersOf(fs, g), Indices(plans[g].skips), q, f)
    ensures Serves(os, g.2, held, q).Some?
    ensures ServedRightly(os, fs, MembersOf(fs, g), Indices(plans[g].skips), q, Serves(os, g.2, held, q).value, f)
  {
    assert g in GroupsOf(fs) by {
      assert GroupOf(fs[p]) == g;
    }
    hide Planned, TierOf, RouteKeyOf, IsPlan, Matches, Serves, HoldsPlan, ServedRightly, CopiesOfPlans;
    LeafIsPlanned(os, fs, plans, g);
    LeafHoldsPlan(os, fs, kept, copies, skips, plans, g, held);
    PrecedenceHolds(os, fs, MembersOf(fs, g), Indices(plans[g].skips), plans[g].spec, g.2, held, q, p, f);
  }

  /** Every other request is served as if the pass had added nothing. */
  lemma LiftedAddsNothing(os: Platform, fs: seq<Frontend>, kept: seq<Frontend>, copies: seq<(int, Frontend)>,
                          skips: seq<Skip>, plans: map<GroupKey, Plan>, g: GroupKey, held: seq<Frontend>, q: Request)
    requires Lifted(os, fs, kept, copies, skips, plans) && Resolved(os, fs) && OneGroupPerLeaf(fs)
    requires g in GroupsOf(fs) && g in plans && Leaf(kept, copies, LeafOf(g), held)
    requires NoQueryExtension(fs, MembersOf(fs, g)) && LfFree(q.target) && "/" <= q.target
    requires forall p: nat :: KeptIn(MembersOf(fs, g), Indices(plans[g].skips), p) && fs[p].headers != [] ==>
        !Matches(os, fs[p], q)
    ensures Serves(os, g.2, held, q) == Serves(os, g.2, Filter((f: Frontend) => f.headers == [], held), q)
  {
    hide Planned, TierOf, RouteKeyOf, IsPlan, Matches, Serves, HoldsPlan, CopiesOfPlans, NoQueryExtension;
    LeafIsPlanned(os, fs, plans, g);
    LeafHoldsPlan(os, fs, kept, copies, skips, plans, g, held);
    NothingAdded(os, fs, MembersOf(fs, g), Indices(plans[g].skips), plans[g].spec, g.2, held, q);
  }

  /** In the usual spelling: no header match's path has a `?`. */
  lemma LiftedAddsNothingUnqueried(os: Platform, fs: seq<Frontend>, kept: seq<Frontend>, copies: seq<(int, Frontend)>,
                                   skips: seq<Skip>, plans: map<GroupKey, Plan>, g: GroupKey, held: seq<Frontend>,
                                   q: Request)
    requires Lifted(os, fs, kept, copies, skips, plans) && Resolved(os, fs) && OneGroupPerLeaf(fs)
    requires g in GroupsOf(fs) && g in plans && Leaf(kept, copies, LeafOf(g), held)
    requires forall p :: p in MembersOf(fs, g) && p < |fs| && fs[p].headers != [] ==> '?' !in fs[p].path.value
    requires LfFree(q.target) && "/" <= q.target
    requires forall p: nat :: KeptIn(MembersOf(fs, g), Indices(plans[g].skips), p) && fs[p].headers != [] ==>
        !Matches(os, fs[p], q)
    ensures Serves(os, g.2, held, q) == Serves(os, g.2, Filter((f: Frontend) => f.headers == [], held), q)
  {
    hide Lifted, Resolved, OneGroupPerLeaf, Leaf, Indices, Matches, Serves;
    NoQueryInHeaderMatches(fs, MembersOf(fs, g));
    LiftedAddsNothing(os, fs, kept, copies, skips, plans, g, held, q);
  }

  /** A copy and a frontend of another leaf have different route keys. */
  lemma KeysDistinctAcross(os: Platform, fs: seq<Frontend>, plans: map<GroupKey, Plan>, g: GroupKey, e: Predicated,
                           f: Frontend)
    requires PlansAll(os, fs, plans) && Resolved(os, fs) && g in plans && WellChosen(fs, plans[g].spec)
    requires e in TierOf(fs, plans[g].spec) && e.copy && Keyable(f) && LeafOf(GroupOf(f)) != LeafOf(g)
    ensures RouteKeyOf(os, e.rule) != RouteKeyOf(os, f)
  {
    hide RouteKeyOf, TierOf, IsPlan, Planned, Outranks, EntryFrom;
    CopyInGroup(os, fs, plans, g, e);
    LeafIsPlanned(os, fs, plans, g);
    CopyIsKeyable(os, fs, MembersOf(fs, g), Indices(plans[g].skips), plans[g].spec, e);
    if RouteKeyOf(os, e.rule) == RouteKeyOf(os, f) {
      KeyNamesGroup(os, e.rule, f);
    }
  }

  lemma CopyIsKeyable(os: Platform, fs: seq<Frontend>, members: seq<nat>, skipped: set<nat>, chosen: seq<Chosen>,
                      e: Predicated)
    requires Planned(os, fs, members, skipped, chosen) && e in TierOf(fs, chosen) && e.copy
    ensures Keyable(e.rule)
  {
    hide RouteKeyOf, TierOf, IsRound, Outranks;
    EntryOrigin(os, fs, members, skipped, chosen, e);
    CopyKeyable(fs[e.ranksAs], fs[e.owner]);
  }
}
