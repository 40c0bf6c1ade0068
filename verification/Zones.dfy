/** Groups that share a leaf: listeners that differ only in an IPv6 zone. No build has two, since it binds the
    unspecified IPv4 address only; planning alone would not keep its promises there, and exactly there. */
module Zones {
  import opened Base
  import opened Paths
  import opened Frontends
  import opened RouteKeys
  import opened Sozu
  import opened Tier
  import opened Admissions
  import opened Planner
  import opened Choices
  import opened Precedence
  import opened Planning
  import opened Lifting
  import opened Programmed
  import opened Routing
  import opened SmallPlans

  /** Two groups in one leaf, of a kind a key can spell. */
  ghost predicate Twins(g: GroupKey, h: GroupKey) {
    g != h && LeafOf(g) == LeafOf(h) && Spelt(g)
  }

  ghost predicate Spelt(g: GroupKey) {
    ';' !in g.1.address && ';' !in g.2
  }

  const CONDITION := HeaderMatch("x", ExactValue("1"))

  function On(g: GroupKey, path: PathMatch, cluster: string, headers: seq<HeaderMatch>): Frontend {
    Frontend(g.2, path, None, Some(cluster), g.0, g.1, "", headers)
  }

  /** A plain Exact path and a header-matched root on one; a header-matched Exact path on the other. */
  function Shared(g: GroupKey, h: GroupKey): seq<Frontend> {
    [On(g, Exact("/a"), "A", []), On(g, Prefix("/"), "A", [CONDITION]), On(h, Exact("/a"), "C", [CONDITION])]
  }

  function SharedCopy(g: GroupKey): Frontend {
    On(g, Exact("/a"), "A", [CONDITION])
  }

  // ---- how the two are planned -----------------------------------------------------------------------------

  lemma SharedMembers(g: GroupKey, h: GroupKey)
    requires Twins(g, h)
    ensures MembersOf(Shared(g, h), g) == [0, 1] && MembersOf(Shared(g, h), h) == [2]
  {
    var fs := Shared(g, h);
    forall k | k == g || k == h ensures MembersOf(fs, k) == if k == g then [0, 1] else [2] {
      assert MembersUpTo(fs, k, 0) == [];
      MembersStep(fs, k, 0);
      MembersStep(fs, k, 1);
      MembersStep(fs, k, 2);
      hide MembersUpTo;
      assert MembersUpTo(fs, k, 3) == if k == g then [0, 1] else [2];
    }
  }

  lemma SharedRules()
    ensures CompiledRule(Exact("/a")).RegexRule? && CompiledRule(Prefix("/")) == RawPrefix("/")
    ensures Spelled(Exact("/a")) == "/a" && PrefixBody("/") == ""
  {
    assert PrefixBody("/") == "";
  }

  ghost predicate OfWitness(path: PathMatch, headers: seq<HeaderMatch>) {
    path in {Exact("/a"), Prefix("/")} && headers in {[], [CONDITION]}
  }

  lemma WitnessKeys(os: Platform, g: GroupKey, p: PathMatch, c: string, a: seq<HeaderMatch>,
                    h: GroupKey, q: PathMatch, d: string, b: seq<HeaderMatch>)
    requires OfWitness(p, a) && OfWitness(q, b) && Spelt(g) && LeafOf(g) == LeafOf(h)
    ensures RouteKeyOf(os, On(g, p, c, a)) == RouteKeyOf(os, On(h, q, d, b)) <==> p == q && a == b
    ensures Keyable(On(g, p, c, a)) && Keyable(On(h, q, d, b))
  {
    SharedRules();
    CanonicalEmpty(a);
    CanonicalEmpty(b);
    var x, y := On(g, p, c, a), On(h, q, d, b);
    hide RouteKeyOf, CompiledRule, Canonical;
    KeysCollideExactly(os, x, y);
    assert SameMatch(x, y.(listener := x.listener)) <==> p == q && a == b;
  }

  lemma SharedKeys(os: Platform, g: GroupKey, h: GroupKey)
    requires Twins(g, h)
    ensures Resolved(os, Shared(g, h))
    ensures var fs, copy := Shared(g, h), SharedCopy(g);
            && RouteKeyOf(os, copy) == RouteKeyOf(os, fs[2])
            && RouteKeyOf(os, copy) != RouteKeyOf(os, fs[0]) && RouteKeyOf(os, copy) != RouteKeyOf(os, fs[1])
  {
    hide RouteKeyOf, On, Keyable;
    WitnessKeys(os, g, Exact("/a"), "A", [], g, Prefix("/"), "A", [CONDITION]);
    WitnessKeys(os, g, Exact("/a"), "A", [], h, Exact("/a"), "C", [CONDITION]);
    WitnessKeys(os, g, Prefix("/"), "A", [CONDITION], h, Exact("/a"), "C", [CONDITION]);
    WitnessKeys(os, g, Exact("/a"), "A", [CONDITION], g, Exact("/a"), "A", []);
    WitnessKeys(os, g, Exact("/a"), "A", [CONDITION], g, Prefix("/"), "A", [CONDITION]);
    WitnessKeys(os, g, Exact("/a"), "A", [CONDITION], h, Exact("/a"), "C", [CONDITION]);
  }

  lemma SharedHeaders(fs: seq<Frontend>)
    requires |fs| == 3 && fs[0].headers == [] && fs[1].headers != [] && fs[2].headers != []
    ensures HeaderMatches(fs, [0, 1]) == [1] && HeaderMatches(fs, [2]) == [2]
  {
    var header := (p: nat) => p < |fs| && fs[p].headers != [];
    FilterOne(header, 0);
    FilterOne(header, 1);
    FilterOne(header, 2);
    hide Filter;
    FilterAppend(header, [0], [1]);
    assert [0] + [1] == [0, 1];
  }

  lemma SharedPlain(fs: seq<Frontend>)
    requires |fs| == 3 && fs[0].headers == [] && fs[1].headers != [] && fs[2].headers != [] && !fs[0].path.Regex?
    ensures PlainRoutes(fs, [0, 1]) == [0] && PlainRoutes(fs, [2]) == []
  {
    var plain := (u: nat) => u < |fs| && fs[u].headers == [] && !fs[u].path.Regex?;
    FilterOne(plain, 0);
    FilterOne(plain, 1);
    FilterOne(plain, 2);
    hide Filter;
    FilterAppend(plain, [0], [1]);
    assert [0] + [1] == [0, 1];
  }

  lemma MeetsRoot()
    ensures PathsMeet(Exact("/a"), Prefix("/"))
  {
    assert PrefixCovers("/", "/a");
  }

  lemma SharedOutranks(os: Platform, g: GroupKey, h: GroupKey)
    ensures var fs := Shared(g, h);
            && Candidates(fs, [0], 1) == [0] && Candidates(fs, [], 2) == []
            && Conflict(os, fs, CopyEntry(fs, 0, 1), HeaderEntry(fs, 1)).None?
            && Conflict(os, fs, HeaderEntry(fs, 1), CopyEntry(fs, 0, 1)).None?
            && LiftedCopy(fs[0], fs[1]) == SharedCopy(g)
  {
    var fs := Shared(g, h);
    MeetsRoot();
    hide PathsMeet;
    assert Outranks(fs[0], fs[1]);
    FilterOne((u: nat) => u < |fs| && Outranks(fs[u], fs[1]), 0);
  }

  lemma SharedPlans(os: Platform, g: GroupKey, h: GroupKey)
    requires Twins(g, h)
    ensures var fs := Shared(g, h);
            && IsPlan(os, fs, MembersOf(fs, g), [], [Chosen(1, [0])])
            && IsPlan(os, fs, MembersOf(fs, h), [], [Chosen(2, [])])
  {
    hide RouteKeyOf, HeaderMatches, PlainRoutes, HeldBy, Outranks, Conflict, MembersOf, IsPlan, LiftedCopy, Resolved,
      Candidates;
    var fs := Shared(g, h);
    SharedMembers(g, h);
    SharedHeaders(fs);
    SharedPlain(fs);
    SharedKeys(os, g, h);
    SharedOutranks(os, g, h);
    HeldInGroup(os, fs, [0, 1]);
    assert CopyKey(os, fs, 0, 1) !in HeldBy(os, fs, [0, 1]);
    assert Lone(os, fs, [0, 1], 1, [0], [0]);
    assert Lone(os, fs, [2], 2, [], []);
    LonePlan(os, fs, [0, 1], 1, [0], [0]);
    LonePlan(os, fs, [2], 2, [], []);
  }

  lemma SharedGroups(g: GroupKey, h: GroupKey)
    requires Twins(g, h)
    ensures |Shared(g, h)| == 3 && GroupsOf(Shared(g, h)) == {g, h}
    ensures var fs := Shared(g, h); GroupOf(fs[0]) == GroupOf(fs[1]) == g && GroupOf(fs[2]) == h
    ensures GroupOf(SharedCopy(g)) == g
  {
    var fs := Shared(g, h);
    assert GroupOf(fs[0]) == GroupOf(fs[1]) == g && GroupOf(fs[2]) == h;
    hide On;
    assert GroupsOf(fs) == {GroupOf(fs[0]), GroupOf(fs[1]), GroupOf(fs[2])};
  }

  function SharedPlan(first: bool): Plan {
    if first then Plan([], [Chosen(1, [0])]) else Plan([], [Chosen(2, [])])
  }

  /** The two are planned apart: nothing is skipped, and one copy is made. */
  lemma SharedPlanned(os: Platform, g: GroupKey, h: GroupKey, kept: seq<Frontend>, copies: seq<(int, Frontend)>,
                      skips: seq<Skip>, plans: map<GroupKey, Plan>)
    requires Twins(g, h) && Lifted(os, Shared(g, h), kept, copies, skips, plans)
    ensures plans == map[g := SharedPlan(true), h := SharedPlan(false)]
  {
    hide IsPlan, MembersOf, Shared, GroupOf;
    var fs := Shared(g, h);
    SharedGroups(g, h);
    SharedPlans(os, g, h);
    assert plans.Keys == GroupsOf(fs);
    hide Lifted;
    PlanOf(os, fs, kept, copies, skips, plans, g);
    PlanOf(os, fs, kept, copies, skips, plans, h);
    PlanDetermined(os, fs, MembersOf(fs, g), plans[g], SharedPlan(true));
    PlanDetermined(os, fs, MembersOf(fs, h), plans[h], SharedPlan(false));
  }

  lemma SharedCopies(os: Platform, g: GroupKey, h: GroupKey, k: GroupKey)
    requires Twins(g, h)
    ensures var plans := map[g := SharedPlan(true), h := SharedPlan(false)];
            && CopiesIn(Shared(g, h), plans, k) == (if k == g then [(1, SharedCopy(g))] else [])
            && (k in plans ==> WellChosen(Shared(g, h), plans[k].spec))
  {
    SharedOutranks(os, g, h);
    hide Shared, SharedCopy, Brought, TierOf, LiftedCopy, Outranks, Conflict, CopyEntry, HeaderEntry, Candidates;
    SharedGroups(g, h);
    LoneBrought(Shared(g, h), 1, [0]);
    LoneBrought(Shared(g, h), 2, []);
  }

  // ---- what is then programmed -------------------------------------------------------------------------------

  lemma SharedKept(os: Platform, g: GroupKey, h: GroupKey, kept: seq<Frontend>, copies: seq<(int, Frontend)>,
                   skips: seq<Skip>, plans: map<GroupKey, Plan>)
    requires Twins(g, h) && Lifted(os, Shared(g, h), kept, copies, skips, plans)
    ensures kept == Shared(g, h) && forall i: nat :: i < 3 ==> i !in Indices(skips)
  {
    hide Lifted, KeptFrontends, Shared, GroupsOf, GroupOf;
    var fs := Shared(g, h);
    SharedGroups(g, h);
    KeptAre(os, fs, kept, copies, skips, plans);
    SharedPlanned(os, g, h, kept, copies, skips, plans);
    forall i: nat | i < |fs| ensures i !in Indices(skips) {
      SkippedInGroup(os, fs, kept, copies, skips, plans, i);
    }
    KeepsAll(fs, Indices(skips));
  }

  lemma SharedListed(os: Platform, g: GroupKey, h: GroupKey, kept: seq<Frontend>, copies: seq<(int, Frontend)>,
                     skips: seq<Skip>, plans: map<GroupKey, Plan>, c: (int, Frontend))
    requires Twins(g, h) && Lifted(os, Shared(g, h), kept, copies, skips, plans)
    ensures c in copies <==> c == (1, SharedCopy(g))
  {
    hide Lifted, CopiesOfPlans, CopiesIn, Shared, SharedCopy, GroupsOf, GroupOf, TierOf, IsPlan;
    SharedGroups(g, h);
    SharedPlanned(os, g, h, kept, copies, skips, plans);
    SharedCopies(os, g, h, GroupOf(c.1));
    PlanOf(os, Shared(g, h), kept, copies, skips, plans, g);
    CopiesHold(Shared(g, h), plans, copies, c);
  }

  lemma SharedConcatenate(os: Platform, g: GroupKey, h: GroupKey)
    requires Twins(g, h)
    ensures CopiesOfPlans(Shared(g, h), map[g := SharedPlan(true), h := SharedPlan(false)], [(1, SharedCopy(g))])
  {
    var fs := Shared(g, h);
    var plans := map[g := SharedPlan(true), h := SharedPlan(false)];
    var copies: seq<(int, Frontend)> := [(1, SharedCopy(g))];
    SharedGroups(g, h);
    hide Shared, SharedCopy, GroupOf, TierOf, Brought, CopiesIn, WellChosen, SharedPlan;
    forall k ensures OfKey(GroupOfCopy, k, copies) == CopiesIn(fs, plans, k) {
      SharedCopies(os, g, h, k);
      OneOfKey(GroupOfCopy, k, copies[0]);
    }
    forall k | k in plans ensures WellChosen(fs, plans[k].spec) {
      SharedCopies(os, g, h, k);
    }
    assert copies[1..] == [] && SortBy(First<int, Frontend>, NatLe, copies) == copies;
    assert Concatenates(fs, plans, copies);
  }

  lemma OneOfKey<T, K>(key: T -> K, k: K, x: T)
    ensures OfKey(key, k, [x]) == if key(x) == k then [x] else []
  {
    OfKeySnoc(key, k, [], x);
    assert [] + [x] == [x] && OfKey(key, k, []) == [];
  }

  lemma SharedSkipsNone(g: GroupKey, h: GroupKey)
    requires g != h
    ensures SkipsOfPlans(map[g := SharedPlan(true), h := SharedPlan(false)], [])
  {
    var plans := map[g := SharedPlan(true), h := SharedPlan(false)];
    var order := [g, h];
    assert order[..1] == [g] && [g][..0] == [];
    assert SkipsIn(plans, order) == SkipsIn(plans, [g]) + [] && SkipsIn(plans, [g]) == SkipsIn(plans, []) + [];
    assert Lists(order, plans.Keys);
  }

  /** The outcome exists: it is what these plans spell. */
  lemma SharedIsLifted(os: Platform, g: GroupKey, h: GroupKey)
    requires Twins(g, h)
    ensures Lifted(os, Shared(g, h), Shared(g, h), [(1, SharedCopy(g))], [],
                   map[g := SharedPlan(true), h := SharedPlan(false)])
  {
    hide IsPlan, Shared, SharedCopy, GroupOf, MembersOf, CopiesOfPlans, SkipsOfPlans, GroupsOf;
    SharedGroups(g, h);
    SharedPlans(os, g, h);
    SharedConcatenate(os, g, h);
    SharedSkipsNone(g, h);
    KeepsAll(Shared(g, h), Indices([]));
  }

  const REQUEST := Request("/a", "GET", map["x" := "1"])

  lemma SharedMatch(os: Platform, g: GroupKey, h: GroupKey)
    ensures var fs := Shared(g, h);
            && Matches(os, fs[0], REQUEST) && Matches(os, fs[1], REQUEST) && Matches(os, fs[2], REQUEST)
            && Matches(os, SharedCopy(g), REQUEST)
  {
    SharedRules();
    assert "/a" == "/a" + "";
    ExactRule(os, "/a", "/a");
    PrefixRule(os, "/", "/a");
    hide PathMatches;
    assert Lower("x") == "x";
    assert HeaderHolds(os, CONDITION, REQUEST);
  }

  /** An order of the leaf in which the other group's header match is served. */
  function Held(g: GroupKey, h: GroupKey): seq<Frontend> {
    var fs := Shared(g, h);
    if g.2 == "*" then [fs[2], fs[0], fs[1], SharedCopy(g)] else [fs[0], fs[1], SharedCopy(g), fs[2]]
  }

  lemma SharedServes(os: Platform, g: GroupKey, h: GroupKey)
    requires Twins(g, h)
    ensures Serves(os, g.2, Held(g, h), REQUEST) == Some(Shared(g, h)[2])
  {
    SharedMatch(os, g, h);
    SharedRules();
    hide Matches, CompiledRule;
    var fs, copy, q := Shared(g, h), SharedCopy(g), REQUEST;
    if g.2 != "*" {
      assert [fs[0], fs[1], copy, fs[2]][1..] == [fs[1], copy, fs[2]] && [fs[1], copy, fs[2]][1..] == [copy, fs[2]];
      assert [copy, fs[2]][1..] == [fs[2]] && [fs[2]][1..] == [];
      var rooted, copied := Selection(1, Some(fs[1]), false), Selection(2, Some(copy), false);
      assert TreeSelect(os, true, Held(g, h), q, NOTHING) == TreeSelect(os, true, [fs[1], copy, fs[2]], q, NOTHING);
      assert TreeSelect(os, true, [fs[1], copy, fs[2]], q, NOTHING) == TreeSelect(os, true, [copy, fs[2]], q, rooted);
      assert TreeSelect(os, true, [copy, fs[2]], q, rooted) == TreeSelect(os, true, [fs[2]], q, copied);
      assert TreeSelect(os, true, [fs[2]], q, copied) == Selection(2, Some(fs[2]), false);
    }
  }

  lemma NotServedRightly(os: Platform, g: GroupKey, h: GroupKey, skipped: set<nat>)
    requires Twins(g, h) && forall i: nat :: i < 3 ==> i !in skipped
    ensures !RequestServed(os, Shared(g, h), g, skipped, Held(g, h), REQUEST)
  {
    var fs := Shared(g, h);
    SharedMembers(g, h);
    SharedMatch(os, g, h);
    SharedServes(os, g, h);
    hide Matches, Serves, MembersOf, NoQueryExtension, GwPrecedence;
    assert KeptIn([0, 1], skipped, 1) && TakenByHeaderMatch(os, fs, g, skipped, REQUEST);
    assert Weighed(os, fs, [0, 1], skipped, REQUEST, 0);
    forall k: nat | KeptIn([0, 1], skipped, k) ensures !SameEffect(fs[2], fs[k]) {
      assert k == 0 || k == 1;
    }
    assert !ServedRightly(os, fs, [0, 1], skipped, REQUEST, fs[2], 0);
  }

  /** However the two groups are planned, a copy has the key of a kept frontend of the other, and a request of one
      is served by the other. */
  lemma SharedLeafFails(os: Platform, g: GroupKey, h: GroupKey, kept: seq<Frontend>, copies: seq<(int, Frontend)>,
                        skips: seq<Skip>, plans: map<GroupKey, Plan>)
    requires Twins(g, h) && Lifted(os, Shared(g, h), kept, copies, skips, plans)
    ensures Resolved(os, Shared(g, h)) && GroupsOf(Shared(g, h)) == {g, h}
    ensures !AllApart(os, kept + Rules(copies)) && !AllServed(os, Shared(g, h), kept, copies, skips)
  {
    hide Lifted, RouteKeyOf, Resolved, Shared, SharedCopy, GroupsOf, GroupOf, RequestServed, Held, Indices;
    var fs := Shared(g, h);
    SharedGroups(g, h);
    SharedKept(os, g, h, kept, copies, skips, plans);
    forall c ensures c in copies <==> c == (1, SharedCopy(g)) {
      SharedListed(os, g, h, kept, copies, skips, plans, c);
    }
    SharedKeys(os, g, h);
    assert (1, SharedCopy(g)) in copies;
    var at :| 0 <= at < |copies| && copies[at] == (1, SharedCopy(g));
    var all := kept + Rules(copies);
    assert all[2] == fs[2] && all[|kept| + at] == SharedCopy(g);
    assert !AllApart(os, all);
    HeldIsLeaf(g, h, kept, copies);
    NotServedRightly(os, g, h, Indices(skips));
    assert !RequestServed(os, fs, g, Indices(skips), Held(g, h), REQUEST);
  }

  lemma HeldIsLeaf(g: GroupKey, h: GroupKey, kept: seq<Frontend>, copies: seq<(int, Frontend)>)
    requires Twins(g, h) && kept == Shared(g, h) && forall c :: c in copies <==> c == (1, SharedCopy(g))
    ensures Leaf(kept, copies, LeafOf(g), Held(g, h))
  {
    hide Shared, SharedCopy, GroupOf, LeafOf;
    var fs := Shared(g, h);
    SharedGroups(g, h);
    assert LeafOf(g) == LeafOf(h);
    assert (1, SharedCopy(g)) in copies;
    forall f ensures f in Held(g, h) <==> f in fs || f == SharedCopy(g) {
      assert f in fs <==> f == fs[0] || f == fs[1] || f == fs[2];
    }
  }

  // ---- exactly which groups are safe -------------------------------------------------------------------------

  /** Whatever frontends the groups hold, what is programmed keeps its promises. */
  ghost predicate Safe(os: Platform, groups: set<GroupKey>) {
    forall fs, kept, copies, skips, plans ::
      Resolved(os, fs) && GroupsOf(fs) <= groups && Lifted(os, fs, kept, copies, skips, plans) ==>
        Promised(os, fs, kept, copies, skips)
  }

  /** Groups a key can spell are safe for all frontends if and only if no two of them share a leaf. */
  lemma SafeExactly(os: Platform, groups: set<GroupKey>)
    requires forall g :: g in groups ==> Spelt(g)
    ensures Safe(os, groups) <==> forall g, h :: g in groups && h in groups && LeafOf(g) == LeafOf(h) ==> g == h
  {
    hide Lifted, Resolved, Promised, LeafOf, Spelt;
    if g, h :| g in groups && h in groups && LeafOf(g) == LeafOf(h) && g != h {
      assert Twins(g, h);
      SharedIsLifted(os, g, h);
      SharedUnsafe(os, g, h);
    } else {
      forall fs, kept, copies, skips, plans |
        Resolved(os, fs) && GroupsOf(fs) <= groups && Lifted(os, fs, kept, copies, skips, plans)
        ensures Promised(os, fs, kept, copies, skips)
      {
        LiftedPromises(os, fs, kept, copies, skips, plans);
      }
    }
  }

  lemma SharedUnsafe(os: Platform, g: GroupKey, h: GroupKey)
    requires Twins(g, h)
    ensures Resolved(os, Shared(g, h)) && GroupsOf(Shared(g, h)) == {g, h}
    ensures !Promised(os, Shared(g, h), Shared(g, h), [(1, SharedCopy(g))], [])
  {
    hide Lifted, Resolved, Shared, SharedCopy, GroupsOf, AllApart, AllServed;
    SharedIsLifted(os, g, h);
    SharedLeafFails(os, g, h, Shared(g, h), [(1, SharedCopy(g))], [],
                    map[g := SharedPlan(true), h := SharedPlan(false)]);
  }
}
