/** What the pass returns, as the lists that are programmed: every route key once, and bounded groups. */
module Programmed {
  import opened Base
  import opened Paths
  import opened Frontends
  import opened RouteKeys
  import opened Tier
  import opened Admissions
  import opened Planner
  import opened Choices
  import opened Precedence
  import opened Planning
  import opened Lifting

  /** The copies of all the plans are one sequence: what each header match brought, in its tier's order, header
      match by header match. */
  lemma CopiesDetermined(os: Platform, fs: seq<Frontend>, plans: map<GroupKey, Plan>, a: seq<(int, Frontend)>,
                         b: seq<(int, Frontend)>)
    requires CopiesOfPlans(fs, plans, a) && CopiesOfPlans(fs, plans, b) && PlansAll(os, fs, plans)
    ensures a == b
  {
    PlansOwnTheirs(os, fs, plans);
    hide CopiesIn, OfKey, SortBy, OwnersInGroup, PlansAll;
    var x :| Concatenates(fs, plans, x) && a == SortBy(First<int, Frontend>, NatLe, x);
    var y :| Concatenates(fs, plans, y) && b == SortBy(First<int, Frontend>, NatLe, y);
    forall k ensures OfKey(First<int, Frontend>, k, x) == OfKey(First<int, Frontend>, k, y) {
      OwnedInGroup(fs, plans, x, k);
      OwnedInGroup(fs, plans, y, k);
    }
    SortDetermined(First<int, Frontend>, NatLe, x, y);
  }

  /** Each plan's copies are above its own group's header matches. */
  ghost predicate OwnersInGroup(fs: seq<Frontend>, plans: map<GroupKey, Plan>) {
    forall g, c :: c in CopiesIn(fs, plans, g) ==> 0 <= c.0 < |fs| && GroupOf(fs[c.0]) == g && GroupOf(c.1) == g
  }

  lemma PlansOwnTheirs(os: Platform, fs: seq<Frontend>, plans: map<GroupKey, Plan>)
    requires PlansAll(os, fs, plans)
    ensures OwnersInGroup(fs, plans)
  {
    hide IsPlan, Brought, TierOf, MembersUpTo;
    forall g, c | c in CopiesIn(fs, plans, g) ensures 0 <= c.0 < |fs| && GroupOf(fs[c.0]) == g && GroupOf(c.1) == g {
      BroughtInGroup(os, fs, g, plans[g], c);
    }
  }

  /** What header match `k` brought is found in its own group's copies. */
  lemma OwnedInGroup(fs: seq<Frontend>, plans: map<GroupKey, Plan>, brought: seq<(int, Frontend)>, k: int)
    requires Concatenates(fs, plans, brought) && OwnersInGroup(fs, plans)
    ensures OfKey(First<int, Frontend>, k, brought) ==
            if 0 <= k < |fs| then OfKey(First<int, Frontend>, k, CopiesIn(fs, plans, GroupOf(fs[k]))) else []
  {
    hide CopiesIn, OfKey;
    forall c | c in brought ensures 0 <= c.0 < |fs| && GroupOf(fs[c.0]) == GroupOf(c.1) {
      OfKeyMember(GroupOfCopy, GroupOf(c.1), brought, c);
    }
    if 0 <= k < |fs| {
      OfKeyWithin(First<int, Frontend>, k, GroupOfCopy, GroupOf(fs[k]), brought);
    } else {
      OfKeyNone(First<int, Frontend>, k, brought);
    }
  }

  /** Elements of one key that all have another key are found among those of the other. */
  lemma {:induction false} OfKeyWithin<T, K, L>(key: T -> K, k: K, other: T -> L, l: L, s: seq<T>)
    requires forall x :: x in s && key(x) == k ==> other(x) == l
    ensures OfKey(key, k, s) == OfKey(key, k, OfKey(other, l, s))
  {
    if s != [] {
      OfKeyWithin(key, k, other, l, s[1..]);
      var rest := OfKey(other, l, s[1..]);
      assert s == [s[0]] + s[1..];
      OfKeyCons(key, k, s[0], s[1..]);
      OfKeyCons(other, l, s[0], s[1..]);
      OfKeyCons(key, k, s[0], rest);
      hide OfKey;
      if other(s[0]) != l {
        assert [] + rest == rest;
      }
    }
  }

  // ---- nothing twice -----------------------------------------------------------------------------------

  lemma {:induction false} OfKeyCounts<T, K>(key: T -> K, k: K, s: seq<T>, x: T)
    ensures multiset(OfKey(key, k, s))[x] == if key(x) == k then multiset(s)[x] else 0
  {
    if s != [] {
      OfKeyCounts(key, k, s[1..], x);
      assert s == [s[0]] + s[1..];
    }
  }

  lemma {:induction false} InsertUnder<T, K, L>(rank: T -> L, le: (L, L) -> bool, key: T -> K, k: K, x: T, s: seq<T>)
    ensures multiset(OfKey(key, k, InsertBy(rank, le, x, s))) == multiset(OfKey(key, k, [x] + s))
  {
    if s == [] {
      assert [x] + s == [x];
    } else if !le(rank(x), rank(s[0])) {
      var y, rest, inserted := s[0], s[1..], InsertBy(rank, le, x, s[1..]);
      InsertUnder(rank, le, key, k, x, rest);
      assert s == [y] + rest;
      assert InsertBy(rank, le, x, s) == [y] + inserted;
      hide OfKey, InsertBy;
      OfKeyCons(key, k, y, inserted);
      OfKeyCons(key, k, x, rest);
      OfKeyCons(key, k, x, s);
      OfKeyCons(key, k, y, rest);
    }
  }

  /** Sorting by one key keeps what stands under another. */
  lemma {:induction false} SortUnder<T, K, L>(rank: T -> L, le: (L, L) -> bool, key: T -> K, k: K, s: seq<T>)
    ensures multiset(OfKey(key, k, SortBy(rank, le, s))) == multiset(OfKey(key, k, s))
  {
    if s != [] {
      var sorted := SortBy(rank, le, s[1..]);
      SortUnder(rank, le, key, k, s[1..]);
      InsertUnder(rank, le, key, k, s[0], sorted);
      assert s == [s[0]] + s[1..];
      OfKeyCons(key, k, s[0], sorted);
      OfKeyCons(key, k, s[0], s[1..]);
    }
  }

  /** A group's copies, in the list returned, are its plan's. */
  lemma CopiesOfGroup(fs: seq<Frontend>, plans: map<GroupKey, Plan>, copies: seq<(int, Frontend)>, g: GroupKey)
    requires CopiesOfPlans(fs, plans, copies)
    ensures multiset(OfKey(GroupOfCopy, g, copies)) == multiset(CopiesIn(fs, plans, g))
    ensures |OfKey(GroupOfCopy, g, copies)| == |CopiesIn(fs, plans, g)|
  {
    hide CopiesIn, OfKey, SortBy;
    var brought :| Concatenates(fs, plans, brought) && copies == SortBy(First<int, Frontend>, NatLe, brought);
    SortUnder(First<int, Frontend>, NatLe, GroupOfCopy, g, brought);
    var listed, planned := OfKey(GroupOfCopy, g, copies), CopiesIn(fs, plans, g);
    assert |multiset(listed)| == |listed| && |multiset(planned)| == |planned|;
  }

  lemma {:induction false} BroughtSize(fs: seq<Frontend>, chosen: seq<Chosen>)
    requires WellChosen(fs, chosen)
    ensures |Brought(TierOf(fs, chosen))| == CopyCount(chosen)
  {
    if chosen != [] {
      var n := |chosen| - 1;
      BroughtSize(fs, chosen[..n]);
      EntriesBrought(fs, TierOf(fs, chosen[..n]), chosen[n], |EntriesOf(fs, chosen[n])|);
      var entries := EntriesOf(fs, chosen[n]);
      assert entries[..|entries|] == entries;
    }
  }

  lemma {:induction false} EntriesBrought(fs: seq<Frontend>, before: seq<Predicated>, c: Chosen, n: nat)
    requires c.owner < |fs| && InGroup(fs, c.routes) && n <= |EntriesOf(fs, c)|
    ensures |Brought(before + EntriesOf(fs, c)[..n])| == |Brought(before)| + if n == 0 then 0 else n - 1
  {
    hide LiftedCopy;
    var entries := EntriesOf(fs, c);
    var tier := before + entries[..n];
    if n == 0 {
      assert tier == before;
    } else {
      EntriesBrought(fs, before, c, n - 1);
      assert tier[..|tier| - 1] == before + entries[..n - 1] && tier[|tier| - 1] == entries[n - 1];
      assert entries[n - 1].copy == (n > 1);
    }
  }

  /** Different positions of a tier bring copies under different keys. */
  ghost predicate KeysApartIn(os: Platform, copies: seq<(int, Frontend)>) {
    forall i, j :: 0 <= i < j < |copies| ==> RouteKeyOf(os, copies[i].1) != RouteKeyOf(os, copies[j].1)
  }

  lemma {:induction false} BroughtApart(os: Platform, tier: seq<Predicated>)
    requires forall i, j :: 0 <= i < j < |tier| && tier[i].copy && tier[j].copy ==>
               RouteKeyOf(os, tier[i].rule) != RouteKeyOf(os, tier[j].rule)
    ensures KeysApartIn(os, Brought(tier))
  {
    hide RouteKeyOf;
    if tier != [] {
      var n := |tier| - 1;
      var before := Brought(tier[..n]);
      BroughtApart(os, tier[..n]);
      forall i | 0 <= i < |before| && tier[n].copy ensures RouteKeyOf(os, before[i].1) != RouteKeyOf(os, tier[n].rule) {
        BroughtHolds(tier[..n], before[i]);
        var e :| e in tier[..n] && e.copy && (e.owner, e.rule) == before[i];
      }
    }
  }

  lemma PlanApart(os: Platform, fs: seq<Frontend>, plans: map<GroupKey, Plan>, g: GroupKey)
    requires PlansAll(os, fs, plans) && Resolved(os, fs)
    ensures KeysApartIn(os, CopiesIn(fs, plans, g))
  {
    hide IsPlan, RouteKeyOf, TierOf, Brought, Planned;
    if g in plans && WellChosen(fs, plans[g].spec) {
      var members, skipped, spec := MembersOf(fs, g), Indices(plans[g].skips), plans[g].spec;
      LeafIsPlanned(os, fs, plans, g);
      var tier := TierOf(fs, spec);
      var brought := RoundFacts(os, fs, members, skipped, spec);
      forall i, j | 0 <= i < j < |tier| && tier[i].copy && tier[j].copy
        ensures RouteKeyOf(os, tier[i].rule) != RouteKeyOf(os, tier[j].rule)
      {
        KeysDistinct(os, fs, members, skipped, spec, tier[i]);
        assert tier[i].Id() != tier[j].Id();
        assert tier[j] in tier;
      }
      BroughtApart(os, tier);
    }
  }

  lemma {:induction false} ApartOnce(os: Platform, copies: seq<(int, Frontend)>, c: (int, Frontend))
    requires KeysApartIn(os, copies)
    ensures multiset(copies)[c] <= 1
  {
    hide RouteKeyOf;
    if copies != [] {
      assert copies == [copies[0]] + copies[1..];
      ApartOnce(os, copies[1..], c);
      if copies[0] == c {
        assert c !in copies[1..];
        assert c !in multiset(copies[1..]);
      }
    }
  }

  /** No copy is listed twice, and no two share a route key. */
  lemma CopiesApart(os: Platform, fs: seq<Frontend>, kept: seq<Frontend>, copies: seq<(int, Frontend)>,
                    skips: seq<Skip>, plans: map<GroupKey, Plan>)
    requires Lifted(os, fs, kept, copies, skips, plans) && Resolved(os, fs) && OneGroupPerLeaf(fs)
    ensures KeysApartIn(os, copies)
  {
    hide IsPlan, RouteKeyOf, TierOf, Brought, Planned, CopiesIn, OfKey, CopiesOfPlans, Indices;
    forall i, j | 0 <= i < j < |copies| ensures RouteKeyOf(os, copies[i].1) != RouteKeyOf(os, copies[j].1) {
      var a, b := copies[i], copies[j];
      var g, d := CopyOrigin(os, fs, kept, copies, skips, plans, a);
      var h, e := CopyOrigin(os, fs, kept, copies, skips, plans, b);
      if a == b {
        Twice(copies, i, j);
        CopiesOfGroup(fs, plans, copies, g);
        OfKeyCounts(GroupOfCopy, g, copies, a);
        PlanApart(os, fs, plans, g);
        ApartOnce(os, CopiesIn(fs, plans, g), a);
        assert false;
      } else if g == h {
        LeafIsPlanned(os, fs, plans, g);
        KeysDistinct(os, fs, MembersOf(fs, g), Indices(plans[g].skips), plans[g].spec, d);
      } else {
        LeafIsPlanned(os, fs, plans, h);
        CopyIsKeyable(os, fs, MembersOf(fs, h), Indices(plans[h].skips), plans[h].spec, e);
        KeysDistinctAcross(os, fs, plans, g, d, b.1);
      }
    }
  }

  lemma {:induction false} KeptApart(os: Platform, fs: seq<Frontend>, skipped: set<nat>)
    requires Resolved(os, fs)
    ensures AllApart(os, KeptFrontends(fs, skipped))
  {
    hide RouteKeyOf, Keyable;
    if fs != [] {
      var n := |fs| - 1;
      var before := KeptFrontends(fs[..n], skipped);
      KeptApart(os, fs[..n], skipped);
      forall i | 0 <= i < |before| ensures RouteKeyOf(os, before[i]) != RouteKeyOf(os, fs[n]) {
        KeptFrontendsHold(fs[..n], skipped, before[i]);
        var k: nat :| k < n && k !in skipped && fs[..n][k] == before[i];
        assert fs[k] == before[i];
      }
    }
  }

  ghost predicate AllApart(os: Platform, fs: seq<Frontend>) {
    forall i, j :: 0 <= i < j < |fs| ==> RouteKeyOf(os, fs[i]) != RouteKeyOf(os, fs[j])
  }

  lemma KeptFromCopy(os: Platform, fs: seq<Frontend>, kept: seq<Frontend>, copies: seq<(int, Frontend)>,
                     skips: seq<Skip>, plans: map<GroupKey, Plan>, f: Frontend, c: (int, Frontend))
    requires Lifted(os, fs, kept, copies, skips, plans) && Resolved(os, fs) && OneGroupPerLeaf(fs)
    requires f in kept && c in copies
    ensures RouteKeyOf(os, f) != RouteKeyOf(os, c.1)
  {
    hide IsPlan, RouteKeyOf, TierOf, Planned, CopiesOfPlans, Indices, Keyable;
    var g, e := CopyOrigin(os, fs, kept, copies, skips, plans, c);
    KeptFrontendsHold(fs, Indices(skips), f);
    var i: nat :| i < |fs| && i !in Indices(skips) && fs[i] == f;
    assert GroupOf(f) in GroupsOf(fs);
    if GroupOf(f) == g {
      SkippedInGroup(os, fs, kept, copies, skips, plans, i);
      LeafIsPlanned(os, fs, plans, g);
      KeysDistinct(os, fs, MembersOf(fs, g), Indices(plans[g].skips), plans[g].spec, e);
      assert KeptIn(MembersOf(fs, g), Indices(plans[g].skips), i);
    } else {
      KeysDistinctAcross(os, fs, plans, g, e, f);
    }
  }

  function Rules(copies: seq<(int, Frontend)>): seq<Frontend> {
    seq(|copies|, i requires 0 <= i < |copies| => copies[i].1)
  }

  /** What is programmed, kept frontends first, holds every route key once: no add meets an occupied key. */
  lemma ProgramApart(os: Platform, fs: seq<Frontend>, kept: seq<Frontend>, copies: seq<(int, Frontend)>,
                     skips: seq<Skip>, plans: map<GroupKey, Plan>)
    requires Lifted(os, fs, kept, copies, skips, plans) && Resolved(os, fs) && OneGroupPerLeaf(fs)
    ensures AllApart(os, kept + Rules(copies))
  {
    hide RouteKeyOf, Lifted, Resolved, OneGroupPerLeaf, KeptFrontends, Indices, AllApart;
    assert AllApart(os, kept) by {
      KeptAre(os, fs, kept, copies, skips, plans);
      KeptApart(os, fs, Indices(skips));
    }
    CopiesApart(os, fs, kept, copies, skips, plans);
    forall i, j | 0 <= i < |kept| && 0 <= j < |copies| ensures RouteKeyOf(os, kept[i]) != RouteKeyOf(os, copies[j].1) {
      KeptFromCopy(os, fs, kept, copies, skips, plans, kept[i], copies[j]);
    }
    AppendApart(os, kept, copies);
  }

  lemma KeptAre(os: Platform, fs: seq<Frontend>, kept: seq<Frontend>, copies: seq<(int, Frontend)>, skips: seq<Skip>,
                plans: map<GroupKey, Plan>)
    requires Lifted(os, fs, kept, copies, skips, plans)
    ensures kept == KeptFrontends(fs, Indices(skips))
  {
  }

  lemma AppendApart(os: Platform, kept: seq<Frontend>, copies: seq<(int, Frontend)>)
    requires AllApart(os, kept) && KeysApartIn(os, copies)
    requires forall i, j :: 0 <= i < |kept| && 0 <= j < |copies| ==>
        RouteKeyOf(os, kept[i]) != RouteKeyOf(os, copies[j].1)
    ensures AllApart(os, kept + Rules(copies))
  {
    hide RouteKeyOf;
    var all := kept + Rules(copies);
    forall i, j | 0 <= i < j < |all| ensures RouteKeyOf(os, all[i]) != RouteKeyOf(os, all[j]) {
      if |kept| <= j {
        assert all[j] == copies[j - |kept|].1;
      }
      if |kept| <= i {
        assert all[i] == copies[i - |kept|].1;
      }
    }
  }

  // ---- bounds --------------------------------------------------------------------------------------------

  /** The group whose header match `f` is. */
  function HeaderGroup(f: Frontend): Option<GroupKey> {
    if f.headers == [] then None else Some(GroupOf(f))
  }

  lemma {:induction false} FilterAppend<T>(p: T -> bool, a: seq<T>, b: seq<T>)
    ensures Filter(p, a + b) == Filter(p, a) + Filter(p, b)
  {
    if a == [] {
      assert a + b == b;
    } else {
      assert (a + b)[1..] == a[1..] + b;
      FilterAppend(p, a[1..], b);
    }
  }

  function Unskipped(skipped: set<nat>): nat -> bool {
    p => p !in skipped
  }

  lemma HeadersStep(fs: seq<Frontend>, g: GroupKey, n: nat)
    requires n < |fs|
    ensures HeaderMatches(fs, MembersUpTo(fs, g, n + 1)) ==
            HeaderMatches(fs, MembersUpTo(fs, g, n)) + if HeaderGroup(fs[n]) == Some(g) then [n] else []
  {
    hide MembersUpTo, Filter, HeaderMatches, GroupOf;
    MembersStep(fs, g, n);
    var members := MembersUpTo(fs, g, n);
    var more := members + [n];
    assert members + [] == members && more[..|members|] == members && more[..|members| + 1] == more;
    if GroupOf(fs[n]) == g {
      HeaderMatchesSnoc(fs, more, |members|);
    }
  }

  lemma KeptStep(fs: seq<Frontend>, skipped: set<nat>, g: GroupKey, n: nat)
    requires n < |fs|
    ensures OfKey(HeaderGroup, Some(g), KeptFrontends(fs[..n + 1], skipped)) ==
            OfKey(HeaderGroup, Some(g), KeptFrontends(fs[..n], skipped)) +
            if n !in skipped && HeaderGroup(fs[n]) == Some(g) then [fs[n]] else []
  {
    var before := KeptFrontends(fs[..n], skipped);
    assert fs[..n + 1][..n] == fs[..n];
    assert KeptFrontends(fs[..n + 1], skipped) == before + if n in skipped then [] else [fs[n]];
    hide KeptFrontends, OfKey;
    OfKeySnoc(HeaderGroup, Some(g), before, fs[n]);
    assert before + [] == before;
  }

  ghost predicate AsManyHeaders(fs: seq<Frontend>, skipped: set<nat>, g: GroupKey, n: nat)
    requires n <= |fs|
  {
    |OfKey(HeaderGroup, Some(g), KeptFrontends(fs[..n], skipped))| ==
    |Filter(Unskipped(skipped), HeaderMatches(fs, MembersUpTo(fs, g, n)))|
  }

  lemma NoHeaders(fs: seq<Frontend>, skipped: set<nat>, g: GroupKey)
    ensures AsManyHeaders(fs, skipped, g, 0)
  {
    assert fs[..0] == [];
  }

  lemma OneMoreHeader(fs: seq<Frontend>, skipped: set<nat>, g: GroupKey, n: nat)
    requires n < |fs| && AsManyHeaders(fs, skipped, g, n)
    ensures AsManyHeaders(fs, skipped, g, n + 1)
  {
    hide KeptFrontends, MembersUpTo, OfKey, Filter, HeaderMatches, HeaderGroup;
    KeptStep(fs, skipped, g, n);
    HeadersStep(fs, g, n);
    var headers := HeaderMatches(fs, MembersUpTo(fs, g, n));
    assert headers + [] == headers;
    FilterSnoc(Unskipped(skipped), headers, n);
  }

  /** The header matches of a group not skipped, by index, are as many as are kept. */
  lemma {:induction false} KeptHeaders(fs: seq<Frontend>, skipped: set<nat>, g: GroupKey, n: nat)
    requires n <= |fs|
    ensures AsManyHeaders(fs, skipped, g, n)
  {
    hide AsManyHeaders;
    if n == 0 {
      NoHeaders(fs, skipped, g);
    } else {
      KeptHeaders(fs, skipped, g, n - 1);
      OneMoreHeader(fs, skipped, g, n - 1);
    }
  }

  /** At most 64 header matches of a group are kept, and at most 64 copies are added to it. */
  lemma ProgramIsBounded(os: Platform, fs: seq<Frontend>, kept: seq<Frontend>, copies: seq<(int, Frontend)>,
                         skips: seq<Skip>, plans: map<GroupKey, Plan>, g: GroupKey)
    requires Lifted(os, fs, kept, copies, skips, plans) && Resolved(os, fs) && g in GroupsOf(fs)
    ensures |OfKey(HeaderGroup, Some(g), kept)| <= MAX_HEADER_MATCHES_PER_HOSTNAME
    ensures |OfKey(GroupOfCopy, g, copies)| <= MAX_LIFTED_PER_HOSTNAME
  {
    EveryGroupIsPlanned(os, fs, kept, copies, skips, plans, g);
    assert CopiesOfPlans(fs, plans, copies) && PlansAll(os, fs, plans);
    CopiesOfGroup(fs, plans, copies, g);
    BroughtSize(fs, plans[g].spec);
    LeafIsPlanned(os, fs, plans, g);
    PlanIsBounded(os, fs, MembersOf(fs, g), Indices(plans[g].skips), plans[g].spec);
    HeadersBounded(os, fs, kept, copies, skips, plans, g);
  }

  lemma HeadersBounded(os: Platform, fs: seq<Frontend>, kept: seq<Frontend>, copies: seq<(int, Frontend)>,
                       skips: seq<Skip>, plans: map<GroupKey, Plan>, g: GroupKey)
    requires Lifted(os, fs, kept, copies, skips, plans) && g in GroupsOf(fs)
    ensures |OfKey(HeaderGroup, Some(g), kept)| <= MAX_HEADER_MATCHES_PER_HOSTNAME
  {
    hide GroupsOf;
    EveryGroupIsPlanned(os, fs, kept, copies, skips, plans, g);
    var members, unskipped := MembersOf(fs, g), Unskipped(Indices(skips));
    var originals, over := Originals(fs, members), OverCap(fs, members);
    hide Lifted, OfKey, Filter, KeptFrontends, Indices, Originals, OverCap, HeaderMatches, GroupsOf;
    Capped(fs, members);
    KeptAre(os, fs, kept, copies, skips, plans);
    OverIsSkipped(os, fs, kept, copies, skips, plans, g);
    assert fs[..|fs|] == fs;
    KeptHeaders(fs, Indices(skips), g, |fs|);
    FilterAppend(unskipped, originals, over);
    FilterNone(unskipped, over);
    FilterShrinks(unskipped, originals);
  }

  lemma Capped(fs: seq<Frontend>, members: seq<nat>)
    requires InGroup(fs, members)
    ensures HeaderMatches(fs, members) == Originals(fs, members) + OverCap(fs, members)
    ensures |Originals(fs, members)| <= MAX_HEADER_MATCHES_PER_HOSTNAME
  {
    hide HeaderMatches;
  }

  lemma OverIsSkipped(os: Platform, fs: seq<Frontend>, kept: seq<Frontend>, copies: seq<(int, Frontend)>,
                      skips: seq<Skip>, plans: map<GroupKey, Plan>, g: GroupKey)
    requires Lifted(os, fs, kept, copies, skips, plans) && g in plans && InGroup(fs, MembersOf(fs, g))
    ensures forall p :: p in OverCap(fs, MembersOf(fs, g)) ==> p in Indices(skips)
  {
    hide CopiesOfPlans, IsRound, MembersUpTo, OverCap, Originals, SkipsOfPlans;
    var over := OverCap(fs, MembersOf(fs, g));
    assert IsPlan(os, fs, MembersOf(fs, g), plans[g].skips, plans[g].spec);
    SkipsAre(plans, skips);
    forall p | p in over ensures p in Indices(skips) {
      var i :| 0 <= i < |over| && over[i] == p;
      assert CapSkips(over)[i] in plans[g].skips;
      assert CapSkips(over)[i] in skips;
    }
  }

  lemma {:induction false} FilterNone<T>(p: T -> bool, s: seq<T>)
    requires forall x :: x in s ==> !p(x)
    ensures Filter(p, s) == []
  {
    if s != [] {
      FilterNone(p, s[1..]);
    }
  }
}
