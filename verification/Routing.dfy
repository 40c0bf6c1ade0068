/** From the frontends of every object to what Sozu is given: collision resolution, then planning. */
module Routing {
  import opened Base
  import opened Paths
  import opened Frontends
  import opened RouteKeys
  import opened Sozu
  import opened Tier
  import opened Admissions
  import opened Planner
  import opened Choices
  import opened Precedence
  import opened Planning
  import opened Lifting
  import opened Programmed
  import opened Collisions

  // ---- planning has one outcome --------------------------------------------------------------------------

  /** A round has one outcome. */
  lemma RoundDetermined(os: Platform, fs: seq<Frontend>, members: seq<nat>, skipped: set<nat>, a: Outcome<seq<Chosen>>,
                        b: Outcome<seq<Chosen>>)
    requires InGroup(fs, members) && IsRound(os, fs, members, skipped, a) && IsRound(os, fs, members, skipped, b)
    ensures a == b
  {
    hide ChooseAll, HeldBy, PlainRoutes, Originals, FirstPair, TierOf, Admissible;
    HeldInGroup(os, fs, members);
    OriginalsInGroup(fs, members);
    var all := ChooseAll(os, fs, PlainRoutes(fs, members), HeldBy(os, fs, members), skipped, Originals(fs, members), {},
                         []);
    if all.Done? {
      var tier := TierOf(fs, all.value);
      var x :| FirstPair(os, fs, tier, x) && a == Verdict(tier, all.value, x);
      var y :| FirstPair(os, fs, tier, y) && b == Verdict(tier, all.value, y);
      FirstPairUnique(os, fs, tier, x, y);
    }
  }

  lemma {:induction false} SkipsAgree(os: Platform, fs: seq<Frontend>, members: seq<nat>, a: seq<Skip>, b: seq<Skip>,
                                      n: nat)
    requires InGroup(fs, members) && SkipsSoFar(os, fs, members, a) && SkipsSoFar(os, fs, members, b) && n <= |a|
        && n <= |b|
    ensures a[..n] == b[..n]
  {
    hide IsRound, Originals, OverCap, Indices;
    var over := OverCap(fs, members);
    if n > |over| {
      SkipsAgree(os, fs, members, a, b, n - 1);
      RoundDetermined(os, fs, members, Indices(a[..n - 1]), Skipped(a[n - 1]), Skipped(b[n - 1]));
      assert a[..n] == a[..n - 1] + [a[n - 1]] && b[..n] == b[..n - 1] + [b[n - 1]];
    } else {
      assert a[..n] == CapSkips(over)[..n] && b[..n] == CapSkips(over)[..n];
    }
  }

  /** A group has one plan: the same header matches are skipped, in the same order, for the same reasons. */
  lemma PlanDetermined(os: Platform, fs: seq<Frontend>, members: seq<nat>, a: Plan, b: Plan)
    requires IsPlan(os, fs, members, a.skips, a.spec) && IsPlan(os, fs, members, b.skips, b.spec)
    ensures a == b
  {
    hide IsRound, Originals, OverCap, Indices;
    var m, n := |a.skips|, |b.skips|;
    if m < n {
      SkipsAgree(os, fs, members, a.skips, b.skips, m);
      assert a.skips[..m] == a.skips;
      RoundDetermined(os, fs, members, Indices(a.skips), Done(a.spec), Skipped(b.skips[m]));
    } else if n < m {
      SkipsAgree(os, fs, members, b.skips, a.skips, n);
      assert b.skips[..n] == b.skips;
      RoundDetermined(os, fs, members, Indices(b.skips), Done(b.spec), Skipped(a.skips[n]));
    } else {
      SkipsAgree(os, fs, members, a.skips, b.skips, m);
      assert a.skips[..m] == a.skips && b.skips[..m] == b.skips;
      RoundDetermined(os, fs, members, Indices(a.skips), Done(a.spec), Done(b.spec));
    }
  }

  // ---- the whole pass ------------------------------------------------------------------------------------

  /** A kept header match of the group takes the request. */
  ghost predicate TakenByHeaderMatch(os: Platform, fs: seq<Frontend>, g: GroupKey, skipped: set<nat>, q: Request) {
    exists p: nat :: KeptIn(MembersOf(fs, g), skipped, p) && p < |fs| && fs[p].headers != [] && Matches(os, fs[p], q)
  }

  /** A request some kept header match takes is served the Gateway API's way; any other as if only plain
      routes were held, when no header match's path goes on from a plain Exact path with a query. */
  ghost predicate RequestServed(os: Platform, fs: seq<Frontend>, g: GroupKey, skipped: set<nat>, held: seq<Frontend>,
                                q: Request) {
    var served := Serves(os, g.2, held, q);
    if TakenByHeaderMatch(os, fs, g, skipped, q) then
      served.Some? && forall f :: Weighed(os, fs, MembersOf(fs, g), skipped, q, f) ==>
                                    ServedRightly(os, fs, MembersOf(fs, g), skipped, q, served.value, f)
    else
      LfFree(q.target) && "/" <= q.target && NoQueryExtension(fs, MembersOf(fs, g)) ==>
        served == Serves(os, g.2, Filter(IsPlain, held), q)
  }

  predicate IsPlain(f: Frontend) { f.headers == [] }

  /** `RequestServed` for every request, in every leaf, however its frontends are ordered. */
  ghost predicate AllServed(os: Platform, fs: seq<Frontend>, kept: seq<Frontend>, copies: seq<(int, Frontend)>,
                            skips: seq<Skip>) {
    forall g, held, q :: g in GroupsOf(fs) && Leaf(kept, copies, LeafOf(g), held) ==>
      RequestServed(os, fs, g, Indices(skips), held, q)
  }

  lemma SameKept(os: Platform, fs: seq<Frontend>, kept: seq<Frontend>, copies: seq<(int, Frontend)>, skips: seq<Skip>,
                 plans: map<GroupKey, Plan>, g: GroupKey)
    requires Lifted(os, fs, kept, copies, skips, plans) && g in plans
    ensures forall i: nat :: KeptIn(MembersOf(fs, g), Indices(skips), i) <==>
        KeptIn(MembersOf(fs, g), Indices(plans[g].skips), i)
  {
    hide IsPlan, CopiesOfPlans, Indices;
    forall i: nat | i in MembersOf(fs, g) ensures i in Indices(skips) <==> i in Indices(plans[g].skips) {
      SkippedInGroup(os, fs, kept, copies, skips, plans, i);
    }
  }

  lemma SameStanding(os: Platform, fs: seq<Frontend>, members: seq<nat>, a: set<nat>, b: set<nat>, q: Request)
    requires forall i: nat :: KeptIn(members, a, i) <==> KeptIn(members, b, i)
    ensures forall f :: Weighed(os, fs, members, a, q, f) <==> Weighed(os, fs, members, b, q, f)
    ensures forall served, f :: ServedRightly(os, fs, members, a, q, served, f) ==>
        ServedRightly(os, fs, members, b, q, served, f)
  {
    hide Matches, GwPrecedence;
  }

  lemma RequestIsServed(os: Platform, fs: seq<Frontend>, kept: seq<Frontend>, copies: seq<(int, Frontend)>,
                        skips: seq<Skip>, plans: map<GroupKey, Plan>, g: GroupKey, held: seq<Frontend>, q: Request)
    requires Lifted(os, fs, kept, copies, skips, plans) && Resolved(os, fs) && OneGroupPerLeaf(fs)
    requires g in plans && g in GroupsOf(fs) && Leaf(kept, copies, LeafOf(g), held)
    ensures RequestServed(os, fs, g, Indices(skips), held, q)
  {
    hide Lifted, Resolved, Leaf, Indices, OneGroupPerLeaf, GroupsOf, Weighed, ServedRightly, Serves, Matches,
        NoQueryExtension;
    var members, own := MembersOf(fs, g), Indices(plans[g].skips);
    SameKept(os, fs, kept, copies, skips, plans, g);
    SameStanding(os, fs, members, Indices(skips), own, q);
    SameStanding(os, fs, members, own, Indices(skips), q);
    if TakenByHeaderMatch(os, fs, g, Indices(skips), q) {
      var p: nat :| KeptIn(members, Indices(skips), p) && p < |fs| && fs[p].headers != [] && Matches(os, fs[p], q);
      ItselfWeighed(os, fs, members, own, q, p);
      LiftedServesRightly(os, fs, kept, copies, skips, plans, g, held, q, p, p);
      forall f | Weighed(os, fs, members, Indices(skips), q, f)
        ensures ServedRightly(os, fs, members, Indices(skips), q, Serves(os, g.2, held, q).value, f)
      {
        LiftedServesRightly(os, fs, kept, copies, skips, plans, g, held, q, p, f);
      }
    } else if LfFree(q.target) && "/" <= q.target && NoQueryExtension(fs, members) {
      forall p: nat | KeptIn(members, own, p) && fs[p].headers != [] ensures !Matches(os, fs[p], q) {
        assert KeptIn(members, Indices(skips), p);
      }
      LiftedAddsNothing(os, fs, kept, copies, skips, plans, g, held, q);
      FilterSame((f: Frontend) => f.headers == [], IsPlain, held);
    }
  }

  lemma ItselfWeighed(os: Platform, fs: seq<Frontend>, members: seq<nat>, skipped: set<nat>, q: Request, p: nat)
    requires KeptIn(members, skipped, p) && p < |fs| && fs[p].headers != [] && Matches(os, fs[p], q)
    ensures Weighed(os, fs, members, skipped, q, p)
  {
  }

  /** At most 64 header matches and 64 copies in every group. */
  ghost predicate Bounded(fs: seq<Frontend>, kept: seq<Frontend>, copies: seq<(int, Frontend)>) {
    forall g :: g in GroupsOf(fs) ==>
      && |OfKey(HeaderGroup, Some(g), kept)| <= MAX_HEADER_MATCHES_PER_HOSTNAME
      && |OfKey(GroupOfCopy, g, copies)| <= MAX_LIFTED_PER_HOSTNAME
  }

  /** No listener carries an IPv6 zone. */
  ghost predicate Unzoned(fs: seq<Frontend>) {
    forall f :: f in fs ==> f.listener.zone == 0
  }

  lemma UnzonedHaveOwnLeaves(fs: seq<Frontend>)
    requires Unzoned(fs)
    ensures OneGroupPerLeaf(fs)
  {
    forall g, h | g in GroupsOf(fs) && h in GroupsOf(fs) && LeafOf(g) == LeafOf(h) ensures g == h {
      var i :| 0 <= i < |fs| && GroupOf(fs[i]) == g;
      var j :| 0 <= j < |fs| && GroupOf(fs[j]) == h;
      assert fs[i] in fs && fs[j] in fs;
    }
  }

  lemma KeptUnzoned(os: Platform, claims: Claims, inputs: seq<Sourced>)
    requires Unzoned(FrontendsOf(inputs))
    ensures Unzoned(FrontendsOf(Resolve(os, claims, inputs).kept))
  {
    hide Resolve;
    var kept := Resolve(os, claims, inputs).kept;
    forall f | f in FrontendsOf(kept) ensures f.listener.zone == 0 {
      var k :| 0 <= k < |kept| && FrontendsOf(kept)[k] == f;
      var i := KeptIsOldest(os, claims, inputs, kept[k]);
      assert FrontendsOf(inputs)[i] in FrontendsOf(inputs);
    }
  }

  /** Every route key occurs once in what is programmed, and every request is served rightly. */
  ghost predicate Promised(os: Platform, fs: seq<Frontend>, kept: seq<Frontend>, copies: seq<(int, Frontend)>,
                           skips: seq<Skip>) {
    AllApart(os, kept + Rules(copies)) && AllServed(os, fs, kept, copies, skips)
  }

  lemma LiftedPromises(os: Platform, fs: seq<Frontend>, kept: seq<Frontend>, copies: seq<(int, Frontend)>,
                       skips: seq<Skip>, plans: map<GroupKey, Plan>)
    requires Lifted(os, fs, kept, copies, skips, plans) && Resolved(os, fs) && OneGroupPerLeaf(fs)
    ensures Promised(os, fs, kept, copies, skips)
  {
    hide Lifted, Resolved, Leaf, RequestServed, Indices, OneGroupPerLeaf, GroupsOf, AllApart;
    ProgramApart(os, fs, kept, copies, skips, plans);
    forall g, held, q | g in GroupsOf(fs) && Leaf(kept, copies, LeafOf(g), held)
      ensures RequestServed(os, fs, g, Indices(skips), held, q)
    {
      EveryGroupIsPlanned(os, fs, kept, copies, skips, plans, g);
      RequestIsServed(os, fs, kept, copies, skips, plans, g, held, q);
    }
  }

  /** What the passes of a build that decide routing leave. */
  ghost predicate Routed(os: Platform, claims: Claims, le: (GroupKey, GroupKey) -> bool, inputs: seq<Sourced>,
                         resolved: Resolution, kept: seq<Frontend>, copies: seq<(int, Frontend)>, skips: seq<Skip>,
                         plans: map<GroupKey, Plan>)
  {
    && resolved == Resolve(os, claims, inputs)
    && Lifted(os, FrontendsOf(resolved.kept), kept, copies, skips, plans) && GroupByGroup(le, plans, skips)
  }

  /** The passes of a build that decide what Sozu routes, from any frontends a key can spell; `le` is the order of
      groups. What is kept, added and reported is what the plans say, within bounds. Without zones in the
      listeners, every route key occurs once and every request on every listener and hostname is served rightly,
      in every order; and so it is with zones, as long as each group has a leaf to itself. */
  method RouteFrontends(os: Platform, claims: Claims, le: (GroupKey, GroupKey) -> bool, inputs: seq<Sourced>)
      returns (resolved: Resolution, kept: seq<Frontend>, copies: seq<(int, Frontend)>, skips: seq<Skip>,
               ghost plans: map<GroupKey, Plan>)
    requires TotalOrder(le) && forall i :: 0 <= i < |inputs| ==> Keyable(inputs[i].frontend)
    ensures Routed(os, claims, le, inputs, resolved, kept, copies, skips, plans)
    ensures Bounded(FrontendsOf(resolved.kept), kept, copies)
    ensures Unzoned(FrontendsOf(inputs)) ==> Promised(os, FrontendsOf(resolved.kept), kept, copies, skips)
    ensures OneGroupPerLeaf(FrontendsOf(resolved.kept)) ==>
              Promised(os, FrontendsOf(resolved.kept), kept, copies, skips)
  {
    resolved := ResolveFrontendCollisions(os, claims, inputs);
    KeptAreResolved(os, claims, inputs);
    var fs := FrontendsOf(resolved.kept);
    kept, copies, skips, plans := LiftHeaderMatches(os, fs, le);
    hide Lifted, Resolved, OneGroupPerLeaf, GroupsOf, Resolve, Promised, Unzoned, FrontendsOf;
    forall g | g in GroupsOf(fs)
      ensures |OfKey(HeaderGroup, Some(g), kept)| <= MAX_HEADER_MATCHES_PER_HOSTNAME
      ensures |OfKey(GroupOfCopy, g, copies)| <= MAX_LIFTED_PER_HOSTNAME
    {
      ProgramIsBounded(os, fs, kept, copies, skips, plans, g);
    }
    if Unzoned(FrontendsOf(inputs)) {
      KeptUnzoned(os, claims, inputs);
      UnzonedHaveOwnLeaves(fs);
    }
    if OneGroupPerLeaf(fs) {
      LiftedPromises(os, fs, kept, copies, skips, plans);
    }
  }

  // ---- order independence ----------------------------------------------------------------------------------

  lemma {:induction false} ListedKey<T>(s: seq<T>, k: T)
    requires forall i, j :: 0 <= i < j < |s| ==> s[i] != s[j]
    ensures OfKey(Itself<T>, k, s) == if k in s then [k] else []
  {
    if s != [] {
      ListedKey(s[1..], k);
      assert s == [s[0]] + s[1..];
    }
  }

  /** A set has one listing in a total order. */
  lemma OneListing(le: (GroupKey, GroupKey) -> bool, all: set<GroupKey>, a: seq<GroupKey>, b: seq<GroupKey>)
    requires TotalOrder(le) && Lists(a, all) && Lists(b, all)
    requires SortedBy(Itself<GroupKey>, le, a) && SortedBy(Itself<GroupKey>, le, b)
    ensures a == b
  {
    forall k ensures OfKey(Itself<GroupKey>, k, a) == OfKey(Itself<GroupKey>, k, b) {
      ListedKey(a, k);
      ListedKey(b, k);
    }
    SortedDetermined(Itself<GroupKey>, le, a, b);
  }

  /** Planning has one outcome: plans, kept frontends, copies and skips, each in its order. */
  lemma LiftedDetermined(os: Platform, fs: seq<Frontend>, le: (GroupKey, GroupKey) -> bool,
                         keptA: seq<Frontend>, copiesA: seq<(int, Frontend)>, skipsA: seq<Skip>,
                         plansA: map<GroupKey, Plan>,
                         keptB: seq<Frontend>, copiesB: seq<(int, Frontend)>, skipsB: seq<Skip>,
                         plansB: map<GroupKey, Plan>)
    requires TotalOrder(le)
    requires Lifted(os, fs, keptA, copiesA, skipsA, plansA) && GroupByGroup(le, plansA, skipsA)
    requires Lifted(os, fs, keptB, copiesB, skipsB, plansB) && GroupByGroup(le, plansB, skipsB)
    ensures plansA == plansB && skipsA == skipsB && keptA == keptB && copiesA == copiesB
  {
    hide IsPlan, MembersOf, KeptFrontends, Indices, CopiesOfPlans, GroupsOf, SkipsIn, SkipsOfPlans, TotalOrder,
        SortedBy, Lists;
    forall g | g in plansA ensures plansA[g] == plansB[g] {
      PlanDetermined(os, fs, MembersOf(fs, g), plansA[g], plansB[g]);
    }
    assert plansA == plansB;
    var x :| Lists(x, plansA.Keys) && SortedBy(Itself<GroupKey>, le, x) && skipsA == SkipsIn(plansA, x);
    var y :| Lists(y, plansB.Keys) && SortedBy(Itself<GroupKey>, le, y) && skipsB == SkipsIn(plansB, y);
    OneListing(le, plansA.Keys, x, y);
    CopiesDetermined(os, fs, plansA, copiesA, copiesB);
  }

  /** Any interleaving of the objects that keeps each one's own order routes the same: the same winners and
      reports, the same kept frontends and copies, and the same skips, each in its order. */
  lemma RoutingIsOrderFree(os: Platform, claims: Claims, le: (GroupKey, GroupKey) -> bool, a: seq<Sourced>,
                           b: seq<Sourced>, resolvedA: Resolution, keptA: seq<Frontend>, copiesA: seq<(int, Frontend)>,
                           skipsA: seq<Skip>, plansA: map<GroupKey, Plan>, resolvedB: Resolution, keptB: seq<Frontend>,
                           copiesB: seq<(int, Frontend)>, skipsB: seq<Skip>, plansB: map<GroupKey, Plan>)
    requires TotalOrder(le) && DistinctClaims(claims, a) && SameByOwner(a, b)
    requires Routed(os, claims, le, a, resolvedA, keptA, copiesA, skipsA, plansA)
    requires Routed(os, claims, le, b, resolvedB, keptB, copiesB, skipsB, plansB)
    ensures resolvedA == resolvedB && keptA == keptB && copiesA == copiesB && skipsA == skipsB
  {
    hide Lifted, GroupByGroup, Resolve, DistinctClaims, SameByOwner, TotalOrder, FrontendsOf;
    ResolutionIsOrderFree(os, claims, a, b);
    LiftedDetermined(os, FrontendsOf(resolvedA.kept), le, keptA, copiesA, skipsA, plansA, keptB, copiesB, skipsB,
                     plansB);
  }
}
