/** What a skip says: each skipped header match is named with a reason that holds of the frontends it
    names. The statements speak of frontends, route keys, precedence and effects alone. */
module Skips {
  import opened Base
  import opened Paths
  import opened Frontends
  import opened RouteKeys
  import opened Sozu
  import opened Tier
  import opened Admissions
  import opened Planner
  import opened Choices
  import opened Precedence
  import opened Planning
  import opened Lifting

  /** The rule planned for frontend `u` under header match `p`: `p`'s own, or a copy of `u`. */
  function RuleUnder(fs: seq<Frontend>, u: nat, p: nat): Frontend
    requires u < |fs| && p < |fs|
  {
    if u == p then fs[p] else LiftedCopy(fs[u], fs[p])
  }

  /** A header match of the group, not skipped before. */
  ghost predicate Standing(fs: seq<Frontend>, members: seq<nat>, skipped: set<nat>, p: nat) {
    p in members && p !in skipped && p < |fs| && fs[p].headers != []
  }

  /** `u` is header match `p` itself, or a plain route of the group that ranks over it and may meet it. */
  ghost predicate PlannedFor(fs: seq<Frontend>, members: seq<nat>, u: nat, p: nat)
    requires p < |fs|
  {
    u == p || (u in members && u < |fs| && fs[u].headers == [] && Outranks(fs[u], fs[p]))
  }

  /** The rule `u` has for header match `p` keeps out the one `v` has for header match `low`: it ranks over it,
      routes otherwise, may meet it, and Sozu's own rules leave their order open for this reason. */
  ghost predicate KeepsOut(os: Platform, fs: seq<Frontend>, u: nat, p: nat, v: nat, low: nat, why: Reason)
    requires u < |fs| && p < |fs| && v < |fs| && low < |fs|
  {
    var a, b := RuleUnder(fs, u, p), RuleUnder(fs, v, low);
    && u != low
    && (GwPrecedence(fs[u], fs[v]).Greater?
        || (GwPrecedence(fs[u], fs[v]).Equal? && (u < v || (u == v && p < low))))
    && (a.cluster != b.cluster || a.filters != b.filters)
    && CanMeet(os, a, b)
    && !Settles(a.hostname, OfferOf(a), OfferOf(b))
    && Unsettled(a.hostname, OfferOf(a), OfferOf(b)) == Some(why)
  }

  /** The frontend the entry that costs `index` its place ranks as. */
  function LosingRoute(index: nat, copyOf: Option<nat>): nat {
    if copyOf.Some? then copyOf.value else index
  }

  // ---- a skip for an overlap ---------------------------------------------------------------------

  lemma ChosenEntry(os: Platform, fs: seq<Frontend>, members: seq<nat>, skipped: set<nat>, chosen: seq<Chosen>,
                    e: Predicated)
    requires InGroup(fs, members) && HeldInRange(fs, HeldBy(os, fs, members))
    requires InGroup(fs, PlainRoutes(fs, members)) && InGroup(fs, Originals(fs, members))
    requires ChooseAll(os, fs, PlainRoutes(fs, members), HeldBy(os, fs, members), skipped, Originals(fs, members), {},
                       []) == Done(chosen)
    requires WellChosen(fs, chosen) && e in TierOf(fs, chosen)
    ensures Standing(fs, members, skipped, e.owner) && PlannedFor(fs, members, e.ranksAs, e.owner)
    ensures e.ranksAs < |fs| && e.rule == RuleUnder(fs, e.ranksAs, e.owner) && (e.copy <==> e.ranksAs != e.owner)
  {
    hide RouteKeyOf, ChooseAll, Choose, CompiledRule, GwPrecedence, PathsMeet, TierOf, AllCovered, FiledApart;
    var brought := ChoiceFacts(os, fs, members, skipped, chosen);
    var i := TierEntry(fs, chosen, e);
    assert EntryFacts(os, fs, PlainRoutes(fs, members), HeldBy(os, fs, members), skipped, chosen, i);
    assert Owners(chosen)[i] in Kept(Originals(fs, members), skipped);
    OriginalsInGroup(fs, members);
  }

  /** An unsettled pair of the entries of a round: the lower one is kept out by the higher. */
  lemma PairKeepsOut(os: Platform, fs: seq<Frontend>, members: seq<nat>, skipped: set<nat>, chosen: seq<Chosen>,
                     high: Predicated, low: Predicated, why: Reason)
    requires InGroup(fs, members) && HeldInRange(fs, HeldBy(os, fs, members))
    requires InGroup(fs, PlainRoutes(fs, members)) && InGroup(fs, Originals(fs, members))
    requires ChooseAll(os, fs, PlainRoutes(fs, members), HeldBy(os, fs, members), skipped, Originals(fs, members), {},
                       []) == Done(chosen)
    requires WellChosen(fs, chosen) && high in TierOf(fs, chosen) && low in TierOf(fs, chosen)
    requires InRange(fs, high) && InRange(fs, low) && Conflict(os, fs, high, low) == Some(why)
    ensures Standing(fs, members, skipped, high.owner) && Standing(fs, members, skipped, low.owner)
    ensures PlannedFor(fs, members, high.ranksAs, high.owner) && PlannedFor(fs, members, low.ranksAs, low.owner)
    ensures (high.copy <==> high.ranksAs != high.owner) && (low.copy <==> low.ranksAs != low.owner)
    ensures KeepsOut(os, fs, high.ranksAs, high.owner, low.ranksAs, low.owner, why)
  {
    hide ChooseAll, TierOf, HeldBy, PlainRoutes, Originals, CanMeet, WellChosen, HeldInRange, LiftedCopy, OfferOf;
    ChosenEntry(os, fs, members, skipped, chosen, high);
    ChosenEntry(os, fs, members, skipped, chosen, low);
    UnsettledIsUnsettled(high.rule.hostname, OfferOf(high.rule), OfferOf(low.rule));
    hide PathsMeet, MethodsMeet, Settles, Unsettled;
    GwReverse(fs[high.ranksAs], fs[low.ranksAs]);
    RankOrder(fs, high, low);
  }

  lemma RankOrder(fs: seq<Frontend>, a: Predicated, b: Predicated)
    requires InRange(fs, a) && InRange(fs, b) && ServesFirst(fs, a, b)
    ensures GwPrecedence(fs[a.ranksAs], fs[b.ranksAs]).Greater?
            || (GwPrecedence(fs[a.ranksAs], fs[b.ranksAs]).Equal? &&
                (a.ranksAs < b.ranksAs || (a.ranksAs == b.ranksAs && a.owner < b.owner)))
  {
  }

  // ---- a skip of the choice ----------------------------------------------------------------------

  /** The key of the copy of `u` for header match `p`, which no frontend standing in the group has. */
  ghost predicate NeededKey(os: Platform, fs: seq<Frontend>, members: seq<nat>, skipped: set<nat>, key: RouteKey) {
    && (exists p: nat, u: nat :: Standing(fs, members, skipped, p) && u != p && PlannedFor(fs, members, u, p)
                       && key == RouteKeyOf(os, LiftedCopy(fs[u], fs[p])))
    && (forall h: nat :: h in members && h < |fs| && h !in skipped ==> RouteKeyOf(os, fs[h]) != key)
  }

  /** The copy `u` would have for header match `p` is filed where a frontend of another match stands. */
  ghost predicate KeyTaken(os: Platform, fs: seq<Frontend>, members: seq<nat>, skipped: set<nat>, u: nat, p: nat,
                           h: nat)
  {
    && h in members && h < |fs| && h !in skipped
    && p < |fs| && u != p && PlannedFor(fs, members, u, p)
    && RouteKeyOf(os, fs[h]) == RouteKeyOf(os, LiftedCopy(fs[u], fs[p]))
    && !SameMatch(fs[h], LiftedCopy(fs[u], fs[p]))
  }

  /** Why the choice of copies for one header match failed, with the keys that made it fail. */
  lemma {:induction false} ChooseFails(
      os: Platform, fs: seq<Frontend>, held: map<RouteKey, nat>, skipped: set<nat>, p: nat,
      left: seq<nat>, brought: set<RouteKey>, added: seq<nat>) returns (routes: seq<nat>)
    requires p < |fs| && InGroup(fs, left) && InGroup(fs, added) && HeldInRange(fs, held)
    requires FiledApart(os, fs, held, skipped, p, brought, added)
    requires Choose(os, fs, held, skipped, p, left, brought, added).Skipped?
    ensures InGroup(fs, routes) && FiledApart(os, fs, held, skipped, p, brought, routes)
    ensures forall u :: u in routes ==> u in added || u in left
    ensures var skip := Choose(os, fs, held, skipped, p, left, brought, added).skip;
            skip.index == p &&
            match skip.problem
            case CopyKeyTaken(u, h) =>
              u in left && CopyKey(os, fs, u, p) in held && held[CopyKey(os, fs, u, p)] == h && h !in skipped
              && !SameMatch(fs[h], LiftedCopy(fs[u], fs[p]))
            case PrecedenceLimit => |brought| + |routes| > 64
            case _ => false
  {
    hide CopyKey, SameMatch, LiftedCopy, GwPrecedence;
    var u, rest := left[0], left[1..];
    assert left == [u] + rest;
    var key := CopyKey(os, fs, u, p);
    var at := FindKey(os, fs, p, added, key);
    if Taken(held, skipped, key) {
      if SameMatch(fs[held[key]], LiftedCopy(fs[u], fs[p])) {
        routes := ChooseFails(os, fs, held, skipped, p, rest, brought, added);
      } else {
        routes := added;
      }
    } else if key in brought {
      routes := ChooseFails(os, fs, held, skipped, p, rest, brought, added);
    } else if at.Some? {
      var kept := if GwPrecedence(fs[u], fs[added[at.value]]).Greater? then added[at.value := u] else added;
      assert forall v :: v in kept ==> v in added || v == u;
      routes := ChooseFails(os, fs, held, skipped, p, rest, brought, kept);
    } else if |brought| + |added| + 1 > 64 {
      routes := added + [u];
    } else {
      routes := ChooseFails(os, fs, held, skipped, p, rest, brought, added + [u]);
    }
  }

  lemma UntakenIsUnheld(os: Platform, fs: seq<Frontend>, members: seq<nat>, skipped: set<nat>, key: RouteKey)
    requires Group(os, fs, members) && !Taken(HeldBy(os, fs, members), skipped, key)
    ensures forall h: nat :: h in members && h < |fs| && h !in skipped ==> RouteKeyOf(os, fs[h]) != key
  {
    hide RouteKeyOf, HeldBy, Keyable;
    HeldInGroup(os, fs, members);
    forall h: nat | h in members && h < |fs| && h !in skipped ensures RouteKeyOf(os, fs[h]) != key {
      var i :| 0 <= i < |members| && members[i] == h;
      assert RouteKeyOf(os, fs[members[i]]) in HeldBy(os, fs, members);
    }
  }

  lemma CandidateIsPlanned(fs: seq<Frontend>, members: seq<nat>, u: nat, p: nat)
    requires InGroup(fs, members) && InGroup(fs, PlainRoutes(fs, members)) && p < |fs| && fs[p].headers != []
    requires u in Candidates(fs, PlainRoutes(fs, members), p)
    ensures u < |fs| && u != p && PlannedFor(fs, members, u, p)
  {
    hide Outranks;
  }

  lemma CopiesAreNeeded(os: Platform, fs: seq<Frontend>, members: seq<nat>, skipped: set<nat>, p: nat, routes: seq<nat>,
                        brought: set<RouteKey>)
    requires Group(os, fs, members) && InGroup(fs, PlainRoutes(fs, members)) && Standing(fs, members, skipped, p)
    requires InGroup(fs, routes) && forall u :: u in routes ==> u in Candidates(fs, PlainRoutes(fs, members), p)
    requires FiledApart(os, fs, HeldBy(os, fs, members), skipped, p, brought, routes)
    ensures forall key :: key in CopyKeys(os, fs, Chosen(p, routes)) ==>
        NeededKey(os, fs, members, skipped, key)
    ensures CopyKeys(os, fs, Chosen(p, routes)) !! brought && |CopyKeys(os, fs, Chosen(p, routes))| == |routes|
  {
    hide Group, RouteKeyOf, HeldBy, PlainRoutes, Candidates, LiftedCopy, PlannedFor;
    CountKeys(os, fs, p, routes);
    assert InGroup(fs, members) by { GroupRange(os, fs, members); }
    forall key | key in CopyKeys(os, fs, Chosen(p, routes)) ensures NeededKey(os, fs, members, skipped, key) {
      var i :| 0 <= i < |routes| && key == CopyKey(os, fs, routes[i], p);
      CandidateIsPlanned(fs, members, routes[i], p);
      UntakenIsUnheld(os, fs, members, skipped, key);
    }
  }

  lemma GroupRange(os: Platform, fs: seq<Frontend>, members: seq<nat>)
    requires Group(os, fs, members)
    ensures InGroup(fs, members)
  {
  }

  /** Why a round failed before its tier was weighed. */
  ghost predicate ChoiceFailed(os: Platform, fs: seq<Frontend>, members: seq<nat>, skipped: set<nat>, skip: Skip,
                               keys: set<RouteKey>) {
    && Standing(fs, members, skipped, skip.index)
    && match skip.problem
       case CopyKeyTaken(u, h) => u < |fs| && KeyTaken(os, fs, members, skipped, u, skip.index, h)
       case PrecedenceLimit => |keys| > 64 && forall key :: key in keys ==> NeededKey(os, fs, members, skipped, key)
       case _ => false
  }

  lemma {:induction false} ChooseAllFails(
      os: Platform, fs: seq<Frontend>, members: seq<nat>, skipped: set<nat>, slots: seq<nat>, brought: set<RouteKey>,
      chosen: seq<Chosen>) returns (keys: set<RouteKey>)
    requires Group(os, fs, members) && OffRegex(fs, PlainRoutes(fs, members)) && InGroup(fs, slots)
    requires WellChosen(fs, chosen) && HeldInRange(fs, HeldBy(os, fs, members)) && |brought| <= 64
    requires forall p :: p in slots ==> p in members && fs[p].headers != []
    requires forall key :: key in brought ==> NeededKey(os, fs, members, skipped, key)
    requires ChooseAll(os, fs, PlainRoutes(fs, members), HeldBy(os, fs, members), skipped, slots, brought,
                       chosen).Skipped?
    ensures ChoiceFailed(os, fs, members, skipped,
                         ChooseAll(os, fs, PlainRoutes(fs, members), HeldBy(os, fs, members), skipped, slots, brought,
                                   chosen).skip, keys)
  {
    hide Group, Choose, CopyKeys, Candidates, HeldBy, PlainRoutes, NeededKey, FiledApart;
    GroupRange(os, fs, members);
    var plain, held := PlainRoutes(fs, members), HeldBy(os, fs, members);
    var p := slots[0];
    if p in skipped {
      keys := ChooseAllFails(os, fs, members, skipped, slots[1..], brought, chosen);
    } else {
      ChooseInRange(os, fs, held, skipped, p, Candidates(fs, plain, p), brought, []);
      var r := Choose(os, fs, held, skipped, p, Candidates(fs, plain, p), brought, []);
      if r.Done? {
        var c := Chosen(p, r.value);
        CandidatesOffRegex(fs, plain, p);
        DoneIsNeeded(os, fs, members, skipped, brought, c);
        keys := ChooseAllFails(os, fs, members, skipped, slots[1..], brought + CopyKeys(os, fs, c), chosen + [c]);
      } else {
        keys := OneChoiceFails(os, fs, members, skipped, brought, p);
      }
    }
  }

  lemma DoneIsNeeded(os: Platform, fs: seq<Frontend>, members: seq<nat>, skipped: set<nat>, brought: set<RouteKey>,
                     c: Chosen)
    requires Group(os, fs, members) && OffRegex(fs, PlainRoutes(fs, members)) && Standing(fs, members, skipped, c.owner)
    requires HeldInRange(fs, HeldBy(os, fs, members)) && |brought| <= 64 && InGroup(fs, c.routes)
    requires OffRegex(fs, Candidates(fs, PlainRoutes(fs, members), c.owner))
    requires Choose(os, fs, HeldBy(os, fs, members), skipped, c.owner,
                    Candidates(fs, PlainRoutes(fs, members), c.owner),
                    brought, []) == Done(c.routes)
    ensures forall key :: key in CopyKeys(os, fs, c) ==> NeededKey(os, fs, members, skipped, key)
    ensures |brought + CopyKeys(os, fs, c)| <= 64
  {
    hide Group, Choose, CopyKey, CopyKeys, Candidates, HeldBy, PlainRoutes, NeededKey;
    GroupRange(os, fs, members);
    ChooseFacts(os, fs, HeldBy(os, fs, members), skipped, c.owner, Candidates(fs, PlainRoutes(fs, members), c.owner),
                brought, []);
    CopiesAreNeeded(os, fs, members, skipped, c.owner, c.routes, brought);
    assert c == Chosen(c.owner, c.routes);
  }

  lemma OneChoiceFails(os: Platform, fs: seq<Frontend>, members: seq<nat>, skipped: set<nat>, brought: set<RouteKey>,
                       p: nat) returns (keys: set<RouteKey>)
    requires Group(os, fs, members) && OffRegex(fs, PlainRoutes(fs, members)) && Standing(fs, members, skipped, p)
    requires HeldInRange(fs, HeldBy(os, fs, members)) && |brought| <= 64
    requires forall key :: key in brought ==> NeededKey(os, fs, members, skipped, key)
    requires Choose(os, fs, HeldBy(os, fs, members), skipped, p, Candidates(fs, PlainRoutes(fs, members), p),
                    brought, []).Skipped?
    ensures ChoiceFailed(os, fs, members, skipped,
                         Choose(os, fs, HeldBy(os, fs, members), skipped, p,
                                Candidates(fs, PlainRoutes(fs, members), p), brought, []).skip, keys)
  {
    hide Choose, Candidates, HeldBy, PlainRoutes, NeededKey, RouteKeyOf, SameMatch, LiftedCopy;
    var plain, held := PlainRoutes(fs, members), HeldBy(os, fs, members);
    var routes := ChooseFails(os, fs, held, skipped, p, Candidates(fs, plain, p), brought, []);
    var skip := Choose(os, fs, held, skipped, p, Candidates(fs, plain, p), brought, []).skip;
    HeldInGroup(os, fs, members);
    CopiesAreNeeded(os, fs, members, skipped, p, routes, brought);
    keys := brought + CopyKeys(os, fs, Chosen(p, routes));
    if skip.problem.CopyKeyTaken? {
      CandidateIsPlanned(fs, members, skip.problem.route, p);
    }
  }

  // ---- what a plan reports ------------------------------------------------------------------------

  /** A skip after the first `skipped`, and the header match whose rule kept it out when it lost to one. */
  ghost predicate Justified(os: Platform, fs: seq<Frontend>, members: seq<nat>, skipped: set<nat>, skip: Skip,
                            high: nat, keys: set<RouteKey>) {
    && Standing(fs, members, skipped, skip.index)
    && match skip.problem
       case HeaderMatchLimit => false
       case Overlap(other, copyOf, why) =>
         && high == other && Standing(fs, members, skipped, other)
         && copyOf != Some(skip.index) && LosingRoute(skip.index, copyOf) < |fs|
         && PlannedFor(fs, members, LosingRoute(skip.index, copyOf), skip.index)
         && KeepsOut(os, fs, other, other, LosingRoute(skip.index, copyOf), skip.index, why)
       case OutranksRoute(route, copyOf, why) =>
         && route != high && route < |fs| && Standing(fs, members, skipped, high)
             && PlannedFor(fs, members, route, high)
         && copyOf != Some(skip.index) && LosingRoute(skip.index, copyOf) < |fs|
         && PlannedFor(fs, members, LosingRoute(skip.index, copyOf), skip.index)
         && KeepsOut(os, fs, route, high, LosingRoute(skip.index, copyOf), skip.index, why)
       case CopyKeyTaken(u, h) => u < |fs| && KeyTaken(os, fs, members, skipped, u, skip.index, h)
       case PrecedenceLimit => |keys| > 64 && forall key :: key in keys ==> NeededKey(os, fs, members, skipped, key)
  }

  lemma FailedRound(os: Platform, fs: seq<Frontend>, members: seq<nat>, skipped: set<nat>, skip: Skip)
      returns (high: nat, keys: set<RouteKey>)
    requires Group(os, fs, members) && IsRound(os, fs, members, skipped, Skipped(skip))
    ensures Justified(os, fs, members, skipped, skip, high, keys)
  {
    hide Group, ChooseAll, HeldBy, PlainRoutes, Originals, FirstPair, Admissible, TierOf, Justified, OverlapSkip;
    GroupRange(os, fs, members);
    var plain, held, slots := PlainRoutes(fs, members), HeldBy(os, fs, members), Originals(fs, members);
    HeldInGroup(os, fs, members);
    OriginalsInGroup(fs, members);
    var all := ChooseAll(os, fs, plain, held, skipped, slots, {}, []);
    high, keys := 0, {};
    if all.Skipped? {
      keys := ChooseAllFails(os, fs, members, skipped, slots, {}, []);
      FailureJustified(os, fs, members, skipped, skip, keys);
    } else {
      var tier := TierOf(fs, all.value);
      var found :| FirstPair(os, fs, tier, found) && Skipped(skip) == Verdict(tier, all.value, found);
      var (h, l, why) := found.value;
      FoundConflicts(os, fs, tier, found);
      PairKeepsOut(os, fs, members, skipped, all.value, tier[h], tier[l], why);
      high := tier[h].owner;
      LossJustified(os, fs, members, skipped, tier[h], tier[l], why);
    }
  }

  lemma FailureJustified(os: Platform, fs: seq<Frontend>, members: seq<nat>, skipped: set<nat>, skip: Skip,
                         keys: set<RouteKey>)
    requires ChoiceFailed(os, fs, members, skipped, skip, keys)
    ensures Justified(os, fs, members, skipped, skip, 0, keys)
  {
    hide Standing, KeyTaken, NeededKey;
  }

  lemma LossJustified(os: Platform, fs: seq<Frontend>, members: seq<nat>, skipped: set<nat>, high: Predicated,
                      low: Predicated, why: Reason)
    requires InRange(fs, high) && InRange(fs, low)
    requires Standing(fs, members, skipped, high.owner) && Standing(fs, members, skipped, low.owner)
    requires PlannedFor(fs, members, high.ranksAs, high.owner) && PlannedFor(fs, members, low.ranksAs, low.owner)
    requires (high.copy <==> high.ranksAs != high.owner) && (low.copy <==> low.ranksAs != low.owner)
    requires KeepsOut(os, fs, high.ranksAs, high.owner, low.ranksAs, low.owner, why)
    ensures Justified(os, fs, members, skipped, OverlapSkip(high, low, why), high.owner, {})
  {
    hide Standing, PlannedFor, KeepsOut;
  }

  lemma FoundConflicts(os: Platform, fs: seq<Frontend>, tier: seq<Predicated>, found: Option<Pair>)
    requires Admissible(fs, tier) && FirstPair(os, fs, tier, found) && found.Some?
    ensures var (h, l, why) := found.value;
            h < |tier| && l < |tier| && InRange(fs, tier[h]) && InRange(fs, tier[l])
            && Conflict(os, fs, tier[h], tier[l]) == Some(why)
  {
    hide Conflict;
  }

  /** Every skip of a plan: the first 64 header matches are weighed and each of the rest is skipped for the
      limit, and only those; a later skip is one of those weighed, and its reason holds. */
  lemma SkipsAreJustified(os: Platform, fs: seq<Frontend>, members: seq<nat>, skips: seq<Skip>, spec: seq<Chosen>,
                          k: nat)
      returns (high: nat, keys: set<RouteKey>)
    requires Group(os, fs, members) && IsPlan(os, fs, members, skips, spec) && k < |skips|
    ensures skips[k].problem.HeaderMatchLimit? <==> k + 64 < |HeaderMatches(fs, members)|
    ensures skips[k].problem.HeaderMatchLimit? ==> skips[k].index == HeaderMatches(fs, members)[k + 64]
    ensures !skips[k].problem.HeaderMatchLimit? ==>
              && (exists j :: 0 <= j < |HeaderMatches(fs, members)| && j < 64 &&
                              HeaderMatches(fs, members)[j] == skips[k].index)
              && Justified(os, fs, members, Indices(skips[..k]), skips[k], high, keys)
  {
    GroupRange(os, fs, members);
    hide Group, IsRound, HeaderMatches, Indices, Standing, KeepsOut, PlannedFor, NeededKey, KeyTaken;
    var over, first := OverCap(fs, members), Originals(fs, members);
    high, keys := 0, {};
    if k < |over| {
      assert skips[k] == CapSkips(over)[k];
    } else {
      high, keys := FailedRound(os, fs, members, Indices(skips[..k]), skips[k]);
      assert skips[k].index in first;
      var j :| 0 <= j < |first| && first[j] == skips[k].index;
      assert first[j] == HeaderMatches(fs, members)[j];
    }
  }

  /** So it is for every skip of a build: it is one of its own group's plan, and holds there. */
  lemma ReportedSkipsHold(os: Platform, fs: seq<Frontend>, kept: seq<Frontend>, copies: seq<(int, Frontend)>,
                          skips: seq<Skip>, plans: map<GroupKey, Plan>, s: Skip)
      returns (g: GroupKey, k: nat, high: nat, keys: set<RouteKey>)
    requires Lifted(os, fs, kept, copies, skips, plans) && Resolved(os, fs) && s in skips
    ensures s.index < |fs| && g == GroupOf(fs[s.index]) && g in plans && k < |plans[g].skips| && plans[g].skips[k] == s
    ensures s.problem.HeaderMatchLimit? ==>
              64 <= k + 64 < |HeaderMatches(fs, MembersOf(fs, g))|
                  && s.index == HeaderMatches(fs, MembersOf(fs, g))[k + 64]
    ensures !s.problem.HeaderMatchLimit? ==>
              Justified(os, fs, MembersOf(fs, g), Indices(plans[g].skips[..k]), s, high, keys)
  {
    hide IsPlan, CopiesOfPlans, SkipsOfPlans, Resolved, Justified, Indices, KeptFrontends, HeaderMatches;
    SkipsAre(plans, skips);
    g :| g in plans && s in plans[g].skips;
    LeafIsPlanned(os, fs, plans, g);
    k :| 0 <= k < |plans[g].skips| && plans[g].skips[k] == s;
    high, keys := SkipsAreJustified(os, fs, MembersOf(fs, g), plans[g].skips, plans[g].spec, k);
    SkipsAreHeaderMatches(os, fs, MembersOf(fs, g), plans[g].skips, plans[g].spec);
    SkipNamesMember(plans[g].skips, k);
  }

  lemma SkipNamesMember(skips: seq<Skip>, k: nat)
    requires k < |skips|
    ensures skips[k].index in Indices(skips)
  {
  }
}
