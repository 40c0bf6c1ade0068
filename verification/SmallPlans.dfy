/** Plans small enough to write down: a header match alone, or under one plain route, with nothing to skip. */
module SmallPlans {
  import opened Base
  import opened Paths
  import opened Frontends
  import opened RouteKeys
  import opened Sozu
  import opened Tier
  import opened Admissions
  import opened Planner
  import opened Choices
  import opened Precedence
  import opened Planning
  import opened Lifting
  import opened Programmed
  import opened Routing

  /** Header match `p` is the group's only one, `routes` is what outranks it, one route at most, and its copy's key
      is free and its copy no conflict. */
  ghost predicate Lone(os: Platform, fs: seq<Frontend>, members: seq<nat>, p: nat, plain: seq<nat>, routes: seq<nat>) {
    && Ordered(fs, members) && HeaderMatches(fs, members) == [p] && p < |fs| && fs[p].headers != []
    && PlainRoutes(fs, members) == plain && InGroup(fs, plain) && Candidates(fs, plain, p) == routes && |routes| <= 1
    && (routes != [] ==>
          && fs[routes[0]].headers == [] && CopyKey(os, fs, routes[0], p) !in HeldBy(os, fs, members)
          && Conflict(os, fs, CopyEntry(fs, routes[0], p), HeaderEntry(fs, p)).None?
          && Conflict(os, fs, HeaderEntry(fs, p), CopyEntry(fs, routes[0], p)).None?)
  }

  lemma LoneChoice(os: Platform, fs: seq<Frontend>, members: seq<nat>, p: nat, plain: seq<nat>, routes: seq<nat>)
    requires Lone(os, fs, members, p, plain, routes) && HeldInRange(fs, HeldBy(os, fs, members))
    ensures Choose(os, fs, HeldBy(os, fs, members), {}, p, Candidates(fs, plain, p), {}, []) == Done(routes)
  {
    hide RouteKeyOf, Outranks, CopyKey, HeldBy, Conflict, HeaderMatches, PlainRoutes, LiftedCopy, SameMatch, Candidates;
    if routes != [] {
      var u := routes[0];
      assert routes == [u] && routes[1..] == [] && [] + [u] == [u];
    }
  }

  lemma LoneTier(fs: seq<Frontend>, p: nat, routes: seq<nat>)
    requires p < |fs| && InGroup(fs, routes) && |routes| <= 1
    ensures WellChosen(fs, [Chosen(p, routes)])
    ensures TierOf(fs, [Chosen(p, routes)]) ==
            if routes == [] then [HeaderEntry(fs, p)] else [HeaderEntry(fs, p), CopyEntry(fs, routes[0], p)]
  {
    hide LiftedCopy;
    var c := Chosen(p, routes);
    assert [c][..0] == [];
    assert TierOf(fs, [c]) == TierOf(fs, []) + EntriesOf(fs, c);
  }

  lemma FilterOne<T>(f: T -> bool, x: T)
    ensures Filter(f, [x]) == if f(x) then [x] else []
  {
    var one := [x];
    assert one[0] == x && one[1..] == [];
    assert Filter(f, one) == if f(x) then [x] + Filter(f, one[1..]) else Filter(f, one[1..]);
  }

  lemma NoConflictWithItself(os: Platform, fs: seq<Frontend>, e: Predicated)
    requires InRange(fs, e)
    ensures Conflict(os, fs, e, e).None?
  {
  }

  lemma LonePair(os: Platform, fs: seq<Frontend>, members: seq<nat>, p: nat, plain: seq<nat>, routes: seq<nat>)
    requires Lone(os, fs, members, p, plain, routes)
    ensures WellChosen(fs, [Chosen(p, routes)])
    ensures var tier := TierOf(fs, [Chosen(p, routes)]); Admissible(fs, tier) && FirstPair(os, fs, tier, None)
  {
    hide Conflict, TierOf, LiftedCopy, Ordered, HeaderMatches, PlainRoutes, Candidates, HeldBy, CopyKey, FirstPair;
    LoneTier(fs, p, routes);
    var header := HeaderEntry(fs, p);
    assert header.Id() == (p, p) && header == EntryOf(fs, header.Id());
    NoConflictWithItself(os, fs, header);
    if routes == [] {
      OneEntry(os, fs, header);
    } else {
      var copy := CopyEntry(fs, routes[0], p);
      assert routes[0] != p;
      assert copy.Id() == (routes[0], p) && copy == EntryOf(fs, copy.Id());
      NoConflictWithItself(os, fs, copy);
      TwoEntries(os, fs, header, copy);
    }
  }

  lemma OneEntry(os: Platform, fs: seq<Frontend>, a: Predicated)
    requires InRange(fs, a) && a == EntryOf(fs, a.Id()) && Conflict(os, fs, a, a).None?
    ensures Admissible(fs, [a]) && FirstPair(os, fs, [a], None)
  {
    hide Conflict, EntryOf;
  }

  lemma TwoEntries(os: Platform, fs: seq<Frontend>, a: Predicated, b: Predicated)
    requires InRange(fs, a) && a == EntryOf(fs, a.Id()) && InRange(fs, b) && b == EntryOf(fs, b.Id())
        && a.Id() != b.Id()
    requires Conflict(os, fs, a, a).None? && Conflict(os, fs, a, b).None?
    requires Conflict(os, fs, b, a).None? && Conflict(os, fs, b, b).None?
    ensures Admissible(fs, [a, b]) && FirstPair(os, fs, [a, b], None)
  {
    hide Conflict, EntryOf;
  }

  lemma LoneIsRound(os: Platform, fs: seq<Frontend>, members: seq<nat>, p: nat, plain: seq<nat>, routes: seq<nat>)
    requires Lone(os, fs, members, p, plain, routes)
    ensures WellChosen(fs, [Chosen(p, routes)]) && IsRound(os, fs, members, {}, Done([Chosen(p, routes)]))
  {
    hide ChooseAll, Choose, HeldBy, TierOf, FirstPair, Admissible, HeaderMatches, PlainRoutes, Candidates, Outranks,
      Conflict, CopyKey;
    var spec := [Chosen(p, routes)];
    LonePair(os, fs, members, p, plain, routes);
    HeldInGroup(os, fs, members);
    OriginalsInGroup(fs, members);
    LoneChoice(os, fs, members, p, plain, routes);
    assert Originals(fs, members) == [p];
    LoneRound(os, fs, plain, routes, HeldBy(os, fs, members), p);
    assert Verdict(TierOf(fs, spec), spec, None) == Done(spec);
  }

  lemma LonePlan(os: Platform, fs: seq<Frontend>, members: seq<nat>, p: nat, plain: seq<nat>, routes: seq<nat>)
    requires Lone(os, fs, members, p, plain, routes)
    ensures IsPlan(os, fs, members, [], [Chosen(p, routes)])
  {
    hide IsRound, HeaderMatches, PlainRoutes, Conflict, Outranks, CopyKey, HeldBy;
    LoneIsRound(os, fs, members, p, plain, routes);
    assert Originals(fs, members) == [p] && OverCap(fs, members) == [] && CapSkips([]) == [];
    assert Indices([]) == {};
  }

  lemma LoneRound(os: Platform, fs: seq<Frontend>, plain: seq<nat>, routes: seq<nat>, held: map<RouteKey, nat>, p: nat)
    requires InGroup(fs, plain) && p < |fs| && HeldInRange(fs, held)
    requires Choose(os, fs, held, {}, p, Candidates(fs, plain, p), {}, []) == Done(routes)
    ensures ChooseAll(os, fs, plain, held, {}, [p], {}, []) == Done([Chosen(p, routes)])
  {
    hide Choose, Candidates;
    assert [p][1..] == [] && [] + [Chosen(p, routes)] == [Chosen(p, routes)];
  }

  lemma LoneBrought(fs: seq<Frontend>, p: nat, routes: seq<nat>)
    requires p < |fs| && InGroup(fs, routes) && |routes| <= 1
    ensures WellChosen(fs, [Chosen(p, routes)])
    ensures Brought(TierOf(fs, [Chosen(p, routes)])) == if routes == [] then []
        else [(p, LiftedCopy(fs[routes[0]], fs[p]))]
  {
    LoneTier(fs, p, routes);
    hide TierOf, LiftedCopy;
    var tier := TierOf(fs, [Chosen(p, routes)]);
    var header := HeaderEntry(fs, p);
    assert [header][..0] == [] && Brought([header]) == [];
    if routes != [] {
      assert tier[..1] == [header];
    }
  }

  lemma PlanOf(os: Platform, fs: seq<Frontend>, kept: seq<Frontend>, copies: seq<(int, Frontend)>, skips: seq<Skip>,
               plans: map<GroupKey, Plan>, g: GroupKey)
    requires Lifted(os, fs, kept, copies, skips, plans) && g in GroupsOf(fs)
    ensures g in plans && IsPlan(os, fs, MembersOf(fs, g), plans[g].skips, plans[g].spec)
    ensures CopiesOfPlans(fs, plans, copies)
  {
    hide IsPlan, CopiesOfPlans;
  }

  lemma {:induction false} KeepsAll(fs: seq<Frontend>, skipped: set<nat>)
    requires forall i: nat :: i < |fs| ==> i !in skipped
    ensures KeptFrontends(fs, skipped) == fs
  {
    if fs != [] {
      KeepsAll(fs[..|fs| - 1], skipped);
    }
  }
}
