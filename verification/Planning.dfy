/** The planning loops: one group's rounds over state they reuse, and the groups of a build. */
module Planning {
  import opened Base
  import opened Paths
  import opened Frontends
  import opened RouteKeys
  import opened Tier
  import opened Admissions
  import opened Planner
  import opened Choices
  import opened Precedence

  /** One element of `Candidates`, with what the rounds need of it: its copy, the number its copy's key goes by,
      and who holds that key with the same match or another. */
  datatype Candidate = Candidate(route: nat, rule: Frontend, key: nat, holder: Option<(nat, bool)>)

  type Numbers = map<RouteKey, nat>

  function HolderOf(os: Platform, fs: seq<Frontend>, held: map<RouteKey, nat>, rule: Frontend): Option<(nat, bool)> {
    var key := RouteKeyOf(os, rule);
    if key in held && held[key] < |fs| then Some((held[key], SameMatch(fs[held[key]], rule))) else None
  }

  ghost predicate Numbered(keys: Numbers) {
    && (forall k :: k in keys ==> keys[k] < |keys|)
    && (forall a, b :: a in keys && b in keys && keys[a] == keys[b] ==> a == b)
  }

  /** `m` gives every key of `keys` the number it had. */
  ghost predicate Extends(keys: Numbers, m: Numbers) {
    forall k :: k in keys ==> k in m && m[k] == keys[k]
  }

  /** `c` describes the copy of `u` above `p`. */
  ghost predicate Describes(os: Platform, fs: seq<Frontend>, held: map<RouteKey, nat>, keys: Numbers, u: nat, p: nat,
                            c: Candidate)
    requires u < |fs| && p < |fs|
  {
    && c.route == u && c.rule == LiftedCopy(fs[u], fs[p])
    && CopyKey(os, fs, u, p) in keys && keys[CopyKey(os, fs, u, p)] == c.key
    && c.holder == HolderOf(os, fs, held, c.rule)
  }

  /** `found` describes the candidates of `p` among the plain routes searched so far. */
  ghost predicate Searched(os: Platform, fs: seq<Frontend>, plain: seq<nat>, held: map<RouteKey, nat>, keys: Numbers,
                           p: nat, search: (seq<Candidate>, nat))
  {
    && p < |fs| && search.1 <= |plain|
    && var all := Candidates(fs, plain[..search.1], p);
       && |search.0| == |all|
       && (forall c :: 0 <= c < |all| ==> Describes(os, fs, held, keys, all[c], p, search.0[c]))
       && (fs[p].path.Regex? ==> search.1 == |plain|)
  }

  lemma {:induction false} FilterSnoc<T>(p: T -> bool, s: seq<T>, x: T)
    ensures Filter(p, s + [x]) == Filter(p, s) + if p(x) then [x] else []
  {
    if s == [] {
      assert s + [x] == [x];
    } else {
      FilterSnoc(p, s[1..], x);
      assert (s + [x])[1..] == s[1..] + [x];
    }
  }

  lemma {:induction false} FilterPrefix<T>(p: T -> bool, s: seq<T>, n: nat)
    requires n <= |s|
    ensures Filter(p, s[..n]) <= Filter(p, s)
  {
    if s != [] && n > 0 {
      FilterPrefix(p, s[1..], n - 1);
      assert s[..n][1..] == s[1..][..n - 1];
    }
  }

  lemma CandidatesSnoc(fs: seq<Frontend>, plain: seq<nat>, n: nat, p: nat)
    requires n < |plain| && InGroup(fs, plain) && p < |fs| && !fs[p].path.Regex?
    ensures Candidates(fs, plain[..n + 1], p) ==
            Candidates(fs, plain[..n], p) + if Outranks(fs[plain[n]], fs[p]) then [plain[n]] else []
  {
    hide Outranks;
    assert plain[..n + 1] == plain[..n] + [plain[n]];
    FilterSnoc((u: nat) => u < |fs| && Outranks(fs[u], fs[p]), plain[..n], plain[n]);
  }

  lemma CandidatesPrefix(fs: seq<Frontend>, plain: seq<nat>, n: nat, p: nat)
    requires n <= |plain| && p < |fs|
    ensures Candidates(fs, plain[..n], p) <= Candidates(fs, plain, p)
    ensures n == |plain| ==> Candidates(fs, plain[..n], p) == Candidates(fs, plain, p)
  {
    FilterPrefix((u: nat) => u < |fs| && Outranks(fs[u], fs[p]), plain, n);
    assert plain[..|plain|] == plain;
  }

  lemma NothingSearched(os: Platform, fs: seq<Frontend>, plain: seq<nat>, held: map<RouteKey, nat>, p: nat)
    requires p < |fs|
    ensures Searched(os, fs, plain, held, map[], p, ([], if fs[p].path.Regex? then |plain| else 0))
  {
  }

  lemma StillSearched(os: Platform, fs: seq<Frontend>, plain: seq<nat>, held: map<RouteKey, nat>, keys: Numbers,
                      more: Numbers, p: nat, search: (seq<Candidate>, nat))
    requires Searched(os, fs, plain, held, keys, p, search) && Extends(keys, more)
    ensures Searched(os, fs, plain, held, more, p, search)
  {
    hide CopyKey, HolderOf, LiftedCopy, Candidates;
  }

  lemma SearchedNext(os: Platform, fs: seq<Frontend>, plain: seq<nat>, held: map<RouteKey, nat>, keys: Numbers,
                     p: nat, search: (seq<Candidate>, nat), c: Candidate)
    requires Searched(os, fs, plain, held, keys, p, search) && search.1 < |plain| && InGroup(fs, plain)
    requires Describes(os, fs, held, keys, plain[search.1], p, c) && Outranks(fs[plain[search.1]], fs[p])
    ensures Searched(os, fs, plain, held, keys, p, (search.0 + [c], search.1 + 1))
  {
    hide CopyKey, HolderOf, LiftedCopy, Candidates, Outranks;
    CandidatesSnoc(fs, plain, search.1, p);
  }

  /** The numbers of `brought` are those of the keys of `broughtKeys`. */
  ghost predicate Mirrors(keys: Numbers, broughtKeys: set<RouteKey>, brought: set<nat>) {
    broughtKeys <= keys.Keys && brought == (set k | k in broughtKeys :: keys[k])
  }

  lemma MirrorSize(keys: Numbers, broughtKeys: set<RouteKey>, brought: set<nat>)
    requires Numbered(keys) && Mirrors(keys, broughtKeys, brought)
    ensures |brought| == |broughtKeys|
  {
    if broughtKeys == {} {
      assert brought == {};
    } else {
      var k :| k in broughtKeys;
      MirrorSize(keys, broughtKeys - {k}, brought - {keys[k]});
    }
  }

  lemma StillMirrors(keys: Numbers, more: Numbers, broughtKeys: set<RouteKey>, brought: set<nat>)
    requires Mirrors(keys, broughtKeys, brought) && Extends(keys, more)
    ensures Mirrors(more, broughtKeys, brought)
  {
  }

  /** `added` numbers the copies of `routes` above `p` and points at their candidates. */
  ghost predicate Picks(os: Platform, fs: seq<Frontend>, keys: Numbers, found: seq<Candidate>, p: nat, routes: seq<nat>,
                        added: seq<(nat, nat)>)
  {
    && p < |fs| && InGroup(fs, routes) && |added| == |routes|
    && forall i :: 0 <= i < |routes| ==>
         && CopyKey(os, fs, routes[i], p) in keys && keys[CopyKey(os, fs, routes[i], p)] == added[i].0
         && added[i].1 < |found| && found[added[i].1].route == routes[i]
         && found[added[i].1].rule == LiftedCopy(fs[routes[i]], fs[p])
  }

  lemma StillPicks(os: Platform, fs: seq<Frontend>, keys: Numbers, more: Numbers, found: seq<Candidate>,
                   further: seq<Candidate>, p: nat, routes: seq<nat>, added: seq<(nat, nat)>)
    requires Picks(os, fs, keys, found, p, routes, added) && Extends(keys, more) && found <= further
    ensures Picks(os, fs, more, further, p, routes, added)
  {
    hide CopyKey, LiftedCopy;
  }

  /** Looking a number up in `added` finds what looking its key up among the routes finds. */
  method FindNumber(os: Platform, fs: seq<Frontend>, keys: Numbers, found: seq<Candidate>, p: nat,
                    ghost routes: seq<nat>, added: seq<(nat, nat)>, key: nat, ghost k: RouteKey)
      returns (at: Option<nat>)
    requires Picks(os, fs, keys, found, p, routes, added) && Numbered(keys) && k in keys && keys[k] == key
    ensures at == FindKey(os, fs, p, routes, k)
  {
    hide CopyKey, LiftedCopy;
    for i := 0 to |added|
      invariant forall j :: 0 <= j < i ==> added[j].0 != key
    {
      if added[i].0 == key {
        assert CopyKey(os, fs, routes[i], p) == k;
        return Some(i);
      }
    }
    at := None;
  }

  /** One candidate's turn: the copies added so far, its own among them where it is due. */
  method Turn(os: Platform, fs: seq<Frontend>, held: map<RouteKey, nat>, skipped: set<nat>, keys: Numbers,
              found: seq<Candidate>, p: nat, ghost all: seq<nat>, c: nat, candidate: Candidate, brought: set<nat>,
              ghost broughtKeys: set<RouteKey>, ghost routes: seq<nat>, added: seq<(nat, nat)>)
      returns (r: Outcome<seq<(nat, nat)>>, ghost after: seq<nat>)
    requires p < |fs| && InGroup(fs, all) && InGroup(fs, routes) && HeldInRange(fs, held)
    requires c < |all| && c < |found| && found[c] == candidate && Describes(os, fs, held, keys, all[c], p, candidate)
    requires Numbered(keys) && Mirrors(keys, broughtKeys, brought) && Picks(os, fs, keys, found, p, routes, added)
    ensures InGroup(fs, after)
    ensures var now := Choose(os, fs, held, skipped, p, all[c..], broughtKeys, routes);
            if r.Skipped? then now == Skipped(r.skip)
            else now == Choose(os, fs, held, skipped, p, all[c + 1..], broughtKeys, after)
                 && Picks(os, fs, keys, found, p, after, r.value)
  {
    hide Candidates, LiftedCopy, SameMatch, RouteKeyOf, GwPrecedence, Choose;
    var u := candidate.route;
    ghost var k := CopyKey(os, fs, u, p);
    after := routes;
    ChooseUnfolds(os, fs, held, skipped, p, all, c, broughtKeys, routes);
    MirrorSize(keys, broughtKeys, brought);
    if candidate.holder.Some? && candidate.holder.value.0 !in skipped {
      if candidate.holder.value.1 {
        return Done(added), routes;
      }
      return Skipped(Skip(p, CopyKeyTaken(u, candidate.holder.value.0))), routes;
    }
    if candidate.key in brought {
      return Done(added), routes;
    }
    var at := FindNumber(os, fs, keys, found, p, routes, added, candidate.key, k);
    if at.Some? {
      var other := found[added[at.value].1].route;
      if GwPrecedence(fs[u], fs[other]).Greater? {
        PicksInstead(os, fs, keys, found, p, routes, added, at.value, u, (candidate.key, c));
        return Done(added[at.value := (candidate.key, c)]), routes[at.value := u];
      }
      return Done(added), routes;
    }
    PicksMore(os, fs, keys, found, p, routes, added, u, (candidate.key, c));
    var more := added + [(candidate.key, c)];
    if |brought| + |more| > MAX_LIFTED_PER_HOSTNAME {
      return Skipped(Skip(p, PrecedenceLimit)), routes;
    }
    return Done(more), routes + [u];
  }

  /** Numbers `key` unless it has a number. */
  function WithNumber(keys: Numbers, key: RouteKey): (more: Numbers)
    requires Numbered(keys)
    ensures Numbered(more) && Extends(keys, more) && key in more
  {
    if key in keys then keys else keys[key := |keys|]
  }

  function Seconds(s: seq<(nat, nat)>): seq<nat> {
    seq(|s|, i requires 0 <= i < |s| => s[i].1)
  }

  /** `picks` are the positions in `found` of the copies `c` brings. */
  ghost predicate PointsAt(fs: seq<Frontend>, found: seq<Candidate>, c: Chosen, picks: seq<nat>) {
    && c.owner < |fs| && InGroup(fs, c.routes) && |picks| == |c.routes|
    && forall j :: 0 <= j < |picks| ==>
         picks[j] < |found| && found[picks[j]].route == c.routes[j] &&
         found[picks[j]].rule == LiftedCopy(fs[c.routes[j]], fs[c.owner])
  }

  lemma StillPointsAt(fs: seq<Frontend>, found: seq<Candidate>, further: seq<Candidate>, c: Chosen, picks: seq<nat>)
    requires PointsAt(fs, found, c, picks) && found <= further
    ensures PointsAt(fs, further, c, picks)
  {
    hide LiftedCopy;
  }

  lemma PicksPointAt(os: Platform, fs: seq<Frontend>, keys: Numbers, found: seq<Candidate>, c: Chosen,
                     added: seq<(nat, nat)>)
    requires Picks(os, fs, keys, found, c.owner, c.routes, added)
    ensures PointsAt(fs, found, c, Seconds(added))
  {
    hide LiftedCopy, CopyKey;
  }

  lemma NothingMirrored(keys: Numbers)
    ensures Mirrors(keys, {}, {})
  {
  }

  lemma PicksMirror(os: Platform, fs: seq<Frontend>, keys: Numbers, found: seq<Candidate>, c: Chosen,
                    added: seq<(nat, nat)>, broughtKeys: set<RouteKey>, brought: set<nat>)
    requires Mirrors(keys, broughtKeys, brought) && Picks(os, fs, keys, found, c.owner, c.routes, added)
    ensures Mirrors(keys, broughtKeys + CopyKeys(os, fs, c), brought + (set a | a in added :: a.0))
  {
    hide LiftedCopy, CopyKey;
    var numbers := set a | a in added :: a.0;
    forall n | n in numbers ensures exists k :: k in CopyKeys(os, fs, c) && keys[k] == n {
      var i :| 0 <= i < |added| && added[i].0 == n;
      assert CopyKey(os, fs, c.routes[i], c.owner) in CopyKeys(os, fs, c);
    }
    forall k | k in CopyKeys(os, fs, c) ensures k in keys && keys[k] in numbers {
      var i :| 0 <= i < |c.routes| && CopyKey(os, fs, c.routes[i], c.owner) == k;
      assert added[i] in added;
    }
  }

  lemma ChooseAllUnfolds(os: Platform, fs: seq<Frontend>, plain: seq<nat>, held: map<RouteKey, nat>, skipped: set<nat>,
                         slots: seq<nat>, slot: nat, brought: set<RouteKey>, chosen: seq<Chosen>)
    requires InGroup(fs, plain) && InGroup(fs, slots) && WellChosen(fs, chosen) && HeldInRange(fs, held)
        && slot < |slots|
    ensures var p := slots[slot];
            var now := ChooseAll(os, fs, plain, held, skipped, slots[slot..], brought, chosen);
            var r := Choose(os, fs, held, skipped, p, Candidates(fs, plain, p), brought, []);
            if p in skipped then now == ChooseAll(os, fs, plain, held, skipped, slots[slot + 1..], brought, chosen)
            else if r.Skipped? then now == Skipped(r.skip)
            else
              && InGroup(fs, r.value)
              && now == ChooseAll(os, fs, plain, held, skipped, slots[slot + 1..],
                                  brought + CopyKeys(os, fs, Chosen(p, r.value)), chosen + [Chosen(p, r.value)])
  {
    hide Candidates, Choose, CopyKeys;
    assert slots[slot..][1..] == slots[slot + 1..];
    ChooseInRange(os, fs, held, skipped, slots[slot], Candidates(fs, plain, slots[slot]), brought, []);
  }

  lemma ChooseAllEnds(os: Platform, fs: seq<Frontend>, plain: seq<nat>, held: map<RouteKey, nat>, skipped: set<nat>,
                      slots: seq<nat>, brought: set<RouteKey>, chosen: seq<Chosen>)
    requires InGroup(fs, plain) && WellChosen(fs, chosen) && HeldInRange(fs, held) && slots == []
    ensures ChooseAll(os, fs, plain, held, skipped, slots, brought, chosen) == Done(chosen)
  {
  }

  /** The copies among a tier's entries, paired with their owners. */
  function Brought(tier: seq<Predicated>): seq<(nat, Frontend)> {
    if tier == [] then []
    else Brought(tier[..|tier| - 1]) +
         if tier[|tier| - 1].copy then [(tier[|tier| - 1].owner, tier[|tier| - 1].rule)] else []
  }

  /** What one group works out once and reuses in every round. */
  class GroupPlan {
    const os: Platform
    const fs: seq<Frontend>
    ghost const members: seq<nat>
    /** `PlainRoutes` of the members. */
    const plain: seq<nat>
    /** `Originals` of the members. */
    const originals: seq<nat>
    /** `HeldBy` of the members. */
    const held: map<RouteKey, nat>
    /** Per slot, a prefix of its `Candidates` and the length of the part of `plain` it was taken from. */
    var candidates: seq<(seq<Candidate>, nat)>
    /** The copies' route keys, numbered. */
    var keys: Numbers
    const admission: Admission

    ghost predicate Inputs() {
      && InGroup(fs, members) && (forall i, j :: 0 <= i < j < |members| ==> members[i] < members[j])
      && plain == PlainRoutes(fs, members) && originals == Originals(fs, members)
      && held == HeldBy(os, fs, members)
      && InGroup(fs, plain) && InGroup(fs, originals) && HeldInRange(fs, held)
    }

    ghost predicate Valid()
      reads this, admission
    {
      && Inputs()
      && Numbered(keys)
      && |candidates| == |originals|
      && (forall slot :: 0 <= slot < |originals| ==>
                           Searched(os, fs, plain, held, keys, originals[slot], candidates[slot]))
      && admission.Valid(os, fs)
    }

    constructor (os: Platform, fs: seq<Frontend>, members: seq<nat>)
      requires InGroup(fs, members) && forall i, j :: 0 <= i < j < |members| ==> members[i] < members[j]
      ensures Valid() && fresh(admission)
      ensures this.os == os && this.fs == fs && this.members == members
    {
      hide PlainRoutes, Originals, HeldBy, Searched;
      this.os, this.fs, this.members := os, fs, members;
      HeldInGroup(os, fs, members);
      OriginalsInGroup(fs, members);
      var routes, slots, holders := PlainRoutes(fs, members), Originals(fs, members), HeldBy(os, fs, members);
      plain, originals, held := routes, slots, holders;
      forall i | 0 <= i < |slots| {
        NothingSearched(os, fs, routes, holders, slots[i]);
      }
      candidates := seq(|slots|, i requires 0 <= i < |slots| => ([], if fs[slots[i]].path.Regex? then |routes| else 0));
      keys := map[];
      admission := new Admission();
    }

    /** Element `c` of the candidates for `slot`, extending the search only if it has not come that far. */
    method FindCandidate(slot: nat, c: nat) returns (r: Option<Candidate>)
      requires Valid() && slot < |originals|
      modifies this`candidates, this`keys
      ensures Valid() && Extends(old(keys), keys)
      ensures forall s :: 0 <= s < |originals| ==> old(candidates)[s].0 <= candidates[s].0
      ensures var all := Candidates(fs, plain, originals[slot]);
              if c < |all| then
                && c < |candidates[slot].0| && r == Some(candidates[slot].0[c])
                && Describes(os, fs, held, keys, all[c], originals[slot], r.value)
              else r.None?
    {
      hide Outranks, LiftedCopy, CopyKey, HolderOf, RouteKeyOf;
      var p := originals[slot];
      while |candidates[slot].0| <= c
        invariant Valid() && Extends(old(keys), keys)
        invariant forall s :: 0 <= s < |originals| ==> old(candidates)[s].0 <= candidates[s].0
        decreases |plain| - candidates[slot].1
      {
        var searched := candidates[slot].1;
        if searched == |plain| {
          CandidatesPrefix(fs, plain, |plain|, p);
          return None;
        }
        Search(slot);
      }
      CandidatesPrefix(fs, plain, candidates[slot].1, p);
      r := Some(candidates[slot].0[c]);
    }

    /** The copies one header match adds, by numbered key and candidate, or why it is skipped. */
    method ChooseCopies(slot: nat, skipped: set<nat>, brought: set<nat>, ghost broughtKeys: set<RouteKey>)
        returns (r: Outcome<seq<(nat, nat)>>)
      requires Valid() && slot < |originals| && Mirrors(keys, broughtKeys, brought)
      modifies this`candidates, this`keys
      ensures Valid() && Extends(old(keys), keys)
      ensures forall s :: 0 <= s < |originals| ==> old(candidates)[s].0 <= candidates[s].0
      ensures match Choose(os, fs, held, skipped, originals[slot], Candidates(fs, plain, originals[slot]), broughtKeys,
                           [])
              case Skipped(skip) => r == Skipped(skip)
              case Done(routes) => r.Done? && Picks(os, fs, keys, candidates[slot].0, originals[slot], routes, r.value)
    {
      hide Candidates, LiftedCopy, CopyKey, HolderOf, Searched, PlainRoutes, Originals, HeldBy, Choose, History, Picks,
          Mirrors, Numbered;
      var p := originals[slot];
      ghost var all := Candidates(fs, plain, p);
      ghost var routes: seq<nat> := [];
      var added: seq<(nat, nat)> := [];
      var c := 0;
      NothingPicked(os, fs, keys, candidates[slot].0, p);
      while true
        invariant Valid() && Extends(old(keys), keys) && c <= |all|
        invariant forall s :: 0 <= s < |originals| ==> old(candidates)[s].0 <= candidates[s].0
        invariant Picks(os, fs, keys, candidates[slot].0, p, routes, added)
        invariant InGroup(fs, routes)
        invariant Mirrors(keys, broughtKeys, brought)
        invariant Choose(os, fs, held, skipped, p, all, broughtKeys, []) ==
                  Choose(os, fs, held, skipped, p, all[c..], broughtKeys, routes)
        decreases |all| - c
      {
        ghost var numbers, found := keys, candidates[slot].0;
        var next := FindCandidate(slot, c);
        StillPicks(os, fs, numbers, keys, found, candidates[slot].0, p, routes, added);
        StillMirrors(numbers, keys, broughtKeys, brought);
        if next.None? {
          ChooseEnds(os, fs, held, skipped, p, all[c..], broughtKeys, routes);
          return Done(added);
        }
        var turn, after := Turn(os, fs, held, skipped, keys, candidates[slot].0, p, all, c, next.value,
                                brought, broughtKeys, routes, added);
        if turn.Skipped? {
          return turn;
        }
        added, routes := turn.value, after;
        c := c + 1;
      }
    }

    /** The candidates chosen so far spell out `spec`. */
    ghost predicate Spells(chosen: seq<(nat, seq<nat>)>, spec: seq<Chosen>)
      reads this`candidates
    {
      && |chosen| == |spec| && |candidates| == |originals| && WellChosen(fs, spec)
      && forall i :: 0 <= i < |spec| ==>
           && chosen[i].0 < |originals| && originals[chosen[i].0] == spec[i].owner
           && PointsAt(fs, candidates[chosen[i].0].0, spec[i], chosen[i].1)
    }

    /** What each header match not skipped brings, in frontend order. */
    method ChooseRound(skipped: set<nat>) returns (r: Outcome<seq<(nat, seq<nat>)>>, ghost spec: seq<Chosen>)
      requires Valid()
      modifies this`candidates, this`keys
      ensures Valid()
      ensures match ChooseAll(os, fs, plain, held, skipped, originals, {}, [])
              case Skipped(skip) => r == Skipped(skip)
              case Done(all) => r.Done? && spec == all && Spells(r.value, spec)
    {
      hide Candidates, CopyKey, CopyKeys, Choose, Searched, PlainRoutes, Originals, HeldBy, History, ChooseAll,
          Numbered, Picks, PointsAt, Mirrors;
      var brought: set<nat> := {};
      ghost var broughtKeys: set<RouteKey> := {};
      var chosen: seq<(nat, seq<nat>)> := [];
      spec := [];
      NothingMirrored(keys);
      for slot := 0 to |originals|
        invariant Valid() && Mirrors(keys, broughtKeys, brought) && Spells(chosen, spec)
        invariant ChooseAll(os, fs, plain, held, skipped, originals, {}, []) ==
                  ChooseAll(os, fs, plain, held, skipped, originals[slot..], broughtKeys, spec)
      {
        var index := originals[slot];
        ChooseAllUnfolds(os, fs, plain, held, skipped, originals, slot, broughtKeys, spec);
        if index !in skipped {
          ghost var numbers, searches := keys, candidates;
          var added := ChooseCopies(slot, skipped, brought, broughtKeys);
          if added.Skipped? {
            return Skipped(added.skip), spec;
          }
          ghost var c := Chosen(index, Choose(os, fs, held, skipped, index, Candidates(fs, plain, index), broughtKeys,
                                              []).value);
          StillMirrors(numbers, keys, broughtKeys, brought);
          forall i | 0 <= i < |spec| {
            StillPointsAt(fs, searches[chosen[i].0].0, candidates[chosen[i].0].0, spec[i], chosen[i].1);
          }
          PicksPointAt(os, fs, keys, candidates[slot].0, c, added.value);
          PicksMirror(os, fs, keys, candidates[slot].0, c, added.value, broughtKeys, brought);
          brought := brought + (set a | a in added.value :: a.0);
          broughtKeys := broughtKeys + CopyKeys(os, fs, c);
          chosen := chosen + [(slot, Seconds(added.value))];
          spec := spec + [c];
        }
      }
      r := Done(chosen);
      ChooseAllEnds(os, fs, plain, held, skipped, originals[|originals|..], broughtKeys, spec);
    }

    /** The predicated class as Sozu would hold it: each header match, then its copies. */
    method BuildTier(chosen: seq<(nat, seq<nat>)>, ghost spec: seq<Chosen>) returns (tier: seq<Predicated>)
      requires Valid() && Spells(chosen, spec)
      ensures tier == TierOf(fs, spec)
    {
      hide Searched, PlainRoutes, Originals, HeldBy, History, LiftedCopy;
      tier := [];
      for i := 0 to |chosen|
        invariant tier == TierOf(fs, spec[..i])
      {
        var (slot, picks) := chosen[i];
        var index := originals[slot];
        ghost var entries := EntriesOf(fs, spec[i]);
        var group := [Predicated(fs[index], index, index, false)];
        for j := 0 to |picks|
          invariant group == entries[..j + 1]
        {
          var candidate := candidates[slot].0[picks[j]];
          group := group + [Predicated(candidate.rule, candidate.route, index, true)];
        }
        assert entries[..|picks| + 1] == entries;
        assert spec[..i + 1][..i] == spec[..i];
        tier := tier + group;
      }
      assert spec[..|spec|] == spec;
    }

    /** One round: `IsRound`'s outcome, with the copies of the tier it ends on. */
    method Round(skipped: set<nat>) returns (r: Outcome<seq<(nat, Frontend)>>, ghost spec: seq<Chosen>)
      requires Valid()
      modifies this`candidates, this`keys, admission
      ensures Valid()
      ensures if r.Skipped? then IsRound(os, fs, members, skipped, Skipped(r.skip))
              else
                && WellChosen(fs, spec) && IsRound(os, fs, members, skipped, Done(spec))
                && r.value == Brought(TierOf(fs, spec))
    {
      hide Searched, PlainRoutes, Originals, HeldBy, History, LiftedCopy, ChooseAll, TierOf, FirstPair, Admissible,
          Numbered, Spells;
      var chosen;
      chosen, spec := ChooseRound(skipped);
      if chosen.Skipped? {
        return Skipped(chosen.skip), spec;
      }
      assert WellChosen(fs, spec);
      var tier := BuildTier(chosen.value, spec);
      TierAdmissible(os, fs, members, skipped, spec);
      var found := admission.FirstUnsettled(os, fs, tier);
      if found.Some? {
        var (high, low, why) := found.value;
        FirstPairInRange(os, fs, tier, found);
        return Skipped(OverlapSkip(tier[high], tier[low], why)), spec;
      }
      var copies := CollectCopies(tier);
      r := Done(copies);
    }

    /** One step of the search: the next plain route, kept when it outranks the header match. */
    method Search(slot: nat)
      requires Valid() && slot < |originals| && candidates[slot].1 < |plain|
      modifies this`candidates, this`keys
      ensures Valid() && Extends(old(keys), keys)
      ensures forall s :: 0 <= s < |originals| ==> old(candidates)[s].0 <= candidates[s].0
      ensures candidates[slot].1 == old(candidates)[slot].1 + 1
    {
      hide Outranks, LiftedCopy, HolderOf, RouteKeyOf, Searched, PlainRoutes, Originals, HeldBy, Numbered, History;
      var p := originals[slot];
      var (found, searched) := candidates[slot];
      assert Searched(os, fs, plain, held, keys, p, candidates[slot]);
      var route := plain[searched];
      var rule := LiftedCopy(fs[route], fs[p]);
      var wins := Outranks(fs[route], fs[p]);
      var numbers := if wins then WithNumber(keys, RouteKeyOf(os, rule)) else keys;
      forall s | 0 <= s < |originals| {
        StillSearched(os, fs, plain, held, keys, numbers, originals[s], candidates[s]);
      }
      if wins {
        keys := numbers;
        var c := Candidate(route, rule, keys[RouteKeyOf(os, rule)], HolderOf(os, fs, held, rule));
        SearchedNext(os, fs, plain, held, keys, p, candidates[slot], c);
        candidates := candidates[slot := (found + [c], searched + 1)];
      } else {
        SearchedSkip(os, fs, plain, held, keys, p, candidates[slot]);
        candidates := candidates[slot := (found, searched + 1)];
      }
    }
  }

  lemma SearchedSkip(os: Platform, fs: seq<Frontend>, plain: seq<nat>, held: map<RouteKey, nat>, keys: Numbers,
                     p: nat, search: (seq<Candidate>, nat))
    requires Searched(os, fs, plain, held, keys, p, search) && search.1 < |plain| && InGroup(fs, plain)
    requires !Outranks(fs[plain[search.1]], fs[p])
    ensures Searched(os, fs, plain, held, keys, p, (search.0, search.1 + 1))
  {
    hide CopyKey, HolderOf, LiftedCopy, Candidates, Outranks;
    CandidatesSnoc(fs, plain, search.1, p);
  }

  lemma NothingPicked(os: Platform, fs: seq<Frontend>, keys: Numbers, found: seq<Candidate>, p: nat)
    requires p < |fs|
    ensures Picks(os, fs, keys, found, p, [], [])
  {
  }

  lemma ChooseEnds(os: Platform, fs: seq<Frontend>, held: map<RouteKey, nat>, skipped: set<nat>, p: nat,
                   left: seq<nat>, brought: set<RouteKey>, added: seq<nat>)
    requires p < |fs| && left == [] && InGroup(fs, added) && HeldInRange(fs, held)
    ensures Choose(os, fs, held, skipped, p, left, brought, added) == Done(added)
  {
  }

  /** One candidate's turn in `Choose`, branch by branch. */
  lemma ChooseUnfolds(os: Platform, fs: seq<Frontend>, held: map<RouteKey, nat>, skipped: set<nat>, p: nat,
                      all: seq<nat>, c: nat, brought: set<RouteKey>, added: seq<nat>)
    requires p < |fs| && InGroup(fs, all) && InGroup(fs, added) && HeldInRange(fs, held) && c < |all|
    ensures var u := all[c];
            var key := CopyKey(os, fs, u, p);
            var now := Choose(os, fs, held, skipped, p, all[c..], brought, added);
            var at := FindKey(os, fs, p, added, key);
            if Taken(held, skipped, key) then
              now == if SameMatch(fs[held[key]], LiftedCopy(fs[u], fs[p])) then
                       Choose(os, fs, held, skipped, p, all[c + 1..], brought, added)
                     else Skipped(Skip(p, CopyKeyTaken(u, held[key])))
            else if key in brought then now == Choose(os, fs, held, skipped, p, all[c + 1..], brought, added)
            else if at.Some? then
              now == if GwPrecedence(fs[u], fs[added[at.value]]).Greater? then
                       Choose(os, fs, held, skipped, p, all[c + 1..], brought, added[at.value := u])
                     else Choose(os, fs, held, skipped, p, all[c + 1..], brought, added)
            else
              now == if |brought| + |added| + 1 > MAX_LIFTED_PER_HOSTNAME then Skipped(Skip(p, PrecedenceLimit))
                     else Choose(os, fs, held, skipped, p, all[c + 1..], brought, added + [u])
  {
    hide CopyKey, SameMatch, LiftedCopy, GwPrecedence, FindKey;
    assert all[c..][1..] == all[c + 1..];
  }

  lemma PicksInstead(os: Platform, fs: seq<Frontend>, keys: Numbers, found: seq<Candidate>, p: nat, routes: seq<nat>,
                     added: seq<(nat, nat)>, at: nat, u: nat, pick: (nat, nat))
    requires Picks(os, fs, keys, found, p, routes, added) && at < |added| && u < |fs| && p < |fs|
    requires CopyKey(os, fs, u, p) in keys && keys[CopyKey(os, fs, u, p)] == pick.0
    requires pick.1 < |found| && found[pick.1].route == u && found[pick.1].rule == LiftedCopy(fs[u], fs[p])
    ensures Picks(os, fs, keys, found, p, routes[at := u], added[at := pick])
  {
    hide CopyKey, LiftedCopy;
  }

  lemma PicksMore(os: Platform, fs: seq<Frontend>, keys: Numbers, found: seq<Candidate>, p: nat, routes: seq<nat>,
                  added: seq<(nat, nat)>, u: nat, pick: (nat, nat))
    requires Picks(os, fs, keys, found, p, routes, added) && u < |fs| && p < |fs|
    requires CopyKey(os, fs, u, p) in keys && keys[CopyKey(os, fs, u, p)] == pick.0
    requires pick.1 < |found| && found[pick.1].route == u && found[pick.1].rule == LiftedCopy(fs[u], fs[p])
    ensures Picks(os, fs, keys, found, p, routes + [u], added + [pick])
  {
    hide CopyKey, LiftedCopy;
  }

  method CollectCopies(tier: seq<Predicated>) returns (copies: seq<(nat, Frontend)>)
    ensures copies == Brought(tier)
  {
    copies := [];
    for i := 0 to |tier|
      invariant copies == Brought(tier[..i])
    {
      assert tier[..i + 1][..i] == tier[..i];
      if tier[i].copy {
        copies := copies + [(tier[i].owner, tier[i].rule)];
      }
    }
    assert tier[..|tier|] == tier;
  }

  /** The tier of a choice lists each of its entries once. */
  lemma TierAdmissible(os: Platform, fs: seq<Frontend>, members: seq<nat>, skipped: set<nat>, spec: seq<Chosen>)
    requires InGroup(fs, members) && forall i, j :: 0 <= i < j < |members| ==> members[i] < members[j]
    requires WellChosen(fs, spec) && HeldInRange(fs, HeldBy(os, fs, members))
    requires InGroup(fs, PlainRoutes(fs, members)) && InGroup(fs, Originals(fs, members))
    requires ChooseAll(os, fs, PlainRoutes(fs, members), HeldBy(os, fs, members), skipped, Originals(fs, members), {},
                       []) == Done(spec)
    ensures Admissible(fs, TierOf(fs, spec))
  {
    hide ChooseAll, TierOf, Admissible, HeldBy, ChosenFacts, PlainRoutes, Separate;
    var brought := ChoiceFacts(os, fs, members, skipped, spec);
    var owners := Kept(Originals(fs, members), skipped);
    FilterAscends((p: nat) => p < |fs| && fs[p].headers != [], members);
    FilterAscends((p: nat) => p !in skipped, Originals(fs, members));
    forall i | 0 <= i < |spec| ensures spec[i].owner == owners[i] && Separate(fs, spec[i]) {
      assert Owners(spec)[i] == spec[i].owner;
      SeparateEntry(os, fs, members, skipped, spec, brought, i);
    }
    DistinctTier(fs, spec);
  }

  lemma SeparateEntry(os: Platform, fs: seq<Frontend>, members: seq<nat>, skipped: set<nat>, spec: seq<Chosen>,
                      brought: set<RouteKey>, i: nat)
    requires InGroup(fs, members) && WellChosen(fs, spec) && i < |spec|
    requires ChosenFacts(os, fs, PlainRoutes(fs, members), HeldBy(os, fs, members), skipped, brought, spec)
    requires Owners(spec) == Kept(Originals(fs, members), skipped)
    ensures Separate(fs, spec[i])
  {
    hide CopyKey, AllCovered, HeldBy, Brings, KeysApart, Outranks, Originals;
    OriginalsInGroup(fs, members);
    assert EntryFacts(os, fs, PlainRoutes(fs, members), HeldBy(os, fs, members), skipped, spec, i);
    assert Owners(spec)[i] in Kept(Originals(fs, members), skipped);
    var c := spec[i];
    forall k | 0 <= k < |c.routes| ensures c.routes[k] < |fs| && fs[c.routes[k]].headers == [] {
      assert c.routes[k] in c.routes;
    }
    forall k, l | 0 <= k < l < |c.routes| ensures c.routes[k] != c.routes[l] {
      assert CopyKey(os, fs, c.routes[k], c.owner) != CopyKey(os, fs, c.routes[l], c.owner);
    }
  }

  ghost predicate Ascends(s: seq<nat>) {
    forall i, j :: 0 <= i < j < |s| ==> s[i] < s[j]
  }

  lemma {:induction false} FilterAscends(p: nat -> bool, s: seq<nat>)
    requires Ascends(s)
    ensures Ascends(Filter(p, s))
  {
    if s != [] {
      FilterAscends(p, s[1..]);
      forall j | 0 <= j < |Filter(p, s[1..])| ensures s[0] < Filter(p, s[1..])[j] {
        assert Filter(p, s[1..])[j] in s[1..];
      }
    }
  }

  /** A header match above distinct plain routes. */
  ghost predicate Separate(fs: seq<Frontend>, c: Chosen) {
    && c.owner < |fs| && fs[c.owner].headers != []
    && (forall i :: 0 <= i < |c.routes| ==> c.routes[i] < |fs| && fs[c.routes[i]].headers == [])
    && (forall i, j :: 0 <= i < j < |c.routes| ==> c.routes[i] != c.routes[j])
  }

  lemma {:induction false} DistinctTier(fs: seq<Frontend>, spec: seq<Chosen>)
    requires WellChosen(fs, spec) && forall i :: 0 <= i < |spec| ==> Separate(fs, spec[i])
    requires forall i, j :: 0 <= i < j < |spec| ==> spec[i].owner < spec[j].owner
    ensures Admissible(fs, TierOf(fs, spec))
  {
    hide Admissible, EntriesOf;
    if spec != [] {
      var n := |spec| - 1;
      var before := TierOf(fs, spec[..n]);
      DistinctTier(fs, spec[..n]);
      forall e | e in before ensures e.owner < spec[n].owner {
        var k := TierEntry(fs, spec[..n], e);
      }
      EntriesAdmissible(fs, before, spec[n]);
    } else {
      NothingAdmissible(fs);
    }
  }

  lemma NothingAdmissible(fs: seq<Frontend>)
    ensures Admissible(fs, [])
  {
  }

  lemma EntriesAdmissible(fs: seq<Frontend>, before: seq<Predicated>, c: Chosen)
    requires Admissible(fs, before) && Separate(fs, c) && InGroup(fs, c.routes)
    requires forall e :: e in before ==> e.owner < c.owner
    ensures Admissible(fs, before + EntriesOf(fs, c))
  {
    hide LiftedCopy;
    var last := EntriesOf(fs, c);
    assert last[0].Id() == (c.owner, c.owner) && last[0] == EntryOf(fs, last[0].Id());
    forall j | 1 <= j < |last| ensures last[j].Id() == (c.routes[j - 1], c.owner)
        && last[j] == EntryOf(fs, last[j].Id()) {
    }
    var tier := before + last;
    forall i, j | 0 <= i < j < |tier| ensures tier[i].Id() != tier[j].Id() {
      if i < |before| && j >= |before| {
        assert before[i] in before;
      }
    }
  }
}
