/** The planner's promise: with its copies added and its skips taken, Sozu serves every request a
    header match takes as the Gateway API ranks the routes, in whatever order it holds them, and
    every other request as if the planner had added nothing. */
module Precedence {
  import opened Base
  import opened Paths
  import opened Frontends
  import opened RouteKeys
  import opened Sozu
  import opened Tier
  import opened Admissions
  import opened Planner
  import opened Choices

  /** A planned group: the round that skips exactly `skipped` succeeds with `chosen`. */
  ghost predicate Planned(os: Platform, fs: seq<Frontend>, members: seq<nat>, skipped: set<nat>, chosen: seq<Chosen>) {
    && Group(os, fs, members)
    && (forall p :: p in HeaderMatches(fs, members) ==> p in Originals(fs, members) || p in skipped)
    && (forall i :: i in skipped && i in members ==> fs[i].headers != [])
    && WellChosen(fs, chosen)
    && IsRound(os, fs, members, skipped, Done(chosen))
  }

  predicate KeptIn(members: seq<nat>, skipped: set<nat>, i: nat) {
    i in members && i !in skipped
  }

  /** `held` lists, in any order, the kept frontends and the copies. */
  ghost predicate HoldsPlan(fs: seq<Frontend>, members: seq<nat>, skipped: set<nat>, chosen: seq<Chosen>,
                            held: seq<Frontend>)
    requires InGroup(fs, members) && WellChosen(fs, chosen)
  {
    && (forall i: nat :: KeptIn(members, skipped, i) ==> fs[i] in held)
    && (forall e :: e in TierOf(fs, chosen) && e.copy ==> e.rule in held)
    && (forall f :: f in held ==> || (exists i: nat :: KeptIn(members, skipped, i) && fs[i] == f)
                                  || (exists e :: e in TierOf(fs, chosen) && e.copy && e.rule == f))
  }

  /** Gateway API precedence, then frontend order. */
  predicate RanksOver(fs: seq<Frontend>, g: nat, f: nat)
    requires g < |fs| && f < |fs|
  {
    GwPrecedence(fs[g], fs[f]).Greater? || (GwPrecedence(fs[g], fs[f]).Equal? && g < f)
  }

  // ---- the entries of a tier ---------------------------------------------------------------------

  function HeaderEntry(fs: seq<Frontend>, p: nat): Predicated
    requires p < |fs|
  {
    Predicated(fs[p], p, p, false)
  }

  function CopyEntry(fs: seq<Frontend>, u: nat, p: nat): Predicated
    requires u < |fs| && p < |fs|
  {
    Predicated(LiftedCopy(fs[u], fs[p]), u, p, true)
  }

  lemma {:induction false} EntryInTier(fs: seq<Frontend>, chosen: seq<Chosen>, i: nat)
    requires WellChosen(fs, chosen) && i < |chosen|
    ensures HeaderEntry(fs, chosen[i].owner) in TierOf(fs, chosen)
    ensures forall j :: 0 <= j < |chosen[i].routes| ==>
        CopyEntry(fs, chosen[i].routes[j], chosen[i].owner) in TierOf(fs, chosen)
  {
    hide LiftedCopy;
    var n := |chosen| - 1;
    var last := EntriesOf(fs, chosen[n]);
    if i < n {
      EntryInTier(fs, chosen[..n], i);
    } else {
      assert last[0] == HeaderEntry(fs, chosen[i].owner);
      assert forall j :: 0 <= j < |chosen[i].routes| ==>
          last[1 + j] == CopyEntry(fs, chosen[i].routes[j], chosen[i].owner);
    }
  }

  lemma {:induction false} TierEntry(fs: seq<Frontend>, chosen: seq<Chosen>, e: Predicated) returns (i: nat)
    requires WellChosen(fs, chosen) && e in TierOf(fs, chosen)
    ensures i < |chosen| && e.owner == chosen[i].owner
    ensures if e.copy then e.ranksAs in chosen[i].routes && e == CopyEntry(fs, e.ranksAs, e.owner)
            else e == HeaderEntry(fs, e.owner)
  {
    hide LiftedCopy;
    var n := |chosen| - 1;
    if e in TierOf(fs, chosen[..n]) {
      i := TierEntry(fs, chosen[..n], e);
    } else {
      i := n;
      var j :| 0 <= j < |EntriesOf(fs, chosen[n])| && EntriesOf(fs, chosen[n])[j] == e;
      if j > 0 {
        assert e == CopyEntry(fs, chosen[n].routes[j - 1], chosen[n].owner);
      }
    }
  }

  /** A tier lists the header matches as chosen, each followed at once by its own copies. */
  lemma {:induction false} TierInOrder(fs: seq<Frontend>, chosen: seq<Chosen>, n: nat, k: nat)
    requires WellChosen(fs, chosen) && n < |chosen| && k <= |chosen[n].routes|
    ensures var at := |TierOf(fs, chosen[..n])| + k;
            && at < |TierOf(fs, chosen)|
            && TierOf(fs, chosen)[at] ==
               if k == 0 then HeaderEntry(fs, chosen[n].owner)
               else CopyEntry(fs, chosen[n].routes[k - 1], chosen[n].owner)
  {
    hide LiftedCopy;
    var last := |chosen| - 1;
    if n < last {
      TierInOrder(fs, chosen[..last], n, k);
      assert chosen[..last][..n] == chosen[..n];
    } else {
      var before, more := TierOf(fs, chosen[..n]), EntriesOf(fs, chosen[n]);
      assert (before + more)[|before| + k] == more[k];
    }
  }

  /** What a completed choice establishes. */
  lemma ChoiceFacts(os: Platform, fs: seq<Frontend>, members: seq<nat>, skipped: set<nat>, chosen: seq<Chosen>)
      returns (brought: set<RouteKey>)
    requires InGroup(fs, members) && HeldInRange(fs, HeldBy(os, fs, members))
    requires InGroup(fs, PlainRoutes(fs, members)) && InGroup(fs, Originals(fs, members))
    requires ChooseAll(os, fs, PlainRoutes(fs, members), HeldBy(os, fs, members), skipped, Originals(fs, members), {},
                       []) == Done(chosen)
    ensures ChosenFacts(os, fs, PlainRoutes(fs, members), HeldBy(os, fs, members), skipped, brought, chosen)
    ensures Owners(chosen) == Kept(Originals(fs, members), skipped)
  {
    hide ChooseAll, ChosenFacts, HeldBy, Originals, PlainRoutes, Kept;
    OriginalsInGroup(fs, members);
    var plain, held := PlainRoutes(fs, members), HeldBy(os, fs, members);
    NothingChosen(os, fs, plain, held, skipped);
    brought := ChooseAllFacts(os, fs, plain, held, skipped, Originals(fs, members), {}, []);
    assert Owners([]) == [];
  }

  /** What a successful round establishes. */
  lemma RoundFacts(os: Platform, fs: seq<Frontend>, members: seq<nat>, skipped: set<nat>, chosen: seq<Chosen>)
      returns (brought: set<RouteKey>)
    requires Planned(os, fs, members, skipped, chosen)
    ensures ChosenFacts(os, fs, PlainRoutes(fs, members), HeldBy(os, fs, members), skipped, brought, chosen)
    ensures Owners(chosen) == Kept(Originals(fs, members), skipped)
    ensures Admissible(fs, TierOf(fs, chosen)) && FirstPair(os, fs, TierOf(fs, chosen), None)
    ensures HeldInRange(fs, HeldBy(os, fs, members))
  {
    hide ChooseAll, ChosenFacts, HeldBy, RouteKeyOf, FirstPair, Admissible, Originals, PlainRoutes, Kept;
    HeldInGroup(os, fs, members);
    OriginalsInGroup(fs, members);
    brought := ChoiceFacts(os, fs, members, skipped, chosen);
    var tier := TierOf(fs, chosen);
    var found :| FirstPair(os, fs, tier, found) && Done(chosen) == Verdict(tier, chosen, found);
    if found.Some? {
      FirstPairInRange(os, fs, tier, found);
    }
  }

  lemma NothingChosen(os: Platform, fs: seq<Frontend>, plain: seq<nat>, held: map<RouteKey, nat>, skipped: set<nat>)
    requires InGroup(fs, plain)
    ensures ChosenFacts(os, fs, plain, held, skipped, {}, [])
  {
  }

  /** Where an entry comes from: a kept header match, or a plain route that outranks a kept one. */
  ghost predicate EntryFrom(os: Platform, fs: seq<Frontend>, members: seq<nat>, skipped: set<nat>, e: Predicated)
    requires InGroup(fs, members)
  {
    && KeptIn(members, skipped, e.owner) && fs[e.owner].headers != []
    && if e.copy then
         && e.ranksAs in members && fs[e.ranksAs].headers == [] && !fs[e.ranksAs].path.Regex?
         && !fs[e.owner].path.Regex? && Outranks(fs[e.ranksAs], fs[e.owner])
         && e == CopyEntry(fs, e.ranksAs, e.owner)
       else e == HeaderEntry(fs, e.owner)
  }

  lemma EntryOrigin(os: Platform, fs: seq<Frontend>, members: seq<nat>, skipped: set<nat>, chosen: seq<Chosen>,
                    e: Predicated)
    requires Planned(os, fs, members, skipped, chosen) && e in TierOf(fs, chosen)
    ensures InGroup(fs, members) && EntryFrom(os, fs, members, skipped, e)
  {
    hide RouteKeyOf, ChooseAll, Choose, CompiledRule, GwPrecedence, PathsMeet, TierOf, FirstPair, AllCovered,
        FiledApart;
    var brought := RoundFacts(os, fs, members, skipped, chosen);
    var i := TierEntry(fs, chosen, e);
    assert EntryFacts(os, fs, PlainRoutes(fs, members), HeldBy(os, fs, members), skipped, chosen, i);
    assert Owners(chosen)[i] in Kept(Originals(fs, members), skipped);
    OriginalsInGroup(fs, members);
  }

  /** The tier of a planned group has the shape the tier theorem asks for and no conflict. */
  lemma PlannedTier(os: Platform, fs: seq<Frontend>, members: seq<nat>, skipped: set<nat>, chosen: seq<Chosen>,
                    hostname: string)
    requires Planned(os, fs, members, skipped, chosen)
    requires forall i :: i in members ==> fs[i].hostname == hostname
    ensures TierShape(fs, hostname, TierOf(fs, chosen)) && ConflictFree(os, fs, TierOf(fs, chosen))
  {
    hide IsRound, RouteKeyOf, Originals, HeaderMatches, TierOf, Conflict, Outranks;
    var tier := TierOf(fs, chosen);
    var brought := RoundFacts(os, fs, members, skipped, chosen);
    AdmittedTier(os, fs, tier);
    forall e | e in tier ensures InRange(fs, e) && e.rule.headers != [] && e.rule.hostname == hostname {
      EntryOrigin(os, fs, members, skipped, chosen, e);
    }
  }

  lemma AdmittedTier(os: Platform, fs: seq<Frontend>, tier: seq<Predicated>)
    requires Admissible(fs, tier) && FirstPair(os, fs, tier, None)
    ensures forall e :: e in tier ==> InRange(fs, e)
    ensures forall a, b :: a in tier && b in tier && a.Id() == b.Id() ==> a == b
    ensures ConflictFree(os, fs, tier)
  {
    hide Conflict;
    forall a, b | a in tier && b in tier ensures Conflict(os, fs, a, b).None? {
      var i :| 0 <= i < |tier| && tier[i] == a;
      var j :| 0 <= j < |tier| && tier[j] == b;
      assert Orderly(os, fs, tier, i);
    }
  }

  lemma HeaderInTier(os: Platform, fs: seq<Frontend>, members: seq<nat>, skipped: set<nat>, chosen: seq<Chosen>, p: nat)
    requires Planned(os, fs, members, skipped, chosen) && KeptIn(members, skipped, p) && fs[p].headers != []
    ensures HeaderEntry(fs, p) in TierOf(fs, chosen)
  {
    hide ChooseAll, Choose, ChosenFacts, TierOf, FirstPair, Admissible, RouteKeyOf, Originals;
    var brought := RoundFacts(os, fs, members, skipped, chosen);
    assert p in HeaderMatches(fs, members);
    assert p in Owners(chosen);
    var i :| 0 <= i < |Owners(chosen)| && Owners(chosen)[i] == p;
    EntryInTier(fs, chosen, i);
  }

  lemma HeldIsTier(os: Platform, fs: seq<Frontend>, members: seq<nat>, skipped: set<nat>, chosen: seq<Chosen>,
                   held: seq<Frontend>)
    requires Planned(os, fs, members, skipped, chosen) && HoldsPlan(fs, members, skipped, chosen, held)
    ensures HoldsTier(held, TierOf(fs, chosen))
  {
    hide IsRound, RouteKeyOf, Originals, HeaderMatches, TierOf, Outranks;
    var tier := TierOf(fs, chosen);
    forall e | e in tier ensures e.rule in held {
      EntryOrigin(os, fs, members, skipped, chosen, e);
    }
    forall f | f in held && f.headers != [] ensures exists e :: e in tier && e.rule == f {
      if i: nat :| KeptIn(members, skipped, i) && fs[i] == f {
        HeaderInTier(os, fs, members, skipped, chosen, i);
        assert HeaderEntry(fs, i).rule == f;
      }
    }
  }

  // ---- a plain route that outranks a kept header match ------------------------------------------------

  /** A copy filed where `f`'s copy above `p` would be is of a route that ranks over `f`, or of `f`. */
  lemma SharedKeyRanks(os: Platform, fs: seq<Frontend>, members: seq<nat>, v: nat, q: nat, f: nat, p: nat)
    requires Group(os, fs, members) && f in members && p in members && v in members && q in members
    requires fs[f].headers == [] && !fs[f].path.Regex? && fs[v].headers == [] && !fs[v].path.Regex?
    requires CopyKey(os, fs, v, q) == CopyKey(os, fs, f, p)
    requires fs[f].verb == fs[v].verb || fs[v].verb.Some?
    ensures v == f || GwPrecedence(fs[v], fs[f]).Greater?
  {
    hide RouteKeyOf, CompiledRule;
    SharedCopyKey(os, fs, members, v, q, f, p);
    if fs[f].verb != fs[v].verb {
      assert LiftedCopy(fs[v], fs[q]).verb == LiftedCopy(fs[f], fs[p]).verb;
    }
  }

  /** A plain method-naming route shares a copy key with a method-less one only above a header match
      naming that method; it outranks that header match too. */
  lemma NamingRouteOutranks(os: Platform, fs: seq<Frontend>, members: seq<nat>, v: nat, q: nat, f: nat, p: nat)
    requires Group(os, fs, members) && f in members && p in members && v in members && q in members
    requires fs[f].headers == [] && !fs[f].path.Regex? && fs[v].headers == [] && !fs[v].path.Regex?
    requires !fs[q].path.Regex? && Outranks(fs[v], fs[q])
    requires CopyKey(os, fs, v, q) == CopyKey(os, fs, f, p)
    requires fs[v].verb.None? && fs[f].verb.Some?
    ensures Outranks(fs[f], fs[q]) && GwPrecedence(fs[f], fs[v]).Greater?
    ensures CopyKey(os, fs, f, q) == CopyKey(os, fs, v, q)
  {
    hide RouteKeyOf, CompiledRule, Canonical;
    SharedCopyKey(os, fs, members, v, q, f, p);
    assert fs[q].verb == fs[f].verb;
    GwTransitive(fs[f], fs[v], fs[q]);
    assert GroupOf(fs[f]) == GroupOf(fs[v]);
    assert SameMatch(LiftedCopy(fs[f], fs[q]), LiftedCopy(fs[v], fs[q]));
    SameMatchSameKey(os, LiftedCopy(fs[f], fs[q]), LiftedCopy(fs[v], fs[q]));
  }

  /** How a plain route that outranks a kept header match is answered for in the tier. */
  datatype Answer = Holder(h: nat) | Copied(route: nat, owner: nat)

  ghost predicate Answers(os: Platform, fs: seq<Frontend>, members: seq<nat>, skipped: set<nat>, chosen: seq<Chosen>,
                          f: nat, p: nat, a: Answer)
    requires InGroup(fs, members) && WellChosen(fs, chosen) && f < |fs| && p < |fs|
  {
    match a
    case Holder(h) => KeptIn(members, skipped, h) && SameMatch(fs[h], LiftedCopy(fs[f], fs[p]))
    case Copied(v, q) =>
      && v in members && q in members
      && CopyEntry(fs, v, q) in TierOf(fs, chosen)
      && SameMatch(LiftedCopy(fs[v], fs[q]), LiftedCopy(fs[f], fs[p]))
      && (v == f || GwPrecedence(fs[v], fs[f]).Greater?)
  }

  /** A kept header match has its entry, and an outranking plain route is a candidate of its. */
  lemma OwnedEntry(os: Platform, fs: seq<Frontend>, members: seq<nat>, skipped: set<nat>, chosen: seq<Chosen>, f: nat,
                   p: nat)
      returns (i: nat)
    requires Planned(os, fs, members, skipped, chosen) && KeptIn(members, skipped, p) && fs[p].headers != []
    requires f in members && fs[f].headers == [] && !fs[f].path.Regex? && !fs[p].path.Regex? && Outranks(fs[f], fs[p])
    ensures i < |chosen| && chosen[i].owner == p && f in Candidates(fs, PlainRoutes(fs, members), p)
  {
    hide ChosenFacts, TierOf, FirstPair, Admissible, RouteKeyOf, Originals, Outranks, IsRound;
    var brought := RoundFacts(os, fs, members, skipped, chosen);
    assert p in HeaderMatches(fs, members);
    assert p in Owners(chosen);
    i :| 0 <= i < |Owners(chosen)| && Owners(chosen)[i] == p;
    assert f in PlainRoutes(fs, members);
  }

  lemma OutrankingIsAnswered(os: Platform, fs: seq<Frontend>, members: seq<nat>, skipped: set<nat>, chosen: seq<Chosen>,
                             f: nat, p: nat)
      returns (a: Answer)
    requires Planned(os, fs, members, skipped, chosen) && KeptIn(members, skipped, p) && fs[p].headers != []
    requires f in members && fs[f].headers == [] && !fs[f].path.Regex? && !fs[p].path.Regex? && Outranks(fs[f], fs[p])
    ensures Answers(os, fs, members, skipped, chosen, f, p, a)
  {
    hide ChooseAll, TierOf, FirstPair, Admissible, RouteKeyOf, Originals, GwPrecedence, PathsMeet, SameMatch, Covers,
        FiledApart;
    var plain, held := PlainRoutes(fs, members), HeldBy(os, fs, members);
    var brought := RoundFacts(os, fs, members, skipped, chosen);
    HeldInGroup(os, fs, members);
    var i := OwnedEntry(os, fs, members, skipped, chosen, f, p);
    assert EntryFacts(os, fs, plain, held, skipped, chosen, i);
    hide PlainRoutes, HeaderMatches, HeldBy, Outranks, Kept, Brings, KeysApart, Keyable, LiftedCopy, Candidates;
    if StandsIn(os, fs, held, skipped, f, p) {
      a := Holder(held[CopyKey(os, fs, f, p)]);
    } else if Covers(os, fs, chosen[i].routes, f, p) {
      var j := CoveredBy(os, fs, chosen[i].routes, f, p);
      a := CopiedBy(os, fs, members, skipped, chosen, brought, i, j, f, p);
    } else {
      var k :| 0 <= k < i && CopyKey(os, fs, f, p) in CopyKeys(os, fs, chosen[k]);
      var j :| 0 <= j < |chosen[k].routes| && CopyKey(os, fs, chosen[k].routes[j], chosen[k].owner) ==
          CopyKey(os, fs, f, p);
      a := CopiedBy(os, fs, members, skipped, chosen, brought, k, j, f, p);
    }
  }

  lemma CoveredBy(os: Platform, fs: seq<Frontend>, routes: seq<nat>, u: nat, p: nat) returns (j: nat)
    requires u < |fs| && p < |fs| && InGroup(fs, routes) && Covers(os, fs, routes, u, p)
    ensures j < |routes| && CopyKey(os, fs, routes[j], p) == CopyKey(os, fs, u, p)
  {
    j :| 0 <= j < |routes| && CopyKey(os, fs, routes[j], p) == CopyKey(os, fs, u, p);
  }

  /** The copy filed under a key is of the best route for it, whichever header match brought it. */
  lemma CopiedBy(os: Platform, fs: seq<Frontend>, members: seq<nat>, skipped: set<nat>, chosen: seq<Chosen>,
                 brought: set<RouteKey>, k: nat, j: nat, f: nat, p: nat) returns (a: Answer)
    requires Group(os, fs, members) && WellChosen(fs, chosen) && f in members && p in members
    requires ChosenFacts(os, fs, PlainRoutes(fs, members), HeldBy(os, fs, members), skipped, brought, chosen)
    requires Owners(chosen) == Kept(Originals(fs, members), skipped)
    requires fs[f].headers == [] && !fs[f].path.Regex?
    requires k < |chosen| && j < |chosen[k].routes|
    requires CopyKey(os, fs, chosen[k].routes[j], chosen[k].owner) == CopyKey(os, fs, f, p)
    ensures a == Copied(chosen[k].routes[j], chosen[k].owner) && Answers(os, fs, members, skipped, chosen, f, p, a)
  {
    hide TierOf, RouteKeyOf, GwPrecedence, PathsMeet, SameMatch, CompiledRule, AllCovered, FiledApart, HeldBy;
    var v, q := chosen[k].routes[j], chosen[k].owner;
    OriginalsInGroup(fs, members);
    assert Owners(chosen)[k] in Kept(Originals(fs, members), skipped);
    assert EntryFacts(os, fs, PlainRoutes(fs, members), HeldBy(os, fs, members), skipped, chosen, k);
    assert v in Candidates(fs, PlainRoutes(fs, members), q);
    EntryInTier(fs, chosen, k);
    SharedCopyKey(os, fs, members, v, q, f, p);
    if fs[v].verb.None? && fs[f].verb.Some? {
      NamingRouteOutranks(os, fs, members, v, q, f, p);
      FiledOnce(os, fs, PlainRoutes(fs, members), HeldBy(os, fs, members), skipped, brought, chosen, k, j, f);
      GwReverse(fs[f], fs[v]);
    }
    SharedKeyRanks(os, fs, members, v, q, f, p);
    a := Copied(v, q);
  }

  /** A candidate of `chosen[k]` filed where its copy `j` is does not rank over it. */
  lemma FiledOnce(os: Platform, fs: seq<Frontend>, plain: seq<nat>, held: map<RouteKey, nat>, skipped: set<nat>,
                  brought: set<RouteKey>, chosen: seq<Chosen>, k: nat, j: nat, f: nat)
    requires ChosenFacts(os, fs, plain, held, skipped, brought, chosen) && k < |chosen| && j < |chosen[k].routes|
    requires f in Candidates(fs, plain, chosen[k].owner)
    requires CopyKey(os, fs, f, chosen[k].owner) == CopyKey(os, fs, chosen[k].routes[j], chosen[k].owner)
    ensures AtLeast(fs[chosen[k].routes[j]], fs[f])
  {
    hide CopyKey, Candidates, SameMatch, GwPrecedence;
    assert EntryFacts(os, fs, plain, held, skipped, chosen, k);
    assert CopyKey(os, fs, f, chosen[k].owner) in CopyKeys(os, fs, chosen[k]);
    assert forall i :: 0 <= i < k ==> CopyKeys(os, fs, chosen[i]) !! CopyKeys(os, fs, chosen[k]);
  }

  // ---- the theorem -----------------------------------------------------------------------------------

  /** What the theorem asks of the served rule against a matching kept frontend `f`: `f`'s effect, or
      that of a matching kept frontend that ranks over `f`. */
  ghost predicate ServedRightly(os: Platform, fs: seq<Frontend>, members: seq<nat>, skipped: set<nat>, q: Request,
                                served: Frontend, f: nat)
  {
    && InGroup(fs, members) && f < |fs|
    && (|| SameEffect(served, fs[f])
        || exists g: nat :: KeptIn(members, skipped, g) && Matches(os, fs[g], q) && SameEffect(served, fs[g])
            && RanksOver(fs, g, f))
  }

  /** The served entry `s` of a planned group, and what the tier theorem says of it. */
  ghost predicate ServedEntry(os: Platform, fs: seq<Frontend>, members: seq<nat>, skipped: set<nat>,
                              chosen: seq<Chosen>, q: Request, s: Predicated)
  {
    && InGroup(fs, members) && WellChosen(fs, chosen)
    && s in TierOf(fs, chosen) && EntryFrom(os, fs, members, skipped, s) && Matches(os, s.rule, q)
    && (forall e :: e in TierOf(fs, chosen) && InRange(fs, e) && Matches(os, e.rule, q) ==>
                      (SameEffect(s.rule, e.rule) || ServesFirst(fs, s, e)) && Conflict(os, fs, s, e).None?)
  }

  /** The frontend the served entry ranks as matches the request with the served effect. */
  lemma ServedOrigin(os: Platform, fs: seq<Frontend>, members: seq<nat>, skipped: set<nat>, chosen: seq<Chosen>,
                     q: Request, s: Predicated)
    requires Planned(os, fs, members, skipped, chosen) && ServedEntry(os, fs, members, skipped, chosen, q, s)
    ensures KeptIn(members, skipped, s.ranksAs) && Matches(os, fs[s.ranksAs], q) && SameEffect(s.rule, fs[s.ranksAs])
  {
    hide IsRound, RouteKeyOf, TierOf, GwPrecedence, PathsMeet, PathMatches, Conflict;
    if s.copy {
      CopyMatches(os, fs[s.ranksAs], fs[s.owner], q);
    }
  }

  lemma AgainstHeaderMatch(os: Platform, fs: seq<Frontend>, members: seq<nat>, skipped: set<nat>, chosen: seq<Chosen>,
                           q: Request, s: Predicated, f: nat)
    requires Planned(os, fs, members, skipped, chosen) && ServedEntry(os, fs, members, skipped, chosen, q, s)
    requires KeptIn(members, skipped, f) && fs[f].headers != [] && Matches(os, fs[f], q)
    ensures ServedRightly(os, fs, members, skipped, q, s.rule, f)
  {
    hide IsRound, RouteKeyOf, TierOf, GwPrecedence, Matches, Conflict;
    HeaderInTier(os, fs, members, skipped, chosen, f);
    ServedOrigin(os, fs, members, skipped, chosen, q, s);
    if !SameEffect(s.rule, fs[f]) {
      assert ServesFirst(fs, s, HeaderEntry(fs, f));
      assert s.ranksAs != f;
      assert RanksOver(fs, s.ranksAs, f);
    }
  }

  lemma PlainNeverTies(f: Frontend, p: Frontend)
    requires f.headers == [] && p.headers != []
    ensures !GwPrecedence(f, p).Equal?
    ensures p.path.Regex? ==> GwPrecedence(p, f).Greater?
  {
  }

  /** A kept header match that ranks over `f` bounds the served entry from below. */
  lemma AgainstLowerPlain(os: Platform, fs: seq<Frontend>, members: seq<nat>, skipped: set<nat>, chosen: seq<Chosen>,
                          q: Request, s: Predicated, f: nat, p: nat)
    requires Planned(os, fs, members, skipped, chosen) && ServedEntry(os, fs, members, skipped, chosen, q, s)
    requires f in members && fs[f].headers == [] && !fs[f].path.Regex? && Matches(os, fs[f], q)
    requires KeptIn(members, skipped, p) && fs[p].headers != [] && Matches(os, fs[p], q)
        && GwPrecedence(fs[p], fs[f]).Greater?
    requires s.copy || s == HeaderEntry(fs, p)
    ensures ServedRightly(os, fs, members, skipped, q, s.rule, f)
  {
    hide IsRound, RouteKeyOf, TierOf, GwPrecedence, Matches, Conflict;
    HeaderInTier(os, fs, members, skipped, chosen, p);
    ServedOrigin(os, fs, members, skipped, chosen, q, s);
    if SameEffect(s.rule, fs[p]) {
      assert RanksOver(fs, p, f);
    } else {
      var u := s.ranksAs;
      assert ServesFirst(fs, s, HeaderEntry(fs, p));
      PlainNeverTies(fs[u], fs[p]);
      GwReverse(fs[u], fs[p]);
      GwTransitive(fs[u], fs[p], fs[f]);
      assert RanksOver(fs, u, f);
    }
  }

  /** `f` outranks the kept header match and a copy answers for it. */
  lemma AgainstCopied(os: Platform, fs: seq<Frontend>, members: seq<nat>, skipped: set<nat>, chosen: seq<Chosen>,
                      q: Request, s: Predicated, f: nat, p: nat, v: nat, w: nat)
    requires Planned(os, fs, members, skipped, chosen) && ServedEntry(os, fs, members, skipped, chosen, q, s)
    requires f in members && fs[f].headers == [] && !fs[f].path.Regex? && Matches(os, fs[f], q)
    requires KeptIn(members, skipped, p) && fs[p].headers != [] && Matches(os, fs[p], q) && !fs[p].path.Regex?
    requires GwPrecedence(fs[f], fs[p]).Greater? && (s.copy || s == HeaderEntry(fs, p))
    requires Answers(os, fs, members, skipped, chosen, f, p, Copied(v, w))
    ensures ServedRightly(os, fs, members, skipped, q, s.rule, f)
  {
    hide IsRound, RouteKeyOf, TierOf, GwPrecedence, PathMatches, Conflict, SameMatch, HeaderHolds;
    var e := CopyEntry(fs, v, w);
    EntryOrigin(os, fs, members, skipped, chosen, e);
    CopyMatches(os, fs[f], fs[p], q);
    SameMatchMatches(os, e.rule, LiftedCopy(fs[f], fs[p]), q);
    CopyMatches(os, fs[v], fs[w], q);
    ServedOrigin(os, fs, members, skipped, chosen, q, s);
    var u := s.ranksAs;
    GwReflexive(fs[v]);
    assert AtLeast(fs[v], fs[f]);
    if SameEffect(s.rule, e.rule) {
      if v != f {
        assert RanksOver(fs, v, f);
      }
    } else {
      assert ServesFirst(fs, s, e);
      GwReverse(fs[u], fs[v]);
      GwReverse(fs[f], fs[p]);
      if s.copy {
        GwTransitive(fs[u], fs[v], fs[f]);
        if u != f {
          assert RanksOver(fs, u, f);
        }
      } else {
        GwTransitive(fs[p], fs[v], fs[f]);
      }
    }
  }

  /** A header match of the very match of `f`'s copy above `p` ranks over `f`. */
  lemma HolderRanks(os: Platform, f: Frontend, p: Frontend, h: Frontend)
    requires f.headers == [] && p.headers != [] && !f.path.Regex? && SameMatch(h, LiftedCopy(f, p))
    ensures h.headers != [] && GwPrecedence(h, f).Greater?
    ensures h.verb == LiftedCopy(f, p).verb
  {
    hide Canonical, CompiledRule;
    CanonicalEmpty(h.headers);
    CanonicalEmpty(p.headers);
    if !h.path.Regex? {
      RuleIsPath(h.path, f.path);
    }
  }

  /** A header match off regex paths cannot be settled over a regex that names a method whenever it
      does. */
  lemma RegexNotSettled(os: Platform, fs: seq<Frontend>, s: Predicated, e: Predicated)
    requires InRange(fs, s) && InRange(fs, e) && Conflict(os, fs, s, e).None? && CanMeet(os, s.rule, e.rule)
    requires e.rule.path.Regex? && (s.rule.verb.Some? ==> e.rule.verb.Some?)
    ensures SameEffect(s.rule, e.rule) || !ServesFirst(fs, s, e)
  {
    UnsettledIsUnsettled(s.rule.hostname, OfferOf(s.rule), OfferOf(e.rule));
  }

  /** `f` outranks the kept header match and another header match stands in for its copy. */
  lemma AgainstHolder(os: Platform, fs: seq<Frontend>, members: seq<nat>, skipped: set<nat>, chosen: seq<Chosen>,
                      q: Request, s: Predicated, f: nat, p: nat, h: nat)
    requires Planned(os, fs, members, skipped, chosen) && ServedEntry(os, fs, members, skipped, chosen, q, s)
    requires f in members && fs[f].headers == [] && !fs[f].path.Regex? && Matches(os, fs[f], q)
    requires KeptIn(members, skipped, p) && fs[p].headers != [] && Matches(os, fs[p], q) && !fs[p].path.Regex?
    requires GwPrecedence(fs[f], fs[p]).Greater? && (s.copy || s == HeaderEntry(fs, p))
    requires Answers(os, fs, members, skipped, chosen, f, p, Holder(h))
    ensures ServedRightly(os, fs, members, skipped, q, s.rule, f)
  {
    hide IsRound, RouteKeyOf, TierOf, GwPrecedence, PathMatches, Conflict, SameMatch, HeaderHolds, CanMeet, Outranks;
    HolderRanks(os, fs[f], fs[p], fs[h]);
    CopyMatches(os, fs[f], fs[p], q);
    SameMatchMatches(os, fs[h], LiftedCopy(fs[f], fs[p]), q);
    HeaderInTier(os, fs, members, skipped, chosen, h);
    ServedOrigin(os, fs, members, skipped, chosen, q, s);
    var e := HeaderEntry(fs, h);
    var u := s.ranksAs;
    if SameEffect(s.rule, fs[h]) {
      assert RanksOver(fs, h, f);
    } else {
      assert ServesFirst(fs, s, e);
      GwReverse(fs[u], fs[h]);
      if s.copy {
        PlainNeverTies(fs[u], fs[h]);
        GwTransitive(fs[u], fs[h], fs[f]);
        assert RanksOver(fs, u, f);
      } else if fs[h].path.Regex? {
        CanMeetIsSound(os, s.rule, e.rule, q);
        RegexNotSettled(os, fs, s, e);
      } else {
        GwTransitive(fs[h], fs[f], fs[p]);
      }
    }
  }

  lemma AgainstPlain(os: Platform, fs: seq<Frontend>, members: seq<nat>, skipped: set<nat>, chosen: seq<Chosen>,
                     q: Request, s: Predicated, f: nat, p: nat)
    requires Planned(os, fs, members, skipped, chosen) && ServedEntry(os, fs, members, skipped, chosen, q, s)
    requires f in members && fs[f].headers == [] && !fs[f].path.Regex? && Matches(os, fs[f], q)
    requires KeptIn(members, skipped, p) && fs[p].headers != [] && Matches(os, fs[p], q)
    requires s.copy || s == HeaderEntry(fs, p)
    ensures ServedRightly(os, fs, members, skipped, q, s.rule, f)
  {
    PlainNeverTies(fs[f], fs[p]);
    GwReverse(fs[f], fs[p]);
    assert InGroup(fs, members);
    hide Group, HeaderMatches, Originals, WellChosen, ServedEntry;
    if GwPrecedence(fs[p], fs[f]).Greater? {
      AgainstLowerPlain(os, fs, members, skipped, chosen, q, s, f, p);
    } else {
      hide IsRound, RouteKeyOf, TierOf, GwPrecedence, PathMatches, Conflict, Answers, ServedRightly, HeaderHolds,
          PathsMeet;
      MeetingIsNeverMissed(os, fs[f].path, fs[p].path, q.target);
      var a := OutrankingIsAnswered(os, fs, members, skipped, chosen, f, p);
      match a
      case Holder(h) => AgainstHolder(os, fs, members, skipped, chosen, q, s, f, p, h);
      case Copied(v, w) => AgainstCopied(os, fs, members, skipped, chosen, q, s, f, p, v, w);
    }
  }

  /** A kept frontend that matches the request, plain regex paths aside. */
  ghost predicate Weighed(os: Platform, fs: seq<Frontend>, members: seq<nat>, skipped: set<nat>, q: Request, f: nat) {
    KeptIn(members, skipped, f) && f < |fs| && Matches(os, fs[f], q) && (fs[f].headers != [] || !fs[f].path.Regex?)
  }

  ghost predicate OnHostname(fs: seq<Frontend>, members: seq<nat>, hostname: string) {
    forall i :: i in members ==> i < |fs| && fs[i].hostname == hostname
  }

  /** End to end. For every request some kept header match takes, and every order in which Sozu holds
      the rules, the served rule has, against each matching kept frontend (plain regex paths aside),
      the same effect or that of a matching kept frontend ranking over it. */
  lemma PrecedenceHolds(os: Platform, fs: seq<Frontend>, members: seq<nat>, skipped: set<nat>, chosen: seq<Chosen>,
                        hostname: string, held: seq<Frontend>, q: Request, p: nat, f: nat)
    requires Planned(os, fs, members, skipped, chosen) && HoldsPlan(fs, members, skipped, chosen, held)
    requires OnHostname(fs, members, hostname)
    requires KeptIn(members, skipped, p) && fs[p].headers != [] && Matches(os, fs[p], q)
    requires Weighed(os, fs, members, skipped, q, f)
    ensures Serves(os, hostname, held, q).Some?
    ensures ServedRightly(os, fs, members, skipped, q, Serves(os, hostname, held, q).value, f)
  {
    hide IsRound, RouteKeyOf, TierOf, Conflict, ServedRightly, Matches, HoldsPlan, HoldsTier, EntryFrom, Serves;
    var s := ServedEntryExists(os, fs, members, skipped, chosen, hostname, held, q, p);
    if fs[f].headers != [] {
      AgainstHeaderMatch(os, fs, members, skipped, chosen, q, s, f);
    } else if s.copy {
      AgainstPlain(os, fs, members, skipped, chosen, q, s, f, p);
    } else {
      ServedHeader(os, fs, members, skipped, chosen, q, s);
      AgainstPlain(os, fs, members, skipped, chosen, q, s, f, s.owner);
    }
  }

  lemma ServedEntryExists(os: Platform, fs: seq<Frontend>, members: seq<nat>, skipped: set<nat>, chosen: seq<Chosen>,
                          hostname: string, held: seq<Frontend>, q: Request, p: nat) returns (s: Predicated)
    requires Planned(os, fs, members, skipped, chosen) && HoldsPlan(fs, members, skipped, chosen, held)
    requires OnHostname(fs, members, hostname)
    requires KeptIn(members, skipped, p) && fs[p].headers != [] && Matches(os, fs[p], q)
    ensures ServedEntry(os, fs, members, skipped, chosen, q, s) && Serves(os, hostname, held, q) == Some(s.rule)
  {
    hide IsRound, RouteKeyOf, TierOf, Conflict, Matches, HoldsPlan, HoldsTier, EntryFrom, Serves, ServedEntry;
    HeldIsTier(os, fs, members, skipped, chosen, held);
    PlannedTier(os, fs, members, skipped, chosen, hostname);
    HeaderInTier(os, fs, members, skipped, chosen, p);
    s := TierServesItsRequests(os, hostname, TierOf(fs, chosen), held, q, HeaderEntry(fs, p));
    ServedIsEntry(os, fs, members, skipped, chosen, hostname, held, q, s);
  }

  lemma ServedHeader(os: Platform, fs: seq<Frontend>, members: seq<nat>, skipped: set<nat>, chosen: seq<Chosen>,
                     q: Request, s: Predicated)
    requires ServedEntry(os, fs, members, skipped, chosen, q, s) && !s.copy
    ensures s == HeaderEntry(fs, s.owner) && KeptIn(members, skipped, s.owner)
    ensures fs[s.owner].headers != [] && Matches(os, fs[s.owner], q)
  {
  }

  lemma ServedIsEntry(os: Platform, fs: seq<Frontend>, members: seq<nat>, skipped: set<nat>, chosen: seq<Chosen>,
                      hostname: string, held: seq<Frontend>, q: Request, s: Predicated)
    requires Planned(os, fs, members, skipped, chosen)
    requires TierShape(fs, hostname, TierOf(fs, chosen)) && ConflictFree(os, fs, TierOf(fs, chosen))
    requires HoldsTier(held, TierOf(fs, chosen))
    requires s in TierOf(fs, chosen) && Serves(os, hostname, held, q) == Some(s.rule) && Matches(os, s.rule, q)
    ensures ServedEntry(os, fs, members, skipped, chosen, q, s)
  {
    hide IsRound, RouteKeyOf, TierOf, Conflict, Matches, HoldsTier, ServesFirst, EntryFrom, Serves;
    EntryOrigin(os, fs, members, skipped, chosen, s);
    forall e | e in TierOf(fs, chosen) && InRange(fs, e) && Matches(os, e.rule, q)
      ensures (SameEffect(s.rule, e.rule) || ServesFirst(fs, s, e)) && Conflict(os, fs, s, e).None?
    {
      ConflictFreeTierServes(os, fs, hostname, TierOf(fs, chosen), held, q, s, e);
    }
  }

  // ---- every other request --------------------------------------------------------------------------------

  /** No header match's path goes on from a plain Exact path of the group with a query string: it
      holds whenever no header match's path has a `?`. */
  ghost predicate NoQueryExtension(fs: seq<Frontend>, members: seq<nat>) {
    forall u, p ::
      u in members && p in members && u < |fs| && p < |fs| && fs[u].headers == [] && fs[p].headers != [] ==>
        !ExtendsQuery(fs[u].path, fs[p].path)
  }

  lemma NoQueryInHeaderMatches(fs: seq<Frontend>, members: seq<nat>)
    requires forall p :: p in members && p < |fs| && fs[p].headers != [] ==> '?' !in fs[p].path.value
    ensures NoQueryExtension(fs, members)
  {
    forall u, p | u in members && p in members && u < |fs| && p < |fs| && fs[u].headers == [] && fs[p].headers != []
      ensures !ExtendsQuery(fs[u].path, fs[p].path)
    {
      var text := Spelled(fs[p].path);
      assert forall i :: 0 <= i < |text| ==> text[i] == fs[p].path.value[i];
    }
  }

  /** A copy takes only requests its header match takes. */
  lemma CopyWithinOwner(os: Platform, u: Frontend, p: Frontend, q: Request)
    requires Outranks(u, p) && u.headers == [] && p.headers != [] && !u.path.Regex? && !p.path.Regex?
    requires !ExtendsQuery(u.path, p.path) && LfFree(q.target) && "/" <= q.target
    requires Matches(os, LiftedCopy(u, p), q)
    ensures Matches(os, p, q)
  {
    hide PathMatches, HeaderHolds, GwPrecedence, PathsMeet;
    CopyMatches(os, u, p, q);
    OutrankingTarget(os, u, p, q.target);
  }

  /** A request no kept header match takes is served as if only the plain routes were held. */
  lemma NothingAdded(os: Platform, fs: seq<Frontend>, members: seq<nat>, skipped: set<nat>, chosen: seq<Chosen>,
                     hostname: string, held: seq<Frontend>, q: Request)
    requires Planned(os, fs, members, skipped, chosen) && HoldsPlan(fs, members, skipped, chosen, held)
    requires NoQueryExtension(fs, members) && LfFree(q.target) && "/" <= q.target
    requires forall p: nat :: KeptIn(members, skipped, p) && fs[p].headers != [] ==> !Matches(os, fs[p], q)
    ensures Serves(os, hostname, held, q) == Serves(os, hostname, Filter((f: Frontend) => f.headers == [], held), q)
  {
    hide IsRound, RouteKeyOf, TierOf, Matches, Serves, ExtendsQuery, Outranks;
    forall f | f in held && f.headers != [] ensures !Matches(os, f, q) {
      if e :| e in TierOf(fs, chosen) && e.copy && e.rule == f {
        EntryOrigin(os, fs, members, skipped, chosen, e);
        if Matches(os, f, q) {
          CopyWithinOwner(os, fs[e.ranksAs], fs[e.owner], q);
        }
      }
    }
    PlainClassAlone(os, hostname, held, q);
  }

  // ---- bounds and keys ---------------------------------------------------------------------------------------

  /** Every kept frontend and every copy has a Sozu route key of its own. */
  lemma KeysDistinct(os: Platform, fs: seq<Frontend>, members: seq<nat>, skipped: set<nat>, chosen: seq<Chosen>,
                     a: Predicated)
    requires Planned(os, fs, members, skipped, chosen) && a in TierOf(fs, chosen) && a.copy
    ensures forall i: nat :: KeptIn(members, skipped, i) ==> RouteKeyOf(os, fs[i]) != RouteKeyOf(os, a.rule)
    ensures forall b :: b in TierOf(fs, chosen) && b.copy && b != a ==> RouteKeyOf(os, b.rule) != RouteKeyOf(os, a.rule)
  {
    hide IsRound, RouteKeyOf, TierOf, Planned, HeldBy, CopyKeys;
    assert InGroup(fs, members) by { PlannedGroup(os, fs, members, skipped, chosen); }
    var k := CopyFiled(os, fs, members, skipped, chosen, a);
    HeldInGroup(os, fs, members);
    forall i: nat | KeptIn(members, skipped, i) ensures RouteKeyOf(os, fs[i]) != RouteKeyOf(os, a.rule) {
      KeptElsewhere(os, fs, members, skipped, chosen, a, i);
    }
    forall b | b in TierOf(fs, chosen) && b.copy && b != a ensures RouteKeyOf(os, b.rule) != RouteKeyOf(os, a.rule) {
      CopiesFiledApart(os, fs, members, skipped, chosen, a, b);
    }
  }

  lemma PlannedGroup(os: Platform, fs: seq<Frontend>, members: seq<nat>, skipped: set<nat>, chosen: seq<Chosen>)
    requires Planned(os, fs, members, skipped, chosen)
    ensures InGroup(fs, members) && WellChosen(fs, chosen)
  {
    hide IsRound, RouteKeyOf, Keyable;
  }

  /** Where a copy's key is filed: among those of the header match that brought it. */
  lemma CopyFiled(os: Platform, fs: seq<Frontend>, members: seq<nat>, skipped: set<nat>, chosen: seq<Chosen>,
                  a: Predicated)
      returns (k: nat)
    requires Planned(os, fs, members, skipped, chosen) && a in TierOf(fs, chosen) && a.copy
    ensures WellChosen(fs, chosen) && k < |chosen| && chosen[k].owner == a.owner && a.ranksAs in chosen[k].routes
    ensures a == CopyEntry(fs, a.ranksAs, a.owner) && RouteKeyOf(os, a.rule) in CopyKeys(os, fs, chosen[k])
  {
    hide IsRound, RouteKeyOf, TierOf, LiftedCopy;
    PlannedGroup(os, fs, members, skipped, chosen);
    k := TierEntry(fs, chosen, a);
    var j :| 0 <= j < |chosen[k].routes| && chosen[k].routes[j] == a.ranksAs;
  }

  lemma KeptElsewhere(os: Platform, fs: seq<Frontend>, members: seq<nat>, skipped: set<nat>, chosen: seq<Chosen>,
                      a: Predicated, i: nat)
    requires Planned(os, fs, members, skipped, chosen) && a in TierOf(fs, chosen) && a.copy
        && KeptIn(members, skipped, i)
    ensures i < |fs| && RouteKeyOf(os, fs[i]) != RouteKeyOf(os, a.rule)
  {
    hide IsRound, RouteKeyOf, TierOf, Outranks, AllCovered, LiftedCopy, Originals, HeaderMatches, Candidates, Brings,
      KeysApart, CopyKeys;
    var brought := RoundFacts(os, fs, members, skipped, chosen);
    var held := HeldBy(os, fs, members);
    HeldInGroup(os, fs, members);
    var k := CopyFiled(os, fs, members, skipped, chosen, a);
    var j :| 0 <= j < |chosen[k].routes| && chosen[k].routes[j] == a.ranksAs;
    assert EntryFacts(os, fs, PlainRoutes(fs, members), held, skipped, chosen, k);
    hide HeldBy;
    var n :| 0 <= n < |members| && members[n] == i;
    assert RouteKeyOf(os, fs[members[n]]) in held;
  }

  lemma CopiesFiledApart(os: Platform, fs: seq<Frontend>, members: seq<nat>, skipped: set<nat>, chosen: seq<Chosen>,
                         a: Predicated, b: Predicated)
    requires Planned(os, fs, members, skipped, chosen) && a in TierOf(fs, chosen) && a.copy
    requires b in TierOf(fs, chosen) && b.copy && b != a
    ensures RouteKeyOf(os, b.rule) != RouteKeyOf(os, a.rule)
  {
    hide IsRound, RouteKeyOf, TierOf, Outranks, AllCovered, LiftedCopy, Originals, HeaderMatches, Candidates, Brings,
        HeldBy,
      CopyKeys, Planned;
    var brought := RoundFacts(os, fs, members, skipped, chosen);
    var k := CopyFiled(os, fs, members, skipped, chosen, a);
    var m := CopyFiled(os, fs, members, skipped, chosen, b);
    PlannedGroup(os, fs, members, skipped, chosen);
    if k == m {
      assert EntryFacts(os, fs, PlainRoutes(fs, members), HeldBy(os, fs, members), skipped, chosen, k);
      var i :| 0 <= i < |chosen[k].routes| && chosen[k].routes[i] == a.ranksAs;
      var j :| 0 <= j < |chosen[k].routes| && chosen[k].routes[j] == b.ranksAs;
      assert CopyKey(os, fs, chosen[k].routes[i], a.owner) == RouteKeyOf(os, a.rule);
      assert CopyKey(os, fs, chosen[k].routes[j], b.owner) == RouteKeyOf(os, b.rule);
    }
  }

  /** A planned hostname holds at most 64 header matches and 64 copies. */
  lemma PlanIsBounded(os: Platform, fs: seq<Frontend>, members: seq<nat>, skipped: set<nat>, chosen: seq<Chosen>)
    requires Planned(os, fs, members, skipped, chosen)
    ensures |chosen| <= MAX_HEADER_MATCHES_PER_HOSTNAME && CopyCount(chosen) <= MAX_LIFTED_PER_HOSTNAME
    ensures |TierOf(fs, chosen)| == |chosen| + CopyCount(chosen)
  {
    hide IsRound, RouteKeyOf, TierOf, HeldBy, PlainRoutes, EntryFacts, Brings, KeysApart;
    var brought := RoundFacts(os, fs, members, skipped, chosen);
    OriginalsInGroup(fs, members);
    FilterShrinks((p: nat) => p !in skipped, Originals(fs, members));
    assert |Owners(chosen)| == |chosen|;
    TierLength(fs, chosen);
  }

  lemma {:induction false} FilterShrinks<T>(p: T -> bool, s: seq<T>)
    ensures |Filter(p, s)| <= |s|
  {
    if s != [] {
      FilterShrinks(p, s[1..]);
    }
  }

  lemma {:induction false} TierLength(fs: seq<Frontend>, chosen: seq<Chosen>)
    requires WellChosen(fs, chosen)
    ensures |TierOf(fs, chosen)| == |chosen| + CopyCount(chosen)
  {
    if chosen != [] {
      TierLength(fs, chosen[..|chosen| - 1]);
    }
  }

  /** A copy's key is taken by another match only where a regex path spells it. */
  lemma OnlyRegexTakesKeys(os: Platform, fs: seq<Frontend>, members: seq<nat>, u: nat, p: nat, h: nat)
    requires Group(os, fs, members) && u in members && p in members && h in members
    requires fs[u].headers == [] && !fs[u].path.Regex?
    requires RouteKeyOf(os, fs[h]) == CopyKey(os, fs, u, p) && !SameMatch(fs[h], LiftedCopy(fs[u], fs[p]))
    ensures fs[h].path.Regex?
  {
    hide RouteKeyOf, CompiledRule, Canonical;
    assert GroupOf(fs[u]) == GroupOf(fs[h]);
    if !fs[h].path.Regex? {
      KeyIsMatch(os, fs[h], LiftedCopy(fs[u], fs[p]));
    }
  }
}
