/** The plan of one (listener, hostname): which plain routes are copied above which header matches,
    and which header matches are skipped. This is the specification the planning loops meet. */
module Planner {
  import opened Base
  import opened Paths
  import opened Frontends
  import opened RouteKeys
  import opened Tier
  import opened Admissions

  const MAX_LIFTED_PER_HOSTNAME := 64
  const MAX_HEADER_MATCHES_PER_HOSTNAME := 64

  /** Why a header match is skipped; frontends are named by index, as the reports name them. */
  datatype Problem =
    | HeaderMatchLimit
    | CopyKeyTaken(route: nat, holder: nat)
    | PrecedenceLimit
    | OutranksRoute(route: nat, copyOf: Option<nat>, why: Reason)
    | Overlap(other: nat, copyOf: Option<nat>, why: Reason)

  datatype Skip = Skip(index: nat, problem: Problem)

  datatype Outcome<T> = Done(value: T) | Skipped(skip: Skip)

  /** A header match of a round and the plain routes it brings copies of. */
  datatype Chosen = Chosen(owner: nat, routes: seq<nat>)

  predicate InGroup(fs: seq<Frontend>, members: seq<nat>) {
    forall i :: 0 <= i < |members| ==> members[i] < |fs|
  }

  function PlainRoutes(fs: seq<Frontend>, members: seq<nat>): seq<nat>
    requires InGroup(fs, members)
  {
    Filter((u: nat) => u < |fs| && fs[u].headers == [] && !fs[u].path.Regex?, members)
  }

  function HeaderMatches(fs: seq<Frontend>, members: seq<nat>): seq<nat>
    requires InGroup(fs, members)
  {
    Filter((p: nat) => p < |fs| && fs[p].headers != [], members)
  }

  /** The first 64 of the group's header matches. */
  function Originals(fs: seq<Frontend>, members: seq<nat>): seq<nat>
    requires InGroup(fs, members)
  {
    var all := HeaderMatches(fs, members);
    if |all| <= MAX_HEADER_MATCHES_PER_HOSTNAME then all else all[..MAX_HEADER_MATCHES_PER_HOSTNAME]
  }

  /** What has to be answered for above `p`: nothing if its path is a regex. */
  function Candidates(fs: seq<Frontend>, plain: seq<nat>, p: nat): (r: seq<nat>)
    requires p < |fs|
    ensures InGroup(fs, r)
  {
    if fs[p].path.Regex? then [] else Filter((u: nat) => u < |fs| && Outranks(fs[u], fs[p]), plain)
  }

  /** Who holds each key the members spell. */
  function HeldBy(os: Platform, fs: seq<Frontend>, members: seq<nat>): map<RouteKey, nat>
    requires InGroup(fs, members)
  {
    if members == [] then map[]
    else
      var last := members[|members| - 1];
      HeldBy(os, fs, members[..|members| - 1])[RouteKeyOf(os, fs[last]) := last]
  }

  function CopyKey(os: Platform, fs: seq<Frontend>, u: nat, p: nat): RouteKey
    requires u < |fs| && p < |fs|
  {
    RouteKeyOf(os, LiftedCopy(fs[u], fs[p]))
  }

  /** The first position in `added` of a copy of `p` with key `key`. */
  function FindKey(os: Platform, fs: seq<Frontend>, p: nat, added: seq<nat>, key: RouteKey): (at: Option<nat>)
    requires p < |fs| && InGroup(fs, added)
    ensures at.Some? ==> at.value < |added| && CopyKey(os, fs, added[at.value], p) == key
    ensures forall i :: 0 <= i < (if at.Some? then at.value else |added|) ==> CopyKey(os, fs, added[i], p) != key
  {
    if added == [] then None
    else if CopyKey(os, fs, added[0], p) == key then Some(0)
    else
      match FindKey(os, fs, p, added[1..], key)
      case None => None
      case Some(i) => Some(i + 1)
  }

  /** The copies header match `p` adds: `added` grows over the candidates left. A copy whose match a
      kept frontend has, or whose key an earlier header match brought, is not added; of two with one
      key the higher route stays. */
  function Choose(os: Platform, fs: seq<Frontend>, held: map<RouteKey, nat>, skipped: set<nat>, p: nat,
                  left: seq<nat>, brought: set<RouteKey>, added: seq<nat>): Outcome<seq<nat>>
    requires p < |fs| && InGroup(fs, left) && InGroup(fs, added)
    requires forall k :: k in held ==> held[k] < |fs|
  {
    if left == [] then Done(added)
    else
      var u, rest := left[0], left[1..];
      var key := CopyKey(os, fs, u, p);
      if key in held && held[key] !in skipped then
        if SameMatch(fs[held[key]], LiftedCopy(fs[u], fs[p])) then
          Choose(os, fs, held, skipped, p, rest, brought, added)
        else Skipped(Skip(p, CopyKeyTaken(u, held[key])))
      else if key in brought then Choose(os, fs, held, skipped, p, rest, brought, added)
      else
        var at := FindKey(os, fs, p, added, key);
        if at.Some? then
          var kept := if GwPrecedence(fs[u], fs[added[at.value]]).Greater? then added[at.value := u] else added;
          Choose(os, fs, held, skipped, p, rest, brought, kept)
        else if |brought| + |added| + 1 > MAX_LIFTED_PER_HOSTNAME then Skipped(Skip(p, PrecedenceLimit))
        else Choose(os, fs, held, skipped, p, rest, brought, added + [u])
  }

  function CopyKeys(os: Platform, fs: seq<Frontend>, c: Chosen): (keys: set<RouteKey>)
    requires c.owner < |fs| && InGroup(fs, c.routes)
  {
    set i | 0 <= i < |c.routes| :: CopyKey(os, fs, c.routes[i], c.owner)
  }

  ghost predicate WellChosen(fs: seq<Frontend>, chosen: seq<Chosen>) {
    forall i :: 0 <= i < |chosen| ==> chosen[i].owner < |fs| && InGroup(fs, chosen[i].routes)
  }

  ghost predicate HeldInRange(fs: seq<Frontend>, held: map<RouteKey, nat>) {
    forall k :: k in held ==> held[k] < |fs|
  }

  /** One round's choice for every header match not skipped, in frontend order. */
  function ChooseAll(os: Platform, fs: seq<Frontend>, plain: seq<nat>, held: map<RouteKey, nat>, skipped: set<nat>,
                     slots: seq<nat>, brought: set<RouteKey>, chosen: seq<Chosen>): (r: Outcome<seq<Chosen>>)
    requires InGroup(fs, plain) && InGroup(fs, slots) && WellChosen(fs, chosen)
    requires forall k :: k in held ==> held[k] < |fs|
    ensures r.Done? ==> WellChosen(fs, r.value)
  {
    if slots == [] then Done(chosen)
    else if slots[0] in skipped then ChooseAll(os, fs, plain, held, skipped, slots[1..], brought, chosen)
    else
      var p := slots[0];
      ChooseInRange(os, fs, held, skipped, p, Candidates(fs, plain, p), brought, []);
      match Choose(os, fs, held, skipped, p, Candidates(fs, plain, p), brought, [])
      case Skipped(skip) => Skipped(skip)
      case Done(routes) =>
        var c := Chosen(p, routes);
        ChooseAll(os, fs, plain, held, skipped, slots[1..], brought + CopyKeys(os, fs, c), chosen + [c])
  }

  lemma {:induction false} ChooseInRange(
      os: Platform, fs: seq<Frontend>, held: map<RouteKey, nat>, skipped: set<nat>, p: nat,
      left: seq<nat>, brought: set<RouteKey>, added: seq<nat>)
    requires p < |fs| && InGroup(fs, left) && InGroup(fs, added) && HeldInRange(fs, held)
    ensures var r := Choose(os, fs, held, skipped, p, left, brought, added);
            if r.Done? then InGroup(fs, r.value) else r.skip.index == p
  {
    if left != [] {
      hide CopyKey, SameMatch, LiftedCopy, GwPrecedence, FindKey;
      var u, rest := left[0], left[1..];
      var key := CopyKey(os, fs, u, p);
      if key in held && held[key] !in skipped {
        ChooseInRange(os, fs, held, skipped, p, rest, brought, added);
      } else if key in brought {
        ChooseInRange(os, fs, held, skipped, p, rest, brought, added);
      } else {
        var at := FindKey(os, fs, p, added, key);
        if at.Some? {
          var kept := if GwPrecedence(fs[u], fs[added[at.value]]).Greater? then added[at.value := u] else added;
          ChooseInRange(os, fs, held, skipped, p, rest, brought, kept);
        } else {
          ChooseInRange(os, fs, held, skipped, p, rest, brought, added + [u]);
        }
      }
    }
  }

  function EntriesOf(fs: seq<Frontend>, c: Chosen): seq<Predicated>
    requires c.owner < |fs| && InGroup(fs, c.routes)
  {
    [Predicated(fs[c.owner], c.owner, c.owner, false)]
    + seq(|c.routes|, i requires 0 <= i < |c.routes| =>
          Predicated(LiftedCopy(fs[c.routes[i]], fs[c.owner]), c.routes[i], c.owner, true))
  }

  function TierOf(fs: seq<Frontend>, chosen: seq<Chosen>): seq<Predicated>
    requires WellChosen(fs, chosen)
  {
    if chosen == [] then []
    else TierOf(fs, chosen[..|chosen| - 1]) + EntriesOf(fs, chosen[|chosen| - 1])
  }

  /** A conflict costs the lower entry's header match its place. */
  function OverlapSkip(high: Predicated, low: Predicated, why: Reason): Skip {
    var copyOf := if low.copy then Some(low.ranksAs) else None;
    Skip(low.owner,
         if high.copy then OutranksRoute(high.ranksAs, copyOf, why) else Overlap(high.ranksAs, copyOf, why))
  }

  ghost predicate IsRound(os: Platform, fs: seq<Frontend>, members: seq<nat>, skipped: set<nat>,
                          r: Outcome<seq<Chosen>>)
    requires InGroup(fs, members)
  {
    var held := HeldBy(os, fs, members);
    HeldInGroup(os, fs, members);
    OriginalsInGroup(fs, members);
    match ChooseAll(os, fs, PlainRoutes(fs, members), held, skipped, Originals(fs, members), {}, [])
    case Skipped(skip) => r == Skipped(skip)
    case Done(chosen) =>
      var tier := TierOf(fs, chosen);
      && Admissible(fs, tier)
      && exists found :: FirstPair(os, fs, tier, found) && r == Verdict(tier, chosen, found)
  }

  /** The outcome the admission gives a round. */
  function Verdict(tier: seq<Predicated>, chosen: seq<Chosen>, found: Option<Pair>): Outcome<seq<Chosen>> {
    if found.Some? && found.value.0 < |tier| && found.value.1 < |tier| then
      Skipped(OverlapSkip(tier[found.value.0], tier[found.value.1], found.value.2))
    else Done(chosen)
  }

  lemma {:induction false} HeldInGroup(os: Platform, fs: seq<Frontend>, members: seq<nat>)
    requires InGroup(fs, members)
    ensures HeldInRange(fs, HeldBy(os, fs, members))
    ensures forall k :: k in HeldBy(os, fs, members) ==>
                          HeldBy(os, fs, members)[k] in members && RouteKeyOf(os, fs[HeldBy(os, fs, members)[k]]) == k
    ensures forall i :: 0 <= i < |members| ==> RouteKeyOf(os, fs[members[i]]) in HeldBy(os, fs, members)
  {
    hide RouteKeyOf;
    if members != [] {
      HeldInGroup(os, fs, members[..|members| - 1]);
      var last := members[|members| - 1];
      assert members == members[..|members| - 1] + [last];
    }
  }

  lemma OriginalsInGroup(fs: seq<Frontend>, members: seq<nat>)
    requires InGroup(fs, members)
    ensures InGroup(fs, PlainRoutes(fs, members)) && InGroup(fs, Originals(fs, members))
    ensures |Originals(fs, members)| <= MAX_HEADER_MATCHES_PER_HOSTNAME
    ensures forall p :: p in Originals(fs, members) ==> p in members && fs[p].headers != []
    ensures forall i :: 0 <= i < |PlainRoutes(fs, members)| ==> !fs[PlainRoutes(fs, members)[i]].path.Regex?
  {
    assert forall p :: p in Originals(fs, members) ==> p in HeaderMatches(fs, members);
  }
}
