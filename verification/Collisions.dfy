/** Who keeps a contested Sozu route key: the oldest claimant, then its own emission order. */
module Collisions {
  import opened Base
  import opened Paths
  import opened Frontends
  import opened RouteKeys
  import opened Planning
  import opened Lifting

  /** A source object: its kind, namespace and name. */
  datatype Owner = Owner(kind: nat, namespace: string, name: string)

  /** Where a frontend comes from: its object and the parent reference it was emitted for. */
  datatype Source = Source(owner: Owner, parent: string)

  /** Oldest creation timestamp first, an absent one last, then the `namespace/name` spelling. */
  datatype Claim = Claim(absent: bool, created: string, name: string)

  datatype Sourced = Sourced(frontend: Frontend, source: Source)

  datatype Collision = Collision(hostname: string, path: string, winner: Option<string>, keyOnly: bool)

  function CompareClaim(a: Claim, b: Claim): Ordering {
    CompareBool(a.absent, b.absent)
    .Then(CompareString(a.created, b.created))
    .Then(CompareString(a.name, b.name))
  }

  predicate ClaimLe(a: Claim, b: Claim) {
    !CompareClaim(a, b).Greater?
  }

  lemma CompareClaimLaws(a: Claim, b: Claim)
    ensures CompareClaim(a, b).Equal? <==> a == b
    ensures CompareClaim(b, a) == CompareClaim(a, b).Reverse()
  {
    CompareStringEqual(a.created, b.created);
    CompareStringEqual(a.name, b.name);
    CompareStringReverse(a.created, b.created);
    CompareStringReverse(a.name, b.name);
  }

  lemma ClaimLeIsTotal()
    ensures TotalOrder(ClaimLe)
  {
    forall a, b ensures (ClaimLe(a, b) || ClaimLe(b, a)) && (ClaimLe(a, b) && ClaimLe(b, a) ==> a == b) {
      CompareClaimLaws(a, b);
    }
    forall a, b, c | ClaimLe(a, b) && ClaimLe(b, c) ensures ClaimLe(a, c) {
      ClaimLeTransitive(a, b, c);
    }
  }

  lemma ClaimLeTransitive(a: Claim, b: Claim, c: Claim)
    requires ClaimLe(a, b) && ClaimLe(b, c)
    ensures ClaimLe(a, c)
  {
    CompareStringEqual(a.created, b.created);
    CompareStringEqual(b.created, c.created);
    CompareStringEqual(a.created, c.created);
    if a.absent == b.absent == c.absent {
      CompareStringTransitive(a.created, b.created, c.created);
      if a.created == b.created == c.created {
        CompareStringTransitive(a.name, b.name, c.name);
      }
    }
  }

  /** Claim `b` is not the older: a time beats none, then the time decides, then the spelling of the name. */
  ghost predicate NotOutdone(a: Claim, b: Claim) {
    && (!b.absent ==> !a.absent)
    && (a.absent == b.absent ==> !Earlier(b.created, a.created))
    && (a.absent == b.absent && a.created == b.created ==> !Earlier(b.name, a.name))
  }

  /** The order of claims is age, then name. */
  lemma ClaimOrder(a: Claim, b: Claim)
    ensures ClaimLe(a, b) <==> NotOutdone(a, b)
  {
    CompareStringIsOrder(b.created, a.created);
    CompareStringIsOrder(b.name, a.name);
    CompareStringReverse(a.created, b.created);
    CompareStringReverse(a.name, b.name);
    CompareStringEqual(a.created, b.created);
  }

  type Claims = map<Owner, Claim>

  /** The claim recorded for an owner, or a last-place one when none is. */
  function ClaimFor(claims: Claims, owner: Owner): Claim {
    if owner in claims then claims[owner] else Claim(true, "", owner.namespace + "/" + owner.name)
  }

  function ClaimOf(claims: Claims, sf: Sourced): Claim {
    ClaimFor(claims, sf.source.owner)
  }

  function KeyFor(os: Platform, sf: Sourced): RouteKey {
    RouteKeyOf(os, sf.frontend)
  }

  /** Claim first, emission order second. */
  predicate RankLe(a: (Claim, int), b: (Claim, int)) {
    CompareClaim(a.0, b.0).Less? || (a.0 == b.0 && a.1 <= b.1)
  }

  lemma RankLeIsTotal()
    ensures TotalOrder(RankLe)
  {
    ClaimLeIsTotal();
    forall a: Claim, b: Claim ensures (CompareClaim(a, b).Equal? <==> a == b)
        && CompareClaim(b, a) == CompareClaim(a, b).Reverse() {
      CompareClaimLaws(a, b);
    }
    forall a, b, c | RankLe(a, b) && RankLe(b, c) ensures RankLe(a, c) {
      assert ClaimLe(a.0, b.0) && ClaimLe(b.0, c.0);
    }
  }

  function Ranked(claims: Claims, inputs: seq<Sourced>, from: int): seq<((Claim, int), Sourced)> {
    seq(|inputs|, i requires 0 <= i < |inputs| => ((ClaimOf(claims, inputs[i]), from + i), inputs[i]))
  }

  function Rank(p: ((Claim, int), Sourced)): (Claim, int) { p.0 }

  function Unranked(s: seq<((Claim, int), Sourced)>): seq<Sourced> {
    seq(|s|, i requires 0 <= i < |s| => s[i].1)
  }

  function ByClaim(claims: Claims): Sourced -> Claim {
    sf => ClaimOf(claims, sf)
  }

  /** The order candidates are resolved in: a stable sort by claim. */
  function Sorted(claims: Claims, inputs: seq<Sourced>): seq<Sourced> {
    SortBy(ByClaim(claims), ClaimLe, inputs)
  }

  /** An earlier number only matters between equal claims. */
  lemma EarlierFirst(later: (Claim, int), earlier: (Claim, int))
    requires earlier.1 < later.1
    ensures RankLe(earlier, later) <==> ClaimLe(earlier.0, later.0)
  {
    hide CompareClaim;
    CompareClaimLaws(earlier.0, later.0);
  }

  lemma {:induction false} InsertRanked(claims: Claims, x: Sourced, at: int, s: seq<((Claim, int), Sourced)>)
    requires forall i :: 0 <= i < |s| ==> s[i].0.0 == ClaimOf(claims, s[i].1) && at < s[i].0.1
    ensures Unranked(InsertBy(Rank, RankLe, ((ClaimOf(claims, x), at), x), s)) ==
            InsertBy(ByClaim(claims), ClaimLe, x, Unranked(s))
  {
    var ranked := ((ClaimOf(claims, x), at), x);
    if s == [] {
      assert Unranked([ranked]) == [x];
    } else {
      hide ClaimOf, RankLe, ClaimLe;
      EarlierFirst(s[0].0, ranked.0);
      assert Unranked(s)[0] == s[0].1 && Unranked(s)[1..] == Unranked(s[1..]);
      if RankLe(Rank(ranked), Rank(s[0])) {
        UnrankedCons(ranked, s);
      } else {
        InsertRanked(claims, x, at, s[1..]);
        UnrankedCons(s[0], InsertBy(Rank, RankLe, ranked, s[1..]));
      }
    }
  }

  lemma UnrankedCons(a: ((Claim, int), Sourced), s: seq<((Claim, int), Sourced)>)
    ensures Unranked([a] + s) == [a.1] + Unranked(s)
  {
  }

  lemma RankedTail(claims: Claims, inputs: seq<Sourced>, from: int)
    requires inputs != []
    ensures Ranked(claims, inputs, from) != []
        && Ranked(claims, inputs, from)[1..] == Ranked(claims, inputs[1..], from + 1)
    ensures Ranked(claims, inputs, from)[0] == ((ClaimOf(claims, inputs[0]), from), inputs[0])
  {
    hide ClaimOf;
  }

  /** The sorted tail still carries true claims, and numbers past the head's. */
  lemma SortedTail(claims: Claims, inputs: seq<Sourced>, from: int)
    ensures var rest := SortBy(Rank, RankLe, Ranked(claims, inputs, from));
            forall i :: 0 <= i < |rest| ==> rest[i].0.0 == ClaimOf(claims, rest[i].1) && from <= rest[i].0.1
  {
    hide ClaimOf, RankLe;
    var ranked := Ranked(claims, inputs, from);
    var rest := SortBy(Rank, RankLe, ranked);
    SortContents(Rank, RankLe, ranked);
    hide SortBy;
    forall i | 0 <= i < |rest| ensures rest[i].0.0 == ClaimOf(claims, rest[i].1) && from <= rest[i].0.1 {
      assert rest[i] in multiset(rest);
      assert rest[i] in ranked;
    }
  }

  lemma SortStep<T, K>(key: T -> K, le: (K, K) -> bool, s: seq<T>)
    requires s != []
    ensures SortBy(key, le, s) == InsertBy(key, le, s[0], SortBy(key, le, s[1..]))
  {
  }

  /** Sorting by claim and emission order is the stable sort by claim. */
  lemma {:induction false} RankedSort(claims: Claims, inputs: seq<Sourced>, from: int)
    ensures Unranked(SortBy(Rank, RankLe, Ranked(claims, inputs, from))) == Sorted(claims, inputs)
  {
    hide ClaimOf, RankLe, ClaimLe, SortBy, InsertBy, Ranked, Unranked;
    if inputs == [] {
      NothingRanked(claims, from);
    } else {
      RankedSort(claims, inputs[1..], from + 1);
      RankedStep(claims, inputs, from);
    }
  }

  lemma NothingRanked(claims: Claims, from: int)
    ensures Unranked(SortBy(Rank, RankLe, Ranked(claims, [], from))) == Sorted(claims, [])
  {
    assert Ranked(claims, [], from) == [];
  }

  lemma RankedStep(claims: Claims, inputs: seq<Sourced>, from: int)
    requires inputs != []
    requires Unranked(SortBy(Rank, RankLe, Ranked(claims, inputs[1..], from + 1))) == Sorted(claims, inputs[1..])
    ensures Unranked(SortBy(Rank, RankLe, Ranked(claims, inputs, from))) == Sorted(claims, inputs)
  {
    hide ClaimOf, RankLe, ClaimLe, SortBy, InsertBy, Ranked, Unranked, ByClaim;
    RankedTail(claims, inputs, from);
    SortedTail(claims, inputs[1..], from + 1);
    SortStep(Rank, RankLe, Ranked(claims, inputs, from));
    SortStep(ByClaim(claims), ClaimLe, inputs);
    InsertRanked(claims, inputs[0], from, SortBy(Rank, RankLe, Ranked(claims, inputs[1..], from + 1)));
  }

  // ---- resolution ---------------------------------------------------------------------------------------

  predicate HasKey(os: Platform, s: seq<Sourced>, key: RouteKey) {
    exists i :: 0 <= i < |s| && KeyFor(os, s[i]) == key
  }

  /** The first of `s` for each key. */
  function KeptOf(os: Platform, s: seq<Sourced>): seq<Sourced> {
    if s == [] then []
    else
      var before := s[..|s| - 1];
      KeptOf(os, before) + if HasKey(os, before, KeyFor(os, s[|s| - 1])) then [] else [s[|s| - 1]]
  }

  /** The kept frontend with `sf`'s key. */
  function WinnerOf(os: Platform, kept: seq<Sourced>, key: RouteKey): Option<Sourced> {
    if kept == [] then None
    else if KeyFor(os, kept[0]) == key then Some(kept[0])
    else WinnerOf(os, kept[1..], key)
  }

  datatype Fate = Quiet | Folded | Collided

  function FateOf(winner: Sourced, sf: Sourced): Fate {
    var sameEffect := SameEffect(winner.frontend, sf.frontend);
    if SameMatch(winner.frontend, sf.frontend) && (winner.source.owner == sf.source.owner || sameEffect) then
      if sameEffect && sf.source != winner.source then Folded else Quiet
    else Collided
  }

  function ReportOf(winner: Sourced, sf: Sourced): (Source, Collision) {
    (sf.source, Collision(sf.frontend.hostname, sf.frontend.path.value, winner.frontend.cluster,
                          !SameMatch(winner.frontend, sf.frontend)))
  }

  function FoldedOf(os: Platform, kept: seq<Sourced>, s: seq<Sourced>): seq<Sourced> {
    if s == [] then []
    else
      var sf := s[|s| - 1];
      var winner := WinnerOf(os, kept, KeyFor(os, sf));
      FoldedOf(os, kept, s[..|s| - 1]) + if winner.Some? && FateOf(winner.value, sf).Folded? then [sf] else []
  }

  function CollidedOf(os: Platform, kept: seq<Sourced>, s: seq<Sourced>): seq<(Source, Collision)> {
    if s == [] then []
    else
      var sf := s[|s| - 1];
      var winner := WinnerOf(os, kept, KeyFor(os, sf));
      CollidedOf(os, kept, s[..|s| - 1])
      + if winner.Some? && FateOf(winner.value, sf).Collided? then [ReportOf(winner.value, sf)] else []
  }

  /** What resolution leaves: one frontend per key, the duplicates folded into one, the reports. */
  datatype Resolution = Resolution(kept: seq<Sourced>, folded: seq<Sourced>, collisions: seq<(Source, Collision)>)

  function Resolve(os: Platform, claims: Claims, inputs: seq<Sourced>): Resolution {
    var s := Sorted(claims, inputs);
    var kept := KeptOf(os, s);
    Resolution(kept, FoldedOf(os, kept, s), CollidedOf(os, kept, s))
  }

  lemma {:induction false} KeptKeys(os: Platform, s: seq<Sourced>)
    ensures forall key :: HasKey(os, KeptOf(os, s), key) <==> HasKey(os, s, key)
    ensures forall i, j :: 0 <= i < j < |KeptOf(os, s)| ==> KeyFor(os, KeptOf(os, s)[i]) != KeyFor(os, KeptOf(os, s)[j])
  {
    hide KeyFor;
    if s != [] {
      var n := |s| - 1;
      KeptKeys(os, s[..n]);
      var before, key := KeptOf(os, s[..n]), KeyFor(os, s[n]);
      var kept := KeptOf(os, s);
      assert forall i :: 0 <= i < |before| ==> kept[i] == before[i];
      if !HasKey(os, s[..n], key) {
        assert kept[|before|] == s[n];
        assert !HasKey(os, before, key);
      }
      forall k | HasKey(os, s, k) ensures HasKey(os, kept, k) {
        if k == key && !HasKey(os, s[..n], key) {
          assert KeyFor(os, kept[|before|]) == k;
        } else {
          var i :| 0 <= i < |s| && KeyFor(os, s[i]) == k;
          assert i < n ==> s[..n][i] == s[i];
          assert HasKey(os, before, k);
          var j :| 0 <= j < |before| && KeyFor(os, before[j]) == k;
          assert kept[j] == before[j];
        }
      }
      forall k | HasKey(os, kept, k) ensures HasKey(os, s, k) {
        var i :| 0 <= i < |kept| && KeyFor(os, kept[i]) == k;
        if i < |before| {
          assert KeyFor(os, before[i]) == k;
          assert HasKey(os, before, k) && HasKey(os, s[..n], k);
          var j :| 0 <= j < n && KeyFor(os, s[..n][j]) == k;
          assert s[j] == s[..n][j];
        }
      }
    }
  }

  lemma {:induction false} WinnerHolds(os: Platform, kept: seq<Sourced>, key: RouteKey)
    ensures WinnerOf(os, kept, key).Some? <==> HasKey(os, kept, key)
    ensures WinnerOf(os, kept, key).Some? ==>
        WinnerOf(os, kept, key).value in kept && KeyFor(os, WinnerOf(os, kept, key).value) == key
  {
    hide KeyFor;
    if kept != [] {
      WinnerHolds(os, kept[1..], key);
      if HasKey(os, kept, key) {
        var i :| 0 <= i < |kept| && KeyFor(os, kept[i]) == key;
        assert i > 0 ==> kept[1..][i - 1] == kept[i];
      }
      if HasKey(os, kept[1..], key) {
        var i :| 0 <= i < |kept| - 1 && KeyFor(os, kept[1..][i]) == key;
        assert kept[i + 1] == kept[1..][i];
      }
    }
  }

  /** `winners` files every kept frontend under its key. */
  ghost predicate Files(os: Platform, s: seq<Sourced>, kept: seq<Sourced>, winners: map<RouteKey, nat>) {
    && (forall key :: key in winners <==> HasKey(os, s, key))
    && (forall key :: key in winners ==> winners[key] < |kept| && KeyFor(os, kept[winners[key]]) == key)
  }

  method KeepFirst(os: Platform, s: seq<Sourced>) returns (kept: seq<Sourced>, winners: map<RouteKey, nat>)
    ensures kept == KeptOf(os, s) && Files(os, s, kept, winners)
  {
    hide KeyFor, HasKey;
    kept, winners := [], map[];
    assert forall key :: !HasKey(os, s[..0], key) by { NoKeys(os, s); }
    for n := 0 to |s|
      invariant kept == KeptOf(os, s[..n]) && Files(os, s[..n], kept, winners)
    {
      assert s[..n + 1][..n] == s[..n];
      var key := KeyFor(os, s[n]);
      HasKeySnoc(os, s, n);
      if key !in winners {
        winners := winners[key := |kept|];
        kept := kept + [s[n]];
      }
    }
    assert s[..|s|] == s;
  }

  lemma NoKeys(os: Platform, s: seq<Sourced>)
    ensures forall key :: !HasKey(os, s[..0], key)
  {
  }

  method SettleAll(os: Platform, s: seq<Sourced>, kept: seq<Sourced>, winners: map<RouteKey, nat>)
      returns (folded: seq<Sourced>, collisions: seq<(Source, Collision)>)
    requires kept == KeptOf(os, s) && Files(os, s, kept, winners)
    ensures folded == FoldedOf(os, kept, s) && collisions == CollidedOf(os, kept, s)
  {
    hide KeyFor, FateOf, ReportOf;
    KeptKeys(os, s);
    folded, collisions := [], [];
    for n := 0 to |s|
      invariant folded == FoldedOf(os, kept, s[..n]) && collisions == CollidedOf(os, kept, s[..n])
    {
      assert s[..n + 1][..n] == s[..n];
      var key := KeyFor(os, s[n]);
      assert HasKey(os, s, key);
      var winner := kept[winners[key]];
      WinnerUnique(os, kept, winners[key]);
      match FateOf(winner, s[n])
      case Quiet =>
      case Folded => folded := folded + [s[n]];
      case Collided => collisions := collisions + [ReportOf(winner, s[n])];
    }
    assert s[..|s|] == s;
  }

  /** The source's three passes: sort by claim and emission order, keep the first of each key, settle
      every candidate against the final winners. */
  method ResolveFrontendCollisions(os: Platform, claims: Claims, inputs: seq<Sourced>) returns (r: Resolution)
    ensures r == Resolve(os, claims, inputs)
  {
    var sorted := Unranked(SortBy(Rank, RankLe, Ranked(claims, inputs, 0)));
    RankedSort(claims, inputs, 0);
    var kept, winners := KeepFirst(os, sorted);
    var folded, collisions := SettleAll(os, sorted, kept, winners);
    r := Resolution(kept, folded, collisions);
  }

  lemma HasKeySnoc(os: Platform, s: seq<Sourced>, n: nat)
    requires n < |s|
    ensures forall key :: HasKey(os, s[..n + 1], key) <==> HasKey(os, s[..n], key) || KeyFor(os, s[n]) == key
  {
    hide KeyFor, HasKey;
    assert forall x :: x in s[..n + 1] <==> x in s[..n] || x == s[n] by {
      assert s[..n + 1] == s[..n] + [s[n]];
    }
    forall key ensures HasKey(os, s[..n + 1], key) <==> HasKey(os, s[..n], key) || KeyFor(os, s[n]) == key {
      HasKeyIsMembership(os, s[..n + 1], key);
      HasKeyIsMembership(os, s[..n], key);
    }
  }

  lemma {:induction false} WinnerUnique(os: Platform, kept: seq<Sourced>, i: nat)
    requires i < |kept|
    requires forall i, j :: 0 <= i < j < |kept| ==> KeyFor(os, kept[i]) != KeyFor(os, kept[j])
    ensures WinnerOf(os, kept, KeyFor(os, kept[i])) == Some(kept[i])
  {
    hide KeyFor;
    if i > 0 {
      WinnerUnique(os, kept[1..], i - 1);
      assert kept[1..][i - 1] == kept[i];
    }
  }

  // ---- what resolution guarantees -----------------------------------------------------------------------

  /** The winner of a key: of all inputs with it, the least by claim, then emission order. */
  ghost predicate Wins(os: Platform, claims: Claims, inputs: seq<Sourced>, i: nat)
    requires i < |inputs|
  {
    forall j :: 0 <= j < |inputs| && KeyFor(os, inputs[j]) == KeyFor(os, inputs[i]) ==>
                  RankLe((ClaimOf(claims, inputs[i]), i), (ClaimOf(claims, inputs[j]), j))
  }

  lemma {:induction false} KeptIsFirst(os: Platform, s: seq<Sourced>, w: Sourced) returns (at: nat)
    requires w in KeptOf(os, s)
    ensures at < |s| && s[at] == w && forall j :: 0 <= j < at ==> KeyFor(os, s[j]) != KeyFor(os, w)
  {
    hide KeyFor;
    var n := |s| - 1;
    if w in KeptOf(os, s[..n]) {
      at := KeptIsFirst(os, s[..n], w);
      assert forall j :: 0 <= j < n ==> s[..n][j] == s[j];
    } else {
      at := n;
      assert forall j :: 0 <= j < n ==> s[..n][j] == s[j];
    }
  }

  /** Sorting the numbered inputs: every one is there, in rank order, and the numbers stay true. */
  lemma RankedInOrder(claims: Claims, inputs: seq<Sourced>) returns (sorted: seq<((Claim, int), Sourced)>)
    ensures |sorted| == |inputs| && Sorted(claims, inputs) == Unranked(sorted)
    ensures multiset(sorted) == multiset(Ranked(claims, inputs, 0))
    ensures forall k, m :: 0 <= k < m < |sorted| ==> RankLe(sorted[k].0, sorted[m].0)
    ensures forall k :: 0 <= k < |sorted| ==>
              0 <= sorted[k].0.1 < |inputs| && sorted[k] == Ranked(claims, inputs, 0)[sorted[k].0.1]
    ensures forall j :: 0 <= j < |inputs| ==> Ranked(claims, inputs, 0)[j] in sorted
  {
    hide ClaimOf, CompareClaim;
    var ranked := Ranked(claims, inputs, 0);
    sorted := SortBy(Rank, RankLe, ranked);
    RankedSort(claims, inputs, 0);
    assert TotalOrder(RankLe) by { RankLeIsTotal(); }
    SortSorted(Rank, RankLe, ranked);
    SortContents(Rank, RankLe, ranked);
    hide SortBy, RankLe, TotalOrder, Sorted;
    forall k, m | 0 <= k < m < |sorted| ensures RankLe(sorted[k].0, sorted[m].0) {
      assert RankLe(Rank(sorted[k]), Rank(sorted[m]));
    }
    forall k | 0 <= k < |sorted| ensures 0 <= sorted[k].0.1 < |inputs| && sorted[k] == ranked[sorted[k].0.1] {
      assert sorted[k] in multiset(sorted) && sorted[k] in ranked;
    }
    forall j | 0 <= j < |inputs| ensures ranked[j] in sorted {
      assert ranked[j] in multiset(ranked) && ranked[j] in multiset(sorted);
    }
  }

  /** Every kept frontend is the least claimant of its key. */
  lemma KeptIsOldest(os: Platform, claims: Claims, inputs: seq<Sourced>, w: Sourced) returns (i: nat)
    requires w in Resolve(os, claims, inputs).kept
    ensures i < |inputs| && inputs[i] == w && Wins(os, claims, inputs, i)
  {
    hide KeyFor, ClaimOf, CompareClaim, Sorted, KeptOf;
    var ranked := Ranked(claims, inputs, 0);
    var sorted := RankedInOrder(claims, inputs);
    var s := Sorted(claims, inputs);
    var at := KeptIsFirst(os, s, w);
    i := sorted[at].0.1;
    assert RankLe(sorted[at].0, sorted[at].0) by { RankLeIsTotal(); }
    forall j | 0 <= j < |inputs| && KeyFor(os, inputs[j]) == KeyFor(os, inputs[i])
      ensures RankLe((ClaimOf(claims, inputs[i]), i), (ClaimOf(claims, inputs[j]), j))
    {
      assert ranked[j] in sorted;
      var k :| 0 <= k < |sorted| && sorted[k] == ranked[j];
      assert s[k] == inputs[j];
      assert k >= at;
      assert RankLe(sorted[at].0, sorted[k].0);
    }
  }

  /** The object `o` keeps what it contests with `p`: an object without a recorded claim comes last, under its
      own name. */
  ghost predicate HoldsOver(claims: Claims, o: Owner, p: Owner) {
    var a := if o in claims then claims[o] else Claim(true, "", o.namespace + "/" + o.name);
    var b := if p in claims then claims[p] else Claim(true, "", p.namespace + "/" + p.name);
    NotOutdone(a, b)
  }

  /** Each kept frontend is of the oldest object with its key, and the first emitted of those no older. */
  lemma OldestIsKept(os: Platform, claims: Claims, inputs: seq<Sourced>, w: Sourced) returns (i: nat)
    requires w in Resolve(os, claims, inputs).kept
    ensures i < |inputs| && inputs[i] == w
    ensures forall j :: 0 <= j < |inputs| && KeyFor(os, inputs[j]) == KeyFor(os, w) ==>
              && HoldsOver(claims, w.source.owner, inputs[j].source.owner)
              && (HoldsOver(claims, inputs[j].source.owner, w.source.owner) ==> i <= j)
  {
    hide KeyFor, CompareClaim, Resolve;
    i := KeptIsOldest(os, claims, inputs, w);
    forall j | 0 <= j < |inputs| && KeyFor(os, inputs[j]) == KeyFor(os, w)
      ensures HoldsOver(claims, w.source.owner, inputs[j].source.owner)
      ensures HoldsOver(claims, inputs[j].source.owner, w.source.owner) ==> i <= j
    {
      var a, b := ClaimOf(claims, inputs[i]), ClaimOf(claims, inputs[j]);
      CompareClaimLaws(a, b);
      assert RankLe((a, i), (b, j));
      ClaimOrder(a, b);
      ClaimOrder(b, a);
    }
  }

  lemma {:induction false} KeptSubsequence(os: Platform, s: seq<Sourced>, a: nat, b: nat) returns (x: nat, y: nat)
    requires a < b < |KeptOf(os, s)|
    ensures x < y < |s| && s[x] == KeptOf(os, s)[a] && s[y] == KeptOf(os, s)[b]
  {
    hide KeyFor, HasKey;
    var n := |s| - 1;
    var before := KeptOf(os, s[..n]);
    if b < |before| {
      x, y := KeptSubsequence(os, s[..n], a, b);
    } else {
      y := n;
      assert KeptOf(os, s)[a] == before[a];
      x := KeptIsFirst(os, s[..n], before[a]);
    }
  }

  /** What is kept stands oldest object first, and between objects neither of which is older as emitted. */
  lemma KeptInOrder(os: Platform, claims: Claims, inputs: seq<Sourced>, a: nat, b: nat) returns (i: nat, j: nat)
    requires a < b < |Resolve(os, claims, inputs).kept|
    ensures i < |inputs| && j < |inputs| && i != j
    ensures inputs[i] == Resolve(os, claims, inputs).kept[a] && inputs[j] == Resolve(os, claims, inputs).kept[b]
    ensures HoldsOver(claims, inputs[i].source.owner, inputs[j].source.owner)
    ensures HoldsOver(claims, inputs[j].source.owner, inputs[i].source.owner) ==> i < j
  {
    hide KeyFor, CompareClaim, Sorted, KeptOf;
    var sorted := RankedInOrder(claims, inputs);
    var s := Sorted(claims, inputs);
    var x, y := KeptSubsequence(os, s, a, b);
    i, j := sorted[x].0.1, sorted[y].0.1;
    NumbersApart(claims, inputs, sorted, x, y);
    var c, d := ClaimOf(claims, inputs[i]), ClaimOf(claims, inputs[j]);
    assert RankLe(sorted[x].0, sorted[y].0);
    CompareClaimLaws(c, d);
    ClaimOrder(c, d);
    ClaimOrder(d, c);
  }

  /** Sorting keeps each number once. */
  lemma NumbersApart(claims: Claims, inputs: seq<Sourced>, sorted: seq<((Claim, int), Sourced)>, x: nat, y: nat)
    requires multiset(sorted) == multiset(Ranked(claims, inputs, 0)) && x < y < |sorted|
    ensures sorted[x].0.1 != sorted[y].0.1
  {
    hide ClaimOf;
    var ranked := Ranked(claims, inputs, 0);
    assert forall k :: 0 <= k < |ranked| ==> ranked[k].0.1 == k;
    if sorted[x].0.1 == sorted[y].0.1 {
      assert sorted[x] in multiset(sorted) && sorted[y] in multiset(sorted);
      assert sorted[x] in ranked && sorted[y] in ranked;
      assert sorted[x] == sorted[y];
      Twice(sorted, x, y);
      OnceOnly(ranked, sorted[x]);
    }
  }

  lemma {:induction false} OnceOnly<T>(s: seq<T>, x: T)
    requires forall i, j :: 0 <= i < j < |s| ==> s[i] != s[j]
    ensures multiset(s)[x] <= 1
  {
    if s != [] {
      OnceOnly(s[1..], x);
      assert s == [s[0]] + s[1..];
      if s[0] == x {
        assert x !in s[1..];
        assert multiset(s[1..])[x] == 0;
      }
    }
  }

  /** Exactly one frontend is kept for each key the inputs have. */
  lemma OneKeptPerKey(os: Platform, claims: Claims, inputs: seq<Sourced>)
    ensures forall key :: HasKey(os, Resolve(os, claims, inputs).kept, key) <==> HasKey(os, inputs, key)
    ensures var kept := Resolve(os, claims, inputs).kept;
            forall i, j :: 0 <= i < j < |kept| ==> KeyFor(os, kept[i]) != KeyFor(os, kept[j])
  {
    hide KeyFor, ClaimFor;
    var s := Sorted(claims, inputs);
    KeptKeys(os, s);
    SortContents(ByClaim(claims), ClaimLe, inputs);
    forall key ensures HasKey(os, s, key) <==> HasKey(os, inputs, key) {
      HasKeyIsMembership(os, s, key);
      HasKeyIsMembership(os, inputs, key);
      assert forall x :: x in s <==> x in multiset(s);
      assert forall x :: x in inputs <==> x in multiset(inputs);
    }
  }

  lemma HasKeyIsMembership(os: Platform, s: seq<Sourced>, key: RouteKey)
    ensures HasKey(os, s, key) <==> exists x :: x in s && KeyFor(os, x) == key
  {
    hide KeyFor;
    if x :| x in s && KeyFor(os, x) == key {
      var i :| 0 <= i < |s| && s[i] == x;
      assert KeyFor(os, s[i]) == key;
    }
  }

  /** An input that is not reported is served by its winner: the winner matches the same requests,
      and with the same effect unless both are one object's. */
  lemma NothingLostSilently(os: Platform, claims: Claims, inputs: seq<Sourced>, i: nat, q: Request) returns (w: Sourced)
    requires i < |inputs|
    ensures w in Resolve(os, claims, inputs).kept && KeyFor(os, w) == KeyFor(os, inputs[i])
    ensures FateOf(w, inputs[i]).Collided? ==>
              ReportOf(w, inputs[i]) in Resolve(os, claims, inputs).collisions
    ensures FateOf(w, inputs[i]).Folded? ==>
              inputs[i] in Resolve(os, claims, inputs).folded && w.source != inputs[i].source
    ensures !FateOf(w, inputs[i]).Collided? ==>
              && (Matches(os, w.frontend, q) <==> Matches(os, inputs[i].frontend, q))
              && (w.source.owner == inputs[i].source.owner || SameEffect(w.frontend, inputs[i].frontend))
  {
    hide KeyFor, ClaimFor, Matches, SameMatch, ReportOf;
    var r, s := Resolve(os, claims, inputs), Sorted(claims, inputs);
    var key := KeyFor(os, inputs[i]);
    OneKeptPerKey(os, claims, inputs);
    assert HasKey(os, inputs, key);
    WinnerHolds(os, r.kept, key);
    w := WinnerOf(os, r.kept, key).value;
    SortContents(ByClaim(claims), ClaimLe, inputs);
    assert inputs[i] in multiset(inputs) && inputs[i] in s;
    SettledHolds(os, r.kept, s, inputs[i]);
    if SameMatch(w.frontend, inputs[i].frontend) {
      SameMatchMatches(os, w.frontend, inputs[i].frontend, q);
    }
  }

  lemma {:induction false} SettledHolds(os: Platform, kept: seq<Sourced>, s: seq<Sourced>, sf: Sourced)
    requires sf in s && WinnerOf(os, kept, KeyFor(os, sf)).Some?
    ensures var w := WinnerOf(os, kept, KeyFor(os, sf)).value;
            && (FateOf(w, sf).Folded? ==> sf in FoldedOf(os, kept, s))
            && (FateOf(w, sf).Collided? ==> ReportOf(w, sf) in CollidedOf(os, kept, s))
  {
    hide KeyFor, FateOf, ReportOf;
    var n := |s| - 1;
    if sf in s[..n] {
      SettledHolds(os, kept, s[..n], sf);
    } else {
      assert s == s[..n] + [s[n]];
      assert s[n] == sf;
    }
  }

  /** `x` repeats the kept frontend `w`: the same match and route. */
  predicate Repeats(w: Frontend, x: Frontend) {
    SameMatch(w, x) && w.cluster == x.cluster && w.filters == x.filters
  }

  /** `w` is kept for `x`'s key. */
  ghost predicate KeptFor(os: Platform, kept: seq<Sourced>, w: Sourced, x: Sourced) {
    w in kept && KeyFor(os, w) == KeyFor(os, x)
  }

  lemma WinnerIsKept(os: Platform, claims: Claims, inputs: seq<Sourced>, x: Sourced)
    requires x in inputs
    ensures var kept := Resolve(os, claims, inputs).kept;
            var w := WinnerOf(os, kept, KeyFor(os, x));
            w.Some? && forall v :: KeptFor(os, kept, v, x) <==> v == w.value
  {
    hide KeyFor, Resolve;
    var kept := Resolve(os, claims, inputs).kept;
    OneKeptPerKey(os, claims, inputs);
    HasKeyIsMembership(os, inputs, KeyFor(os, x));
    WinnerHolds(os, kept, KeyFor(os, x));
    forall v | KeptFor(os, kept, v, x) ensures v == WinnerOf(os, kept, KeyFor(os, x)).value {
      var i :| 0 <= i < |kept| && kept[i] == v;
      WinnerUnique(os, kept, i);
    }
  }

  lemma {:induction false} FoldedMembers(os: Platform, kept: seq<Sourced>, s: seq<Sourced>, x: Sourced)
    ensures x in FoldedOf(os, kept, s) <==>
            x in s && var w := WinnerOf(os, kept, KeyFor(os, x)); w.Some? && FateOf(w.value, x).Folded?
  {
    hide KeyFor, FateOf;
    if s != [] {
      var n := |s| - 1;
      FoldedMembers(os, kept, s[..n], x);
      assert s == s[..n] + [s[n]];
    }
  }

  /** `r` reports `x` as having lost to the kept `w`. */
  ghost predicate ReportsLoss(r: (Source, Collision), w: Sourced, x: Sourced) {
    && r.0 == x.source && r.1.hostname == x.frontend.hostname && r.1.path == x.frontend.path.value
    && r.1.winner == w.frontend.cluster && (r.1.keyOnly <==> !SameMatch(w.frontend, x.frontend))
    && (r.1.keyOnly || (w.source.owner != x.source.owner && !SameEffect(w.frontend, x.frontend)))
  }

  ghost predicate ReportedOn(os: Platform, kept: seq<Sourced>, s: seq<Sourced>, r: (Source, Collision), x: Sourced) {
    x in s && var w := WinnerOf(os, kept, KeyFor(os, x)); w.Some? && ReportsLoss(r, w.value, x)
  }

  lemma {:induction false} CollidedMembers(os: Platform, kept: seq<Sourced>, s: seq<Sourced>, r: (Source, Collision))
    ensures r in CollidedOf(os, kept, s) <==> exists x :: ReportedOn(os, kept, s, r, x)
  {
    hide KeyFor, SameMatch, SameEffect;
    if s != [] {
      var n := |s| - 1;
      CollidedMembers(os, kept, s[..n], r);
      assert s == s[..n] + [s[n]];
      if x :| ReportedOn(os, kept, s[..n], r, x) {
        assert ReportedOn(os, kept, s, r, x);
      }
      if x :| ReportedOn(os, kept, s, r, x) {
        if x in s[..n] {
          assert ReportedOn(os, kept, s[..n], r, x);
        }
      }
      if r in CollidedOf(os, kept, s) && r !in CollidedOf(os, kept, s[..n]) {
        assert ReportedOn(os, kept, s, r, s[n]);
      }
    }
  }

  /** The folded inputs are exactly those that repeat what is kept for their key from another source, and the
      collisions exactly those that match otherwise, or route otherwise from another object. */
  lemma SettledExactly(os: Platform, claims: Claims, inputs: seq<Sourced>)
    ensures forall x :: x in Resolve(os, claims, inputs).folded <==>
              x in inputs && exists w :: KeptFor(os, Resolve(os, claims, inputs).kept, w, x)
                                         && Repeats(w.frontend, x.frontend) && w.source != x.source
    ensures forall r :: r in Resolve(os, claims, inputs).collisions <==>
              exists x, w :: x in inputs && KeptFor(os, Resolve(os, claims, inputs).kept, w, x) && ReportsLoss(r, w, x)
  {
    hide KeyFor, SameMatch, ClaimFor, ReportsLoss;
    var r, s := Resolve(os, claims, inputs), Sorted(claims, inputs);
    SortContents(ByClaim(claims), ClaimLe, inputs);
    forall x ensures x in s <==> x in inputs {
      assert x in s <==> x in multiset(s);
    }
    assert r.kept == KeptOf(os, s) && r.folded == FoldedOf(os, r.kept, s) && r.collisions == CollidedOf(os, r.kept, s);
    forall x | x in inputs ensures
        var w := WinnerOf(os, r.kept, KeyFor(os, x));
        w.Some? && forall v :: KeptFor(os, r.kept, v, x) <==> v == w.value {
      WinnerIsKept(os, claims, inputs, x);
    }
    hide Resolve, Sorted, KeptFor;
    forall x {:trigger x in r.folded} ensures x in r.folded <==>
        x in inputs &&
        exists w :: KeptFor(os, r.kept, w, x) && Repeats(w.frontend, x.frontend) && w.source != x.source {
      FoldedMembers(os, r.kept, s, x);
    }
    forall c ensures c in r.collisions <==>
        exists x, w :: x in inputs && KeptFor(os, r.kept, w, x) && ReportsLoss(c, w, x) {
      CollidedMembers(os, r.kept, s, c);
      if x :| ReportedOn(os, r.kept, s, c, x) {
        assert KeptFor(os, r.kept, WinnerOf(os, r.kept, KeyFor(os, x)).value, x);
      }
      if x, w :| x in inputs && KeptFor(os, r.kept, w, x) && ReportsLoss(c, w, x) {
        assert ReportedOn(os, r.kept, s, c, x);
      }
    }
  }

  /** Folded inputs and reports stand in the order the inputs are settled in: those of its first `n` first. */
  lemma {:induction false} ReportsInOrder(os: Platform, kept: seq<Sourced>, s: seq<Sourced>, n: nat)
    requires n <= |s|
    ensures FoldedOf(os, kept, s[..n]) <= FoldedOf(os, kept, s)
    ensures CollidedOf(os, kept, s[..n]) <= CollidedOf(os, kept, s)
  {
    hide KeyFor, FateOf, ReportOf;
    if n < |s| {
      var last := |s| - 1;
      ReportsInOrder(os, kept, s[..last], n);
      assert s[..last][..n] == s[..n];
    } else {
      assert s[..n] == s;
    }
  }

  function OwnerOf(sf: Sourced): Owner { sf.source.owner }

  /** Two emissions of the same frontends that keep each object's own order. */
  ghost predicate SameByOwner(a: seq<Sourced>, b: seq<Sourced>) {
    forall o: Owner :: OfKey(OwnerOf, o, a) == OfKey(OwnerOf, o, b)
  }

  /** No two objects among the sources share a claim. */
  ghost predicate DistinctClaims(claims: Claims, s: seq<Sourced>) {
    forall x, y :: x in s && y in s && ClaimOf(claims, x) == ClaimOf(claims, y) ==> OwnerOf(x) == OwnerOf(y)
  }

  lemma {:induction false} ByClaimIsByOwner(claims: Claims, s: seq<Sourced>, all: set<Sourced>, x: Sourced)
    requires x in all && forall y :: y in s ==> y in all
    requires forall y, z :: y in all && z in all && ClaimOf(claims, y) == ClaimOf(claims, z) ==>
        OwnerOf(y) == OwnerOf(z)
    ensures OfKey(ByClaim(claims), ClaimOf(claims, x), s) == OfKey(OwnerOf, OwnerOf(x), s)
  {
    if s != [] {
      ByClaimIsByOwner(claims, s[1..], all, x);
    }
  }

  /** With distinct claims, how the objects' frontends interleave changes nothing. */
  lemma ResolutionIsOrderFree(os: Platform, claims: Claims, a: seq<Sourced>, b: seq<Sourced>)
    requires DistinctClaims(claims, a) && SameByOwner(a, b)
    ensures Resolve(os, claims, a) == Resolve(os, claims, b)
  {
    var key := ByClaim(claims);
    ClaimLeIsTotal();
    hide ClaimFor, ClaimLe, Resolve;
    forall x ensures x in a <==> x in b {
      OfKeyMember(OwnerOf, OwnerOf(x), a, x);
      OfKeyMember(OwnerOf, OwnerOf(x), b, x);
      assert OfKey(OwnerOf, OwnerOf(x), a) == OfKey(OwnerOf, OwnerOf(x), b);
    }
    var all := set x | x in a;
    forall c ensures OfKey(key, c, a) == OfKey(key, c, b) {
      if x :| x in a && key(x) == c {
        ByClaimIsByOwner(claims, a, all, x);
        ByClaimIsByOwner(claims, b, all, x);
        assert OfKey(OwnerOf, OwnerOf(x), a) == OfKey(OwnerOf, OwnerOf(x), b);
      } else {
        OfKeyNone(key, c, a);
        OfKeyNone(key, c, b);
      }
    }
    SortDetermined(key, ClaimLe, a, b);
    SortedDecides(os, claims, a, b);
  }

  lemma SortedDecides(os: Platform, claims: Claims, a: seq<Sourced>, b: seq<Sourced>)
    requires Sorted(claims, a) == Sorted(claims, b)
    ensures Resolve(os, claims, a) == Resolve(os, claims, b)
  {
  }

  /** Every input settles once: it is folded, reported, or quiet under its winner. */
  function QuietOf(os: Platform, kept: seq<Sourced>, s: seq<Sourced>): seq<Sourced> {
    if s == [] then []
    else
      var sf := s[|s| - 1];
      var winner := WinnerOf(os, kept, KeyFor(os, sf));
      QuietOf(os, kept, s[..|s| - 1]) + if winner.Some? && FateOf(winner.value, sf).Quiet? then [sf] else []
  }

  lemma {:induction false} SettledOnce(os: Platform, kept: seq<Sourced>, s: seq<Sourced>)
    requires forall x :: x in s ==> HasKey(os, kept, KeyFor(os, x))
    ensures |s| == |QuietOf(os, kept, s)| + |FoldedOf(os, kept, s)| + |CollidedOf(os, kept, s)|
  {
    hide KeyFor, FateOf, ReportOf;
    if s != [] {
      var n := |s| - 1;
      SettledOnce(os, kept, s[..n]);
      WinnerHolds(os, kept, KeyFor(os, s[n]));
    }
  }

  lemma {:induction false} KeptAreQuiet(os: Platform, kept: seq<Sourced>, s: seq<Sourced>)
    requires forall x :: x in kept ==> WinnerOf(os, kept, KeyFor(os, x)) == Some(x)
    ensures forall x :: x in kept && x in s ==> x in QuietOf(os, kept, s)
  {
    hide KeyFor, SameMatch;
    if s != [] {
      var n := |s| - 1;
      KeptAreQuiet(os, kept, s[..n]);
      assert s == s[..n] + [s[n]];
      if s[n] in kept {
        SameMatchSelf(s[n].frontend);
      }
    }
  }

  lemma SameMatchSelf(f: Frontend)
    ensures SameMatch(f, f)
  {
  }

  /** Conservation: every input is quiet, folded or reported, and only once; the kept ones are quiet. */
  lemma InputsConserved(os: Platform, claims: Claims, inputs: seq<Sourced>)
    ensures var r, s := Resolve(os, claims, inputs), Sorted(claims, inputs);
            && |inputs| == |QuietOf(os, r.kept, s)| + |r.folded| + |r.collisions|
            && multiset(s) == multiset(inputs)
            && forall x :: x in r.kept && x in s ==> x in QuietOf(os, r.kept, s)
  {
    hide KeyFor, ClaimFor;
    var r, s := Resolve(os, claims, inputs), Sorted(claims, inputs);
    SortContents(ByClaim(claims), ClaimLe, inputs);
    KeptKeys(os, s);
    forall x | x in s ensures HasKey(os, r.kept, KeyFor(os, x)) {
      HasKeyIsMembership(os, s, KeyFor(os, x));
    }
    SettledOnce(os, r.kept, s);
    forall x | x in r.kept ensures WinnerOf(os, r.kept, KeyFor(os, x)) == Some(x) {
      var i :| 0 <= i < |r.kept| && r.kept[i] == x;
      WinnerUnique(os, r.kept, i);
    }
    KeptAreQuiet(os, r.kept, s);
  }

  function FrontendsOf(s: seq<Sourced>): seq<Frontend> {
    seq(|s|, i requires 0 <= i < |s| => s[i].frontend)
  }

  /** What resolution keeps is what the header-match pass asks for. */
  lemma KeptAreResolved(os: Platform, claims: Claims, inputs: seq<Sourced>)
    requires forall i :: 0 <= i < |inputs| ==> Keyable(inputs[i].frontend)
    ensures Resolved(os, FrontendsOf(Resolve(os, claims, inputs).kept))
  {
    hide RouteKeyOf, ClaimFor, Keyable;
    OneKeptPerKey(os, claims, inputs);
    var kept := Resolve(os, claims, inputs).kept;
    forall i | 0 <= i < |kept| ensures Keyable(kept[i].frontend) {
      var j := KeptIsOldest(os, claims, inputs, kept[i]);
    }
    forall i, j | 0 <= i < j < |kept| ensures RouteKeyOf(os, kept[i].frontend) != RouteKeyOf(os, kept[j].frontend) {
      assert KeyFor(os, kept[i]) != KeyFor(os, kept[j]);
    }
  }
}
