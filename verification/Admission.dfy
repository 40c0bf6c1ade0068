/** Admission: the first conflict of a tier, by trying all pairs, and again over the successive tiers of a
    group by trying only what may have changed. */
module Admissions {
  import opened Base
  import opened Frontends
  import opened Paths
  import opened Tier

  type Pair = (nat, nat, Reason)

  ghost predicate Admissible(fs: seq<Frontend>, tier: seq<Predicated>) {
    && (forall i :: 0 <= i < |tier| ==> InRange(fs, tier[i]) && tier[i] == EntryOf(fs, tier[i].Id()))
    && (forall i, j :: 0 <= i < j < |tier| ==> tier[i].Id() != tier[j].Id())
  }

  ghost predicate Orderly(os: Platform, fs: seq<Frontend>, tier: seq<Predicated>, high: nat)
    requires Admissible(fs, tier) && high < |tier|
  {
    forall low :: 0 <= low < |tier| ==> Conflict(os, fs, tier[high], tier[low]).None?
  }

  /** Entry `a` is resolved before entry `b`. */
  predicate Before(fs: seq<Frontend>, tier: seq<Predicated>, a: nat, b: nat)
    requires a < |tier| && b < |tier| && InRange(fs, tier[a]) && InRange(fs, tier[b])
  {
    CompareKeys(KeyOf(fs, tier[a]), KeyOf(fs, tier[b])).Greater?
  }

  lemma KeysStrict(a: PrecedenceKey, b: PrecedenceKey, c: PrecedenceKey)
    ensures !CompareKeys(a, a).Greater?
    ensures a.id != b.id ==> (CompareKeys(a, b).Greater? <==> !CompareKeys(b, a).Greater?)
    ensures CompareKeys(a, b).Greater? && CompareKeys(b, c).Greater? ==> CompareKeys(a, c).Greater?
  {
  }

  lemma BeforeIsStrict(fs: seq<Frontend>, tier: seq<Predicated>)
    requires Admissible(fs, tier)
    ensures forall a :: 0 <= a < |tier| ==> !Before(fs, tier, a, a)
    ensures forall a, b :: 0 <= a < |tier| && 0 <= b < |tier| && a != b ==>
                             (Before(fs, tier, a, b) <==> !Before(fs, tier, b, a))
    ensures forall a, b, c :: 0 <= a < |tier| && 0 <= b < |tier| && 0 <= c < |tier| ==>
                                Before(fs, tier, a, b) && Before(fs, tier, b, c) ==> Before(fs, tier, a, c)
  {
    hide CompareKeys;
    forall a | 0 <= a < |tier| ensures !Before(fs, tier, a, a) {
      KeysStrict(KeyOf(fs, tier[a]), KeyOf(fs, tier[a]), KeyOf(fs, tier[a]));
    }
    forall a, b | 0 <= a < |tier| && 0 <= b < |tier| && a != b
      ensures Before(fs, tier, a, b) <==> !Before(fs, tier, b, a)
    {
      KeysStrict(KeyOf(fs, tier[a]), KeyOf(fs, tier[b]), KeyOf(fs, tier[b]));
      assert tier[a].Id() != tier[b].Id();
    }
    forall a, b, c | 0 <= a < |tier| && 0 <= b < |tier| && 0 <= c < |tier|
      ensures Before(fs, tier, a, b) && Before(fs, tier, b, c) ==> Before(fs, tier, a, c)
    {
      KeysStrict(KeyOf(fs, tier[a]), KeyOf(fs, tier[b]), KeyOf(fs, tier[c]));
    }
  }

  ghost predicate LeastConflict(os: Platform, fs: seq<Frontend>, tier: seq<Predicated>, high: nat, low: (nat, Reason))
    requires Admissible(fs, tier) && high < |tier|
  {
    && low.0 < |tier|
    && Conflict(os, fs, tier[high], tier[low.0]) == Some(low.1)
    && forall k :: 0 <= k < low.0 ==> Conflict(os, fs, tier[high], tier[k]).None?
  }

  /** What the admission must find: the unsettled pair whose higher entry ranks first, and of that
      entry's the first lower one. */
  ghost predicate FirstPair(os: Platform, fs: seq<Frontend>, tier: seq<Predicated>, found: Option<Pair>)
    requires Admissible(fs, tier)
  {
    match found
    case None => forall high :: 0 <= high < |tier| ==> Orderly(os, fs, tier, high)
    case Some((high, low, why)) =>
      && high < |tier| && LeastConflict(os, fs, tier, high, (low, why))
      && (forall h :: 0 <= h < |tier| && h != high ==>
                        Orderly(os, fs, tier, h) || Before(fs, tier, high, h))
  }

  lemma FirstPairUnique(os: Platform, fs: seq<Frontend>, tier: seq<Predicated>, a: Option<Pair>, b: Option<Pair>)
    requires Admissible(fs, tier) && FirstPair(os, fs, tier, a) && FirstPair(os, fs, tier, b)
    ensures a == b
  {
    BeforeIsStrict(fs, tier);
    hide Conflict, Before;
    if a.Some? {
      assert !Orderly(os, fs, tier, a.value.0);
    }
    if b.Some? {
      assert !Orderly(os, fs, tier, b.value.0);
    }
    if a.Some? && b.Some? {
      assert a.value.0 == b.value.0;
    }
  }

  lemma FirstPairInRange(os: Platform, fs: seq<Frontend>, tier: seq<Predicated>, found: Option<Pair>)
    requires Admissible(fs, tier) && FirstPair(os, fs, tier, found) && found.Some?
    ensures found.value.0 < |tier| && found.value.1 < |tier|
  {
  }

  /** The scan of every pair. */
  method ScanUnsettled(os: Platform, fs: seq<Frontend>, tier: seq<Predicated>) returns (found: Option<Pair>)
    requires Admissible(fs, tier)
    ensures FirstPair(os, fs, tier, found)
  {
    BeforeIsStrict(fs, tier);
    hide Conflict, Before, EntryOf, Orderly, LeastConflict;
    found := None;
    for high := 0 to |tier|
      invariant found.None? ==> forall h :: 0 <= h < high ==> Orderly(os, fs, tier, h)
      invariant found.Some? ==>
                  && found.value.0 < high
                  && LeastConflict(os, fs, tier, found.value.0, (found.value.1, found.value.2))
      invariant found.Some? ==> forall h :: 0 <= h < high && h != found.value.0 ==>
                                              Orderly(os, fs, tier, h) || Before(fs, tier, found.value.0, h)
    {
      found := ScanRow(os, fs, tier, high, found);
    }
  }

  /** The scan's inner loop: a first conflict of `high` replaces the best pair so far if `high` comes before. */
  method ScanRow(os: Platform, fs: seq<Frontend>, tier: seq<Predicated>, high: nat, best: Option<Pair>)
      returns (found: Option<Pair>)
    requires Admissible(fs, tier) && high < |tier| && (best.Some? ==> best.value.0 < high)
    ensures found == best ==> Orderly(os, fs, tier, high) || (best.Some? && !Before(fs, tier, high, best.value.0))
    ensures found != best ==>
              && found.Some? && found.value.0 == high
                  && LeastConflict(os, fs, tier, high, (found.value.1, found.value.2))
              && (best.Some? ==> Before(fs, tier, high, best.value.0))
  {
    assert !Before(fs, tier, high, high) by { BeforeIsStrict(fs, tier); }
    hide Conflict, Before, EntryOf;
    found := best;
    for low := 0 to |tier|
      invariant found == best || (
                  && found.Some? && found.value.0 == high && found.value.1 < low
                  && LeastConflict(os, fs, tier, high, (found.value.1, found.value.2))
                  && (best.Some? ==> Before(fs, tier, high, best.value.0)))
      invariant found == best ==>
          || (forall l :: 0 <= l < low ==> Conflict(os, fs, tier[high], tier[l]).None?)
          || (best.Some? && !Before(fs, tier, high, best.value.0))
    {
      var why := Conflict(os, fs, tier[high], tier[low]);
      if why.Some? && (found.None? || Before(fs, tier, high, found.value.0)) {
        found := Some((high, low, why.value));
      }
    }
  }

  /** The first entry, in tier order, that `high` conflicts with. */
  method FirstConflict(os: Platform, fs: seq<Frontend>, tier: seq<Predicated>, high: nat)
      returns (low: Option<(nat, Reason)>)
    requires Admissible(fs, tier) && high < |tier|
    ensures low.None? ==> Orderly(os, fs, tier, high)
    ensures low.Some? ==> LeastConflict(os, fs, tier, high, low.value)
  {
    for l := 0 to |tier|
      invariant forall k :: 0 <= k < l ==> Conflict(os, fs, tier[high], tier[k]).None?
    {
      var why := Conflict(os, fs, tier[high], tier[l]);
      if why.Some? {
        return Some((l, why.value));
      }
    }
    low := None;
  }

  predicate LaterFirst(a: int, b: int) { a >= b }

  lemma LaterFirstIsTotal()
    ensures TotalOrder(LaterFirst)
  {
  }

  function First<A, B>(p: (A, B)): A { p.0 }

  /** `pairs` lists every index of `keys` once, beside its key. */
  ghost predicate Indexed<K>(keys: seq<K>, pairs: seq<(K, nat)>) {
    && (forall k :: 0 <= k < |pairs| ==> pairs[k].1 < |keys| && pairs[k].0 == keys[pairs[k].1])
    && (forall i :: 0 <= i < |keys| ==> (keys[i], i) in pairs)
  }

  function WithIndex<K>(keys: seq<K>): seq<(K, nat)> {
    seq(|keys|, i requires 0 <= i < |keys| => (keys[i], i))
  }

  lemma SortedIndices<K(!new)>(keys: seq<K>, le: (K, K) -> bool)
    requires TotalOrder(le)
    ensures var s := SortBy(First<K, nat>, le, WithIndex(keys));
            SortedBy(First<K, nat>, le, s) && Indexed(keys, s)
  {
    var pairs := WithIndex(keys);
    var s := SortBy(First<K, nat>, le, pairs);
    SortSorted(First<K, nat>, le, pairs);
    SortContents(First<K, nat>, le, pairs);
    forall k | 0 <= k < |s| ensures s[k] in pairs {
      assert s[k] in multiset(s);
    }
    forall i | 0 <= i < |keys| ensures (keys[i], i) in s {
      assert pairs[i] in multiset(pairs);
    }
  }

  type Rounds = map<(nat, nat), nat>

  function IdsOf(tier: seq<Predicated>): set<(nat, nat)> {
    set i | 0 <= i < |tier| :: tier[i].Id()
  }

  /** What the records of earlier rounds say, `tiers[r]` holding the ids of the tier of round `r`. */
  ghost predicate History(os: Platform, fs: seq<Frontend>, tiers: seq<set<(nat, nat)>>, present: Rounds,
                          settled: Rounds) {
    && 0 < |tiers|
    && (forall r, id :: 0 <= r < |tiers| && id in tiers[r] ==> IdInRange(fs, id))
    && present.Keys == tiers[|tiers| - 1]
    && (forall id, r :: id in present && present[id] <= r < |tiers| ==> id in tiers[r])
    && (forall id :: id in settled ==> IdInRange(fs, id) && settled[id] < |tiers|)
    && (forall id, x :: id in settled && x in tiers[settled[id]] ==>
                          Conflict(os, fs, EntryOf(fs, id), EntryOf(fs, x)).None?)
  }

  function AppearedIn(present: Rounds, round: nat, tier: seq<Predicated>): (appeared: seq<nat>)
    ensures |appeared| == |tier|
  {
    seq(|tier|, i requires 0 <= i < |tier| => if tier[i].Id() in present then present[tier[i].Id()] else round)
  }

  function PresentIn(tier: seq<Predicated>, appeared: seq<nat>): Rounds
    requires |tier| == |appeared|
  {
    if tier == [] then map[]
    else PresentIn(tier[..|tier| - 1], appeared[..|tier| - 1])[tier[|tier| - 1].Id() := appeared[|tier| - 1]]
  }

  lemma {:induction false} PresentInHolds(tier: seq<Predicated>, appeared: seq<nat>)
    requires |tier| == |appeared|
    requires forall i, j :: 0 <= i < j < |tier| ==> tier[i].Id() != tier[j].Id()
    ensures Appeared(tier, appeared, PresentIn(tier, appeared))
  {
    if tier != [] {
      var n := |tier| - 1;
      PresentInHolds(tier[..n], appeared[..n]);
      assert IdsOf(tier) == IdsOf(tier[..n]) + {tier[n].Id()};
      assert forall i :: 0 <= i < n ==> tier[..n][i] == tier[i] && appeared[..n][i] == appeared[i];
    }
  }

  ghost predicate Appeared(tier: seq<Predicated>, appeared: seq<nat>, present: Rounds) {
    && |appeared| == |tier|
    && present.Keys == IdsOf(tier)
    && forall i :: 0 <= i < |tier| ==> tier[i].Id() in present && present[tier[i].Id()] == appeared[i]
  }

  lemma NextRound(os: Platform, fs: seq<Frontend>, tiers: seq<set<(nat, nat)>>, present: Rounds, settled: Rounds,
                  tier: seq<Predicated>)
    requires History(os, fs, tiers, present, settled) && Admissible(fs, tier)
    ensures var appeared := AppearedIn(present, |tiers|, tier);
            Appeared(tier, appeared, PresentIn(tier, appeared)) &&
            History(os, fs, tiers + [IdsOf(tier)], PresentIn(tier, appeared), settled)
  {
    var appeared := AppearedIn(present, |tiers|, tier);
    var after := PresentIn(tier, appeared);
    hide Conflict, EntryOf;
    PresentInHolds(tier, appeared);
    var all := tiers + [IdsOf(tier)];
    forall id, r | id in after && after[id] <= r < |all| ensures id in all[r] {
      assert exists i :: 0 <= i < |tier| && tier[i].Id() == id;
    }
    forall r, id | 0 <= r < |all| && id in all[r] ensures IdInRange(fs, id) {
      if r == |tiers| {
        var i :| 0 <= i < |tier| && tier[i].Id() == id;
        assert InRange(fs, tier[i]);
      }
    }
  }

  lemma NowSettled(os: Platform, fs: seq<Frontend>, tiers: seq<set<(nat, nat)>>, present: Rounds, settled: Rounds,
                   tier: seq<Predicated>, high: nat)
    requires History(os, fs, tiers, present, settled) && Admissible(fs, tier) && tiers[|tiers| - 1] == IdsOf(tier)
    requires high < |tier| && Orderly(os, fs, tier, high)
    ensures History(os, fs, tiers, present, settled[tier[high].Id() := |tiers| - 1])
  {
    hide Conflict, EntryOf;
    forall x | x in IdsOf(tier)
      ensures IdInRange(fs, x) && Conflict(os, fs, EntryOf(fs, tier[high].Id()), EntryOf(fs, x)).None?
    {
      var i :| 0 <= i < |tier| && tier[i].Id() == x;
      assert InRange(fs, tier[i]);
    }
    assert InRange(fs, tier[high]);
  }

  /** What the admission of one group carries from round to round. */
  class Admission {
    /** The rounds checked so far. */
    var round: nat
    /** Since which round each entry of the current tier has stood without a gap. */
    var present: Rounds
    /** When each entry was last seen free of conflicts with anything below it. */
    var settled: Rounds
    /** The ids of the tier of each round; round 0 has none. */
    ghost var tiers: seq<set<(nat, nat)>>

    constructor ()
      ensures round == 0 && present == map[] && settled == map[] && tiers == [{}]
    {
      round, present, settled := 0, map[], map[];
      tiers := [{}];
    }

    ghost predicate Valid(os: Platform, fs: seq<Frontend>)
      reads this
    {
      |tiers| == round + 1 && History(os, fs, tiers, present, settled)
    }

    /** Meets the specification of `ScanUnsettled` in every round; an entry in `settled` is tried against
        newcomers only. */
    method FirstUnsettled(os: Platform, fs: seq<Frontend>, tier: seq<Predicated>) returns (found: Option<Pair>)
      requires Valid(os, fs) && Admissible(fs, tier)
      modifies this
      ensures Valid(os, fs) && tiers == old(tiers) + [IdsOf(tier)]
      ensures FirstPair(os, fs, tier, found)
    {
      hide Conflict, Before, EntryOf, History, Orderly, Appeared, IdsOf, LeastConflict, Indexed, SortedBy, KeyOf;
      var appeared := Begin(os, fs, tier);
      var newest := Newest(appeared);
      var keys, order := InOrder(fs, tier);
      found := None;
      for k := 0 to |order|
        invariant tiers == old(tiers) + [IdsOf(tier)] && Valid(os, fs) && Appeared(tier, appeared, present)
        invariant forall m :: 0 <= m < k ==> Orderly(os, fs, tier, order[m].1)
      {
        var high := order[k].1;
        var low: Option<(nat, Reason)>;
        if tier[high].Id() in settled {
          low := FirstSince(os, fs, tier, appeared, newest, high);
        } else {
          low := FirstConflict(os, fs, tier, high);
        }
        if low.Some? {
          found := Some((high, low.value.0, low.value.1));
          FoundIsFirst(os, fs, tier, keys, order, k, low.value);
          return;
        }
        NowSettled(os, fs, tiers, present, settled, tier, high);
        settled := settled[tier[high].Id() := round];
      }
      NoneIsFirst(os, fs, tier, keys, order);
    }

    /** Opens a round: since when each entry of the tier has stood without a gap. */
    method Begin(os: Platform, fs: seq<Frontend>, tier: seq<Predicated>) returns (appeared: seq<nat>)
      requires Valid(os, fs) && Admissible(fs, tier)
      modifies this
      ensures Valid(os, fs) && tiers == old(tiers) + [IdsOf(tier)] && settled == old(settled)
      ensures Appeared(tier, appeared, present)
    {
      hide Conflict, EntryOf, History, Appeared, AppearedIn, PresentIn, IdsOf;
      round := round + 1;
      appeared := AppearedIn(present, round, tier);
      NextRound(os, fs, tiers, present, settled, tier);
      present := PresentIn(tier, appeared);
      tiers := tiers + [IdsOf(tier)];
    }

    /** The first conflict of a settled entry, looked for among the newcomers only. */
    method FirstSince(os: Platform, fs: seq<Frontend>, tier: seq<Predicated>, appeared: seq<nat>,
                      newest: seq<(int, nat)>, high: nat) returns (low: Option<(nat, Reason)>)
      requires Valid(os, fs) && Admissible(fs, tier) && Appeared(tier, appeared, present)
      requires SortedBy(First<int, nat>, LaterFirst, newest) && Indexed<int>(appeared, newest)
      requires high < |tier| && tier[high].Id() in settled && tiers[round] == IdsOf(tier)
      ensures low.None? ==> Orderly(os, fs, tier, high)
      ensures low.Some? ==> LeastConflict(os, fs, tier, high, low.value)
    {
      hide Conflict, EntryOf, IdsOf, History;
      var since := settled[tier[high].Id()];
      low := None;
      var k := 0;
      while k < |newest| && newest[k].0 > since
        invariant 0 <= k <= |newest|
        invariant low.None? ==> forall m :: 0 <= m < k ==> Conflict(os, fs, tier[high], tier[newest[m].1]).None?
        invariant low.Some? ==>
                    low.value.0 < |tier| && Conflict(os, fs, tier[high], tier[low.value.0]) == Some(low.value.1)
        invariant low.Some? ==> forall m :: 0 <= m < k && newest[m].1 < low.value.0 ==>
                                              Conflict(os, fs, tier[high], tier[newest[m].1]).None?
      {
        var l := newest[k].1;
        var why := Conflict(os, fs, tier[high], tier[l]);
        if why.Some? && (low.None? || l < low.value.0) {
          low := Some((l, why.value));
        }
        k := k + 1;
      }
      forall l | 0 <= l < |tier| && Conflict(os, fs, tier[high], tier[l]).Some?
        ensures exists m :: 0 <= m < k && newest[m].1 == l
      {
        NewcomersOnly(os, fs, tiers, present, settled, tier, appeared, high, l);
        var m :| 0 <= m < |newest| && newest[m] == (appeared[l], l);
        assert m >= k ==> LaterFirst(First(newest[k]), First(newest[m]));
      }
    }
  }

  /** What a settled entry conflicts with appeared after the round it was settled in. */
  lemma NewcomersOnly(os: Platform, fs: seq<Frontend>, tiers: seq<set<(nat, nat)>>, present: Rounds, settled: Rounds,
                      tier: seq<Predicated>, appeared: seq<nat>, high: nat, low: nat)
    requires History(os, fs, tiers, present, settled) && Admissible(fs, tier) && Appeared(tier, appeared, present)
    requires high < |tier| && low < |tier| && tier[high].Id() in settled
    requires Conflict(os, fs, tier[high], tier[low]).Some?
    ensures appeared[low] > settled[tier[high].Id()]
  {
    hide Conflict, EntryOf;
    assert tier[high] == EntryOf(fs, tier[high].Id()) && tier[low] == EntryOf(fs, tier[low].Id());
    assert tier[low].Id() in present;
  }

  /** The positions of a tier, newcomers first. */
  method Newest(appeared: seq<nat>) returns (newest: seq<(int, nat)>)
    ensures SortedBy(First<int, nat>, LaterFirst, newest) && Indexed<int>(appeared, newest)
  {
    newest := SortBy(First<int, nat>, LaterFirst, WithIndex<int>(appeared));
    LaterFirstIsTotal();
    SortedIndices<int>(appeared, LaterFirst);
  }

  /** The positions of a tier, highest key first. */
  method InOrder(fs: seq<Frontend>, tier: seq<Predicated>)
      returns (ghost keys: seq<PrecedenceKey>, order: seq<(PrecedenceKey, nat)>)
    requires Admissible(fs, tier)
    ensures RankedTier(fs, tier, keys, order)
  {
    hide KeyOf, EntryOf, KeyFirst, TotalOrder, SortBy;
    var all := seq(|tier|, i requires 0 <= i < |tier| => KeyOf(fs, tier[i]));
    order := SortBy(First<PrecedenceKey, nat>, KeyFirst, WithIndex(all));
    KeyFirstIsTotal();
    SortedIndices(all, KeyFirst);
    keys := all;
  }

  /** `order` lists the positions of the tier with their keys, highest first. */
  ghost predicate RankedTier(fs: seq<Frontend>, tier: seq<Predicated>, keys: seq<PrecedenceKey>,
                             order: seq<(PrecedenceKey, nat)>)
  {
    && Admissible(fs, tier) && |keys| == |tier|
    && (forall i :: 0 <= i < |tier| ==> keys[i] == KeyOf(fs, tier[i]))
    && SortedBy(First<PrecedenceKey, nat>, KeyFirst, order) && Indexed(keys, order)
    && forall k :: 0 <= k < |order| ==> order[k].1 < |tier|
  }

  lemma FoundIsFirst(os: Platform, fs: seq<Frontend>, tier: seq<Predicated>, keys: seq<PrecedenceKey>,
                     order: seq<(PrecedenceKey, nat)>, k: nat, low: (nat, Reason))
    requires RankedTier(fs, tier, keys, order) && k < |order| && LeastConflict(os, fs, tier, order[k].1, low)
    requires forall m :: 0 <= m < k ==> Orderly(os, fs, tier, order[m].1)
    ensures FirstPair(os, fs, tier, Some((order[k].1, low.0, low.1)))
  {
    hide Conflict, Before, EntryOf, Orderly, LeastConflict, KeyOf, Indexed, SortedBy;
    forall h | 0 <= h < |tier| && h != order[k].1
      ensures Orderly(os, fs, tier, h) || Before(fs, tier, order[k].1, h)
    {
      RanksAfter(os, fs, tier, keys, order, k, h);
    }
  }

  lemma NoneIsFirst(os: Platform, fs: seq<Frontend>, tier: seq<Predicated>, keys: seq<PrecedenceKey>,
                    order: seq<(PrecedenceKey, nat)>)
    requires RankedTier(fs, tier, keys, order) && forall m :: 0 <= m < |order| ==> Orderly(os, fs, tier, order[m].1)
    ensures FirstPair(os, fs, tier, None)
  {
    hide Conflict, EntryOf, Orderly, KeyOf, SortedBy;
    forall h | 0 <= h < |tier| ensures Orderly(os, fs, tier, h) {
      assert (keys[h], h) in order;
    }
  }

  lemma KeyIds(fs: seq<Frontend>, e: Predicated)
    requires InRange(fs, e)
    ensures KeyOf(fs, e).id == e.Id()
  {
  }

  /** An entry not yet visited ranks after the one at position `k`. */
  lemma RanksAfter(os: Platform, fs: seq<Frontend>, tier: seq<Predicated>, keys: seq<PrecedenceKey>,
                   order: seq<(PrecedenceKey, nat)>, k: nat, h: nat)
    requires RankedTier(fs, tier, keys, order) && k < |order| && h < |tier|
    requires forall m :: 0 <= m < k ==> Orderly(os, fs, tier, order[m].1)
    requires h != order[k].1
    ensures Orderly(os, fs, tier, h) || Before(fs, tier, order[k].1, h)
  {
    hide Conflict, EntryOf, KeyOf, Orderly, CompareKeys;
    var m :| 0 <= m < |order| && order[m] == (keys[h], h);
    if m >= k {
      assert m > k;
      assert KeyFirst(First(order[k]), First(order[m]));
      assert tier[h].Id() != tier[order[k].1].Id();
      KeyIds(fs, tier[h]);
      KeyIds(fs, tier[order[k].1]);
      CompareKeysReverse(keys[order[k].1], keys[h]);
    }
  }
}
