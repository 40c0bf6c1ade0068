/** Orders, sorting and small sequence helpers shared by the other modules. */
module Base {

  datatype Option<+T> = None | Some(value: T)

  /** The outcome of a comparison, as the source's `std::cmp::Ordering`. */
  datatype Ordering = Less | Equal | Greater {
    function Then(next: Ordering): Ordering {
      if Equal? then next else this
    }

    function Reverse(): Ordering {
      match this
      case Less => Greater
      case Equal => Equal
      case Greater => Less
    }
  }

  function CompareInt(a: int, b: int): Ordering {
    if a < b then Less else if a == b then Equal else Greater
  }

  /** `false` sorts before `true`. */
  function CompareBool(a: bool, b: bool): Ordering {
    if a == b then Equal else if a then Greater else Less
  }

  /** Lexicographic comparison, as the source compares strings. */
  function CompareString(a: string, b: string): Ordering {
    if a == [] then (if b == [] then Equal else Less)
    else if b == [] then Greater
    else CompareInt(a[0] as int, b[0] as int).Then(CompareString(a[1..], b[1..]))
  }

  predicate StringLe(a: string, b: string) {
    CompareString(a, b) != Greater
  }

  lemma {:induction false} CompareStringEqual(a: string, b: string)
    ensures CompareString(a, b).Equal? <==> a == b
  {
    if a != [] && b != [] {
      CompareStringEqual(a[1..], b[1..]);
      assert a == [a[0]] + a[1..] && b == [b[0]] + b[1..];
    }
  }

  lemma {:induction false} CompareStringReverse(a: string, b: string)
    ensures CompareString(b, a) == CompareString(a, b).Reverse()
  {
    if a != [] && b != [] {
      CompareStringReverse(a[1..], b[1..]);
    }
  }

  lemma {:induction false} CompareStringTransitive(a: string, b: string, c: string)
    requires StringLe(a, b) && StringLe(b, c)
    ensures StringLe(a, c)
    ensures CompareString(a, b).Less? || CompareString(b, c).Less? ==> CompareString(a, c).Less?
  {
    if a != [] && b != [] && c != [] && a[0] == b[0] == c[0] {
      CompareStringTransitive(a[1..], b[1..], c[1..]);
    }
  }

  /** `a` comes before `b`: they agree up to `k`, where `a` ends or has the smaller character. */
  predicate EarlierAt(a: string, b: string, k: nat) {
    k <= |a| && k < |b| && a[..k] == b[..k] && (k == |a| || a[k] < b[k])
  }

  ghost predicate Earlier(a: string, b: string) {
    exists k: nat :: EarlierAt(a, b, k)
  }

  /** The comparison is the order of strings: by the first difference, a proper prefix first. */
  lemma {:induction false} CompareStringIsOrder(a: string, b: string)
    ensures CompareString(a, b).Less? <==> Earlier(a, b)
  {
    if a == [] {
      assert b != [] ==> EarlierAt(a, b, 0);
    } else if b != [] {
      CompareStringIsOrder(a[1..], b[1..]);
      if a[0] == b[0] && Earlier(a[1..], b[1..]) {
        var k: nat :| EarlierAt(a[1..], b[1..], k);
        assert a[..k + 1] == [a[0]] + a[1..][..k] && b[..k + 1] == [b[0]] + b[1..][..k];
        assert EarlierAt(a, b, k + 1);
      }
      if k: nat :| EarlierAt(a, b, k) {
        if k > 0 {
          assert a[..k][0] == a[0] && b[..k][0] == b[0];
          assert a[1..][..k - 1] == a[..k][1..] && b[1..][..k - 1] == b[..k][1..];
          assert EarlierAt(a[1..], b[1..], k - 1);
        }
      } else if a[0] < b[0] {
        assert EarlierAt(a, b, 0);
      }
    }
  }

  ghost predicate TotalOrder<K(!new)>(le: (K, K) -> bool) {
    && (forall a, b :: le(a, b) || le(b, a))
    && (forall a, b :: le(a, b) && le(b, a) ==> a == b)
    && (forall a, b, c :: le(a, b) && le(b, c) ==> le(a, c))
  }

  // ---- stable sorting by a key -------------------------------------------

  /** The elements of `s` with key `k`, in order. */
  function OfKey<T, K(==)>(key: T -> K, k: K, s: seq<T>): seq<T> {
    if s == [] then []
    else (if key(s[0]) == k then [s[0]] else []) + OfKey(key, k, s[1..])
  }

  ghost predicate SortedBy<T, K>(key: T -> K, le: (K, K) -> bool, s: seq<T>) {
    forall i, j :: 0 <= i < j < |s| ==> le(key(s[i]), key(s[j]))
  }

  function InsertBy<T, K>(key: T -> K, le: (K, K) -> bool, x: T, s: seq<T>): seq<T> {
    if s == [] then [x]
    else if le(key(x), key(s[0])) then [x] + s
    else [s[0]] + InsertBy(key, le, x, s[1..])
  }

  /** The stable sort of `s`: the source's library sorts, specified. */
  function SortBy<T, K>(key: T -> K, le: (K, K) -> bool, s: seq<T>): seq<T> {
    if s == [] then [] else InsertBy(key, le, s[0], SortBy(key, le, s[1..]))
  }

  lemma {:induction false} InsertContents<T, K>(key: T -> K, le: (K, K) -> bool, x: T, s: seq<T>)
    ensures multiset(InsertBy(key, le, x, s)) == multiset(s) + multiset{x}
    ensures |InsertBy(key, le, x, s)| == |s| + 1
  {
    if s != [] {
      InsertContents(key, le, x, s[1..]);
      assert s == [s[0]] + s[1..];
    }
  }

  lemma {:induction false} SortContents<T, K>(key: T -> K, le: (K, K) -> bool, s: seq<T>)
    ensures multiset(SortBy(key, le, s)) == multiset(s)
    ensures |SortBy(key, le, s)| == |s|
  {
    if s != [] {
      SortContents(key, le, s[1..]);
      InsertContents(key, le, s[0], SortBy(key, le, s[1..]));
      assert s == [s[0]] + s[1..];
    }
  }

  lemma {:induction false} InsertSorted<T, K(!new)>(key: T -> K, le: (K, K) -> bool, x: T, s: seq<T>)
    requires TotalOrder(le) && SortedBy(key, le, s)
    ensures SortedBy(key, le, InsertBy(key, le, x, s))
  {
    if s != [] && !le(key(x), key(s[0])) {
      var rest := InsertBy(key, le, x, s[1..]);
      InsertSorted(key, le, x, s[1..]);
      forall j | 0 <= j < |rest| ensures le(key(s[0]), key(rest[j])) {
        InsertContents(key, le, x, s[1..]);
        assert rest[j] in multiset(rest);
        assert rest[j] == x || rest[j] in s[1..];
      }
    }
  }

  lemma {:induction false} SortSorted<T, K(!new)>(key: T -> K, le: (K, K) -> bool, s: seq<T>)
    requires TotalOrder(le)
    ensures SortedBy(key, le, SortBy(key, le, s))
  {
    if s != [] {
      SortSorted(key, le, s[1..]);
      InsertSorted(key, le, s[0], SortBy(key, le, s[1..]));
    }
  }

  lemma {:induction false} OfKeyAppend<T, K>(key: T -> K, k: K, a: seq<T>, b: seq<T>)
    ensures OfKey(key, k, a + b) == OfKey(key, k, a) + OfKey(key, k, b)
  {
    if a == [] {
      assert a + b == b;
    } else {
      OfKeyAppend(key, k, a[1..], b);
      assert (a + b)[1..] == a[1..] + b;
    }
  }

  lemma OfKeySnoc<T, K>(key: T -> K, k: K, s: seq<T>, x: T)
    ensures OfKey(key, k, s + [x]) == OfKey(key, k, s) + if key(x) == k then [x] else []
  {
    var one := [x];
    assert one[0] == x && one[1..] == [];
    assert OfKey(key, k, one) == (if key(x) == k then [x] else []) + OfKey(key, k, one[1..]);
    OfKeyAppend(key, k, s, one);
  }

  lemma OfKeyCons<T, K>(key: T -> K, k: K, x: T, s: seq<T>)
    ensures OfKey(key, k, [x] + s) == (if key(x) == k then [x] else []) + OfKey(key, k, s)
  {
    assert ([x] + s)[1..] == s;
  }

  lemma Apart<K(!new)>(le: (K, K) -> bool, a: K, b: K)
    requires TotalOrder(le) && !le(a, b)
    ensures a != b
  {
  }

  /** Elements of different keys change places without any key noticing. */
  lemma PastAnotherKey<T, K>(key: T -> K, k: K, x: T, y: T, inserted: seq<T>, rest: seq<T>)
    requires key(x) != key(y) && OfKey(key, k, inserted) == OfKey(key, k, [x] + rest)
    ensures OfKey(key, k, [y] + inserted) == OfKey(key, k, [x] + ([y] + rest))
  {
    hide OfKey;
    OfKeyCons(key, k, y, inserted);
    OfKeyCons(key, k, x, rest);
    OfKeyCons(key, k, x, [y] + rest);
    OfKeyCons(key, k, y, rest);
  }

  lemma {:induction false} InsertStable<T, K(!new)>(key: T -> K, le: (K, K) -> bool, x: T, s: seq<T>, k: K)
    requires TotalOrder(le)
    ensures OfKey(key, k, InsertBy(key, le, x, s)) == OfKey(key, k, [x] + s)
  {
    hide OfKey, TotalOrder;
    if s == [] {
      assert [x] + s == [x];
    } else if !le(key(x), key(s[0])) {
      InsertStable(key, le, x, s[1..], k);
      Apart(le, key(x), key(s[0]));
      PastAnotherKey(key, k, x, s[0], InsertBy(key, le, x, s[1..]), s[1..]);
      assert s == [s[0]] + s[1..];
    }
  }

  lemma {:induction false} SortStable<T, K(!new)>(key: T -> K, le: (K, K) -> bool, s: seq<T>, k: K)
    requires TotalOrder(le)
    ensures OfKey(key, k, SortBy(key, le, s)) == OfKey(key, k, s)
  {
    if s != [] {
      var rest := SortBy(key, le, s[1..]);
      SortStable(key, le, s[1..], k);
      InsertStable(key, le, s[0], rest, k);
      assert ([s[0]] + rest)[1..] == rest;
    }
  }

  lemma {:induction false} OfKeyMember<T, K>(key: T -> K, k: K, s: seq<T>, x: T)
    ensures x in OfKey(key, k, s) <==> x in s && key(x) == k
  {
    if s != [] {
      OfKeyMember(key, k, s[1..], x);
      assert x in s <==> x == s[0] || x in s[1..];
    }
  }

  lemma {:induction false} OfKeyAll<T, K>(key: T -> K, k: K, s: seq<T>)
    requires forall x :: x in s ==> key(x) == k
    ensures OfKey(key, k, s) == s
  {
    if s != [] {
      OfKeyAll(key, k, s[1..]);
    }
  }

  lemma {:induction false} OfKeyNone<T, K>(key: T -> K, k: K, s: seq<T>)
    requires forall x :: x in s ==> key(x) != k
    ensures OfKey(key, k, s) == []
  {
    if s != [] {
      OfKeyNone(key, k, s[1..]);
    }
  }

  /** A sorted sequence is determined by what it holds under each key. */
  lemma {:induction false} SortedDetermined<T, K(!new)>(key: T -> K, le: (K, K) -> bool, x: seq<T>, y: seq<T>)
    requires TotalOrder(le) && SortedBy(key, le, x) && SortedBy(key, le, y)
    requires forall k :: OfKey(key, k, x) == OfKey(key, k, y)
    ensures x == y
  {
    if x != [] {
      assert x[0] in OfKey(key, key(x[0]), x);
      OfKeyMember(key, key(x[0]), y, x[0]);
      assert y[0] in OfKey(key, key(y[0]), y);
      OfKeyMember(key, key(y[0]), x, y[0]);
      assert le(key(y[0]), key(x[0])) && le(key(x[0]), key(y[0]));
      assert OfKey(key, key(x[0]), x)[0] == x[0] && OfKey(key, key(x[0]), y)[0] == y[0];
      forall k ensures OfKey(key, k, x[1..]) == OfKey(key, k, y[1..]) {
        assert OfKey(key, k, x) == OfKey(key, k, y);
        if key(x[0]) == k {
          assert OfKey(key, k, x)[1..] == OfKey(key, k, x[1..]);
          assert OfKey(key, k, y)[1..] == OfKey(key, k, y[1..]);
        } else {
          assert OfKey(key, k, x) == OfKey(key, k, x[1..]);
          assert OfKey(key, k, y) == OfKey(key, k, y[1..]);
        }
      }
      SortedDetermined(key, le, x[1..], y[1..]);
    }
  }

  /** Sorting sees only, for each key, the elements carrying it and their order. */
  lemma SortDetermined<T, K(!new)>(key: T -> K, le: (K, K) -> bool, x: seq<T>, y: seq<T>)
    requires TotalOrder(le)
    requires forall k :: OfKey(key, k, x) == OfKey(key, k, y)
    ensures SortBy(key, le, x) == SortBy(key, le, y)
  {
    var a, b := SortBy(key, le, x), SortBy(key, le, y);
    SortSorted(key, le, x);
    SortSorted(key, le, y);
    forall k ensures OfKey(key, k, a) == OfKey(key, k, b) {
      SortStable(key, le, x, k);
      SortStable(key, le, y, k);
    }
    SortedDetermined(key, le, a, b);
  }

  /** Sorting a sorted sequence changes nothing. */
  lemma SortOfSorted<T, K(!new)>(key: T -> K, le: (K, K) -> bool, s: seq<T>)
    requires TotalOrder(le) && SortedBy(key, le, s)
    ensures SortBy(key, le, s) == s
  {
    SortSorted(key, le, s);
    forall k ensures OfKey(key, k, SortBy(key, le, s)) == OfKey(key, k, s) {
      SortStable(key, le, s, k);
    }
    SortedDetermined(key, le, SortBy(key, le, s), s);
  }

  /** Drops consecutive repeats, as `Vec::dedup`. */
  function Dedup<T(==)>(s: seq<T>): seq<T> {
    if |s| < 2 then s
    else if s[0] == s[1] then Dedup(s[1..])
    else [s[0]] + Dedup(s[1..])
  }

  function Itself<T>(x: T): T { x }

  lemma Twice<T>(s: seq<T>, i: nat, j: nat)
    requires i < j < |s| && s[i] == s[j]
    ensures multiset(s)[s[i]] >= 2
  {
    assert s == s[..j] + s[j..];
    assert s[i] in s[..j] && s[i] in s[j..] by {
      assert s[..j][i] == s[i] && s[j..][0] == s[j];
    }
    assert s[i] in multiset(s[..j]) && s[i] in multiset(s[j..]);
  }

  lemma Associate<T>(a: seq<T>, b: seq<T>, c: seq<T>)
    ensures a + (b + c) == a + b + c
  {
  }

  // ---- filtering ------------------------------------------------------------

  /** The elements of `s` that satisfy `p`, in order. */
  function Filter<T>(p: T -> bool, s: seq<T>): (r: seq<T>)
    ensures forall x :: x in r ==> x in s && p(x)
    ensures forall x :: x in s && p(x) ==> x in r
    ensures forall i :: 0 <= i < |r| ==> r[i] in s && p(r[i])
  {
    if s == [] then []
    else if p(s[0]) then [s[0]] + Filter(p, s[1..])
    else Filter(p, s[1..])
  }

  lemma {:induction false} FilterSame<T>(p: T -> bool, q: T -> bool, s: seq<T>)
    requires forall x :: x in s ==> p(x) == q(x)
    ensures Filter(p, s) == Filter(q, s)
  {
    if s != [] {
      FilterSame(p, q, s[1..]);
    }
  }
}
