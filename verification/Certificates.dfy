/** Who serves a contested SNI name, and one entry per certificate at each listener. */
module Certificates {
  import opened Base
  import opened Frontends
  import opened Collisions
  import opened Planning

  /** Everything but the leaf's identity: chain, key and encoding. */
  datatype Material = Material(chain: seq<string>, key: string, leaf: string)

  /** A loaded certificate: its listener, leaf fingerprint, SNI names and material, who asked for it
      (an object, and the Gateway listener it was asked for), and the Secret it was read from. */
  datatype Claimed = Claimed(
    listener: Listener, fingerprint: string, names: seq<string>, material: Material,
    owner: Owner, section: Option<string>, secret: string)

  type NameKey = (Listener, string)

  /** A lost name: its spelling, and the kind and name of the object that keeps it. */
  datatype LostName = LostName(name: string, ownerKind: nat, owner: string)

  function KeyOfName(c: Claimed, name: string): NameKey {
    (c.listener, Lower(name))
  }

  function KeysOf(c: Claimed): set<NameKey> {
    set name | name in c.names :: KeyOfName(c, name)
  }

  /** Claim first; the object's identity breaks a tie between two kinds. */
  function CompareOwners(claims: Claims, a: Owner, b: Owner): Ordering {
    CompareClaim(ClaimFor(claims, a), ClaimFor(claims, b))
    .Then(CompareInt(a.kind, b.kind))
    .Then(CompareString(a.namespace, b.namespace))
    .Then(CompareString(a.name, b.name))
  }

  predicate Older(claims: Claims, a: Owner, b: Owner) {
    CompareOwners(claims, a, b).Less?
  }

  lemma CompareOwnersLaws(claims: Claims, a: Owner, b: Owner)
    ensures CompareOwners(claims, a, b).Equal? <==> a == b
    ensures CompareOwners(claims, b, a) == CompareOwners(claims, a, b).Reverse()
  {
    CompareClaimLaws(ClaimFor(claims, a), ClaimFor(claims, b));
    CompareStringEqual(a.namespace, b.namespace);
    CompareStringEqual(a.name, b.name);
    CompareStringReverse(a.namespace, b.namespace);
    CompareStringReverse(a.name, b.name);
  }

  lemma OlderTransitive(claims: Claims, a: Owner, b: Owner, c: Owner)
    requires !Older(claims, b, a) && !Older(claims, c, b)
    ensures !Older(claims, c, a)
  {
    var x, y, z := ClaimFor(claims, a), ClaimFor(claims, b), ClaimFor(claims, c);
    CompareOwnersLaws(claims, a, b);
    CompareOwnersLaws(claims, b, c);
    CompareOwnersLaws(claims, a, c);
    CompareClaimLaws(x, y);
    CompareClaimLaws(y, z);
    CompareClaimLaws(x, z);
    hide CompareClaim, ClaimFor;
    assert ClaimLe(x, y) && ClaimLe(y, z);
    ClaimLeTransitive(x, y, z);
    if x == y == z && a.kind == b.kind == c.kind {
      CompareStringEqual(a.namespace, b.namespace);
      CompareStringEqual(b.namespace, c.namespace);
      CompareStringEqual(a.namespace, c.namespace);
      CompareStringTransitive(a.namespace, b.namespace, c.namespace);
      if a.namespace == b.namespace == c.namespace {
        CompareStringTransitive(a.name, b.name, c.name);
      }
    }
  }

  // ---- what arbitration decides ----------------------------------------------------------------

  /** `o` is the oldest claimant of `k`. */
  ghost predicate OldestFor(claims: Claims, certs: seq<Claimed>, k: NameKey, o: Owner) {
    && (exists c :: c in certs && k in KeysOf(c) && c.owner == o)
    && (forall c :: c in certs && k in KeysOf(c) ==> !Older(claims, c.owner, o))
  }

  /** The oldest claimant of `k` loaded the leaf `fingerprint` for it. */
  ghost predicate Keeps(claims: Claims, certs: seq<Claimed>, k: NameKey, fingerprint: string) {
    exists c :: c in certs && k in KeysOf(c) && c.fingerprint == fingerprint && OldestFor(claims, certs, k, c.owner)
  }

  /** A certificate after arbitration: the claimed one with the names it keeps. */
  ghost predicate Stripped(claims: Claims, certs: seq<Claimed>, c: Claimed, kept: Claimed) {
    kept == c.(names := Filter((name: string) => Keeps(claims, certs, KeyOfName(c, name), c.fingerprint), c.names))
  }

  /** What is reported on one object for one certificate it asked for. */
  type ReportKey = (Owner, Option<string>, string)

  function ReportKeyOf(c: Claimed): ReportKey {
    (c.owner, c.section, c.secret)
  }

  ghost predicate Loses(claims: Claims, certs: seq<Claimed>, c: Claimed, lost: LostName) {
    && lost.name in c.names && !Keeps(claims, certs, KeyOfName(c, lost.name), c.fingerprint)
    && exists o :: OldestFor(claims, certs, KeyOfName(c, lost.name), o) &&
                   lost.ownerKind == o.kind && lost.owner == ClaimFor(claims, o).name
  }

  ghost predicate Reports(claims: Claims, certs: seq<Claimed>, lost: map<ReportKey, set<LostName>>) {
    && (forall r, l :: r in lost && l in lost[r] ==>
          exists c :: c in certs && ReportKeyOf(c) == r && Loses(claims, certs, c, l))
    && (forall c, l :: c in certs && Loses(claims, certs, c, l) ==> ReportKeyOf(c) in lost && l in lost[ReportKeyOf(c)])
    && (forall r :: r in lost ==> lost[r] != {})
  }

  // ---- the passes ------------------------------------------------------------------------------------

  /** The claims looked at once the first `i` certificates and `n` names of the next are: each as the
      certificate's index and the name's key. */
  ghost function Seen(certs: seq<Claimed>, i: nat, n: nat): set<(nat, NameKey)>
    requires i <= |certs| && (n > 0 ==> i < |certs| && n <= |certs[i].names|)
  {
    (set j, k | 0 <= j < i && k in KeysOf(certs[j]) :: (j, k))
    + set m | 0 <= m < n :: (i, KeyOfName(certs[i], certs[i].names[m]))
  }

  lemma SeenNext(certs: seq<Claimed>, i: nat, n: nat)
    requires i < |certs| && n < |certs[i].names|
    ensures Seen(certs, i, n + 1) == Seen(certs, i, n) + {(i, KeyOfName(certs[i], certs[i].names[n]))}
  {
    hide KeyOfName;
    assert Seen(certs, i, n + 1) == Seen(certs, i, n) + {(i, KeyOfName(certs[i], certs[i].names[n]))};
  }

  lemma SeenAll(certs: seq<Claimed>, i: nat)
    requires i < |certs|
    ensures Seen(certs, i, |certs[i].names|) == Seen(certs, i + 1, 0)
  {
    hide KeyOfName;
    var c := certs[i];
    forall p | p in Seen(certs, i + 1, 0) ensures p in Seen(certs, i, |c.names|) {
      if p.0 == i {
        var name :| name in c.names && KeyOfName(c, name) == p.1;
        var m :| 0 <= m < |c.names| && c.names[m] == name;
      }
    }
  }

  ghost predicate WinnersOver(claims: Claims, certs: seq<Claimed>, seen: set<(nat, NameKey)>,
                              winners: map<NameKey, nat>) {
    && (forall k :: k in winners ==> winners[k] < |certs| && (winners[k], k) in seen)
    && (forall p :: p in seen ==> p.0 < |certs| && p.1 in winners &&
                                  !Older(claims, certs[p.0].owner, certs[winners[p.1]].owner))
  }

  lemma OneMoreClaim(claims: Claims, certs: seq<Claimed>, seen: set<(nat, NameKey)>, winners: map<NameKey, nat>, i: nat,
                     k: NameKey)
    requires i < |certs| && WinnersOver(claims, certs, seen, winners)
    ensures WinnersOver(claims, certs, seen + {(i, k)},
                        if k !in winners || Older(claims, certs[i].owner, certs[winners[k]].owner) then winners[k := i]
                            else winners)
  {
    hide CompareOwners;
    CompareOwnersLaws(claims, certs[i].owner, certs[i].owner);
    if k in winners && Older(claims, certs[i].owner, certs[winners[k]].owner) {
      CompareOwnersLaws(claims, certs[i].owner, certs[winners[k]].owner);
      forall p | p in seen && p.1 == k ensures !Older(claims, certs[p.0].owner, certs[i].owner) {
        OlderTransitive(claims, certs[i].owner, certs[winners[k]].owner, certs[p.0].owner);
      }
    }
  }

  /** The oldest claimant of every name, as one of its certificates. */
  method FindWinners(claims: Claims, certs: seq<Claimed>) returns (winners: map<NameKey, nat>)
    ensures WinnersOver(claims, certs, Seen(certs, |certs|, 0), winners)
  {
    hide CompareOwners, KeyOfName, Seen, WinnersOver;
    winners := map[];
    NothingSeen(claims, certs);
    for i := 0 to |certs|
      invariant WinnersOver(claims, certs, Seen(certs, i, 0), winners)
    {
      var c := certs[i];
      for n := 0 to |c.names|
        invariant WinnersOver(claims, certs, Seen(certs, i, n), winners)
      {
        var k := KeyOfName(c, c.names[n]);
        OneMoreClaim(claims, certs, Seen(certs, i, n), winners, i, k);
        SeenNext(certs, i, n);
        WinnersInRange(claims, certs, Seen(certs, i, n), winners);
        if k !in winners || Older(claims, c.owner, certs[winners[k]].owner) {
          winners := winners[k := i];
        }
      }
      SeenAll(certs, i);
    }
  }

  lemma NothingSeen(claims: Claims, certs: seq<Claimed>)
    ensures Seen(certs, 0, 0) == {} && WinnersOver(claims, certs, {}, map[])
  {
  }

  lemma WinnersInRange(claims: Claims, certs: seq<Claimed>, seen: set<(nat, NameKey)>, winners: map<NameKey, nat>)
    requires WinnersOver(claims, certs, seen, winners)
    ensures forall k :: k in winners ==> winners[k] < |certs|
    ensures forall p :: p in seen ==> p.0 < |certs| && p.1 in winners
  {
  }

  /** The winner of a key is its oldest claimant. */
  lemma WinnerIsOldest(claims: Claims, certs: seq<Claimed>, winners: map<NameKey, nat>, k: NameKey, o: Owner)
    requires WinnersOver(claims, certs, Seen(certs, |certs|, 0), winners)
    ensures k in winners <==> exists c :: c in certs && k in KeysOf(c)
    ensures k in winners ==> winners[k] < |certs| && (OldestFor(claims, certs, k, o) <==> certs[winners[k]].owner == o)
  {
    hide CompareOwners, KeysOf;
    var seen := Seen(certs, |certs|, 0);
    forall c | c in certs && k in KeysOf(c)
      ensures k in winners && !Older(claims, c.owner, certs[winners[k]].owner)
    {
      var j :| 0 <= j < |certs| && certs[j] == c;
      assert (j, k) in seen;
    }
    if k in winners {
      var w := certs[winners[k]];
      assert w in certs && k in KeysOf(w);
      if OldestFor(claims, certs, k, o) {
        CompareOwnersLaws(claims, o, w.owner);
      }
    }
  }

  /** The leaves each name's owner loaded for it. */
  ghost function WinningOver(certs: seq<Claimed>, winners: map<NameKey, nat>,
                             seen: set<(nat, NameKey)>): set<(NameKey, string)> {
    set p | p in seen && p.0 < |certs| && p.1 in winners && winners[p.1] < |certs| &&
            certs[winners[p.1]].owner == certs[p.0].owner :: (p.1, certs[p.0].fingerprint)
  }

  method FindWinning(claims: Claims, certs: seq<Claimed>, winners: map<NameKey, nat>)
      returns (winning: set<(NameKey, string)>)
    requires WinnersOver(claims, certs, Seen(certs, |certs|, 0), winners)
    ensures winning == WinningOver(certs, winners, Seen(certs, |certs|, 0))
  {
    hide CompareOwners, KeyOfName, Seen, WinnersOver;
    WinnersInRange(claims, certs, Seen(certs, |certs|, 0), winners);
    NothingSeen(claims, certs);
    winning := {};
    for i := 0 to |certs|
      invariant winning == WinningOver(certs, winners, Seen(certs, i, 0))
    {
      var c := certs[i];
      for n := 0 to |c.names|
        invariant winning == WinningOver(certs, winners, Seen(certs, i, n))
      {
        var k := KeyOfName(c, c.names[n]);
        SeenNext(certs, i, n);
        assert WinningOver(certs, winners, Seen(certs, i, n + 1)) ==
               winning + if k in winners && certs[winners[k]].owner == c.owner then {(k, c.fingerprint)} else {};
        if k in winners && certs[winners[k]].owner == c.owner {
          winning := winning + {(k, c.fingerprint)};
        }
      }
      SeenAll(certs, i);
    }
  }

  /** A leaf is winning for a name exactly when the name's oldest claimant loaded it for that name. */
  lemma WinningIsKeeps(claims: Claims, certs: seq<Claimed>, winners: map<NameKey, nat>, k: NameKey, fingerprint: string)
    requires WinnersOver(claims, certs, Seen(certs, |certs|, 0), winners)
    ensures (k, fingerprint) in WinningOver(certs, winners, Seen(certs, |certs|, 0)) <==>
        Keeps(claims, certs, k, fingerprint)
  {
    hide CompareOwners, KeysOf, OldestFor, WinnersOver;
    WinnersInRange(claims, certs, Seen(certs, |certs|, 0), winners);
    if c :| c in certs && k in KeysOf(c) && c.fingerprint == fingerprint && OldestFor(claims, certs, k, c.owner) {
      WinnerIsOldest(claims, certs, winners, k, c.owner);
      var j :| 0 <= j < |certs| && certs[j] == c;
      assert (j, k) in Seen(certs, |certs|, 0);
    }
    if (k, fingerprint) in WinningOver(certs, winners, Seen(certs, |certs|, 0)) {
      var p :| p in Seen(certs, |certs|, 0) && p.0 < |certs| && p.1 == k && k in winners &&
               certs[winners[k]].owner == certs[p.0].owner && certs[p.0].fingerprint == fingerprint;
      WinnerIsOldest(claims, certs, winners, k, certs[p.0].owner);
      assert certs[p.0] in certs;
    }
  }

  /** The names of `c` lost, each with the object that keeps it. */
  ghost function LostBy(claims: Claims, certs: seq<Claimed>, winners: map<NameKey, nat>,
                        winning: set<(NameKey, string)>, c: Claimed, n: nat): set<LostName>
    requires n <= |c.names| && forall k :: k in winners ==> winners[k] < |certs|
  {
    set m | 0 <= m < n && KeyOfName(c, c.names[m]) in winners
        && (KeyOfName(c, c.names[m]), c.fingerprint) !in winning ::
      LostFor(claims, c.names[m], certs[winners[KeyOfName(c, c.names[m])]].owner)
  }

  function LostFor(claims: Claims, name: string, owner: Owner): LostName {
    LostName(name, owner.kind, ClaimFor(claims, owner).name)
  }

  /** The names one certificate keeps and those it loses. */
  method SplitNames(claims: Claims, certs: seq<Claimed>, winners: map<NameKey, nat>, winning: set<(NameKey, string)>,
                    c: Claimed)
      returns (names: seq<string>, lost: set<LostName>)
    requires forall k :: k in winners ==> winners[k] < |certs|
    requires forall k :: k in KeysOf(c) ==> k in winners
    ensures names == Filter((name: string) => (KeyOfName(c, name), c.fingerprint) in winning, c.names)
    ensures lost == LostBy(claims, certs, winners, winning, c, |c.names|)
  {
    hide KeyOfName, ClaimFor;
    names, lost := [], {};
    for n := 0 to |c.names|
      invariant names == Filter((name: string) => (KeyOfName(c, name), c.fingerprint) in winning, c.names[..n])
      invariant lost == LostBy(claims, certs, winners, winning, c, n)
    {
      var name := c.names[n];
      var k := KeyOfName(c, name);
      assert c.names[..n + 1] == c.names[..n] + [name];
      FilterSnoc((name: string) => (KeyOfName(c, name), c.fingerprint) in winning, c.names[..n], name);
      LostNext(claims, certs, winners, winning, c, n);
      if k !in winners {
        assert k in KeysOf(c);
        names := names + [name];
      } else if (k, c.fingerprint) in winning {
        names := names + [name];
      } else {
        lost := lost + {LostFor(claims, name, certs[winners[k]].owner)};
      }
    }
    assert c.names[..|c.names|] == c.names;
  }

  lemma LostNext(claims: Claims, certs: seq<Claimed>, winners: map<NameKey, nat>, winning: set<(NameKey, string)>,
                 c: Claimed, n: nat)
    requires n < |c.names| && forall k :: k in winners ==> winners[k] < |certs|
    ensures var k := KeyOfName(c, c.names[n]);
            LostBy(claims, certs, winners, winning, c, n + 1) ==
            LostBy(claims, certs, winners, winning, c, n) +
            if k in winners && (k, c.fingerprint) !in winning
                then {LostFor(claims, c.names[n], certs[winners[k]].owner)} else {}
  {
    hide KeyOfName, LostFor;
  }

  /** What the names lost say, once per object and certificate it asked for. */
  ghost predicate ReportsUpTo(claims: Claims, certs: seq<Claimed>, winners: map<NameKey, nat>,
                              winning: set<(NameKey, string)>, n: nat, lost: map<ReportKey, set<LostName>>)
    requires n <= |certs| && forall k :: k in winners ==> winners[k] < |certs|
  {
    && (forall r :: r in lost ==> lost[r] != {})
    && (forall r, l :: r in lost && l in lost[r] ==>
          exists i :: 0 <= i < n && ReportKeyOf(certs[i]) == r &&
                      l in LostBy(claims, certs, winners, winning, certs[i], |certs[i].names|))
    && (forall i, l :: 0 <= i < n && l in LostBy(claims, certs, winners, winning, certs[i], |certs[i].names|) ==>
          ReportKeyOf(certs[i]) in lost && l in lost[ReportKeyOf(certs[i])])
  }

  /** Gives every SNI name at a listener to its oldest claimant: the certificates with the names they
      keep, and what each object lost per certificate it asked for. */
  method ArbitrateCertificateNames(claims: Claims, certs: seq<Claimed>)
      returns (kept: seq<Claimed>, lost: map<ReportKey, set<LostName>>)
    ensures |kept| == |certs| && forall i :: 0 <= i < |certs| ==> Stripped(claims, certs, certs[i], kept[i])
    ensures Reports(claims, certs, lost)
  {
    hide CompareOwners, KeyOfName, Seen, WinnersOver, WinningOver, LostBy, Keeps, Reports, Stripped, ReportsUpTo;
    var winners := FindWinners(claims, certs);
    var winning := FindWinning(claims, certs, winners);
    WinnersInRange(claims, certs, Seen(certs, |certs|, 0), winners);
    kept, lost := [], map[];
    NothingReportedYet(claims, certs, winners, winning);
    for n := 0 to |certs|
      invariant |kept| == n && forall i :: 0 <= i < n ==> Stripped(claims, certs, certs[i], kept[i])
      invariant ReportsUpTo(claims, certs, winners, winning, n, lost)
    {
      var c := certs[n];
      forall k | k in KeysOf(c) ensures k in winners {
        WinnerIsOldest(claims, certs, winners, k, c.owner);
      }
      var names, gone := SplitNames(claims, certs, winners, winning, c);
      var after := if gone == {} then lost
                   else lost[ReportKeyOf(c) := (if ReportKeyOf(c) in lost then lost[ReportKeyOf(c)] else {}) + gone];
      ReportsNext(claims, certs, winners, winning, n, lost, gone);
      lost := after;
      WinningStrips(claims, certs, winners, winning, c, names);
      kept := kept + [c.(names := names)];
    }
    ReportsDone(claims, certs, winners, winning, lost);
  }

  lemma NothingReportedYet(claims: Claims, certs: seq<Claimed>, winners: map<NameKey, nat>,
                           winning: set<(NameKey, string)>)
    requires forall k :: k in winners ==> winners[k] < |certs|
    ensures ReportsUpTo(claims, certs, winners, winning, 0, map[])
  {
  }

  lemma WinningStrips(claims: Claims, certs: seq<Claimed>, winners: map<NameKey, nat>, winning: set<(NameKey, string)>,
                      c: Claimed, names: seq<string>)
    requires WinnersOver(claims, certs, Seen(certs, |certs|, 0), winners)
    requires winning == WinningOver(certs, winners, Seen(certs, |certs|, 0))
    requires names == Filter((name: string) => (KeyOfName(c, name), c.fingerprint) in winning, c.names)
    ensures Stripped(claims, certs, c, c.(names := names))
  {
    hide KeyOfName, Seen, WinnersOver, WinningOver, Keeps;
    forall name ensures (KeyOfName(c, name), c.fingerprint) in winning <==>
        Keeps(claims, certs, KeyOfName(c, name), c.fingerprint) {
      WinningIsKeeps(claims, certs, winners, KeyOfName(c, name), c.fingerprint);
    }
    FilterSame((name: string) => (KeyOfName(c, name), c.fingerprint) in winning,
               (name: string) => Keeps(claims, certs, KeyOfName(c, name), c.fingerprint), c.names);
  }

  lemma ReportsNext(claims: Claims, certs: seq<Claimed>, winners: map<NameKey, nat>, winning: set<(NameKey, string)>,
                    n: nat, lost: map<ReportKey, set<LostName>>, gone: set<LostName>)
    requires n < |certs| && (forall k :: k in winners ==> winners[k] < |certs|)
    requires ReportsUpTo(claims, certs, winners, winning, n, lost)
    requires gone == LostBy(claims, certs, winners, winning, certs[n], |certs[n].names|)
    ensures ReportsUpTo(claims, certs, winners, winning, n + 1,
                        if gone == {} then lost
                        else lost[ReportKeyOf(certs[n]) := (if ReportKeyOf(certs[n]) in lost
                                                            then lost[ReportKeyOf(certs[n])] else {}) + gone])
  {
    hide LostBy;
  }

  lemma ReportsDone(claims: Claims, certs: seq<Claimed>, winners: map<NameKey, nat>, winning: set<(NameKey, string)>,
                    lost: map<ReportKey, set<LostName>>)
    requires WinnersOver(claims, certs, Seen(certs, |certs|, 0), winners)
    requires winning == WinningOver(certs, winners, Seen(certs, |certs|, 0))
    requires (forall k :: k in winners ==> winners[k] < |certs|)
        && ReportsUpTo(claims, certs, winners, winning, |certs|, lost)
    ensures Reports(claims, certs, lost)
  {
    hide CompareOwners, Seen, WinnersOver, WinningOver, LostBy, Loses;
    forall c, l | c in certs
      ensures l in LostBy(claims, certs, winners, winning, c, |c.names|) <==> Loses(claims, certs, c, l)
    {
      LostIsLoses(claims, certs, winners, c, l);
    }
  }

  lemma LostIsLoses(claims: Claims, certs: seq<Claimed>, winners: map<NameKey, nat>, c: Claimed, l: LostName)
    requires WinnersOver(claims, certs, Seen(certs, |certs|, 0), winners) && c in certs
    requires forall k :: k in winners ==> winners[k] < |certs|
    ensures l in LostBy(claims, certs, winners, WinningOver(certs, winners, Seen(certs, |certs|, 0)), c, |c.names|) <==>
            Loses(claims, certs, c, l)
  {
    hide CompareOwners, Seen, WinnersOver, WinningOver, OldestFor, Keeps, KeyOfName, ClaimFor;
    var k := KeyOfName(c, l.name);
    WinningIsKeeps(claims, certs, winners, k, c.fingerprint);
    if l.name in c.names {
      assert k in KeysOf(c);
      WinnerIsOldest(claims, certs, winners, k, c.owner);
      WinnerIsOldest(claims, certs, winners, k, certs[winners[k]].owner);
      forall o ensures OldestFor(claims, certs, k, o) <==> certs[winners[k]].owner == o {
        WinnerIsOldest(claims, certs, winners, k, o);
      }
      var m :| 0 <= m < |c.names| && c.names[m] == l.name;
    }
  }

  // ---- merging --------------------------------------------------------------------------------------

  function CompareChain(a: seq<string>, b: seq<string>): Ordering {
    if a == [] then (if b == [] then Equal else Less)
    else if b == [] then Greater
    else CompareString(a[0], b[0]).Then(CompareChain(a[1..], b[1..]))
  }

  lemma {:induction false} CompareChainLaws(a: seq<string>, b: seq<string>)
    ensures CompareChain(a, b).Equal? <==> a == b
    ensures CompareChain(b, a) == CompareChain(a, b).Reverse()
  {
    if a != [] && b != [] {
      CompareStringEqual(a[0], b[0]);
      CompareStringReverse(a[0], b[0]);
      CompareChainLaws(a[1..], b[1..]);
      assert a == [a[0]] + a[1..] && b == [b[0]] + b[1..];
    }
  }

  lemma {:induction false} CompareChainTransitive(a: seq<string>, b: seq<string>, c: seq<string>)
    requires !CompareChain(a, b).Greater? && !CompareChain(b, c).Greater?
    ensures !CompareChain(a, c).Greater?
  {
    if a != [] && b != [] && c != [] {
      CompareStringEqual(a[0], b[0]);
      CompareStringEqual(b[0], c[0]);
      CompareStringEqual(a[0], c[0]);
      CompareStringTransitive(a[0], b[0], c[0]);
      if a[0] == b[0] == c[0] {
        CompareChainTransitive(a[1..], b[1..], c[1..]);
      }
    }
  }

  /** Longer chains are less; equal lengths are decided by chain, key and leaf in turn. */
  function CompareMaterial(a: Material, b: Material): Ordering {
    CompareInt(|b.chain|, |a.chain|)
    .Then(CompareChain(a.chain, b.chain))
    .Then(CompareString(a.key, b.key))
    .Then(CompareString(a.leaf, b.leaf))
  }

  predicate ServedFirst(candidate: Material, current: Material) {
    CompareMaterial(candidate, current).Less?
  }

  lemma CompareMaterialLaws(a: Material, b: Material)
    ensures CompareMaterial(a, b).Equal? <==> a == b
    ensures CompareMaterial(b, a) == CompareMaterial(a, b).Reverse()
  {
    CompareChainLaws(a.chain, b.chain);
    CompareStringEqual(a.key, b.key);
    CompareStringEqual(a.leaf, b.leaf);
    CompareStringReverse(a.key, b.key);
    CompareStringReverse(a.leaf, b.leaf);
  }

  lemma ServedFirstTransitive(a: Material, b: Material, c: Material)
    requires !ServedFirst(b, a) && !ServedFirst(c, b)
    ensures !ServedFirst(c, a)
  {
    CompareMaterialLaws(a, b);
    CompareMaterialLaws(b, c);
    CompareMaterialLaws(a, c);
    ChainLeIsTransitive(a, b, c);
    CompareStringEqual(a.key, b.key);
    CompareStringEqual(b.key, c.key);
    CompareStringEqual(a.key, c.key);
    if |a.chain| == |b.chain| == |c.chain| && a.chain == b.chain == c.chain {
      StringLeIsTransitive(a.key, b.key, c.key);
      if a.key == b.key == c.key {
        StringLeIsTransitive(a.leaf, b.leaf, c.leaf);
      }
    }
  }

  lemma StringLeIsTransitive(a: string, b: string, c: string)
    ensures StringLe(a, b) && StringLe(b, c) ==> StringLe(a, c)
  {
    if StringLe(a, b) && StringLe(b, c) {
      CompareStringTransitive(a, b, c);
    }
  }

  lemma ChainLeIsTransitive(a: Material, b: Material, c: Material)
    ensures !CompareChain(a.chain, b.chain).Greater? && !CompareChain(b.chain, c.chain).Greater? ==>
              !CompareChain(a.chain, c.chain).Greater?
    ensures CompareChain(a.chain, b.chain).Equal? <==> a.chain == b.chain
    ensures CompareChain(b.chain, c.chain).Equal? <==> b.chain == c.chain
    ensures CompareChain(a.chain, c.chain).Equal? <==> a.chain == c.chain
  {
    CompareChainLaws(a.chain, b.chain);
    CompareChainLaws(b.chain, c.chain);
    CompareChainLaws(a.chain, c.chain);
    if !CompareChain(a.chain, b.chain).Greater? && !CompareChain(b.chain, c.chain).Greater? {
      CompareChainTransitive(a.chain, b.chain, c.chain);
    }
  }

  type LeafKey = (Listener, string)

  /** What a leaf is served with, and for which names. */
  datatype Served = Served(material: Material, names: set<string>)

  function LeafOf(c: Claimed): LeafKey {
    (c.listener, c.fingerprint)
  }

  ghost predicate Best(certs: seq<Claimed>, k: LeafKey, m: Material) {
    && (exists c :: c in certs && LeafOf(c) == k && c.material == m)
    && (forall c :: c in certs && LeafOf(c) == k ==> !ServedFirst(c.material, m))
  }

  ghost predicate NamedFor(certs: seq<Claimed>, k: LeafKey, names: set<string>) {
    forall name :: name in names <==> exists c :: c in certs && LeafOf(c) == k && name in c.names
  }

  /** One entry per leaf, with the best material of all its entries and the names of all of them;
      leaves left with no name are not served. */
  ghost predicate IsMerge(certs: seq<Claimed>, merged: map<LeafKey, Served>) {
    && (forall k :: k in merged ==>
          && Best(certs, k, merged[k].material)
          && NamedFor(certs, k, merged[k].names) && merged[k].names != {})
    && (forall c :: c in certs && c.names != [] ==> LeafOf(c) in merged)
  }

  ghost predicate MergesAll(certs: seq<Claimed>, merged: map<LeafKey, Served>) {
    && (forall k :: k in merged ==> Best(certs, k, merged[k].material) && NamedFor(certs, k, merged[k].names))
    && (forall c :: c in certs ==> LeafOf(c) in merged)
  }

  function NameSet(c: Claimed): set<string> {
    set name | name in c.names
  }

  function MergeOne(merged: map<LeafKey, Served>, c: Claimed): map<LeafKey, Served> {
    if LeafOf(c) in merged then
      var was := merged[LeafOf(c)];
      merged[LeafOf(c) := Served(if ServedFirst(c.material, was.material) then c.material else was.material,
                                 was.names + NameSet(c))]
    else merged[LeafOf(c) := Served(c.material, NameSet(c))]
  }

  lemma MergeNext(certs: seq<Claimed>, merged: map<LeafKey, Served>, c: Claimed)
    requires MergesAll(certs, merged)
    ensures MergesAll(certs + [c], MergeOne(merged, c))
  {
    hide CompareMaterial;
    var all, after, k := certs + [c], MergeOne(merged, c), LeafOf(c);
    forall x ensures x in all <==> x in certs || x == c {}
    CompareMaterialLaws(c.material, c.material);
    if k in merged {
      CompareMaterialLaws(c.material, merged[k].material);
    }
    forall h | h in after ensures Best(all, h, after[h].material) && NamedFor(all, h, after[h].names) {
      if h == k {
        MergeBest(certs, merged, c);
        MergeNames(certs, merged, c);
      } else {
        assert Best(certs, h, merged[h].material) && NamedFor(certs, h, merged[h].names);
      }
    }
  }

  lemma MergeBest(certs: seq<Claimed>, merged: map<LeafKey, Served>, c: Claimed)
    requires MergesAll(certs, merged)
    ensures Best(certs + [c], LeafOf(c), MergeOne(merged, c)[LeafOf(c)].material)
  {
    hide CompareMaterial;
    var all, k := certs + [c], LeafOf(c);
    CompareMaterialLaws(c.material, c.material);
    forall x ensures x in all <==> x in certs || x == c {}
    assert c in all;
    if k in merged {
      var was := merged[k].material;
      CompareMaterialLaws(c.material, was);
      var w :| w in certs && LeafOf(w) == k && w.material == was;
      assert w in all;
      if ServedFirst(c.material, was) {
        forall x | x in certs && LeafOf(x) == k ensures !ServedFirst(x.material, c.material) {
          ServedFirstTransitive(c.material, was, x.material);
        }
      }
    }
  }

  lemma MergeNames(certs: seq<Claimed>, merged: map<LeafKey, Served>, c: Claimed)
    requires MergesAll(certs, merged)
    ensures NamedFor(certs + [c], LeafOf(c), MergeOne(merged, c)[LeafOf(c)].names)
  {
    hide CompareMaterial, Best;
    var all, k := certs + [c], LeafOf(c);
    forall x ensures x in all <==> x in certs || x == c {}
    var names := MergeOne(merged, c)[k].names;
    forall name ensures name in names <==> exists x :: x in all && LeafOf(x) == k && name in x.names {
      if name in c.names {
        assert c in all;
      } else if x :| x in certs && LeafOf(x) == k && name in x.names {
        assert x in all;
      }
    }
  }

  /** One entry per certificate Sozu holds at a listener. */
  method MergeCertificates(certs: seq<Claimed>) returns (merged: map<LeafKey, Served>)
    ensures IsMerge(certs, merged)
  {
    hide CompareMaterial, MergeOne, Best, NamedFor;
    var all: map<LeafKey, Served> := map[];
    for i := 0 to |certs|
      invariant MergesAll(certs[..i], all)
    {
      assert certs[..i + 1] == certs[..i] + [certs[i]];
      MergeNext(certs[..i], all, certs[i]);
      all := MergeOne(all, certs[i]);
    }
    assert certs[..|certs|] == certs;
    merged := map k | k in all && all[k].names != {} :: all[k];
    forall c | c in certs && c.names != [] ensures LeafOf(c) in merged {
      NamesOfLeaf(certs, LeafOf(c), all[LeafOf(c)].names, c);
    }
  }

  lemma NamesOfLeaf(certs: seq<Claimed>, k: LeafKey, names: set<string>, c: Claimed)
    requires NamedFor(certs, k, names) && c in certs && LeafOf(c) == k
    ensures forall name :: name in c.names ==> name in names
    ensures c.names != [] ==> names != {}
  {
    if c.names != [] {
      assert c.names[0] in c.names;
    }
  }

  lemma MergeUnique(a: seq<Claimed>, b: seq<Claimed>, m: map<LeafKey, Served>, n: map<LeafKey, Served>)
    requires IsMerge(a, m) && IsMerge(b, n) && forall x :: x in a <==> x in b
    ensures m == n
  {
    hide CompareMaterial;
    forall k | k in m ensures k in n {
      var name :| name in m[k].names;
    }
    forall k | k in n ensures k in m {
      var name :| name in n[k].names;
    }
    forall k | k in m ensures m[k] == n[k] {
      CompareMaterialLaws(m[k].material, n[k].material);
      assert m[k].names == n[k].names;
    }
  }

  /** Of two chains of one length: at the first link they differ in, `a`'s is the earlier string. */
  ghost predicate ChainEarlier(a: seq<string>, b: seq<string>) {
    exists i: nat :: ChainEarlierAt(a, b, i)
  }

  ghost predicate ChainEarlierAt(a: seq<string>, b: seq<string>, i: nat) {
    i < |a| && i < |b| && a[..i] == b[..i] && Earlier(a[i], b[i])
  }

  lemma {:induction false} CompareChainIsOrder(a: seq<string>, b: seq<string>)
    requires |a| == |b|
    ensures CompareChain(a, b).Less? <==> ChainEarlier(a, b)
  {
    if a != [] {
      CompareStringIsOrder(a[0], b[0]);
      CompareStringEqual(a[0], b[0]);
      CompareChainIsOrder(a[1..], b[1..]);
      hide Earlier, CompareString;
      if a[0] == b[0] && ChainEarlier(a[1..], b[1..]) {
        var i: nat :| ChainEarlierAt(a[1..], b[1..], i);
        assert a[..i + 1] == [a[0]] + a[1..][..i] && b[..i + 1] == [b[0]] + b[1..][..i];
        assert ChainEarlierAt(a, b, i + 1);
      }
      if i: nat :| ChainEarlierAt(a, b, i) {
        if i > 0 {
          assert a[..i][0] == a[0] && b[..i][0] == b[0];
          assert a[1..][..i - 1] == a[..i][1..] && b[1..][..i - 1] == b[..i][1..];
          assert ChainEarlierAt(a[1..], b[1..], i - 1);
        }
      } else {
        assert !ChainEarlierAt(a, b, 0);
      }
    }
  }

  /** `m` is served rather than `other`: a longer chain, or of equal lengths the earlier chain, key and leaf. */
  ghost predicate ServedOver(m: Material, other: Material) {
    && |m.chain| >= |other.chain|
    && (|m.chain| == |other.chain| ==> !ChainEarlier(other.chain, m.chain))
    && (m.chain == other.chain ==> !Earlier(other.key, m.key))
    && (m.chain == other.chain && m.key == other.key ==> !Earlier(other.leaf, m.leaf))
  }

  lemma NotServedFirst(m: Material, other: Material)
    requires !ServedFirst(other, m)
    ensures ServedOver(m, other)
  {
    if |m.chain| == |other.chain| {
      CompareChainIsOrder(other.chain, m.chain);
    }
    CompareChainLaws(other.chain, m.chain);
    CompareStringIsOrder(other.key, m.key);
    CompareStringEqual(other.key, m.key);
    CompareStringIsOrder(other.leaf, m.leaf);
  }

  /** A leaf is served with the longest chain of all its entries, those left without names included; the strings
      decide among the longest. */
  lemma LongestChainServed(certs: seq<Claimed>, merged: map<LeafKey, Served>, k: LeafKey)
    requires IsMerge(certs, merged) && k in merged
    ensures exists c :: c in certs && LeafOf(c) == k && c.material == merged[k].material
    ensures forall c :: c in certs && LeafOf(c) == k ==> ServedOver(merged[k].material, c.material)
  {
    hide ServedFirst, ServedOver;
    forall c | c in certs && LeafOf(c) == k ensures ServedOver(merged[k].material, c.material) {
      NotServedFirst(merged[k].material, c.material);
    }
  }

  // ---- arbitration, then merge -------------------------------------------------------------------------

  /** The outcome of both passes. */
  ghost predicate Outcome(claims: Claims, certs: seq<Claimed>, kept: seq<Claimed>, lost: map<ReportKey, set<LostName>>,
                          merged: map<LeafKey, Served>)
  {
    && |kept| == |certs| && (forall i :: 0 <= i < |certs| ==> Stripped(claims, certs, certs[i], kept[i]))
    && Reports(claims, certs, lost) && IsMerge(kept, merged)
  }

  /** A name is served at a listener only by leaves its oldest claimant loaded for it. */
  lemma ServedByOldest(claims: Claims, certs: seq<Claimed>, kept: seq<Claimed>, lost: map<ReportKey, set<LostName>>,
                       merged: map<LeafKey, Served>, k: LeafKey, name: string)
    requires Outcome(claims, certs, kept, lost, merged) && k in merged && name in merged[k].names
    ensures Keeps(claims, certs, (k.0, Lower(name)), k.1)
  {
    hide Reports, Keeps, Best;
    var c :| c in kept && LeafOf(c) == k && name in c.names;
    var i :| 0 <= i < |kept| && kept[i] == c;
    assert Stripped(claims, certs, certs[i], kept[i]);
  }

  /** Who keeps the names does not decide the chain: what is served is the best of all that was loaded. */
  lemma ChainOfAllLoaded(claims: Claims, certs: seq<Claimed>, kept: seq<Claimed>, lost: map<ReportKey, set<LostName>>,
                         merged: map<LeafKey, Served>, k: LeafKey, i: nat)
    requires Outcome(claims, certs, kept, lost, merged) && k in merged && i < |certs| && LeafOf(certs[i]) == k
    ensures ServedOver(merged[k].material, certs[i].material)
  {
    hide Reports, IsMerge, ServedOver;
    LongestChainServed(kept, merged, k);
    assert Stripped(claims, certs, certs[i], kept[i]) && kept[i] in kept;
  }

  /** Two spellings of one name: the same up to the case of ASCII letters. */
  predicate SameName(a: string, b: string) {
    |a| == |b| && forall i :: 0 <= i < |a| ==> SameLetter(a[i], b[i])
  }

  predicate SameLetter(c: char, d: char) {
    c == d || ('A' <= c <= 'Z' && d as int == c as int + 32) || ('A' <= d <= 'Z' && c as int == d as int + 32)
  }

  lemma SameNameIsLower(a: string, b: string)
    ensures SameName(a, b) <==> Lower(a) == Lower(b)
  {
    if Lower(a) == Lower(b) {
      assert |Lower(a)| == |a| && |Lower(b)| == |b|;
      assert forall i :: 0 <= i < |a| ==> LowerChar(a[i]) == Lower(a)[i] && LowerChar(b[i]) == Lower(b)[i];
    }
  }

  /** `c` asks for `name` at `listener`, in some spelling. */
  ghost predicate AsksFor(c: Claimed, listener: Listener, name: string) {
    c.listener == listener && exists n :: n in c.names && SameName(n, name)
  }

  /** `o` keeps a name it contests with `p`: by age and name, and between objects of equal claims by kind. */
  ghost predicate KeepsFrom(claims: Claims, o: Owner, p: Owner) {
    && HoldsOver(claims, o, p)
    && (HoldsOver(claims, p, o) ==>
          && o.kind <= p.kind
          && (o.kind == p.kind ==> !Earlier(p.namespace, o.namespace))
          && (o.kind == p.kind && o.namespace == p.namespace ==> !Earlier(p.name, o.name)))
  }

  lemma NotOlderKeeps(claims: Claims, o: Owner, p: Owner)
    requires !Older(claims, p, o)
    ensures KeepsFrom(claims, o, p)
  {
    var a, b := ClaimFor(claims, o), ClaimFor(claims, p);
    CompareClaimLaws(b, a);
    ClaimOrder(a, b);
    ClaimOrder(b, a);
    CompareStringIsOrder(p.namespace, o.namespace);
    CompareStringIsOrder(p.name, o.name);
    CompareStringEqual(p.namespace, o.namespace);
  }

  /** A leaf serves a name at its listener because the oldest object that asks for the name there loaded it. */
  lemma NameGoesToOldest(claims: Claims, certs: seq<Claimed>, kept: seq<Claimed>, lost: map<ReportKey, set<LostName>>,
                         merged: map<LeafKey, Served>, leaf: LeafKey, name: string) returns (c: Claimed)
    requires Outcome(claims, certs, kept, lost, merged) && leaf in merged && name in merged[leaf].names
    ensures c in certs && c.fingerprint == leaf.1 && AsksFor(c, leaf.0, name)
    ensures forall d :: d in certs && AsksFor(d, leaf.0, name) ==> KeepsFrom(claims, c.owner, d.owner)
  {
    hide Outcome, CompareOwners, KeepsFrom;
    ServedByOldest(claims, certs, kept, lost, merged, leaf, name);
    var k := (leaf.0, Lower(name));
    c :| c in certs && k in KeysOf(c) && c.fingerprint == leaf.1 && OldestFor(claims, certs, k, c.owner);
    AskingIsKey(c, k.0, name);
    forall d | d in certs && AsksFor(d, leaf.0, name) ensures KeepsFrom(claims, c.owner, d.owner) {
      AskingIsKey(d, k.0, name);
      NotOlderKeeps(claims, c.owner, d.owner);
    }
  }

  /** Reports are kept apart by object, by the Gateway listener it asked for, and by Secret: a lost name is under
      its certificate's own, and whatever is reported there was lost by a certificate so asked for. */
  lemma ReportsApart(claims: Claims, certs: seq<Claimed>, lost: map<ReportKey, set<LostName>>, r: ReportKey,
                     l: LostName)
    requires Reports(claims, certs, lost)
    ensures r in lost && l in lost[r] <==>
            exists c :: c in certs && c.owner == r.0 && c.section == r.1 && c.secret == r.2
                && Loses(claims, certs, c, l)
  {
    hide Loses;
  }

  /** A lost name is reported with the oldest object that asks for it: its kind and its spelled name. */
  lemma LossNamesOldest(claims: Claims, certs: seq<Claimed>, c: Claimed, l: LostName) returns (w: Claimed)
    requires Loses(claims, certs, c, l)
    ensures w in certs && AsksFor(w, c.listener, l.name) && l.ownerKind == w.owner.kind
    ensures forall d :: d in certs && AsksFor(d, c.listener, l.name) ==> KeepsFrom(claims, w.owner, d.owner)
    ensures l.owner == if w.owner in claims then claims[w.owner].name else w.owner.namespace + "/" + w.owner.name
    ensures !exists d :: d in certs && d.owner == w.owner && AsksFor(d, c.listener, l.name)
                         && d.fingerprint == c.fingerprint
  {
    hide CompareOwners, KeepsFrom, KeysOf, AsksFor;
    var k := KeyOfName(c, l.name);
    var o :| OldestFor(claims, certs, k, o) && l.ownerKind == o.kind && l.owner == ClaimFor(claims, o).name;
    w :| w in certs && k in KeysOf(w) && w.owner == o;
    AskingIsKey(w, c.listener, l.name);
    forall d | d in certs && AsksFor(d, c.listener, l.name) ensures KeepsFrom(claims, w.owner, d.owner) {
      AskingIsKey(d, c.listener, l.name);
      NotOlderKeeps(claims, w.owner, d.owner);
    }
    forall d | d in certs && d.owner == w.owner && AsksFor(d, c.listener, l.name)
      ensures d.fingerprint != c.fingerprint {
      AskingIsKey(d, c.listener, l.name);
    }
  }

  lemma AskingIsKey(c: Claimed, listener: Listener, name: string)
    ensures AsksFor(c, listener, name) <==> (listener, Lower(name)) in KeysOf(c)
  {
    hide Lower, SameName;
    forall n | n in c.names ensures SameName(n, name) <==> Lower(n) == Lower(name) {
      SameNameIsLower(n, name);
    }
  }

  lemma {:induction false} OldestExists(claims: Claims, certs: seq<Claimed>, c: Claimed, k: NameKey)
      returns (w: Claimed)
    requires c in certs && k in KeysOf(c)
    ensures w in certs && k in KeysOf(w) && OldestFor(claims, certs, k, w.owner)
  {
    hide CompareOwners, KeysOf;
    var n := |certs| - 1;
    var last := certs[n];
    assert certs == certs[..n] + [last];
    CompareOwnersLaws(claims, last.owner, last.owner);
    if d :| d in certs[..n] && k in KeysOf(d) {
      w := OldestExists(claims, certs[..n], d, k);
      CompareOwnersLaws(claims, last.owner, w.owner);
      if k in KeysOf(last) && Older(claims, last.owner, w.owner) {
        forall x | x in certs[..n] && k in KeysOf(x) ensures !Older(claims, x.owner, last.owner) {
          OlderTransitive(claims, last.owner, w.owner, x.owner);
        }
        w := last;
      }
    } else {
      w := last;
    }
  }

  /** Every claimed name stays served at its listener. */
  lemma NoNameDisappears(claims: Claims, certs: seq<Claimed>, kept: seq<Claimed>, lost: map<ReportKey, set<LostName>>,
                         merged: map<LeafKey, Served>, c: Claimed, k: NameKey) returns (leaf: LeafKey, name: string)
    requires Outcome(claims, certs, kept, lost, merged) && c in certs && k in KeysOf(c)
    ensures leaf in merged && leaf.0 == k.0 && name in merged[leaf].names && Lower(name) == k.1
  {
    hide CompareOwners, Reports, Best, OldestFor, NamedFor, Lower, Stripped, Keeps, Older;
    var w := OldestExists(claims, certs, c, k);
    name :| name in w.names && KeyOfName(w, name) == k;
    leaf := LeafOf(w);
    OldestKeeps(claims, certs, k, w);
    var i :| 0 <= i < |certs| && certs[i] == w;
    assert Stripped(claims, certs, certs[i], kept[i]);
    StrippedKeeps(claims, certs, w, kept[i], name);
    assert kept[i] in kept;
    NamesOfLeaf(kept, leaf, merged[leaf].names, kept[i]);
  }

  lemma OldestKeeps(claims: Claims, certs: seq<Claimed>, k: NameKey, w: Claimed)
    requires w in certs && k in KeysOf(w) && OldestFor(claims, certs, k, w.owner)
    ensures Keeps(claims, certs, k, w.fingerprint)
  {
  }

  lemma StrippedKeeps(claims: Claims, certs: seq<Claimed>, c: Claimed, kept: Claimed, name: string)
    requires Stripped(claims, certs, c, kept) && name in c.names
        && Keeps(claims, certs, KeyOfName(c, name), c.fingerprint)
    ensures name in kept.names && LeafOf(kept) == LeafOf(c)
  {
  }

  /** Each entry's names split into those it keeps and those reported on its object. */
  lemma NamesSplit(claims: Claims, certs: seq<Claimed>, kept: seq<Claimed>, lost: map<ReportKey, set<LostName>>,
                   merged: map<LeafKey, Served>, i: nat, name: string)
    requires Outcome(claims, certs, kept, lost, merged) && i < |certs|
    ensures name in kept[i].names ==> name in certs[i].names
    ensures name in certs[i].names && name !in kept[i].names ==>
              exists l :: Loses(claims, certs, certs[i], l) && l.name == name && ReportKeyOf(certs[i]) in lost
                  && l in lost[ReportKeyOf(certs[i])]
    ensures forall l: LostName :: name in kept[i].names && l.name == name ==> !Loses(claims, certs, certs[i], l)
  {
    hide CompareOwners, Keeps, OldestFor, KeyOfName, IsMerge;
    var c := certs[i];
    assert Stripped(claims, certs, c, kept[i]);
    if name in c.names && name !in kept[i].names {
      var k := KeyOfName(c, name);
      assert k in KeysOf(c);
      var w := OldestExists(claims, certs, c, k);
      var l := LostFor(claims, name, w.owner);
      assert Loses(claims, certs, c, l);
    }
  }

  /** Nothing depends on the order the certificates are listed in. */
  lemma OutcomeIsOrderFree(claims: Claims, a: seq<Claimed>, b: seq<Claimed>,
                           keptA: seq<Claimed>, lostA: map<ReportKey, set<LostName>>, mergedA: map<LeafKey, Served>,
                           keptB: seq<Claimed>, lostB: map<ReportKey, set<LostName>>, mergedB: map<LeafKey, Served>)
    requires Outcome(claims, a, keptA, lostA, mergedA) && Outcome(claims, b, keptB, lostB, mergedB)
    requires forall x :: x in a <==> x in b
    ensures lostA == lostB && mergedA == mergedB
  {
    ReportsAreOrderFree(claims, a, b, lostA, lostB);
    hide CompareOwners, IsMerge, Best, KeyOfName, Keeps, Loses, Stripped, Reports;
    forall x | x in keptA ensures x in keptB {
      KeptIsOrderFree(claims, a, b, keptA, keptB, x);
    }
    forall x | x in keptB ensures x in keptA {
      KeptIsOrderFree(claims, b, a, keptB, keptA, x);
    }
    MergeUnique(keptA, keptB, mergedA, mergedB);
  }

  lemma ReportsAreOrderFree(claims: Claims, a: seq<Claimed>, b: seq<Claimed>,
                            lostA: map<ReportKey, set<LostName>>, lostB: map<ReportKey, set<LostName>>)
    requires Reports(claims, a, lostA) && Reports(claims, b, lostB) && forall x :: x in a <==> x in b
    ensures lostA == lostB
  {
    hide Loses;
    forall c, l ensures Loses(claims, a, c, l) == Loses(claims, b, c, l) {
      LosesIsOrderFree(claims, a, b, c, l);
    }
    assert forall r :: r in lostA <==> r in lostB;
    forall r | r in lostA ensures lostA[r] == lostB[r] {}
  }

  lemma KeepsIsOrderFree(claims: Claims, a: seq<Claimed>, b: seq<Claimed>, k: NameKey, f: string)
    requires forall x :: x in a <==> x in b
    ensures Keeps(claims, a, k, f) == Keeps(claims, b, k, f)
  {
    hide CompareOwners, KeysOf;
    forall o ensures OldestFor(claims, a, k, o) == OldestFor(claims, b, k, o) {}
  }

  lemma LosesIsOrderFree(claims: Claims, a: seq<Claimed>, b: seq<Claimed>, c: Claimed, l: LostName)
    requires forall x :: x in a <==> x in b
    ensures Loses(claims, a, c, l) == Loses(claims, b, c, l)
  {
    hide CompareOwners, KeysOf, KeyOfName, Keeps, ClaimFor;
    KeepsIsOrderFree(claims, a, b, KeyOfName(c, l.name), c.fingerprint);
    forall o ensures OldestFor(claims, a, KeyOfName(c, l.name), o) == OldestFor(claims, b, KeyOfName(c, l.name), o) {}
  }

  lemma KeptIsOrderFree(claims: Claims, a: seq<Claimed>, b: seq<Claimed>, keptA: seq<Claimed>, keptB: seq<Claimed>,
                        x: Claimed)
    requires |keptA| == |a| && |keptB| == |b| && (forall x :: x in a <==> x in b)
    requires forall i :: 0 <= i < |a| ==> Stripped(claims, a, a[i], keptA[i])
    requires forall i :: 0 <= i < |b| ==> Stripped(claims, b, b[i], keptB[i])
    requires x in keptA
    ensures x in keptB
  {
    hide Keeps, KeyOfName;
    var i :| 0 <= i < |keptA| && keptA[i] == x;
    var c := a[i];
    assert c in b;
    var j :| 0 <= j < |b| && b[j] == c;
    forall name ensures Keeps(claims, a, KeyOfName(c, name), c.fingerprint) ==
        Keeps(claims, b, KeyOfName(c, name), c.fingerprint) {
      KeepsIsOrderFree(claims, a, b, KeyOfName(c, name), c.fingerprint);
    }
    FilterSame((name: string) => Keeps(claims, a, KeyOfName(c, name), c.fingerprint),
               (name: string) => Keeps(claims, b, KeyOfName(c, name), c.fingerprint), c.names);
    assert Stripped(claims, a, a[i], keptA[i]) && Stripped(claims, b, b[j], keptB[j]);
    assert keptB[j] == x;
  }
}
