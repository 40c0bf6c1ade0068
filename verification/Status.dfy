/** Route status: each instance rewrites its own parents' entries in a list several writers share. */
module Status {
  import opened Base

  const GROUP := "gateway.networking.k8s.io"

  datatype GatewayId = GatewayId(namespace: string, name: string)

  /** Which Gateways an instance owns. */
  datatype Scope = Scope(ingressOnly: bool, gateway: Option<GatewayId>, excluded: set<GatewayId>)

  datatype ParentRef = ParentRef(group: Option<string>, kind: Option<string>, name: string,
                                 namespace: Option<string>, port: Option<int>, section: Option<string>)

  datatype Condition = Condition(kind: string, status: bool, reason: string, message: string, since: int,
                                 generation: Option<int>)

  datatype Entry = Entry(controller: string, parentRef: ParentRef, conditions: seq<Condition>)

  datatype Desired = Desired(kind: string, status: bool, reason: string, message: string)

  /** One resolved parent of a route, with the messages its two conditions carry. */
  datatype Parent = Parent(namespace: string, name: string, port: Option<int>, section: Option<string>,
                           accepted: bool, acceptedReason: string, acceptedMessage: string,
                           resolved: bool, resolvedReason: string, resolvedMessage: string)

  /** What an instance writes for a route: under the controller's name, for the route's namespace and
      generation, the parents it resolved. */
  datatype Writer = Writer(controller: string, namespace: string, generation: Option<int>, scope: Scope,
                           parents: seq<Parent>)

  // ---- ownership -------------------------------------------------------------------------------------

  predicate OwnsGateway(s: Scope, namespace: string, name: string) {
    && !s.ingressOnly
    && if s.gateway.Some? then s.gateway.value == GatewayId(namespace, name)
        else GatewayId(namespace, name) !in s.excluded
  }

  function Or<T>(o: Option<T>, default: T): T {
    if o.Some? then o.value else default
  }

  /** Whether an entry under `r` is the writer's own; an absent group, kind or namespace is the default one. */
  predicate OwnsRef(w: Writer, r: ParentRef) {
    && Or(r.group, GROUP) == GROUP && Or(r.kind, "Gateway") == "Gateway"
    && OwnsGateway(w.scope, Or(r.namespace, w.namespace), r.name)
  }

  function RefOf(p: Parent): ParentRef {
    ParentRef(Some(GROUP), Some("Gateway"), p.name, Some(p.namespace), p.port, p.section)
  }

  predicate OwnsParent(w: Writer, p: Parent) {
    OwnsGateway(w.scope, p.namespace, p.name)
  }

  lemma OwnRefs(w: Writer, p: Parent)
    ensures OwnsRef(w, RefOf(p)) <==> OwnsParent(w, p)
  {
  }

  // ---- conditions ------------------------------------------------------------------------------------

  function DesiredOf(p: Parent): seq<Desired> {
    [Desired("Accepted", p.accepted, p.acceptedReason, p.acceptedMessage),
     Desired("ResolvedRefs", p.resolved, p.resolvedReason, p.resolvedMessage)]
  }

  function FindCondition(cs: seq<Condition>, kind: string): Option<Condition> {
    if cs == [] then None else if cs[0].kind == kind then Some(cs[0]) else FindCondition(cs[1..], kind)
  }

  predicate Says(c: Condition, d: Desired) {
    c.status == d.status && c.reason == d.reason && c.message == d.message
  }

  /** The condition for `d`: its transition time is the previous one's while what it says is unchanged, and
      else the clock's. */
  function BuildCondition(d: Desired, current: seq<Condition>, generation: Option<int>, now: int): Condition {
    var previous := FindCondition(current, d.kind);
    var since := if previous.Some? && Says(previous.value, d) then previous.value.since else now;
    Condition(d.kind, d.status, d.reason, d.message, since, generation)
  }

  /** The conditions wanted; `clock` gives the successive readings of the clock, from reading `at` on. */
  function BuildConditions(desired: seq<Desired>, current: seq<Condition>, generation: Option<int>, clock: nat -> int,
                           at: nat): seq<Condition> {
    if desired == [] then []
    else
      [BuildCondition(desired[0], current, generation, clock(at))] +
      BuildConditions(desired[1..], current, generation, clock, at + 1)
  }

  lemma TwoConditions(p: Parent, current: seq<Condition>, generation: Option<int>, clock: nat -> int, at: nat)
    ensures var d := DesiredOf(p);
            BuildConditions(d, current, generation, clock, at) ==
            [BuildCondition(d[0], current, generation, clock(at)),
             BuildCondition(d[1], current, generation, clock(at + 1))]
  {
    hide BuildCondition;
    var d := DesiredOf(p);
    assert d[1..][0] == d[1] && d[1..][1..] == [];
    assert BuildConditions(d[1..], current, generation, clock, at + 1) ==
        [BuildCondition(d[1], current, generation, clock(at + 1))] + [];
  }

  /** `cs` are `p`'s conditions, whatever their transition times. */
  predicate Tells(cs: seq<Condition>, p: Parent, generation: Option<int>) {
    var d := DesiredOf(p);
    && |cs| == 2
    && cs[0] == Condition(d[0].kind, d[0].status, d[0].reason, d[0].message, cs[0].since, generation)
    && cs[1] == Condition(d[1].kind, d[1].status, d[1].reason, d[1].message, cs[1].since, generation)
  }

  lemma BuiltTells(p: Parent, current: seq<Condition>, generation: Option<int>, clock: nat -> int, at: nat)
    ensures Tells(BuildConditions(DesiredOf(p), current, generation, clock, at), p, generation)
  {
    TwoConditions(p, current, generation, clock, at);
  }

  /** Conditions that say it already are kept to the letter, whatever the clock. */
  lemma TellingIsKept(p: Parent, cs: seq<Condition>, generation: Option<int>, clock: nat -> int, at: nat)
    requires Tells(cs, p, generation)
    ensures BuildConditions(DesiredOf(p), cs, generation, clock, at) == cs
  {
    TwoConditions(p, cs, generation, clock, at);
    assert FindCondition(cs, "Accepted") == Some(cs[0]);
    assert cs[0].kind != "ResolvedRefs" by {
      assert "Accepted"[0] != "ResolvedRefs"[0];
    }
    assert FindCondition(cs, "ResolvedRefs") == FindCondition(cs[1..], "ResolvedRefs") == Some(cs[1]);
  }

  // ---- the merge ---------------------------------------------------------------------------------------

  function EntryRef(e: Entry): ParentRef { e.parentRef }

  function Ours(controller: string, list: seq<Entry>): seq<Entry> {
    if list == [] then []
    else (if list[0].controller == controller then [list[0]] else []) + Ours(controller, list[1..])
  }

  function Theirs(controller: string, list: seq<Entry>): seq<Entry> {
    if list == [] then []
    else (if list[0].controller != controller then [list[0]] else []) + Theirs(controller, list[1..])
  }

  /** The entries that are not the writer's own. */
  function Others(w: Writer, list: seq<Entry>): seq<Entry> {
    if list == [] then []
    else
      (if list[0].controller != w.controller || !OwnsRef(w, list[0].parentRef) then [list[0]] else []) +
      Others(w, list[1..])
  }

  /** The conditions of the first entry under the full reference. */
  function Existing(controller: string, list: seq<Entry>, r: ParentRef): seq<Condition> {
    if list == [] then []
    else if list[0].controller == controller && list[0].parentRef == r then list[0].conditions
    else Existing(controller, list[1..], r)
  }

  function EntryFor(w: Writer, list: seq<Entry>, n: nat, clock: nat -> int): Entry
    requires n < |w.parents|
  {
    var p := w.parents[n];
    Entry(w.controller, RefOf(p), BuildConditions(DesiredOf(p), Existing(w.controller, list, RefOf(p)), w.generation,
                                                  clock, 2 * n))
  }

  function Rebuilt(w: Writer, list: seq<Entry>, n: nat, clock: nat -> int): seq<Entry>
    requires n <= |w.parents|
  {
    if n == 0 then []
    else Rebuilt(w, list, n - 1, clock) + if OwnsParent(w, w.parents[n - 1]) then [EntryFor(w, list, n - 1, clock)]
        else []
  }

  /** The list an instance wants: what is not its own, other controllers first and in their order, then the
      controller's entries sorted by reference, its own rebuilt. */
  function Merged(w: Writer, list: seq<Entry>, clock: nat -> int, le: (ParentRef, ParentRef) -> bool): seq<Entry> {
    Theirs(w.controller, list) +
    SortBy(EntryRef, le, Ours(w.controller, Others(w, list)) + Rebuilt(w, list, |w.parents|, clock))
  }

  lemma {:induction false} Split(controller: string, a: seq<Entry>, b: seq<Entry>)
    ensures Ours(controller, a + b) == Ours(controller, a) + Ours(controller, b)
    ensures Theirs(controller, a + b) == Theirs(controller, a) + Theirs(controller, b)
  {
    if a == [] {
      assert a + b == b;
    } else {
      var s := a + b;
      assert s[0] == a[0] && s[1..] == a[1..] + b;
      Split(controller, a[1..], b);
      var mine := if a[0].controller == controller then [a[0]] else [];
      var other := if a[0].controller != controller then [a[0]] else [];
      assert Ours(controller, s) == mine + Ours(controller, s[1..])
          && Ours(controller, a) == mine + Ours(controller, a[1..]);
      assert Theirs(controller, s) == other + Theirs(controller, s[1..])
          && Theirs(controller, a) == other + Theirs(controller, a[1..]);
      hide Ours, Theirs;
    }
  }

  method KeepOthers(w: Writer, current: seq<Entry>) returns (kept: seq<Entry>)
    ensures kept == Others(w, current)
  {
    hide OwnsRef;
    kept := [];
    for i := 0 to |current|
      invariant kept == Others(w, current[..i])
    {
      var p := current[i];
      OthersNext(w, current, i);
      if p.controller != w.controller || !OwnsRef(w, p.parentRef) {
        kept := kept + [p];
      }
    }
    assert current[..|current|] == current;
  }

  method Partition(controller: string, list: seq<Entry>) returns (foreign: seq<Entry>, ours: seq<Entry>)
    ensures foreign == Theirs(controller, list) && ours == Ours(controller, list)
  {
    foreign, ours := [], [];
    for i := 0 to |list|
      invariant foreign == Theirs(controller, list[..i]) && ours == Ours(controller, list[..i])
    {
      assert list[..i + 1] == list[..i] + [list[i]];
      Split(controller, list[..i], [list[i]]);
      if list[i].controller != controller {
        foreign := foreign + [list[i]];
      } else {
        ours := ours + [list[i]];
      }
    }
    assert list[..|list|] == list;
  }

  method RouteParents(w: Writer, current: seq<Entry>, clock: nat -> int, le: (ParentRef, ParentRef) -> bool)
      returns (merged: seq<Entry>)
    requires TotalOrder(le)
    ensures merged == Merged(w, current, clock, le)
  {
    hide EntryFor, Others, OwnsParent, Ours, Theirs, SortBy;
    var parents := KeepOthers(w, current);
    for n := 0 to |w.parents|
      invariant parents == Others(w, current) + Rebuilt(w, current, n, clock)
    {
      if OwnsParent(w, w.parents[n]) {
        parents := parents + [EntryFor(w, current, n, clock)];
      }
    }
    var foreign, ours := Partition(w.controller, parents);
    Split(w.controller, Others(w, current), Rebuilt(w, current, |w.parents|, clock));
    RebuiltIsOurs(w, current, |w.parents|, clock);
    TheirsAreOthers(w, current);
    merged := foreign + SortBy(EntryRef, le, ours);
  }

  lemma {:induction false} OthersAppend(w: Writer, a: seq<Entry>, b: seq<Entry>)
    ensures Others(w, a + b) == Others(w, a) + Others(w, b)
  {
    if a == [] {
      assert a + b == b;
    } else {
      assert (a + b)[1..] == a[1..] + b;
      OthersAppend(w, a[1..], b);
    }
  }

  lemma OthersNext(w: Writer, list: seq<Entry>, i: nat)
    requires i < |list|
    ensures Others(w, list[..i + 1]) == Others(w, list[..i]) +
                                          if list[i].controller != w.controller
                                              || !OwnsRef(w, list[i].parentRef) then [list[i]] else []
  {
    assert list[..i + 1] == list[..i] + [list[i]];
    OthersAppend(w, list[..i], [list[i]]);
  }

  lemma {:induction false} TheirsAreOthers(w: Writer, list: seq<Entry>)
    ensures Theirs(w.controller, Others(w, list)) == Theirs(w.controller, list)
  {
    if list != [] {
      TheirsAreOthers(w, list[1..]);
      Split(w.controller, if list[0].controller != w.controller
            || !OwnsRef(w, list[0].parentRef) then [list[0]] else [], Others(w, list[1..]));
    }
  }

  lemma {:induction false} AllOurs(controller: string, list: seq<Entry>)
    requires forall e :: e in list ==> e.controller == controller
    ensures Ours(controller, list) == list && Theirs(controller, list) == []
  {
    if list != [] {
      AllOurs(controller, list[1..]);
    }
  }

  lemma {:induction false} RebuiltIsOurs(w: Writer, list: seq<Entry>, n: nat, clock: nat -> int)
    requires n <= |w.parents|
    ensures forall e :: e in Rebuilt(w, list, n, clock) ==> e.controller == w.controller && OwnsRef(w, e.parentRef)
    ensures Ours(w.controller, Rebuilt(w, list, n, clock)) == Rebuilt(w, list, n, clock)
    ensures Theirs(w.controller, Rebuilt(w, list, n, clock)) == []
  {
    if n > 0 {
      RebuiltIsOurs(w, list, n - 1, clock);
      OwnRefs(w, w.parents[n - 1]);
    }
    AllOurs(w.controller, Rebuilt(w, list, n, clock));
  }

  // ---- entries by reference ----------------------------------------------------------------------------

  /** The controller's entries under one reference, in order. */
  function Under(controller: string, list: seq<Entry>, r: ParentRef): seq<Entry> {
    OfKey(EntryRef, r, Ours(controller, list))
  }

  lemma {:induction false} ExistingIsFirst(controller: string, list: seq<Entry>, r: ParentRef)
    ensures Existing(controller, list, r) ==
            (var under := Under(controller, list, r); if under == [] then [] else under[0].conditions)
  {
    if list != [] {
      ExistingIsFirst(controller, list[1..], r);
      var head := if list[0].controller == controller then [list[0]] else [];
      OfKeyAppend(EntryRef, r, head, Ours(controller, list[1..]));
    }
  }

  lemma {:induction false} OthersUnder(w: Writer, list: seq<Entry>, r: ParentRef)
    ensures Under(w.controller, Others(w, list), r) == if OwnsRef(w, r) then [] else Under(w.controller, list, r)
  {
    hide OwnsRef;
    if list != [] {
      var rest := Others(w, list[1..]);
      OthersUnder(w, list[1..], r);
      var kept := if list[0].controller != w.controller || !OwnsRef(w, list[0].parentRef) then [list[0]] else [];
      Split(w.controller, kept, rest);
      OfKeyAppend(EntryRef, r, Ours(w.controller, kept), Ours(w.controller, rest));
      var head := if list[0].controller == w.controller then [list[0]] else [];
      OfKeyAppend(EntryRef, r, head, Ours(w.controller, list[1..]));
    }
  }

  /** What `w` rebuilt under `r`. */
  function RebuiltUnder(w: Writer, list: seq<Entry>, clock: nat -> int, r: ParentRef): seq<Entry> {
    OfKey(EntryRef, r, Rebuilt(w, list, |w.parents|, clock))
  }

  lemma MergedOurs(w: Writer, list: seq<Entry>, clock: nat -> int, le: (ParentRef, ParentRef) -> bool)
    requires TotalOrder(le)
    ensures var sorted := SortBy(EntryRef, le,
                                 Ours(w.controller, Others(w, list)) + Rebuilt(w, list, |w.parents|, clock));
            && Ours(w.controller, Merged(w, list, clock, le)) == sorted
            && Theirs(w.controller, Merged(w, list, clock, le)) == Theirs(w.controller, list)
            && SortedBy(EntryRef, le, sorted)
  {
    hide OwnsRef;
    var unsorted := Ours(w.controller, Others(w, list)) + Rebuilt(w, list, |w.parents|, clock);
    var sorted := SortBy(EntryRef, le, unsorted);
    SortSorted(EntryRef, le, unsorted);
    SortContents(EntryRef, le, unsorted);
    RebuiltIsOurs(w, list, |w.parents|, clock);
    OursAreOurs(w.controller, Others(w, list));
    forall e | e in sorted ensures e.controller == w.controller {
      assert e in multiset(sorted) && e in multiset(unsorted);
    }
    AllOurs(w.controller, sorted);
    TheirsAreTheirs(w.controller, list);
    Split(w.controller, Theirs(w.controller, list), sorted);
  }

  lemma {:induction false} OursAreOurs(controller: string, list: seq<Entry>)
    ensures forall e :: e in Ours(controller, list) ==> e.controller == controller
  {
    if list != [] {
      OursAreOurs(controller, list[1..]);
    }
  }

  lemma {:induction false} TheirsAreTheirs(controller: string, list: seq<Entry>)
    ensures Theirs(controller, Theirs(controller, list)) == Theirs(controller, list)
    ensures Ours(controller, Theirs(controller, list)) == []
  {
    if list != [] {
      TheirsAreTheirs(controller, list[1..]);
      Split(controller, if list[0].controller != controller then [list[0]] else [], Theirs(controller, list[1..]));
    }
  }

  /** Nothing but the writer's own entries changes: other controllers keep theirs to the letter and in their
      order, other instances theirs under each reference, and its own are the rebuilt ones. */
  lemma MergeKeepsOthers(w: Writer, list: seq<Entry>, clock: nat -> int, le: (ParentRef, ParentRef) -> bool)
    requires TotalOrder(le)
    ensures Theirs(w.controller, Merged(w, list, clock, le)) == Theirs(w.controller, list)
    ensures forall r :: Under(w.controller, Merged(w, list, clock, le), r) ==
                        if OwnsRef(w, r) then RebuiltUnder(w, list, clock, r) else Under(w.controller, list, r)
  {
    hide OwnsRef;
    MergedOurs(w, list, clock, le);
    var kept, rebuilt := Ours(w.controller, Others(w, list)), Rebuilt(w, list, |w.parents|, clock);
    forall r ensures Under(w.controller, Merged(w, list, clock, le), r) ==
                     if OwnsRef(w, r) then RebuiltUnder(w, list, clock, r) else Under(w.controller, list, r)
    {
      SortStable(EntryRef, le, kept + rebuilt, r);
      OfKeyAppend(EntryRef, r, kept, rebuilt);
      OthersUnder(w, list, r);
      if !OwnsRef(w, r) {
        RebuiltIsOurs(w, list, |w.parents|, clock);
        OfKeyNone(EntryRef, r, rebuilt);
      }
    }
  }

  // ---- fixed points --------------------------------------------------------------------------------------

  /** Other controllers first, then ours by reference. */
  ghost predicate Formed(controller: string, list: seq<Entry>, le: (ParentRef, ParentRef) -> bool) {
    list == Theirs(controller, list) + Ours(controller, list) && SortedBy(EntryRef, le, Ours(controller, list))
  }

  /** Under each of the writer's references stands what it would rebuild. */
  ghost predicate Right(w: Writer, list: seq<Entry>, clock: nat -> int) {
    forall r :: OwnsRef(w, r) ==> Under(w.controller, list, r) == RebuiltUnder(w, list, clock, r)
  }

  lemma MergedIsFormed(w: Writer, list: seq<Entry>, clock: nat -> int, le: (ParentRef, ParentRef) -> bool)
    requires TotalOrder(le)
    ensures Formed(w.controller, Merged(w, list, clock, le), le)
  {
    hide SortedBy;
    MergedOurs(w, list, clock, le);
  }

  lemma FixedExactlyWhenRight(w: Writer, list: seq<Entry>, clock: nat -> int, le: (ParentRef, ParentRef) -> bool)
    requires TotalOrder(le)
    ensures Merged(w, list, clock, le) == list <==> Formed(w.controller, list, le) && Right(w, list, clock)
  {
    hide OwnsRef, Ours, Theirs, Others, Rebuilt;
    if Merged(w, list, clock, le) == list {
      MergedIsFormed(w, list, clock, le);
      MergeKeepsOthers(w, list, clock, le);
    }
    if Formed(w.controller, list, le) && Right(w, list, clock) {
      var kept, rebuilt := Ours(w.controller, Others(w, list)), Rebuilt(w, list, |w.parents|, clock);
      forall r ensures OfKey(EntryRef, r, kept + rebuilt) == OfKey(EntryRef, r, Ours(w.controller, list)) {
        OfKeyAppend(EntryRef, r, kept, rebuilt);
        OthersUnder(w, list, r);
        assert OwnsRef(w, r) ==> Under(w.controller, list, r) == RebuiltUnder(w, list, clock, r);
        if !OwnsRef(w, r) {
          RebuiltIsOurs(w, list, |w.parents|, clock);
          OfKeyNone(EntryRef, r, rebuilt);
        }
      }
      SortDetermined(EntryRef, le, kept + rebuilt, Ours(w.controller, list));
      SortOfSorted(EntryRef, le, Ours(w.controller, list));
    }
  }

  ghost predicate Owned(w: Writer, n: int) {
    0 <= n < |w.parents| && OwnsParent(w, w.parents[n])
  }

  /** No two of the writer's parents share a full reference. */
  ghost predicate DistinctRefs(w: Writer) {
    forall i, j :: Owned(w, i) && Owned(w, j) && RefOf(w.parents[i]) == RefOf(w.parents[j]) ==> i == j
  }

  /** Parents that share a full reference ask for the same conditions. */
  ghost predicate Consistent(w: Writer) {
    forall i, j :: Owned(w, i) && Owned(w, j) && RefOf(w.parents[i]) == RefOf(w.parents[j]) ==>
      DesiredOf(w.parents[i]) == DesiredOf(w.parents[j])
  }

  /** The first entry rebuilt under a reference is the one of the first parent with it. */
  lemma {:induction false} FirstRebuilt(w: Writer, list: seq<Entry>, n: nat, clock: nat -> int, j: nat) returns (i: nat)
    requires j < n <= |w.parents| && Owned(w, j)
    ensures i <= j && Owned(w, i) && RefOf(w.parents[i]) == RefOf(w.parents[j])
    ensures var under := OfKey(EntryRef, RefOf(w.parents[j]), Rebuilt(w, list, n, clock));
            under != [] && under[0] == EntryFor(w, list, i, clock)
  {
    hide EntryFor, OwnsParent, OfKey, Rebuilt;
    var r := RefOf(w.parents[j]);
    RebuiltNext(w, list, n, clock, r);
    if k :| 0 <= k < n - 1 && k <= j && Owned(w, k) && RefOf(w.parents[k]) == r {
      i := FirstRebuilt(w, list, n - 1, clock, k);
    } else {
      i := n - 1;
      assert i == j;
      RebuiltRefs(w, list, n - 1, clock, r);
    }
  }

  lemma EntryForRef(w: Writer, list: seq<Entry>, n: nat, clock: nat -> int)
    requires n < |w.parents|
    ensures EntryFor(w, list, n, clock).parentRef == RefOf(w.parents[n])
  {
  }

  /** Under one reference, a parent adds its entry if it is owned and carries that reference. */
  lemma RebuiltNext(w: Writer, list: seq<Entry>, n: nat, clock: nat -> int, r: ParentRef)
    requires 0 < n <= |w.parents|
    ensures OfKey(EntryRef, r, Rebuilt(w, list, n, clock)) ==
            OfKey(EntryRef, r, Rebuilt(w, list, n - 1, clock)) +
            if Owned(w, n - 1) && RefOf(w.parents[n - 1]) == r then [EntryFor(w, list, n - 1, clock)] else []
  {
    EntryForRef(w, list, n - 1, clock);
    hide EntryFor, OwnsParent, RefOf, OfKey;
    var before := Rebuilt(w, list, n - 1, clock);
    OfKeySnoc(EntryRef, r, before, EntryFor(w, list, n - 1, clock));
    assert before + [] == before;
  }

  lemma {:induction false} RebuiltRefs(w: Writer, list: seq<Entry>, n: nat, clock: nat -> int, r: ParentRef)
    requires n <= |w.parents| && forall k :: 0 <= k < n && Owned(w, k) ==> RefOf(w.parents[k]) != r
    ensures OfKey(EntryRef, r, Rebuilt(w, list, n, clock)) == []
  {
    hide EntryFor, OwnsParent, RefOf;
    if n > 0 {
      RebuiltRefs(w, list, n - 1, clock, r);
      RebuiltNext(w, list, n, clock, r);
    }
  }

  lemma {:induction false} RebuiltAgain(w: Writer, a: seq<Entry>, c: nat -> int, b: seq<Entry>, d: nat -> int, n: nat)
    requires n <= |w.parents| && forall j :: 0 <= j < n && Owned(w, j) ==> EntryFor(w, a, j, c) == EntryFor(w, b, j, d)
    ensures Rebuilt(w, a, n, c) == Rebuilt(w, b, n, d)
  {
    hide EntryFor, OwnsParent;
    if n > 0 {
      RebuiltAgain(w, a, c, b, d, n - 1);
      assert OwnsParent(w, w.parents[n - 1]) ==> Owned(w, n - 1) by {
        OwnedAt(w, n - 1);
      }
    }
  }

  lemma OwnedAt(w: Writer, n: nat)
    requires n < |w.parents|
    ensures Owned(w, n) <==> OwnsParent(w, w.parents[n])
  {
  }

  /** What the list holds for the writer's parents says what they want, whatever the times. */
  ghost predicate Telling(w: Writer, list: seq<Entry>) {
    forall j :: Owned(w, j) ==> Tells(Existing(w.controller, list, RefOf(w.parents[j])), w.parents[j], w.generation)
  }

  lemma TellingEntry(w: Writer, list: seq<Entry>, j: nat, clock: nat -> int)
    requires Owned(w, j) && Tells(Existing(w.controller, list, RefOf(w.parents[j])), w.parents[j], w.generation)
    ensures var r := RefOf(w.parents[j]);
            EntryFor(w, list, j, clock) == Entry(w.controller, r, Existing(w.controller, list, r))
  {
    hide Tells, DesiredOf, Existing, BuildConditions;
    TellingIsKept(w.parents[j], Existing(w.controller, list, RefOf(w.parents[j])), w.generation, clock, 2 * j);
  }

  /** After a merge, the entry found under a parent's reference is the one of the first parent with it. */
  lemma ExistingAfterMerge(w: Writer, list: seq<Entry>, clock: nat -> int, le: (ParentRef, ParentRef) -> bool, j: nat)
      returns (i: nat)
    requires TotalOrder(le) && Owned(w, j)
    ensures i <= j && Owned(w, i) && RefOf(w.parents[i]) == RefOf(w.parents[j])
    ensures Existing(w.controller, Merged(w, list, clock, le), RefOf(w.parents[j])) ==
        EntryFor(w, list, i, clock).conditions
    ensures Tells(EntryFor(w, list, i, clock).conditions, w.parents[i], w.generation)
  {
    hide EntryFor, Merged, Existing, OwnsRef, Tells, OwnsParent, Rebuilt;
    var r := RefOf(w.parents[j]);
    assert OwnsRef(w, r) by {
      OwnRefs(w, w.parents[j]);
      OwnedAt(w, j);
    }
    MergeKeepsOthers(w, list, clock, le);
    i := FirstRebuilt(w, list, |w.parents|, clock, j);
    ExistingIsFirst(w.controller, Merged(w, list, clock, le), r);
    assert Under(w.controller, Merged(w, list, clock, le), r) == RebuiltUnder(w, list, clock, r);
    EntryTells(w, list, i, clock);
  }

  lemma EntryTells(w: Writer, list: seq<Entry>, i: nat, clock: nat -> int)
    requires i < |w.parents|
    ensures Tells(EntryFor(w, list, i, clock).conditions, w.parents[i], w.generation)
  {
    hide Tells, BuildConditions, Existing;
    BuiltTells(w.parents[i], Existing(w.controller, list, RefOf(w.parents[i])), w.generation, clock, 2 * i);
  }

  lemma SameDesiredTells(cs: seq<Condition>, p: Parent, q: Parent, generation: Option<int>)
    requires Tells(cs, p, generation) && DesiredOf(p) == DesiredOf(q)
    ensures Tells(cs, q, generation)
  {
    assert DesiredOf(p)[0] == DesiredOf(q)[0] && DesiredOf(p)[1] == DesiredOf(q)[1];
  }

  lemma MergedTells(w: Writer, list: seq<Entry>, clock: nat -> int, le: (ParentRef, ParentRef) -> bool)
    requires TotalOrder(le) && Consistent(w)
    ensures Telling(w, Merged(w, list, clock, le))
  {
    hide Tells, Merged, Existing, OwnsParent, EntryFor, DesiredOf;
    forall j | Owned(w, j)
      ensures Tells(Existing(w.controller, Merged(w, list, clock, le), RefOf(w.parents[j])), w.parents[j], w.generation)
    {
      var i := ExistingAfterMerge(w, list, clock, le, j);
      SameDesiredTells(EntryFor(w, list, i, clock).conditions, w.parents[i], w.parents[j], w.generation);
    }
  }

  // ---- what an entry says ------------------------------------------------------------------------------

  /** A condition for the writer's generation. */
  predicate States(c: Condition, kind: string, status: bool, reason: string, message: string, generation: Option<int>) {
    c.kind == kind && c.status == status && c.reason == reason && c.message == message && c.generation == generation
  }

  /** `e` is the controller's entry for `p`: its own reference in full, whether it was accepted and whether its
      references resolved, each with its own reason and message, and nothing else. */
  predicate ReportsParent(e: Entry, w: Writer, p: Parent) {
    && e.controller == w.controller
    && e.parentRef == ParentRef(Some("gateway.networking.k8s.io"), Some("Gateway"), p.name, Some(p.namespace), p.port,
                                p.section)
    && |e.conditions| == 2
    && States(e.conditions[0], "Accepted", p.accepted, p.acceptedReason, p.acceptedMessage, w.generation)
    && States(e.conditions[1], "ResolvedRefs", p.resolved, p.resolvedReason, p.resolvedMessage, w.generation)
  }

  lemma EntryReports(w: Writer, list: seq<Entry>, n: nat, clock: nat -> int)
    requires n < |w.parents|
    ensures ReportsParent(EntryFor(w, list, n, clock), w, w.parents[n])
  {
    hide Existing;
    EntryTells(w, list, n, clock);
  }

  /** Position `at` alone holds the controller's entry under reference `r`. */
  ghost predicate OnlyAt(controller: string, list: seq<Entry>, r: ParentRef, at: int) {
    && 0 <= at < |list| && list[at].controller == controller && list[at].parentRef == r
    && forall k :: 0 <= k < |list| && list[k].controller == controller && list[k].parentRef == r ==> k == at
  }

  lemma UnderMember(controller: string, list: seq<Entry>, r: ParentRef, e: Entry)
    ensures e in Under(controller, list, r) <==> e in list && e.controller == controller && e.parentRef == r
  {
    OfKeyMember(EntryRef, r, Ours(controller, list), e);
    OursMember(controller, list, e);
  }

  lemma {:induction false} OursMember(controller: string, list: seq<Entry>, e: Entry)
    ensures e in Ours(controller, list) <==> e in list && e.controller == controller
  {
    if list != [] {
      OursMember(controller, list[1..], e);
      assert list == [list[0]] + list[1..];
    }
  }

  lemma UnderHead(controller: string, list: seq<Entry>, r: ParentRef)
    requires list != []
    ensures Under(controller, list, r) ==
            (if list[0].controller == controller && list[0].parentRef == r then [list[0]] else []) +
            Under(controller, list[1..], r)
  {
    var ours := Ours(controller, list[1..]);
    if list[0].controller == controller {
      assert Ours(controller, list) == [list[0]] + ours;
      OfKeyCons(EntryRef, r, list[0], ours);
    } else {
      assert Ours(controller, list) == [] + ours == ours;
    }
    hide OfKey;
    assert [] + OfKey(EntryRef, r, ours) == OfKey(EntryRef, r, ours);
    assert Under(controller, list, r) == OfKey(EntryRef, r, Ours(controller, list));
    assert Under(controller, list[1..], r) == OfKey(EntryRef, r, ours);
    assert EntryRef(list[0]) == list[0].parentRef;
    if list[0].controller == controller {
      assert Under(controller, list, r) == (if list[0].parentRef == r then [list[0]] else []) +
          OfKey(EntryRef, r, ours);
    } else {
      assert Under(controller, list, r) == [] + OfKey(EntryRef, r, ours);
    }
  }

  lemma {:induction false} OneUnder(controller: string, list: seq<Entry>, r: ParentRef, e: Entry) returns (at: nat)
    requires Under(controller, list, r) == [e]
    ensures OnlyAt(controller, list, r, at) && list[at] == e
  {
    assert list != [];
    UnderHead(controller, list, r);
    hide Under;
    var rest := Under(controller, list[1..], r);
    if list[0].controller == controller && list[0].parentRef == r {
      at := 0;
      assert Under(controller, list, r)[0] == list[0];
      assert |rest| == 0;
      NoneUnder(controller, list[1..], r);
      forall k | 1 <= k < |list| ensures list[k].controller != controller || list[k].parentRef != r {
        assert list[1..][k - 1] == list[k];
      }
    } else {
      assert Under(controller, list, r) == [] + rest == rest;
      var k := OneUnder(controller, list[1..], r, e);
      at := k + 1;
      assert list[at] == list[1..][k];
      forall m | 1 <= m < |list| && list[m].controller == controller && list[m].parentRef == r ensures m == at {
        assert list[1..][m - 1] == list[m];
      }
    }
  }

  lemma NoneUnder(controller: string, list: seq<Entry>, r: ParentRef)
    requires Under(controller, list, r) == []
    ensures forall k :: 0 <= k < |list| ==> list[k].controller != controller || list[k].parentRef != r
  {
    hide Under;
    forall k | 0 <= k < |list| ensures list[k].controller != controller || list[k].parentRef != r {
      UnderMember(controller, list, r, list[k]);
    }
  }

  lemma {:induction false} OneRebuilt(w: Writer, list: seq<Entry>, n: nat, clock: nat -> int, j: nat)
    requires n <= |w.parents| && Owned(w, j) && DistinctRefs(w)
    ensures OfKey(EntryRef, RefOf(w.parents[j]), Rebuilt(w, list, n, clock)) ==
            if j < n then [EntryFor(w, list, j, clock)] else []
  {
    hide EntryFor, OwnsParent, OfKey, RefOf;
    if n > 0 {
      RebuiltNext(w, list, n, clock, RefOf(w.parents[j]));
      OneRebuilt(w, list, n - 1, clock, j);
      hide Rebuilt;
    } else {
      RebuiltRefs(w, list, 0, clock, RefOf(w.parents[j]));
    }
  }

  /** After a merge with distinct references, each of the writer's parents has exactly one entry of the
      controller, and it says what was decided for that parent. */
  lemma ParentIsReported(w: Writer, list: seq<Entry>, clock: nat -> int, le: (ParentRef, ParentRef) -> bool, j: nat)
      returns (at: nat)
    requires TotalOrder(le) && DistinctRefs(w)
    requires j < |w.parents| && OwnsGateway(w.scope, w.parents[j].namespace, w.parents[j].name)
    ensures var merged := Merged(w, list, clock, le);
            && at < |merged| && ReportsParent(merged[at], w, w.parents[j])
            && OnlyAt(w.controller, merged, merged[at].parentRef, at)
  {
    hide Merged, EntryFor, OwnsRef, OwnsGateway, Rebuilt, Under, ReportsParent;
    OwnedAt(w, j);
    OwnRefs(w, w.parents[j]);
    MergeKeepsOthers(w, list, clock, le);
    OneRebuilt(w, list, |w.parents|, clock, j);
    at := OneUnder(w.controller, Merged(w, list, clock, le), RefOf(w.parents[j]), EntryFor(w, list, j, clock));
    EntryReports(w, list, j, clock);
  }

  /** A reference of the writer's: to a Gateway it owns, by default of the route's namespace. */
  ghost predicate RefersToOwned(w: Writer, r: ParentRef) {
    && (r.group.Some? ==> r.group.value == "gateway.networking.k8s.io") && (r.kind.Some? ==> r.kind.value == "Gateway")
    && OwnsGateway(w.scope, if r.namespace.Some? then r.namespace.value else w.namespace, r.name)
  }

  /** After a merge, every entry of the controller for a Gateway the writer owns reports one of its parents: what
      was left of others is gone, whichever way it spelled its reference. */
  lemma NothingStaleIsLeft(w: Writer, list: seq<Entry>, clock: nat -> int, le: (ParentRef, ParentRef) -> bool, e: Entry)
      returns (j: nat)
    requires TotalOrder(le) && e in Merged(w, list, clock, le) && e.controller == w.controller
    requires RefersToOwned(w, e.parentRef)
    ensures j < |w.parents| && ReportsParent(e, w, w.parents[j])
            && OwnsGateway(w.scope, w.parents[j].namespace, w.parents[j].name)
  {
    assert OwnsRef(w, e.parentRef);
    hide Merged, EntryFor, OwnsRef, OwnsGateway, Rebuilt, Under, ReportsParent;
    MergeKeepsOthers(w, list, clock, le);
    UnderMember(w.controller, Merged(w, list, clock, le), e.parentRef, e);
    OfKeyMember(EntryRef, e.parentRef, Rebuilt(w, list, |w.parents|, clock), e);
    j := RebuiltFrom(w, list, |w.parents|, clock, e);
    EntryReports(w, list, j, clock);
  }

  lemma {:induction false} ByController(controller: string, list: seq<Entry>)
    ensures Theirs(controller, list) == Filter((e: Entry) => e.controller != controller, list)
    ensures Ours(controller, list) == Filter((e: Entry) => e.controller == controller, list)
  {
    if list != [] {
      ByController(controller, list[1..]);
    }
  }

  /** A merge puts the other controllers' entries first, all of them and in their order; after them it has the
      controller's own, sorted: those of Gateways the writer does not own as they were, and its parents'. */
  lemma OthersStay(w: Writer, list: seq<Entry>, clock: nat -> int, le: (ParentRef, ParentRef) -> bool)
    requires TotalOrder(le)
    ensures var merged := Merged(w, list, clock, le);
            var foreign := Filter((e: Entry) => e.controller != w.controller, list);
            && foreign <= merged
            && (forall i :: |foreign| <= i < |merged| ==> merged[i].controller == w.controller)
            && (forall i, j :: |foreign| <= i < j < |merged| ==> le(merged[i].parentRef, merged[j].parentRef))
            && (forall e: Entry :: e.controller == w.controller && !RefersToOwned(w, e.parentRef) ==>
                  (e in merged <==> e in list))
  {
    hide OwnsRef, Rebuilt, Merged, SortedBy, Under;
    var merged := Merged(w, list, clock, le);
    ByController(w.controller, list);
    MergedIsFormed(w, list, clock, le);
    MergeKeepsOthers(w, list, clock, le);
    OursAreOurs(w.controller, merged);
    var ours := Ours(w.controller, merged);
    var foreign := Theirs(w.controller, list);
    assert merged == foreign + ours;
    forall i | |foreign| <= i < |merged| ensures merged[i] == ours[i - |foreign|]
        && merged[i].controller == w.controller {
      assert ours[i - |foreign|] in ours;
    }
    assert SortedBy(EntryRef, le, ours);
    OursInOrder(ours, le);
    forall e: Entry | e.controller == w.controller && !RefersToOwned(w, e.parentRef)
      ensures e in merged <==> e in list {
      OwnsIsRefers(w, e.parentRef);
      UnderMember(w.controller, merged, e.parentRef, e);
      UnderMember(w.controller, list, e.parentRef, e);
    }
  }

  lemma OursInOrder(ours: seq<Entry>, le: (ParentRef, ParentRef) -> bool)
    requires SortedBy(EntryRef, le, ours)
    ensures forall i, j :: 0 <= i < j < |ours| ==> le(ours[i].parentRef, ours[j].parentRef)
  {
    forall i, j | 0 <= i < j < |ours| ensures le(ours[i].parentRef, ours[j].parentRef) {
      assert le(EntryRef(ours[i]), EntryRef(ours[j]));
    }
  }

  lemma OwnsIsRefers(w: Writer, r: ParentRef)
    ensures OwnsRef(w, r) <==> RefersToOwned(w, r)
  {
  }

  lemma {:induction false} RebuiltFrom(w: Writer, list: seq<Entry>, n: nat, clock: nat -> int, e: Entry)
      returns (j: nat)
    requires n <= |w.parents| && e in Rebuilt(w, list, n, clock)
    ensures j < n && OwnsParent(w, w.parents[j]) && e == EntryFor(w, list, j, clock)
  {
    hide EntryFor, OwnsParent;
    if e in Rebuilt(w, list, n - 1, clock) {
      j := RebuiltFrom(w, list, n - 1, clock, e);
    } else {
      j := n - 1;
    }
  }

  /** The first condition of its kind is `cs[i]`. */
  predicate FirstOfKind(cs: seq<Condition>, kind: string, i: int) {
    0 <= i < |cs| && cs[i].kind == kind && forall k :: 0 <= k < i ==> cs[k].kind != kind
  }

  lemma {:induction false} FoundFirst(cs: seq<Condition>, kind: string, i: nat)
    requires FirstOfKind(cs, kind, i)
    ensures FindCondition(cs, kind) == Some(cs[i])
  {
    if i > 0 {
      assert cs[0].kind != kind && forall k :: 0 <= k < i - 1 ==> cs[1..][k] == cs[k + 1];
      FoundFirst(cs[1..], kind, i - 1);
    }
  }

  lemma {:induction false} FoundNone(cs: seq<Condition>, kind: string)
    requires forall k :: 0 <= k < |cs| ==> cs[k].kind != kind
    ensures FindCondition(cs, kind) == None
  {
    if cs != [] {
      FoundNone(cs[1..], kind);
    }
  }

  /** A condition that says what the first of its kind said before keeps its time; one that says anything else,
      or was not there, carries its own reading of the clock. */
  lemma TimesMoveWithContent(w: Writer, list: seq<Entry>, n: nat, clock: nat -> int, k: nat)
    requires n < |w.parents| && k < 2
    ensures var was := Existing(w.controller, list, RefOf(w.parents[n]));
            var c := EntryFor(w, list, n, clock).conditions;
            && |c| == 2
            && (forall i :: FirstOfKind(was, c[k].kind, i) ==>
                  c[k].since == if was[i].status == c[k].status && was[i].reason == c[k].reason
                                    && was[i].message == c[k].message then was[i].since else clock(2 * n + k))
            && ((forall i :: 0 <= i < |was| ==> was[i].kind != c[k].kind) ==> c[k].since == clock(2 * n + k))
  {
    hide Existing;
    var was := Existing(w.controller, list, RefOf(w.parents[n]));
    TwoConditions(w.parents[n], was, w.generation, clock, 2 * n);
    var c := EntryFor(w, list, n, clock).conditions;
    forall i | FirstOfKind(was, c[k].kind, i)
      ensures c[k].since == if was[i].status == c[k].status && was[i].reason == c[k].reason
                                && was[i].message == c[k].message then was[i].since else clock(2 * n + k)
    {
      FoundFirst(was, c[k].kind, i);
    }
    if forall i :: 0 <= i < |was| ==> was[i].kind != c[k].kind {
      FoundNone(was, c[k].kind);
    }
  }

  /** Every Gateway has one owner among the instances of a controller: the one scoped to it if it is excluded from
      the shared one, and else the shared one; an instance that runs for Ingresses only owns none. */
  lemma OneOwner(excluded: set<GatewayId>, g: GatewayId)
    ensures OwnsGateway(Scope(false, None, excluded), g.namespace, g.name) <==> g !in excluded
    ensures forall h, others :: OwnsGateway(Scope(false, Some(h), others), g.namespace, g.name) <==> g == h
    ensures forall h, others :: !OwnsGateway(Scope(true, h, others), g.namespace, g.name)
  {
  }

  /** A merge of the writer's own output changes nothing, at any clock, when its references are distinct; when
      they are merely consistent, once the list already says what they want. */
  lemma MergeAgain(w: Writer, list: seq<Entry>, c: nat -> int, d: nat -> int, le: (ParentRef, ParentRef) -> bool)
    requires TotalOrder(le) && Consistent(w) && (DistinctRefs(w) || Telling(w, list))
    ensures Merged(w, Merged(w, list, c, le), d, le) == Merged(w, list, c, le)
  {
    var merged := Merged(w, list, c, le);
    SameEntries(w, list, c, d, le);
    hide Merged, EntryFor, OwnsParent, OwnsRef, Under, Rebuilt, Telling, DistinctRefs, Consistent;
    RebuiltAgain(w, list, c, merged, d, |w.parents|);
    MergeKeepsOthers(w, list, c, le);
    MergedIsFormed(w, list, c, le);
    assert Right(w, merged, d);
    FixedExactlyWhenRight(w, merged, d, le);
  }

  lemma SameEntries(w: Writer, list: seq<Entry>, c: nat -> int, d: nat -> int, le: (ParentRef, ParentRef) -> bool)
    requires TotalOrder(le) && Consistent(w) && (DistinctRefs(w) || Telling(w, list))
    ensures forall j :: Owned(w, j) ==> EntryFor(w, list, j, c) == EntryFor(w, Merged(w, list, c, le), j, d)
  {
    hide Merged, EntryFor, Existing, OwnsParent, Tells, DesiredOf;
    var merged := Merged(w, list, c, le);
    MergedTells(w, list, c, le);
    forall j | Owned(w, j) ensures EntryFor(w, list, j, c) == EntryFor(w, merged, j, d) {
      TellingEntry(w, merged, j, d);
      var i := ExistingAfterMerge(w, list, c, le, j);
      EntryForRef(w, list, j, c);
      OurEntry(w, list, j, c);
      if i != j {
        TellingEntry(w, list, i, c);
        TellingEntry(w, list, j, c);
      }
    }
  }

  lemma OurEntry(w: Writer, list: seq<Entry>, n: nat, clock: nat -> int)
    requires n < |w.parents|
    ensures EntryFor(w, list, n, clock).controller == w.controller
  {
  }

  /** The merge leaves the list alone whatever the clock says. */
  ghost predicate LeftAlone(w: Writer, list: seq<Entry>, le: (ParentRef, ParentRef) -> bool) {
    forall clock: nat -> int :: Merged(w, list, clock, le) == list
  }

  /** With distinct references, what an instance writes it then leaves alone. */
  lemma MergeIsFixed(w: Writer, list: seq<Entry>, c: nat -> int, le: (ParentRef, ParentRef) -> bool)
    requires TotalOrder(le) && DistinctRefs(w)
    ensures LeftAlone(w, Merged(w, list, c, le), le)
  {
    hide Merged, OwnsParent;
    assert Consistent(w);
    forall d: nat -> int ensures Merged(w, Merged(w, list, c, le), d, le) == Merged(w, list, c, le) {
      MergeAgain(w, list, c, d, le);
    }
  }

  /** Consistent parents settle from every list: two merges, at any clocks, reach one that is left alone. */
  lemma TwoMergesSettle(w: Writer, list: seq<Entry>, c: nat -> int, d: nat -> int, le: (ParentRef, ParentRef) -> bool)
    requires TotalOrder(le) && Consistent(w)
    ensures LeftAlone(w, Merged(w, Merged(w, list, c, le), d, le), le)
  {
    hide Merged, Consistent;
    var once := Merged(w, list, c, le);
    MergedTells(w, list, c, le);
    forall e: nat -> int ensures Merged(w, Merged(w, once, d, le), e, le) == Merged(w, once, d, le) {
      MergeAgain(w, once, d, e, le);
    }
  }

  /** Parents sharing a reference ask for the same conditions if and only if some list is left alone, and if and
      only if two merges reach one from every list at every two clocks. */
  lemma SettlesExactlyWhenConsistent(w: Writer, le: (ParentRef, ParentRef) -> bool)
    requires TotalOrder(le)
    ensures Consistent(w) <==> exists list :: LeftAlone(w, list, le)
    ensures Consistent(w) <==>
            forall list, c: nat -> int, d: nat -> int :: LeftAlone(w, Merged(w, Merged(w, list, c, le), d, le), le)
  {
    hide Merged, Consistent, LeftAlone;
    var c: nat -> int := _ => 0;
    if Consistent(w) {
      forall list, c: nat -> int, d: nat -> int ensures LeftAlone(w, Merged(w, Merged(w, list, c, le), d, le), le) {
        TwoMergesSettle(w, list, c, d, le);
      }
    }
    var twice := Merged(w, Merged(w, [], c, le), c, le);
    if LeftAlone(w, twice, le) {
      LeftAloneIsConsistent(w, twice, le);
    }
    if list :| LeftAlone(w, list, le) {
      LeftAloneIsConsistent(w, list, le);
    }
  }

  lemma LeftAloneIsConsistent(w: Writer, list: seq<Entry>, le: (ParentRef, ParentRef) -> bool)
    requires TotalOrder(le) && LeftAlone(w, list, le)
    ensures Consistent(w)
  {
    hide Merged, OwnsRef, EntryFor, DesiredOf, Said, Existing;
    var c: nat -> int, d: nat -> int := _ => 0, _ => 1;
    FixedExactlyWhenRight(w, list, c, le);
    FixedExactlyWhenRight(w, list, d, le);
    assert Merged(w, list, c, le) == list && Merged(w, list, d, le) == list;
    forall i, j | Owned(w, i) && Owned(w, j) && RefOf(w.parents[i]) == RefOf(w.parents[j])
      ensures DesiredOf(w.parents[i]) == DesiredOf(w.parents[j])
    {
      var r := RefOf(w.parents[i]);
      OwnRefs(w, w.parents[i]);
      assert Under(w.controller, list, r) == RebuiltUnder(w, list, c, r) == RebuiltUnder(w, list, d, r);
      SameUnder(w, list, c, d, |w.parents|, r);
      TimelessTells(w, list, i, c, d);
      TimelessTells(w, list, j, c, d);
      SaidAlike(w.parents[i], w.parents[j], Existing(w.controller, list, r));
    }
  }

  ghost predicate Said(found: seq<Condition>, p: Parent) {
    forall k :: 0 <= k < 2 ==>
      var previous := FindCondition(found, DesiredOf(p)[k].kind);
      previous.Some? && Says(previous.value, DesiredOf(p)[k])
  }

  lemma SaidAlike(p: Parent, q: Parent, found: seq<Condition>)
    requires Said(found, p) && Said(found, q)
    ensures DesiredOf(p) == DesiredOf(q)
  {
    hide FindCondition;
    assert forall k :: 0 <= k < 2 ==> DesiredOf(p)[k].kind == DesiredOf(q)[k].kind;
    assert DesiredOf(p)[0] == DesiredOf(q)[0];
    assert DesiredOf(p)[1] == DesiredOf(q)[1];
  }

  lemma {:induction false} SameUnder(w: Writer, list: seq<Entry>, c: nat -> int, d: nat -> int, n: nat, r: ParentRef)
    requires n <= |w.parents|
    ensures var x, y := OfKey(EntryRef, r, Rebuilt(w, list, n, c)), OfKey(EntryRef, r, Rebuilt(w, list, n, d));
            && |x| == |y|
            && (x == y ==> forall j :: 0 <= j < n && Owned(w, j) && RefOf(w.parents[j]) == r ==>
                  EntryFor(w, list, j, c) == EntryFor(w, list, j, d))
  {
    if n > 0 {
      hide EntryFor, OwnsParent, RefOf, OfKey, Rebuilt;
      SameUnder(w, list, c, d, n - 1, r);
      RebuiltNext(w, list, n, c, r);
      RebuiltNext(w, list, n, d, r);
      var x, y := OfKey(EntryRef, r, Rebuilt(w, list, n - 1, c)), OfKey(EntryRef, r, Rebuilt(w, list, n - 1, d));
      SameLast(x, EntryFor(w, list, n - 1, c), y, EntryFor(w, list, n - 1, d));
    }
  }

  lemma SameLast<T>(x: seq<T>, a: T, y: seq<T>, b: T)
    requires |x| == |y|
    ensures x + [a] == y + [b] <==> x == y && a == b
    ensures x + [] == x && y + [] == y
  {
    if x + [a] == y + [b] {
      assert (x + [a])[..|x|] == x && (y + [b])[..|y|] == y;
      assert (x + [a])[|x|] == a && (y + [b])[|y|] == b;
    }
  }

  /** An entry two clocks agree on was found to say what its parent wants. */
  lemma TimelessTells(w: Writer, list: seq<Entry>, j: nat, c: nat -> int, d: nat -> int)
    requires j < |w.parents| && EntryFor(w, list, j, c) == EntryFor(w, list, j, d)
    requires forall i :: c(i) != d(i)
    ensures Said(Existing(w.controller, list, RefOf(w.parents[j])), w.parents[j])
  {
    hide FindCondition, Existing;
    var p := w.parents[j];
    var found := Existing(w.controller, list, RefOf(p));
    TwoConditions(p, found, w.generation, c, 2 * j);
    TwoConditions(p, found, w.generation, d, 2 * j);
  }

  // ---- several writers -----------------------------------------------------------------------------------

  ghost predicate Disjoint(s: Scope, t: Scope) {
    forall namespace, name :: !(OwnsGateway(s, namespace, name) && OwnsGateway(t, namespace, name))
  }

  /** The instances writing one route's status: one controller, no Gateway owned twice, distinct references. */
  ghost predicate Team(ws: seq<Writer>) {
    && (forall i, j :: 0 <= i < j < |ws| ==>
          ws[i].controller == ws[j].controller && ws[i].namespace == ws[j].namespace
              && Disjoint(ws[i].scope, ws[j].scope))
    && (forall i :: 0 <= i < |ws| ==> DistinctRefs(ws[i]))
  }

  lemma TeamRefs(ws: seq<Writer>, i: nat, j: nat, r: ParentRef)
    requires Team(ws) && i < |ws| && j < |ws| && i != j && OwnsRef(ws[i], r)
    ensures !OwnsRef(ws[j], r) && ws[i].controller == ws[j].controller
  {
    hide DistinctRefs, OwnsGateway;
    var a, b := if i < j then i else j, if i < j then j else i;
    assert Disjoint(ws[a].scope, ws[b].scope) && ws[a].namespace == ws[b].namespace;
  }

  /** At any clock, the writer finds nothing of its own to change. */
  ghost predicate UpToDate(w: Writer, list: seq<Entry>) {
    forall clock: nat -> int :: Right(w, list, clock)
  }

  lemma UpToDateAfterMerge(w: Writer, list: seq<Entry>, c: nat -> int, le: (ParentRef, ParentRef) -> bool)
    requires TotalOrder(le) && DistinctRefs(w)
    ensures UpToDate(w, Merged(w, list, c, le))
  {
    hide Merged, Right, OwnsParent;
    MergeIsFixed(w, list, c, le);
    var merged := Merged(w, list, c, le);
    forall clock: nat -> int ensures Right(w, merged, clock) {
      assert Merged(w, merged, clock, le) == merged;
      FixedExactlyWhenRight(w, merged, clock, le);
    }
  }

  /** The writer's rebuilt entries depend only on what stands under its own references. */
  lemma SameOwnSameRight(w: Writer, a: seq<Entry>, b: seq<Entry>)
    requires forall r :: OwnsRef(w, r) ==> Under(w.controller, a, r) == Under(w.controller, b, r)
    requires UpToDate(w, a)
    ensures UpToDate(w, b)
  {
    hide OwnsRef, OwnsParent, Under, EntryFor;
    forall clock: nat -> int ensures Right(w, b, clock) {
      assert Right(w, a, clock);
      forall j | Owned(w, j) ensures EntryFor(w, a, j, clock) == EntryFor(w, b, j, clock) {
        SameEntry(w, a, b, j, clock);
      }
      RebuiltAgain(w, a, clock, b, clock, |w.parents|);
    }
  }

  lemma SameEntry(w: Writer, a: seq<Entry>, b: seq<Entry>, j: nat, clock: nat -> int)
    requires Owned(w, j) && forall r :: OwnsRef(w, r) ==> Under(w.controller, a, r) == Under(w.controller, b, r)
    ensures EntryFor(w, a, j, clock) == EntryFor(w, b, j, clock)
  {
    hide Existing, Under;
    OwnRefs(w, w.parents[j]);
    ExistingIsFirst(w.controller, a, RefOf(w.parents[j]));
    ExistingIsFirst(w.controller, b, RefOf(w.parents[j]));
  }

  lemma OtherMergeKeeps(ws: seq<Writer>, i: nat, j: nat, list: seq<Entry>, c: nat -> int,
                        le: (ParentRef, ParentRef) -> bool)
    requires TotalOrder(le) && Team(ws) && i < |ws| && j < |ws| && i != j && UpToDate(ws[i], list)
    ensures UpToDate(ws[i], Merged(ws[j], list, c, le))
  {
    hide Merged, UpToDate, Under, OwnsRef, Team;
    MergeKeepsOthers(ws[j], list, c, le);
    forall r | OwnsRef(ws[i], r)
      ensures Under(ws[i].controller, list, r) == Under(ws[i].controller, Merged(ws[j], list, c, le), r)
    {
      TeamRefs(ws, i, j, r);
    }
    SameOwnSameRight(ws[i], list, Merged(ws[j], list, c, le));
  }

  /** A writer between two passes, with a list it has read and means to replace, or at the end of a pass. */
  datatype Turn = Ready(conflicts: nat) | Holding(read: seq<Entry>, version: nat, merged: seq<Entry>,
                                                  conflicts: nat) | Ended(ok: bool)

  /** The route's status with its resource version, the writers, and those whose last completed pass found or
      put their entries right. */
  datatype State = State(list: seq<Entry>, version: nat, turns: seq<Turn>, right: set<nat>)

  /** A read, at some reading of the clock; a write of what was merged from it; the next pass; a write by
      another controller, which leaves ours alone. */
  datatype Step = Read(i: nat, clock: nat -> int) | Write(i: nat) | Again(i: nat) | Foreign(list: seq<Entry>)

  ghost predicate Enabled(ws: seq<Writer>, s: State, step: Step) {
    match step
    case Read(i, _) => i < |ws| == |s.turns| && s.turns[i].Ready?
    case Write(i) => i < |ws| == |s.turns| && s.turns[i].Holding?
    case Again(i) => i < |ws| == |s.turns| && s.turns[i].Ended?
    case Foreign(list) => forall w :: w in ws ==> Ours(w.controller, list) == Ours(w.controller, s.list)
  }

  function Next(ws: seq<Writer>, s: State, step: Step, le: (ParentRef, ParentRef) -> bool): State {
    match step
    case Read(i, clock) =>
      if i < |ws| == |s.turns| && s.turns[i].Ready? then
        var merged := Merged(ws[i], s.list, clock, le);
        if merged == s.list then s.(turns := s.turns[i := Ended(true)], right := s.right + {i})
        else s.(turns := s.turns[i := Holding(s.list, s.version, merged, s.turns[i].conflicts)])
      else s
    case Write(i) =>
      if i < |s.turns| && s.turns[i].Holding? then
        var t := s.turns[i];
        if t.version == s.version then State(t.merged, s.version + 1, s.turns[i := Ended(true)], s.right + {i})
        else s.(turns := s.turns[i := if t.conflicts < 2 then Ready(t.conflicts + 1) else Ended(false)])
      else s
    case Again(i) => if i < |s.turns| then s.(turns := s.turns[i := Ready(0)]) else s
    case Foreign(list) => s.(list := list, version := s.version + 1)
  }

  /** A list held under the current version is the current list, merged at some clock. */
  ghost predicate Held(ws: seq<Writer>, s: State, le: (ParentRef, ParentRef) -> bool) {
    && |s.turns| == |ws|
    && forall i :: 0 <= i < |ws| && s.turns[i].Holding? ==>
         && s.turns[i].version <= s.version && s.turns[i].conflicts <= 2
         && IsMerge(ws[i], s.turns[i].read, s.turns[i].merged, le)
         && (s.turns[i].version == s.version ==> s.turns[i].read == s.list)
  }

  ghost predicate IsMerge(w: Writer, list: seq<Entry>, merged: seq<Entry>, le: (ParentRef, ParentRef) -> bool) {
    exists clock: nat -> int :: merged == Merged(w, list, clock, le)
  }

  ghost predicate AllRight(ws: seq<Writer>, s: State) {
    forall i :: i in s.right ==> i < |ws| && UpToDate(ws[i], s.list)
  }

  ghost predicate Inv(ws: seq<Writer>, s: State, le: (ParentRef, ParentRef) -> bool) {
    Held(ws, s, le) && AllRight(ws, s) && forall i :: 0 <= i < |s.turns| && s.turns[i].Ready? ==>
        s.turns[i].conflicts <= 2
  }

  lemma ForeignKeeps(ws: seq<Writer>, s: State, list: seq<Entry>, le: (ParentRef, ParentRef) -> bool)
    requires Inv(ws, s, le) && Enabled(ws, s, Foreign(list))
    ensures Inv(ws, Next(ws, s, Foreign(list), le), le)
  {
    hide IsMerge, UpToDate;
    forall i | i in s.right ensures UpToDate(ws[i], list) {
      assert ws[i] in ws;
      SameOwnSameRight(ws[i], s.list, list);
    }
  }

  lemma MergeKeepsRight(ws: seq<Writer>, s: State, i: nat, merged: seq<Entry>, le: (ParentRef, ParentRef) -> bool)
    requires TotalOrder(le) && Team(ws) && AllRight(ws, s) && i < |ws| && IsMerge(ws[i], s.list, merged, le)
    ensures forall k :: k in s.right + {i} ==> k < |ws| && UpToDate(ws[k], merged)
  {
    hide UpToDate, Merged, DistinctRefs, Disjoint;
    var clock: nat -> int :| merged == Merged(ws[i], s.list, clock, le);
    UpToDateAfterMerge(ws[i], s.list, clock, le);
    forall k | k in s.right + {i} ensures k < |ws| && UpToDate(ws[k], merged) {
      if k != i {
        OtherMergeKeeps(ws, k, i, s.list, clock, le);
      }
    }
  }

  lemma ReadKeeps(ws: seq<Writer>, s: State, i: nat, clock: nat -> int, le: (ParentRef, ParentRef) -> bool)
    requires TotalOrder(le) && Team(ws) && Inv(ws, s, le) && Enabled(ws, s, Read(i, clock))
    ensures Inv(ws, Next(ws, s, Read(i, clock), le), le)
  {
    hide UpToDate, Merged, Team;
    var merged := Merged(ws[i], s.list, clock, le);
    assert IsMerge(ws[i], s.list, merged, le);
    if merged == s.list {
      MergeKeepsRight(ws, s, i, merged, le);
    }
  }

  lemma WriteKeeps(ws: seq<Writer>, s: State, i: nat, le: (ParentRef, ParentRef) -> bool)
    requires TotalOrder(le) && Team(ws) && Inv(ws, s, le) && Enabled(ws, s, Write(i))
    ensures Inv(ws, Next(ws, s, Write(i), le), le)
  {
    hide UpToDate, IsMerge, Team;
    if s.turns[i].version == s.version {
      MergeKeepsRight(ws, s, i, s.turns[i].merged, le);
    }
  }

  ghost predicate Run(ws: seq<Writer>, states: seq<State>, steps: seq<Step>, le: (ParentRef, ParentRef) -> bool) {
    && |states| == |steps| + 1 && states[0].right == {} && |states[0].turns| == |ws|
    && (forall i :: 0 <= i < |ws| ==> states[0].turns[i] == Ready(0))
    && forall i :: 0 <= i < |steps| ==>
         Enabled(ws, states[i], steps[i]) && states[i + 1] == Next(ws, states[i], steps[i], le)
  }

  lemma {:induction false} RunKeeps(ws: seq<Writer>, states: seq<State>, steps: seq<Step>,
                                    le: (ParentRef, ParentRef) -> bool, n: nat)
    requires TotalOrder(le) && Team(ws) && Run(ws, states, steps, le) && n < |states|
    ensures Inv(ws, states[n], le)
  {
    hide Team, Next, IsMerge, UpToDate, Enabled, Inv;
    if n == 0 {
      StartsRight(ws, states[0], le);
    } else {
      RunKeeps(ws, states, steps, le, n - 1);
      StepKeeps(ws, states[n - 1], steps[n - 1], le);
    }
  }

  lemma StartsRight(ws: seq<Writer>, s: State, le: (ParentRef, ParentRef) -> bool)
    requires s.right == {} && |s.turns| == |ws| && forall i :: 0 <= i < |ws| ==> s.turns[i] == Ready(0)
    ensures Inv(ws, s, le)
  {
  }

  lemma StepKeeps(ws: seq<Writer>, s: State, step: Step, le: (ParentRef, ParentRef) -> bool)
    requires TotalOrder(le) && Team(ws) && Inv(ws, s, le) && Enabled(ws, s, step)
    ensures Inv(ws, Next(ws, s, step, le), le)
  {
    hide Team, UpToDate, IsMerge;
    match step
    case Read(i, clock) => ReadKeeps(ws, s, i, clock, le);
    case Write(i) => WriteKeeps(ws, s, i, le);
    case Again(i) =>
    case Foreign(list) => ForeignKeeps(ws, s, list, le);
  }

  /** In every interleaving, once each writer has completed a pass, the list is one that all of them leave
      alone, or becomes one when any of them restores the order another controller disturbed. */
  lemma WritersSettle(ws: seq<Writer>, states: seq<State>, steps: seq<Step>, le: (ParentRef, ParentRef) -> bool, n: nat,
                      i: nat)
    requires TotalOrder(le) && Team(ws) && Run(ws, states, steps, le) && n < |states| && i < |ws|
    requires forall k :: 0 <= k < |ws| ==> k in states[n].right
    ensures Formed(ws[i].controller, states[n].list, le) ==> LeftAlone(ws[i], states[n].list, le)
    ensures forall j, clock: nat -> int :: 0 <= j < |ws| ==>
        LeftAlone(ws[i], Merged(ws[j], states[n].list, clock, le), le)
  {
    hide Merged, UpToDate, Formed, Right, Team, Run;
    var s := states[n];
    RunKeeps(ws, states, steps, le, n);
    assert forall k :: k in s.right ==> UpToDate(ws[k], s.list);
    if Formed(ws[i].controller, s.list, le) {
      RightIsLeftAlone(ws[i], s.list, le);
    }
    forall j, clock: nat -> int | 0 <= j < |ws| ensures LeftAlone(ws[i], Merged(ws[j], s.list, clock, le), le) {
      var merged := Merged(ws[j], s.list, clock, le);
      assert IsMerge(ws[j], s.list, merged, le);
      MergeKeepsRight(ws, s, j, merged, le);
      assert UpToDate(ws[i], merged);
      SameController(ws, i, j);
      MergedIsFormed(ws[j], s.list, clock, le);
      RightIsLeftAlone(ws[i], merged, le);
    }
  }

  lemma SameController(ws: seq<Writer>, i: nat, j: nat)
    requires Team(ws) && i < |ws| && j < |ws|
    ensures ws[i].controller == ws[j].controller
  {
    hide Disjoint, DistinctRefs;
    if i < j {
      assert Disjoint(ws[i].scope, ws[j].scope);
    } else if j < i {
      assert Disjoint(ws[j].scope, ws[i].scope);
    }
  }

  lemma RightIsLeftAlone(w: Writer, list: seq<Entry>, le: (ParentRef, ParentRef) -> bool)
    requires TotalOrder(le) && Formed(w.controller, list, le) && UpToDate(w, list)
    ensures LeftAlone(w, list, le)
  {
    hide Merged, Formed, Right;
    forall clock: nat -> int ensures Merged(w, list, clock, le) == list {
      FixedExactlyWhenRight(w, list, clock, le);
    }
  }

  /** No step but a writer's own touches its entries, and none but another controller's touches that one's. */
  lemma NothingOfOthersIsLost(ws: seq<Writer>, s: State, step: Step, le: (ParentRef, ParentRef) -> bool, i: nat)
    requires TotalOrder(le) && Team(ws) && Inv(ws, s, le) && Enabled(ws, s, step) && i < |ws|
    ensures step != Write(i) ==>
              forall r :: OwnsRef(ws[i], r) ==>
                  Under(ws[i].controller, Next(ws, s, step, le).list, r) == Under(ws[i].controller, s.list, r)
    ensures !step.Foreign? ==> Theirs(ws[i].controller, Next(ws, s, step, le).list) == Theirs(ws[i].controller, s.list)
  {
    hide Merged, OwnsRef, Team, UpToDate, OfKey, Theirs;
    assert ws[i] in ws;
    if step.Write? && s.turns[step.i].version == s.version {
      var j := step.i;
      SameController(ws, i, j);
      var clock: nat -> int :| s.turns[j].merged == Merged(ws[j], s.list, clock, le);
      MergeKeepsOthers(ws[j], s.list, clock, le);
      if i != j {
        forall r | OwnsRef(ws[i], r)
          ensures Under(ws[i].controller, s.turns[j].merged, r) == Under(ws[i].controller, s.list, r)
        {
          TeamRefs(ws, i, j, r);
        }
      }
    }
  }

  // ---- one writer's pass ---------------------------------------------------------------------------------

  /** What the API server says to one attempt: the object as it stands, the readings of the clock while
      merging, and how a patch of it fares. */
  datatype Reply = Accepted | Conflict | Refused

  datatype Answer = Answer(generation: Option<int>, uid: Option<string>, list: seq<Entry>, versioned: bool,
                           clock: nat -> int, reply: Reply)

  datatype Outcome = Stale | Unchanged | Written(list: seq<Entry>) | Failed

  /** The attempt is answered by a conflict, so the pass goes on. */
  predicate Conflicted(w: Writer, uid: Option<string>, a: Answer, le: (ParentRef, ParentRef) -> bool) {
    && a.generation == w.generation && a.uid == uid && a.versioned && a.reply.Conflict?
    && Merged(w, a.list, a.clock, le) != a.list
  }

  function Settled(w: Writer, uid: Option<string>, a: Answer, le: (ParentRef, ParentRef) -> bool): Outcome {
    if a.generation != w.generation || a.uid != uid then Stale
    else if Merged(w, a.list, a.clock, le) == a.list then Unchanged
    else if a.versioned && a.reply.Accepted? then Written(Merged(w, a.list, a.clock, le))
    else Failed
  }

  /** What a settled answer means: nothing is written for an object of another generation or identity, nor when
      the merge into what was read changes nothing; what is written is that merge, over a version the server
      accepted. */
  lemma SettledMeans(w: Writer, uid: Option<string>, a: Answer, le: (ParentRef, ParentRef) -> bool)
    ensures var r, current := Settled(w, uid, a, le), a.generation == w.generation && a.uid == uid;
            && (r.Stale? <==> !current)
            && (r.Unchanged? <==> current && Merged(w, a.list, a.clock, le) == a.list)
            && (r.Written? ==> current && a.versioned && a.reply.Accepted?
                               && r.list == Merged(w, a.list, a.clock, le) && r.list != a.list)
            && (r.Failed? ==> current && (!a.versioned || !a.reply.Accepted?))
  {
    hide Merged;
  }

  /** A pass merges afresh into what it last read, and gives up after its third conflict. */
  method WriteRoute(w: Writer, uid: Option<string>, answers: nat -> Answer, le: (ParentRef, ParentRef) -> bool)
      returns (outcome: Outcome, attempts: nat)
    requires TotalOrder(le)
    ensures 1 <= attempts <= 3
    ensures forall i :: 0 <= i < attempts - 1 ==> Conflicted(w, uid, answers(i), le)
    ensures attempts < 3 ==> !Conflicted(w, uid, answers(attempts - 1), le)
    ensures outcome == Settled(w, uid, answers(attempts - 1), le)
  {
    hide Merged;
    var conflicts := 0;
    while true
      invariant 0 <= conflicts <= 2
      invariant forall i :: 0 <= i < conflicts ==> Conflicted(w, uid, answers(i), le)
      decreases 2 - conflicts
    {
      attempts := conflicts + 1;
      var current := answers(conflicts);
      if current.generation != w.generation || current.uid != uid {
        return Stale, attempts;
      }
      var parents := RouteParents(w, current.list, current.clock, le);
      if parents == current.list {
        return Unchanged, attempts;
      }
      if !current.versioned {
        return Failed, attempts;
      }
      if current.reply == Conflict && conflicts < 2 {
        conflicts := conflicts + 1;
      } else if current.reply == Accepted {
        return Written(parents), attempts;
      } else {
        return Failed, attempts;
      }
    }
  }
}
