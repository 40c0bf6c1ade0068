/** Wakeups: how a change in the cache reaches a rebuild, and the one way it can fail to. */
module Wakeups {
  import opened Base

  /** A part of the caches: the slices of one Service, or any other object. */
  datatype Subject = Other(id: nat) | Slices(service: string)

  /** A watch event whose cache update is visible: for any kind but EndpointSlice, for a relist of the slices,
      or for one slice, with the Service it is now labelled with. It touched some parts of the caches. */
  datatype Notice =
    | Watched(touched: set<Subject>)
    | Relisted(touched: set<Subject>)
    | SliceChanged(touched: set<Subject>, key: Option<string>)

  const CHANGES := 64
  const ENDPOINTS := 1

  // ---- channels --------------------------------------------------------------------------------------

  /** A lossy send: a full channel drops the notice, which the queued ones stand for. */
  function Sent(queued: nat, capacity: nat): (after: nat)
    requires capacity > 0
    ensures after > 0 && after >= queued && (queued <= capacity ==> after <= capacity)
  {
    if queued < capacity then queued + 1 else queued
  }

  /** A bounded channel of notices that carry nothing. */
  class Channel {
    var queued: nat
    const capacity: nat

    ghost predicate Valid()
      reads this
    {
      queued <= capacity && capacity > 0
    }

    constructor (capacity: nat)
      requires capacity > 0
      ensures Valid() && queued == 0 && this.capacity == capacity
    {
      this.capacity := capacity;
      queued := 0;
    }

    method TrySend()
      requires Valid()
      modifies this
      ensures Valid() && queued == Sent(old(queued), capacity)
    {
      if queued < capacity {
        queued := queued + 1;
      }
    }

    method TryReceive() returns (received: bool)
      requires Valid()
      modifies this
      ensures Valid() && received == (old(queued) > 0)
      ensures queued == if received then old(queued) - 1 else 0
    {
      received := queued > 0;
      if received {
        queued := queued - 1;
      }
    }

    /** Takes what is queued at the start while producers go on sending, `arriving(i)` notices before
        attempt `i`: it ends whatever they do, and leaves at most what they sent. */
    method DrainPending(arriving: nat -> nat) returns (attempts: nat)
      requires Valid()
      modifies this
      ensures Valid() && attempts <= old(queued) && queued <= Total(arriving, attempts)
    {
      var bound := queued;
      attempts := 0;
      while attempts < bound
        invariant Valid() && attempts <= bound
        invariant bound <= queued + attempts <= bound + Total(arriving, attempts)
      {
        Arrive(arriving(attempts));
        var received := TryReceive();
        attempts := attempts + 1;
        if !received {
          break;
        }
      }
    }

    method Arrive(notices: nat)
      requires Valid()
      modifies this
      ensures Valid() && old(queued) <= queued <= old(queued) + notices
    {
      for i := 0 to notices
        invariant Valid() && old(queued) <= queued <= old(queued) + i
      {
        TrySend();
      }
    }
  }

  function Total(arriving: nat -> nat, n: nat): nat {
    if n == 0 then 0 else Total(arriving, n - 1) + arriving(n - 1)
  }

  /** What producers send while a rebuild settles: on both channels during the debounce; on each before every
      attempt of its own drain; and on each while the other is drained. */
  datatype Arrivals = Arrivals(debounceChanges: nat, debounceEndpoints: nat,
                               toChanges: nat -> nat, whileChanges: nat, toEndpoints: nat -> nat, whileEndpoints: nat)

  /** Settling, after one notice was taken: at most one more, from the endpoints, ends the wait, and what stays on
      the channels arrived meanwhile. */
  method Settle(changes: Channel, endpoints: Channel, firstWasEndpoint: bool, a: Arrivals) returns (attempts: nat)
    requires changes.Valid() && endpoints.Valid() && changes != endpoints
    modifies changes, endpoints
    ensures changes.Valid() && endpoints.Valid() && attempts <= changes.capacity + endpoints.capacity
    ensures firstWasEndpoint ==> attempts <= old(changes.queued) + old(endpoints.queued) + a.whileChanges
    ensures changes.queued <= Total(a.toChanges, attempts) + a.whileEndpoints
    ensures endpoints.queued <= Total(a.toEndpoints, attempts)
  {
    if !firstWasEndpoint {
      changes.Arrive(a.debounceChanges);
      endpoints.Arrive(a.debounceEndpoints);
      var cutShort := endpoints.TryReceive();
    }
    var first := changes.DrainPending(a.toChanges);
    endpoints.Arrive(a.whileChanges);
    var second := endpoints.DrainPending(a.toEndpoints);
    changes.Arrive(a.whileEndpoints);
    attempts := first + second;
    TotalGrows(a.toChanges, first, attempts);
    TotalGrows(a.toEndpoints, second, attempts);
  }

  lemma {:induction false} TotalGrows(arriving: nat -> nat, m: nat, n: nat)
    requires m <= n
    ensures Total(arriving, m) <= Total(arriving, n)
  {
    if m < n {
      TotalGrows(arriving, m, n - 1);
    }
  }

  // ---- the two sides -----------------------------------------------------------------------------------

  /** Where the loop is: waiting; committed to a rebuild, with its settling still to do or the snapshot next;
      or with a snapshot taken and the Services it references not yet published. */
  datatype Phase =
    | Waiting
    | Debouncing
    | DrainingChanges(left: nat)
    | DrainingEndpoints(left: nat)
    | Building
    | Built(referenced: set<string>)
    | Applying

  /** The caches, as a count of changes by subject; the events whose notice is still to be given; the Services
      the last build referenced; the channels; the last snapshot; and whether a failed pass left work behind.
      The last three fields record, for the statements below, the changes the last snapshot lacks that gave no
      notice: every one filtered out; those filtered while a build that references their Service held its
      snapshot with its Services unpublished; and those of a Service a slice left for one no build references. */
  datatype State = State(
    cache: map<Subject, nat>, notices: multiset<Notice>, referenced: set<string>, changes: nat, endpoints: nat,
    phase: Phase, snapshot: map<Subject, nat>, pending: bool,
    filtered: set<Subject>, raced: set<Subject>, moved: set<Subject>)

  function Version(m: map<Subject, nat>, x: Subject): nat {
    if x in m then m[x] else 0
  }

  predicate Referenced(referenced: set<string>, x: Subject) {
    x.Slices? ==> x.service in referenced
  }

  /** Whether an event wakes the loop: a slice's only for a Service the last build referenced, unless no build
      has referenced anything. */
  predicate Pings(referenced: set<string>, n: Notice) {
    n.SliceChanged? && referenced != {} ==> n.key.Some? && n.key.value in referenced
  }

  function Notify(s: State, n: Notice): State {
    var t := s.(notices := s.notices - multiset{n});
    if !Pings(s.referenced, n) then
      var late := set x | x in n.touched && Version(s.cache, x) != Version(s.snapshot, x);
      t.(filtered := s.filtered + late,
         raced := s.raced + (set x | x in late && s.phase.Built? && Referenced(s.phase.referenced, x)),
         moved := s.moved + (set x | x in late && Referenced(s.referenced, x)))
    else if n.Watched? || s.referenced == {} then t.(changes := Sent(s.changes, CHANGES))
    else t.(endpoints := Sent(s.endpoints, ENDPOINTS))
  }

  /** The notice an event gives, on the channels themselves. */
  method NotifyEvent(n: Notice, referenced: set<string>, changes: Channel, endpoints: Channel)
    requires changes.Valid() && endpoints.Valid() && changes != endpoints
    modifies changes, endpoints
    ensures changes.Valid() && endpoints.Valid()
    ensures forall s: State :: Given(s, referenced, old(changes.queued), old(endpoints.queued), changes.capacity,
                                     endpoints.capacity) ==>
              Notify(s, n).changes == changes.queued && Notify(s, n).endpoints == endpoints.queued
  {
    if Pings(referenced, n) {
      if n.Watched? || referenced == {} {
        changes.TrySend();
      } else {
        endpoints.TrySend();
      }
    }
  }

  /** Where a notice goes: an object's to the changes channel; a relist's and a referenced Service's slice's to the
      endpoints, once some build has referenced a Service, and to the changes before; and the notice of a slice of
      no referenced Service wakes nothing. Each channel holds one more, or stays full. */
  lemma NoticeGoes(s: State, n: Notice)
    requires s.changes <= 64 && s.endpoints <= 1
    ensures var t := Notify(s, n);
            var unheard := n.SliceChanged? && s.referenced != {} && (n.key == None || n.key.value !in s.referenced);
            var toChanges := n.Watched? || s.referenced == {};
            && t.cache == s.cache && t.phase == s.phase && t.referenced == s.referenced && t.pending == s.pending
            && (unheard ==> t.changes == s.changes && t.endpoints == s.endpoints)
            && (!unheard && toChanges ==>
                  t.changes == (if s.changes < 64 then s.changes + 1 else 64) && t.endpoints == s.endpoints)
            && (!unheard && !toChanges ==> t.changes == s.changes && t.endpoints == 1)
            && (!unheard ==> t.filtered == s.filtered)
  {
  }

  ghost predicate Given(s: State, referenced: set<string>, changes: nat, endpoints: nat, c: nat, e: nat) {
    s.referenced == referenced && s.changes == changes && s.endpoints == endpoints && c == CHANGES && e == ENDPOINTS
  }

  function Touch(cache: map<Subject, nat>, touched: set<Subject>): map<Subject, nat> {
    map x | x in cache.Keys + touched :: Version(cache, x) + if x in touched then 1 else 0
  }

  /** One step of either side: a cache update, then its notice; the loop receiving, settling one message at a
      time, taking its snapshot, publishing its Services, and ending; ticks, and the loop's nudges to itself. */
  datatype Step =
    | Update(n: Notice)
    | GiveNotice(n: Notice)
    | ReceiveChange
    | ReceiveEndpoint
    | EndDebounce(interrupted: bool)
    | Drain
    | Tick
    | Nudge
    | Fail
    | Snapshot(referenced: set<string>)
    | Publish
    | Finish(ok: bool)

  ghost predicate Enabled(s: State, step: Step) {
    match step
    case Update(n) => n.SliceChanged? ==> forall x :: x in n.touched ==> x.Slices?
    case GiveNotice(n) => n in s.notices
    case ReceiveChange => s.phase.Waiting? && s.changes > 0
    case ReceiveEndpoint => s.phase.Waiting? && s.endpoints > 0
    case EndDebounce(interrupted) => s.phase.Debouncing? && (interrupted ==> s.endpoints > 0)
    case Drain => s.phase.DrainingChanges? || s.phase.DrainingEndpoints?
    case Tick => s.phase.Waiting?
    case Nudge => true
    case Fail => s.phase.Building?
    case Snapshot(_) => s.phase.Building?
    case Publish => s.phase.Built?
    case Finish(_) => s.phase.Applying?
  }

  function Next(s: State, step: Step): State {
    match step
    case Update(n) => s.(cache := Touch(s.cache, n.touched), notices := s.notices + multiset{n})
    case GiveNotice(n) => Notify(s, n)
    case ReceiveChange => s.(changes := if s.changes > 0 then s.changes - 1 else 0, phase := Debouncing)
    case ReceiveEndpoint => s.(endpoints := if s.endpoints > 0 then s.endpoints - 1 else 0,
                               phase := DrainingChanges(s.changes))
    case EndDebounce(interrupted) =>
      s.(endpoints := if interrupted && s.endpoints > 0 then s.endpoints - 1 else s.endpoints,
         phase := DrainingChanges(s.changes))
    case Drain => Drained(s)
    case Tick => s.(phase := Building)
    case Nudge => s.(changes := Sent(s.changes, CHANGES))
    case Fail => s.(phase := Waiting, pending := true)
    case Snapshot(referenced) =>
      s.(snapshot := s.cache, phase := Built(referenced), filtered := {}, raced := {}, moved := {})
    case Publish => if s.phase.Built? then s.(referenced := s.phase.referenced, phase := Applying) else s
    case Finish(ok) => s.(phase := Waiting, pending := !ok)
  }

  function Drained(s: State): State {
    match s.phase
    case DrainingChanges(left) =>
      if left > 0 && s.changes > 0 then s.(changes := s.changes - 1, phase := DrainingChanges(left - 1))
      else s.(phase := DrainingEndpoints(s.endpoints))
    case DrainingEndpoints(left) =>
      if left > 0 && s.endpoints > 0 then s.(endpoints := s.endpoints - 1, phase := DrainingEndpoints(left - 1))
      else s.(phase := Building)
    case _ => s
  }

  // ---- no lost wakeup ------------------------------------------------------------------------------------

  /** The cache holds a change of `x` the last snapshot does not. */
  ghost predicate Missing(s: State, x: Subject) {
    Version(s.cache, x) != Version(s.snapshot, x)
  }

  /** A rebuild will start: it is committed to with its snapshot still to come, a notice is queued, or work
      is pending, which a pass past its snapshot may be about to clear. */
  predicate Woken(s: State) {
    || s.changes > 0 || s.endpoints > 0 || (s.pending && !s.phase.Built? && !s.phase.Applying?)
    || s.phase.Debouncing? || s.phase.DrainingChanges? || s.phase.DrainingEndpoints? || s.phase.Building?
  }

  ghost predicate InFlight(s: State, x: Subject) {
    exists n :: n in s.notices && x in n.touched
  }

  ghost predicate NothingLost(s: State) {
    forall x :: Missing(s, x) ==> InFlight(s, x) || Woken(s) || x in s.filtered
  }

  /** What was filtered out, the two losses aside, is nothing the last build referenced, nor what the build
      under way references. */
  ghost predicate Filtered(s: State) {
    && (forall x :: x in s.filtered ==> x.Slices?)
    && (forall x :: x in s.filtered && Referenced(s.referenced, x) ==> x in s.raced || x in s.moved)
    && (s.phase.Built? ==> forall x :: x in s.filtered && Referenced(s.phase.referenced, x) ==>
        x in s.raced || x in s.moved)
  }

  /** Snapshots only lag behind, and what was filtered out is still missing. */
  ghost predicate StillMissing(s: State) {
    && (forall x :: Version(s.snapshot, x) <= Version(s.cache, x))
    && (forall x :: x in s.filtered ==> Missing(s, x))
    && s.raced <= s.filtered && s.moved <= s.filtered
  }

  ghost predicate Inv(s: State) {
    && s.changes <= CHANGES && s.endpoints <= ENDPOINTS && StillMissing(s)
    && (forall n :: n in s.notices && n.SliceChanged? ==> forall x :: x in n.touched ==> x.Slices?)
    && NothingLost(s) && Filtered(s)
  }

  lemma UpdateKeeps(s: State, n: Notice)
    requires Inv(s) && Enabled(s, Update(n))
    ensures Inv(Next(s, Update(n)))
  {
    var t := Next(s, Update(n));
    forall x | Missing(t, x) ensures InFlight(t, x) || Woken(t) || x in t.filtered {
      if x in n.touched {
        assert n in t.notices;
      } else {
        assert Missing(s, x);
        if InFlight(s, x) {
          var m :| m in s.notices && x in m.touched;
          assert m in t.notices;
        }
      }
    }
  }

  lemma NoticeLosesNothing(s: State, n: Notice)
    requires NothingLost(s) && n in s.notices
    ensures NothingLost(Notify(s, n))
  {
    var t := Notify(s, n);
    forall x | Missing(t, x) ensures InFlight(t, x) || Woken(t) || x in t.filtered {
      assert Missing(s, x);
      if InFlight(s, x) {
        var m :| m in s.notices && x in m.touched;
        assert m == n || m in t.notices;
      }
    }
  }

  lemma NoticeKeeps(s: State, n: Notice)
    requires Inv(s) && n in s.notices
    ensures Inv(Notify(s, n))
  {
    NoticeLosesNothing(s, n);
    hide NothingLost, InFlight;
    var t := Notify(s, n);
    assert StillMissing(t) by {
      hide Filtered;
    }
    assert Filtered(t) by {
      hide StillMissing;
    }
  }

  lemma LoopLosesNothing(s: State, step: Step)
    requires NothingLost(s) && Enabled(s, step) && !step.Update? && !step.GiveNotice?
    ensures NothingLost(Next(s, step))
  {
    var t := Next(s, step);
    forall x | Missing(t, x) ensures InFlight(t, x) || Woken(t) || x in t.filtered {
      if !step.Snapshot? {
        assert Missing(s, x);
      }
    }
  }

  lemma LoopKeeps(s: State, step: Step)
    requires Inv(s) && Enabled(s, step) && !step.Update? && !step.GiveNotice?
    ensures Inv(Next(s, step))
  {
    LoopLosesNothing(s, step);
    LoopStaysBehind(s, step);
    LoopFilters(s, step);
    hide NothingLost, InFlight, Woken, Filtered, StillMissing;
  }

  lemma LoopStaysBehind(s: State, step: Step)
    requires StillMissing(s) && Enabled(s, step) && !step.Update? && !step.GiveNotice?
    ensures StillMissing(Next(s, step))
  {
    hide StillMissing;
    if step.Snapshot? {
      NothingBehind(Next(s, step));
    } else {
      StillBehind(s, Next(s, step));
    }
  }

  lemma NothingBehind(t: State)
    requires t.snapshot == t.cache && t.filtered == {} && t.raced == {} && t.moved == {}
    ensures StillMissing(t)
  {
  }

  lemma StillBehind(s: State, t: State)
    requires StillMissing(s) && t.cache == s.cache && t.snapshot == s.snapshot
    requires t.filtered == s.filtered && t.raced == s.raced && t.moved == s.moved
    ensures StillMissing(t)
  {
  }

  lemma LoopFilters(s: State, step: Step)
    requires Filtered(s) && Enabled(s, step) && !step.Update? && !step.GiveNotice?
    ensures Filtered(Next(s, step))
  {
  }

  /** The caches are filled and the first reconcile starts; no build has referenced anything. */
  ghost predicate Initial(s: State) {
    && s.changes <= CHANGES && s.endpoints <= ENDPOINTS && s.phase == Building && s.referenced == {}
    && s.notices == multiset{} && s.snapshot == map[] && s.filtered == {} && s.raced == {} && s.moved == {}
  }

  ghost predicate Run(states: seq<State>, steps: seq<Step>) {
    && |states| == |steps| + 1 && Initial(states[0])
    && forall i :: 0 <= i < |steps| ==> Enabled(states[i], steps[i]) && states[i + 1] == Next(states[i], steps[i])
  }

  lemma {:induction false} RunKeeps(states: seq<State>, steps: seq<Step>, n: nat)
    requires Run(states, steps) && n < |states|
    ensures Inv(states[n])
  {
    if n > 0 {
      RunKeeps(states, steps, n - 1);
      var s, step := states[n - 1], steps[n - 1];
      match step
      case Update(m) => UpdateKeeps(s, m);
      case GiveNotice(m) => NoticeKeeps(s, m);
      case _ => LoopKeeps(s, step);
    }
  }

  /** Under every interleaving, a change the last snapshot lacks has its notice to come, or a rebuild is
      certain, unless it is of slices only, and then of a Service the last build did not reference, but for
      two cases: it was filtered while the build that first references the Service held its snapshot, or a
      slice left the Service for one no build references. */
  lemma NoWakeupIsLost(states: seq<State>, steps: seq<Step>, n: nat, x: Subject)
    requires Run(states, steps) && n < |states| && Missing(states[n], x)
    ensures var s := states[n];
            || InFlight(s, x) || Woken(s)
            || (x.Slices? && (Referenced(s.referenced, x) ==> x in s.raced || x in s.moved))
  {
    RunKeeps(states, steps, n);
  }

  /** The losses are exact. Where nothing is to come for a part of the caches the last build references, no
      notice and no rebuild, it is missing from the last snapshot if and only if one of the two happened to it. */
  lemma LostExactly(states: seq<State>, steps: seq<Step>, n: nat, x: Subject)
    requires Run(states, steps) && n < |states|
    requires !InFlight(states[n], x) && !Woken(states[n]) && Referenced(states[n].referenced, x)
    ensures Missing(states[n], x) <==> x in states[n].raced || x in states[n].moved
  {
    RunKeeps(states, steps, n);
  }

  /** How many steps of its own a committed loop is from building, at most. */
  function ToBuild(s: State): nat {
    match s.phase
    case Debouncing => CHANGES + ENDPOINTS + 3
    case DrainingChanges(left) => left + ENDPOINTS + 2
    case DrainingEndpoints(left) => left + 1
    case _ => 0
  }

  /** Whatever the producers send, a committed loop builds after a bounded number of its own steps, and only
      those steps move it. */
  lemma SettlingEnds(s: State, step: Step)
    requires Inv(s) && Enabled(s, step) && ToBuild(s) > 0
    ensures ToBuild(Next(s, step)) < ToBuild(s) <==> step.EndDebounce? || step.Drain?
    ensures ToBuild(Next(s, step)) <= ToBuild(s)
    ensures ToBuild(Next(s, step)) == 0 ==> Next(s, step).phase.Building?
  {
    BoundedChannels(s);
    hide Inv, Notify, Touch, Drained;
    match step
    case GiveNotice(n) => NoticeKeepsPhase(s, n);
    case Drain => DrainDescends(s);
    case _ =>
  }

  /** A receipt commits to a rebuild: a change waits for the debounce, an endpoint notice does not. A tick builds
      with no settling at all. A build that fails, or a pass that does, leaves work pending; one that succeeds none. */
  lemma ReceiptsCommit(s: State)
    ensures Enabled(s, ReceiveChange) ==>
              var t := Next(s, ReceiveChange);
              t.phase == Debouncing && t.changes == s.changes - 1 && t.endpoints == s.endpoints
    ensures Enabled(s, ReceiveEndpoint) ==>
              var t := Next(s, ReceiveEndpoint);
              t.phase == DrainingChanges(s.changes) && t.endpoints == s.endpoints - 1 && t.changes == s.changes
    ensures Enabled(s, Tick) ==> Next(s, Tick) == s.(phase := Building)
    ensures Next(s, Fail).pending && (forall ok :: Next(s, Finish(ok)).pending <==> !ok)
  {
  }

  /** Where the drains alone take a state. */
  function DrainedOut(s: State, n: nat): State
    decreases n
  {
    if n == 0 then s else DrainedOut(Drained(s), n - 1)
  }

  /** With no producer in between, settling leaves both channels empty and the snapshot next. */
  lemma {:induction false} DrainsBoth(s: State, n: nat)
    requires s.phase.DrainingChanges? && s.phase.left == s.changes && n == s.changes + s.endpoints + 2
    ensures DrainedOut(s, n) == s.(changes := 0, endpoints := 0, phase := Building)
    decreases s.changes
  {
    var t := Drained(s);
    if s.changes > 0 {
      DrainsBoth(t, n - 1);
    } else {
      DrainsEndpoints(t, n - 1);
    }
  }

  lemma {:induction false} DrainsEndpoints(s: State, n: nat)
    requires s.phase.DrainingEndpoints? && s.phase.left == s.endpoints && n == s.endpoints + 1
    ensures DrainedOut(s, n) == s.(endpoints := 0, phase := Building)
    decreases s.endpoints
  {
    var t := Drained(s);
    if s.endpoints > 0 {
      DrainsEndpoints(t, n - 1);
    } else {
      assert DrainedOut(t, 0) == t;
    }
  }

  lemma NoticeKeepsPhase(s: State, n: Notice)
    ensures Notify(s, n).phase == s.phase
  {
  }

  lemma DrainDescends(s: State)
    requires s.endpoints <= ENDPOINTS && (s.phase.DrainingChanges? || s.phase.DrainingEndpoints?)
    ensures ToBuild(Drained(s)) < ToBuild(s) && (ToBuild(Drained(s)) == 0 ==> Drained(s).phase.Building?)
  {
  }

  lemma BoundedChannels(s: State)
    requires Inv(s)
    ensures s.endpoints <= ENDPOINTS && s.changes <= CHANGES
  {
  }

  // ---- the two losses --------------------------------------------------------------------------------------

  /** Nothing will bring `x`, which the last build references, into a snapshot. */
  ghost predicate LostFor(s: State, x: Subject) {
    Missing(s, x) && Referenced(s.referenced, x) && !InFlight(s, x) && !Woken(s) && s.phase.Waiting?
  }

  /** Some run ends in `s`. */
  ghost predicate Reachable(s: State) {
    exists states, steps :: Run(states, steps) && states[|steps|] == s
  }

  lemma StartIsReachable()
    ensures Reachable(START)
  {
    assert Run([START], []);
  }

  lemma TakeStep(s: State, step: Step) returns (t: State)
    requires Reachable(s) && Enabled(s, step)
    ensures t == Next(s, step) && Reachable(t)
  {
    hide Next, Enabled, Initial;
    t := Next(s, step);
    var states, steps :| Run(states, steps) && states[|steps|] == s;
    var more, further := states + [t], steps + [step];
    forall i | 0 <= i < |further| ensures Enabled(more[i], further[i]) && more[i + 1] == Next(more[i], further[i]) {
      if i < |steps| {
        assert more[i] == states[i] && more[i + 1] == states[i + 1] && further[i] == steps[i];
      }
    }
    assert Run(more, further) && more[|further|] == t;
  }

  const START: State := State(map[], multiset{}, {}, 0, 0, Building, map[], false, {}, {}, {})

  /** A pass over quiet caches: its Services are published and nothing is left to do. */
  lemma QuietPass(s: State, referenced: set<string>) returns (t: State)
    requires Reachable(s) && s.phase.Building?
    ensures Reachable(t)
    ensures t == s.(snapshot := s.cache, referenced := referenced, phase := Waiting, pending := false,
                    filtered := {}, raced := {}, moved := {})
  {
    hide Reachable;
    t := TakeStep(s, Snapshot(referenced));
    t := TakeStep(t, Publish);
    t := TakeStep(t, Finish(true));
  }

  /** A slice of a Service changes after the snapshot of the first build to reference it, and its notice is
      filtered by the Services of the build before: the change stays out until something else wakes the loop. */
  lemma LostBesideABuild() returns (s: State)
    ensures Reachable(s) && LostFor(s, Slices("new"))
  {
    hide Reachable;
    StartIsReachable();
    s := QuietPass(START, {"old"});
    s := TakeStep(s, Tick);
    s := TakeStep(s, Snapshot({"old", "new"}));
    s := LostUpdate(s, SliceChanged({Slices("new")}, Some("new")), Slices("new"));
    s := TakeStep(s, Publish);
    s := TakeStep(s, Finish(true));
  }

  /** A slice of a referenced Service is labelled for a Service no build references: the event names only the
      second, and the first keeps an endpoint it no longer has. */
  lemma LostByRelabelling() returns (s: State)
    ensures Reachable(s) && LostFor(s, Slices("old"))
  {
    hide Reachable;
    StartIsReachable();
    s := QuietPass(START, {"old"});
    s := LostUpdate(s, SliceChanged({Slices("old"), Slices("other")}, Some("other")), Slices("old"));
  }

  /** An update of up-to-date caches whose notice is filtered. */
  lemma LostUpdate(s: State, n: Notice, x: Subject) returns (t: State)
    requires Reachable(s) && s.notices == multiset{} && !Pings(s.referenced, n) && n.SliceChanged?
    requires x in n.touched && (forall y :: y in n.touched ==> y.Slices?) && s.cache == s.snapshot
    ensures Reachable(t) && Missing(t, x) && t.notices == multiset{}
    ensures t.(cache := s.cache, filtered := s.filtered, raced := s.raced, moved := s.moved) == s
  {
    hide Reachable;
    t := TakeStep(s, Update(n));
    t := TakeStep(t, GiveNotice(n));
  }
}
