/** The run loop beside a live Sozu: every pass keeps the shadow true. */
module Reconcile {
  import opened Base
  import opened Shadows
  import opened RunLoop

  /** What Sozu does on its own during a pass: before the check, between it and the reconcile, while the batch is
      delivered, and before the second check. */
  datatype World = World(before: seq<Event>, between: seq<Event>, acts: seq<Act>, behind: seq<Event>)

  ghost predicate AllPossible(z: Sozu, events: seq<Event>)
    decreases |events|
  {
    events == [] || (Shadows.Possible(z, events[0]) && AllPossible(Happen(z, events[0]), events[1..]))
  }

  function Elapse(s: Shadows.State, events: seq<Event>): Shadows.State
    decreases |events|
  {
    if events == [] then s else Elapse(Shadows.Next(s, Happens(events[0])), events[1..])
  }

  lemma {:induction false} ElapseKeeps(s: Shadows.State, events: seq<Event>)
    requires Sound(s) && AllPossible(s.sozu, events)
    ensures var t := Elapse(s, events);
            Sound(t) && t.shadow == s.shadow && t.file == s.file && t.persistent == s.persistent
    decreases |events|
  {
    hide Sound;
    if events != [] {
      EventKeepsSound(s, events[0]);
      ElapseKeeps(Shadows.Next(s, Happens(events[0])), events[1..]);
    }
  }

  /** The loop's shadow and file are the state's. */
  ghost predicate Tracks(l: Loop, s: Shadows.State) {
    l.shadow == s.shadow && l.file == s.file
  }

  /** A probe that answers names the live Sozu. */
  ghost predicate Honest(p: Probing, s: Shadows.State) {
    p.answer.Some? ==> p.answer.value == s.sozu.generation
  }

  /** The step a reconcile is: none if it sent nothing, else an apply that succeeded or failed. */
  function StepOf(r: Reconciling, acts: seq<Act>): Shadows.Step
    requires r.sent.Some?
  {
    var sent := r.sent.value;
    if sent.failed.None? then Apply(sent.desired, sent.batch, acts)
    else Shadows.Fail(sent.desired, sent.batch, sent.failed.value.0, sent.failed.value.1, acts)
  }

  function Sending(s: Shadows.State, r: Reconciling, acts: seq<Act>): Shadows.State {
    if r.sent.None? then s else Shadows.Next(s, StepOf(r, acts))
  }

  /** A reconcile succeeds only if what it sent was applied. */
  ghost predicate Deliverable(s: Shadows.State, r: Reconciling, acts: seq<Act>) {
    && (r.ok ==> r.sent.Some? && r.sent.value.failed.None?)
    && (r.sent.Some? ==> Shadows.Enabled(s, StepOf(r, acts)))
  }

  function Checking(s: Shadows.State, due: bool, p: Probing): Shadows.State {
    if due then Shadows.Next(s, Probe(p.answer.Some?)) else s
  }

  lemma ProbeTracks(c: Config, l: Loop, s: Shadows.State, epoch: nat, p: Probing, afterReconcile: bool)
    requires Tracks(l, s) && Sound(s) && Honest(p, s)
    ensures Tracks(Probed(c, s.persistent, l, epoch, p, afterReconcile), Checking(s, true, p))
    ensures Sound(Checking(s, true, p)) && Checking(s, true, p).persistent == s.persistent
  {
    hide Sound;
    ProbeKeepsSound(s, p.answer.Some?);
  }

  lemma ReconcileTracks(c: Config, l: Loop, s: Shadows.State, r: Reconciling, acts: seq<Act>)
    requires Tracks(l, s) && Sound(s) && Deliverable(s, r, acts)
    ensures Tracks(Reconciled(c, s.persistent, l, r), Sending(s, r, acts))
    ensures Sound(Sending(s, r, acts)) && Sending(s, r, acts).persistent == s.persistent
  {
    hide Sound, Shadows.Enabled, Play;
    if r.sent.Some? {
      StepKeepsSound(s, StepOf(r, acts));
    }
  }

  // ---- a pass ------------------------------------------------------------------------------------------------

  /** The state at the reconcile: what happens before the check, the check, and what happens after it. */
  function Inspecting(l: Loop, s: Shadows.State, p: Pass, w: World): Shadows.State {
    Checking(Elapse(s, w.before), Found(l, p).Some?, p.check)
  }

  function Rebuilding(c: Config, l: Loop, s: Shadows.State, p: Pass, w: World): Shadows.State {
    var sent := Sending(Elapse(s, w.between), p.reconciling, w.acts);
    Checking(Elapse(sent, w.behind), p.after != Reconciled(c, s.persistent, l, p.reconciling).acked, p.recheck)
  }

  /** The world goes on while the loop takes its turn. */
  function Passing(c: Config, l: Loop, s: Shadows.State, p: Pass, w: World): Shadows.State {
    var awake := Awake(l, p);
    if StillDown(awake, p) then Elapse(s, w.before)
    else
      var inspected, at := Inspected(c, s.persistent, awake, p), Inspecting(awake, s, p, w);
      if Reconciles(p.wakeup, Found(awake, p), inspected.pending) then Rebuilding(c, inspected, at, p, w) else at
  }

  ghost predicate RebuildPossible(c: Config, l: Loop, s: Shadows.State, p: Pass, w: World) {
    var at := Elapse(s, w.between);
    var sent := Sending(at, p.reconciling, w.acts);
    && AllPossible(s.sozu, w.between) && Deliverable(at, p.reconciling, w.acts)
    && AllPossible(sent.sozu, w.behind) && Honest(p.recheck, Elapse(sent, w.behind))
  }

  ghost predicate PassPossible(c: Config, l: Loop, s: Shadows.State, p: Pass, w: World) {
    var awake := Awake(l, p);
    && AllPossible(s.sozu, w.before) && Honest(p.check, Elapse(s, w.before))
    && RebuildPossible(c, Inspected(c, s.persistent, awake, p), Inspecting(awake, s, p, w), p, w)
  }

  lemma InspectTracks(c: Config, l: Loop, s: Shadows.State, p: Pass, w: World)
    requires Tracks(l, s) && Sound(s) && AllPossible(s.sozu, w.before) && Honest(p.check, Elapse(s, w.before))
    ensures var at := Inspecting(l, s, p, w);
            Tracks(Inspected(c, s.persistent, l, p), at) && Sound(at) && at.persistent == s.persistent
  {
    hide Sound, Probed, Elapse, AllPossible;
    ElapseKeeps(s, w.before);
    ProbeTracks(c, l, Elapse(s, w.before), p.epoch, p.check, false);
  }

  lemma RebuildTracks(c: Config, l: Loop, s: Shadows.State, p: Pass, w: World)
    requires Tracks(l, s) && Sound(s) && RebuildPossible(c, l, s, p, w)
    ensures var at := Rebuilding(c, l, s, p, w);
            Tracks(Rebuilt(c, s.persistent, l, p), at) && Sound(at) && at.persistent == s.persistent
  {
    hide Sound, Probed, Elapse, AllPossible, Deliverable, Sending, Reconciled;
    ElapseKeeps(s, w.between);
    var at := Elapse(s, w.between);
    ReconcileTracks(c, l, at, p.reconciling, w.acts);
    var sent, done := Sending(at, p.reconciling, w.acts), Reconciled(c, s.persistent, l, p.reconciling);
    ElapseKeeps(sent, w.behind);
    ProbeTracks(c, done, Elapse(sent, w.behind), p.after, p.recheck, true);
  }

  /** Whatever Sozu does meanwhile, a pass leaves the shadow and its file true, and the loop's own. */
  lemma PassKeepsShadowTrue(c: Config, l: Loop, s: Shadows.State, p: Pass, w: World)
    requires Tracks(l, s) && Sound(s) && PassPossible(c, l, s, p, w)
    ensures var t := Passing(c, l, s, p, w);
            Tracks(Turn(c, s.persistent, l, p), t) && Sound(t) && t.persistent == s.persistent
  {
    hide Sound, Inspected, Inspecting, Rebuilt, Rebuilding, RebuildPossible, Elapse, AllPossible;
    var awake := Awake(l, p);
    assert Tracks(awake, s);
    ElapseKeeps(s, w.before);
    InspectTracks(c, awake, s, p, w);
    RebuildTracks(c, Inspected(c, s.persistent, awake, p), Inspecting(awake, s, p, w), p, w);
  }

  /** A start beside Sozu: the load, what happens meanwhile, the check of a reconnect that landed then (a failure
      takes up nothing), and the first reconcile. */
  function Verifying(s: Shadows.State, epoch: nat, current: Option<Generation>, p: Pass, w: World): Shadows.State {
    var loaded := Elapse(Shadows.Next(s, Load(current, false)), w.before);
    if p.epoch == epoch then loaded
    else if p.check.answer.None? then Shadows.Next(loaded, Load(None, true))
    else Checking(loaded, true, p.check)
  }

  ghost predicate StartPossible(c: Config, s: Shadows.State, epoch: nat, current: Option<Generation>, p: Pass,
                                w: World) {
    var loaded := Shadows.Next(s, Load(current, false));
    && Shadows.Enabled(s, Load(current, false)) && AllPossible(loaded.sozu, w.before)
        && Honest(p.check, Elapse(loaded, w.before))
    && RebuildPossible(c, Verified(c, s.persistent, StartOf(s, epoch, current), p), Verifying(s, epoch, current, p, w),
                       p, w)
  }

  function StartOf(s: Shadows.State, epoch: nat, current: Option<Generation>): Loop {
    Loop(false, false, false, epoch, false, Loaded(if s.persistent then s.file else None, current), s.file, 0, false,
         epoch)
  }

  /** A controller start, at any moment of any earlier run, leaves the shadow and its file true. */
  lemma StartKeepsShadowTrue(c: Config, s: Shadows.State, epoch: nat, current: Option<Generation>, p: Pass, w: World)
    requires Sound(s) && StartPossible(c, s, epoch, current, p, w)
    ensures var l := Begun(c, s.persistent, s.file, epoch, current, p);
            var verified := Verified(c, s.persistent, StartOf(s, epoch, current), p);
            var t := Rebuilding(c, verified, Verifying(s, epoch, current, p, w), p, w);
            Tracks(l, t) && Sound(t) && t.persistent == s.persistent && Inv(c, l)
  {
    hide Sound, Elapse, AllPossible, RebuildPossible, Rebuilding, Rebuilt, Inv, Probed, Loaded;
    BegunKeeps(c, s.persistent, s.file, epoch, current, p);
    LoadKeepsSound(s, current, false);
    var start, loaded := StartOf(s, epoch, current), Shadows.Next(s, Load(current, false));
    ElapseKeeps(loaded, w.before);
    var later := Elapse(loaded, w.before);
    VerifiedTracks(c, start, later, p);
    LoadKeepsSound(later, None, true);
    RebuildTracks(c, Verified(c, s.persistent, start, p), Verifying(s, epoch, current, p, w), p, w);
  }

  lemma VerifiedTracks(c: Config, start: Loop, s: Shadows.State, p: Pass)
    requires Tracks(start, s) && Sound(s) && Honest(p.check, s)
    ensures p.epoch == start.acked ==> Tracks(Verified(c, s.persistent, start, p), s)
    ensures p.epoch != start.acked && p.check.answer.Some? ==>
              Tracks(Verified(c, s.persistent, start, p), Checking(s, true, p.check))
                  && Sound(Checking(s, true, p.check))
    ensures p.epoch != start.acked && p.check.answer.None? ==>
              Tracks(Verified(c, s.persistent, start, p), Shadows.Next(s, Load(None, true)))
    ensures Checking(s, true, p.check).persistent == s.persistent
  {
    hide Sound;
    ProbeTracks(c, start, s, p.epoch, p.check, false);
  }

  /** The loop and the world from a start on, with notices from elsewhere before each pass. */
  ghost predicate Together(c: Config, loops: seq<Loop>, states: seq<Shadows.State>, passes: seq<(nat, Pass, World)>) {
    && |loops| == |states| == |passes| + 1
    && Tracks(loops[0], states[0]) && Sound(states[0]) && Inv(c, loops[0])
    && forall i :: 0 <= i < |passes| ==> Passed(c, loops[i], states[i], passes[i], loops[i + 1], states[i + 1])
  }

  ghost predicate Passed(c: Config, l: Loop, s: Shadows.State, pass: (nat, Pass, World), after: Loop,
                         t: Shadows.State) {
    var woken := Noticed(l, pass.0);
    && RunLoop.Possible(c, woken, pass.1) && PassPossible(c, woken, s, pass.1, pass.2)
    && after == Turn(c, s.persistent, woken, pass.1) && t == Passing(c, woken, s, pass.1, pass.2)
  }

  /** In every run of the loop beside a Sozu that restarts, bounces and fails as it likes, at every head of the
      loop: nothing is forgotten, and whenever the recorded socket is the live one, Sozu holds what the loop's
      shadow claims. */
  lemma {:induction false} LoopKeepsShadowTrue(c: Config, loops: seq<Loop>, states: seq<Shadows.State>,
                                               passes: seq<(nat, Pass, World)>, n: nat)
    requires Together(c, loops, states, passes) && n < |loops|
    ensures Inv(c, loops[n]) && Tracks(loops[n], states[n]) && Sound(states[n])
  {
    hide Sound, Turn, Passing, PassPossible, Inv;
    if n > 0 {
      LoopKeepsShadowTrue(c, loops, states, passes, n - 1);
      var l := Noticed(loops[n - 1], passes[n - 1].0);
      assert Passed(c, loops[n - 1], states[n - 1], passes[n - 1], loops[n], states[n]);
      assert Tracks(l, states[n - 1]);
      NoticedKeeps(c, loops[n - 1], passes[n - 1].0);
      TurnKeeps(c, states[n - 1].persistent, l, passes[n - 1].1);
      PassKeepsShadowTrue(c, l, states[n - 1], passes[n - 1].1, passes[n - 1].2);
    }
  }

  lemma NoticedKeeps(c: Config, l: Loop, more: nat)
    requires Inv(c, l)
    ensures Inv(c, Noticed(l, more))
  {
  }

  /** A check that answered and a reconcile that succeeded after it, with no restart in between, leave Sozu
      agreeing with the desired state on every object it or the shadow lists; and the loop is then ready. */
  lemma ReadyMeansProgrammed(c: Config, l: Loop, s: Shadows.State, p: Probing, epoch: nat, r: Reconciling,
                             acts: seq<Act>)
    requires Tracks(l, s) && Sound(s) && Honest(p, s) && p.answer.Some?
    requires var at := Checking(s, true, p);
             && Deliverable(at, r, acts) && r.ok
             && Play(at.sozu, acts).generation.socket == s.sozu.generation.socket
    ensures var at := Checking(s, true, p);
            var checked := Probed(c, s.persistent, l, epoch, p, false);
            var done := Reconciled(c, s.persistent, checked, r);
            && done.ready && !done.pending && done.shadow.ir == r.sent.value.desired
            && forall k :: k in at.shadow.ir || k in r.sent.value.desired ==>
                 At(Sending(at, r, acts).sozu.held, k) == At(r.sent.value.desired, k)
  {
    var at := Checking(s, true, p);
    ProbeTracks(c, l, s, epoch, p, false);
    var sent := r.sent.value;
    assert Names(at.shadow, at.sozu.generation.socket);
    hide Sound, Play, Playable, Requests, Effect, Probed;
    ApplyPrograms(at, sent.desired, sent.batch, acts);
    if sent.batch == [] {
      NoEffect(at.shadow.ir);
    }
  }

  // ---- resuming --------------------------------------------------------------------------------------------

  /** As time passes, Sozu keeps what it holds, or is another one, on a socket never seen before. */
  lemma {:induction false} ElapseLands(s: Shadows.State, events: seq<Event>)
    requires AllPossible(s.sozu, events) && s.sozu.generation.socket in s.sozu.past
    ensures var z := Elapse(s, events).sozu;
            && s.sozu.past <= z.past && z.generation.socket in z.past
            && (z.generation.socket in s.sozu.past ==>
                  z.generation.socket == s.sozu.generation.socket && z.held == s.sozu.held)
    decreases |events|
  {
    if events != [] {
      ElapseLands(Shadows.Next(s, Happens(events[0])), events[1..]);
    }
  }

  /** A start that finds a file written against the Sozu that answered resumes it whole: through a reconnect
      checked meanwhile, as long as it is the same Sozu, the shadow lists what the file lists. */
  lemma StartResumes(s: Shadows.State, epoch: nat, current: Generation, p: Pass, w: World)
    requires Sound(s) && s.persistent && s.file.Some? && Shadows.Enabled(s, Load(Some(current), false))
    requires s.file.value.generation.Some? && s.file.value.generation.value.socket == current.socket
    requires AllPossible(s.sozu, w.before) && Honest(p.check,
                                                     Elapse(Shadows.Next(s, Load(Some(current), false)), w.before))
    requires p.epoch == epoch || p.check.answer.Some?
    requires Elapse(Shadows.Next(s, Load(Some(current), false)), w.before).sozu.generation.socket == current.socket
    ensures var t := Verifying(s, epoch, Some(current), p, w);
            && t.shadow.ir == s.file.value.ir && t.shadow.generation.Some? && Sound(t)
            && t.shadow.generation.value.socket == current.socket == t.sozu.generation.socket
            && (p.epoch == epoch ==> t.shadow.generation == Some(current))
  {
    hide Elapse, AllPossible, Sound;
    var loaded := Shadows.Next(s, Load(Some(current), false));
    LoadKeepsSound(s, Some(current), false);
    ElapseKeeps(loaded, w.before);
    var later := Elapse(loaded, w.before);
    ProbeKeepsSound(later, true);
  }

  /** The point of the file: after a restart of the controller alone, the first reconcile that succeeds removes
      what left the desired state meanwhile. Every object the file or the desired state lists is as desired. */
  lemma ResumedStartPrograms(c: Config, s: Shadows.State, epoch: nat, current: Generation, p: Pass, w: World, k: string)
    requires Sound(s) && s.persistent && s.file.Some? && StartPossible(c, s, epoch, Some(current), p, w)
    requires s.file.value.generation.Some? && s.file.value.generation.value.socket == current.socket
    requires s.sozu.generation.socket == current.socket && (p.epoch == epoch || p.check.answer.Some?)
    requires p.reconciling.ok
    requires var done := Sending(Elapse(Verifying(s, epoch, Some(current), p, w), w.between), p.reconciling, w.acts);
             && done.sozu.generation.socket == current.socket
             && (k in s.file.value.ir || k in p.reconciling.sent.value.desired)
    ensures var done := Sending(Elapse(Verifying(s, epoch, Some(current), p, w), w.between), p.reconciling, w.acts);
            && At(done.sozu.held, k) == At(p.reconciling.sent.value.desired, k)
            && done.shadow.ir == p.reconciling.sent.value.desired
  {
    hide Elapse, AllPossible, Sound, Play, Playable, Requests, IsDiff, Effect;
    var loaded := Shadows.Next(s, Load(Some(current), false));
    SoundLives(s);
    ElapseLands(loaded, w.before);
    var verified := Verifying(s, epoch, Some(current), p, w);
    var at := Elapse(verified, w.between);
    ElapseLands(verified, w.between);
    var sent := p.reconciling.sent.value;
    PlayLands(at.sozu, w.acts);
    StartResumes(s, epoch, current, p, w);
    ElapseKeeps(verified, w.between);
    ApplyPrograms(at, sent.desired, sent.batch, w.acts);
    if sent.batch == [] {
      EmptyDiff(at.shadow.ir, sent.desired);
    }
  }

  lemma SoundLives(s: Shadows.State)
    requires Sound(s)
    ensures s.sozu.generation.socket in s.sozu.past
  {
  }

  lemma EmptyDiff(from: Ir, to: Ir)
    requires IsDiff(from, to, [])
    ensures from == to
  {
  }
}
