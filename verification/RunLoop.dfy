/** The run loop: when it checks Sōzu's generation, when it reconciles, and what it never forgets. */
module RunLoop {
  import opened Base
  import opened Shadows
  import opened Wakeups

  /** Which of the two periodic ticks run. */
  datatype Config = Config(probeTick: bool, resync: bool)

  datatype Wakeup = Change | Resync | SozuProbe | Retry

  /** The reconnect epoch read before a generation probe, and the probe's answer. */
  datatype Probing = Probing(epoch: nat, answer: Option<Generation>)

  /** How a reconcile went: what it sent, if it came to that, and whether it succeeded as a whole. */
  datatype Sending = Sending(desired: Ir, batch: seq<Request>, failed: Option<(nat, Option<Ir>)>)

  datatype Reconciling = Reconciling(sent: Option<Sending>, ok: bool)

  /** What one pass of the loop meets: its wakeup; what settling leaves queued; whether a plain status is
      answered; the epoch before and after the reconcile, with the probe each may cause; and the reconcile. */
  datatype Pass = Pass(wakeup: Wakeup, left: nat, answers: bool, epoch: nat, check: Probing,
                       reconciling: Reconciling, after: nat, recheck: Probing)

  /** The loop's own state. `reset` and `seen` record history: a reset no reconcile has answered yet, and the
      last epoch the loop compared with the one it has acknowledged. */
  datatype Loop = Loop(pending: bool, retry: bool, unreachable: bool, acked: nat, ready: bool,
                       shadow: Shadow, file: Option<Shadow>, queued: nat, reset: bool, seen: nat)

  // ---- the decisions ---------------------------------------------------------------------------------

  predicate Reconciles(wakeup: Wakeup, check: Option<Check>, pending: bool) {
    wakeup != SozuProbe || check == Some(Check.Reset) || (pending && check == Some(Unchanged))
  }

  predicate RetryByNudge(outcome: Check, probeTick: bool) {
    outcome.ProbeFailed? && !probeTick
  }

  predicate RetryReconcileByNudge(c: Config) {
    !c.probeTick && !c.resync
  }

  // ---- the loop as a function of what it meets -------------------------------------------------------

  /** A generation check, made because the epoch read `epoch`; after a reconcile, a reset nudges the loop too. */
  function Probed(c: Config, persistent: bool, l: Loop, epoch: nat, p: Probing, afterReconcile: bool): Loop {
    var outcome := Outcome(p.answer, l.shadow);
    var shadow := Checked(p.answer, l.shadow);
    l.(shadow := shadow,
       file := if outcome.Reset? && persistent then Some(shadow) else l.file,
       acked := if outcome.ProbeFailed? then l.acked else p.epoch,
       seen := if outcome.ProbeFailed? then epoch else p.epoch,
       ready := l.ready && !outcome.Reset?,
       reset := l.reset || outcome.Reset?,
       unreachable := outcome.ProbeFailed?,
       queued := if RetryByNudge(outcome, c.probeTick)
           || (afterReconcile && outcome.Reset?) then Sent(l.queued, CHANGES) else l.queued)
  }

  function Reconciled(c: Config, persistent: bool, l: Loop, r: Reconciling): Loop {
    var shadow := if r.sent.None? then l.shadow
        else AfterApply(l.shadow, r.sent.value.desired, r.sent.value.batch, r.sent.value.failed);
    var records := r.sent.Some? && Records(l.shadow, r.sent.value.batch, r.sent.value.failed);
    l.(shadow := shadow, file := if records && persistent then Some(shadow) else l.file,
       pending := !r.ok, ready := l.ready || r.ok, reset := l.reset && !r.ok,
       retry := if r.ok then false else l.retry || RetryReconcileByNudge(c))
  }

  /** The reconcile, and the check of a reconnect that landed during it. */
  function Rebuilt(c: Config, persistent: bool, l: Loop, p: Pass): Loop {
    var done := Reconciled(c, persistent, l, p.reconciling);
    if p.after != done.acked then Probed(c, persistent, done, p.after, p.recheck, true) else done.(seen := p.after)
  }

  /** The state once the wakeup is taken. */
  function Awake(l: Loop, p: Pass): Loop {
    if p.wakeup.Change? then l.(queued := p.left) else if p.wakeup.Retry? then l.(retry := false) else l
  }

  /** The state after the generation check, if one is due. */
  function Inspected(c: Config, persistent: bool, l: Loop, p: Pass): Loop {
    if !p.wakeup.Change? || p.epoch != l.acked then Probed(c, persistent, l, p.epoch, p.check, false)
        else l.(seen := p.epoch)
  }

  function Found(l: Loop, p: Pass): Option<Check> {
    if !p.wakeup.Change? || p.epoch != l.acked then Some(Outcome(p.check.answer, l.shadow)) else None
  }

  predicate StillDown(l: Loop, p: Pass) {
    p.wakeup.SozuProbe? && l.unreachable && !p.answers
  }

  function Turn(c: Config, persistent: bool, l: Loop, p: Pass): Loop {
    var awake := Awake(l, p);
    if StillDown(awake, p) then awake
    else
      var inspected := Inspected(c, persistent, awake, p);
      if Reconciles(p.wakeup, Found(awake, p), inspected.pending) then Rebuilt(c, persistent, inspected, p)
          else inspected
  }

  /** A controller start: the epoch, then Sōzu's generation and the file; a check of a reconnect that landed
      meanwhile; then the first reconcile. */
  function Begun(c: Config, persistent: bool, file: Option<Shadow>, epoch: nat, current: Option<Generation>,
                 p: Pass): Loop {
    var shadow := Loaded(if persistent then file else None, current);
    var start := Loop(false, false, false, epoch, false, shadow, file, 0, false, epoch);
    Rebuilt(c, persistent, Verified(c, persistent, start, p), p)
  }

  function Verified(c: Config, persistent: bool, start: Loop, p: Pass): Loop {
    if p.epoch == start.acked then start
    else
      var outcome := Outcome(p.check.answer, start.shadow);
      var checked := Probed(c, persistent, start, p.epoch, p.check, false);
      checked.(queued := start.queued, unreachable := false,
               shadow := if outcome.ProbeFailed? then Shadow(None, map[]) else checked.shadow)
  }

  // ---- the loop, as it runs ----------------------------------------------------------------------------

  class Controller {
    const config: Config
    const keeper: Keeper
    const changes: Channel
    var pending: bool
    var retry: bool
    var unreachable: bool
    var acked: nat
    var ready: bool
    ghost var reset: bool
    ghost var seen: nat

    ghost predicate Valid()
      reads this, changes
    {
      changes.Valid() && changes.capacity == CHANGES
    }

    ghost function View(): Loop
      reads this, keeper, changes
    {
      Loop(pending, retry, unreachable, acked, ready, keeper.shadow, keeper.file, changes.queued, reset, seen)
    }

    ghost function Persistent(): bool {
      keeper.persistent
    }

    constructor (config: Config, keeper: Keeper, changes: Channel, epoch: nat)
      requires changes.Valid() && changes.capacity == CHANGES
      ensures Valid() && this.config == config && this.keeper == keeper && this.changes == changes
      ensures View() == Loop(false, false, false, epoch, false, keeper.shadow, keeper.file, changes.queued, false,
                             epoch)
    {
      this.config, this.keeper, this.changes := config, keeper, changes;
      pending, retry, unreachable, ready, reset := false, false, false, false, false;
      acked, seen := epoch, epoch;
    }

    /** One generation check; only an answer acknowledges the reconnect. */
    method ProbeSozuGeneration(p: Probing, ghost epoch: nat) returns (outcome: Check)
      requires Valid()
      modifies this, keeper
      ensures Valid() && outcome == Outcome(p.answer, old(keeper.shadow))
      ensures View() == Probed(config, Persistent(), old(View()), epoch, p, false)
                        .(unreachable := old(unreachable), queued := old(changes.queued))
    {
      outcome := keeper.ProbeGeneration(p.answer);
      seen := epoch;
      if outcome != ProbeFailed {
        acked := p.epoch;
        seen := p.epoch;
      }
      if outcome == Check.Reset {
        ready := false;
        reset := true;
      }
    }

    method Reconcile(r: Reconciling)
      requires Valid()
      modifies this, keeper
      ensures Valid() && View() == Reconciled(config, Persistent(), old(View()), r)
    {
      if r.sent.Some? {
        keeper.Applied(r.sent.value.desired, r.sent.value.batch, r.sent.value.failed);
      }
      if r.ok {
        ready := true;
        reset := false;
        pending := false;
        retry := false;
      } else {
        if RetryReconcileByNudge(config) {
          retry := true;
        }
        pending := true;
      }
    }

    method Rebuild(p: Pass)
      requires Valid()
      modifies this, keeper, changes
      ensures Valid() && View() == Rebuilt(config, Persistent(), old(View()), p)
    {
      Reconcile(p.reconciling);
      if p.after != acked {
        var outcome := ProbeSozuGeneration(p.recheck, p.after);
        unreachable := outcome == ProbeFailed;
        if outcome == Check.Reset || RetryByNudge(outcome, config.probeTick) {
          changes.TrySend();
        }
      } else {
        seen := p.after;
      }
    }

    method Step(p: Pass)
      requires Valid() && p.left <= CHANGES
      modifies this, keeper, changes
      ensures Valid() && View() == Turn(config, Persistent(), old(View()), p)
    {
      hide Rebuilt, Inspected, Found;
      match p.wakeup {
        case Change => changes.queued := p.left;
        case Retry => retry := false;
        case _ =>
      }
      assert View() == Awake(old(View()), p);
      if p.wakeup == SozuProbe && unreachable && !p.answers {
        return;
      }
      var check := Inspect(p);
      if Reconciles(p.wakeup, check, pending) {
        Rebuild(p);
      }
    }

    /** The generation check of a pass: on every tick and retry, and whenever a reconnect is unacknowledged. */
    method Inspect(p: Pass) returns (check: Option<Check>)
      requires Valid()
      modifies this, keeper, changes
      ensures Valid() && View() == Inspected(config, Persistent(), old(View()), p) && check == Found(old(View()), p)
    {
      check := None;
      if p.wakeup != Change || p.epoch != acked {
        var outcome := ProbeSozuGeneration(p.check, p.epoch);
        unreachable := outcome == ProbeFailed;
        if RetryByNudge(outcome, config.probeTick) {
          changes.TrySend();
        }
        check := Some(outcome);
      } else {
        seen := p.epoch;
      }
    }

    method Start(p: Pass)
      requires Valid() && !pending && !retry && !unreachable && !ready && !reset && changes.queued == 0
      modifies this, keeper, changes
      ensures Valid() && View() == Rebuilt(config, Persistent(), Verified(config, Persistent(), old(View()), p), p)
    {
      if p.epoch != acked {
        var outcome := ProbeSozuGeneration(p.check, p.epoch);
        if outcome == ProbeFailed {
          keeper.shadow := Shadow(None, map[]);
        }
      }
      Rebuild(p);
    }
  }

  // ---- what every run keeps ------------------------------------------------------------------------------

  ghost predicate Possible(c: Config, l: Loop, p: Pass) {
    && p.left <= CHANGES
    && (p.wakeup.Resync? ==> c.resync)
    && (p.wakeup.SozuProbe? ==> c.probeTick)
    && (p.wakeup.Retry? ==> l.retry)
  }

  /** At the head of the loop: pending work has a tick or an armed retry; a reset no reconcile has answered
      has the loop unready, with a nudge queued or work pending; a reconnect seen and not acknowledged has the
      liveness tick or a nudge; an unready loop has work coming; and a retry is armed only for pending work
      no tick would retry. */
  ghost predicate Inv(c: Config, l: Loop) {
    && l.queued <= CHANGES
    && (l.pending ==> c.probeTick || c.resync || l.retry)
    && (l.reset ==> !l.ready && (l.queued > 0 || l.pending))
    && (l.seen != l.acked ==> c.probeTick || l.queued > 0)
    && (!l.ready ==> l.pending || l.queued > 0)
    && (l.retry ==> l.pending && !c.probeTick && !c.resync)
  }

  /** Notices from elsewhere only add to the queue. */
  function Noticed(l: Loop, more: nat): Loop {
    l.(queued := if l.queued + more <= CHANGES then l.queued + more else CHANGES)
  }

  lemma ReconciledSettles(c: Config, persistent: bool, l: Loop, r: Reconciling)
    requires l.queued <= CHANGES && (l.reset ==> !l.ready) && (l.retry ==> RetryReconcileByNudge(c))
    ensures var done := Reconciled(c, persistent, l, r);
            && done.queued == l.queued && done.acked == l.acked
            && (done.reset ==> !done.ready && done.pending) && (!done.ready ==> done.pending)
            && (done.pending ==> c.probeTick || c.resync || done.retry)
            && (done.retry ==> done.pending && RetryReconcileByNudge(c))
  {
    hide AfterApply, Records;
  }

  lemma RebuiltKeeps(c: Config, persistent: bool, l: Loop, p: Pass)
    requires l.queued <= CHANGES && (l.reset ==> !l.ready) && (l.retry ==> RetryReconcileByNudge(c))
    ensures Inv(c, Rebuilt(c, persistent, l, p))
  {
    hide Reconciled, Outcome, Checked;
    ReconciledSettles(c, persistent, l, p.reconciling);
  }

  lemma TurnKeeps(c: Config, persistent: bool, l: Loop, p: Pass)
    requires Inv(c, l) && Possible(c, l, p)
    ensures Inv(c, Turn(c, persistent, l, p))
  {
    hide Rebuilt, Outcome, Checked;
    var awake := Awake(l, p);
    var inspected := Inspected(c, persistent, awake, p);
    if !StillDown(awake, p) && Reconciles(p.wakeup, Found(awake, p), inspected.pending) {
      RebuiltKeeps(c, persistent, inspected, p);
    }
  }

  lemma BegunKeeps(c: Config, persistent: bool, file: Option<Shadow>, epoch: nat, current: Option<Generation>, p: Pass)
    ensures Inv(c, Begun(c, persistent, file, epoch, current, p))
  {
    hide Rebuilt, Outcome, Checked, Loaded;
    var start := Loop(false, false, false, epoch, false, Loaded(if persistent then file else None, current), file, 0,
                      false, epoch);
    RebuiltKeeps(c, persistent, Verified(c, persistent, start, p), p);
  }

  /** A run: a start, then passes, with notices from elsewhere before each. */
  ghost predicate Run(c: Config, persistent: bool, loops: seq<Loop>, passes: seq<(nat, Pass)>) {
    && |loops| == |passes| + 1
    && (exists file, epoch, current, p :: loops[0] == Begun(c, persistent, file, epoch, current, p))
    && forall i :: 0 <= i < |passes| ==>
         && Possible(c, Noticed(loops[i], passes[i].0), passes[i].1)
         && loops[i + 1] == Turn(c, persistent, Noticed(loops[i], passes[i].0), passes[i].1)
  }

  /** Whatever the ticks, the wakeups, the probes and the reconciles, nothing is forgotten. */
  lemma {:induction false} NothingIsForgotten(c: Config, persistent: bool, loops: seq<Loop>, passes: seq<(nat, Pass)>,
                                              n: nat)
    requires Run(c, persistent, loops, passes) && n < |loops|
    ensures Inv(c, loops[n])
  {
    hide Turn, Begun;
    if n == 0 {
      var file, epoch, current, p :| loops[0] == Begun(c, persistent, file, epoch, current, p);
      BegunKeeps(c, persistent, file, epoch, current, p);
    } else {
      NothingIsForgotten(c, persistent, loops, passes, n - 1);
      TurnKeeps(c, persistent, Noticed(loops[n - 1], passes[n - 1].0), passes[n - 1].1);
    }
  }

  /** A loop's decisions: everything but what it last heard of Sōzu and what is queued. */
  function Decisions(l: Loop): Loop {
    l.(unreachable := false, queued := 0, seen := 0)
  }

  lemma FailedProbe(c: Config, persistent: bool, l: Loop, epoch: nat, p: Probing, afterReconcile: bool)
    requires p.answer.None?
    ensures Decisions(Probed(c, persistent, l, epoch, p, afterReconcile)) == Decisions(l)
  {
  }

  /** A pass whose probes all fail decides what it would decide without them: the shadow, its file, readiness
      and the acknowledged epoch are as the reconcile leaves them, or as they were if there was none. */
  lemma FailedProbesDecideNothing(c: Config, persistent: bool, l: Loop, p: Pass)
    requires p.check.answer.None? && p.recheck.answer.None?
    ensures var after, awake := Decisions(Turn(c, persistent, l, p)), Awake(l, p);
            || after == Decisions(awake)
            || (!p.wakeup.SozuProbe? && after == Decisions(Reconciled(c, persistent, awake, p.reconciling)))
  {
    hide Inspected, Rebuilt, Reconciled, Awake;
    var awake := Awake(l, p);
    var inspected := Inspected(c, persistent, awake, p);
    FailedInspection(c, persistent, awake, p);
    FailedRecheck(c, persistent, inspected, awake, p);
  }

  lemma FailedInspection(c: Config, persistent: bool, l: Loop, p: Pass)
    requires p.check.answer.None?
    ensures Decisions(Inspected(c, persistent, l, p)) == Decisions(l)
    ensures Found(l, p) in {None, Some(ProbeFailed)}
  {
    hide Probed;
    FailedProbe(c, persistent, l, p.epoch, p.check, false);
  }

  lemma FailedRecheck(c: Config, persistent: bool, l: Loop, m: Loop, p: Pass)
    requires p.recheck.answer.None? && Decisions(l) == Decisions(m)
    ensures Decisions(Rebuilt(c, persistent, l, p)) == Decisions(Reconciled(c, persistent, m, p.reconciling))
  {
    hide Probed, AfterApply, Records;
    var done := Reconciled(c, persistent, l, p.reconciling);
    FailedProbe(c, persistent, done, p.after, p.recheck, true);
    assert Decisions(done) == Decisions(Reconciled(c, persistent, m, p.reconciling));
  }

  /** Readiness, once a reset has taken it, comes back only with a reconcile that succeeds. */
  lemma ReadyOnlyByReconcile(c: Config, persistent: bool, l: Loop, p: Pass)
    requires !l.ready && Turn(c, persistent, l, p).ready
    ensures p.reconciling.ok && !Turn(c, persistent, l, p).reset && !Turn(c, persistent, l, p).pending
  {
    hide AfterApply, Records, Outcome, Checked;
  }

  /** Readiness is lost only to an answer that shows another Sozu, or none on record, under a shadow that lists
      something: not to a reconcile that fails, nor to a probe that does. */
  lemma ReadyUntilReset(c: Config, persistent: bool, l: Loop, p: Pass)
    requires l.ready && !Turn(c, persistent, l, p).ready
    ensures var inspected := Inspected(c, persistent, Awake(l, p), p);
            var done := Reconciled(c, persistent, inspected, p.reconciling);
            || Shows(p.check, l.shadow)
            || Shows(p.recheck, done.shadow)
  {
    hide Probed, AfterApply, Records, Shows;
    var awake := Awake(l, p);
    var inspected := Inspected(c, persistent, awake, p);
    ProbeReady(c, persistent, awake, p.epoch, p.check, false);
    ProbeReady(c, persistent, Reconciled(c, persistent, inspected, p.reconciling), p.after, p.recheck, true);
  }

  lemma ProbeReady(c: Config, persistent: bool, l: Loop, epoch: nat, p: Probing, afterReconcile: bool)
    ensures Probed(c, persistent, l, epoch, p, afterReconcile).ready == (l.ready && !Shows(p, l.shadow))
  {
  }

  /** The answer is of another Sozu than the one the shadow was applied to. */
  predicate Shows(p: Probing, s: Shadow) {
    p.answer.Some? && s.ir != map[] && (s.generation.Some? ==> s.generation.value.socket != p.answer.value.socket)
  }

  /** The wakeup unfinished work can count on, in each configuration. */
  function NextWakeup(c: Config, l: Loop): Wakeup {
    if l.queued > 0 then Change else if c.resync then Resync else if c.probeTick then SozuProbe else Retry
  }

  /** From any state a run reaches with work left, that wakeup can come, and one pass in which Sōzu answers,
      does not reconnect and takes the reconcile leaves the loop ready with nothing pending. */
  lemma OnePassRecovers(c: Config, persistent: bool, l: Loop, p: Pass)
    requires Inv(c, l) && (l.pending || l.reset || !l.ready)
    requires p.wakeup == NextWakeup(c, l) && p.left <= CHANGES && p.answers && p.check.answer.Some?
    requires p.reconciling.ok && p.after == (if p.wakeup.Change? && p.epoch == l.acked then p.epoch else p.check.epoch)
    ensures Possible(c, l, p)
    ensures var after := Turn(c, persistent, l, p);
            after.ready && !after.pending && !after.reset && !after.retry && after.seen == after.acked
  {
    hide AfterApply, Records, Checked;
  }

  /** A change, a resync and an armed retry always end in the reconcile, whatever is pending and whatever the
      check found; a liveness tick does exactly when Sozu answered and either work is pending, or it came back
      on another socket, or none is on record, under a shadow that lists something. */
  lemma WakeupsReconcile(c: Config, persistent: bool, l: Loop, p: Pass)
    ensures !p.wakeup.SozuProbe? ==>
              Turn(c, persistent, l, p) == Rebuilt(c, persistent, Inspected(c, persistent, Awake(l, p), p), p)
    ensures p.wakeup.SozuProbe? && l.unreachable && !p.answers ==> Turn(c, persistent, l, p) == l
    ensures p.wakeup.SozuProbe? && (!l.unreachable || p.answers) ==>
              var lost := p.check.answer.Some? && l.shadow.ir != map[] &&
                          !Names(l.shadow, p.check.answer.value.socket);
              var inspected := Inspected(c, persistent, l, p);
              Turn(c, persistent, l, p) ==
              if lost || (p.check.answer.Some? && l.pending) then Rebuilt(c, persistent, inspected, p) else inspected
  {
    hide Rebuilt, Checked;
  }

  /** A pass that is no liveness tick and whose reconcile succeeds leaves the loop ready with nothing pending, and
      the shadow at what was sent; one whose reconcile fails leaves work pending. */
  lemma RebuildsSettle(c: Config, persistent: bool, l: Loop, p: Pass)
    requires !p.wakeup.SozuProbe? && p.after == Inspected(c, persistent, Awake(l, p), p).acked
    ensures var after := Turn(c, persistent, l, p);
            && after.pending == !p.reconciling.ok
            && (p.reconciling.ok ==> after.ready && !after.retry && !after.reset)
            && (p.reconciling.sent.Some? ==>
                  var sent := p.reconciling.sent.value;
                  sent.failed.None? && sent.batch != [] ==> after.shadow.ir == sent.desired)
  {
    hide Inspected;
  }

  /** With the liveness tick running, a tick that gets no answer changes nothing but what was heard of Sozu:
      nothing is queued, and no rebuild comes of it. */
  lemma UnansweredTickIsQuiet(c: Config, persistent: bool, l: Loop, p: Pass)
    requires c.probeTick && p.wakeup.SozuProbe? && p.check.answer.None?
    ensures var after := Turn(c, persistent, l, p);
            after == l.(unreachable := after.unreachable, seen := after.seen) && after.unreachable
  {
  }

  /** What a generation check concludes. No answer decides nothing and, without the liveness tick, queues a nudge.
      An answer is acknowledged and becomes the shadow's generation; under another socket than the recorded one,
      or none, what the shadow listed is lost: it is emptied, in the file too, and the loop is not ready. */
  lemma ProbeConcludes(c: Config, persistent: bool, l: Loop, epoch: nat, p: Probing, afterReconcile: bool)
    requires l.queued <= 64
    ensures var after := Probed(c, persistent, l, epoch, p, afterReconcile);
            var lost := p.answer.Some? && l.shadow.ir != map[] && !Names(l.shadow, p.answer.value.socket);
            var nudged := if l.queued < 64 then l.queued + 1 else 64;
            && after.pending == l.pending && after.retry == l.retry
            && if p.answer.None? then
                 && after.shadow == l.shadow && after.file == l.file && after.acked == l.acked
                 && after.ready == l.ready && after.unreachable
                 && after.queued == (if c.probeTick then l.queued else nudged)
               else
                 && after.shadow == Shadow(p.answer, if lost then map[] else l.shadow.ir)
                 && after.file == (if lost && persistent then Some(after.shadow) else l.file)
                 && after.acked == p.epoch && !after.unreachable && after.ready == (l.ready && !lost)
                 && after.queued == (if lost && afterReconcile then nudged else l.queued)
  {
  }

  /** A reconnect is never passed over: not before the reconcile, whatever the wakeup; not during it; and not
      between reading Sozu's generation at a start and the first reconcile, where one that cannot be checked
      leaves nothing taken up. Ticks and retries check without one. */
  lemma ReconnectsAreChecked(c: Config, persistent: bool, l: Loop, p: Pass)
    ensures p.epoch != l.acked || !p.wakeup.Change? ==>
              Inspected(c, persistent, l, p) == Probed(c, persistent, l, p.epoch, p.check, false)
    ensures var done := Reconciled(c, persistent, l, p.reconciling);
            p.after != done.acked ==>
              Rebuilt(c, persistent, l, p) == Probed(c, persistent, done, p.after, p.recheck, true)
    ensures p.epoch != l.acked ==>
              var checked := Probed(c, persistent, l, p.epoch, p.check, false);
              var verified := Verified(c, persistent, l, p);
              && verified.acked == checked.acked
              && verified.shadow == if p.check.answer.None? then Shadow(None, map[]) else checked.shadow
  {
    hide Probed, Reconciled;
    ProbeOutcome(c, persistent, l, p.epoch, p.check);
  }

  lemma ProbeOutcome(c: Config, persistent: bool, l: Loop, epoch: nat, p: Probing)
    ensures Outcome(p.answer, l.shadow).ProbeFailed? <==> p.answer.None?
  {
  }

  /** A start always ends in a reconcile: one that succeeds leaves the loop ready, one that fails work pending. */
  lemma StartReconciles(c: Config, persistent: bool, file: Option<Shadow>, epoch: nat, current: Option<Generation>,
                        p: Pass)
    ensures var l := Begun(c, persistent, file, epoch, current, p);
            && l.pending == !p.reconciling.ok
            && (l.ready ==> p.reconciling.ok)
            && (p.reconciling.ok && (p.recheck.answer.None? || l.shadow.ir != map[]) ==> l.ready)
  {
    hide AfterApply, Records, Loaded;
  }
}
