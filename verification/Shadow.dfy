/** The shadow: what the controller believes Sōzu holds, and when that belief is true. */
module Shadows {
  import opened Base

  /** Routing state by object: each object's identity with its whole description. */
  type Ir = map<string, string>

  datatype Request = Put(name: string, value: string) | Drop(name: string)

  datatype SocketIdentity = SocketIdentity(device: nat, inode: nat, changedSecs: int, changedNanos: int)

  datatype Generation = Generation(socket: SocketIdentity, workers: set<nat>)

  /** The last applied state and the Sōzu it was applied to; also the format of the file. */
  datatype Shadow = Shadow(generation: Option<Generation>, ir: Ir)

  datatype Check = Unchanged | Reset | ProbeFailed

  // ---- batches -------------------------------------------------------------------------------------

  function Do(r: Request, m: Ir): Ir {
    match r
    case Put(name, value) => m[name := value]
    case Drop(name) => m - {name}
  }

  function Effect(batch: seq<Request>, m: Ir): Ir {
    if batch == [] then m else Effect(batch[1..], Do(batch[0], m))
  }

  function At(m: Ir, k: string): Option<string> {
    if k in m then Some(m[k]) else None
  }

  /** What the last request about `k` leaves there, if any request is about `k`. */
  function LastOn(batch: seq<Request>, k: string): Option<Option<string>> {
    if batch == [] then None
    else
      var later := LastOn(batch[1..], k);
      if later.Some? || batch[0].name != k then later
      else Some(if batch[0].Put? then Some(batch[0].value) else None)
  }

  lemma {:induction false} EffectAt(batch: seq<Request>, m: Ir, k: string)
    ensures At(Effect(batch, m), k) == (var last := LastOn(batch, k); if last.Some? then last.value else At(m, k))
  {
    if batch != [] {
      EffectAt(batch[1..], Do(batch[0], m), k);
    }
  }

  /** `batch` takes a Sōzu holding `from` to `to`, and tears down only what `from` lists. */
  ghost predicate IsDiff(from: Ir, to: Ir, batch: seq<Request>) {
    && Effect(batch, from) == to
    && forall i :: 0 <= i < |batch| && batch[i].Drop? ==> batch[i].name in from
  }

  /** Everything `claims` lists is held as it says. */
  ghost predicate Covers(held: Ir, claims: Ir) {
    forall k :: k in claims ==> k in held && held[k] == claims[k]
  }

  lemma EffectCovers(batch: seq<Request>, held: Ir, claims: Ir)
    requires Covers(held, claims)
    ensures Covers(Effect(batch, held), Effect(batch, claims))
  {
    hide Effect, LastOn;
    forall k | k in Effect(batch, claims)
      ensures k in Effect(batch, held) && Effect(batch, held)[k] == Effect(batch, claims)[k]
    {
      EffectAt(batch, held, k);
      EffectAt(batch, claims, k);
    }
  }

  /** Once a diff from a true shadow has been applied, Sōzu agrees with the desired state on every object
      either lists: what left it is gone, and only objects neither lists may remain. */
  lemma AppliedDiffPrograms(batch: seq<Request>, held: Ir, from: Ir, to: Ir)
    requires Covers(held, from) && IsDiff(from, to, batch)
    ensures forall k :: k in from || k in to ==> At(Effect(batch, held), k) == At(to, k)
    ensures forall k :: k !in from && k !in to ==>
        At(Effect(batch, held), k) == At(held, k) || k !in Effect(batch, held)
  {
    hide Effect, LastOn;
    forall k ensures (k in from || k in to ==> At(Effect(batch, held), k) == At(to, k))
              && (k !in from && k !in to ==> At(Effect(batch, held), k) == At(held, k) || k !in Effect(batch, held))
    {
      EffectAt(batch, held, k);
      EffectAt(batch, from, k);
    }
  }

  // ---- requests the shadow does not record -----------------------------------------------------------

  /** No claim is disturbed: the last request about a claimed object, if any, leaves it as claimed. */
  predicate Undisturbed(batch: seq<Request>, claims: Ir) {
    forall k :: k in claims ==> var last := LastOn(batch, k); last.None? || last.value == Some(claims[k])
  }

  /** A timed-out apply, a crash in the middle of one, or requests no shadow can describe leave the shadow
      behind. It stays true exactly when those requests disturb none of its claims. */
  lemma UnrecordedRequests(batch: seq<Request>, held: Ir, claims: Ir)
    requires Covers(held, claims)
    ensures Covers(Effect(batch, held), claims) <==> Undisturbed(batch, claims)
  {
    hide Effect, LastOn;
    forall k | k in claims
      ensures At(Effect(batch, held), k) == Some(claims[k]) <==>
                var last := LastOn(batch, k); last.None? || last.value == Some(claims[k])
    {
      EffectAt(batch, held, k);
    }
  }

  /** A teardown Sōzu did and the shadow missed: the object, wanted again, then diffs to nothing. */
  lemma StaleShadowSkipsARemovedObject()
    ensures var held, claims, batch := map["a" := "1"], map["a" := "1"], [Drop("a")];
            && Covers(held, claims) && IsDiff(claims, map[], batch)
            && !Covers(Effect(batch, held), claims) && IsDiff(claims, claims, []) && "a" !in Effect(batch, held)
  {
    var held: Ir := map["a" := "1"];
    assert Effect([Drop("a")], held) == Effect([], held - {"a"}) by {
      assert [Drop("a")][1..] == [];
    }
    assert "a" in held;
  }

  // ---- the decisions ---------------------------------------------------------------------------------

  /** The shadow a starting controller takes up: the file's, if it was written against the Sōzu that answered. */
  function Loaded(file: Option<Shadow>, current: Option<Generation>): Shadow {
    if file.Some? && file.value.generation.Some? && current.Some?
        && file.value.generation.value.socket == current.value.socket
    then Shadow(current, file.value.ir)
    else Shadow(current, map[])
  }

  /** A restart is concluded only from an answer, only with something to lose, and from a changed socket or
      no baseline. */
  predicate ShouldReset(probe: Option<Generation>, baseline: Option<Generation>, ir: Ir) {
    && probe.Some? && ir != map[]
    && (baseline.Some? ==> baseline.value.socket != probe.value.socket)
  }

  function Outcome(probe: Option<Generation>, s: Shadow): Check {
    if probe.None? then ProbeFailed else if ShouldReset(probe, s.generation, s.ir) then Reset else Unchanged
  }

  function Checked(probe: Option<Generation>, s: Shadow): Shadow {
    match Outcome(probe, s)
    case ProbeFailed => s
    case Reset => Shadow(probe, map[])
    case Unchanged => Shadow(probe, s.ir)
  }

  /** Whether a failed batch's acknowledged requests are recorded: the count is credible and the result has
      a description, `replayed`, that differs from the shadow. */
  predicate Adopts(s: Shadow, replayed: Option<Ir>, batch: nat, acknowledged: nat) {
    acknowledged <= batch && replayed.Some? && replayed.value != s.ir
  }

  /** The controller's own copy and its file. */
  class Keeper {
    var shadow: Shadow
    var file: Option<Shadow>
    const persistent: bool

    /** A controller start: reads the file left by the previous run. */
    constructor (left: Option<Shadow>, current: Option<Generation>, persistent: bool)
      ensures shadow == Loaded(if persistent then left else None, current)
      ensures file == left && this.persistent == persistent
      ensures shadow.generation == current
      ensures persistent && left.Some? && current.Some? && Names(left.value, current.value.socket) ==>
                shadow.ir == left.value.ir
    {
      this.persistent := persistent;
      file := left;
      var start := Shadow(current, map[]);
      if persistent && left.Some? {
        match (left.value.generation, current)
        case (Some(against), Some(now)) =>
          if against.socket == now.socket {
            start := Shadow(Some(now), left.value.ir);
          }
        case (_, _) =>
      }
      shadow := start;
    }

    method Persist()
      modifies this`file
      ensures file == if persistent then Some(shadow) else old(file)
    {
      if persistent {
        file := Some(shadow);
      }
    }

    method CheckRestartGeneration(probe: Option<Generation>) returns (outcome: Check)
      modifies this`shadow
      ensures outcome == Outcome(probe, old(shadow)) && shadow == Checked(probe, old(shadow))
    {
      if probe.None? {
        return ProbeFailed;
      }
      if ShouldReset(probe, shadow.generation, shadow.ir) {
        shadow := shadow.(ir := map[]);
        outcome := Reset;
      } else {
        outcome := Unchanged;
      }
      shadow := shadow.(generation := probe);
    }

    /** The check with what a reset entails: the file never outlives the state it describes. */
    method ProbeGeneration(probe: Option<Generation>) returns (outcome: Check)
      modifies this`shadow, this`file
      ensures outcome == Outcome(probe, old(shadow)) && shadow == Checked(probe, old(shadow))
      ensures file == if outcome.Reset? && persistent then Some(shadow) else old(file)
    {
      outcome := CheckRestartGeneration(probe);
      if outcome == Reset {
        Persist();
      }
    }

    method ReplayAcknowledged(replayed: Option<Ir>, batch: seq<Request>, acknowledged: nat) returns (changed: bool)
      modifies this`shadow, this`file
      ensures changed == Adopts(old(shadow), replayed, |batch|, acknowledged)
      ensures shadow == if changed then old(shadow).(ir := replayed.value) else old(shadow)
      ensures file == if changed && persistent then Some(shadow) else old(file)
    {
      if acknowledged > |batch| || replayed.None? {
        return false;
      }
      if replayed.value == shadow.ir {
        return false;
      }
      shadow := shadow.(ir := replayed.value);
      Persist();
      changed := true;
    }

    /** What a reconcile does to the shadow: nothing for an empty batch, the desired state once the batch is
        applied, and on a failure what the replay records. */
    method Applied(desired: Ir, batch: seq<Request>, failed: Option<(nat, Option<Ir>)>)
      modifies this`shadow, this`file
      ensures shadow == AfterApply(old(shadow), desired, batch, failed)
      ensures file == if persistent && Records(old(shadow), batch, failed) then Some(shadow) else old(file)
    {
      if batch != [] {
        if failed.Some? {
          var changed := ReplayAcknowledged(failed.value.1, batch, failed.value.0);
        } else {
          shadow := shadow.(ir := desired);
          Persist();
        }
      }
    }
  }

  function AfterApply(s: Shadow, desired: Ir, batch: seq<Request>, failed: Option<(nat, Option<Ir>)>): Shadow {
    if !Records(s, batch, failed) then s
    else s.(ir := if failed.Some? then failed.value.1.value else desired)
  }

  predicate Records(s: Shadow, batch: seq<Request>, failed: Option<(nat, Option<Ir>)>)
    ensures Records(s, batch, failed) && failed.Some? ==> failed.value.1.Some?
  {
    batch != [] && (failed.Some? ==> Adopts(s, failed.value.1, |batch|, failed.value.0))
  }

  // ---- runs --------------------------------------------------------------------------------------------

  /** A running Sōzu: its generation, what it holds, and every socket there has been. */
  datatype Sozu = Sozu(generation: Generation, held: Ir, past: set<SocketIdentity>)

  /** `persistent` is whether a shadow file is configured; without one there is none. */
  datatype State = State(sozu: Sozu, shadow: Shadow, file: Option<Shadow>, persistent: bool)

  /** What happens to Sōzu on its own: a main-process restart, with a socket never seen before and nothing
      held, or a worker bounce, whose worker is fed the state again. */
  datatype Event = Restarted(generation: Generation) | Bounced(workers: set<nat>)

  ghost predicate Possible(z: Sozu, e: Event) {
    e.Restarted? ==> e.generation.socket !in z.past
  }

  function Happen(z: Sozu, e: Event): Sozu {
    match e
    case Restarted(g) => Sozu(g, map[], z.past + {g.socket})
    case Bounced(workers) => z.(generation := z.generation.(workers := workers))
  }

  /** A batch delivered while things happen: each step is the next request or an event. */
  datatype Act = Deliver(request: Request) | Occur(event: Event)

  function Requests(acts: seq<Act>): seq<Request> {
    if acts == [] then [] else (if acts[0].Deliver? then [acts[0].request] else []) + Requests(acts[1..])
  }

  ghost predicate Playable(z: Sozu, acts: seq<Act>)
    decreases |acts|
  {
    acts == [] || ((acts[0].Occur? ==> Possible(z, acts[0].event)) && Playable(Perform(z, acts[0]), acts[1..]))
  }

  function Perform(z: Sozu, a: Act): Sozu {
    match a
    case Deliver(r) => z.(held := Do(r, z.held))
    case Occur(e) => Happen(z, e)
  }

  function Play(z: Sozu, acts: seq<Act>): Sozu
    decreases |acts|
  {
    if acts == [] then z else Play(Perform(z, acts[0]), acts[1..])
  }

  /** A played batch ends on the same Sōzu, with its whole effect, or on one with a socket never seen before. */
  lemma {:induction false} PlayLands(z: Sozu, acts: seq<Act>)
    requires Playable(z, acts) && z.generation.socket in z.past
    ensures var y := Play(z, acts);
            && z.past <= y.past && y.generation.socket in y.past
            && if y.generation.socket in z.past
               then y.generation.socket == z.generation.socket && y.held == Effect(Requests(acts), z.held)
               else true
    decreases |acts|
  {
    if acts != [] {
      var next := Perform(z, acts[0]);
      PlayLands(next, acts[1..]);
      var y := Play(z, acts);
      if acts[0].Deliver? {
        assert Requests(acts) == [acts[0].request] + Requests(acts[1..]);
        assert Requests(acts)[1..] == Requests(acts[1..]);
      } else {
        assert Requests(acts) == Requests(acts[1..]);
      }
    }
  }

  /** One step of a run: what Sōzu does on its own, a generation check, a controller start, an apply that
      succeeds, one that fails with a count of what it acknowledged, and one whose requests go unrecorded
      (a timeout, or a controller stopped in the middle). */
  datatype Step =
    | Happens(event: Event)
    | Probe(answers: bool)
    | Load(current: Option<Generation>, lost: bool)
    | Apply(desired: Ir, batch: seq<Request>, acts: seq<Act>)
    | Fail(desired: Ir, batch: seq<Request>, acknowledged: nat, replayed: Option<Ir>, acts: seq<Act>)
    | Unrecorded(desired: Ir, batch: seq<Request>, acts: seq<Act>)

  /** The starting controller could not re-verify a reconnect: it takes up nothing. */
  function Started(file: Option<Shadow>, current: Option<Generation>, lost: bool): Shadow {
    if lost then Shadow(None, map[]) else Loaded(file, current)
  }

  ghost predicate Enabled(s: State, step: Step) {
    match step
    case Happens(e) => Possible(s.sozu, e)
    case Probe(_) => true
    case Load(current, _) => current.Some? ==> current.value.socket in s.sozu.past
    case Apply(desired, batch, acts) =>
      IsDiff(s.shadow.ir, desired, batch) && Playable(s.sozu, acts) && Requests(acts) == batch
    case Fail(desired, batch, n, replayed, acts) =>
      && IsDiff(s.shadow.ir, desired, batch) && Playable(s.sozu, acts)
      && n <= |batch| && Requests(acts) == batch[..n]
      && (replayed.Some? ==> replayed.value == Effect(batch[..n], s.shadow.ir))
      && (replayed.None? ==> Harmless(s, batch[..n]))
    case Unrecorded(desired, batch, acts) =>
      && IsDiff(s.shadow.ir, desired, batch) && Playable(s.sozu, acts) && Requests(acts) <= batch
      && Harmless(s, Requests(acts))
  }

  /** Requests that will go unrecorded disturb no claim of the shadow or of the file. */
  ghost predicate Harmless(s: State, requests: seq<Request>) {
    Undisturbed(requests, s.shadow.ir) && (s.file.Some? ==> Undisturbed(requests, s.file.value.ir))
  }

  function Recorded(s: State, shadow: Shadow, records: bool): State {
    s.(shadow := shadow, file := if records && s.persistent then Some(shadow) else s.file)
  }

  function Next(s: State, step: Step): State {
    match step
    case Happens(e) => s.(sozu := Happen(s.sozu, e))
    case Probe(answers) =>
      var probe := if answers then Some(s.sozu.generation) else None;
      Recorded(s, Checked(probe, s.shadow), Outcome(probe, s.shadow).Reset?)
    case Load(current, lost) => s.(shadow := Started(if s.persistent then s.file else None, current, lost))
    case Apply(desired, batch, acts) =>
      Recorded(s.(sozu := Play(s.sozu, acts)), AfterApply(s.shadow, desired, batch, None),
               Records(s.shadow, batch, None))
    case Fail(desired, batch, n, replayed, acts) =>
      Recorded(s.(sozu := Play(s.sozu, acts)), AfterApply(s.shadow, desired, batch, Some((n, replayed))),
               Records(s.shadow, batch, Some((n, replayed))))
    case Unrecorded(_, _, acts) => s.(sozu := Play(s.sozu, acts))
  }

  ghost predicate Names(s: Shadow, socket: SocketIdentity) {
    s.generation.Some? && s.generation.value.socket == socket
  }

  /** A shadow written against the live Sōzu claims only what that Sōzu holds. */
  ghost predicate TrueOf(s: Shadow, z: Sozu) {
    Names(s, z.generation.socket) ==> Covers(z.held, s.ir)
  }

  ghost predicate Past(s: Shadow, z: Sozu) {
    s.generation.Some? ==> s.generation.value.socket in z.past
  }

  ghost predicate Sound(s: State) {
    && s.sozu.generation.socket in s.sozu.past
    && Past(s.shadow, s.sozu) && TrueOf(s.shadow, s.sozu)
    && (s.file.Some? ==>
          && s.persistent && Past(s.file.value, s.sozu) && TrueOf(s.file.value, s.sozu)
          && (s.file.value.ir == s.shadow.ir || s.shadow.ir == map[] || !Names(s.file.value, s.sozu.generation.socket)))
  }

  lemma EventKeepsSound(s: State, e: Event)
    requires Sound(s) && Possible(s.sozu, e)
    ensures Sound(s.(sozu := Happen(s.sozu, e)))
  {
  }

  lemma ProbeKeepsSound(s: State, answers: bool)
    requires Sound(s)
    ensures Sound(Next(s, Probe(answers)))
  {
  }

  lemma LoadKeepsSound(s: State, current: Option<Generation>, lost: bool)
    requires Sound(s) && Enabled(s, Load(current, lost))
    ensures Sound(Next(s, Load(current, lost)))
  {
  }

  /** The claims `before` made of `z` become claims `after` makes of the Sōzu the batch ends on. */
  lemma PlayedTrue(z: Sozu, acts: seq<Act>, before: Shadow, after: Shadow)
    requires Playable(z, acts) && z.generation.socket in z.past
    requires Past(before, z) && TrueOf(before, z) && after.generation == before.generation
    requires after.ir == Effect(Requests(acts), before.ir)
        || (after == before && Undisturbed(Requests(acts), before.ir))
    ensures Past(after, Play(z, acts)) && TrueOf(after, Play(z, acts))
  {
    PlayLands(z, acts);
    hide Effect, Play, Playable, Requests, Covers;
    var y := Play(z, acts);
    if Names(after, y.generation.socket) {
      if after.ir == Effect(Requests(acts), before.ir) {
        EffectCovers(Requests(acts), z.held, before.ir);
      } else {
        UnrecordedRequests(Requests(acts), z.held, before.ir);
      }
    }
  }

  /** From nothing, a diff only adds, so a part of it that leaves nothing is no request at all. */
  lemma {:induction false} FromNothing(batch: seq<Request>)
    requires Effect(batch, map[]) == map[] && forall i :: 0 <= i < |batch| ==> batch[i].Put?
    ensures batch == []
  {
    if batch != [] {
      var last := batch[|batch| - 1];
      LastIsLast(batch);
      EffectAt(batch, map[], last.name);
    }
  }

  lemma {:induction false} LastIsLast(batch: seq<Request>)
    requires batch != [] && batch[|batch| - 1].Put?
    ensures var last := batch[|batch| - 1]; LastOn(batch, last.name) == Some(Some(last.value))
  {
    if |batch| > 1 {
      assert batch[1..][|batch| - 2] == batch[|batch| - 1];
      LastIsLast(batch[1..]);
    }
  }

  lemma UnrecordedKeepsSound(s: State, acts: seq<Act>)
    requires Sound(s) && Playable(s.sozu, acts) && Harmless(s, Requests(acts))
    ensures Sound(s.(sozu := Play(s.sozu, acts)))
  {
    hide Effect, Play, Playable, Requests, Undisturbed, TrueOf;
    PlayLands(s.sozu, acts);
    PlayedTrue(s.sozu, acts, s.shadow, s.shadow);
    if s.file.Some? {
      PlayedTrue(s.sozu, acts, s.file.value, s.file.value);
    }
  }

  /** Recording a batch's effect keeps the claims true, of the file too when it is not written. */
  lemma RecordedKeepsSound(s: State, acts: seq<Act>, ir: Ir, records: bool)
    requires Sound(s) && Playable(s.sozu, acts) && ir == Effect(Requests(acts), s.shadow.ir)
        && (ir != s.shadow.ir ==> records)
    requires forall i :: 0 <= i < |Requests(acts)| && Requests(acts)[i].Drop? ==> Requests(acts)[i].name in s.shadow.ir
    ensures Sound(Recorded(s.(sozu := Play(s.sozu, acts)), s.shadow.(ir := ir), records))
  {
    hide Effect, Play, Playable, Requests, TrueOf, Undisturbed;
    PlayLands(s.sozu, acts);
    PlayedTrue(s.sozu, acts, s.shadow, s.shadow.(ir := ir));
    if s.file.Some? && !records {
      if s.file.value.ir == s.shadow.ir {
        PlayedTrue(s.sozu, acts, s.file.value, s.file.value.(ir := ir));
      } else if s.shadow.ir == map[] {
        FromNothing(Requests(acts));
        NothingSent(s.sozu, acts, s.file.value);
      } else {
        NotNamed(s.sozu, acts, s.file.value);
      }
    }
  }

  lemma NothingSent(z: Sozu, acts: seq<Act>, claims: Shadow)
    requires Playable(z, acts) && z.generation.socket in z.past && Requests(acts) == []
    requires Past(claims, z) && TrueOf(claims, z)
    ensures Past(claims, Play(z, acts)) && TrueOf(claims, Play(z, acts))
  {
    PlayedTrue(z, acts, claims, claims);
  }

  lemma NotNamed(z: Sozu, acts: seq<Act>, claims: Shadow)
    requires Playable(z, acts) && z.generation.socket in z.past
    requires Past(claims, z) && !Names(claims, z.generation.socket)
    ensures var y := Play(z, acts); Past(claims, y) && TrueOf(claims, y) && !Names(claims, y.generation.socket)
  {
    PlayLands(z, acts);
  }

  lemma StepKeepsSound(s: State, step: Step)
    requires Sound(s) && Enabled(s, step)
    ensures Sound(Next(s, step))
  {
    hide Sound, Effect, Play, Playable, Undisturbed, Requests;
    match step
    case Happens(e) => EventKeepsSound(s, e);
    case Probe(answers) => ProbeKeepsSound(s, answers);
    case Load(current, lost) => LoadKeepsSound(s, current, lost);
    case Apply(desired, batch, acts) =>
      RecordedKeepsSound(s, acts, desired, batch != []) by {
        if batch == [] {
          NoEffect(s.shadow.ir);
        }
      }
      assert batch == [] ==> desired == s.shadow.ir by {
        NoEffect(s.shadow.ir);
      }
    case Fail(desired, batch, n, replayed, acts) =>
      if replayed.Some? {
        RecordedKeepsSound(s, acts, replayed.value, Records(s.shadow, batch, Some((n, replayed)))) by {
          if batch == [] {
            NoEffect(s.shadow.ir);
          }
        }
        assert batch == [] ==> replayed.value == s.shadow.ir by {
          NoEffect(s.shadow.ir);
        }
      } else {
        UnrecordedKeepsSound(s, acts);
      }
    case Unrecorded(_, _, acts) => UnrecordedKeepsSound(s, acts);
  }

  lemma NoEffect(m: Ir)
    ensures Effect([], m) == m
  {
  }

  /** The controller has just started beside a Sōzu, and took up nothing from any earlier run. */
  ghost predicate Initial(s: State) {
    s.shadow == Shadow(None, map[]) && s.file.None? && s.sozu.generation.socket in s.sozu.past
  }

  ghost predicate Run(states: seq<State>, steps: seq<Step>) {
    && |states| == |steps| + 1 && Initial(states[0])
    && forall i :: 0 <= i < |steps| ==> Enabled(states[i], steps[i]) && states[i + 1] == Next(states[i], steps[i])
  }

  /** In every run, whenever the recorded socket is the live one, Sōzu holds everything the shadow claims;
      so it is for the file. */
  lemma {:induction false} ShadowIsTrue(states: seq<State>, steps: seq<Step>, n: nat)
    requires Run(states, steps) && n < |states|
    ensures Sound(states[n])
  {
    if n > 0 {
      ShadowIsTrue(states, steps, n - 1);
      StepKeepsSound(states[n - 1], steps[n - 1]);
    }
  }

  /** After a generation check that answered, the shadow claims only what the live Sōzu holds. */
  lemma CheckedShadowIsTrue(s: State)
    requires Sound(s)
    ensures Covers(s.sozu.held, Next(s, Probe(true)).shadow.ir)
    ensures Outcome(Some(s.sozu.generation), s.shadow).Reset? <==>
        s.shadow.ir != map[] && !Names(s.shadow, s.sozu.generation.socket)
  {
  }

  /** An apply that succeeds on the Sōzu the shadow names leaves it agreeing with the desired state on every
      object the desired state or the previous shadow lists: orphans are pruned. */
  lemma ApplyPrograms(s: State, desired: Ir, batch: seq<Request>, acts: seq<Act>)
    requires Sound(s) && Enabled(s, Apply(desired, batch, acts))
    requires Names(s.shadow, s.sozu.generation.socket)
    requires Play(s.sozu, acts).generation.socket == s.sozu.generation.socket
    ensures forall k :: k in s.shadow.ir || k in desired ==> At(Play(s.sozu, acts).held, k) == At(desired, k)
  {
    hide Effect, Play, Playable, Requests;
    PlayLands(s.sozu, acts);
    AppliedDiffPrograms(batch, s.sozu.held, s.shadow.ir, desired);
  }

  /** A failed batch whose acknowledged head leaves a state with a description is recorded, in the file too when
      anything changed; one that leaves none, or a count past its end, changes nothing. */
  lemma FailureIsRecorded(s: State, desired: Ir, batch: seq<Request>, n: nat, replayed: Option<Ir>, acts: seq<Act>)
    requires batch != []
    ensures var t := Next(s, Fail(desired, batch, n, replayed, acts));
            if n <= |batch| && replayed.Some? then
              && t.shadow == Shadow(s.shadow.generation, replayed.value)
              && (s.persistent && replayed.value != s.shadow.ir ==> t.file == Some(t.shadow))
            else t.shadow == s.shadow && t.file == s.file
  {
    hide Play;
  }

  /** A batch that succeeds is recorded as the desired state, in the file too; an empty one writes nothing. */
  lemma SuccessIsRecorded(s: State, desired: Ir, batch: seq<Request>, acts: seq<Act>)
    ensures var t := Next(s, Apply(desired, batch, acts));
            if batch == [] then t.shadow == s.shadow && t.file == s.file
            else t.shadow == Shadow(s.shadow.generation, desired) &&
                 t.file == if s.persistent then Some(t.shadow) else s.file
  {
    hide Play;
  }

  /** After a failure that could be recorded, one batch that succeeds on the same Sozu leaves nothing behind: every
      object the shadow listed, the desired state lists or an acknowledged request named is as desired. */
  lemma RetryPrograms(s: State, desired: Ir, batch: seq<Request>, n: nat, replayed: Ir, acts: seq<Act>, wanted: Ir,
                      retry: seq<Request>, later: seq<Act>, k: string)
    requires Sound(s) && batch != [] && Enabled(s, Fail(desired, batch, n, Some(replayed), acts))
    requires Names(s.shadow, s.sozu.generation.socket)
    requires Play(s.sozu, acts).generation.socket == s.sozu.generation.socket
    requires var t := Next(s, Fail(desired, batch, n, Some(replayed), acts));
             Enabled(t, Apply(wanted, retry, later)) &&
             Play(t.sozu, later).generation.socket == s.sozu.generation.socket
    requires k in s.shadow.ir || k in wanted || exists i :: 0 <= i < n && batch[i].name == k
    ensures var t := Next(s, Fail(desired, batch, n, Some(replayed), acts));
            At(Play(t.sozu, later).held, k) == At(wanted, k)
  {
    var t := Next(s, Fail(desired, batch, n, Some(replayed), acts));
    StepKeepsSound(s, Fail(desired, batch, n, Some(replayed), acts));
    FailureIsRecorded(s, desired, batch, n, Some(replayed), acts);
    hide Sound, Effect, Play, Playable, Requests, LastOn, Next, Enabled;
    assert Enabled(t, Apply(wanted, retry, later));
    RetryLands(s, desired, batch, n, replayed, acts, t, k);
    RetryApplies(t, wanted, retry, later, k);
  }

  /** What the acknowledged head left of `k`: the shadow lists it, or nobody holds it. */
  lemma RetryLands(s: State, desired: Ir, batch: seq<Request>, n: nat, replayed: Ir, acts: seq<Act>, t: State,
                   k: string)
    requires Sound(s) && Enabled(s, Fail(desired, batch, n, Some(replayed), acts))
    requires Names(s.shadow, s.sozu.generation.socket)
    requires t == Next(s, Fail(desired, batch, n, Some(replayed), acts)) && t.shadow.ir == replayed
    requires t.sozu.generation.socket == s.sozu.generation.socket
    ensures k in s.shadow.ir || (exists i :: 0 <= i < n && batch[i].name == k) ==>
        k in t.shadow.ir || k !in t.sozu.held
  {
    hide Effect, Play, Playable, Requests, LastOn;
    PlayLands(s.sozu, acts);
    EffectAt(batch[..n], s.sozu.held, k);
    EffectAt(batch[..n], s.shadow.ir, k);
    if i :| 0 <= i < n && batch[i].name == k {
      assert batch[..n][i].name == k;
      NamedHasLast(batch[..n], i, k);
    }
  }

  lemma {:induction false} NamedHasLast(batch: seq<Request>, i: nat, k: string)
    requires i < |batch| && batch[i].name == k
    ensures LastOn(batch, k).Some?
  {
    if i > 0 {
      NamedHasLast(batch[1..], i - 1, k);
    }
  }

  lemma RetryApplies(t: State, wanted: Ir, retry: seq<Request>, later: seq<Act>, k: string)
    requires Sound(t) && Enabled(t, Apply(wanted, retry, later)) && Names(t.shadow, t.sozu.generation.socket)
    requires Play(t.sozu, later).generation.socket == t.sozu.generation.socket
    requires k in t.shadow.ir || k in wanted || k !in t.sozu.held
    ensures At(Play(t.sozu, later).held, k) == At(wanted, k)
  {
    hide Effect, Play, Playable, Requests, LastOn;
    PlayLands(t.sozu, later);
    AppliedDiffPrograms(retry, t.sozu.held, t.shadow.ir, wanted);
  }
}
