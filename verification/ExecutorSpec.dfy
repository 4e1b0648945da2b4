/** What every handler of the run executor does, as a function on values.

    An `Exec` is everything the executor holds, together with the calls it has
    made to its injected collaborators: the journal snapshots it wrote, and the
    driver commands and history records in `effects`. One lock hold is one
    transition. What the outside world answers during it is an `Env`: the clock,
    the configuration, the outcome of the (at most one) start, stop and read that
    the transition performs, and how long each of them took. */
module ExecutorSpec {
  import opened Domain
  import Dedup

  // ---------------------------------------------------------------------
  // State

  datatype ExecutorState =
    | Idle | Waiting | Starting | Watering | InterZoneGap
    | PausedExternal | PausedSensor | Stopping | Reconciling | Failed

  datatype StepStatus =
    | Pending | Running | Completed | Skipped
    | SensorCut | ExternalStop | OverrunStopped | StepFailed

  datatype RunOutcome =
    | RunCompleted | CompletedWithSkips | AbortedSensor | AbortedExternal
    | AbortedUser | AbortedPowerLoss | RunFailed | RunSkipped

  /** Why a step, a run or a pause ended up the way it did (texts left out). */
  datatype Reason =
    | UserText(text: string) | UserSkip | UserStop | LowTemperature | RainDelay
    | RainSensorWet | SourceUnavailable | Rejected | ControllerOverrun | PowerLoss
    | ExternalActivity | CommandFailed | MissedTolerance | RestartMissedTolerance
    | ZoneUnresolved | StoppedOutside
    | NoExecutableSteps | SomeStepsSkipped | RecoveredPastEnd

  datatype StepResult = StepResult(
    status: StepStatus,
    actualStart: Option<Instant>,
    actualEnd: Option<Instant>,
    reason: Option<Reason>,
    attempts: nat)

  const FRESH_RESULT := StepResult(Pending, None, None, None, 0)

  datatype Disposition = Intended | Sent | Accepted | CommandRejected | Uncertain

  datatype Command =
    | StartCommand(intendedAt: Instant, disposition: Disposition, zone: ZoneId, attempt: nat)
    | StopCommand(intendedAt: Instant, disposition: Disposition)

  datatype Journal = Journal(
    state: ExecutorState,
    plan: Option<RunPlan>,
    activeOccurrence: Option<OccurrenceId>,
    index: nat,
    results: seq<StepResult>,
    pending: Option<Command>,
    actualStart: Option<Instant>,
    expectedEnd: Option<Instant>,
    lastObservation: Option<Observation>,
    retryCount: nat,
    uncertainCount: nat,
    stopRequested: bool,
    pausedReason: Option<Reason>,
    pausedAt: Option<Instant>,
    completed: seq<Dedup.Entry>)

  const EMPTY_JOURNAL := Journal(
    Idle, None, None, 0, [], None, None, None, None, 0, 0, false, None, None, [])

  datatype Handler =
    | OnExpectedEnd | OnGap | ConfirmOverrun | ConfirmEarlyEnd
    | ClassifyUncertain | RetryStep | RetryUncertainStop

  /** An armed callback; the generation is the guard it captured. */
  datatype Timer = Timer(when: Instant, generation: nat, handler: Handler)

  datatype Context = NoContext | StartContext | OverrunContext | EarlyEndContext

  datatype StartResult = StartOk | StartRejected | StartUncertain

  datatype Effect =
    | StartZone(index: nat, at: Instant, result: StartResult)
    | StopController(at: Instant)
    | RunFinished(plan: RunPlan, outcome: RunOutcome, reason: Option<Reason>, results: seq<StepResult>)

  datatype Exec = Exec(
    j: Journal,
    timer: Option<Timer>,
    generation: nat,
    issued: set<Timer>,
    context: Context,
    overrunAttempts: nat,
    stopRetries: nat,
    clock: Instant,
    written: seq<Journal>,
    effects: seq<Effect>)

  datatype Env = Env(
    now: Instant,
    config: Config,
    program: Option<ProgramPolicies>,
    resolvable: set<ZoneId>,
    start: StartResult,
    startLatency: nat,
    stopOk: bool,
    stopLatency: nat,
    read: Option<Observation>,
    readLatency: nat)

  predicate IsActive(j: Journal) {
    j.state in {Waiting, Starting, Watering, InterZoneGap,
                PausedExternal, PausedSensor, Reconciling, Stopping}
  }

  predicate IsPaused(j: Journal) { j.state == PausedExternal || j.state == PausedSensor }

  /** The journal refers to a plan and to one of its steps. */
  predicate HasStep(j: Journal) {
    j.plan.Some? && |j.results| == |j.plan.value.steps| && j.index < |j.results|
  }

  function CurrentStep(j: Journal): RunStep
    requires HasStep(j)
  {
    j.plan.value.steps[j.index]
  }

  function CurrentStatus(j: Journal): StepStatus
    requires HasStep(j)
  {
    j.results[j.index].status
  }

  // ---------------------------------------------------------------------
  // Timers and persistence

  function CancelTimer(s: Exec): Exec {
    s.(timer := None, generation := s.generation + 1)
  }

  function ArmAt(s: Exec, when: Instant, handler: Handler): Exec {
    var t := Timer(when, s.generation + 1, handler);
    s.(timer := Some(t), generation := s.generation + 1, issued := s.issued + {t})
  }

  function ArmIn(s: Exec, seconds: int, handler: Handler): Exec {
    ArmAt(s, s.clock + seconds, handler)
  }

  function Write(s: Exec): Exec {
    s.(written := s.written + [s.j])
  }

  /** The driver's live read; a failed read falls back to the last observation. */
  function Observe(s: Exec, env: Env): Exec {
    var j := if env.read.Some? then s.j.(lastObservation := env.read) else s.j;
    s.(j := j, clock := s.clock + env.readLatency)
  }

  function StopRetryDelay(attempt: nat): int { if attempt == 0 then 5 else 20 }

  function SetDisposition(j: Journal, d: Disposition): Journal {
    if j.pending.Some? then j.(pending := Some(j.pending.value.(disposition := d))) else j
  }

  function RetryStopLater(s: Exec): Exec {
    if IsActive(s.j) && s.stopRetries < 2 then
      ArmIn(s.(stopRetries := s.stopRetries + 1), StopRetryDelay(s.stopRetries), RetryUncertainStop)
    else s
  }

  /** The stop is journaled before the driver is asked. */
  function CommandStop(s: Exec, env: Env): Exec {
    var s1 := Write(s.(j := s.j.(pending := Some(StopCommand(s.clock, Intended)))));
    s1.(effects := s1.effects + [StopController(s1.clock)], clock := s1.clock + env.stopLatency)
  }

  function SendStop(s: Exec, env: Env): Exec {
    var s1 := CommandStop(s, env);
    if env.stopOk then
      Write(s1.(j := SetDisposition(s1.j, Sent), stopRetries := 0))
    else
      var j := SetDisposition(s1.j, Uncertain).(uncertainCount := s1.j.uncertainCount + 1);
      RetryStopLater(Write(s1.(j := j)))
  }

  // ---------------------------------------------------------------------
  // Step results

  function EndResult(r: StepResult, status: StepStatus, reason: Reason, now: Instant): StepResult {
    var end := if r.actualEnd.None? && status != Skipped then Some(now) else r.actualEnd;
    r.(status := status, reason := Some(reason), actualEnd := end)
  }

  function EndStepIn(j: Journal, index: nat, status: StepStatus, reason: Reason, now: Instant): Journal {
    if index >= |j.results| then j
    else j.(results := j.results[index := EndResult(j.results[index], status, reason, now)])
  }

  function EndStep(s: Exec, index: nat, status: StepStatus, reason: Reason): Exec {
    s.(j := EndStepIn(s.j, index, status, reason, s.clock))
  }

  function SkipResult(r: StepResult, reason: Reason, now: Instant): StepResult {
    match r.status
    case Running => r.(status := ExternalStop, actualEnd := Some(now), reason := Some(reason))
    case Pending => r.(status := Skipped, reason := Some(reason))
    case _ => r
  }

  function SkipAll(results: seq<StepResult>, reason: Reason, now: Instant): (r: seq<StepResult>)
    ensures |r| == |results|
    ensures forall k :: 0 <= k < |r| ==> r[k] == SkipResult(results[k], reason, now)
  {
    seq(|results|, k requires 0 <= k < |results| => SkipResult(results[k], reason, now))
  }

  function SkipRemaining(s: Exec, reason: Reason): Exec {
    s.(j := s.j.(results := SkipAll(s.j.results, reason, s.clock)))
  }

  predicate AnyCompleted(results: seq<StepResult>) {
    exists k :: 0 <= k < |results| && results[k].status == Completed
  }

  predicate AllCompleted(results: seq<StepResult>) {
    forall k :: 0 <= k < |results| ==> results[k].status == Completed
  }

  /** Has any watering happened, or started, this run? */
  predicate RunHasBegun(results: seq<StepResult>) {
    exists k :: 0 <= k < |results| && (results[k].status != Pending || results[k].actualStart.Some?)
  }

  /** Position of the first PENDING result at or after `from`; `|results|` if none. */
  function NextPending(results: seq<StepResult>, from: nat := 0): (k: nat)
    requires from <= |results|
    ensures from <= k <= |results|
    ensures k < |results| ==> results[k].status == Pending
    ensures forall i :: from <= i < k ==> results[i].status != Pending
    decreases |results| - from
  {
    if from == |results| || results[from].status == Pending then from
    else NextPending(results, from + 1)
  }

  /** Active zones that are not explained by one of our own finished steps. */
  function ExternalZones(j: Journal, o: Observation, upcoming: nat): set<ZoneId>
    requires j.plan.Some? && |j.results| == |j.plan.value.steps|
  {
    var steps := j.plan.value.steps;
    set z | z in o.active &&
      !exists k :: 0 <= k < upcoming && k < |steps| && steps[k].zone == z &&
                   j.results[k].actualEnd.Some? && o.ZoneReportedAt(z) <= j.results[k].actualEnd.value
  }

  function FirstPlanned(steps: seq<RunStep>, anchor: Instant): (first: Instant)
    ensures |steps| == 0 ==> first == anchor
    ensures |steps| > 0 ==> exists k :: 0 <= k < |steps| && first == steps[k].plannedStart
    ensures forall k :: 0 <= k < |steps| ==> first <= steps[k].plannedStart
  {
    if |steps| == 0 then anchor
    else if |steps| == 1 then steps[0].plannedStart
    else Min(steps[0].plannedStart, FirstPlanned(steps[1..], anchor))
  }

  function LatestPermissibleStart(plan: RunPlan, config: Config): Instant {
    Max(plan.requestedStart, FirstPlanned(plan.steps, plan.requestedStart))
      + 60 * config.missedRunToleranceMinutes
  }

  // ---------------------------------------------------------------------
  // Run completion

  function FinishRun(s: Exec, outcome: RunOutcome, reason: Option<Reason>): Exec {
    var s1 := CancelTimer(s).(context := NoContext);
    var s2 :=
      if s1.j.plan.Some? then
        var w := Write(s1.(j := s1.j.(completed :=
          Dedup.Record(s1.j.completed, s1.j.plan.value.occurrence, s1.clock))));
        w.(effects := w.effects + [RunFinished(w.j.plan.value, outcome, reason, w.j.results)])
      else s1;
    Write(s2.(j := s2.j.(
      state := Idle, plan := None, activeOccurrence := None, pending := None,
      index := 0, results := [], actualStart := None, expectedEnd := None,
      stopRequested := false, pausedReason := None, pausedAt := None)))
  }

  // ---------------------------------------------------------------------
  // Step lifecycle

  function RainPolicyOf(env: Env): RainPolicy {
    if env.program.Some? then env.program.value.rain else env.config.defaultRainPolicy
  }

  function FreezePolicyOf(env: Env): FreezePolicy {
    if env.program.Some? then env.program.value.freeze else env.config.defaultFreezePolicy
  }

  predicate FreezeBlocks(env: Env, o: Observation) {
    var guard := env.config.freezeGuard;
    guard.enabled && FreezePolicyOf(env).skipWhenFreezing &&
    var active := FreezeActive(guard, o);
    active == Some(true) || (active.None? && guard.whenUnavailable == BlockWatering)
  }

  datatype Block = NoBlock | BlockDelay | BlockWet | BlockFreeze | BlockExternal

  /** The first check that stands in the way of starting step `index`. */
  function PreStepBlock(j: Journal, env: Env, index: nat): Block
    requires j.plan.Some? && |j.results| == |j.plan.value.steps|
  {
    if j.lastObservation.None? then NoBlock else
    var o := j.lastObservation.value;
    var rain := RainPolicyOf(env);
    if rain.honorNativeDelay && o.rainDelayDays.Some? && o.rainDelayDays.value > 0 then BlockDelay
    else if rain.skipWhenSensorWet && o.Wet() then BlockWet
    else if FreezeBlocks(env, o) then BlockFreeze
    else if ExternalZones(j, o, index) != {} then BlockExternal
    else NoBlock
  }

  function SkipRunFor(s: Exec, reason: Reason, whenWatered: RunOutcome): Exec {
    var s1 := SkipRemaining(s, reason);
    FinishRun(s1, if AnyCompleted(s1.j.results) then whenWatered else RunSkipped, Some(reason))
  }

  function PauseExternal(s: Exec): Exec {
    Write(s.(j := s.j.(state := PausedExternal, pausedAt := Some(s.clock))))
  }

  function PauseWith(s: Exec, state: ExecutorState, why: Reason): Exec {
    Write(s.(j := s.j.(state := state, pausedReason := Some(why), pausedAt := Some(s.clock))))
  }

  /** Fail the current step, skip the rest, finish the run as failed. */
  function FailRun(s: Exec, stepReason: Reason, skipReason: Reason, runReason: Reason): Exec {
    var s1 := EndStep(s, s.j.index, StepFailed, stepReason);
    FinishRun(SkipRemaining(s1, skipReason), RunFailed, Some(runReason))
  }

  function BeginWatering(s: Exec, start: Instant, d: Disposition): Exec
    requires HasStep(s.j)
  {
    var r := s.j.results[s.j.index];
    var j := SetDisposition(s.j, d).(
      state := Watering,
      actualStart := Some(start),
      expectedEnd := Some(start + 60 * CurrentStep(s.j).duration),
      results := s.j.results[s.j.index := r.(status := Running, actualStart := Some(start))]);
    Write(s.(j := j))
  }

  function StartStep(s: Exec, env: Env): Exec
    requires HasStep(s.j)
  {
    match PreStepBlock(s.j, env, s.j.index)
    case BlockDelay => SkipRunFor(s, RainDelay, CompletedWithSkips)
    case BlockWet => SkipRunFor(s, RainSensorWet, AbortedSensor)
    case BlockFreeze => SkipRunFor(s, LowTemperature, AbortedSensor)
    case BlockExternal => PauseExternal(s)
    case NoBlock =>
      var step := CurrentStep(s.j);
      if step.zone !in env.resolvable then FailRun(s, SourceUnavailable, SourceUnavailable, ZoneUnresolved)
      else SendStart(s, env)
  }

  /** The attempt is journaled before the driver is asked. */
  function Commanded(s: Exec, env: Env): Exec
    requires HasStep(s.j)
  {
    var r := s.j.results[s.j.index];
    var s1 := Write(s.(j := s.j.(
      state := Starting,
      pending := Some(StartCommand(s.clock, Intended, CurrentStep(s.j).zone, r.attempts + 1)),
      results := s.j.results[s.j.index := r.(attempts := r.attempts + 1)])));
    s1.(effects := s1.effects + [StartZone(s1.j.index, s1.clock, env.start)],
        clock := s1.clock + env.startLatency)
  }

  function SendStart(s: Exec, env: Env): Exec
    requires HasStep(s.j)
  {
    var s1 := Commanded(s, env);
    match env.start
    case StartRejected =>
      FailRun(s1.(j := SetDisposition(s1.j, CommandRejected)), Rejected, SourceUnavailable, Rejected)
    case StartUncertain => ReconcileUncertainStart(s1, env)
    case StartOk =>
      var s2 := BeginWatering(s1, s1.clock, Sent);
      ArmAt(s2, s2.j.expectedEnd.value, OnExpectedEnd)
  }

  function ReconcileUncertainStart(s: Exec, env: Env): Exec {
    var j := SetDisposition(s.j, Uncertain).(
      uncertainCount := s.j.uncertainCount + 1, state := Reconciling);
    ArmIn(Write(s.(j := j, context := StartContext)),
          env.config.startObservationTimeout, ClassifyUncertain)
  }

  /** Start the next pending step, or finish the run. */
  function Advance(s: Exec, env: Env): Exec
    requires s.j.plan.Some? && |s.j.results| == |s.j.plan.value.steps|
  {
    var next := NextPending(s.j.results);
    if next == |s.j.results| then
      if AllCompleted(s.j.results) then FinishRun(s, RunCompleted, None)
      else FinishRun(s, CompletedWithSkips, Some(SomeStepsSkipped))
    else StartStep(s.(j := s.j.(index := next)), env)
  }

  /** When `_on_gap` is due: the gap end, or the compiled start of a soaked cycle. */
  function GapTarget(s: Exec, env: Env): Instant
    requires s.j.plan.Some? && |s.j.results| == |s.j.plan.value.steps|
  {
    var target := s.clock + env.config.interZoneGap;
    var next := NextPending(s.j.results);
    if next < |s.j.results| && s.j.plan.value.steps[next].soakBefore
    then Max(target, s.j.plan.value.steps[next].plannedStart)
    else target
  }

  function ArmGapToNextStart(s: Exec, env: Env): Exec
    requires s.j.plan.Some? && |s.j.results| == |s.j.plan.value.steps|
  {
    ArmAt(s, GapTarget(s, env), OnGap)
  }

  function CompleteStep(s: Exec, env: Env, end: Instant): Exec
    requires HasStep(s.j)
  {
    var r := s.j.results[s.j.index];
    var j := s.j.(
      results := s.j.results[s.j.index := r.(status := Completed, actualEnd := Some(end))],
      state := InterZoneGap, pending := None, expectedEnd := None);
    ArmGapToNextStart(Write(s.(j := j, context := NoContext)), env)
  }

  /** The expected end, or now when the journal does not hold one. */
  function EndOrNow(s: Exec): Instant {
    if s.j.expectedEnd.Some? then s.j.expectedEnd.value else s.clock
  }

  /** Is the current zone reported on by a report at or after its expected end? */
  predicate OnPastEnd(j: Journal)
    requires HasStep(j)
  {
    var z := CurrentStep(j).zone;
    j.expectedEnd.Some? && j.lastObservation.Some? &&
    z in j.lastObservation.value.active &&
    j.lastObservation.value.ZoneReportedAt(z) >= j.expectedEnd.value
  }

  function HandleExpectedEnd(s: Exec, env: Env): Exec
    requires HasStep(s.j)
  {
    if s.j.state != Watering then s
    else if OnPastEnd(s.j) then EnterOverrunReconcile(s, env)
    else CompleteStep(s, env, EndOrNow(s))
  }

  function HandleGap(s: Exec, env: Env): Exec
    requires HasStep(s.j)
  {
    if s.j.state != InterZoneGap then s else Advance(s, env)
  }

  // ---------------------------------------------------------------------
  // Overrun and early end

  function EnterOverrunReconcile(s: Exec, env: Env): Exec {
    ArmIn(Write(s.(j := s.j.(state := Reconciling), context := OverrunContext, overrunAttempts := 0)),
          env.config.overrunConfirmation, ConfirmOverrun)
  }

  function HandleConfirmOverrun(s: Exec, env: Env): Exec
    requires HasStep(s.j)
  {
    if s.j.state != Reconciling || s.context != OverrunContext then s else
    var s1 := Observe(s, env);
    if !OnPastEnd(s1.j) then CompleteStep(s1, env, EndOrNow(s1))
    else if s1.overrunAttempts == 0 then
      ArmIn(s1.(overrunAttempts := 1), env.config.overrunConfirmation, ConfirmOverrun)
    else StopOverrun(s1, env)
  }

  function StopOverrun(s: Exec, env: Env): Exec {
    var s1 := SendStop(s, env);
    var s2 := EndStep(s1, s1.j.index, OverrunStopped, ControllerOverrun);
    FinishRun(SkipRemaining(s2, ExternalActivity), RunFailed, Some(ControllerOverrun))
  }

  function EnterEarlyEndReconcile(s: Exec, env: Env): Exec {
    ArmIn(Write(s.(j := s.j.(state := Reconciling), context := EarlyEndContext)),
          env.config.overrunConfirmation, ConfirmEarlyEnd)
  }

  function ResumeWatering(s: Exec): Exec {
    var j := s.j.(state := Watering);
    var j' := if j.pending.Some? && j.pending.value.disposition == Sent then SetDisposition(j, Accepted) else j;
    var s1 := s.(j := j', context := NoContext);
    if s1.j.expectedEnd.Some? then ArmAt(s1, s1.j.expectedEnd.value, OnExpectedEnd) else s1
  }

  function HandleConfirmEarlyEnd(s: Exec, env: Env): Exec
    requires HasStep(s.j)
  {
    if s.j.state != Reconciling || s.context != EarlyEndContext then s else
    var s1 := Observe(s, env);
    if s1.j.lastObservation.None? || CurrentStep(s1.j).zone in s1.j.lastObservation.value.active
    then Write(ResumeWatering(s1))
    else ClassifyEarlyEnd(s1.(context := NoContext), env, s1.j.lastObservation.value)
  }

  function ClassifyEarlyEnd(s: Exec, env: Env, o: Observation): Exec
    requires HasStep(s.j)
  {
    var s1 := CancelTimer(s);
    if s1.j.stopRequested then s1
    else if o.Wet() then
      var s2 := EndStep(s1, s1.j.index, SensorCut, RainSensorWet);
      if RainPolicyOf(env).sensorCutBehavior == PauseUntilDry then
        Write(s2.(j := s2.j.(state := PausedSensor, pausedAt := Some(s2.clock))))
      else
        FinishRun(SkipRemaining(s2, RainSensorWet), AbortedSensor, Some(RainSensorWet))
    else if !o.sourceAvailable then
      FinishRun(SkipRemaining(EndStep(s1, s1.j.index, ExternalStop, PowerLoss), SourceUnavailable),
                AbortedPowerLoss, Some(PowerLoss))
    else
      FinishRun(SkipRemaining(EndStep(s1, s1.j.index, ExternalStop, StoppedOutside), ExternalActivity),
                AbortedExternal, Some(StoppedOutside))
  }

  // ---------------------------------------------------------------------
  // Uncertain commands

  function RetryDelay(attempts: nat): int {
    if attempts <= 1 then 2 else if attempts == 2 then 5 else if attempts == 3 then 10 else 20
  }

  /** The current step was accepted at `start`: run its clock, or complete it. */
  function AcceptAt(s: Exec, env: Env, start: Instant, now: Instant): Exec
    requires HasStep(s.j)
  {
    var s1 := BeginWatering(s, start, Accepted);
    if s1.j.expectedEnd.value <= now then CompleteStep(s1, env, s1.j.expectedEnd.value)
    else ArmAt(s1, s1.j.expectedEnd.value, OnExpectedEnd)
  }

  function CommandTime(s: Exec): Instant {
    if s.j.pending.Some? then s.j.pending.value.intendedAt else s.clock
  }

  function HandleClassifyUncertain(s: Exec, env: Env): Exec
    requires HasStep(s.j)
  {
    if s.j.state != Reconciling then s else
    var s1 := Observe(s, env);
    var o := s1.j.lastObservation;
    if o.Some? && CurrentStep(s1.j).zone in o.value.active then
      AcceptAt(s1, env, CommandTime(s1), s1.clock)
    else if o.Some? && ExternalZones(s1.j, o.value, s1.j.index) != {} then
      ExternalConflict(s1, env)
    else RetryOrFail(s1, env)
  }

  /** The start was not accepted: retry it after a delay, or give the run up. */
  function RetryOrFail(s: Exec, env: Env): Exec
    requires HasStep(s.j)
  {
    var s1 := s.(j := SetDisposition(s.j, CommandRejected));
    var attempts := s1.j.results[s1.j.index].attempts;
    if attempts < MAX_COMMAND_ATTEMPTS && s1.clock <= LatestPermissibleStart(s1.j.plan.value, env.config) then
      ArmIn(Write(s1.(j := s1.j.(retryCount := s1.j.retryCount + 1))), RetryDelay(attempts), RetryStep)
    else FailRun(s1, CommandFailed, CommandFailed, CommandFailed)
  }

  function HandleRetryStep(s: Exec, env: Env): Exec
    requires HasStep(s.j)
  {
    if s.j.state != Reconciling then s
    else StartStep(s.(j := s.j.(state := Waiting)), env)
  }

  predicate StopStillUncertain(j: Journal) {
    j.pending.Some? && j.pending.value.StopCommand? && j.pending.value.disposition == Uncertain
  }

  function HandleRetryUncertainStop(s: Exec, env: Env): Exec {
    if StopStillUncertain(s.j) then SendStop(s, env) else s
  }

  // ---------------------------------------------------------------------
  // Zone, sensor and weather events

  function ExternalConflict(s: Exec, env: Env): Exec
    requires HasStep(s.j)
  {
    var s1 := CancelTimer(s);
    var s2 := if CurrentStatus(s1.j) == Running
              then EndStep(s1, s1.j.index, ExternalStop, ExternalActivity) else s1;
    if env.program.Some? && env.program.value.interruption == Abort then
      FinishRun(SkipRemaining(s2, ExternalActivity), AbortedExternal, Some(ExternalActivity))
    else PauseExternal(s2)
  }

  function ZoneEventDuringRun(s: Exec, env: Env, zone: ZoneId, isOn: bool, o: Observation): Exec
    requires HasStep(s.j)
  {
    var mine := zone == CurrentStep(s.j).zone;
    if isOn && mine then OwnZoneOn(s, o)
    else if isOn then
      if zone in ExternalZones(s.j, o, s.j.index) then ExternalConflict(s, env) else s
    else if mine then OwnZoneOff(s, env, o)
    else s
  }

  /** The zone reported on: a sent or uncertain command was accepted. */
  function Acknowledge(s: Exec): Exec {
    var p := s.j.pending;
    if p.Some? && (p.value.disposition == Sent || p.value.disposition == Uncertain)
    then Write(s.(j := SetDisposition(s.j, Accepted))) else s
  }

  function OwnZoneOn(s: Exec, o: Observation): Exec
    requires HasStep(s.j)
  {
    var s1 := Acknowledge(s);
    if s1.j.state == Reconciling && s1.context == EarlyEndContext then Write(ResumeWatering(s1))
    else if s1.j.state == Starting || (s1.j.state == Reconciling && s1.context == StartContext) then
      var s2 := AcceptedNow(s1, o.observedAt);
      ArmAt(s2, s2.j.expectedEnd.value, OnExpectedEnd)
    else s1
  }

  /** Acceptance observed before the classification finished. */
  function AcceptedNow(s: Exec, start: Instant): Exec
    requires HasStep(s.j)
  {
    var r := s.j.results[s.j.index];
    Write(s.(j := s.j.(
      state := Watering,
      actualStart := Some(start),
      expectedEnd := Some(start + 60 * CurrentStep(s.j).duration),
      results := s.j.results[s.j.index := r.(status := Running, actualStart := Some(start))])))
  }

  function OwnZoneOff(s: Exec, env: Env, o: Observation): Exec
    requires HasStep(s.j)
  {
    if s.j.state != Watering || s.j.expectedEnd.None? then s
    else if o.observedAt >= s.j.expectedEnd.value - env.config.earlyEndTolerance then
      CompleteStep(CancelTimer(s), env, o.observedAt)
    else if o.Wet() || !o.sourceAvailable then ClassifyEarlyEnd(s, env, o)
    else EnterEarlyEndReconcile(s, env)
  }

  function ZoneEventDuringGap(s: Exec, env: Env, zone: ZoneId, isOn: bool, o: Observation): Exec
    requires HasStep(s.j)
  {
    var r := s.j.results[s.j.index];
    if !isOn then s
    else if zone != CurrentStep(s.j).zone then ExternalConflict(s, env)
    else if r.actualEnd.Some? && o.ZoneReportedAt(zone) > r.actualEnd.value then
      if o.ZoneReportedAt(zone) - r.actualEnd.value <= OBSERVATION_FRESHNESS_WINDOW_SECONDS then
        EnterOverrunReconcile(s.(j := s.j.(expectedEnd := r.actualEnd)), env)
      else ExternalConflict(s, env)
    else s
  }

  predicate SensorPauseCleared(j: Journal, env: Env, o: Observation) {
    var guard := env.config.freezeGuard;
    if j.pausedReason == Some(LowTemperature) then FreezeCleared(guard, o) && !o.Wet()
    else o.rainSensor == Some(false) && FreezeActive(guard, o) != Some(true)
  }

  function ResumeOrExpire(s: Exec, env: Env): Exec
    requires s.j.plan.Some? && |s.j.results| == |s.j.plan.value.steps|
  {
    var pausedAt := s.j.pausedAt;
    var s1 := s.(j := s.j.(pausedReason := None, pausedAt := None));
    var expired :=
      if RunHasBegun(s1.j.results)
      then pausedAt.Some? && s1.clock - pausedAt.value > 60 * env.config.missedRunToleranceMinutes
      else s1.clock > LatestPermissibleStart(s1.j.plan.value, env.config);
    if expired then SkipRunFor(s1, MissedTolerance, CompletedWithSkips)
    else Advance(Write(s1.(j := s1.j.(state := Waiting))), env)
  }

  function FreezeCut(s: Exec, env: Env): Exec
    requires HasStep(s.j)
  {
    var s1 := SendStop(CancelTimer(s), env);
    var s2 := EndStep(s1, s1.j.index, SensorCut, LowTemperature);
    if FreezePolicyOf(env).freezeCutBehavior == PauseUntilDry then
      PauseWith(s2, PausedSensor, LowTemperature)
    else
      FinishRun(SkipRemaining(s2, LowTemperature), AbortedSensor, Some(LowTemperature))
  }

  // ---------------------------------------------------------------------
  // Entry points

  /** Entry points other than a start presuppose a journal a run can be read from. */
  predicate Readable(j: Journal) { j.plan.Some? ==> HasStep(j) }

  datatype StartError = NoError | ControllerBusy | DuplicateOccurrence

  /** The plan claims the controller. */
  function Claim(s: Exec, plan: RunPlan): Exec {
    Write(s.(j := s.j.(
      state := Waiting, activeOccurrence := Some(plan.occurrence), plan := Some(plan), index := 0,
      results := seq(|plan.steps|, _ => FRESH_RESULT), pending := None,
      actualStart := None, expectedEnd := None, retryCount := 0, uncertainCount := 0,
      stopRequested := false, pausedReason := None, pausedAt := None)))
  }

  function StartRun(s: Exec, env: Env, plan: RunPlan): (Exec, StartError) {
    if IsActive(s.j) then (s, ControllerBusy)
    else if Dedup.Contains(s.j.completed, plan.occurrence) then (s, DuplicateOccurrence)
    else if |plan.steps| == 0 then (FinishRun(Claim(s, plan), RunSkipped, Some(NoExecutableSteps)), NoError)
    else (Advance(Claim(s, plan), env), NoError)
  }

  function EndForStop(s: Exec, reason: string): Exec
    requires HasStep(s.j)
  {
    match CurrentStatus(s.j)
    case Running => EndStep(s, s.j.index, ExternalStop, UserText(reason))
    case Pending => EndStep(s, s.j.index, Skipped, UserText(reason))
    case _ => s
  }

  /** The stop request is journaled before the command is sent. */
  function RequestStop(s: Exec): Exec {
    var hadRun := IsActive(s.j) && s.j.plan.Some?;
    Write(CancelTimer(s.(j := s.j.(stopRequested := true, state := if hadRun then Stopping else s.j.state))))
  }

  function StopRun(s: Exec, env: Env, reason: string): Exec
    requires Readable(s.j)
  {
    var s1 := SendStop(RequestStop(s), env);
    if IsActive(s.j) && s.j.plan.Some? then
      FinishRun(SkipRemaining(EndForStop(s1, reason), UserStop), AbortedUser, Some(UserText(reason)))
    else Write(s1.(j := s1.j.(stopRequested := false)))
  }

  /** Leaving a running step, or a start that may still have been accepted. */
  predicate NeedsStop(j: Journal)
    requires HasStep(j)
  {
    CurrentStatus(j) == Running || (j.state == Reconciling && CurrentStatus(j) == Pending)
  }

  function LeaveStep(s: Exec, env: Env): Exec
    requires HasStep(s.j)
  {
    var s1 := CancelTimer(s);
    if NeedsStop(s1.j) then SendStop(s1, env) else s1
  }

  function PauseRun(s: Exec, env: Env, reason: string): Exec
    requires Readable(s.j)
  {
    if !IsActive(s.j) || s.j.plan.None? then s else
    var s1 := LeaveStep(s, env);
    var s2 := if CurrentStatus(s.j) == Running
              then EndStep(s1, s1.j.index, ExternalStop, UserText(reason)) else s1;
    PauseWith(s2, PausedExternal, UserText(reason))
  }

  function ResumeRun(s: Exec, env: Env): Exec
    requires Readable(s.j)
  {
    if !IsPaused(s.j) || s.j.plan.None? then s
    else ResumeOrExpire(s.(j := s.j.(pausedReason := None)), env)
  }

  function SkipCurrent(s: Exec, env: Env): Exec
    requires Readable(s.j)
  {
    if s.j.plan.None? || !IsActive(s.j) then s else
    var s1 := LeaveStep(s, env);
    var s2 := EndStep(s1, s1.j.index, Skipped, UserSkip);
    ArmIn(Write(s2.(j := s2.j.(state := InterZoneGap))), env.config.interZoneGap, OnGap)
  }

  function NoteObservation(s: Exec, o: Observation): Exec {
    s.(j := s.j.(lastObservation := Some(o)))
  }

  function HandleZoneState(s: Exec, env: Env, zone: ZoneId, isOn: bool, o: Observation): Exec
    requires Readable(s.j)
  {
    var s1 := NoteObservation(s, o);
    if s1.j.plan.None? then s1
    else if s1.j.state in {Watering, Starting, Reconciling} then ZoneEventDuringRun(s1, env, zone, isOn, o)
    else if s1.j.state == InterZoneGap then ZoneEventDuringGap(s1, env, zone, isOn, o)
    else if (s1.j.state == PausedExternal && o.active == {} && s1.j.pausedReason.None?) ||
            (s1.j.state == PausedSensor && SensorPauseCleared(s1.j, env, o)) then ResumeOrExpire(s1, env)
    else s1
  }

  function HandleSensorState(s: Exec, env: Env, o: Observation): Exec
    requires Readable(s.j)
  {
    var s1 := NoteObservation(s, o);
    if s1.j.state == PausedSensor && s1.j.plan.Some? && SensorPauseCleared(s1.j, env, o)
    then ResumeOrExpire(s1, env) else s1
  }

  function HandleWeatherState(s: Exec, env: Env, o: Observation): Exec
    requires Readable(s.j)
  {
    var s1 := NoteObservation(s, o);
    var guard := env.config.freezeGuard;
    if s1.j.plan.None? then s1
    else if s1.j.state == Watering then
      if guard.enabled && FreezePolicyOf(env).skipWhenFreezing && FreezeActive(guard, o) == Some(true)
      then FreezeCut(s1, env) else s1
    else if s1.j.state == PausedSensor && SensorPauseCleared(s1.j, env, o) then ResumeOrExpire(s1, env)
    else s1
  }

  function Dispatch(s: Exec, env: Env, handler: Handler): Exec
    requires Readable(s.j)
  {
    if s.j.plan.None? then (if handler == RetryUncertainStop then HandleRetryUncertainStop(s, env) else s) else
    match handler
    case OnExpectedEnd => HandleExpectedEnd(s, env)
    case OnGap => HandleGap(s, env)
    case ConfirmOverrun => HandleConfirmOverrun(s, env)
    case ConfirmEarlyEnd => HandleConfirmEarlyEnd(s, env)
    case ClassifyUncertain => HandleClassifyUncertain(s, env)
    case RetryStep => HandleRetryStep(s, env)
    case RetryUncertainStop => HandleRetryUncertainStop(s, env)
  }

  /** A callback fires: stale generations are ignored. */
  function Fire(s: Exec, env: Env, t: Timer): Exec
    requires Readable(s.j)
  {
    var s1 := s.(issued := s.issued - {t});
    if t.generation != s1.generation then s1
    else Dispatch(s1.(timer := None), env, t.handler)
  }

  // ---------------------------------------------------------------------
  // Restart recovery

  /** Everything volatile is lost; a journal snapshot and the world's record survive. */
  function Reboot(s: Exec, j: Journal): Exec {
    s.(j := j, timer := None, generation := 0, issued := {}, context := NoContext,
       overrunAttempts := 0, stopRetries := 0)
  }

  function CompleteOrExpire(s: Exec, env: Env, end: Instant): Exec
    requires HasStep(s.j)
  {
    if s.clock - end <= 60 * env.config.missedRunToleranceMinutes then CompleteStep(s, env, end)
    else
      var s1 := EndStep(s, s.j.index, Completed, RestartMissedTolerance);
      FinishRun(SkipRemaining(s1, RestartMissedTolerance), CompletedWithSkips, Some(RestartMissedTolerance))
  }

  function RecoverWatering(s: Exec, env: Env, zoneActive: bool): Exec
    requires HasStep(s.j)
  {
    var end := EndOrNow(s);
    if end > s.clock then ArmAt(s, end, OnExpectedEnd)
    else if zoneActive then CompleteStep(s, env, end)
    else CompleteOrExpire(s, env, end)
  }

  /** An end-context reconcile: the step already ran, so its start is never sent again. */
  function RecoverEndReconcile(s: Exec, env: Env, o: Option<Observation>, zoneActive: bool): Exec
    requires HasStep(s.j)
  {
    var end := EndOrNow(s);
    if o.None? then
      if end <= s.clock then EnterOverrunReconcile(s, env) else EnterEarlyEndReconcile(s, env)
    else if zoneActive then
      if end <= s.clock then EnterOverrunReconcile(s, env) else Write(ResumeWatering(s))
    else if end <= s.clock then CompleteOrExpire(s, env, end)
    else ClassifyEarlyEnd(s, env, o.value)
  }

  function RecoverStart(s: Exec, env: Env, zoneActive: bool): Exec
    requires HasStep(s.j)
  {
    if zoneActive then AcceptAt(s, env, CommandTime(s), s.clock)
    else if s.clock <= LatestPermissibleStart(s.j.plan.value, env.config) then
      StartStep(Write(s.(j := s.j.(state := Waiting))), env)
    else SkipRunFor(s, RestartMissedTolerance, CompletedWithSkips)
  }

  predicate EndContext(j: Journal)
    requires HasStep(j)
  {
    j.state == Reconciling && CurrentStatus(j) == Running && j.results[j.index].actualStart.Some?
  }

  /** Zones the recovery observation shows on that are neither ours nor explained. */
  function ForeignZones(j: Journal, o: Option<Observation>): set<ZoneId>
    requires HasStep(j)
  {
    if o.Some? then ExternalZones(j, o.value, j.index) - {CurrentStep(j).zone} else {}
  }

  function RecoverLocked(s: Exec, env: Env, o: Option<Observation>): Exec
    requires s.j.plan.Some? && |s.j.results| == |s.j.plan.value.steps|
  {
    if s.j.index >= |s.j.plan.value.steps| then FinishRun(s, CompletedWithSkips, Some(RecoveredPastEnd)) else
    var zoneActive := o.Some? && CurrentStep(s.j).zone in o.value.active;
    if s.j.state == Stopping || s.j.stopRequested then
      FinishRun(SkipRemaining(s, UserStop), AbortedUser, Some(UserStop))
    else if ForeignZones(s.j, o) != {} then
      Write(s.(j := s.j.(state := PausedExternal,
        pausedAt := if s.j.pausedAt.None? then Some(s.clock) else s.j.pausedAt)))
    else if IsPaused(s.j) then Write(s)
    else if s.j.state == Watering then RecoverWatering(s, env, zoneActive)
    else if EndContext(s.j) then RecoverEndReconcile(s, env, o, zoneActive)
    else if s.j.state in {Starting, Reconciling, Waiting} then RecoverStart(s, env, zoneActive)
    else if s.j.state == InterZoneGap then ArmGapToNextStart(s, env)
    else s
  }

  /** The journal's shape: one result per step of its plan. */
  predicate Shaped(j: Journal) { j.plan.Some? ==> |j.results| == |j.plan.value.steps| }

  function Recover(s: Exec, env: Env): Exec
    requires Shaped(s.j)
  {
    if !IsActive(s.j) || s.j.plan.None? then s
    else RecoverLocked(Observe(s, env), env, env.read)
  }
}
