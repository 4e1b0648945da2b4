/** Whole executions: any interleaving of user calls, events, callbacks and crashes. */
module ExecutorRuns {
  import opened Domain
  import opened ExecutorSpec
  import opened ExecutorInvariant
  import opened ExecutorRecovery
  import Dedup

  datatype Event =
    | StartRunEvent(plan: RunPlan)
    | StopEvent(reason: string)
    | PauseEvent(reason: string)
    | ResumeEvent
    | SkipEvent
    | ZoneEvent(zone: ZoneId, isOn: bool, seen: Observation)
    | SensorEvent(seen: Observation)
    | WeatherEvent(seen: Observation)
    | NoteEvent(seen: Observation)
    | FireEvent(timer: Timer)
    /** A crash right after the k-th journal write, then recovery. */
    | RestartEvent(write: nat)

  /** One atomic step. The guards never bite: see `RestReadable`. */
  function Step(s: Exec, event: Event, env: Env): Exec {
    var s1 := s.(clock := env.now);
    if event.RestartEvent? then
      if event.write < |s1.written| && Shaped(s1.written[event.write])
      then Recover(Reboot(s1, s1.written[event.write]), env) else s1
    else if !Readable(s1.j) then s1 else
    match event
    case StartRunEvent(plan) => StartRun(s1, env, plan).0
    case StopEvent(reason) => StopRun(s1, env, reason)
    case PauseEvent(reason) => PauseRun(s1, env, reason)
    case ResumeEvent => ResumeRun(s1, env)
    case SkipEvent => SkipCurrent(s1, env)
    case ZoneEvent(zone, isOn, seen) => HandleZoneState(s1, env, zone, isOn, seen)
    case SensorEvent(seen) => HandleSensorState(s1, env, seen)
    case WeatherEvent(seen) => HandleWeatherState(s1, env, seen)
    case NoteEvent(seen) => NoteObservation(s1, seen)
    case FireEvent(timer) => if timer in s1.issued then Fire(s1, env, timer) else s1
  }

  /** The journal that a lock hold starts out from. */
  function JournalOf(s: Exec, event: Event): Journal {
    if event.RestartEvent? && event.write < |s.written| then s.written[event.write] else s.j
  }

  function PlanOf(s: Exec, event: Event): Option<RunPlan> {
    if event.StartRunEvent? then Some(event.plan) else JournalOf(s, event).plan
  }

  type Trace = seq<(Event, Env)>

  function Run(s: Exec, trace: Trace): Exec
    decreases |trace|
  {
    if trace == [] then s else Run(Step(s, trace[0].0, trace[0].1), trace[1..])
  }

  const INITIAL := Exec(EMPTY_JOURNAL, None, 0, {}, NoContext, 0, 0, 0, [], [])

  /** What an event must not do for the history to keep its strength. */
  predicate Admissible(h: History, s: Exec, event: Event, env: Env) {
    match h
    case Any => true
    case CrashFree =>
      event.RestartEvent? && event.write < |s.written| && s.written[event.write].plan.Some? ==>
        var j := s.written[event.write];
        Resumable(j) && !PausesOverRunning(j, env.read)
    case Unpaused =>
      event.RestartEvent? && event.write < |s.written| ==> !LeavesRunning(s.written[event.write], env.read)
    case Unskipped(tolerance) =>
      && Within(h, env)
      && (event.SkipEvent? && IsActive(s.j) && HasStep(s.j) ==> !CutShort(s.j, tolerance))
      && (event.RestartEvent? && event.write < |s.written| ==>
            !RecoveryTrustsShortEnd(s.(clock := env.now), s.written[event.write], env, tolerance))
  }

  predicate AdmissibleTrace(h: History, s: Exec, trace: Trace)
    decreases |trace|
  {
    trace == [] ||
    (Admissible(h, s, trace[0].0, trace[0].1) &&
     AdmissibleTrace(h, Step(s, trace[0].0, trace[0].1), trace[1..]))
  }

  lemma RestReadable(h: History, s: Exec)
    requires Rest(h, s)
    ensures Readable(s.j)
    ensures forall k :: 0 <= k < |s.written| ==> Shaped(s.written[k])
    ensures s.j.state != Idle ==> IsActive(s.j)
  {}

  lemma ClockRest(h: History, s: Exec, now: Instant)
    requires Rest(h, s)
    ensures Rest(h, s.(clock := now))
  {
    hide Writable, FinishedOk, CleanJournal, Recorded, WateredAll;
  }

  /** A stop finds a journal it can read, and keeps the invariant. */
  lemma StopReady(s: Exec, env: Env, reason: string)
    requires Rest(Any, s)
    ensures Readable(s.j) && Rest(Any, StopRun(s.(clock := env.now), env, reason))
    ensures s.j.plan.Some? ==> HasStep(SendStop(RequestStop(s.(clock := env.now)), env).j)
  {
    RestReadable(Any, s);
    ClockRest(Any, s, env.now);
    hide Rest, SendStop, RequestStop, StopRun;
    StopRunRest(Any, s.(clock := env.now), env, reason);
    StoppedHasStep(s.(clock := env.now), env);
  }

  lemma SkipReady(s: Exec, env: Env)
    requires Rest(Any, s)
    ensures Readable(s.j) && Rest(Any, SkipCurrent(s.(clock := env.now), env))
  {
    RestReadable(Any, s);
    ClockRest(Any, s, env.now);
    hide Rest, SkipCurrent;
    SkipCurrentRest(Any, s.(clock := env.now), env);
  }

  lemma RestartRest(h: History, s: Exec, k: nat, env: Env)
    requires Rest(h, s) && k < |s.written| && s.clock == env.now
    requires Admissible(h, s, RestartEvent(k), env)
    ensures Rest(h, Recover(Reboot(s, s.written[k]), env))
  {
    var j := s.written[k];
    assert Log(h, s) && Writable(h, j) && Stored(j);
    assert h.CrashFree? ==> PersistOk(j);
    assert s.(clock := env.now) == s;
    hide Rest, Log, Recover, Reboot, Writable, RecoveryTrustsShortEnd, PausesOverRunning;
    if j.plan.None? {
      IdleRebootRest(h, s, j, env);
    } else {
      match h
      case Any => RecoverNeverWedges(s, j, env);
      case CrashFree => RecoverRestoresStatuses(s, j, env);
      case Unpaused => RecoverKeepsAttended(s, j, env);
      case Unskipped(tolerance) => RecoverKeepsWatered(s, j, env, tolerance);
    }
  }

  lemma IdleRebootRest(h: History, s: Exec, j: Journal, env: Env)
    requires Log(h, s) && Stored(j) && j.plan.None?
    ensures Rest(h, Recover(Reboot(s, j), env))
  {
    hide Writable, FinishedOk;
  }

  lemma StepRest(h: History, s: Exec, event: Event, env: Env)
    requires Rest(h, s) && Admissible(h, s, event, env)
    ensures Rest(h, Step(s, event, env))
  {
    var s1 := s.(clock := env.now);
    RestReadable(h, s);
    ClockRest(h, s, env.now);
    if event.RestartEvent? {
      if event.write < |s1.written| {
        assert Admissible(h, s1, event, env);
        hide Rest, Recover, Reboot;
        RestartRest(h, s1, event.write, env);
      }
    } else {
      LiveStepRest(h, s1, event, env);
    }
  }

  lemma LiveStepRest(h: History, s: Exec, event: Event, env: Env)
    requires Rest(h, s) && Readable(s.j) && !event.RestartEvent? && s.clock == env.now
    requires Admissible(h, s, event, env)
    ensures Rest(h, Step(s, event, env))
  {
    RestReadable(h, s);
    assert s.(clock := env.now) == s;
    hide Rest, StartRun, StopRun, PauseRun, ResumeRun, SkipCurrent, HandleZoneState, HandleSensorState,
      HandleWeatherState, NoteObservation, Fire, CutShort, Recover, Reboot;
    match event {
      case StartRunEvent(plan) => StartRunRest(h, s, env, plan);
      case StopEvent(reason) => StopRunRest(h, s, env, reason);
      case PauseEvent(reason) => PauseRunRest(h, s, env, reason);
      case ResumeEvent => ResumeRunRest(h, s, env);
      case SkipEvent =>
        assert s.j.state != Idle ==> HasStep(s.j) by { ActiveHasStep(h, s); }
        SkipCurrentRest(h, s, env);
      case ZoneEvent(zone, isOn, seen) => ZoneStateRest(h, s, env, zone, isOn, seen) by { assert Within(h, env); }
      case SensorEvent(seen) => SensorStateRest(h, s, env, seen);
      case WeatherEvent(seen) => WeatherStateRest(h, s, env, seen);
      case NoteEvent(seen) => NoteRest(h, s, seen);
      case FireEvent(timer) => if timer in s.issued { FireRest(h, s, env, timer); }
    }
  }

  lemma ActiveHasStep(h: History, s: Exec)
    requires Rest(h, s)
    ensures s.j.state != Idle ==> HasStep(s.j)
  {}

  lemma {:induction false} RunRest(h: History, s: Exec, trace: Trace)
    requires Rest(h, s) && AdmissibleTrace(h, s, trace)
    ensures Rest(h, Run(s, trace))
    decreases |trace|
  {
    hide Rest, Step, Admissible;
    if trace != [] {
      StepRest(h, s, trace[0].0, trace[0].1);
      RunRest(h, Step(s, trace[0].0, trace[0].1), trace[1..]);
    }
  }

  lemma {:induction false} EverythingIsAdmissible(s: Exec, trace: Trace)
    ensures AdmissibleTrace(Any, s, trace)
    decreases |trace|
  {
    hide Step;
    if trace != [] {
      EverythingIsAdmissible(Step(s, trace[0].0, trace[0].1), trace[1..]);
    }
  }

  // ---------------------------------------------------------------------
  // Main results

  /** The callback that the state waits for is armed, and it is the only live one. */
  ghost predicate OneLiveCallback(s: Exec, handlers: set<Handler>) {
    && s.timer.Some? && s.timer.value.handler in handlers
    && (forall t :: t in s.issued && t.generation == s.generation <==> t == s.timer.value)
  }

  /** No wedge, in any execution, with crashes after any journal write. */
  lemma {:induction false} NoWedge(trace: Trace)
    ensures var s := Run(INITIAL, trace);
      match s.j.state
      case Idle => s.timer.None?
      case PausedExternal => Quiet(s)
      case PausedSensor => Quiet(s)
      case Watering => OneLiveCallback(s, {OnExpectedEnd}) && s.j.expectedEnd == Some(s.timer.value.when)
      case InterZoneGap => OneLiveCallback(s, {OnGap})
      case Reconciling =>
        (match s.context
         case StartContext => OneLiveCallback(s, {ClassifyUncertain, RetryStep})
         case OverrunContext => OneLiveCallback(s, {ConfirmOverrun})
         case EarlyEndContext => OneLiveCallback(s, {ConfirmEarlyEnd})
         case NoContext => false)
      case _ => false
  {
    EverythingIsAdmissible(INITIAL, trace);
    InitialRest(Any);
    RunRest(Any, INITIAL, trace);
    hide Run, Writable, CleanJournal, Recorded, WateredAll, FinishedOk;
    LiveCallback(Any, Run(INITIAL, trace));
  }

  lemma InitialRest(h: History)
    ensures Rest(h, INITIAL)
  {}

  lemma LiveCallback(h: History, s: Exec)
    requires Rest(h, s)
    ensures s.timer.Some? ==> OneLiveCallback(s, {s.timer.value.handler})
  {}

  /** Step statuses in every execution whose crashes hit resumable journals: finished
      steps, then the current one, then untouched ones; RUNNING only while watering or
      reconciling, and then with its commanded clock. */
  lemma {:induction false} StatusesInOrder(trace: Trace)
    requires AdmissibleTrace(CrashFree, INITIAL, trace)
    ensures var s := Run(INITIAL, trace);
      s.j.state != Idle ==>
        && HasStep(s.j) && Ordered(s.j) && StatusMatches(s) && RunningClock(s.j)
        && (CurrentStatus(s.j) == Running ==> s.j.state in {Watering, Reconciling})
  {
    InitialRest(CrashFree);
    RunRest(CrashFree, INITIAL, trace);
    hide Run;
  }

  /** A finished run has settled every step, gives a reason for each that did not
      complete, and is called COMPLETED only when all of them completed. */
  lemma {:induction false} FinishedRunsAreSettled(trace: Trace, k: nat)
    requires AdmissibleTrace(CrashFree, INITIAL, trace)
    requires k < |Run(INITIAL, trace).effects| && Run(INITIAL, trace).effects[k].RunFinished?
    ensures var e := Run(INITIAL, trace).effects[k];
      && |e.results| == |e.plan.steps| && Settled(e.results) && Recorded(e.results)
      && (if e.outcome == RunCompleted then AllCompleted(e.results) else e.reason.Some?)
  {
    InitialRest(CrashFree);
    RunRest(CrashFree, INITIAL, trace);
    hide Run;
    assert FinishedOk(CrashFree, Run(INITIAL, trace).effects[k]);
  }

  /** Completed means watered, by recorded start and end, in every execution with crashes after
      any journal write, as long as no user skip hits a step whose recorded end is too early
      and no recovery relies on such an end. */
  lemma {:induction false} CompletedMeansWatered(trace: Trace, tolerance: nat)
    requires AdmissibleTrace(Unskipped(tolerance), INITIAL, trace)
    ensures var s := Run(INITIAL, trace);
      && (s.j.plan.Some? ==> WateredAll(s.j.plan.value.steps, s.j.results, tolerance))
      && (forall k :: 0 <= k < |s.effects| && s.effects[k].RunFinished? ==>
           WateredAll(s.effects[k].plan.steps, s.effects[k].results, tolerance))
  {
    InitialRest(Unskipped(tolerance));
    RunRest(Unskipped(tolerance), INITIAL, trace);
    hide Run, WateredAll;
  }

  /** A report that the zone is on, confirmed one second after `end`. */
  function LateEcho(zone: ZoneId, end: Instant): Observation {
    Observation(end + 1, {zone}, None, None, true, None, map[zone := end + 1])
  }

  const ALL_QUIET := Observation(0, {}, None, None, true, None, map[])

  lemma SkippedGap(s: Exec, env: Env, tolerance: nat)
    requires Rest(Any, s) && s.j.state != Idle && CutShort(s.j, tolerance)
    ensures var r := SkipCurrent(s, env);
      && Rest(Any, r) && r.j.state == InterZoneGap && r.j.index == s.j.index && r.j.plan == s.j.plan && HasStep(r.j)
      && r.j.results[r.j.index] == s.j.results[s.j.index].(status := Skipped, reason := Some(UserSkip))
  {
    SkipCurrentRest(Any, s, env);
    LeaveStepMid(Any, s, env);
    var s1 := LeaveStep(s, env);
    assert s1.j.plan == s.j.plan && s1.j.index == s.j.index by { LeaveStepKeepsPlan(s, env); }
    hide Rest, Mid, LeaveStep, Enough;
  }

  lemma LeaveStepKeepsPlan(s: Exec, env: Env)
    requires HasStep(s.j)
    ensures var r := LeaveStep(s, env); r.j.plan == s.j.plan && r.j.index == s.j.index
  {}

  /** What a user skip of a step with too early an end leads to: one late echo of its zone and
      the overrun check that follows, once it is due and if it reads the zone as off, call the
      step COMPLETED. */
  predicate EchoCompletesFalsely(s: Exec, echo: Env, check: Env, tolerance: nat)
    requires HasStep(s.j) && s.j.results[s.j.index].actualEnd.Some?
  {
    var zone := CurrentStep(s.j).zone;
    var seen := LateEcho(zone, s.j.results[s.j.index].actualEnd.value);
    var s2 := Step(s, ZoneEvent(zone, true, seen), echo);
    && s2.timer.Some?
    && (s2.timer.value.when <= check.now && check.read.Some? && zone !in check.read.value.active ==>
         var s3 := Step(s2, FireEvent(s2.timer.value), check);
         && HasStep(s3.j) && s3.j.index == s.j.index && CurrentStatus(s3.j) == Completed
         && !Enough(s3.j.results[s3.j.index], CurrentStep(s3.j), tolerance))
  }

  lemma GapOfShortEnd(s: Exec, echo: Env, check: Env, tolerance: nat)
    requires Rest(Any, s) && s.j.state == InterZoneGap && CutShort(s.j, tolerance)
    ensures EchoCompletesFalsely(s, echo, check, tolerance)
  {
    var zone := CurrentStep(s.j).zone;
    var end := s.j.results[s.j.index].actualEnd.value;
    EchoedGap(s, echo, end);
    var s2 := Step(s, ZoneEvent(zone, true, LateEcho(zone, end)), echo);
    hide Rest, Step;
    if check.read.Some? && zone !in check.read.value.active { FalselyCompleted(s2, check, end); }
  }

  /** A late echo in the gap makes the executor check whether the step overruns its end. */
  lemma EchoedGap(s: Exec, env: Env, end: Instant)
    requires Rest(Any, s) && s.j.state == InterZoneGap && HasStep(s.j) && s.j.results[s.j.index].actualEnd == Some(end)
    ensures var zone := CurrentStep(s.j).zone;
      var r := Step(s, ZoneEvent(zone, true, LateEcho(zone, end)), env);
      && r.j == s.j.(state := Reconciling, expectedEnd := Some(end), lastObservation := Some(LateEcho(zone, end)))
      && r.context == OverrunContext && Armed(r, ConfirmOverrun)
      && r.timer.value.generation == r.generation && r.timer.value in r.issued
  {
    hide Rest;
    assert Readable(s.j);
  }

  /** The condition on skips is exact: from every state in which the current step has an end
      that is too early, a user skip, one late echo of the zone and the overrun check that
      follows leave that step COMPLETED although it was not watered. */
  lemma SkipOfCutStepCompletesFalsely(s: Exec, skip: Env, echo: Env, check: Env, tolerance: nat)
    requires Rest(Any, s) && s.j.state != Idle && CutShort(s.j, tolerance)
    ensures var r := Step(s, SkipEvent, skip);
      HasStep(r.j) && r.j.results[r.j.index].actualEnd.Some? && EchoCompletesFalsely(r, echo, check, tolerance)
  {
    var s1 := s.(clock := skip.now);
    ClockRest(Any, s, skip.now);
    RestReadable(Any, s);
    assert Step(s, SkipEvent, skip) == SkipCurrent(s1, skip) by { hide Rest; }
    hide Rest, SkipCurrent, EchoCompletesFalsely, Step;
    SkippedGap(s1, skip, tolerance);
    GapOfShortEnd(SkipCurrent(s1, skip), echo, check, tolerance);
  }

  /** The condition on restarts is exact too: a recovery that relies on too early an end
      reports the step COMPLETED at once, or does so after a late echo and an overrun check. */
  lemma TrustedShortEndCompletesFalsely(
    s: Exec, j: Journal, env: Env, echo: Env, check: Env, tolerance: nat)
    requires Log(Any, s) && Stored(j) && RecoveryTrustsShortEnd(s, j, env, tolerance)
    ensures var r := Recover(Reboot(s, j), env);
      if j.state == InterZoneGap then
        HasStep(r.j) && r.j.results[r.j.index].actualEnd.Some? && EchoCompletesFalsely(r, echo, check, tolerance)
      else
        && |r.effects| == |s.effects| + 1
        && var e := r.effects[|s.effects|];
           && e.RunFinished? && Some(e.plan) == j.plan
           && |e.results| == |j.results| && j.index < |e.results| == |e.plan.steps|
           && e.results[j.index].status == Completed
           && !Enough(e.results[j.index], e.plan.steps[j.index], tolerance)
  {
    RecoverNeverWedges(s, j, env);
    var s1 := Observe(Reboot(s, j), env);
    hide Rest, Log, EchoCompletesFalsely, ForeignZones;
    if j.state == InterZoneGap {
      GapOfShortEnd(Recover(Reboot(s, j), env), echo, check, tolerance);
    } else {
      WrittenOffFalsely(s1, env, env.read, tolerance);
    }
  }

  lemma FalselyCompleted(s: Exec, env: Env, end: Instant)
    requires HasStep(s.j) && s.j.state == Reconciling && s.context == OverrunContext
    requires Armed(s, ConfirmOverrun) && s.timer.value.generation == s.generation && s.timer.value in s.issued
    requires s.j.expectedEnd == Some(end) && env.read.Some? && CurrentStep(s.j).zone !in env.read.value.active
    ensures var r := Step(s, FireEvent(s.timer.value), env);
      && HasStep(r.j) && r.j.index == s.j.index && CurrentStep(r.j) == CurrentStep(s.j)
      && r.j.results[r.j.index] == s.j.results[s.j.index].(status := Completed, actualEnd := Some(end))
  {
    hide GapTarget;
  }

  /** Such states are common: an early pause of a watering step is one. */
  lemma PauseCutsShort(s: Exec, env: Env, reason: string, tolerance: nat)
    requires Rest(CrashFree, s) && s.j.state == Watering
    requires s.clock + env.stopLatency < s.j.expectedEnd.value - tolerance
    ensures var r := PauseRun(s, env, reason);
      && Rest(CrashFree, r) && r.j.state == PausedExternal && HasStep(r.j) && CutShort(r.j, tolerance)
  {
    PauseRunRest(CrashFree, s, env, reason);
    var s1 := SendStop(CancelTimer(s), env);
    assert s1.j == s.j.(pending := s1.j.pending, uncertainCount := s1.j.uncertainCount)
      && s1.clock == s.clock + env.stopLatency;
    hide SendStop, Log, CleanJournal, Recorded, WateredAll;
    assert RunningClock(s.j) && s.j.results[s.j.index].actualEnd.None? by { RunningStep(s); }
  }

  lemma RunningStep(s: Exec)
    requires Rest(CrashFree, s) && s.j.state == Watering
    ensures RunningClock(s.j) && CurrentStatus(s.j) == Running && s.j.results[s.j.index].actualEnd.None?
  {
    assert Recorded(s.j.results);
  }

  /** A crash during the overrun check of a finished step leaves a journal from which
      recovery, finding the controller quiet, sends that step's start command again. */
  lemma CrashInOverrunCheckWatersAgain(s: Exec, env: Env, env2: Env)
    requires Rest(CrashFree, s) && s.j.state == InterZoneGap && s.j.results[s.j.index].actualEnd.Some?
    requires env2.read == Some(ALL_QUIET) && !FreezeBlocks(env2, ALL_QUIET)
    requires CurrentStep(s.j).zone in env2.resolvable
    requires s.clock + env2.readLatency <= LatestPermissibleStart(s.j.plan.value, env2.config)
    ensures
      var zone := CurrentStep(s.j).zone;
      var s1 := HandleZoneState(s, env, zone, true, LateEcho(zone, s.j.results[s.j.index].actualEnd.value));
      && |s1.written| == |s.written| + 1
      && var j := s1.written[|s.written|];
      && HasStep(j) && Terminal(CurrentStatus(j)) && j.index == s.j.index
      && RecoverySends(s1, j, env2)
  {
    var zone := CurrentStep(s.j).zone;
    var end := s.j.results[s.j.index].actualEnd;
    var s1 := HandleZoneState(s, env, zone, true, LateEcho(zone, end.value));
    var j := s.j.(lastObservation := Some(LateEcho(zone, end.value)), expectedEnd := end, state := Reconciling);
    hide Log, CleanJournal, Recorded, WateredAll;
    assert s1.written == s.written + [j] && s1.clock == s.clock;
    assert CurrentStep(j) == CurrentStep(s.j) && CurrentStatus(j) == CurrentStatus(s.j);
    hide Rest, HandleZoneState, LatestPermissibleStart, FreezeBlocks;
    QuietRecoverySends(s1, j, env2);
  }

  /** Recovery takes the current step for one that is still to be started. */
  predicate TakenForUnstarted(j: Journal) {
    HasStep(j) && j.state in {Reconciling, Waiting} && !EndContext(j) && !j.stopRequested
  }

  /** ... although it has ended. */
  predicate EndedButNotResumable(j: Journal) { TakenForUnstarted(j) && Terminal(CurrentStatus(j)) }

  lemma QuietRecoverySends(s: Exec, j: Journal, env: Env)
    requires TakenForUnstarted(j)
    requires env.read == Some(ALL_QUIET) && !FreezeBlocks(env, ALL_QUIET) && CurrentStep(j).zone in env.resolvable
    requires s.clock + env.readLatency <= LatestPermissibleStart(j.plan.value, env.config)
    ensures RecoverySends(s, j, env)
  {
    hide LatestPermissibleStart, FreezeBlocks;
    var s1 := Observe(Reboot(s, j), env);
    assert ForeignZones(s1.j, env.read) == {};
    assert ExternalZones(s1.j, ALL_QUIET, s1.j.index) == {};
  }

  lemma FinishExtends(s: Exec, outcome: RunOutcome, reason: Option<Reason>)
    ensures s.written <= FinishRun(s, outcome, reason).written
  {
    hide Dedup.Record;
  }

  lemma SendStartExtends(s: Exec, env: Env)
    requires HasStep(s.j)
    ensures s.written <= SendStart(s, env).written
  {
    var s1 := Commanded(s, env);
    assert s1.written == s.written + [s1.j];
    hide Commanded, FailRun;
    match env.start {
      case StartRejected =>
        FailExtends(s1.(j := SetDisposition(s1.j, CommandRejected)), Rejected, SourceUnavailable, Rejected);
      case StartUncertain =>
      case StartOk =>
    }
  }

  lemma StartStepExtends(s: Exec, env: Env)
    requires HasStep(s.j)
    ensures s.written <= StartStep(s, env).written
  {
    hide FailRun, PreStepBlock, SkipRunFor, SendStart;
    match PreStepBlock(s.j, env, s.j.index) {
      case BlockDelay => SkipExtends(s, RainDelay, CompletedWithSkips);
      case BlockWet => SkipExtends(s, RainSensorWet, AbortedSensor);
      case BlockFreeze => SkipExtends(s, LowTemperature, AbortedSensor);
      case BlockExternal =>
      case NoBlock =>
        FailExtends(s, SourceUnavailable, SourceUnavailable, ZoneUnresolved);
        SendStartExtends(s, env);
    }
  }

  lemma FailExtends(s: Exec, stepReason: Reason, skipReason: Reason, runReason: Reason)
    ensures s.written <= FailRun(s, stepReason, skipReason, runReason).written
  {
    FinishExtends(SkipRemaining(EndStep(s, s.j.index, StepFailed, stepReason), skipReason), RunFailed, Some(runReason));
    hide FinishRun, SkipAll;
  }

  lemma SkipExtends(s: Exec, reason: Reason, whenWatered: RunOutcome)
    ensures s.written <= SkipRunFor(s, reason, whenWatered).written
  {
    var s1 := SkipRemaining(s, reason);
    FinishExtends(s1, if AnyCompleted(s1.j.results) then whenWatered else RunSkipped, Some(reason));
    hide FinishRun, SkipAll, AnyCompleted;
  }

  lemma AdvanceExtends(s: Exec, env: Env)
    requires s.j.plan.Some? && Shaped(s.j)
    ensures s.written <= Advance(s, env).written
  {
    FinishExtends(s, RunCompleted, None);
    FinishExtends(s, CompletedWithSkips, Some(SomeStepsSkipped));
    hide FinishRun, StartStep, AllCompleted;
    var next := NextPending(s.j.results);
    if next < |s.j.results| { StartStepExtends(s.(j := s.j.(index := next)), env); }
  }

  /** Resuming a run whose current step has ended journals it as WAITING over that step: a
      crash before the next start command makes recovery start the ended step again. */
  lemma ResumeOverEndedStepWatersAgain(s: Exec, env: Env, env2: Env)
    requires Rest(CrashFree, s) && IsPaused(s.j) && Terminal(CurrentStatus(s.j))
    requires s.j.pausedAt.Some? ==> s.clock - s.j.pausedAt.value <= 60 * env.config.missedRunToleranceMinutes
    requires env2.read == Some(ALL_QUIET) && !FreezeBlocks(env2, ALL_QUIET)
    requires CurrentStep(s.j).zone in env2.resolvable
    ensures
      var s1 := ResumeRun(s, env);
      && |s1.written| > |s.written|
      && var j := s1.written[|s.written|];
      && EndedButNotResumable(j) && !Resumable(j) && j.index == s.j.index && j.plan == s.j.plan
      && (s1.clock + env2.readLatency <= LatestPermissibleStart(j.plan.value, env2.config) ==>
            RecoverySends(s1, j, env2))
  {
    var s1 := ResumeRun(s, env);
    assert RunHasBegun(s.j.results);
    var j := s.j.(pausedReason := None, pausedAt := None, state := Waiting);
    assert CurrentStep(j) == CurrentStep(s.j) && CurrentStatus(j) == CurrentStatus(s.j);
    assert s1 == Advance(Write(s.(j := j)), env) by { hide Rest, Advance; }
    AdvanceExtends(Write(s.(j := j)), env);
    hide Rest, ResumeRun, Advance, LatestPermissibleStart, FreezeBlocks, RecoverySends;
    assert Write(s.(j := j)).written[|s.written|] == j;
    if s1.clock + env2.readLatency <= LatestPermissibleStart(j.plan.value, env2.config) {
      QuietRecoverySends(s1, j, env2);
    }
  }

  /** Recovery that pauses for foreign activity over a running step leaves it RUNNING. Resuming
      journals the run as WAITING over it, a resumable journal: a crash before the next start
      command makes recovery send the running step's start command again. */
  lemma PauseOverRunningStartsItAgain(s: Exec, j: Journal, env: Env, resume: Env, quiet: Env)
    requires Log(Any, s) && Stored(j) && LeavesRunning(j, env.read)
    requires var paused := Recover(Reboot(s, j), env).j.pausedAt;
      paused.Some? ==> resume.now - paused.value <= 60 * resume.config.missedRunToleranceMinutes
    requires quiet.read == Some(ALL_QUIET) && !FreezeBlocks(quiet, ALL_QUIET)
    requires CurrentStep(j).zone in quiet.resolvable
    ensures
      var r := Recover(Reboot(s, j), env);
      var s1 := Step(r, ResumeEvent, resume);
      && r.j.state == PausedExternal && HasStep(r.j) && CurrentStatus(r.j) == Running
      && |s1.written| > |r.written|
      && var w := s1.written[|r.written|];
      && HasStep(w) && w.index == j.index && w.plan == j.plan && CurrentStatus(w) == Running
      && (Resumable(j) ==> Resumable(w))
      && (s1.clock + quiet.readLatency <= LatestPermissibleStart(j.plan.value, quiet.config) ==>
            RecoverySends(s1, w, quiet))
  {
    var r := Recover(Reboot(s, j), env);
    PausedOverRunning(s, j, env);
    assert HasStep(r.j) && CurrentStep(r.j) == CurrentStep(j) && CurrentStatus(r.j) == Running;
    assert Resumable(j) ==> Ordered(r.j);
    hide Recover, Reboot, Step, Log, Stored, PausesOverRunning, Ordered, LatestPermissibleStart, FreezeBlocks,
         RecoverySends;
    ResumeOverRunning(r, resume, quiet);
    assert Resumable(j) ==> Resumable(Step(r, ResumeEvent, resume).written[|r.written|]) by { hide Terminal; }
  }

  lemma ResumeOverRunning(r: Exec, resume: Env, quiet: Env)
    requires HasStep(r.j) && r.j.state == PausedExternal && CurrentStatus(r.j) == Running && !r.j.stopRequested
    requires r.j.pausedAt.Some? ==>
      resume.now - r.j.pausedAt.value <= 60 * resume.config.missedRunToleranceMinutes
    requires quiet.read == Some(ALL_QUIET) && !FreezeBlocks(quiet, ALL_QUIET)
    requires CurrentStep(r.j).zone in quiet.resolvable
    ensures
      var s1 := Step(r, ResumeEvent, resume);
      && |s1.written| > |r.written|
      && var w := s1.written[|r.written|];
      && HasStep(w) && w.index == r.j.index && w.plan == r.j.plan && CurrentStatus(w) == Running
      && (Ordered(r.j) ==> Resumable(w))
      && (s1.clock + quiet.readLatency <= LatestPermissibleStart(r.j.plan.value, quiet.config) ==>
            RecoverySends(s1, w, quiet))
  {
    var w := r.j.(pausedReason := None, pausedAt := None, state := Waiting);
    assert CurrentStep(w) == CurrentStep(r.j) && CurrentStatus(w) == CurrentStatus(r.j);
    assert RunHasBegun(r.j.results);
    var p := Write(r.(clock := resume.now, j := w));
    ResumesOver(r, resume);
    assert p.written[|r.written|] == w;
    hide Step, Advance, LatestPermissibleStart, FreezeBlocks, RecoverySends, RunHasBegun;
    AdvanceExtends(p, resume);
    var s1 := Step(r, ResumeEvent, resume);
    if s1.clock + quiet.readLatency <= LatestPermissibleStart(r.j.plan.value, quiet.config) {
      QuietRecoverySends(s1, w, quiet);
    }
  }

  lemma ResumesOver(s: Exec, env: Env)
    requires HasStep(s.j) && s.j.state == PausedExternal && RunHasBegun(s.j.results)
    requires s.j.pausedAt.Some? ==> env.now - s.j.pausedAt.value <= 60 * env.config.missedRunToleranceMinutes
    ensures var j := s.j.(pausedReason := None, pausedAt := None, state := Waiting);
      Step(s, ResumeEvent, env) == Advance(Write(s.(clock := env.now, j := j)), env)
  {
    hide Advance, RunHasBegun, SkipRunFor, LatestPermissibleStart;
  }

  lemma PausedOverRunning(s: Exec, j: Journal, env: Env)
    requires Stored(j) && LeavesRunning(j, env.read)
    ensures var r := Recover(Reboot(s, j), env);
      && r.j == j.(state := PausedExternal, pausedAt := r.j.pausedAt, lastObservation := r.j.lastObservation)
      && !j.stopRequested
  {
    ObservedJournal(Reboot(s, j), env);
    hide ForeignZones;
  }

  /** The start command of a RUNNING step is sent by recovery only if an earlier recovery
      paused over a running step: in every execution with crashes after any journal write
      and no such recovery, no journal ever written makes recovery do so. */
  lemma {:induction false} NeverStartsRunning(trace: Trace, k: nat, env: Env)
    requires AdmissibleTrace(Unpaused, INITIAL, trace) && k < |Run(INITIAL, trace).written|
    requires var s := Run(INITIAL, trace).(clock := env.now); RecoverySends(s, s.written[k], env)
    ensures var j := Run(INITIAL, trace).written[k];
      HasStep(j) && CurrentStatus(j) != Running
  {
    InitialRest(Unpaused);
    RunRest(Unpaused, INITIAL, trace);
    var s := Run(INITIAL, trace);
    assert Writable(Unpaused, s.written[k]) by { hide Run, Writable; }
    hide Run, RecoverySends, Rest;
    RecoveryStartsNoneRunning(s.(clock := env.now), s.written[k], env);
  }

  /** In such executions a running step is watered or reconciled, with no start open for it. */
  lemma {:induction false} RunningIsAttended(trace: Trace)
    requires AdmissibleTrace(Unpaused, INITIAL, trace)
    ensures var s := Run(INITIAL, trace);
      HasStep(s.j) && CurrentStatus(s.j) == Running ==>
        && s.j.results[s.j.index].actualStart.Some?
        && (s.j.state == Watering || (s.j.state == Reconciling && s.context in {OverrunContext, EarlyEndContext}))
  {
    InitialRest(Unpaused);
    RunRest(Unpaused, INITIAL, trace);
    hide Run, Log;
  }

  /** A run given up while reconciling is journaled once more before it is reset: a crash in
      between makes recovery start the failed step again. */
  lemma CrashAfterFailureWatersAgain(s: Exec, env: Env)
    requires Rest(CrashFree, s) && s.j.state == Reconciling
    requires env.read == Some(ALL_QUIET) && !FreezeBlocks(env, ALL_QUIET)
    requires CurrentStep(s.j).zone in env.resolvable
    requires s.clock + env.readLatency <= LatestPermissibleStart(s.j.plan.value, env.config)
    ensures
      var s1 := FailRun(s, CommandFailed, CommandFailed, CommandFailed);
      && |s1.written| == |s.written| + 2
      && var j := s1.written[|s.written|];
      && EndedButNotResumable(j) && !Resumable(j) && Settled(j.results) && RecoverySends(s1, j, env)
  {
    var s1 := FailRun(s, CommandFailed, CommandFailed, CommandFailed);
    var j := s1.written[|s.written|];
    assert j.index == s.j.index && j.plan == s.j.plan && j.state == Reconciling && !j.stopRequested
      && s1.clock == s.clock by {
      hide Dedup.Record, SkipAll;
    }
    assert CurrentStep(j) == CurrentStep(s.j) && CurrentStatus(j) == StepFailed by { hide Dedup.Record; }
    assert Settled(j.results) by { hide Dedup.Record; }
    hide Rest, FailRun, LatestPermissibleStart, FreezeBlocks;
    QuietRecoverySends(s1, j, env);
  }

  /** The step that such a recovery starts again keeps its old recorded end, which is then
      too early: the case in which a skip or a second recovery completes it falsely. */
  lemma StartedAgainIsCutShort(s: Exec, j: Journal, env: Env, tolerance: nat)
    requires Log(Any, s) && Stored(j) && EndedButNotResumable(j)
    requires env.read == Some(ALL_QUIET) && !FreezeBlocks(env, ALL_QUIET) && CurrentStep(j).zone in env.resolvable
    requires s.clock + env.readLatency <= LatestPermissibleStart(j.plan.value, env.config) && env.start == StartOk
    requires j.results[j.index].actualEnd.Some? && j.results[j.index].actualEnd.value <= s.clock
    requires tolerance < 60 * CurrentStep(j).duration
    ensures var r := Recover(Reboot(s, j), env);
      && Rest(Any, r) && r.j.state == Watering && HasStep(r.j) && r.j.index == j.index
      && CurrentStatus(r.j) == Running && CutShort(r.j, tolerance)
  {
    RecoverNeverWedges(s, j, env);
    var s1 := Observe(Reboot(s, j), env);
    QuietRecoverySends(s, j, env);
    assert RecoverLocked(s1, env, env.read) == SendStart(Write(s1.(j := s1.j.(state := Waiting))), env) by {
      hide SendStart, LatestPermissibleStart, SkipRunFor, FailRun, PauseExternal, FreezeBlocks, Log, Rest, AcceptAt;
      assert ForeignZones(s1.j, env.read) == {};
      var s2 := Write(s1.(j := s1.j.(state := Waiting)));
      assert PreStepBlock(s2.j, env, s2.j.index) == NoBlock by { QuietIsUnblocked(s2.j, env); }
    }
    hide RecoverLocked, Rest, Log, LatestPermissibleStart, FreezeBlocks, RecoverySends;
  }

  lemma QuietIsUnblocked(j: Journal, env: Env)
    requires HasStep(j) && j.lastObservation == Some(ALL_QUIET) && !FreezeBlocks(env, ALL_QUIET)
    ensures PreStepBlock(j, env, j.index) == NoBlock
  {
    assert ExternalZones(j, ALL_QUIET, j.index) == {};
    hide FreezeBlocks;
  }
}
