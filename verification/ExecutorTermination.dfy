/** A run driven only by its own timers settles after boundedly many firings, whatever
    the driver answers and whatever is observed. */
module ExecutorTermination {
  import opened Domain
  import opened ExecutorSpec
  import opened ExecutorInvariant
  import opened ExecutorFrames
  import opened ExecutorRuns

  function PendingCount(results: seq<StepResult>): (n: nat)
    ensures n <= |results|
  {
    if results == [] then 0
    else PendingCount(results[..|results| - 1]) + if results[|results| - 1].status == Pending then 1 else 0
  }

  /** Fewer steps are pending when no status returns to PENDING. */
  lemma {:induction false} PendingShrinks(before: seq<StepResult>, after: seq<StepResult>)
    requires |before| == |after|
    requires forall k :: 0 <= k < |after| && after[k].status == Pending ==> before[k].status == Pending
    ensures PendingCount(after) <= PendingCount(before)
    ensures (exists k :: 0 <= k < |after| && before[k].status == Pending && after[k].status != Pending) ==>
      PendingCount(after) < PendingCount(before)
    decreases |before|
  {
    if before != [] {
      var n := |before| - 1;
      PendingShrinks(before[..n], after[..n]);
      if k :| 0 <= k < n && before[k].status == Pending && after[k].status != Pending {
        assert before[..n][k].status == Pending && after[..n][k].status != Pending;
      }
    }
  }

  lemma {:induction false} PendingPositive(results: seq<StepResult>, k: nat)
    requires k < |results| && results[k].status == Pending
    ensures PendingCount(results) > 0
    decreases |results|
  {
    if k < |results| - 1 { PendingPositive(results[..|results| - 1], k); }
  }

  const ROUND := 15

  predicate SettledRun(s: Exec) { s.j.state == Idle || IsPaused(s.j) }

  function AttemptsRemaining(s: Exec): nat
    requires HasStep(s.j)
  {
    var used := s.j.results[s.j.index].attempts;
    if used < MAX_COMMAND_ATTEMPTS then MAX_COMMAND_ATTEMPTS - used else 0
  }

  /** An open start has begun its step's round, unless recovery started a step that is over. */
  function OwnRound(s: Exec): nat
    requires HasStep(s.j)
  {
    if CurrentStatus(s.j) == Pending then ROUND else 0
  }

  /** Firings still possible: a round per pending step, then the phase within the round,
      then the command attempts and the overrun confirmation that are left. */
  function FuelFor(s: Exec, retrying: bool): int
    requires s.j.state != Idle ==> HasStep(s.j)
  {
    var rounds := ROUND * PendingCount(s.j.results);
    match s.j.state
    case InterZoneGap => rounds + 1
    case Watering => rounds + 5
    case Reconciling =>
      (match s.context
       case EarlyEndContext => rounds + 6
       case OverrunContext => if s.overrunAttempts == 0 then rounds + 4 else rounds + 3
       case _ => rounds - OwnRound(s) + (if retrying then 6 else 7) + 2 * AttemptsRemaining(s))
    case _ => 0
  }

  function Fuel(s: Exec): int
    requires s.j.state != Idle ==> HasStep(s.j)
  {
    FuelFor(s, Armed(s, RetryStep))
  }

  /** The run settled, or has less fuel than before. */
  predicate Progress(r: Exec, fuel: int) {
    SettledRun(r) || (HasStep(r.j) && Fuel(r) < fuel)
  }

  lemma FuelBounds(s: Exec)
    requires Rest(Any, s)
    ensures Fuel(s) <= ROUND * PendingCount(s.j.results) + 17
    ensures !SettledRun(s) ==> 0 < Fuel(s)
  {
    if s.j.state == Reconciling && s.context == StartContext && CurrentStatus(s.j) == Pending {
      PendingPositive(s.j.results, s.j.index);
    }
    hide PendingCount, Log, CleanJournal;
  }

  lemma ProgressRelaxes(r: Exec, fuel: int, more: int)
    requires Progress(r, fuel) && fuel <= more
    ensures Progress(r, more)
  {
    hide FuelFor;
  }

  lemma FinishSettles(s: Exec, outcome: RunOutcome, reason: Option<Reason>)
    ensures FinishRun(s, outcome, reason).j.state == Idle
  {
    FinishIdle(s, outcome, reason);
  }

  lemma CompleteProgress(s: Exec, env: Env, end: Instant)
    requires HasStep(s.j)
    ensures var r := CompleteStep(s, env, end);
      r.j.state == InterZoneGap && HasStep(r.j) && Fuel(r) <= ROUND * PendingCount(s.j.results) + 1
    ensures CurrentStatus(s.j) == Pending ==>
      Fuel(CompleteStep(s, env, end)) <= ROUND * PendingCount(s.j.results) - ROUND + 1
  {
    var r := CompleteStep(s, env, end);
    PendingShrinks(s.j.results, r.j.results);
    if CurrentStatus(s.j) == Pending { assert r.j.results[s.j.index].status == Completed; }
    hide PendingCount, GapTarget;
  }

  lemma ExpectedEndProgress(s: Exec, env: Env)
    requires HasStep(s.j) && s.j.state == Watering
    ensures Progress(HandleExpectedEnd(s, env), FuelFor(s, false))
  {
    hide PendingCount, CompleteStep, OnPastEnd;
    CompleteProgress(s, env, EndOrNow(s));
  }

  lemma ConfirmOverrunProgress(s: Exec, env: Env)
    requires HasStep(s.j) && s.j.state == Reconciling && s.context == OverrunContext
    ensures Progress(HandleConfirmOverrun(s, env), FuelFor(s, false))
  {
    var s1 := Observe(s, env);
    assert HasStep(s1.j) && s1.j.results == s.j.results && s1.j.state == Reconciling;
    assert s1.context == s.context && s1.overrunAttempts == s.overrunAttempts;
    hide PendingCount, CompleteStep, OnPastEnd, StopOverrun, Observe;
    hide Fuel, FuelFor, EndOrNow, ArmIn;
    if !OnPastEnd(s1.j) { OverrunOver(s, s1, env); }
    else if s1.overrunAttempts == 0 { FirstOverrun(s, s1, env); }
    else { StopOverrunSettles(s1, env); }
  }

  lemma FirstOverrun(s: Exec, s1: Exec, env: Env)
    requires HasStep(s.j) && s.j.state == Reconciling && s.context == OverrunContext && s.overrunAttempts == 0
    requires HasStep(s1.j) && s1.j.results == s.j.results && s1.j.state == Reconciling && s1.context == OverrunContext
    ensures Progress(ArmIn(s1.(overrunAttempts := 1), env.config.overrunConfirmation, ConfirmOverrun),
                     FuelFor(s, false))
  {
    hide PendingCount;
  }

  lemma OverrunOver(s: Exec, s1: Exec, env: Env)
    requires HasStep(s.j) && s.j.state == Reconciling && s.context == OverrunContext
    requires HasStep(s1.j) && s1.j.results == s.j.results
    ensures Progress(CompleteStep(s1, env, EndOrNow(s1)), FuelFor(s, false))
  {
    hide PendingCount, CompleteStep, Fuel;
    CompleteProgress(s1, env, EndOrNow(s1));
  }

  lemma StopOverrunSettles(s: Exec, env: Env)
    ensures SettledRun(StopOverrun(s, env))
  {
    hide FinishRun, EndStep, SkipRemaining, SendStop;
    var s1 := SendStop(s, env);
    var s2 := EndStep(s1, s1.j.index, OverrunStopped, ControllerOverrun);
    FinishSettles(SkipRemaining(s2, ExternalActivity), RunFailed, Some(ControllerOverrun));
  }

  lemma ClassifyEarlyEndSettles(s: Exec, env: Env, o: Observation)
    requires HasStep(s.j) && !s.j.stopRequested
    ensures SettledRun(ClassifyEarlyEnd(s, env, o))
  {
    hide FinishRun, EndStep, SkipRemaining;
    var s1 := CancelTimer(s);
    FinishSettles(SkipRemaining(EndStep(s1, s1.j.index, SensorCut, RainSensorWet), RainSensorWet),
                  AbortedSensor, Some(RainSensorWet));
    FinishSettles(SkipRemaining(EndStep(s1, s1.j.index, ExternalStop, PowerLoss), SourceUnavailable),
                  AbortedPowerLoss, Some(PowerLoss));
    FinishSettles(SkipRemaining(EndStep(s1, s1.j.index, ExternalStop, StoppedOutside), ExternalActivity),
                  AbortedExternal, Some(StoppedOutside));
  }

  lemma ResumedProgress(s: Exec, s1: Exec)
    requires HasStep(s.j) && s.j.state == Reconciling && s.context == EarlyEndContext
    requires HasStep(s1.j) && s1.j.results == s.j.results
    ensures Progress(Write(ResumeWatering(s1)), FuelFor(s, false))
  {
    hide PendingCount;
  }

  lemma ConfirmEarlyEndProgress(s: Exec, env: Env)
    requires HasStep(s.j) && s.j.state == Reconciling && s.context == EarlyEndContext && !s.j.stopRequested
    ensures Progress(HandleConfirmEarlyEnd(s, env), FuelFor(s, false))
  {
    var s1 := Observe(s, env);
    assert HasStep(s1.j) && s1.j.results == s.j.results && !s1.j.stopRequested;
    assert s1.j.state == s.j.state && s1.context == s.context;
    hide PendingCount, ClassifyEarlyEnd, Observe, Fuel, FuelFor, ResumeWatering;
    if s1.j.lastObservation.None? || CurrentStep(s1.j).zone in s1.j.lastObservation.value.active {
      ResumedProgress(s, s1);
    } else {
      ClassifyEarlyEndSettles(s1.(context := NoContext), env, s1.j.lastObservation.value);
    }
  }

  lemma AcceptProgress(s: Exec, env: Env, start: Instant, now: Instant)
    requires HasStep(s.j)
    ensures Progress(AcceptAt(s, env, start, now), ROUND * PendingCount(s.j.results) - OwnRound(s) + 6)
  {
    var s1 := BeginWatering(s, start, Accepted);
    assert HasStep(s1.j) && s1.j.results[s.j.index].status == Running && s1.j.state == Watering;
    PendingShrinks(s.j.results, s1.j.results);
    assert CurrentStatus(s.j) == Pending ==> PendingCount(s1.j.results) < PendingCount(s.j.results);
    hide PendingCount, CompleteStep, BeginWatering, NextPending;
    CompleteProgress(s1, env, s1.j.expectedEnd.value);
  }

  lemma ExternalConflictSettles(s: Exec, env: Env)
    requires HasStep(s.j)
    ensures SettledRun(ExternalConflict(s, env))
  {
    hide FinishRun, EndStep, SkipRemaining;
    var s1 := CancelTimer(s);
    var s2 := if CurrentStatus(s1.j) == Running then EndStep(s1, s1.j.index, ExternalStop, ExternalActivity) else s1;
    FinishSettles(SkipRemaining(s2, ExternalActivity), AbortedExternal, Some(ExternalActivity));
  }

  lemma RetryOrFailProgress(s: Exec, env: Env)
    requires HasStep(s.j) && s.j.state == Reconciling && s.context == StartContext
    ensures Progress(RetryOrFail(s, env), FuelFor(s, false))
  {
    hide PendingCount, FinishRun, EndStep, SkipRemaining, LatestPermissibleStart, RetryDelay;
    var s1 := s.(j := SetDisposition(s.j, CommandRejected));
    FinishSettles(SkipRemaining(EndStep(s1, s1.j.index, StepFailed, CommandFailed), CommandFailed),
                  RunFailed, Some(CommandFailed));
  }

  lemma ClassifyUncertainProgress(s: Exec, env: Env)
    requires HasStep(s.j) && s.j.state == Reconciling && s.context == StartContext
    ensures Progress(HandleClassifyUncertain(s, env), FuelFor(s, false))
  {
    var s1 := Observe(s, env);
    assert s1.j == s.j.(lastObservation := s1.j.lastObservation) && s1.context == s.context;
    assert HasStep(s1.j) && OwnRound(s1) == OwnRound(s) && AttemptsRemaining(s1) == AttemptsRemaining(s);
    var rounds := ROUND * PendingCount(s.j.results);
    assert FuelFor(s1, false) == FuelFor(s, false) && rounds - OwnRound(s) + 6 <= FuelFor(s, false);
    hide PendingCount, Observe, AcceptAt, ExternalConflict, RetryOrFail, ExternalZones, Fuel, FuelFor,
         AttemptsRemaining, OwnRound;
    var o := s1.j.lastObservation;
    if o.Some? && CurrentStep(s1.j).zone in o.value.active {
      AcceptProgress(s1, env, CommandTime(s1), s1.clock);
      ProgressRelaxes(AcceptAt(s1, env, CommandTime(s1), s1.clock), rounds - OwnRound(s) + 6, FuelFor(s, false));
    } else if o.Some? && ExternalZones(s1.j, o.value, s1.j.index) != {} {
      ExternalConflictSettles(s1, env);
    } else {
      RetryOrFailProgress(s1, env);
    }
  }

  /** The fuel a start may leave beyond the other pending steps' rounds. */
  function StartFuel(s: Exec): (fuel: int)
    requires HasStep(s.j)
    ensures 8 <= fuel <= 16
  {
    if s.j.results[s.j.index].attempts < MAX_COMMAND_ATTEMPTS then 6 + 2 * AttemptsRemaining(s) else 8
  }

  /** A step that is not started settles the run; a start leaves a round behind, or an attempt. */
  lemma StartStepProgress(s: Exec, env: Env)
    requires HasStep(s.j)
    ensures Progress(StartStep(s, env), ROUND * PendingCount(s.j.results) - OwnRound(s) + StartFuel(s))
  {
    hide StartStep, Starts, Sends, PendingCount;
    StartStepSettles(s, env);
    if Sends(s, env) && env.start != StartRejected {
      StartStepSends(s, env);
      StartedFuel(s, StartStep(s, env), env);
    }
  }

  lemma StartedFuel(s: Exec, r: Exec, env: Env)
    requires HasStep(s.j) && env.start != StartRejected
    requires SentOne(s, r, s.j.index, s.clock, env.start)
    ensures HasStep(r.j) && Fuel(r) < ROUND * PendingCount(s.j.results) - OwnRound(s) + StartFuel(s)
  {
    hide Starts;
    PendingShrinks(s.j.results, r.j.results);
    if env.start == StartOk { assert r.j.results[s.j.index].status != Pending; }
    hide PendingCount;
  }

  lemma SkipRunForSettles(s: Exec, reason: Reason, o: RunOutcome)
    ensures SettledRun(SkipRunFor(s, reason, o))
  {
    hide FinishRun, SkipRemaining, AnyCompleted;
    FinishSettles(SkipRemaining(s, reason), o, Some(reason));
    FinishSettles(SkipRemaining(s, reason), RunSkipped, Some(reason));
  }

  lemma FailRunSettles(s: Exec, stepReason: Reason, skipReason: Reason, runReason: Reason)
    ensures SettledRun(FailRun(s, stepReason, skipReason, runReason))
  {
    hide FinishRun, EndStep, SkipRemaining;
    FinishSettles(SkipRemaining(EndStep(s, s.j.index, StepFailed, stepReason), skipReason), RunFailed, Some(runReason));
  }

  lemma StartStepSettles(s: Exec, env: Env)
    requires HasStep(s.j)
    ensures !Sends(s, env) || env.start == StartRejected ==> SettledRun(StartStep(s, env))
  {
    hide SkipRunFor, FailRun, PreStepBlock, SendStart, Starts;
    match PreStepBlock(s.j, env, s.j.index) {
      case BlockDelay => SkipRunForSettles(s, RainDelay, CompletedWithSkips);
      case BlockWet => SkipRunForSettles(s, RainSensorWet, AbortedSensor);
      case BlockFreeze => SkipRunForSettles(s, LowTemperature, AbortedSensor);
      case BlockExternal =>
      case NoBlock =>
        FailRunSettles(s, SourceUnavailable, SourceUnavailable, ZoneUnresolved);
        SendStartSends(s, env);
    }
  }

  lemma AdvanceProgress(s: Exec, env: Env)
    requires HasStep(s.j)
    ensures Progress(Advance(s, env), ROUND * PendingCount(s.j.results) + 1)
  {
    var next := NextPending(s.j.results);
    if next == |s.j.results| {
      hide FinishRun, PendingCount;
      FinishSettles(s, RunCompleted, None);
      FinishSettles(s, CompletedWithSkips, Some(SomeStepsSkipped));
    } else {
      var s1 := s.(j := s.j.(index := next));
      hide StartStep, PendingCount, Fuel;
      assert Advance(s, env) == StartStep(s1, env);
      hide Advance;
      NextStepProgress(s1, env);
    }
  }

  /** A step that was never commanded has all its attempts: starting it fits in its round. */
  lemma NextStepProgress(s: Exec, env: Env)
    requires HasStep(s.j) && CurrentStatus(s.j) == Pending
    ensures Progress(StartStep(s, env), ROUND * PendingCount(s.j.results) + 1)
  {
    hide StartStep, PendingCount, Fuel, StartFuel;
    StartStepProgress(s, env);
  }

  lemma RetryStepProgress(s: Exec, env: Env)
    requires HasStep(s.j) && s.j.state == Reconciling && s.context == StartContext
    requires AttemptsLeft(s.j)
    ensures Progress(HandleRetryStep(s, env), FuelFor(s, true))
  {
    hide StartStep, PendingCount;
    StartStepProgress(s.(j := s.j.(state := Waiting)), env);
  }

  /** Every firing of the armed timer settles the run or uses up fuel. */
  lemma FireProgress(s: Exec, env: Env)
    requires Rest(Any, s) && !SettledRun(s)
    ensures s.timer.Some? && Progress(Fire(s, env, s.timer.value), Fuel(s))
  {
    var t := s.timer.value;
    var f := s.(issued := s.issued - {t}, timer := None);
    FiredFuel(s);
    hide Rest, FuelFor, Progress, Dispatch, Fuel, Expects;
    assert Fire(s, env, t) == Dispatch(f, env, t.handler);
    DispatchProgress(f, env, t.handler);
  }

  /** The state in which the handler of the armed timer runs. */
  lemma FiredFuel(s: Exec)
    requires Rest(Any, s) && !SettledRun(s)
    ensures s.timer.Some? && s.timer.value.generation == s.generation
    ensures var t := s.timer.value; var f := s.(issued := s.issued - {t}, timer := None);
      && HasStep(f.j) && !f.j.stopRequested && Expects(f, t.handler)
      && (t.handler == RetryStep ==> AttemptsLeft(f.j)) && t.handler != RetryUncertainStop
      && Fuel(s) == FuelFor(f, t.handler == RetryStep)
  {
    assert Callbacks(s);
    hide PendingCount, Log, CleanJournal, Recorded, WateredAll;
  }

  lemma DispatchProgress(s: Exec, env: Env, handler: Handler)
    requires HasStep(s.j) && !s.j.stopRequested && Expects(s, handler)
    requires (handler == RetryStep ==> AttemptsLeft(s.j)) && handler != RetryUncertainStop
    ensures Progress(Dispatch(s, env, handler), FuelFor(s, handler == RetryStep))
  {
    hide PendingCount, HandleExpectedEnd, HandleConfirmOverrun, HandleConfirmEarlyEnd,
      HandleClassifyUncertain, HandleRetryStep, HandleRetryUncertainStop, Progress, Advance, AttemptsRemaining,
      AttemptsLeft;
    match handler {
      case OnExpectedEnd => ExpectedEndProgress(s, env);
      case OnGap => AdvanceProgress(s, env);
      case ConfirmOverrun => ConfirmOverrunProgress(s, env);
      case ConfirmEarlyEnd => ConfirmEarlyEndProgress(s, env);
      case ClassifyUncertain => ClassifyUncertainProgress(s, env);
      case RetryStep => RetryStepProgress(s, env);
    }
  }

  /** The run left to its timers: `envs(n)`, `envs(n - 1)`, ... answer the firings, each at the
      time `envs(n).now`, be it the time the callback was armed for or any other. */
  function Drive(s: Exec, envs: nat -> Env, n: nat): Exec
    decreases n
  {
    if n == 0 || SettledRun(s) || s.timer.None? || !Readable(s.j) then s
    else Drive(Step(s, FireEvent(s.timer.value), envs(n)), envs, n - 1)
  }

  lemma FiredNow(s: Exec, env: Env)
    requires Rest(Any, s) && !SettledRun(s)
    ensures s.timer.Some? && s.timer.value in s.issued && 0 < Fuel(s)
    ensures var r := Fire(s, env, s.timer.value); Rest(Any, r) && Progress(r, Fuel(s))
  {
    FuelBounds(s);
    FireProgress(s, env);
    assert Readable(s.j) && s.timer.value in s.issued;
    hide Fire, FuelFor, Progress, Fuel, Rest;
    FireRest(Any, s, env, s.timer.value);
  }

  lemma HeldStep(s: Exec)
    requires Rest(Any, s) && s.j.state != Idle
    ensures HasStep(s.j)
  {}

  /** What is left to do does not depend on the clock. */
  lemma ClockFuel(s: Exec, now: Instant)
    requires HasStep(s.j)
    ensures var s1 := s.(clock := now); SettledRun(s1) == SettledRun(s) && Fuel(s1) == Fuel(s)
  {
    hide PendingCount;
  }

  lemma FiredRun(s: Exec, env: Env)
    requires Rest(Any, s) && !SettledRun(s)
    ensures s.timer.Some? && Readable(s.j) && 0 < Fuel(s)
    ensures var r := Step(s, FireEvent(s.timer.value), env);
      Rest(Any, r) && Progress(r, Fuel(s)) && (r.j.state != Idle ==> HasStep(r.j))
  {
    var s1 := s.(clock := env.now);
    RestReadable(Any, s);
    ClockRest(Any, s, env.now);
    HeldStep(s);
    ClockFuel(s, env.now);
    hide Fire, Rest, Fuel, Progress;
    FiredNow(s1, env);
    var r := Fire(s1, env, s.timer.value);
    if r.j.state != Idle { HeldStep(r); }
  }

  lemma {:induction false} DriveSettles(s: Exec, envs: nat -> Env, n: nat)
    requires Rest(Any, s) && (SettledRun(s) || (HasStep(s.j) && Fuel(s) <= n))
    ensures Rest(Any, Drive(s, envs, n)) && SettledRun(Drive(s, envs, n))
    decreases n
  {
    hide Step, Rest, FuelFor;
    if !SettledRun(s) {
      FiredRun(s, envs(n));
      DriveSettles(Step(s, FireEvent(s.timer.value), envs(n)), envs, n - 1);
    }
  }

  /** Termination: a bound linear in the pending steps, for every driver, every read and every
      time at which the callbacks fire. */
  lemma {:induction false} RunTerminates(s: Exec, envs: nat -> Env)
    requires Rest(Any, s)
    ensures SettledRun(Drive(s, envs, ROUND * PendingCount(s.j.results) + 17))
  {
    hide Drive, PendingCount;
    if !SettledRun(s) { FuelBounds(s); }
    DriveSettles(s, envs, ROUND * PendingCount(s.j.results) + 17);
  }

  /** From every state that any execution reaches, crashes included. */
  lemma {:induction false} EveryRunTerminates(trace: Trace, envs: nat -> Env)
    ensures var s := Run(INITIAL, trace);
      SettledRun(Drive(s, envs, ROUND * PendingCount(s.j.results) + 17))
  {
    hide Run, Drive, Rest, PendingCount;
    EverythingIsAdmissible(INITIAL, trace);
    InitialRest(Any);
    RunRest(Any, INITIAL, trace);
    RunTerminates(Run(INITIAL, trace), envs);
  }
}
