/** When a step is started and when not: the checks before a start, spelled out in what was
    observed and in the policies, over whole executions. */
module ExecutorChecks {
  import opened Domain
  import opened ExecutorSpec
  import opened ExecutorInvariant
  import opened ExecutorFrames
  import opened ExecutorRecovery
  import opened ExecutorRuns
  import opened ExecutorCommands
  import Dedup

  // ---------------------------------------------------------------------
  // What stands in the way of a start

  function RainFor(env: Env): RainPolicy {
    match env.program case Some(p) => p.rain case None => env.config.defaultRainPolicy
  }

  function FreezeFor(env: Env): FreezePolicy {
    match env.program case Some(p) => p.freeze case None => env.config.defaultFreezePolicy
  }

  predicate AtOrBelow(guard: FreezeGuard, celsius: real) {
    match guard.unit
    case Celsius => celsius <= guard.threshold
    case Fahrenheit => celsius * 9.0 / 5.0 + 32.0 <= guard.threshold
  }

  predicate Delayed(env: Env, o: Observation) {
    RainFor(env).honorNativeDelay && o.rainDelayDays.Some? && 0 < o.rainDelayDays.value
  }

  predicate Wetted(env: Env, o: Observation) { RainFor(env).skipWhenSensorWet && o.rainSensor == Some(true) }

  predicate TooCold(env: Env, o: Observation) {
    && env.config.freezeGuard.enabled && FreezeFor(env).skipWhenFreezing
    && match o.temperature
       case Some(t) => AtOrBelow(env.config.freezeGuard, t)
       case None => env.config.freezeGuard.whenUnavailable == BlockWatering
  }

  /** A zone that is on, and that no earlier step of the run had on when it was last reported. */
  predicate Strange(j: Journal, o: Observation, i: nat, z: ZoneId)
    requires HasStep(j)
  {
    && z in o.active
    && forall k :: 0 <= k < i && k < |j.results| && j.plan.value.steps[k].zone == z && j.results[k].actualEnd.Some? ==>
         j.results[k].actualEnd.value < (if z in o.reportedAt then o.reportedAt[z] else o.observedAt)
  }

  predicate SeesStranger(j: Journal, o: Observation, i: nat)
    requires HasStep(j)
  {
    exists z :: z in o.active && Strange(j, o, i, z)
  }

  /** Nothing that was last observed stands in the way of starting step i. */
  predicate Clear(j: Journal, env: Env, i: nat)
    requires HasStep(j)
  {
    j.lastObservation.Some? ==>
      var o := j.lastObservation.value;
      !Delayed(env, o) && !Wetted(env, o) && !TooCold(env, o) && !SeesStranger(j, o, i)
  }

  lemma FreezeMeans(env: Env, o: Observation)
    ensures FreezeBlocks(env, o) <==> TooCold(env, o)
  {}

  lemma StrangersMean(j: Journal, o: Observation, i: nat)
    requires HasStep(j)
    ensures ExternalZones(j, o, i) != {} <==> SeesStranger(j, o, i)
  {
    forall z ensures z in ExternalZones(j, o, i) <==> Strange(j, o, i, z) {}
    hide Strange;
    if z :| z in o.active && Strange(j, o, i, z) { assert z in ExternalZones(j, o, i); }
  }

  /** The checks, in their order. */
  lemma ChecksMean(j: Journal, env: Env, i: nat)
    requires HasStep(j)
    ensures PreStepBlock(j, env, i) ==
      if Clear(j, env, i) then NoBlock
      else
        var o := j.lastObservation.value;
        if Delayed(env, o) then BlockDelay
        else if Wetted(env, o) then BlockWet
        else if TooCold(env, o) then BlockFreeze
        else BlockExternal
  {
    if j.lastObservation.Some? {
      FreezeMeans(env, j.lastObservation.value);
      StrangersMean(j, j.lastObservation.value, i);
    }
    hide FreezeBlocks, TooCold, ExternalZones, SeesStranger;
  }

  /** A step is started exactly if it is clear to start and its zone can be resolved. */
  lemma SendsMeans(s: Exec, env: Env)
    ensures Sends(s, env) <==> HasStep(s.j) && Clear(s.j, env, s.j.index) && CurrentStep(s.j).zone in env.resolvable
  {
    if HasStep(s.j) { ChecksMean(s.j, env, s.j.index); }
    hide PreStepBlock, Clear;
  }

  // ---------------------------------------------------------------------
  // What becomes of a step that is to be started

  /** The run is reported over: the steps still to come are skipped for that reason, and its
      outcome depends on whether any step was completed. */
  predicate SkippedFor(s: Exec, r: Exec, reason: Reason, whenWatered: RunOutcome) {
    && |r.effects| == |s.effects| + 1 && s.effects < r.effects && IsOver(s, r)
    && var e := r.effects[|s.effects|];
       && e.RunFinished? && Some(e.plan) == s.j.plan && e.reason == Some(reason) && CutOff(s.j.results, e.results)
       && (if exists k :: 0 <= k < |s.j.results| && s.j.results[k].status == Completed
           then e.outcome == whenWatered else e.outcome == RunSkipped)
  }

  lemma SkipRunAnswers(s: Exec, reason: Reason, whenWatered: RunOutcome)
    requires s.j.plan.Some?
    ensures SkippedFor(s, SkipRunFor(s, reason, whenWatered), reason, whenWatered)
  {
    var s1 := SkipRemaining(s, reason);
    FinishAdds(s1, if AnyCompleted(s1.j.results) then whenWatered else RunSkipped, Some(reason));
    hide FinishRun;
    forall k | 0 <= k < |s.j.results|
      ensures s1.j.results[k].status == Completed <==> s.j.results[k].status == Completed {}
  }

  /** The run is reported failed, the current step with it. */
  predicate FailedFor(s: Exec, r: Exec, es: seq<Effect>, reason: Reason) {
    && |r.effects| == |s.effects| + |es| + 1 && s.effects + es < r.effects && IsOver(s, r)
    && var e := r.effects[|s.effects| + |es|];
       && e.RunFinished? && Some(e.plan) == s.j.plan && e.outcome == RunFailed && e.reason == Some(reason)
       && |e.results| == |s.j.results| && s.j.index < |e.results| && e.results[s.j.index].status == StepFailed
       && forall k :: 0 <= k < |e.results| && k != s.j.index && s.j.results[k].status == Pending ==>
            e.results[k].status == Skipped
  }

  lemma FailAnswers(s: Exec, stepReason: Reason, skipReason: Reason, runReason: Reason)
    requires HasStep(s.j)
    ensures FailedFor(s, FailRun(s, stepReason, skipReason, runReason), [], runReason)
  {
    var s1 := SkipRemaining(EndStep(s, s.j.index, StepFailed, stepReason), skipReason);
    FinishAdds(s1, RunFailed, Some(runReason));
    hide FinishRun;
  }

  /** The attempt was journaled on the way: a crash after it finds the start command intended. */
  predicate Intends(s: Exec, r: Exec)
    requires HasStep(s.j)
  {
    var attempt := s.j.results[s.j.index].attempts + 1;
    exists k :: |s.written| <= k < |r.written| &&
      var w := r.written[k];
      && w.state == Starting && w.plan == s.j.plan && w.index == s.j.index < |w.results|
      && w.pending == Some(StartCommand(s.clock, Intended, CurrentStep(s.j).zone, attempt))
      && w.results[s.j.index].attempts == attempt
  }

  /** The start command went out, and what the driver made of it. */
  predicate Commands(s: Exec, r: Exec, env: Env)
    requires HasStep(s.j)
  {
    var (i, answered) := (s.j.index, s.clock + env.startLatency);
    var es := [StartZone(i, s.clock, env.start)];
    Intends(s, r) &&
    match env.start
    case StartRejected => FailedFor(s, r, es, Rejected)
    case StartUncertain =>
      && Adds(s, r, es) && r.j.state == Reconciling && r.context == StartContext && r.timer.Some?
      && r.j.pending.Some? && r.j.pending.value.disposition == Uncertain
      && r.j.uncertainCount == s.j.uncertainCount + 1
      && r.timer.value.handler == ClassifyUncertain
      && r.timer.value.when == answered + env.config.startObservationTimeout
    case StartOk =>
      && Adds(s, r, es) && r.j.state == Watering && HasStep(r.j) && r.j.index == i
      && r.j.pending.Some? && r.j.pending.value.disposition == Sent
      && CurrentStatus(r.j) == Running && r.j.results[i].actualStart == Some(answered)
      && r.timer.Some? && r.timer.value.handler == OnExpectedEnd
      && r.timer.value.when == answered + 60 * CurrentStep(s.j).duration
  }

  lemma SendStartAnswers(s: Exec, env: Env)
    requires HasStep(s.j)
    ensures Commands(s, SendStart(s, env), env)
  {
    SendStartIntends(s, env);
    if env.start == StartRejected { RejectAnswers(s, env); }
    hide FailRun, Intends, FailedFor;
  }

  lemma RejectAnswers(s: Exec, env: Env)
    requires HasStep(s.j) && env.start == StartRejected
    ensures FailedFor(s, SendStart(s, env), [StartZone(s.j.index, s.clock, env.start)], Rejected)
  {
    var s1 := Commanded(s, env);
    var s2 := s1.(j := SetDisposition(s1.j, CommandRejected));
    FailAnswers(s2, Rejected, SourceUnavailable, Rejected);
    hide FailRun;
  }

  lemma SendStartIntends(s: Exec, env: Env)
    requires HasStep(s.j)
    ensures Intends(s, SendStart(s, env))
  {
    var s1 := Commanded(s, env);
    var s2 := s1.(j := SetDisposition(s1.j, CommandRejected));
    assert s1.written == s.written + [s1.j] && s2.written == s1.written;
    FailExtends(s2, Rejected, SourceUnavailable, Rejected);
    var r := SendStart(s, env);
    assert s1.written <= r.written by { hide FailRun, Commanded, Intends; }
    hide FailRun, SendStart;
    assert r.written[|s.written|] == s1.j;
  }

  /** The current step was to be started: the first thing that stood in its way ended the run,
      or paused it, with its own reason; if nothing did, exactly its start command was sent. */
  predicate StartAnswered(s: Exec, r: Exec, env: Env)
    requires HasStep(s.j)
  {
    if Clear(s.j, env, s.j.index) then
      if CurrentStep(s.j).zone in env.resolvable then Commands(s, r, env) else FailedFor(s, r, [], ZoneUnresolved)
    else
      var o := s.j.lastObservation.value;
      if Delayed(env, o) then SkippedFor(s, r, RainDelay, CompletedWithSkips)
      else if Wetted(env, o) then SkippedFor(s, r, RainSensorWet, AbortedSensor)
      else if TooCold(env, o) then SkippedFor(s, r, LowTemperature, AbortedSensor)
      else
        && r.effects == s.effects && r.j.state == PausedExternal && r.j.pausedAt == Some(s.clock)
        && r.j.plan == s.j.plan && r.j.results == s.j.results && r.j.index == s.j.index
  }

  lemma StartAnswers(s: Exec, env: Env)
    requires HasStep(s.j)
    ensures StartAnswered(s, StartStep(s, env), env)
  {
    hide PreStepBlock, Clear, SkipRunFor, FailRun, SendStart, SkippedFor, FailedFor, Commands, Delayed, Wetted, TooCold;
    ChecksMean(s.j, env, s.j.index);
    SkipRunAnswers(s, RainDelay, CompletedWithSkips);
    SkipRunAnswers(s, RainSensorWet, AbortedSensor);
    SkipRunAnswers(s, LowTemperature, AbortedSensor);
    FailAnswers(s, SourceUnavailable, SourceUnavailable, ZoneUnresolved);
    SendStartAnswers(s, env);
  }

  // ---------------------------------------------------------------------
  // Over whole executions

  /** From `s` to `r` at most one start command was sent: for the current step of journal `j`,
      which was clear to start. */
  predicate StartedFrom(s: Exec, r: Exec, env: Env, j: Journal, at: Instant) {
    && HasStep(j) && Clear(j, env, j.index) && CurrentStep(j).zone in env.resolvable
    && Starts(r.effects) == Starts(s.effects) + [StartZone(j.index, at, env.start)]
    && r.j.lastObservation == j.lastObservation
  }

  /** A start command, if any, was for a step of this plan that was clear to start, by the
      results of the run so far. */
  ghost predicate StartsClear(s: Exec, r: Exec, env: Env, plan: Option<RunPlan>, results: seq<StepResult>) {
    || Starts(r.effects) == Starts(s.effects)
    || exists j, at :: StartedFrom(s, r, env, j, at) && j.plan == plan && j.results == results
  }

  lemma FinishObserved(s: Exec, outcome: RunOutcome, reason: Option<Reason>)
    ensures FinishRun(s, outcome, reason).j.lastObservation == s.j.lastObservation
  {
    hide Dedup.Record;
  }

  lemma SendStartObserved(s: Exec, env: Env)
    requires HasStep(s.j)
    ensures SendStart(s, env).j.lastObservation == s.j.lastObservation
  {
    var s1 := Commanded(s, env);
    var s2 := s1.(j := SetDisposition(s1.j, CommandRejected));
    FinishObserved(SkipRemaining(EndStep(s2, s2.j.index, StepFailed, Rejected), SourceUnavailable), RunFailed,
                   Some(Rejected));
    hide FinishRun;
  }

  lemma StartStepClear(s: Exec, env: Env)
    requires HasStep(s.j)
    ensures StartsClear(s, StartStep(s, env), env, s.j.plan, s.j.results)
  {
    StartStepSends(s, env);
    SendsMeans(s, env);
    if Sends(s, env) {
      assert StartStep(s, env) == SendStart(s, env) by { hide PreStepBlock, SendStart; }
      SendStartObserved(s, env);
      hide Sends, Starts, StartStep, SendStart, Clear;
      assert StartedFrom(s, StartStep(s, env), env, s.j, s.clock);
    }
  }

  /** Only the effects of the earlier state matter. */
  lemma SameClear(s: Exec, s': Exec, r: Exec, env: Env, plan: Option<RunPlan>, results: seq<StepResult>)
    requires s.effects == s'.effects && StartsClear(s, r, env, plan, results)
    ensures StartsClear(s', r, env, plan, results)
  {
    hide Starts, Clear;
    if Starts(r.effects) != Starts(s.effects) {
      var j, at :| StartedFrom(s, r, env, j, at) && j.plan == plan && j.results == results;
      assert StartedFrom(s', r, env, j, at);
    }
  }

  lemma AdvanceClear(s: Exec, env: Env)
    requires s.j.plan.Some? && |s.j.results| == |s.j.plan.value.steps|
    ensures StartsClear(s, Advance(s, env), env, s.j.plan, s.j.results)
  {
    var next := NextPending(s.j.results);
    if next == |s.j.results| {
      FinishKeeps(s, RunCompleted, None);
      FinishKeeps(s, CompletedWithSkips, Some(SomeStepsSkipped));
      hide Starts, FinishRun;
    } else {
      var s1 := s.(j := s.j.(index := next));
      assert Advance(s, env) == StartStep(s1, env);
      hide StartStep, Advance, NextPending, StartsClear;
      StartStepClear(s1, env);
      SameClear(s1, s, StartStep(s1, env), env, s.j.plan, s.j.results);
    }
  }

  lemma ResumeOrExpireClear(s: Exec, env: Env)
    requires s.j.plan.Some? && |s.j.results| == |s.j.plan.value.steps|
    ensures StartsClear(s, ResumeOrExpire(s, env), env, s.j.plan, s.j.results)
  {
    var s1 := s.(j := s.j.(pausedReason := None, pausedAt := None));
    var s2 := Write(s1.(j := s1.j.(state := Waiting)));
    hide Starts, SkipRunFor, Advance, RunHasBegun, LatestPermissibleStart, StartedFrom;
    AdvanceClear(s2, env);
    SameClear(s2, s, Advance(s2, env), env, s.j.plan, s.j.results);
    SkipRunForKeeps(s1, MissedTolerance, CompletedWithSkips);
  }

  lemma RetryStepClear(s: Exec, env: Env)
    requires HasStep(s.j)
    ensures StartsClear(s, HandleRetryStep(s, env), env, s.j.plan, s.j.results)
  {
    var s1 := s.(j := s.j.(state := Waiting));
    StartStepClear(s1, env);
    hide Starts, StartStep, StartsClear;
    SameClear(s1, s, StartStep(s1, env), env, s.j.plan, s.j.results);
    assert StartsClear(s, s, env, s.j.plan, s.j.results) by { NoneClear(s, s, env, s.j.plan, s.j.results); }
  }

  lemma NoneClear(s: Exec, r: Exec, env: Env, plan: Option<RunPlan>, results: seq<StepResult>)
    requires Starts(r.effects) == Starts(s.effects)
    ensures StartsClear(s, r, env, plan, results)
  {}

  lemma ZoneClear(s: Exec, env: Env, zone: ZoneId, isOn: bool, o: Observation)
    requires Readable(s.j)
    ensures StartsClear(s, HandleZoneState(s, env, zone, isOn, o), env, s.j.plan, s.j.results)
  {
    var s1 := NoteObservation(s, o);
    hide Starts, ZoneEventDuringRun, ZoneEventDuringGap, ResumeOrExpire, SensorPauseCleared, StartedFrom;
    if s1.j.plan.Some? {
      ZoneDuringRunKeeps(s1, env, zone, isOn, o);
      ZoneDuringGapKeeps(s1, env, zone, isOn, o);
      ResumeOrExpireClear(s1, env);
      SameClear(s1, s, ResumeOrExpire(s1, env), env, s.j.plan, s.j.results);
    }
  }

  lemma SensorClear(s: Exec, env: Env, o: Observation)
    requires Readable(s.j)
    ensures StartsClear(s, HandleSensorState(s, env, o), env, s.j.plan, s.j.results)
    ensures StartsClear(s, HandleWeatherState(s, env, o), env, s.j.plan, s.j.results)
  {
    var s1 := NoteObservation(s, o);
    hide Starts, FreezeCut, ResumeOrExpire, SensorPauseCleared, StartedFrom, FreezeActive;
    if s1.j.plan.Some? {
      FreezeCutKeeps(s1, env);
      ResumeOrExpireClear(s1, env);
      SameClear(s1, s, ResumeOrExpire(s1, env), env, s.j.plan, s.j.results);
    }
  }

  lemma DispatchClear(s: Exec, env: Env, handler: Handler)
    requires HasStep(s.j)
    ensures StartsClear(s, Dispatch(s, env, handler), env, s.j.plan, s.j.results)
  {
    hide Starts, HandleExpectedEnd, HandleConfirmOverrun, HandleConfirmEarlyEnd, HandleClassifyUncertain,
      HandleRetryStep, SendStop, Advance, StartedFrom;
    match handler {
      case OnExpectedEnd => ExpectedEndKeeps(s, env);
      case OnGap => AdvanceClear(s, env);
      case ConfirmOverrun => ConfirmOverrunKeeps(s, env);
      case ConfirmEarlyEnd => ConfirmEarlyEndKeeps(s, env);
      case ClassifyUncertain => ClassifyUncertainKeeps(s, env);
      case RetryStep => RetryStepClear(s, env);
      case RetryUncertainStop => SendStopKeeps(s, env);
    }
  }

  lemma FireClear(s: Exec, env: Env, t: Timer)
    requires Rest(Any, s) && t in s.issued
    ensures StartsClear(s, Fire(s, env, t), env, s.j.plan, s.j.results)
  {
    var f := s.(issued := s.issued - {t}, timer := None);
    RestReadable(Any, s);
    hide Rest, Starts, StartedFrom, Dispatch;
    if t.generation == s.generation && s.j.plan.Some? {
      DispatchClear(f, env, t.handler);
      SameClear(f, s, Dispatch(f, env, t.handler), env, s.j.plan, s.j.results);
    } else {
      assert Starts(Fire(s, env, t).effects) == Starts(s.effects) by { IdleFire(s, env, t); }
    }
  }

  lemma IdleFire(s: Exec, env: Env, t: Timer)
    requires Readable(s.j) && (t.generation != s.generation || s.j.plan.None?)
    ensures Starts(Fire(s, env, t).effects) == Starts(s.effects)
  {
    var f := s.(issued := s.issued - {t}, timer := None);
    SendStopKeeps(f, env);
    hide Starts, SendStop;
  }

  lemma StartRunClear(s: Exec, env: Env, plan: RunPlan)
    ensures StartsClear(s, StartRun(s, env, plan).0, env, Some(plan), seq(|plan.steps|, _ => FRESH_RESULT))
  {
    var s1 := Claim(s, plan);
    assert Starts(s1.effects) == Starts(s.effects);
    FinishKeeps(s1, RunSkipped, Some(NoExecutableSteps));
    AdvanceClear(s1, env);
    hide Starts, FinishRun, Advance, StartedFrom;
    SameClear(s1, s, Advance(s1, env), env, Some(plan), s1.j.results);
  }

  lemma RecoverStartClear(s: Exec, env: Env, zoneActive: bool)
    requires HasStep(s.j)
    ensures StartsClear(s, RecoverStart(s, env, zoneActive), env, s.j.plan, s.j.results)
  {
    var s1 := Write(s.(j := s.j.(state := Waiting)));
    hide Starts, AcceptAt, StartStep, SkipRunFor, LatestPermissibleStart, StartedFrom;
    if zoneActive { AcceptKeeps(s, env, CommandTime(s), s.clock); }
    StartStepClear(s1, env);
    SameClear(s1, s, StartStep(s1, env), env, s.j.plan, s.j.results);
    SkipRunForKeeps(s, RestartMissedTolerance, CompletedWithSkips);
  }

  lemma RecoverClear(s: Exec, j: Journal, env: Env)
    requires Shaped(j)
    ensures StartsClear(s, Recover(Reboot(s, j), env), env, j.plan, j.results)
  {
    var s0 := Reboot(s, j);
    var s1 := Observe(s0, env);
    hide Starts, StartedFrom, RecoverLocked;
    if IsActive(j) && j.plan.Some? {
      RecoverLockedSends(s1, env, env.read);
      var r := RecoverLocked(s1, env, env.read);
      if ReachesStart(s1.j, env.read) {
        RecoverStartClear(s1, env, env.read.Some? && CurrentStep(s1.j).zone in env.read.value.active);
        hide RecoverStart, ForeignZones;
        SameClear(s1, s, r, env, j.plan, j.results);
      }
    }
  }

  lemma UserClear(s: Exec, env: Env, reason: string)
    requires Readable(s.j) && (s.j.state != Idle ==> HasStep(s.j)) && (s.j.plan.Some? ==> s.j.state != Idle)
    ensures Starts(PauseRun(s, env, reason).effects) == Starts(s.effects)
    ensures Starts(SkipCurrent(s, env).effects) == Starts(s.effects)
  {
    if HasStep(s.j) && IsActive(s.j) {
      PauseAdds(s, env, reason);
      SkipAdds(s, env);
      if MayBeOn(s.j) { StartsAppend(s.effects, StopController(s.clock)); }
      assert s.effects + [] == s.effects;
      hide PauseRun, SkipCurrent, Starts;
    }
  }

  lemma IdleHasNoPlan(s: Exec)
    requires Rest(Any, s)
    ensures (s.j.state != Idle ==> HasStep(s.j)) && (s.j.plan.Some? ==> s.j.state != Idle)
  {}

  /** The results of the run so far. */
  function ResultsOf(s: Exec, event: Event): seq<StepResult> {
    if event.StartRunEvent? then seq(|event.plan.steps|, _ => FRESH_RESULT) else JournalOf(s, event).results
  }

  lemma StepStartsClear(s: Exec, event: Event, env: Env)
    requires Rest(Any, s)
    ensures StartsClear(s, Step(s, event, env), env, PlanOf(s, event), ResultsOf(s, event))
  {
    var s1, r := s.(clock := env.now), Step(s, event, env);
    RestReadable(Any, s);
    ClockRest(Any, s, env.now);
    IdleHasNoPlan(s);
    hide Rest, Starts, StartedFrom, StartRun, StopRun, PauseRun, ResumeOrExpire, SkipCurrent, HandleZoneState,
         HandleSensorState, HandleWeatherState, NoteObservation, Fire, Recover;
    match event {
      case StartRunEvent(plan) =>
        StartRunClear(s1, env, plan);
        SameClear(s1, s, r, env, Some(plan), ResultsOf(s, event));
      case StopEvent(reason) => StopRunKeeps(s1, env, reason);
      case PauseEvent(reason) => UserClear(s1, env, reason);
      case SkipEvent => UserClear(s1, env, "");
      case ResumeEvent => ResumeClear(s1, env); SameClear(s1, s, r, env, s.j.plan, s.j.results);
      case ZoneEvent(zone, isOn, seen) =>
        ZoneClear(s1, env, zone, isOn, seen);
        SameClear(s1, s, r, env, s.j.plan, s.j.results);
      case SensorEvent(seen) => SensorClear(s1, env, seen); SameClear(s1, s, r, env, s.j.plan, s.j.results);
      case WeatherEvent(seen) => SensorClear(s1, env, seen); SameClear(s1, s, r, env, s.j.plan, s.j.results);
      case NoteEvent(seen) => assert r.effects == s.effects by { NoteAdds(s1, seen); }
      case FireEvent(timer) =>
        if timer in s1.issued {
          FireClear(s1, env, timer);
          SameClear(s1, s, r, env, s.j.plan, s.j.results);
        }
      case RestartEvent(k) =>
        if k < |s1.written| && Shaped(s1.written[k]) {
          RecoverClear(s1, s1.written[k], env);
          SameClear(s1, s, r, env, PlanOf(s, event), ResultsOf(s, event));
        }
    }
  }

  lemma NoteAdds(s: Exec, o: Observation)
    ensures NoteObservation(s, o).effects == s.effects
  {}

  lemma ResumeClear(s: Exec, env: Env)
    requires Readable(s.j)
    ensures StartsClear(s, ResumeRun(s, env), env, s.j.plan, s.j.results)
  {
    var s1 := s.(j := s.j.(pausedReason := None));
    hide Starts, ResumeOrExpire, StartedFrom;
    if IsPaused(s.j) && s.j.plan.Some? {
      ResumeOrExpireClear(s1, env);
      SameClear(s1, s, ResumeOrExpire(s1, env), env, s.j.plan, s.j.results);
    }
  }

  /** In every execution, a start command is sent only for a step of the run at hand that was
      clear to start by what was last observed, and whose zone could be resolved. */
  lemma {:induction false} EveryStartIsClear(trace: Trace, k: nat)
    requires k < |trace|
    ensures var (s, event, env) := (Run(INITIAL, trace[..k]), trace[k].0, trace[k].1);
      StartsClear(s, Step(s, event, env), env, PlanOf(s, event), ResultsOf(s, event))
  {
    hide Run, Step, Rest, StartsClear, PlanOf, ResultsOf;
    EverythingIsAdmissible(INITIAL, trace[..k]);
    InitialRest(Any);
    RunRest(Any, INITIAL, trace[..k]);
    StepStartsClear(Run(INITIAL, trace[..k]), trace[k].0, trace[k].1);
  }
}
