/** What a crash loses: the journal that the executor holds between two lock holds is one that
    it has written, apart from its last observation. */
module ExecutorJournal {
  import opened Domain
  import opened ExecutorSpec
  import opened ExecutorInvariant
  import opened ExecutorRuns
  import Dedup

  /** The same journal, whatever was observed last. */
  predicate SameButSeen(a: Journal, b: Journal) { a.(lastObservation := None) == b.(lastObservation := None) }

  /** Nothing but the last observation changed, or the journal was written after its last change. */
  predicate Saves(s: Exec, r: Exec) {
    || (r.written == s.written && SameButSeen(r.j, s.j))
    || Persists(s, r)
  }

  /** The same, and the journal was written, come what may. */
  predicate Persists(s: Exec, r: Exec) {
    s.written <= r.written && |r.written| > |s.written| && SameButSeen(r.j, r.written[|r.written| - 1])
  }

  lemma After(s: Exec, m: Exec, r: Exec)
    requires s.written <= m.written
    ensures Persists(m, r) ==> Persists(s, r)
    ensures Saves(s, m) && Saves(m, r) ==> Saves(s, r)
  {}

  lemma FinishPersists(s: Exec, outcome: RunOutcome, reason: Option<Reason>)
    ensures Persists(s, FinishRun(s, outcome, reason))
  {
    hide Dedup.Record;
  }

  lemma SkipRunPersists(s: Exec, reason: Reason, whenWatered: RunOutcome)
    ensures Persists(s, SkipRunFor(s, reason, whenWatered))
  {
    var s1 := SkipRemaining(s, reason);
    FinishPersists(s1, if AnyCompleted(s1.j.results) then whenWatered else RunSkipped, Some(reason));
    hide FinishRun, SkipAll, AnyCompleted;
  }

  lemma EndPersists(s: Exec, status: StepStatus, why: Reason, skip: Reason, outcome: RunOutcome, reason: Reason)
    ensures Persists(s, FinishRun(SkipRemaining(EndStep(s, s.j.index, status, why), skip), outcome, Some(reason)))
  {
    FinishPersists(SkipRemaining(EndStep(s, s.j.index, status, why), skip), outcome, Some(reason));
    hide FinishRun, SkipAll;
  }

  lemma FailPersists(s: Exec, stepReason: Reason, skipReason: Reason, runReason: Reason)
    ensures Persists(s, FailRun(s, stepReason, skipReason, runReason))
  {
    EndPersists(s, StepFailed, stepReason, skipReason, RunFailed, runReason);
    hide FinishRun, SkipRemaining, EndStep;
  }

  lemma SendStopPersists(s: Exec, env: Env)
    ensures Persists(s, SendStop(s, env))
  {}

  // ---------------------------------------------------------------------
  // Starting

  lemma SendStartPersists(s: Exec, env: Env)
    requires HasStep(s.j)
    ensures Persists(s, SendStart(s, env))
  {
    var s1 := Commanded(s, env);
    var s2 := s1.(j := SetDisposition(s1.j, CommandRejected));
    FailPersists(s2, Rejected, SourceUnavailable, Rejected);
    hide FailRun;
    After(s, s1, SendStart(s, env));
  }

  lemma StartStepPersists(s: Exec, env: Env)
    requires HasStep(s.j)
    ensures Persists(s, StartStep(s, env))
  {
    hide PreStepBlock, SkipRunFor, FailRun, SendStart, Persists;
    SkipRunPersists(s, RainDelay, CompletedWithSkips);
    SkipRunPersists(s, RainSensorWet, AbortedSensor);
    SkipRunPersists(s, LowTemperature, AbortedSensor);
    PausePersists(s);
    FailPersists(s, SourceUnavailable, SourceUnavailable, ZoneUnresolved);
    SendStartPersists(s, env);
  }

  lemma PausePersists(s: Exec)
    ensures Persists(s, PauseExternal(s))
  {}

  lemma AdvancePersists(s: Exec, env: Env)
    requires s.j.plan.Some? && |s.j.results| == |s.j.plan.value.steps|
    ensures Persists(s, Advance(s, env))
  {
    FinishPersists(s, RunCompleted, None);
    FinishPersists(s, CompletedWithSkips, Some(SomeStepsSkipped));
    var next := NextPending(s.j.results);
    if next < |s.j.results| {
      StartStepPersists(s.(j := s.j.(index := next)), env);
      After(s, s.(j := s.j.(index := next)), StartStep(s.(j := s.j.(index := next)), env));
    }
    hide FinishRun, StartStep, AllCompleted;
  }

  lemma ResumePersists(s: Exec, env: Env)
    requires s.j.plan.Some? && |s.j.results| == |s.j.plan.value.steps|
    ensures Persists(s, ResumeOrExpire(s, env))
  {
    hide SkipRunFor, Advance, RunHasBegun, LatestPermissibleStart;
    var s1 := s.(j := s.j.(pausedReason := None, pausedAt := None));
    var s2 := Write(s1.(j := s1.j.(state := Waiting)));
    SkipRunPersists(s1, MissedTolerance, CompletedWithSkips);
    AdvancePersists(s2, env);
    After(s, s2, Advance(s2, env));
    After(s, s1, SkipRunFor(s1, MissedTolerance, CompletedWithSkips));
  }

  // ---------------------------------------------------------------------
  // Handlers

  lemma CompletePersists(s: Exec, env: Env, end: Instant)
    requires HasStep(s.j)
    ensures Persists(s, CompleteStep(s, env, end))
  {
    hide GapTarget;
  }

  lemma OverrunPersists(s: Exec, env: Env)
    ensures Persists(s, EnterOverrunReconcile(s, env)) && Persists(s, EnterEarlyEndReconcile(s, env))
  {}

  lemma ClassifyEarlyEndSaves(s: Exec, env: Env, o: Observation)
    requires HasStep(s.j)
    ensures Saves(s, ClassifyEarlyEnd(s, env, o))
  {
    hide FinishRun, SkipRemaining, EndStep;
    var s1 := CancelTimer(s);
    EndPersists(s1, SensorCut, RainSensorWet, RainSensorWet, AbortedSensor, RainSensorWet);
    EndPersists(s1, ExternalStop, PowerLoss, SourceUnavailable, AbortedPowerLoss, PowerLoss);
    EndPersists(s1, ExternalStop, StoppedOutside, ExternalActivity, AbortedExternal, StoppedOutside);
    var s2 := EndStep(s1, s1.j.index, SensorCut, RainSensorWet);
    assert s2.written == s.written by { EndKeepsWritten(s1, SensorCut, RainSensorWet); }
  }

  lemma EndKeepsWritten(s: Exec, status: StepStatus, why: Reason)
    ensures EndStep(s, s.j.index, status, why).written == s.written
  {}

  lemma StopOverrunPersists(s: Exec, env: Env)
    ensures Persists(s, StopOverrun(s, env))
  {
    SendStopPersists(s, env);
    var s1 := SendStop(s, env);
    EndPersists(s1, OverrunStopped, ControllerOverrun, ExternalActivity, RunFailed, ControllerOverrun);
    After(s, s1, StopOverrun(s, env));
    hide SendStop, FinishRun, SkipRemaining, EndStep;
  }

  lemma ConflictPersists(s: Exec, env: Env)
    requires HasStep(s.j)
    ensures Persists(s, ExternalConflict(s, env))
  {
    var s1 := CancelTimer(s);
    var s2 := if CurrentStatus(s1.j) == Running then EndStep(s1, s1.j.index, ExternalStop, ExternalActivity) else s1;
    FinishPersists(SkipRemaining(s2, ExternalActivity), AbortedExternal, Some(ExternalActivity));
    hide FinishRun, SkipAll, EndResult;
  }

  lemma AcceptPersists(s: Exec, env: Env, start: Instant, now: Instant)
    requires HasStep(s.j)
    ensures Persists(s, AcceptAt(s, env, start, now))
  {
    var s1 := BeginWatering(s, start, Accepted);
    CompletePersists(s1, env, s1.j.expectedEnd.value);
    After(s, s1, CompleteStep(s1, env, s1.j.expectedEnd.value));
    hide CompleteStep;
  }

  lemma RetryPersists(s: Exec, env: Env)
    requires HasStep(s.j)
    ensures Persists(s, RetryOrFail(s, env))
  {
    var s1 := s.(j := SetDisposition(s.j, CommandRejected));
    FailPersists(s1, CommandFailed, CommandFailed, CommandFailed);
    hide FailRun, LatestPermissibleStart, RetryDelay;
  }

  lemma OwnZoneSaves(s: Exec, env: Env, o: Observation)
    requires HasStep(s.j)
    ensures Saves(s, OwnZoneOn(s, o)) && Saves(s, OwnZoneOff(s, env, o))
  {
    OwnZoneOnSaves(s, o);
    hide CompleteStep, ClassifyEarlyEnd, EnterEarlyEndReconcile, OwnZoneOn;
    CompletePersists(CancelTimer(s), env, o.observedAt);
    ClassifyEarlyEndSaves(s, env, o);
    OverrunPersists(s, env);
    Unchanged(s, s);
  }

  lemma OwnZoneOnSaves(s: Exec, o: Observation)
    requires HasStep(s.j)
    ensures Saves(s, OwnZoneOn(s, o))
  {}

  /** Unchanged, or only its timer, its clock or what it saw. */
  lemma Unchanged(s: Exec, r: Exec)
    requires s.written == r.written && SameButSeen(r.j, s.j)
    ensures Saves(s, r)
  {}

  lemma ZoneDuringRunSaves(s: Exec, env: Env, zone: ZoneId, isOn: bool, o: Observation)
    requires HasStep(s.j)
    ensures Saves(s, ZoneEventDuringRun(s, env, zone, isOn, o))
  {
    hide ExternalConflict, ExternalZones, OwnZoneOn, OwnZoneOff;
    OwnZoneSaves(s, env, o);
    ConflictPersists(s, env);
  }

  lemma ZoneDuringGapSaves(s: Exec, env: Env, zone: ZoneId, isOn: bool, o: Observation)
    requires HasStep(s.j)
    ensures Saves(s, ZoneEventDuringGap(s, env, zone, isOn, o))
  {
    ConflictPersists(s, env);
    OverrunPersists(s.(j := s.j.(expectedEnd := s.j.results[s.j.index].actualEnd)), env);
    hide ExternalConflict;
  }

  lemma FreezePersists(s: Exec, env: Env)
    requires HasStep(s.j)
    ensures Persists(s, FreezeCut(s, env))
  {
    SendStopPersists(CancelTimer(s), env);
    var s1 := SendStop(CancelTimer(s), env);
    EndPersists(s1, SensorCut, LowTemperature, LowTemperature, AbortedSensor, LowTemperature);
    hide SendStop, FinishRun, SkipRemaining, EndResult;
    After(s, s1, FreezeCut(s, env));
  }

  lemma NoteSaves(s: Exec, o: Observation, r: Exec)
    ensures Saves(s, NoteObservation(s, o))
    ensures Saves(NoteObservation(s, o), r) ==> Saves(s, r)
  {}

  lemma ZoneSaves(s: Exec, env: Env, zone: ZoneId, isOn: bool, o: Observation)
    requires Readable(s.j)
    ensures Saves(s, HandleZoneState(s, env, zone, isOn, o))
  {
    hide ZoneEventDuringRun, ZoneEventDuringGap, ResumeOrExpire, SensorPauseCleared, Saves, Persists;
    var n := NoteObservation(s, o);
    NoteSaves(s, o, HandleZoneState(s, env, zone, isOn, o));
    if n.j.plan.Some? {
      ZoneDuringRunSaves(n, env, zone, isOn, o);
      ZoneDuringGapSaves(n, env, zone, isOn, o);
      ResumePersists(n, env);
      PersistsSaves(n, ResumeOrExpire(n, env));
    }
    UnchangedSaves(n);
  }

  lemma PersistsSaves(s: Exec, r: Exec)
    requires Persists(s, r)
    ensures Saves(s, r)
  {}

  lemma UnchangedSaves(s: Exec)
    ensures Saves(s, s)
  {}

  lemma WeatherSaves(s: Exec, env: Env, o: Observation)
    requires Readable(s.j)
    ensures Saves(s, HandleWeatherState(s, env, o)) && Saves(s, HandleSensorState(s, env, o))
  {
    hide FreezeCut, ResumeOrExpire, SensorPauseCleared, FreezeActive, Saves, Persists;
    var n := NoteObservation(s, o);
    NoteSaves(s, o, HandleWeatherState(s, env, o));
    NoteSaves(s, o, HandleSensorState(s, env, o));
    if n.j.plan.Some? {
      FreezePersists(n, env);
      PersistsSaves(n, FreezeCut(n, env));
      ResumePersists(n, env);
      PersistsSaves(n, ResumeOrExpire(n, env));
    }
    UnchangedSaves(n);
  }

  // ---------------------------------------------------------------------
  // Calls and callbacks

  lemma StopSaves(s: Exec, env: Env, reason: string)
    requires Readable(s.j)
    ensures Persists(s, StopRun(s, env, reason))
  {
    var s0 := RequestStop(s);
    SendStopPersists(s0, env);
    var s1 := SendStop(s0, env);
    assert s.written <= s1.written;
    assert IsActive(s.j) && s.j.plan.Some? ==> HasStep(s1.j);
    hide SendStop, RequestStop;
    if IsActive(s.j) && s.j.plan.Some? {
      var s2 := SkipRemaining(EndForStop(s1, reason), UserStop);
      assert s2.written == s1.written;
      FinishPersists(s2, AbortedUser, Some(UserText(reason)));
      After(s, s2, FinishRun(s2, AbortedUser, Some(UserText(reason))));
      hide FinishRun, SkipRemaining, EndForStop;
    }
  }

  lemma UserSaves(s: Exec, env: Env, reason: string)
    requires Readable(s.j)
    ensures Saves(s, PauseRun(s, env, reason)) && Saves(s, SkipCurrent(s, env))
  {
    if s.j.plan.Some? && IsActive(s.j) {
      var s1 := LeaveStep(s, env);
      LeaveKeeps(s, env);
      hide LeaveStep, EndResult;
    }
  }

  lemma LeaveKeeps(s: Exec, env: Env)
    requires HasStep(s.j)
    ensures s.written <= LeaveStep(s, env).written
  {
    SendStopPersists(CancelTimer(s), env);
    hide SendStop;
  }

  lemma ResumeSaves(s: Exec, env: Env)
    requires Readable(s.j)
    ensures Saves(s, ResumeRun(s, env))
  {
    if IsPaused(s.j) && s.j.plan.Some? {
      var s1 := s.(j := s.j.(pausedReason := None));
      ResumePersists(s1, env);
      After(s, s1, ResumeOrExpire(s1, env));
    }
    hide ResumeOrExpire;
  }

  lemma StartRunSaves(s: Exec, env: Env, plan: RunPlan)
    ensures Saves(s, StartRun(s, env, plan).0)
  {
    var s1 := Claim(s, plan);
    assert s.written <= s1.written;
    FinishPersists(s1, RunSkipped, Some(NoExecutableSteps));
    AdvancePersists(s1, env);
    After(s, s1, FinishRun(s1, RunSkipped, Some(NoExecutableSteps)));
    After(s, s1, Advance(s1, env));
    hide FinishRun, Advance;
  }

  lemma ObserveSaves(s: Exec, env: Env, r: Exec)
    ensures Saves(s, Observe(s, env))
    ensures Saves(Observe(s, env), r) ==> Saves(s, r)
  {}

  lemma ReconcileSaves(s: Exec, env: Env)
    requires HasStep(s.j)
    ensures Saves(s, HandleConfirmOverrun(s, env))
    ensures Saves(s, HandleConfirmEarlyEnd(s, env))
    ensures Saves(s, HandleClassifyUncertain(s, env))
  {
    ConfirmOverrunSaves(s, env);
    ConfirmEarlyEndSaves(s, env);
    var m := Observe(s, env);
    ObserveSaves(s, env, HandleClassifyUncertain(s, env));
    AcceptPersists(m, env, CommandTime(m), m.clock);
    ConflictPersists(m, env);
    RetryPersists(m, env);
    hide HandleConfirmOverrun, HandleConfirmEarlyEnd, AcceptAt, ExternalConflict, RetryOrFail, ExternalZones, Observe;
  }

  lemma ConfirmOverrunSaves(s: Exec, env: Env)
    requires HasStep(s.j)
    ensures Saves(s, HandleConfirmOverrun(s, env))
  {
    var m := Observe(s, env);
    ObserveSaves(s, env, HandleConfirmOverrun(s, env));
    CompletePersists(m, env, EndOrNow(m));
    StopOverrunPersists(m, env);
    hide CompleteStep, StopOverrun, OnPastEnd, Observe;
  }

  lemma ConfirmEarlyEndSaves(s: Exec, env: Env)
    requires HasStep(s.j)
    ensures Saves(s, HandleConfirmEarlyEnd(s, env))
  {
    var m := Observe(s, env);
    ObserveSaves(s, env, HandleConfirmEarlyEnd(s, env));
    if m.j.lastObservation.Some? {
      ClassifyEarlyEndSaves(m.(context := NoContext), env, m.j.lastObservation.value);
      After(m, m.(context := NoContext), ClassifyEarlyEnd(m.(context := NoContext), env, m.j.lastObservation.value));
    }
    hide ClassifyEarlyEnd, Observe;
  }

  lemma RetryStepSaves(s: Exec, env: Env)
    requires HasStep(s.j)
    ensures Saves(s, HandleRetryStep(s, env))
  {
    var s1 := s.(j := s.j.(state := Waiting));
    StartStepPersists(s1, env);
    After(s, s1, StartStep(s1, env));
    hide StartStep;
  }

  lemma ExpectedEndSaves(s: Exec, env: Env)
    requires HasStep(s.j)
    ensures Saves(s, HandleExpectedEnd(s, env))
  {
    CompletePersists(s, env, EndOrNow(s));
    OverrunPersists(s, env);
    hide CompleteStep, OnPastEnd;
  }

  lemma DispatchSaves(s: Exec, env: Env, handler: Handler)
    requires Readable(s.j)
    ensures Saves(s, Dispatch(s, env, handler))
  {
    hide HandleExpectedEnd, HandleConfirmOverrun, HandleConfirmEarlyEnd, HandleClassifyUncertain, HandleRetryStep,
      SendStop, Advance;
    SendStopPersists(s, env);
    if s.j.plan.Some? {
      ExpectedEndSaves(s, env);
      AdvancePersists(s, env);
      ReconcileSaves(s, env);
      RetryStepSaves(s, env);
    }
  }

  lemma FireSaves(s: Exec, env: Env, t: Timer)
    requires Readable(s.j)
    ensures Saves(s, Fire(s, env, t))
  {
    var f := s.(issued := s.issued - {t}, timer := None);
    DispatchSaves(f, env, t.handler);
    After(s, f, Dispatch(f, env, t.handler));
    hide Dispatch;
  }

  // ---------------------------------------------------------------------
  // Recovery

  lemma ExpirePersists(s: Exec, env: Env, end: Instant)
    requires HasStep(s.j)
    ensures Persists(s, CompleteOrExpire(s, env, end))
  {
    hide CompleteStep, FinishRun, SkipRemaining, EndStep;
    CompletePersists(s, env, end);
    EndPersists(s, Completed, RestartMissedTolerance, RestartMissedTolerance, CompletedWithSkips,
                RestartMissedTolerance);
  }

  lemma RecoverEndSaves(s: Exec, env: Env, o: Option<Observation>, zoneActive: bool)
    requires HasStep(s.j)
    ensures Saves(s, RecoverWatering(s, env, zoneActive)) && Saves(s, RecoverEndReconcile(s, env, o, zoneActive))
  {
    hide CompleteStep, CompleteOrExpire, ClassifyEarlyEnd, EnterOverrunReconcile, EnterEarlyEndReconcile;
    CompletePersists(s, env, EndOrNow(s));
    ExpirePersists(s, env, EndOrNow(s));
    OverrunPersists(s, env);
    if o.Some? { ClassifyEarlyEndSaves(s, env, o.value); }
  }

  lemma RecoverStartSaves(s: Exec, env: Env, zoneActive: bool)
    requires HasStep(s.j)
    ensures Saves(s, RecoverStart(s, env, zoneActive))
  {
    hide AcceptAt, StartStep, SkipRunFor, LatestPermissibleStart;
    var s1 := Write(s.(j := s.j.(state := Waiting)));
    AcceptPersists(s, env, CommandTime(s), s.clock);
    StartStepPersists(s1, env);
    After(s, s1, StartStep(s1, env));
    SkipRunPersists(s, RestartMissedTolerance, CompletedWithSkips);
  }

  lemma RecoverSaves(s: Exec, env: Env)
    requires Shaped(s.j)
    ensures Saves(s, Recover(s, env))
  {
    var m := Observe(s, env);
    ObserveSaves(s, env, Recover(s, env));
    UnchangedSaves(s);
    if IsActive(s.j) && s.j.plan.Some? {
      RecoverLockedSaves(m, env, env.read);
    }
    hide RecoverLocked, Saves, Observe;
  }

  lemma RecoverLockedSaves(s: Exec, env: Env, o: Option<Observation>)
    requires s.j.plan.Some? && Shaped(s.j)
    ensures Saves(s, RecoverLocked(s, env, o))
  {
    hide FinishRun, SkipRemaining, RecoverWatering, RecoverEndReconcile, RecoverStart, ForeignZones, EndContext,
         GapTarget;
    FinishPersists(s, CompletedWithSkips, Some(RecoveredPastEnd));
    assert SkipRemaining(s, UserStop).written == s.written by { SkipKeepsWritten(s); }
    FinishPersists(SkipRemaining(s, UserStop), AbortedUser, Some(UserStop));
    if HasStep(s.j) {
      RecoverEndSaves(s, env, o, o.Some? && CurrentStep(s.j).zone in o.value.active);
      RecoverStartSaves(s, env, o.Some? && CurrentStep(s.j).zone in o.value.active);
    }
  }

  lemma SkipKeepsWritten(s: Exec)
    ensures SkipRemaining(s, UserStop).written == s.written
  {}

  // ---------------------------------------------------------------------
  // Whole executions

  lemma StepSaves(s: Exec, event: Event, env: Env)
    requires Rest(Any, s) && !event.RestartEvent?
    ensures Saves(s, Step(s, event, env))
  {
    var s1 := s.(clock := env.now);
    RestReadable(Any, s);
    hide Rest, StartRun, StopRun, PauseRun, ResumeRun, SkipCurrent, HandleZoneState, HandleSensorState,
         HandleWeatherState, Fire, Persists;
    After(s, s1, Step(s, event, env));
    Unchanged(s, s1);
    UnchangedSaves(s1);
    match event {
      case StartRunEvent(plan) => StartRunSaves(s1, env, plan);
      case StopEvent(reason) => StopSaves(s1, env, reason);
      case PauseEvent(reason) => UserSaves(s1, env, reason);
      case ResumeEvent => ResumeSaves(s1, env);
      case SkipEvent => UserSaves(s1, env, "");
      case ZoneEvent(zone, isOn, seen) => ZoneSaves(s1, env, zone, isOn, seen);
      case SensorEvent(seen) => WeatherSaves(s1, env, seen);
      case WeatherEvent(seen) => WeatherSaves(s1, env, seen);
      case NoteEvent(seen) => NoteSaves(s1, seen, s1);
      case FireEvent(timer) => FireSaves(s1, env, timer);
    }
  }

  /** The journal is one of those that were written, apart from its last observation, or none
      has been written yet. */
  predicate Saved(s: Exec) {
    (s.written == [] && SameButSeen(s.j, EMPTY_JOURNAL)) ||
    exists k :: 0 <= k < |s.written| && SameButSeen(s.j, s.written[k])
  }

  lemma SavesSaved(s: Exec, r: Exec)
    requires Saved(s) && Saves(s, r)
    ensures Saved(r)
  {
    if r.written == s.written && s.written != [] {
      var k :| 0 <= k < |s.written| && SameButSeen(s.j, s.written[k]);
      assert SameButSeen(r.j, r.written[k]);
    }
  }

  lemma StepSaved(s: Exec, event: Event, env: Env)
    requires Rest(Any, s) && Saved(s)
    ensures Saved(Step(s, event, env))
  {
    RestReadable(Any, s);
    hide Rest, Recover;
    if event.RestartEvent? {
      if event.write < |s.written| {
        var b := Reboot(s.(clock := env.now), s.written[event.write]);
        assert SameButSeen(b.j, b.written[event.write]);
        RecoverSaves(b, env);
        SavesSaved(b, Recover(b, env));
      } else {
        SavesSaved(s, s.(clock := env.now));
      }
    } else {
      StepSaves(s, event, env);
      hide Step;
      SavesSaved(s, Step(s, event, env));
    }
  }

  lemma {:induction false} RunSaved(s: Exec, trace: Trace)
    requires Rest(Any, s) && Saved(s)
    ensures Saved(Run(s, trace))
    decreases |trace|
  {
    hide Rest, Step, Saved;
    if trace != [] {
      StepSaved(s, trace[0].0, trace[0].1);
      StepRest(Any, s, trace[0].0, trace[0].1);
      RunSaved(Step(s, trace[0].0, trace[0].1), trace[1..]);
    }
  }

  /** In every execution the journal between two lock holds is one that was written: a crash
      there loses nothing of the run but what was observed last. */
  lemma {:induction false} EveryStateIsJournaled(trace: Trace)
    ensures Saved(Run(INITIAL, trace))
  {
    hide Rest, Run;
    InitialRest(Any);
    RunSaved(INITIAL, trace);
  }

  /** Without a restart in between, it is the one that was written last. */
  lemma {:induction false} LastWrittenIsCurrent(trace: Trace)
    requires forall k :: 0 <= k < |trace| ==> !trace[k].0.RestartEvent?
    ensures var s := Run(INITIAL, trace);
      SameButSeen(s.j, if s.written == [] then EMPTY_JOURNAL else s.written[|s.written| - 1])
  {
    InitialRest(Any);
    hide Rest, Run;
    RunSavesLast(INITIAL, trace);
  }

  lemma {:induction false} RunSavesLast(s: Exec, trace: Trace)
    requires Rest(Any, s) && forall k :: 0 <= k < |trace| ==> !trace[k].0.RestartEvent?
    requires SameButSeen(s.j, if s.written == [] then EMPTY_JOURNAL else s.written[|s.written| - 1])
    ensures var r := Run(s, trace);
      SameButSeen(r.j, if r.written == [] then EMPTY_JOURNAL else r.written[|r.written| - 1])
    decreases |trace|
  {
    hide Rest, Step;
    if trace != [] {
      StepSaves(s, trace[0].0, trace[0].1);
      StepRest(Any, s, trace[0].0, trace[0].1);
      assert forall k :: 0 <= k < |trace[1..]| ==> trace[1..][k] == trace[k + 1];
      RunSavesLast(Step(s, trace[0].0, trace[0].1), trace[1..]);
    }
  }
}
