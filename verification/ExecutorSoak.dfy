/** On-plan executions keep the soak and the gap between zones, across restarts too: no step
    starts before its soak is over, and everything before it has run and ended the gap ago. */
module ExecutorSoak {
  import opened Domain
  import opened ExecutorSpec
  import opened ExecutorInvariant
  import opened ExecutorFrames
  import opened ExecutorRecovery
  import opened ExecutorRuns
  import opened ExecutorTermination
  import opened ExecutorOnce

  /** What the world keeps to. `Spaced(gap)`: every configuration asks for that gap between
      zones or a longer one, and no zone report comes from the future. */
  datatype Pace = AnyPace | Spaced(gap: nat)

  function GapOf(pace: Pace): nat { if pace.Spaced? then pace.gap else 0 }

  predicate Paced(pace: Pace, env: Env) { pace.Spaced? ==> env.config.interZoneGap >= pace.gap }

  /** Not before the compiled start, if the step has a soak to wait for. */
  predicate SoakOver(plan: RunPlan, i: nat, t: Instant)
    requires i < |plan.steps|
  {
    plan.steps[i].soakBefore ==> plan.steps[i].plannedStart <= t
  }

  /** The step has run; where reports can be trusted, to an end by time t. */
  predicate HasRun(pace: Pace, r: StepResult, t: Instant) {
    && r.status == Completed && r.actualStart.Some?
    && (pace.Spaced? ==> r.actualEnd.Some? && r.actualEnd.value <= t)
  }

  /** While steps are left to start, the ones that are over have run to their end. */
  predicate AllHaveRun(pace: Pace, results: seq<StepResult>, t: Instant) {
    forall k, m ::
      0 <= k < |results| && 0 <= m < |results| && Terminal(results[k].status) && results[m].status == Pending ==>
        HasRun(pace, results[k], t)
  }

  predicate InOrder(pace: Pace, j: Journal, t: Instant)
    requires HasStep(j)
  {
    AllHaveRun(pace, j.results, t) && (CurrentStatus(j) == Running ==> j.results[j.index].actualStart.Some?)
  }

  /** Step i may start: its soak is over, and so is the gap after the steps before it. */
  predicate Due(pace: Pace, j: Journal, i: nat, t: Instant)
    requires j.plan.Some? && i < |j.plan.value.steps|
  {
    SoakOver(j.plan.value, i, t) && AllHaveRun(pace, j.results, t - GapOf(pace))
  }

  /** While steps are left to start, `end` is not in the future. */
  predicate EndPast(pace: Pace, s: Exec, end: Instant) {
    pace.Spaced? && NextPending(s.j.results) < |s.j.results| ==> end <= s.clock
  }

  /** The next start that the state leads to is due by then. */
  predicate StartHeld(pace: Pace, s: Exec) {
    && HasStep(s.j) && InOrder(pace, s.j, s.clock)
    && (s.j.state == InterZoneGap ==>
         var next := NextPending(s.j.results);
         s.timer.Some? && (next < |s.j.results| ==> Due(pace, s.j, next, s.timer.value.when)))
    && (s.j.state == Reconciling && s.context == StartContext ==> Due(pace, s.j, s.j.index, s.clock))
    && (s.j.state == Reconciling && s.context == OverrunContext ==> EndPast(pace, s, EndOrNow(s)))
  }

  /** What a recovery from time t on may start out from: a step that is still to be started
      was due when it was journaled. */
  predicate JournalHeld(pace: Pace, j: Journal, t: Instant) {
    HasStep(j) && !IsPaused(j) && !StopWins(j) ==>
      && InOrder(pace, j, t)
      && (CurrentStatus(j) == Pending && j.state in {Waiting, Starting, Reconciling} ==>
            Due(pace, j, j.index, t))
  }

  predicate LogHeld(pace: Pace, s: Exec) {
    forall k :: 0 <= k < |s.written| ==> JournalHeld(pace, s.written[k], s.clock)
  }

  /** A lock hold: it adds only such journals, and settles the run, pauses, or holds the next start. */
  predicate Holds(pace: Pace, s: Exec, r: Exec) {
    s.clock <= r.clock && (LogHeld(pace, s) ==> LogHeld(pace, r)) && (SettledRun(r) || StartHeld(pace, r))
  }

  // ---------------------------------------------------------------------
  // Journal writes

  lemma LaterHeld(pace: Pace, j: Journal, t: Instant, u: Instant)
    requires JournalHeld(pace, j, t) && t <= u
    ensures JournalHeld(pace, j, u)
  {}

  lemma LaterLog(pace: Pace, s: Exec, r: Exec)
    requires LogHeld(pace, s) && s.written == r.written && s.clock <= r.clock
    ensures LogHeld(pace, r)
  {
    forall k | 0 <= k < |r.written| ensures JournalHeld(pace, r.written[k], r.clock) {
      LaterHeld(pace, s.written[k], s.clock, r.clock);
    }
    hide JournalHeld;
  }

  lemma WriteHeld(pace: Pace, s: Exec)
    requires LogHeld(pace, s) && JournalHeld(pace, s.j, s.clock)
    ensures LogHeld(pace, Write(s))
  {
    hide JournalHeld;
  }

  lemma FinishHolds(pace: Pace, s: Exec, outcome: RunOutcome, reason: Option<Reason>)
    requires NextPending(s.j.results) == |s.j.results|
    requires HasStep(s.j) && CurrentStatus(s.j) == Running ==> s.j.results[s.j.index].actualStart.Some?
    ensures Holds(pace, s, FinishRun(s, outcome, reason))
  {
    var recorded := s.j.(completed := if s.j.plan.Some?
      then Dedup.Record(s.j.completed, s.j.plan.value.occurrence, s.clock) else s.j.completed);
    assert JournalHeld(pace, recorded, s.clock) by { hide Dedup.Record; }
    FinishSettles(s, outcome, reason);
    var r := FinishRun(s, outcome, reason);
    assert r.j.plan.None? && r.clock == s.clock;
    assert JournalHeld(pace, r.j, s.clock) by { hide FinishRun, InOrder; }
    assert r.written == if s.j.plan.Some? then s.written + [recorded] + [r.j] else s.written + [r.j];
    hide FinishRun, JournalHeld, SettledRun;
  }

  lemma SkipFinishHolds(pace: Pace, s: Exec, skip: Reason, outcome: RunOutcome, reason: Option<Reason>)
    ensures Holds(pace, s, FinishRun(SkipRemaining(s, skip), outcome, reason))
  {
    var s1 := SkipRemaining(s, skip);
    assert LogHeld(pace, s) <==> LogHeld(pace, s1) by { hide JournalHeld, SkipAll; }
    assert NextPending(s1.j.results) == |s1.j.results| by { NoneLeft(s1.j.results); }
    hide FinishRun, SkipAll, NextPending, LogHeld, SettledRun, StartHeld;
    FinishHolds(pace, s1, outcome, reason);
  }

  lemma {:induction false} NoneLeft(results: seq<StepResult>)
    requires forall k :: 0 <= k < |results| ==> results[k].status != Pending
    ensures NextPending(results) == |results|
  {}

  lemma EndFinishHolds(
    pace: Pace, s: Exec, status: StepStatus, why: Reason, skip: Reason, outcome: RunOutcome, reason: Reason)
    ensures Holds(pace, s, FinishRun(SkipRemaining(EndStep(s, s.j.index, status, why), skip), outcome, Some(reason)))
  {
    var s1 := EndStep(s, s.j.index, status, why);
    assert LogHeld(pace, s) <==> LogHeld(pace, s1) by { hide JournalHeld, EndResult; }
    hide FinishRun, SkipRemaining, LogHeld, SettledRun, StartHeld, EndStepIn;
    SkipFinishHolds(pace, s1, skip, outcome, Some(reason));
  }

  lemma SkipRunForHolds(pace: Pace, s: Exec, reason: Reason, whenWatered: RunOutcome)
    ensures Holds(pace, s, SkipRunFor(s, reason, whenWatered))
  {
    hide FinishRun, SkipRemaining, Holds, AnyCompleted;
    SkipFinishHolds(pace, s, reason, whenWatered, Some(reason));
    SkipFinishHolds(pace, s, reason, RunSkipped, Some(reason));
  }

  lemma FailRunHolds(pace: Pace, s: Exec, stepReason: Reason, skipReason: Reason, runReason: Reason)
    ensures Holds(pace, s, FailRun(s, stepReason, skipReason, runReason))
  {
    hide FinishRun, SkipRemaining, EndStep, Holds;
    EndFinishHolds(pace, s, StepFailed, stepReason, skipReason, RunFailed, runReason);
  }

  /** A stop command while the step is not waiting for its start. */
  lemma SendStopHeld(pace: Pace, s: Exec, env: Env)
    requires LogHeld(pace, s)
    requires HasStep(s.j) && !IsPaused(s.j) && !StopWins(s.j) ==>
      InOrder(pace, s.j, s.clock) && CurrentStatus(s.j) != Pending
    ensures var r := SendStop(s, env); LogHeld(pace, r) && s.clock <= r.clock
  {
    forall p, u, t | t >= s.clock ensures JournalHeld(pace, s.j.(pending := p, uncertainCount := u), t) {}
    var s1 := CommandStop(s, env);
    assert LogHeld(pace, s1) by {
      WriteHeld(pace, s.(j := s.j.(pending := Some(StopCommand(s.clock, Intended)))));
      LaterLog(pace, Write(s.(j := s.j.(pending := Some(StopCommand(s.clock, Intended))))), s1);
      hide JournalHeld;
    }
    hide JournalHeld;
  }

  lemma PauseHolds(pace: Pace, s: Exec)
    ensures Holds(pace, s, PauseExternal(s))
  {
    var r := PauseExternal(s);
    assert JournalHeld(pace, r.j, s.clock);
    hide JournalHeld;
  }

  lemma Then(pace: Pace, s: Exec, m: Exec, r: Exec)
    requires s.clock <= m.clock && (LogHeld(pace, s) ==> LogHeld(pace, m)) && Holds(pace, m, r)
    ensures Holds(pace, s, r)
  {
    hide LogHeld, SettledRun, StartHeld;
  }

  // ---------------------------------------------------------------------
  // Handlers

  lemma CompleteHolds(pace: Pace, s: Exec, env: Env, end: Instant)
    requires Paced(pace, env) && EndPast(pace, s, end)
    requires HasStep(s.j) && InOrder(pace, s.j, s.clock) && CurrentStatus(s.j) != Pending
    ensures Holds(pace, s, CompleteStep(s, env, end))
  {
    var r := CompleteStep(s, env, end);
    var s1 := Write(s.(j := r.j, context := NoContext));
    assert r.timer.value.when == GapTarget(s1, env);
    assert InOrder(pace, r.j, r.clock);
    assert LogHeld(pace, s) ==> LogHeld(pace, s1) by {
      if LogHeld(pace, s) { WriteHeld(pace, s.(j := r.j, context := NoContext)); }
      hide InOrder, GapTarget;
    }
    hide JournalHeld, InOrder;
  }

  lemma OverrunHolds(pace: Pace, s: Exec, env: Env)
    requires EndPast(pace, s, EndOrNow(s))
    requires HasStep(s.j) && InOrder(pace, s.j, s.clock) && CurrentStatus(s.j) != Pending
    ensures Holds(pace, s, EnterOverrunReconcile(s, env))
  {
    var j := s.j.(state := Reconciling);
    assert JournalHeld(pace, j, s.clock) && InOrder(pace, j, s.clock);
    hide JournalHeld, InOrder;
  }

  lemma EarlyEndHolds(pace: Pace, s: Exec, env: Env)
    requires HasStep(s.j) && InOrder(pace, s.j, s.clock) && CurrentStatus(s.j) != Pending
    ensures Holds(pace, s, EnterEarlyEndReconcile(s, env))
  {
    var j := s.j.(state := Reconciling);
    assert JournalHeld(pace, j, s.clock) && InOrder(pace, j, s.clock);
    hide JournalHeld, InOrder;
  }

  lemma ExpectedEndHolds(pace: Pace, s: Exec, env: Env)
    requires Paced(pace, env) && EndPast(pace, s, EndOrNow(s))
    requires HasStep(s.j) && InOrder(pace, s.j, s.clock) && s.j.state == Watering && CurrentStatus(s.j) != Pending
    ensures Holds(pace, s, HandleExpectedEnd(s, env))
  {
    hide CompleteStep, EnterOverrunReconcile, OnPastEnd, Holds, InOrder;
    CompleteHolds(pace, s, env, EndOrNow(s));
    OverrunHolds(pace, s, env);
  }

  lemma ObserveHeld(pace: Pace, s: Exec, env: Env)
    requires HasStep(s.j)
    ensures var r := Observe(s, env);
      && HasStep(r.j) && r.clock >= s.clock && (LogHeld(pace, s) ==> LogHeld(pace, r))
      && CurrentStatus(r.j) == CurrentStatus(s.j) && (InOrder(pace, s.j, s.clock) ==> InOrder(pace, r.j, r.clock))
      && (EndPast(pace, s, EndOrNow(s)) ==> EndPast(pace, r, EndOrNow(r)))
      && r == s.(j := s.j.(lastObservation := r.j.lastObservation), clock := r.clock)
  {
    var r := Observe(s, env);
    if LogHeld(pace, s) { LaterLog(pace, s, r); }
    hide LogHeld;
  }

  lemma ConfirmOverrunHolds(pace: Pace, s: Exec, env: Env)
    requires Paced(pace, env) && EndPast(pace, s, EndOrNow(s))
    requires HasStep(s.j) && InOrder(pace, s.j, s.clock) && CurrentStatus(s.j) != Pending
    requires s.j.state == Reconciling && s.context == OverrunContext
    ensures Holds(pace, s, HandleConfirmOverrun(s, env))
  {
    ObserveHeld(pace, s, env);
    var s1 := Observe(s, env);
    assert Holds(pace, s1, HandleConfirmOverrun(s, env)) by {
      hide CompleteStep, OnPastEnd, Observe, StopOverrun, InOrder, LogHeld;
      CompleteHolds(pace, s1, env, EndOrNow(s1));
      StopOverrunHolds(pace, s1, env);
    }
    hide HandleConfirmOverrun, Observe, LogHeld, Holds;
    Then(pace, s, s1, HandleConfirmOverrun(s, env));
  }

  lemma StopOverrunHolds(pace: Pace, s: Exec, env: Env)
    requires HasStep(s.j) && InOrder(pace, s.j, s.clock) && CurrentStatus(s.j) != Pending
    ensures Holds(pace, s, StopOverrun(s, env))
  {
    var s2 := SendStop(s, env);
    if LogHeld(pace, s) { SendStopHeld(pace, s, env); }
    assert s2.clock >= s.clock;
    hide SendStop, LogHeld, EndStep, SkipRemaining, FinishRun, Holds;
    EndFinishHolds(pace, s2, OverrunStopped, ControllerOverrun, ExternalActivity, RunFailed, ControllerOverrun);
    Then(pace, s, s2, StopOverrun(s, env));
  }

  lemma ClassifyEarlyEndHolds(pace: Pace, s: Exec, env: Env, o: Observation)
    requires HasStep(s.j) && !s.j.stopRequested
    ensures Holds(pace, s, ClassifyEarlyEnd(s, env, o))
  {
    var s1 := CancelTimer(s);
    assert LogHeld(pace, s) <==> LogHeld(pace, s1) by { hide JournalHeld; }
    var s2 := EndStep(s1, s1.j.index, SensorCut, RainSensorWet);
    var paused := Write(s2.(j := s2.j.(state := PausedSensor, pausedAt := Some(s2.clock))));
    assert LogHeld(pace, s1) ==> LogHeld(pace, paused) by {
      assert JournalHeld(pace, paused.j, s.clock);
      hide JournalHeld;
    }
    assert Holds(pace, s1, paused) by { hide LogHeld; }
    EndFinishHolds(pace, s1, SensorCut, RainSensorWet, RainSensorWet, AbortedSensor, RainSensorWet);
    EndFinishHolds(pace, s1, ExternalStop, PowerLoss, SourceUnavailable, AbortedPowerLoss, PowerLoss);
    EndFinishHolds(pace, s1, ExternalStop, StoppedOutside, ExternalActivity, AbortedExternal, StoppedOutside);
    hide LogHeld, EndStep, SkipRemaining, FinishRun, Holds, Write;
    Then(pace, s, s1, ClassifyEarlyEnd(s, env, o));
  }

  lemma ResumeWateringHolds(pace: Pace, s: Exec)
    requires HasStep(s.j) && InOrder(pace, s.j, s.clock)
    ensures Holds(pace, s, Write(ResumeWatering(s)))
  {
    var r := ResumeWatering(s);
    assert HasStep(r.j) && InOrder(pace, r.j, r.clock) && r.j.state == Watering && JournalHeld(pace, r.j, s.clock);
    hide JournalHeld, InOrder;
  }

  lemma ConfirmEarlyEndHolds(pace: Pace, s: Exec, env: Env)
    requires HasStep(s.j) && InOrder(pace, s.j, s.clock)
    requires s.j.state == Reconciling && s.context == EarlyEndContext && !s.j.stopRequested
    ensures Holds(pace, s, HandleConfirmEarlyEnd(s, env))
  {
    ObserveHeld(pace, s, env);
    var s1 := Observe(s, env);
    assert !s1.j.stopRequested && Holds(pace, s1, HandleConfirmEarlyEnd(s, env)) by {
      hide Observe, InOrder, LogHeld, SettledRun, StartHeld, ResumeWatering, Write;
      ResumeWateringHolds(pace, s1);
      if s1.j.lastObservation.Some? {
        hide ClassifyEarlyEnd;
        var s2 := s1.(context := NoContext);
        ClassifyEarlyEndHolds(pace, s2, env, s1.j.lastObservation.value);
        assert LogHeld(pace, s1) <==> LogHeld(pace, s2) by { SameLog(pace, s1, s2); }
      }
    }
    hide HandleConfirmEarlyEnd, Observe, LogHeld, Holds;
    Then(pace, s, s1, HandleConfirmEarlyEnd(s, env));
  }

  lemma SameLog(pace: Pace, s: Exec, r: Exec)
    requires s.written == r.written && s.clock == r.clock
    ensures LogHeld(pace, s) <==> LogHeld(pace, r)
  {}

  lemma BeginHeld(pace: Pace, s: Exec, start: Instant, d: Disposition)
    requires HasStep(s.j) && AllHaveRun(pace, s.j.results, s.clock)
    ensures var r := BeginWatering(s, start, d);
      && HasStep(r.j) && InOrder(pace, r.j, r.clock) && CurrentStatus(r.j) == Running && r.clock == s.clock
      && (LogHeld(pace, s) ==> LogHeld(pace, r)) && r.j.state == Watering
  {
    var r := BeginWatering(s, start, d);
    assert InOrder(pace, r.j, r.clock) && JournalHeld(pace, r.j, s.clock);
    hide JournalHeld, InOrder;
  }

  lemma AcceptHolds(pace: Pace, s: Exec, env: Env, start: Instant, now: Instant)
    requires Paced(pace, env) && now <= s.clock
    requires HasStep(s.j) && AllHaveRun(pace, s.j.results, s.clock)
    ensures Holds(pace, s, AcceptAt(s, env, start, now))
  {
    var s1 := BeginWatering(s, start, Accepted);
    BeginHeld(pace, s, start, Accepted);
    if s1.j.expectedEnd.value <= now { CompleteHolds(pace, s1, env, s1.j.expectedEnd.value); }
    var r := ArmAt(s1, s1.j.expectedEnd.value, OnExpectedEnd);
    assert Holds(pace, s1, r) by { SameLog(pace, s1, r); hide LogHeld, InOrder, BeginWatering; }
    hide CompleteStep, BeginWatering, InOrder, LogHeld, Holds, ArmAt;
    Then(pace, s, s1, AcceptAt(s, env, start, now));
  }

  lemma ExternalConflictHolds(pace: Pace, s: Exec, env: Env)
    requires HasStep(s.j)
    ensures Holds(pace, s, ExternalConflict(s, env))
  {
    var s1 := CancelTimer(s);
    var s2 := if CurrentStatus(s1.j) == Running then EndStep(s1, s1.j.index, ExternalStop, ExternalActivity) else s1;
    SameLog(pace, s, s2);
    hide LogHeld, SkipRemaining, EndStep, FinishRun, Holds, PauseExternal;
    PauseHolds(pace, s2);
    SkipFinishHolds(pace, s2, ExternalActivity, AbortedExternal, Some(ExternalActivity));
    Then(pace, s, s2, ExternalConflict(s, env));
  }

  /** An uncertain start that was sent after the soak. */
  predicate OpenStart(pace: Pace, s: Exec) {
    && HasStep(s.j) && InOrder(pace, s.j, s.clock) && s.j.state == Reconciling && s.context == StartContext
    && Due(pace, s.j, s.j.index, s.clock)
  }

  lemma OpenWriteHolds(pace: Pace, s: Exec)
    requires OpenStart(pace, s)
    ensures Holds(pace, s, Write(s))
  {
    assert JournalHeld(pace, s.j, s.clock);
    hide JournalHeld, InOrder;
  }

  lemma RetryOrFailHolds(pace: Pace, s: Exec, env: Env)
    requires OpenStart(pace, s)
    ensures Holds(pace, s, RetryOrFail(s, env))
  {
    hide LogHeld, FailRun, Holds, LatestPermissibleStart, RetryDelay, InOrder, Write, ArmIn, Due, AllHaveRun;
    var s1 := s.(j := SetDisposition(s.j, CommandRejected));
    var s2 := s1.(j := s1.j.(retryCount := s1.j.retryCount + 1));
    StillOpen(pace, s, s2);
    RetryArmHolds(pace, s2, RetryDelay(s1.j.results[s1.j.index].attempts));
    var r := ArmIn(Write(s2), RetryDelay(s1.j.results[s1.j.index].attempts), RetryStep);
    SameLog(pace, s, s1);
    SameLog(pace, s, s2);
    FailRunHolds(pace, s1, CommandFailed, CommandFailed, CommandFailed);
    Then(pace, s, s1, FailRun(s1, CommandFailed, CommandFailed, CommandFailed));
    Then(pace, s, s2, r);
  }

  lemma StillOpen(pace: Pace, s: Exec, r: Exec)
    requires OpenStart(pace, s) && r.clock == s.clock && r.context == s.context
    requires r.j == s.j.(pending := r.j.pending, retryCount := r.j.retryCount)
    ensures OpenStart(pace, r)
  {
    SameInOrder(pace, s.j, r.j, s.clock);
    hide InOrder, AllHaveRun;
  }

  lemma RetryArmHolds(pace: Pace, s: Exec, delay: int)
    requires OpenStart(pace, s)
    ensures Holds(pace, s, ArmIn(Write(s), delay, RetryStep))
  {
    OpenWriteHolds(pace, s);
    SameLog(pace, Write(s), ArmIn(Write(s), delay, RetryStep));
    hide LogHeld, InOrder, Due;
  }

  lemma ClassifyUncertainHolds(pace: Pace, s: Exec, env: Env)
    requires Paced(pace, env)
    requires OpenStart(pace, s)
    ensures Holds(pace, s, HandleClassifyUncertain(s, env))
  {
    ObserveHeld(pace, s, env);
    var s1 := Observe(s, env);
    assert OpenStart(pace, s1);
    assert Holds(pace, s1, HandleClassifyUncertain(s, env)) by {
      hide Observe, AcceptAt, ExternalConflict, RetryOrFail, ExternalZones, LogHeld, Holds;
      AcceptHolds(pace, s1, env, CommandTime(s1), s1.clock);
      ExternalConflictHolds(pace, s1, env);
      RetryOrFailHolds(pace, s1, env);
    }
    hide HandleClassifyUncertain, Observe, LogHeld, Holds;
    Then(pace, s, s1, HandleClassifyUncertain(s, env));
  }

  // Zone and weather events

  lemma AcknowledgeHolds(pace: Pace, s: Exec)
    requires StartHeld(pace, s) && (s.j.state == Watering || s.j.state == Reconciling)
    requires s.j.state == Reconciling && CurrentStatus(s.j) == Pending ==> s.context == StartContext
    ensures var r := Acknowledge(s); Holds(pace, s, r) && StartHeld(pace, r)
  {
    var r := Acknowledge(s);
    assert HasStep(r.j) && CurrentStatus(r.j) == CurrentStatus(s.j) && JournalHeld(pace, r.j, s.clock);
    hide JournalHeld, InOrder;
  }

  lemma AcceptedNowHolds(pace: Pace, s: Exec, start: Instant)
    requires HasStep(s.j) && AllHaveRun(pace, s.j.results, s.clock)
    ensures var r := AcceptedNow(s, start); Holds(pace, s, ArmAt(r, r.j.expectedEnd.value, OnExpectedEnd))
  {
    var r := AcceptedNow(s, start);
    assert InOrder(pace, r.j, r.clock) && JournalHeld(pace, r.j, s.clock);
    hide JournalHeld, InOrder;
  }

  lemma OwnZoneOnHolds(pace: Pace, s: Exec, o: Observation)
    requires StartHeld(pace, s) && (s.j.state == Watering || s.j.state == Reconciling)
    requires s.j.state == Reconciling && CurrentStatus(s.j) == Pending ==> s.context == StartContext
    ensures Holds(pace, s, OwnZoneOn(s, o))
  {
    AcknowledgeHolds(pace, s);
    var s1 := Acknowledge(s);
    assert AllHaveRun(pace, s1.j.results, s1.clock) && s1.j.state == s.j.state && s1.context == s.context;
    hide Acknowledge, LogHeld, Write, ResumeWatering, AcceptedNow, ArmAt, SettledRun;
    ResumeWateringHolds(pace, s1);
    AcceptedNowHolds(pace, s1, o.observedAt);
    var r := OwnZoneOn(s, o);
    assert r == s1 || Holds(pace, s1, r);
    if r != s1 { Then(pace, s, s1, r); }
  }

  lemma OwnZoneOffHolds(pace: Pace, s: Exec, env: Env, o: Observation)
    requires Paced(pace, env) && EndPast(pace, s, o.observedAt)
    requires StartHeld(pace, s) && (s.j.state == Watering ==> CurrentStatus(s.j) != Pending) && !s.j.stopRequested
    ensures Holds(pace, s, OwnZoneOff(s, env, o))
  {
    var s1 := CancelTimer(s);
    SameLog(pace, s, s1);
    assert Holds(pace, s, s) && InOrder(pace, s1.j, s1.clock);
    hide LogHeld, CompleteStep, ClassifyEarlyEnd, EnterEarlyEndReconcile, Holds, InOrder, AllHaveRun;
    if s.j.state == Watering && s.j.expectedEnd.Some? {
      if o.observedAt >= s.j.expectedEnd.value - env.config.earlyEndTolerance {
        CompleteHolds(pace, s1, env, o.observedAt);
        Then(pace, s, s1, CompleteStep(s1, env, o.observedAt));
      } else if o.Wet() || !o.sourceAvailable {
        ClassifyEarlyEndHolds(pace, s, env, o);
      } else {
        EarlyEndHolds(pace, s, env);
      }
    }
  }

  lemma SameInOrder(pace: Pace, j: Journal, r: Journal, t: Instant)
    requires HasStep(j) && HasStep(r) && j.results == r.results && j.index == r.index
    ensures InOrder(pace, j, t) <==> InOrder(pace, r, t)
  {}

  lemma ZoneDuringRunHolds(pace: Pace, s: Exec, env: Env, zone: ZoneId, isOn: bool, o: Observation)
    requires Paced(pace, env) && EndPast(pace, s, o.observedAt)
    requires StartHeld(pace, s) && (s.j.state == Watering || s.j.state == Reconciling) && !s.j.stopRequested
    requires s.j.state == Reconciling && CurrentStatus(s.j) == Pending ==> s.context == StartContext
    requires s.j.state == Watering ==> CurrentStatus(s.j) != Pending
    ensures Holds(pace, s, ZoneEventDuringRun(s, env, zone, isOn, o))
  {
    assert Holds(pace, s, s);
    hide ExternalConflict, ExternalZones, OwnZoneOn, OwnZoneOff, Holds, StartHeld;
    assert HasStep(s.j) by { HeldHasStep(pace, s); }
    ExternalConflictHolds(pace, s, env);
    OwnZoneOnHolds(pace, s, o);
    OwnZoneOffHolds(pace, s, env, o);
  }

  lemma HeldHasStep(pace: Pace, s: Exec)
    requires StartHeld(pace, s)
    ensures HasStep(s.j) && InOrder(pace, s.j, s.clock)
  {}

  lemma EndedPast(pace: Pace, s: Exec)
    requires HasStep(s.j) && InOrder(pace, s.j, s.clock) && Terminal(CurrentStatus(s.j))
    ensures var end := s.j.results[s.j.index].actualEnd; end.Some? ==> EndPast(pace, s, end.value)
  {
    var next := NextPending(s.j.results);
    assert next < |s.j.results| ==> s.j.results[next].status == Pending;
  }

  lemma ZoneDuringGapHolds(pace: Pace, s: Exec, env: Env, zone: ZoneId, isOn: bool, o: Observation)
    requires StartHeld(pace, s) && s.j.state == InterZoneGap && Terminal(CurrentStatus(s.j))
    ensures Holds(pace, s, ZoneEventDuringGap(s, env, zone, isOn, o))
  {
    assert Holds(pace, s, s);
    var s1 := s.(j := s.j.(expectedEnd := s.j.results[s.j.index].actualEnd));
    SameLog(pace, s, s1);
    EndedPast(pace, s);
    assert InOrder(pace, s1.j, s1.clock) by { SameInOrder(pace, s.j, s1.j, s.clock); }
    hide ExternalConflict, EnterOverrunReconcile, Holds, LogHeld, InOrder, NextPending, Due;
    ExternalConflictHolds(pace, s, env);
    if s1.j.expectedEnd.Some? { OverrunHolds(pace, s1, env); }
    if s1.j.expectedEnd.Some? { Then(pace, s, s1, EnterOverrunReconcile(s1, env)); }
  }

  lemma FreezeCutHolds(pace: Pace, s: Exec, env: Env)
    requires HasStep(s.j) && InOrder(pace, s.j, s.clock) && CurrentStatus(s.j) != Pending
    ensures Holds(pace, s, FreezeCut(s, env))
  {
    var s0 := CancelTimer(s);
    SameLog(pace, s, s0);
    assert InOrder(pace, s0.j, s0.clock);
    if LogHeld(pace, s0) { SendStopHeld(pace, s0, env); }
    var s1 := SendStop(s0, env);
    assert s1.clock >= s.clock;
    hide SendStop, LogHeld, EndStep, SkipRemaining, FinishRun, Holds, InOrder, Write;
    EndFinishHolds(pace, s1, SensorCut, LowTemperature, LowTemperature, AbortedSensor, LowTemperature);
    var s2 := EndStep(s1, s1.j.index, SensorCut, LowTemperature);
    PauseWithHolds(pace, s1, s2, PausedSensor, LowTemperature);
    Then(pace, s, s1, FreezeCut(s, env));
  }

  lemma PauseWithHolds(pace: Pace, s: Exec, r: Exec, state: ExecutorState, why: Reason)
    requires s.written == r.written && s.clock == r.clock && (state == PausedExternal || state == PausedSensor)
    ensures Holds(pace, s, PauseWith(r, state, why))
  {
    var p := PauseWith(r, state, why);
    SameLog(pace, s, r);
    assert JournalHeld(pace, p.j, r.clock);
    if LogHeld(pace, r) {
      var j := p.j;
      WriteHeld(pace, r.(j := j)) by { SameLog(pace, r, r.(j := j)); }
    }
    hide JournalHeld, LogHeld;
  }

  // Starts

  lemma CommandedHolds(pace: Pace, s: Exec, env: Env)
    requires HasStep(s.j) && InOrder(pace, s.j, s.clock) && Due(pace, s.j, s.j.index, s.clock)
    ensures var r := Commanded(s, env);
      && HasStep(r.j) && InOrder(pace, r.j, r.clock) && Due(pace, r.j, r.j.index, r.clock)
      && s.clock <= r.clock && (LogHeld(pace, s) ==> LogHeld(pace, r))
  {
    var r := Commanded(s, env);
    assert JournalHeld(pace, r.j, s.clock);
    if LogHeld(pace, s) {
      var m := s.(j := r.j);
      SameLog(pace, s, m);
      WriteHeld(pace, m);
      LaterLog(pace, Write(m), r);
    }
    hide JournalHeld, LogHeld;
  }

  lemma SendStartHolds(pace: Pace, s: Exec, env: Env)
    requires HasStep(s.j) && InOrder(pace, s.j, s.clock) && Due(pace, s.j, s.j.index, s.clock)
    ensures Holds(pace, s, SendStart(s, env))
  {
    var s1 := Commanded(s, env);
    CommandedHolds(pace, s, env);
    hide Commanded, LogHeld, FailRun, BeginWatering;
    match env.start {
      case StartRejected =>
        var s2 := s1.(j := SetDisposition(s1.j, CommandRejected));
        SameLog(pace, s1, s2);
        FailRunHolds(pace, s2, Rejected, SourceUnavailable, Rejected);
        Then(pace, s, s2, SendStart(s, env));
      case StartUncertain =>
        UncertainHolds(pace, s1, env);
        hide ReconcileUncertainStart;
        Then(pace, s, s1, SendStart(s, env));
      case StartOk =>
        BeginHeld(pace, s1, s1.clock, Sent);
        var s2 := BeginWatering(s1, s1.clock, Sent);
        var r := ArmAt(s2, s2.j.expectedEnd.value, OnExpectedEnd);
        SameLog(pace, s2, r);
        assert Holds(pace, s2, r) by { hide InOrder; }
        hide ArmAt, InOrder, Holds;
        Then(pace, s, s2, r);
    }
  }

  lemma UncertainHolds(pace: Pace, s: Exec, env: Env)
    requires HasStep(s.j) && InOrder(pace, s.j, s.clock) && Due(pace, s.j, s.j.index, s.clock)
    ensures Holds(pace, s, ReconcileUncertainStart(s, env))
  {
    var r := ReconcileUncertainStart(s, env);
    var m := s.(j := r.j, context := StartContext);
    assert OpenStart(pace, m);
    OpenWriteHolds(pace, m);
    SameLog(pace, s, m);
    SameLog(pace, Write(m), r);
    hide LogHeld, InOrder;
  }

  lemma StartHolds(pace: Pace, s: Exec, env: Env)
    requires HasStep(s.j) && InOrder(pace, s.j, s.clock) && Due(pace, s.j, s.j.index, s.clock)
    ensures Holds(pace, s, StartStep(s, env))
  {
    hide PreStepBlock, SkipRunFor, FailRun, PauseExternal, SendStart, Holds, InOrder;
    SkipRunForHolds(pace, s, RainDelay, CompletedWithSkips);
    SkipRunForHolds(pace, s, RainSensorWet, AbortedSensor);
    SkipRunForHolds(pace, s, LowTemperature, AbortedSensor);
    PauseHolds(pace, s);
    FailRunHolds(pace, s, SourceUnavailable, SourceUnavailable, ZoneUnresolved);
    SendStartHolds(pace, s, env);
  }

  lemma AdvanceHolds(pace: Pace, s: Exec, env: Env)
    requires HasStep(s.j) && InOrder(pace, s.j, s.clock) && CurrentStatus(s.j) != Running
    requires var next := NextPending(s.j.results);
      next < |s.j.results| ==> Due(pace, s.j, next, s.clock)
    ensures Holds(pace, s, Advance(s, env))
  {
    var next := NextPending(s.j.results);
    if next == |s.j.results| {
      hide FinishRun, Holds, AllCompleted;
      FinishHolds(pace, s, RunCompleted, None);
      FinishHolds(pace, s, CompletedWithSkips, Some(SomeStepsSkipped));
    } else {
      var s1 := s.(j := s.j.(index := next));
      assert InOrder(pace, s1.j, s1.clock);
      SameLog(pace, s, s1);
      hide StartStep, LogHeld, InOrder, Holds, NextPending;
      StartHolds(pace, s1, env);
      Then(pace, s, s1, Advance(s, env));
    }
  }

  // ---------------------------------------------------------------------
  // Recovery

  lemma ExpireHolds(pace: Pace, s: Exec, env: Env, end: Instant)
    requires Paced(pace, env) && EndPast(pace, s, end)
    requires HasStep(s.j) && InOrder(pace, s.j, s.clock) && CurrentStatus(s.j) != Pending
    ensures Holds(pace, s, CompleteOrExpire(s, env, end))
  {
    hide CompleteStep, FinishRun, SkipRemaining, EndStep, Holds, InOrder;
    CompleteHolds(pace, s, env, end);
    EndFinishHolds(pace, s, Completed, RestartMissedTolerance, RestartMissedTolerance, CompletedWithSkips,
                   RestartMissedTolerance);
  }

  lemma RecoverWateringHolds(pace: Pace, s: Exec, env: Env, zoneActive: bool)
    requires Paced(pace, env)
    requires HasStep(s.j) && InOrder(pace, s.j, s.clock) && s.j.state == Watering && CurrentStatus(s.j) != Pending
    ensures Holds(pace, s, RecoverWatering(s, env, zoneActive))
  {
    var end := EndOrNow(s);
    var r := ArmAt(s, end, OnExpectedEnd);
    SameLog(pace, s, r);
    assert Holds(pace, s, r) by { hide LogHeld, InOrder; }
    hide CompleteStep, CompleteOrExpire, ArmAt, Holds, InOrder;
    if end <= s.clock {
      CompleteHolds(pace, s, env, end);
      ExpireHolds(pace, s, env, end);
    }
  }

  lemma RecoverEndHolds(pace: Pace, s: Exec, env: Env, o: Option<Observation>, zoneActive: bool)
    requires Paced(pace, env)
    requires HasStep(s.j) && InOrder(pace, s.j, s.clock) && CurrentStatus(s.j) != Pending && !s.j.stopRequested
    ensures Holds(pace, s, RecoverEndReconcile(s, env, o, zoneActive))
  {
    hide CompleteOrExpire, EnterOverrunReconcile, EnterEarlyEndReconcile, Write, ResumeWatering, ClassifyEarlyEnd,
         Holds, InOrder;
    if EndOrNow(s) <= s.clock {
      OverrunHolds(pace, s, env);
      ExpireHolds(pace, s, env, EndOrNow(s));
    }
    EarlyEndHolds(pace, s, env);
    ResumeWateringHolds(pace, s);
    if o.Some? { ClassifyEarlyEndHolds(pace, s, env, o.value); }
  }

  lemma RecoverStartHolds(pace: Pace, s: Exec, env: Env, zoneActive: bool)
    requires Paced(pace, env)
    requires HasStep(s.j) && InOrder(pace, s.j, s.clock) && Due(pace, s.j, s.j.index, s.clock)
    ensures Holds(pace, s, RecoverStart(s, env, zoneActive))
  {
    var m := s.(j := s.j.(state := Waiting));
    assert InOrder(pace, m.j, m.clock) && JournalHeld(pace, m.j, m.clock);
    SameLog(pace, s, m);
    if LogHeld(pace, m) { WriteHeld(pace, m); }
    var s1 := Write(m);
    assert HasStep(s1.j) && InOrder(pace, s1.j, s1.clock) && Due(pace, s1.j, s1.j.index, s1.clock);
    assert AllHaveRun(pace, s.j.results, s.clock);
    hide AcceptAt, StartStep, SkipRunFor, Write, LatestPermissibleStart, Holds, LogHeld, InOrder, AllHaveRun;
    AcceptHolds(pace, s, env, CommandTime(s), s.clock);
    StartHolds(pace, s1, env);
    Then(pace, s, s1, StartStep(s1, env)) by { assert s1.clock == s.clock by { WriteClock(m); } }
    SkipRunForHolds(pace, s, RestartMissedTolerance, CompletedWithSkips);
  }

  lemma WriteClock(s: Exec)
    ensures Write(s).clock == s.clock
  {}

  lemma RecoverGapHolds(pace: Pace, s: Exec, env: Env)
    requires Paced(pace, env)
    requires HasStep(s.j) && InOrder(pace, s.j, s.clock) && s.j.state == InterZoneGap
    ensures Holds(pace, s, ArmGapToNextStart(s, env))
  {
    var r := ArmGapToNextStart(s, env);
    SameLog(pace, s, r);
    assert r.timer.value.when == GapTarget(s, env) && InOrder(pace, r.j, r.clock);
    hide LogHeld, InOrder;
  }

  lemma RecoverPausedHolds(pace: Pace, s: Exec, pausedAt: Option<Instant>)
    ensures Holds(pace, s, Write(s.(j := s.j.(state := PausedExternal, pausedAt := pausedAt))))
    ensures IsPaused(s.j) ==> Holds(pace, s, Write(s))
  {
    var m := s.(j := s.j.(state := PausedExternal, pausedAt := pausedAt));
    SameLog(pace, s, m);
    assert JournalHeld(pace, m.j, s.clock) && (IsPaused(s.j) ==> JournalHeld(pace, s.j, s.clock));
    if LogHeld(pace, s) {
      WriteHeld(pace, m);
      if IsPaused(s.j) { WriteHeld(pace, s); }
    }
    hide JournalHeld, LogHeld;
  }

  lemma RecoverLockedHolds(pace: Pace, s: Exec, env: Env, o: Option<Observation>)
    requires Paced(pace, env)
    requires Resumable(s.j) && CleanJournal(s.j) && StateFitsStatus(s.j) && IsActive(s.j)
    requires JournalHeld(pace, s.j, s.clock)
    ensures Holds(pace, s, RecoverLocked(s, env, o))
  {
    var zoneActive := o.Some? && CurrentStep(s.j).zone in o.value.active;
    assert !StopWins(s.j) && !IsPaused(s.j) ==> InOrder(pace, s.j, s.clock);
    assert s.j.state == Watering || EndContext(s.j) ==> CurrentStatus(s.j) == Running;
    assert CurrentStatus(s.j) == Running && s.j.state == Reconciling ==> EndContext(s.j);
    assert !StopWins(s.j) && s.j.state in {Starting, Reconciling, Waiting} && !EndContext(s.j) ==>
      CurrentStatus(s.j) == Pending && Due(pace, s.j, s.j.index, s.clock);
    hide FinishRun, SkipRemaining, RecoverWatering, RecoverEndReconcile, RecoverStart, ArmGapToNextStart, ForeignZones,
         EndContext, Holds, InOrder, Write, CleanJournal, StateFitsStatus, Resumable, SoakOver, JournalHeld;
    if StopWins(s.j) {
      SkipFinishHolds(pace, s, UserStop, AbortedUser, Some(UserStop));
    } else if ForeignZones(s.j, o) != {} || IsPaused(s.j) {
      RecoverPausedHolds(pace, s, if s.j.pausedAt.None? then Some(s.clock) else s.j.pausedAt);
    } else if s.j.state == Watering {
      RecoverWateringHolds(pace, s, env, zoneActive);
    } else if EndContext(s.j) {
      RecoverEndHolds(pace, s, env, o, zoneActive);
    } else if s.j.state == InterZoneGap {
      RecoverGapHolds(pace, s, env);
    } else {
      RecoverStartHolds(pace, s, env, zoneActive);
    }
  }

  lemma RecoverHolds(pace: Pace, s: Exec, j: Journal, env: Env)
    requires Paced(pace, env)
    requires LogHeld(pace, s) && JournalHeld(pace, j, s.clock)
    requires PersistOk(j) && Stored(j) && Resumable(j) && j.plan.Some?
    ensures Holds(pace, s, Recover(Reboot(s, j), env))
  {
    ResumableIsClean(j);
    var s0 := Reboot(s, j);
    SameLog(pace, s, s0);
    ObserveHeld(pace, s0, env);
    ObservedJournal(s0, env);
    var s1 := Observe(s0, env);
    assert JournalHeld(pace, s1.j, s1.clock) by {
      LaterHeld(pace, j, s.clock, s1.clock);
      if !IsPaused(j) && !StopWins(j) { SameInOrder(pace, j, s1.j, s1.clock); }
      hide InOrder, CleanJournal, PersistOk, Resumable;
    }
    hide LogHeld, Holds, CleanJournal, StateFitsStatus, Resumable, RecoverLocked, JournalHeld, PersistOk;
    RecoverLockedHolds(pace, s1, env, env.read);
    Then(pace, s, s1, Recover(s0, env));
  }

  // ---------------------------------------------------------------------
  // Whole executions

  /** Nothing but the plan decides when the next step starts: no pause, no skip, a clock that
      does not go back, and restarts only from resumable journals. */
  predicate OnPlan(pace: Pace, s: Exec, event: Event, env: Env) {
    && !IsPaused(s.j) && env.now >= s.clock && Admissible(CrashFree, s, event, env) && Paced(pace, env)
    && (match event
        case PauseEvent(_) => false
        case SkipEvent => false
        case FireEvent(t) => env.now >= t.when
        case ZoneEvent(_, _, seen) => pace.Spaced? ==> seen.observedAt <= env.now
        case _ => true)
  }

  /** A run that is started does not begin with a soaked cycle. */
  predicate BeginsUnsoaked(event: Event) {
    event.StartRunEvent? && |event.plan.steps| > 0 ==> !event.plan.steps[0].soakBefore
  }

  /** The start command of this step, if any, waits for its soak, and every step before it has
      run and ended the gap ago. */
  predicate StartsOnTime(pace: Pace, s: Exec, event: Event, r: Exec) {
    var start := NewStart(s, r);
    start.Some? && start.value.StartZone? ==>
      var plan := PlanOf(s, event);
      && plan.Some? && start.value.index < |plan.value.steps|
      && SoakOver(plan.value, start.value.index, start.value.at)
      && (event.StartRunEvent? ==> start.value.index == 0)
      && (!event.StartRunEvent? ==>
           AllRunBefore(pace, JournalOf(s, event), start.value.index, start.value.at - GapOf(pace)))
  }

  /** The steps before the i-th have run by time t, and the i-th is still to be started. */
  predicate AllRunBefore(pace: Pace, j: Journal, i: nat, t: Instant) {
    && i < |j.results| && j.results[i].status == Pending
    && forall k :: 0 <= k < i ==> HasRun(pace, j.results[k], t)
  }

  lemma RunBefore(pace: Pace, j: Journal, i: nat, t: Instant)
    requires HasStep(j) && AllHaveRun(pace, j.results, t) && Ordered(j) && CurrentStatus(j) != Running
    requires i < |j.results| && i == NextPending(j.results)
    ensures AllRunBefore(pace, j, i, t)
  {
    forall k | 0 <= k < i ensures HasRun(pace, j.results[k], t) {
      assert j.results[k].status != Pending;
      assert j.results[i].status == Pending;
    }
  }

  lemma RunBeforeCurrent(pace: Pace, j: Journal, t: Instant)
    requires HasStep(j) && AllHaveRun(pace, j.results, t) && Ordered(j) && CurrentStatus(j) == Pending
    ensures AllRunBefore(pace, j, j.index, t)
  {
    forall k | 0 <= k < j.index ensures HasRun(pace, j.results[k], t) {
      assert Terminal(j.results[k].status) && j.results[j.index].status == Pending;
    }
  }

  lemma FireHolds(pace: Pace, s: Exec, env: Env, t: Timer)
    requires Paced(pace, env)
    requires Rest(CrashFree, s) && s.j.state != Idle && !IsPaused(s.j) && StartHeld(pace, s)
    requires s.clock >= t.when && t in s.issued
    ensures Holds(pace, s, Fire(s, env, t))
    ensures StartsOnTime(pace, s, FireEvent(t), Fire(s, env, t))
  {
    if t.generation != s.generation {
      SameLog(pace, s, s.(issued := s.issued - {t}));
      hide Rest, NextPending, Starts, LogHeld, InOrder;
    } else {
      var f := s.(issued := s.issued - {t}, timer := None);
      SameLog(pace, s, f);
      assert s.timer == Some(t) && HasStep(f.j) && Expects(f, t.handler) && !f.j.stopRequested;
      assert t.handler != RetryUncertainStop && Ordered(f.j) && StatusMatches(f);
      assert s.j.state == Watering ==> s.j.expectedEnd == Some(t.when);
      FireDispatches(s, env, t);
      hide Rest, Fire, LogHeld, Holds;
      DispatchHolds(pace, s, f, env, t);
      Then(pace, s, f, Fire(s, env, t));
    }
  }

  lemma DispatchHolds(pace: Pace, s: Exec, f: Exec, env: Env, t: Timer)
    requires Paced(pace, env)
    requires s.timer == Some(t) && f == s.(issued := s.issued - {t}, timer := None)
    requires StartHeld(pace, s) && Expects(f, t.handler) && !f.j.stopRequested && t.handler != RetryUncertainStop
    requires Ordered(f.j) && StatusMatches(f) && s.clock >= t.when
    requires s.j.state == Watering ==> s.j.expectedEnd == Some(t.when)
    ensures Holds(pace, f, Dispatch(f, env, t.handler))
    ensures StartsOnTime(pace, s, FireEvent(t), Dispatch(f, env, t.handler))
  {
    assert InOrder(pace, f.j, f.clock) && AllHaveRun(pace, f.j.results, f.clock);
    assert f.j.state == Reconciling && f.context == StartContext ==>
      OpenStart(pace, f) && CurrentStatus(f.j) == Pending;
    assert f.j.state == Watering || (f.context == OverrunContext && f.j.state == Reconciling) ==>
      CurrentStatus(f.j) != Pending;
    assert f.j.state == InterZoneGap ==> CurrentStatus(f.j) != Running;
    hide Starts, NextPending, HandleExpectedEnd, HandleConfirmOverrun, HandleConfirmEarlyEnd, HandleClassifyUncertain,
      StartStep, Holds, Advance, InOrder, AllHaveRun, Ordered, AllRunBefore, StatusMatches;
    match t.handler {
      case OnExpectedEnd => ExpectedEndHolds(pace, f, env); ExpectedEndKeeps(f, env);
      case OnGap => AdvanceHolds(pace, f, env); AdvanceOnTime(pace, s, f, env, t);
      case ConfirmOverrun => ConfirmOverrunHolds(pace, f, env); ConfirmOverrunKeeps(f, env);
      case ConfirmEarlyEnd => ConfirmEarlyEndHolds(pace, f, env); ConfirmEarlyEndKeeps(f, env);
      case ClassifyUncertain => ClassifyUncertainHolds(pace, f, env); ClassifyUncertainKeeps(f, env);
      case RetryStep => RetryOnTime(pace, s, f, env, t);
    }
  }

  lemma AdvanceOnTime(pace: Pace, s: Exec, f: Exec, env: Env, t: Timer)
    requires HasStep(s.j) && f == s.(issued := s.issued - {t}, timer := None)
    requires var next := NextPending(s.j.results); next < |s.j.results| ==> Due(pace, s.j, next, s.clock)
    requires AllHaveRun(pace, s.j.results, s.clock) && Ordered(s.j) && CurrentStatus(s.j) != Running
    ensures StartsOnTime(pace, s, FireEvent(t), Advance(f, env))
  {
    AdvanceSends(f, env);
    var r := Advance(f, env);
    hide Starts, Advance, NextPending, AllHaveRun, Ordered, AllRunBefore;
    if !KeepsRun(f, r) {
      var i: nat :| i < |f.j.results| && i == NextPending(f.j.results) && SentOne(f, r, i, f.clock, env.start);
      assert NewStart(s, r) == Some(StartZone(i, s.clock, env.start));
      RunBefore(pace, s.j, i, s.clock - GapOf(pace));
    }
  }

  lemma RetryOnTime(pace: Pace, s: Exec, f: Exec, env: Env, t: Timer)
    requires HasStep(s.j) && f == s.(issued := s.issued - {t}, timer := None) && s.j.state == Reconciling
    requires Due(pace, s.j, s.j.index, s.clock)
    requires InOrder(pace, s.j, s.clock) && Ordered(s.j) && CurrentStatus(s.j) == Pending
    ensures StartsOnTime(pace, s, FireEvent(t), HandleRetryStep(f, env))
    ensures Holds(pace, f, HandleRetryStep(f, env))
  {
    var f1 := f.(j := f.j.(state := Waiting));
    SameLog(pace, f, f1);
    SameInOrder(pace, s.j, f1.j, s.clock);
    assert AllHaveRun(pace, s.j.results, s.clock);
    hide Starts, HandleRetryStep, InOrder, LogHeld, Holds, AllHaveRun, Ordered, AllRunBefore, StartStep;
    StartHolds(pace, f1, env);
    Then(pace, f, f1, StartStep(f1, env));
    RetryStepSends(f, env);
    var r := HandleRetryStep(f, env);
    assert r == StartStep(f1, env) by { RetryStarts(f, env); }
    RunBeforeCurrent(pace, s.j, s.clock - GapOf(pace));
    if !Keeps(f, r) { assert NewStart(s, r) == Some(StartZone(s.j.index, s.clock, env.start)); }
  }

  lemma RetryStarts(s: Exec, env: Env)
    requires HasStep(s.j) && s.j.state == Reconciling
    ensures HandleRetryStep(s, env) == StartStep(s.(j := s.j.(state := Waiting)), env)
  {
    hide StartStep;
  }

  lemma ClaimHeld(pace: Pace, s: Exec, plan: RunPlan)
    requires LogHeld(pace, s) && (|plan.steps| > 0 ==> !plan.steps[0].soakBefore)
    ensures var r := Claim(s, plan);
      LogHeld(pace, r) && r.clock == s.clock && (|plan.steps| > 0 ==> HasStep(r.j) && InOrder(pace, r.j, r.clock))
  {
    var r := Claim(s, plan);
    assert forall k :: 0 <= k < |r.j.results| ==> r.j.results[k] == FRESH_RESULT;
    assert JournalHeld(pace, r.j, s.clock);
    var m := s.(j := r.j);
    SameLog(pace, s, m);
    WriteHeld(pace, m);
    hide JournalHeld, LogHeld;
  }

  lemma StartRunHolds(pace: Pace, s: Exec, env: Env, plan: RunPlan)
    requires Rest(CrashFree, s) && s.j.state == Idle && LogHeld(pace, s)
    requires |plan.steps| > 0 ==> !plan.steps[0].soakBefore
    ensures var r := StartRun(s, env, plan).0;
      Holds(pace, s, r) && StartsOnTime(pace, s, StartRunEvent(plan), r)
  {
    var s1 := Claim(s, plan);
    ClaimHeld(pace, s, plan);
    assert forall k :: 0 <= k < |s1.j.results| ==> s1.j.results[k] == FRESH_RESULT;
    assert Starts(s1.effects) == Starts(s.effects);
    assert s1.j.plan == Some(plan) && |s1.j.results| == |plan.steps| && s1.j.index == 0;
    hide Starts, Advance, FinishRun, Rest, LogHeld, Claim, InOrder, Holds, AllHaveRun;
    if |plan.steps| == 0 {
      FinishKeeps(s1, RunSkipped, Some(NoExecutableSteps));
      FinishHolds(pace, s1, RunSkipped, Some(NoExecutableSteps));
      Then(pace, s, s1, FinishRun(s1, RunSkipped, Some(NoExecutableSteps)));
    } else {
      assert NextPending(s1.j.results) == 0;
      AdvanceHolds(pace, s1, env);
      Then(pace, s, s1, Advance(s1, env));
      FirstStart(pace, s, s1, env, plan);
    }
    assert Holds(pace, s, s) by { IdleHolds(pace, s); }
  }

  lemma IdleHolds(pace: Pace, s: Exec)
    requires s.j.state == Idle
    ensures Holds(pace, s, s)
  {}

  lemma FirstStart(pace: Pace, s: Exec, s1: Exec, env: Env, plan: RunPlan)
    requires s1.j.plan == Some(plan) && |s1.j.results| == |plan.steps| > 0 && NextPending(s1.j.results) == 0
    requires Starts(s1.effects) == Starts(s.effects) && !plan.steps[0].soakBefore
    ensures StartsOnTime(pace, s, StartRunEvent(plan), Advance(s1, env))
  {
    AdvanceSends(s1, env);
    var a := Advance(s1, env);
    hide Starts, Advance, NextPending;
    if !KeepsRun(s1, a) {
      var i: nat :| i < |s1.j.results| && i == NextPending(s1.j.results) && SentOne(s1, a, i, s1.clock, env.start);
      assert NewStart(s, a) == Some(StartZone(0, s1.clock, env.start));
    }
  }

  lemma StopRunHolds(pace: Pace, s: Exec, env: Env, reason: string)
    requires Readable(s.j)
    ensures var r := StopRun(s, env, reason);
      (IsActive(s.j) && s.j.plan.Some?) || (s.j.plan.None? && s.j.state == Idle) ==> Holds(pace, s, r)
  {
    var s0 := RequestStop(s);
    assert JournalHeld(pace, s0.j, s.clock);
    if LogHeld(pace, s) {
      var m := s.(j := s0.j);
      SameLog(pace, s, m);
      WriteHeld(pace, m);
      SameLog(pace, Write(m), s0);
      SendStopHeld(pace, s0, env);
    }
    var s1 := SendStop(s0, env);
    StopMoves(s0, env);
    hide SendStop, LogHeld, JournalHeld, FinishRun, SkipRemaining, Holds, EndResult;
    if IsActive(s.j) && s.j.plan.Some? {
      var s2 := EndForStop(s1, reason);
      SameLog(pace, s1, s2);
      SkipFinishHolds(pace, s2, UserStop, AbortedUser, Some(UserText(reason)));
      Then(pace, s, s2, StopRun(s, env, reason));
    } else if s.j.plan.None? && s.j.state == Idle {
      StopIdleHolds(pace, s, s1);
    }
  }

  lemma StopMoves(s: Exec, env: Env)
    ensures var r := SendStop(s, env);
      && r.clock >= s.clock && r.j.plan == s.j.plan && r.j.results == s.j.results
      && r.j.index == s.j.index && r.j.state == s.j.state
  {}

  lemma StopIdleHolds(pace: Pace, s: Exec, s1: Exec)
    requires s1.clock >= s.clock && (LogHeld(pace, s) ==> LogHeld(pace, s1)) && s1.j.plan.None? && s1.j.state == Idle
    ensures Holds(pace, s, Write(s1.(j := s1.j.(stopRequested := false))))
  {
    var m := s1.(j := s1.j.(stopRequested := false));
    SameLog(pace, s1, m);
    assert JournalHeld(pace, m.j, m.clock);
    if LogHeld(pace, m) { WriteHeld(pace, m); }
    hide LogHeld, JournalHeld;
  }

  lemma EventHolds(pace: Pace, s: Exec, event: Event, env: Env)
    requires Rest(CrashFree, s) && s.j.state != Idle && OnPlan(pace, s, event, env) && s.clock == env.now
    requires StartHeld(pace, s)
    requires !event.FireEvent? && !event.StartRunEvent? && !event.RestartEvent?
    ensures Holds(pace, s, Step(s, event, env))
    ensures NewStart(s, Step(s, event, env)) == None
  {
    RestReadable(CrashFree, s);
    assert s.(clock := env.now) == s && !s.j.stopRequested && StatusMatches(s);
    assert Holds(pace, s, s);
    hide Rest, Starts, StopRun, HandleZoneState, HandleSensorState, HandleWeatherState, NoteObservation, LogHeld,
         StartHeld, Holds;
    match event {
      case StopEvent(reason) => StopRunHolds(pace, s, env, reason); StopRunKeeps(s, env, reason);
      case ResumeEvent => assert Step(s, event, env) == s;
      case ZoneEvent(zone, isOn, seen) => ZoneStateHolds(pace, s, env, zone, isOn, seen);
      case SensorEvent(seen) => WeatherHolds(pace, s, env, seen);
      case WeatherEvent(seen) => WeatherHolds(pace, s, env, seen);
      case NoteEvent(seen) => NoteHolds(pace, s, seen);
    }
  }

  lemma NoteHolds(pace: Pace, s: Exec, o: Observation)
    requires StartHeld(pace, s)
    ensures var r := NoteObservation(s, o);
      && StartHeld(pace, r) && Holds(pace, s, r) && r.clock == s.clock && (LogHeld(pace, s) <==> LogHeld(pace, r))
      && r.effects == s.effects && NewStart(s, r) == None
  {
    var r := NoteObservation(s, o);
    SameLog(pace, s, r);
    assert InOrder(pace, r.j, r.clock);
    hide LogHeld, Starts, InOrder;
  }

  lemma ZoneStateHolds(pace: Pace, s: Exec, env: Env, zone: ZoneId, isOn: bool, o: Observation)
    requires Paced(pace, env) && EndPast(pace, s, o.observedAt)
    requires StartHeld(pace, s) && IsActive(s.j) && !IsPaused(s.j) && !s.j.stopRequested && StatusMatches(s)
    requires s.j.state in {Watering, InterZoneGap, Reconciling}
    ensures Holds(pace, s, HandleZoneState(s, env, zone, isOn, o))
    ensures NewStart(s, HandleZoneState(s, env, zone, isOn, o)) == None
  {
    NoteHolds(pace, s, o);
    var s1 := NoteObservation(s, o);
    assert CurrentStatus(s1.j) == CurrentStatus(s.j);
    var r := HandleZoneState(s, env, zone, isOn, o);
    hide Starts, ZoneEventDuringRun, ZoneEventDuringGap, ResumeOrExpire, SensorPauseCleared, LogHeld, StartHeld, Holds;
    assert Holds(pace, s1, r) && Keeps(s1, r) by {
      if s1.j.state == InterZoneGap {
        ZoneDuringGapHolds(pace, s1, env, zone, isOn, o);
        ZoneDuringGapKeeps(s1, env, zone, isOn, o);
      } else {
        ZoneDuringRunHolds(pace, s1, env, zone, isOn, o);
        ZoneDuringRunKeeps(s1, env, zone, isOn, o);
      }
    }
    hide HandleZoneState;
    Then(pace, s, s1, r);
  }

  lemma WeatherHolds(pace: Pace, s: Exec, env: Env, o: Observation)
    requires StartHeld(pace, s) && !IsPaused(s.j) && StatusMatches(s)
    ensures Holds(pace, s, HandleWeatherState(s, env, o)) && Holds(pace, s, HandleSensorState(s, env, o))
    ensures NewStart(s, HandleWeatherState(s, env, o)) == None && NewStart(s, HandleSensorState(s, env, o)) == None
  {
    NoteHolds(pace, s, o);
    var s1 := NoteObservation(s, o);
    assert HasStep(s1.j) && InOrder(pace, s1.j, s1.clock) && CurrentStatus(s1.j) == CurrentStatus(s.j);
    hide Starts, FreezeCut, ResumeOrExpire, SensorPauseCleared, FreezeActive, LogHeld, StartHeld, Holds, InOrder;
    if s1.j.state == Watering {
      FreezeCutHolds(pace, s1, env);
      FreezeCutKeeps(s1, env);
      Then(pace, s, s1, FreezeCut(s1, env));
    }
  }

  lemma RestartHolds(pace: Pace, s: Exec, k: nat, env: Env)
    requires Rest(CrashFree, s) && k < |s.written| && LogHeld(pace, s) && s.clock == env.now && Paced(pace, env)
    requires Admissible(CrashFree, s, RestartEvent(k), env)
    ensures var r := Recover(Reboot(s, s.written[k]), env);
      Holds(pace, s, r) && StartsOnTime(pace, s, RestartEvent(k), r)
  {
    var j := s.written[k];
    assert Writable(CrashFree, j) && JournalHeld(pace, j, s.clock);
    assert PersistOk(j) && Stored(j);
    hide Rest, LogHeld, Recover, Starts, PersistOk, Holds, RecoverySends, Writable, JournalHeld, StartsDue,
         Admissible, Resumable;
    if RecoverySends(s, j, env) {
      RecoveryStart(s, j, env);
      RestartsResumable(s, k, env);
      StartsPendingStep(pace, s, j, env);
    }
    RestartOnTime(pace, s, k, env);
    if j.plan.Some? {
      RestartsResumable(s, k, env);
      RecoverHolds(pace, s, j, env);
    } else {
      IdleReboot(s, j, env);
      SameLog(pace, s, Reboot(s, j));
      assert Holds(pace, s, Reboot(s, j)) by { HoldsIdle(pace, s, Reboot(s, j)); }
    }
  }

  lemma HoldsIdle(pace: Pace, s: Exec, r: Exec)
    requires s.clock == r.clock && (LogHeld(pace, s) <==> LogHeld(pace, r)) && r.j.state == Idle
    ensures Holds(pace, s, r)
  {}

  lemma RestartOnTime(pace: Pace, s: Exec, k: nat, env: Env)
    requires k < |s.written| && Stored(s.written[k])
    requires RecoverySends(s, s.written[k], env) ==> StartsDue(pace, s, s.written[k])
    ensures StartsOnTime(pace, s, RestartEvent(k), Recover(Reboot(s, s.written[k]), env))
  {
    hide Recover, NewStart, RecoverySends, StartsDue, StartsOnTime;
    var j := s.written[k];
    var r := Recover(Reboot(s, j), env);
    RecoveryStart(s, j, env);
    if RecoverySends(s, j, env) {
      SentOnTime(pace, s, k, r, s.clock + env.readLatency, env.start);
    } else {
      NoStart(pace, s, RestartEvent(k), r);
    }
  }

  lemma RestartsResumable(s: Exec, k: nat, env: Env)
    requires k < |s.written| && s.written[k].plan.Some? && Admissible(CrashFree, s, RestartEvent(k), env)
    ensures Resumable(s.written[k])
  {
    hide Resumable, PausesOverRunning;
  }

  lemma RecoveryStart(s: Exec, j: Journal, env: Env)
    requires Stored(j)
    ensures RecoverySends(s, j, env) ==> j.plan.Some?
    ensures NewStart(s, Recover(Reboot(s, j), env)) ==
      if RecoverySends(s, j, env) then Some(StartZone(j.index, s.clock + env.readLatency, env.start)) else None
  {
    RecoverySendsExactly(s, j, env);
    hide RecoverySends, Recover, Starts, Reboot;
  }

  /** A start of a step that was due when the journal was read is sent in time. */
  lemma SentOnTime(pace: Pace, s: Exec, k: nat, r: Exec, at: Instant, result: StartResult)
    requires k < |s.written| && StartsDue(pace, s, s.written[k]) && s.clock <= at
    requires NewStart(s, r) == Some(StartZone(s.written[k].index, at, result))
    ensures StartsOnTime(pace, s, RestartEvent(k), r)
  {
    hide NewStart;
  }

  /** The current step of the journal was due by now. */
  predicate StartsDue(pace: Pace, s: Exec, j: Journal) {
    && HasStep(j) && SoakOver(j.plan.value, j.index, s.clock)
    && AllRunBefore(pace, j, j.index, s.clock - GapOf(pace))
  }

  /** The step that recovery starts was due when it was journaled. */
  lemma StartsPendingStep(pace: Pace, s: Exec, j: Journal, env: Env)
    requires PersistOk(j) && JournalHeld(pace, j, s.clock) && RecoverySends(s, j, env) && Resumable(j)
    ensures StartsDue(pace, s, j)
  {
    assert HasStep(j) && j.state in {Starting, Reconciling, Waiting} && !StopWins(j) by {
      hide Sends, PersistOk, Resumable, JournalHeld, LatestPermissibleStart, ForeignZones;
    }
    RecoveryStartsPendingIffResumable(s, j, env);
    hide RecoverySends, PersistOk, AllRunBefore;
    RunBeforeCurrent(pace, j, s.clock - GapOf(pace));
  }

  lemma IdleReboot(s: Exec, j: Journal, env: Env)
    requires Stored(j) && j.plan.None?
    ensures Recover(Reboot(s, j), env) == Reboot(s, j) && j.state == Idle
  {
    hide RecoverLocked;
  }

  /** Without a run, or for a callback that was never issued, nothing starts. */
  lemma IdleStep(pace: Pace, s: Exec, event: Event, env: Env)
    requires Rest(CrashFree, s) && s.clock == env.now && OnPlan(pace, s, event, env)
    requires !event.StartRunEvent? && !event.RestartEvent?
    requires event.FireEvent? ==> event.timer !in s.issued || s.j.state == Idle
    requires s.j.state == Idle || event.FireEvent?
    requires s.j.state != Idle ==> StartHeld(pace, s)
    ensures NewStart(s, Step(s, event, env)) == None && Holds(pace, s, Step(s, event, env))
  {
    RestReadable(CrashFree, s);
    assert s.(clock := env.now) == s;
    if s.j.state == Idle {
      assert s.timer.None? && s.j.plan.None? && forall t :: t in s.issued ==> t.generation != s.generation;
      if event.StopEvent? {
        StopRunKeeps(s, env, event.reason);
        StopRunHolds(pace, s, env, event.reason);
      }
      hide Rest, Starts, StopRun, FreezeActive, SensorPauseCleared, ResumeOrExpire, Dispatch, LogHeld;
      var r := Step(s, event, env);
      if !event.StopEvent? {
        assert r.written == s.written && r.clock == s.clock && r.j.state == Idle && r.effects == s.effects;
        SameLog(pace, s, r);
      }
    } else {
      assert Step(s, event, env) == s by { hide Rest; }
      hide Rest, Step, Starts, LogHeld;
    }
  }

  /** What an on-plan execution keeps. */
  ghost predicate Tracks(pace: Pace, s: Exec) {
    Rest(CrashFree, s) && LogHeld(pace, s) && (s.j.state != Idle && !IsPaused(s.j) ==> StartHeld(pace, s))
  }

  lemma StepTracks(pace: Pace, s: Exec, event: Event, env: Env)
    requires Tracks(pace, s) && OnPlan(pace, s, event, env) && BeginsUnsoaked(event)
    ensures var r := Step(s, event, env); Tracks(pace, r) && StartsOnTime(pace, s, event, r)
  {
    var s1 := s.(clock := env.now);
    var r := Step(s, event, env);
    ClockTracks(pace, s, env.now);
    SameStep(pace, s, event, env);
    assert Rest(CrashFree, s);
    hide Rest, LogHeld, StartHeld, Step, OnPlan, StartsOnTime, Admissible;
    StepRest(CrashFree, s, event, env);
    StepHolds(pace, s1, event, env);
    SameOnTime(pace, s, env.now, event, r);
  }

  lemma SameOnTime(pace: Pace, s: Exec, now: Instant, event: Event, r: Exec)
    requires StartsOnTime(pace, s.(clock := now), event, r)
    ensures StartsOnTime(pace, s, event, r)
  {
    assert NewStart(s.(clock := now), r) == NewStart(s, r);
    hide NewStart, AllRunBefore, SoakOver;
  }

  lemma SameStep(pace: Pace, s: Exec, event: Event, env: Env)
    requires OnPlan(pace, s, event, env)
    ensures var s1 := s.(clock := env.now);
      && Step(s1, event, env) == Step(s, event, env) && OnPlan(pace, s1, event, env)
      && Admissible(CrashFree, s, event, env)
      && forall r :: NewStart(s1, r) == NewStart(s, r)
  {
    hide PausesOverRunning, Resumable, Starts;
  }

  lemma ClockTracks(pace: Pace, s: Exec, now: Instant)
    requires Tracks(pace, s) && now >= s.clock
    ensures Tracks(pace, s.(clock := now))
  {
    var s1 := s.(clock := now);
    ClockRest(CrashFree, s, now);
    LaterLog(pace, s, s1);
    hide Rest, LogHeld, NextPending, InOrder;
  }

  lemma StepHolds(pace: Pace, s: Exec, event: Event, env: Env)
    requires Tracks(pace, s) && OnPlan(pace, s, event, env) && BeginsUnsoaked(event) && s.clock == env.now
    ensures var r := Step(s, event, env); Holds(pace, s, r) && StartsOnTime(pace, s, event, r)
  {
    RestReadable(CrashFree, s);
    assert s.(clock := env.now) == s && !IsPaused(s.j);
    assert s.j.state == Idle ==> Holds(pace, s, s);
    hide Rest, LogHeld, Starts, StartHeld, Holds, StartRun, Recover, Reboot, Fire, HandleZoneState, HandleSensorState,
         HandleWeatherState, StopRun, ResumeRun, NoteObservation, StartsOnTime;
    if event.RestartEvent? {
      if event.write < |s.written| { RestartHolds(pace, s, event.write, env); }
      else { assert Step(s, event, env) == s; NothingStarts(pace, s, event); HoldsSelf(pace, s); }
    } else if event.StartRunEvent? {
      if s.j.state == Idle { StartRunHolds(pace, s, env, event.plan); }
      else { BusyStart(s, env, event.plan); NothingStarts(pace, s, event); HoldsSelf(pace, s); }
    } else if event.FireEvent? && event.timer in s.issued && s.j.state != Idle {
      FireHolds(pace, s, env, event.timer);
    } else if s.j.state != Idle && !event.FireEvent? {
      EventHolds(pace, s, event, env);
      assert StartsOnTime(pace, s, event, Step(s, event, env)) by { NoStart(pace, s, event, Step(s, event, env)); }
    } else {
      IdleStep(pace, s, event, env);
      NoStart(pace, s, event, Step(s, event, env));
    }
  }

  lemma HoldsSelf(pace: Pace, s: Exec)
    requires s.j.state == Idle || StartHeld(pace, s)
    ensures Holds(pace, s, s)
  {}

  lemma NoStart(pace: Pace, s: Exec, event: Event, r: Exec)
    requires NewStart(s, r) == None
    ensures StartsOnTime(pace, s, event, r)
  {}

  lemma NothingStarts(pace: Pace, s: Exec, event: Event)
    ensures StartsOnTime(pace, s, event, s)
  {
    hide Starts;
  }

  lemma BusyStart(s: Exec, env: Env, plan: RunPlan)
    requires Rest(CrashFree, s) && s.j.state != Idle && s.clock == env.now
    ensures Step(s, StartRunEvent(plan), env) == s
  {
    RestReadable(CrashFree, s);
    assert s.(clock := env.now) == s;
    hide Rest;
  }

  /** Every event is on plan and no state on the way is paused. */
  predicate OnPlanTrace(pace: Pace, s: Exec, trace: Trace)
    decreases |trace|
  {
    trace == [] ||
    (OnPlan(pace, s, trace[0].0, trace[0].1) && OnPlanTrace(pace, Step(s, trace[0].0, trace[0].1), trace[1..]))
  }

  predicate AllOnTime(pace: Pace, s: Exec, trace: Trace)
    decreases |trace|
  {
    trace == [] ||
    var r := Step(s, trace[0].0, trace[0].1);
    StartsOnTime(pace, s, trace[0].0, r) && AllOnTime(pace, r, trace[1..])
  }

  /** On plan, every start command for a soaked cycle is sent at or after its compiled start,
      and after the steps before it have run and, at the pace of the world, ended the gap ago;
      also when restarts come in between. */
  lemma {:induction false} SoakedStartsWait(pace: Pace, s: Exec, trace: Trace)
    requires Tracks(pace, s) && OnPlanTrace(pace, s, trace)
    requires forall k :: 0 <= k < |trace| ==> BeginsUnsoaked(trace[k].0)
    ensures AllOnTime(pace, s, trace)
    decreases |trace|
  {
    hide Tracks, Step, StartsOnTime;
    if trace != [] {
      StepTracks(pace, s, trace[0].0, trace[0].1);
      assert forall k :: 0 <= k < |trace[1..]| ==> trace[1..][k] == trace[k + 1];
      SoakedStartsWait(pace, Step(s, trace[0].0, trace[0].1), trace[1..]);
    }
  }

  lemma {:induction false} SoakedStartsWaitFromStart(pace: Pace, trace: Trace)
    requires OnPlanTrace(pace, INITIAL, trace)
    requires forall k :: 0 <= k < |trace| ==> BeginsUnsoaked(trace[k].0)
    ensures AllOnTime(pace, INITIAL, trace)
  {
    InitialRest(CrashFree);
    SoakedStartsWait(pace, INITIAL, trace);
  }

  lemma {:induction false} OnTimeAt(pace: Pace, s: Exec, trace: Trace, e: nat)
    requires AllOnTime(pace, s, trace) && e < |trace|
    ensures var at := Run(s, trace[..e]);
      StartsOnTime(pace, at, trace[e].0, Step(at, trace[e].0, trace[e].1))
    decreases e
  {
    hide Step, StartsOnTime;
    if e > 0 {
      OnTimeAt(pace, Step(s, trace[0].0, trace[0].1), trace[1..], e - 1);
      assert trace[..e][1..] == trace[1..][..e - 1];
    }
  }

  /** The gap between zones, restarts included: no start command of a step comes earlier than
      `gap` after the recorded end of any step before it. */
  lemma {:induction false} StartsKeepTheGap(gap: nat, trace: Trace, e: nat)
    requires OnPlanTrace(Spaced(gap), INITIAL, trace) && e < |trace|
    requires forall k :: 0 <= k < |trace| ==> BeginsUnsoaked(trace[k].0)
    ensures var s := Run(INITIAL, trace[..e]);
      var (start, j) := (NewStart(s, Step(s, trace[e].0, trace[e].1)), JournalOf(s, trace[e].0));
      start.Some? && start.value.StartZone? && start.value.index > 0 ==>
        && start.value.index < |j.results|
        && forall k :: 0 <= k < start.value.index ==>
             && j.results[k].status == Completed && j.results[k].actualEnd.Some?
             && j.results[k].actualEnd.value + gap <= start.value.at
  {
    hide Step, Run, AllOnTime, OnPlanTrace, SoakOver, NewStart;
    SoakedStartsWaitFromStart(Spaced(gap), trace);
    OnTimeAt(Spaced(gap), INITIAL, trace, e);
  }
}
