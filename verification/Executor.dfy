/** The journaled executor as the object it is: handlers that update the journal, the
    armed timer and the reconcile context in place. Every method leaves exactly the state
    that the function of the same name in `ExecutorSpec` gives. */
module Executor {
  import opened Domain
  import opened ExecutorSpec
  import opened ExecutorInvariant
  import opened ExecutorRecovery
  import opened ExecutorRuns
  import Dedup

  class ExecutionJournal {
    var state: ExecutorState
    var plan: Option<RunPlan>
    var activeOccurrence: Option<OccurrenceId>
    var index: nat
    var results: seq<StepResult>
    var pending: Option<Command>
    var actualStart: Option<Instant>
    var expectedEnd: Option<Instant>
    var lastObservation: Option<Observation>
    var retryCount: nat
    var uncertainCount: nat
    var stopRequested: bool
    var pausedReason: Option<Reason>
    var pausedAt: Option<Instant>
    var completed: seq<Dedup.Entry>

    constructor ()
      ensures View() == EMPTY_JOURNAL
    {
      state, plan, activeOccurrence, index, results := Idle, None, None, 0, [];
      pending, actualStart, expectedEnd, lastObservation := None, None, None, None;
      retryCount, uncertainCount, stopRequested := 0, 0, false;
      pausedReason, pausedAt, completed := None, None, [];
    }

    function View(): Journal
      reads this
    {
      Journal(state, plan, activeOccurrence, index, results, pending, actualStart, expectedEnd,
              lastObservation, retryCount, uncertainCount, stopRequested, pausedReason, pausedAt, completed)
    }

    method EndStep(index: nat, status: StepStatus, reason: Reason, now: Instant)
      modifies `results
      ensures View() == EndStepIn(old(View()), index, status, reason, now)
    {
      hide EndResult;
      if index < |results| { results := results[index := EndResult(results[index], status, reason, now)]; }
    }

    method SetDisposition(d: Disposition)
      modifies `pending
      ensures View() == ExecutorSpec.SetDisposition(old(View()), d)
    {
      if pending.Some? { pending := Some(pending.value.(disposition := d)); }
    }

    /** A plan claims the journal. */
    method Claim(plan: RunPlan)
      modifies this
      ensures View() == old(View()).(
        state := Waiting, activeOccurrence := Some(plan.occurrence), plan := Some(plan), index := 0,
        results := seq(|plan.steps|, _ => FRESH_RESULT), pending := None,
        actualStart := None, expectedEnd := None, retryCount := 0, uncertainCount := 0,
        stopRequested := false, pausedReason := None, pausedAt := None)
    {
      state, activeOccurrence, this.plan, index := Waiting, Some(plan.occurrence), Some(plan), 0;
      results := seq(|plan.steps|, _ => FRESH_RESULT);
      ClearCommand();
      ClearCounters();
      ClearFlags();
    }

    method ClearCounters()
      modifies `retryCount, `uncertainCount
      ensures View() == old(View()).(retryCount := 0, uncertainCount := 0)
    {
      retryCount, uncertainCount := 0, 0;
    }

    method ClearCommand()
      modifies `pending, `actualStart, `expectedEnd
      ensures View() == old(View()).(pending := None, actualStart := None, expectedEnd := None)
    {
      pending, actualStart, expectedEnd := None, None, None;
    }

    method ClearFlags()
      modifies `stopRequested, `pausedReason, `pausedAt
      ensures View() == old(View()).(stopRequested := false, pausedReason := None, pausedAt := None)
    {
      stopRequested, pausedReason, pausedAt := false, None, None;
    }

    /** Back to idle; the observation, the counters and the finished occurrences stay. */
    method Reset()
      modifies this
      ensures View() == old(View()).(
        state := Idle, plan := None, activeOccurrence := None, pending := None,
        index := 0, results := [], actualStart := None, expectedEnd := None,
        stopRequested := false, pausedReason := None, pausedAt := None)
    {
      state, plan, activeOccurrence, index, results := Idle, None, None, 0, [];
      ClearCommand();
      ClearFlags();
    }

    method RecordOccurrenceFinished(id: OccurrenceId, at: Instant)
      modifies `completed
      ensures completed == Dedup.Record(old(completed), id, at)
    {
      completed := Dedup.Put(completed, id, at);
      if |completed| > DEDUP_MAX_OCCURRENCES {
        var oldest := Dedup.Oldest(completed);
        var i := 0;
        while i < |oldest|
          invariant 0 <= i <= |oldest|
          invariant Dedup.WithoutAll(completed, oldest[i..])
                 == Dedup.WithoutAll(Dedup.Put(old(completed), id, at), oldest)
        {
          completed := Dedup.Without(completed, oldest[i].id);
          i := i + 1;
        }
      }
    }
  }

  class RunExecutor {
    const journal: ExecutionJournal
    var timer: Option<Timer>
    var generation: nat
    var context: Context
    var overrunAttempts: nat
    var stopRetries: nat
    var clock: Instant
    /** Callbacks handed to the timer scheduler and not yet fired. */
    ghost var issued: set<Timer>
    /** Journal snapshots handed to the store. */
    ghost var written: seq<Journal>
    /** Commands sent to the driver and runs reported to the history. */
    ghost var effects: seq<Effect>

    constructor (journal: ExecutionJournal)
      ensures this.journal == journal
      ensures View() == Exec(journal.View(), None, 0, {}, NoContext, 0, 0, 0, [], [])
    {
      this.journal := journal;
      timer, generation, context, overrunAttempts, stopRetries := None, 0, NoContext, 0, 0;
      clock, issued, written, effects := 0, {}, [], [];
    }

    ghost function View(): Exec
      reads this, journal
    {
      Exec(journal.View(), timer, generation, issued, context, overrunAttempts, stopRetries, clock, written, effects)
    }

    // -------------------------------------------------------------------
    // Timers and persistence

    method Write()
      modifies `written
      ensures View() == ExecutorSpec.Write(old(View()))
    {
      written := written + [journal.View()];
    }

    method CancelPendingTimer()
      modifies `timer, `generation
      ensures View() == CancelTimer(old(View()))
    {
      generation := generation + 1;
      timer := None;
    }

    method ArmAt(when: Instant, handler: Handler)
      modifies `timer, `generation, `issued
      ensures View() == ExecutorSpec.ArmAt(old(View()), when, handler)
    {
      CancelPendingTimer();
      var t := Timer(when, generation, handler);
      issued := issued + {t};
      timer := Some(t);
    }

    method ArmIn(seconds: int, handler: Handler)
      modifies `timer, `generation, `issued
      ensures View() == ExecutorSpec.ArmIn(old(View()), seconds, handler)
    {
      ArmAt(clock + seconds, handler);
    }

    /** Read the source live; a failed read keeps the last observation. */
    method Observe(env: Env)
      modifies this, journal
      ensures View() == ExecutorSpec.Observe(old(View()), env)
    {
      clock := clock + env.readLatency;
      if env.read.Some? { journal.lastObservation := env.read; }
    }

    method CommandStop(env: Env)
      modifies this, journal
      ensures View() == ExecutorSpec.CommandStop(old(View()), env)
    {
      journal.pending := Some(StopCommand(clock, Intended));
      Write();
      effects := effects + [StopController(clock)];
      clock := clock + env.stopLatency;
    }

    method SendStop(env: Env)
      modifies this, journal
      ensures View() == ExecutorSpec.SendStop(old(View()), env)
    {
      hide ExecutorSpec.CommandStop, ExecutorSpec.RetryStopLater;
      CommandStop(env);
      if env.stopOk {
        journal.SetDisposition(Sent);
        stopRetries := 0;
        Write();
      } else {
        journal.SetDisposition(Uncertain);
        journal.uncertainCount := journal.uncertainCount + 1;
        Write();
        RetryStopLater();
      }
    }

    /** A failed stop has no other watchdog: retry it while the run stays active. */
    method RetryStopLater()
      modifies this
      ensures View() == ExecutorSpec.RetryStopLater(old(View()))
    {
      if IsActive(journal.View()) && stopRetries < 2 {
        var delay := StopRetryDelay(stopRetries);
        stopRetries := stopRetries + 1;
        ArmIn(delay, RetryUncertainStop);
      }
    }

    // -------------------------------------------------------------------
    // Step results

    method EndStep(index: nat, status: StepStatus, reason: Reason)
      modifies journal
      ensures View() == ExecutorSpec.EndStep(old(View()), index, status, reason)
    {
      journal.EndStep(index, status, reason, clock);
    }

    method SkipRemaining(reason: Reason)
      modifies journal
      ensures View() == ExecutorSpec.SkipRemaining(old(View()), reason)
    {
      ghost var before := journal.results;
      var i := 0;
      while i < |journal.results|
        invariant 0 <= i <= |journal.results| == |before|
        invariant forall k :: 0 <= k < i ==> journal.results[k] == SkipResult(before[k], reason, clock)
        invariant forall k :: i <= k < |before| ==> journal.results[k] == before[k]
        invariant View() == old(View()).(j := old(View()).j.(results := journal.results))
      {
        var r := journal.results[i];
        if r.status == Pending || r.status == Running {
          if r.status == Running { r := r.(status := ExternalStop, actualEnd := Some(clock)); }
          else { r := r.(status := Skipped); }
          r := r.(reason := Some(reason));
          journal.results := journal.results[i := r];
        }
        i := i + 1;
      }
      assert journal.results == SkipAll(before, reason, clock);
    }

    /** Position of the first PENDING result, or the number of results. */
    method NextPendingIndex() returns (next: nat)
      ensures next == NextPending(journal.results)
    {
      next := 0;
      while next < |journal.results| && journal.results[next].status != Pending
        invariant next <= |journal.results|
        invariant NextPending(journal.results) == NextPending(journal.results, next)
      {
        next := next + 1;
      }
    }

    // -------------------------------------------------------------------
    // Run completion

    method FinishRun(outcome: RunOutcome, reason: Option<Reason>)
      modifies this, journal
      ensures View() == ExecutorSpec.FinishRun(old(View()), outcome, reason)
    {
      hide Dedup.Record;
      CancelPendingTimer();
      context := NoContext;
      if journal.plan.Some? {
        journal.RecordOccurrenceFinished(journal.plan.value.occurrence, clock);
        Write();
        effects := effects + [RunFinished(journal.plan.value, outcome, reason, journal.results)];
      }
      journal.Reset();
      Write();
    }

    // -------------------------------------------------------------------
    // Step lifecycle

    method PreStepBlock(env: Env, index: nat) returns (blocked: bool)
      requires journal.plan.Some? && |journal.results| == |journal.plan.value.steps|
      modifies this, journal
      ensures blocked <==> ExecutorSpec.PreStepBlock(old(journal.View()), env, index) != NoBlock
      ensures View() ==
        match ExecutorSpec.PreStepBlock(old(journal.View()), env, index)
        case BlockDelay => SkipRunFor(old(View()), RainDelay, CompletedWithSkips)
        case BlockWet => SkipRunFor(old(View()), RainSensorWet, AbortedSensor)
        case BlockFreeze => SkipRunFor(old(View()), LowTemperature, AbortedSensor)
        case BlockExternal => PauseExternal(old(View()))
        case NoBlock => old(View())
    {
      if journal.lastObservation.None? { return false; }
      var o := journal.lastObservation.value;
      var rain := RainPolicyOf(env);
      if rain.honorNativeDelay && o.rainDelayDays.Some? && o.rainDelayDays.value > 0 {
        SkipRun(RainDelay, CompletedWithSkips);
        return true;
      }
      if rain.skipWhenSensorWet && o.Wet() {
        SkipRun(RainSensorWet, AbortedSensor);
        return true;
      }
      if FreezeBlocks(env, o) {
        SkipRun(LowTemperature, AbortedSensor);
        return true;
      }
      var external := ExternalZones(journal.View(), o, index);
      if external != {} {
        journal.state := PausedExternal;
        journal.pausedAt := Some(clock);
        Write();
        return true;
      }
      return false;
    }

    method SkipRun(reason: Reason, whenWatered: RunOutcome)
      modifies this, journal
      ensures View() == SkipRunFor(old(View()), reason, whenWatered)
    {
      SkipRemaining(reason);
      FinishRun(if AnyCompleted(journal.results) then whenWatered else RunSkipped, Some(reason));
    }

    /** Journal the attempt, then ask the driver. */
    method CommandStart(env: Env)
      requires HasStep(journal.View())
      modifies this, journal
      ensures View() == Commanded(old(View()), env)
    {
      var step := journal.plan.value.steps[journal.index];
      var attempt := journal.results[journal.index].attempts + 1;
      journal.state := Starting;
      journal.pending := Some(StartCommand(clock, Intended, step.zone, attempt));
      journal.results := journal.results[journal.index := journal.results[journal.index].(attempts := attempt)];
      Write();
      effects := effects + [StartZone(journal.index, clock, env.start)];
      clock := clock + env.startLatency;
    }

    method BeginWatering(start: Instant, d: Disposition)
      requires HasStep(journal.View())
      modifies this, journal
      ensures View() == ExecutorSpec.BeginWatering(old(View()), start, d)
    {
      var step := journal.plan.value.steps[journal.index];
      journal.SetDisposition(d);
      journal.state := Watering;
      journal.actualStart := Some(start);
      journal.expectedEnd := Some(start + 60 * step.duration);
      journal.results := journal.results[journal.index :=
        journal.results[journal.index].(status := Running, actualStart := Some(start))];
      Write();
    }

    method FailRun(stepReason: Reason, skipReason: Reason, runReason: Reason)
      modifies this, journal
      ensures View() == ExecutorSpec.FailRun(old(View()), stepReason, skipReason, runReason)
    {
      hide ExecutorSpec.EndStep, ExecutorSpec.SkipRemaining, ExecutorSpec.FinishRun;
      EndStep(journal.index, StepFailed, stepReason);
      SkipRemaining(skipReason);
      FinishRun(RunFailed, Some(runReason));
    }

    method StartStep(env: Env)
      requires HasStep(journal.View())
      modifies this, journal
      ensures View() == ExecutorSpec.StartStep(old(View()), env)
    {
      hide SkipRunFor, ExecutorSpec.PauseExternal, ExecutorSpec.FailRun, ExecutorSpec.SendStart,
           ExecutorSpec.PreStepBlock;
      var blocked := PreStepBlock(env, journal.index);
      if blocked { return; }
      if journal.plan.value.steps[journal.index].zone !in env.resolvable {
        FailRun(SourceUnavailable, SourceUnavailable, ZoneUnresolved);
      } else {
        SendStart(env);
      }
    }

    method SendStart(env: Env)
      requires HasStep(journal.View())
      modifies this, journal
      ensures View() == ExecutorSpec.SendStart(old(View()), env)
    {
      CommandStart(env);
      assert HasStep(journal.View());
      hide Commanded, ExecutorSpec.BeginWatering, ExecutorSpec.ReconcileUncertainStart, ExecutorSpec.FailRun;
      match env.start {
        case StartRejected =>
          journal.SetDisposition(CommandRejected);
          FailRun(Rejected, SourceUnavailable, Rejected);
        case StartUncertain =>
          ReconcileUncertainStart(env);
        case StartOk =>
          BeginWatering(clock, Sent);
          ArmAt(journal.expectedEnd.value, OnExpectedEnd);
      }
    }

    method ReconcileUncertainStart(env: Env)
      modifies this, journal
      ensures View() == ExecutorSpec.ReconcileUncertainStart(old(View()), env)
    {
      journal.SetDisposition(Uncertain);
      journal.uncertainCount := journal.uncertainCount + 1;
      journal.state := Reconciling;
      context := StartContext;
      Write();
      ArmIn(env.config.startObservationTimeout, ClassifyUncertain);
    }

    method Advance(env: Env)
      requires journal.plan.Some? && |journal.results| == |journal.plan.value.steps|
      modifies this, journal
      ensures View() == ExecutorSpec.Advance(old(View()), env)
    {
      hide ExecutorSpec.FinishRun, ExecutorSpec.StartStep;
      var next := NextPendingIndex();
      if next == |journal.results| {
        if AllCompleted(journal.results) { FinishRun(RunCompleted, None); }
        else { FinishRun(CompletedWithSkips, Some(SomeStepsSkipped)); }
        return;
      }
      journal.index := next;
      StartStep(env);
    }

    method ArmGapToNextStart(env: Env)
      requires journal.plan.Some? && |journal.results| == |journal.plan.value.steps|
      modifies this
      ensures View() == ExecutorSpec.ArmGapToNextStart(old(View()), env)
    {
      var target := clock + env.config.interZoneGap;
      var next := NextPendingIndex();
      if next < |journal.results| {
        var step := journal.plan.value.steps[next];
        if step.soakBefore && step.plannedStart > target { target := step.plannedStart; }
      }
      ArmAt(target, OnGap);
    }

    method CompleteStep(env: Env, end: Instant)
      requires HasStep(journal.View())
      modifies this, journal
      ensures View() == ExecutorSpec.CompleteStep(old(View()), env, end)
    {
      journal.results := journal.results[journal.index :=
        journal.results[journal.index].(status := Completed, actualEnd := Some(end))];
      journal.state := InterZoneGap;
      journal.pending := None;
      journal.expectedEnd := None;
      context := NoContext;
      Write();
      hide GapTarget;
      ArmGapToNextStart(env);
    }

    method HandleExpectedEnd(env: Env)
      requires HasStep(journal.View())
      modifies this, journal
      ensures View() == ExecutorSpec.HandleExpectedEnd(old(View()), env)
    {
      hide ExecutorSpec.CompleteStep, ExecutorSpec.EnterOverrunReconcile;
      if journal.state != Watering { return; }
      if OnPastEnd(journal.View()) { EnterOverrunReconcile(env); return; }
      CompleteStep(env, if journal.expectedEnd.Some? then journal.expectedEnd.value else clock);
    }

    method HandleGap(env: Env)
      requires HasStep(journal.View())
      modifies this, journal
      ensures View() == ExecutorSpec.HandleGap(old(View()), env)
    {
      hide ExecutorSpec.Advance;
      if journal.state == InterZoneGap { Advance(env); }
    }

    // -------------------------------------------------------------------
    // Overrun and early end

    method EnterOverrunReconcile(env: Env)
      modifies this, journal
      ensures View() == ExecutorSpec.EnterOverrunReconcile(old(View()), env)
    {
      journal.state := Reconciling;
      context := OverrunContext;
      overrunAttempts := 0;
      Write();
      ArmIn(env.config.overrunConfirmation, ConfirmOverrun);
    }

    method HandleConfirmOverrun(env: Env)
      requires HasStep(journal.View())
      modifies this, journal
      ensures View() == ExecutorSpec.HandleConfirmOverrun(old(View()), env)
    {
      if journal.state != Reconciling || context != OverrunContext { return; }
      Observe(env);
      assert HasStep(journal.View());
      hide ExecutorSpec.Observe, ExecutorSpec.CompleteStep, ExecutorSpec.SendStop, ExecutorSpec.EndStep,
        ExecutorSpec.SkipRemaining, ExecutorSpec.FinishRun;
      if !OnPastEnd(journal.View()) {
        CompleteStep(env, if journal.expectedEnd.Some? then journal.expectedEnd.value else clock);
      } else if overrunAttempts == 0 {
        overrunAttempts := 1;
        ArmIn(env.config.overrunConfirmation, ConfirmOverrun);
      } else {
        StopOverrun(env);
      }
    }

    /** Two fresh reads past the end: stop the controller and fail the run. */
    method StopOverrun(env: Env)
      modifies this, journal
      ensures View() == ExecutorSpec.StopOverrun(old(View()), env)
    {
      hide ExecutorSpec.SendStop, ExecutorSpec.EndStep, ExecutorSpec.SkipRemaining, ExecutorSpec.FinishRun;
      SendStop(env);
      EndStep(journal.index, OverrunStopped, ControllerOverrun);
      SkipRemaining(ExternalActivity);
      FinishRun(RunFailed, Some(ControllerOverrun));
    }

    method EnterEarlyEndReconcile(env: Env)
      modifies this, journal
      ensures View() == ExecutorSpec.EnterEarlyEndReconcile(old(View()), env)
    {
      journal.state := Reconciling;
      context := EarlyEndContext;
      Write();
      ArmIn(env.config.overrunConfirmation, ConfirmEarlyEnd);
    }

    method ResumeWatering()
      modifies this, journal
      ensures View() == ExecutorSpec.ResumeWatering(old(View()))
    {
      context := NoContext;
      journal.state := Watering;
      if journal.pending.Some? && journal.pending.value.disposition == Sent {
        journal.SetDisposition(Accepted);
      }
      if journal.expectedEnd.Some? { ArmAt(journal.expectedEnd.value, OnExpectedEnd); }
    }

    method HandleConfirmEarlyEnd(env: Env)
      requires HasStep(journal.View())
      modifies this, journal
      ensures View() == ExecutorSpec.HandleConfirmEarlyEnd(old(View()), env)
    {
      if journal.state != Reconciling || context != EarlyEndContext { return; }
      Observe(env);
      assert HasStep(journal.View());
      hide ExecutorSpec.Observe, ExecutorSpec.ResumeWatering, ExecutorSpec.ClassifyEarlyEnd;
      var o := journal.lastObservation;
      if o.None? || journal.plan.value.steps[journal.index].zone in o.value.active {
        ResumeWatering();
        Write();
        return;
      }
      context := NoContext;
      ClassifyEarlyEnd(env, o.value);
    }

    method ClassifyEarlyEnd(env: Env, o: Observation)
      requires HasStep(journal.View())
      modifies this, journal
      ensures View() == ExecutorSpec.ClassifyEarlyEnd(old(View()), env, o)
    {
      hide ExecutorSpec.EndStep, ExecutorSpec.SkipRemaining, ExecutorSpec.FinishRun;
      CancelPendingTimer();
      if journal.stopRequested { return; }
      if o.Wet() {
        EndStep(journal.index, SensorCut, RainSensorWet);
        if RainPolicyOf(env).sensorCutBehavior == PauseUntilDry {
          journal.state := PausedSensor;
          journal.pausedAt := Some(clock);
          Write();
          return;
        }
        SkipRemaining(RainSensorWet);
        FinishRun(AbortedSensor, Some(RainSensorWet));
      } else if !o.sourceAvailable {
        EndStep(journal.index, ExternalStop, PowerLoss);
        SkipRemaining(SourceUnavailable);
        FinishRun(AbortedPowerLoss, Some(PowerLoss));
      } else {
        EndStep(journal.index, ExternalStop, StoppedOutside);
        SkipRemaining(ExternalActivity);
        FinishRun(AbortedExternal, Some(StoppedOutside));
      }
    }

    // -------------------------------------------------------------------
    // Uncertain commands

    method AcceptAt(env: Env, start: Instant, now: Instant)
      requires HasStep(journal.View())
      modifies this, journal
      ensures View() == ExecutorSpec.AcceptAt(old(View()), env, start, now)
    {
      BeginWatering(start, Accepted);
      assert HasStep(journal.View());
      hide ExecutorSpec.BeginWatering, ExecutorSpec.CompleteStep;
      if journal.expectedEnd.value <= now { CompleteStep(env, journal.expectedEnd.value); }
      else { ArmAt(journal.expectedEnd.value, OnExpectedEnd); }
    }

    method HandleClassifyUncertain(env: Env)
      requires HasStep(journal.View())
      modifies this, journal
      ensures View() == ExecutorSpec.HandleClassifyUncertain(old(View()), env)
    {
      if journal.state != Reconciling { return; }
      Observe(env);
      assert HasStep(journal.View());
      hide ExecutorSpec.Observe, ExecutorSpec.AcceptAt, ExecutorSpec.ExternalConflict, ExecutorSpec.RetryOrFail,
           ExternalZones;
      var o := journal.lastObservation;
      if o.Some? && journal.plan.value.steps[journal.index].zone in o.value.active {
        AcceptAt(env, if journal.pending.Some? then journal.pending.value.intendedAt else clock, clock);
        return;
      }
      if o.Some? {
        var external := ExternalZones(journal.View(), o.value, journal.index);
        if external != {} { ExternalConflict(env); return; }
      }
      RetryOrFail(env);
    }

    method RetryOrFail(env: Env)
      requires HasStep(journal.View())
      modifies this, journal
      ensures View() == ExecutorSpec.RetryOrFail(old(View()), env)
    {
      hide ExecutorSpec.FailRun, LatestPermissibleStart, RetryDelay;
      var attempts := journal.results[journal.index].attempts;
      journal.SetDisposition(CommandRejected);
      if attempts < MAX_COMMAND_ATTEMPTS && clock <= LatestPermissibleStart(journal.plan.value, env.config) {
        journal.retryCount := journal.retryCount + 1;
        Write();
        ArmIn(RetryDelay(attempts), RetryStep);
      } else {
        FailRun(CommandFailed, CommandFailed, CommandFailed);
      }
    }

    method HandleRetryStep(env: Env)
      requires HasStep(journal.View())
      modifies this, journal
      ensures View() == ExecutorSpec.HandleRetryStep(old(View()), env)
    {
      hide ExecutorSpec.StartStep;
      if journal.state != Reconciling { return; }
      journal.state := Waiting;
      StartStep(env);
    }

    method HandleRetryUncertainStop(env: Env)
      modifies this, journal
      ensures View() == ExecutorSpec.HandleRetryUncertainStop(old(View()), env)
    {
      hide ExecutorSpec.SendStop;
      if StopStillUncertain(journal.View()) { SendStop(env); }
    }

    // -------------------------------------------------------------------
    // Zone, sensor and weather events

    method ExternalConflict(env: Env)
      requires HasStep(journal.View())
      modifies this, journal
      ensures View() == ExecutorSpec.ExternalConflict(old(View()), env)
    {
      hide ExecutorSpec.EndStep, ExecutorSpec.SkipRemaining, ExecutorSpec.FinishRun;
      CancelPendingTimer();
      if journal.results[journal.index].status == Running {
        EndStep(journal.index, ExternalStop, ExternalActivity);
      }
      if env.program.Some? && env.program.value.interruption == Abort {
        SkipRemaining(ExternalActivity);
        FinishRun(AbortedExternal, Some(ExternalActivity));
        return;
      }
      journal.state := PausedExternal;
      journal.pausedAt := Some(clock);
      Write();
    }

    method ZoneEventDuringRun(env: Env, zone: ZoneId, isOn: bool, o: Observation)
      requires HasStep(journal.View())
      modifies this, journal
      ensures View() == ExecutorSpec.ZoneEventDuringRun(old(View()), env, zone, isOn, o)
    {
      hide ExecutorSpec.OwnZoneOn, ExecutorSpec.OwnZoneOff, ExecutorSpec.ExternalConflict, ExternalZones;
      var current := journal.plan.value.steps[journal.index].zone;
      if isOn && zone == current { OwnZoneOn(o); return; }
      if isOn && zone != current {
        if zone in ExternalZones(journal.View(), o, journal.index) { ExternalConflict(env); }
        return;
      }
      if !isOn && zone == current { OwnZoneOff(env, o); }
    }

    method OwnZoneOn(o: Observation)
      requires HasStep(journal.View())
      modifies this, journal
      ensures View() == ExecutorSpec.OwnZoneOn(old(View()), o)
    {
      Acknowledge();
      assert HasStep(journal.View());
      hide ExecutorSpec.Acknowledge, ExecutorSpec.ResumeWatering, ExecutorSpec.AcceptedNow;
      if journal.state == Reconciling && context == EarlyEndContext {
        ResumeWatering();
        Write();
        return;
      }
      if journal.state == Starting || (journal.state == Reconciling && context == StartContext) {
        AcceptedNow(o.observedAt);
        ArmAt(journal.expectedEnd.value, OnExpectedEnd);
      }
    }

    /** The zone reported on: a sent or uncertain command was accepted. */
    method Acknowledge()
      modifies this, journal
      ensures View() == ExecutorSpec.Acknowledge(old(View()))
    {
      if journal.pending.Some? &&
         (journal.pending.value.disposition == Sent || journal.pending.value.disposition == Uncertain) {
        journal.SetDisposition(Accepted);
        Write();
      }
    }

    method AcceptedNow(start: Instant)
      requires HasStep(journal.View())
      modifies this, journal
      ensures View() == ExecutorSpec.AcceptedNow(old(View()), start)
    {
      journal.state := Watering;
      journal.actualStart := Some(start);
      journal.expectedEnd := Some(start + 60 * journal.plan.value.steps[journal.index].duration);
      journal.results := journal.results[journal.index :=
        journal.results[journal.index].(status := Running, actualStart := Some(start))];
      Write();
    }

    method OwnZoneOff(env: Env, o: Observation)
      requires HasStep(journal.View())
      modifies this, journal
      ensures View() == ExecutorSpec.OwnZoneOff(old(View()), env, o)
    {
      hide ExecutorSpec.CompleteStep, ExecutorSpec.ClassifyEarlyEnd, ExecutorSpec.EnterEarlyEndReconcile;
      if journal.state != Watering || journal.expectedEnd.None? { return; }
      if o.observedAt >= journal.expectedEnd.value - env.config.earlyEndTolerance {
        CancelPendingTimer();
        CompleteStep(env, o.observedAt);
        return;
      }
      if o.Wet() || !o.sourceAvailable { ClassifyEarlyEnd(env, o); return; }
      EnterEarlyEndReconcile(env);
    }

    method ZoneEventDuringGap(env: Env, zone: ZoneId, isOn: bool, o: Observation)
      requires HasStep(journal.View())
      modifies this, journal
      ensures View() == ExecutorSpec.ZoneEventDuringGap(old(View()), env, zone, isOn, o)
    {
      hide ExecutorSpec.EnterOverrunReconcile, ExecutorSpec.ExternalConflict;
      if !isOn { return; }
      var step := journal.plan.value.steps[journal.index];
      var end := journal.results[journal.index].actualEnd;
      if zone == step.zone && end.Some? && o.ZoneReportedAt(zone) > end.value {
        if o.ZoneReportedAt(zone) - end.value <= OBSERVATION_FRESHNESS_WINDOW_SECONDS {
          journal.expectedEnd := end;
          EnterOverrunReconcile(env);
        } else {
          ExternalConflict(env);
        }
        return;
      }
      if zone != step.zone { ExternalConflict(env); }
    }

    method ResumeOrExpire(env: Env)
      requires journal.plan.Some? && |journal.results| == |journal.plan.value.steps|
      modifies this, journal
      ensures View() == ExecutorSpec.ResumeOrExpire(old(View()), env)
    {
      hide ExecutorSpec.Advance, SkipRunFor, LatestPermissibleStart, RunHasBegun;
      var pausedAt := journal.pausedAt;
      journal.pausedReason := None;
      journal.pausedAt := None;
      var expired: bool;
      if RunHasBegun(journal.results) {
        expired := pausedAt.Some? && clock - pausedAt.value > 60 * env.config.missedRunToleranceMinutes;
      } else {
        expired := clock > LatestPermissibleStart(journal.plan.value, env.config);
      }
      if !expired {
        journal.state := Waiting;
        Write();
        Advance(env);
        return;
      }
      SkipRun(MissedTolerance, CompletedWithSkips);
    }

    method FreezeCut(env: Env)
      requires HasStep(journal.View())
      modifies this, journal
      ensures View() == ExecutorSpec.FreezeCut(old(View()), env)
    {
      hide ExecutorSpec.SendStop, ExecutorSpec.EndStep, ExecutorSpec.SkipRemaining, ExecutorSpec.FinishRun;
      CancelPendingTimer();
      SendStop(env);
      EndStep(journal.index, SensorCut, LowTemperature);
      if FreezePolicyOf(env).freezeCutBehavior == PauseUntilDry {
        PauseWith(PausedSensor, LowTemperature);
        return;
      }
      SkipRemaining(LowTemperature);
      FinishRun(AbortedSensor, Some(LowTemperature));
    }

    // -------------------------------------------------------------------
    // Entry points: each keeps the invariant between two lock holds

    /** Between two lock holds, after any history. */
    ghost predicate Valid()
      reads this, journal
    {
      Rest(Any, View())
    }

    method StartRun(env: Env, plan: RunPlan) returns (error: StartError)
      requires Valid()
      modifies this, journal
      ensures Valid()
      ensures (View(), error) == ExecutorSpec.StartRun(old(View()).(clock := env.now), env, plan)
    {
      ghost var s := View().(clock := env.now);
      ClockRest(Any, View(), env.now);
      StartRunRest(Any, s, env, plan);
      hide Rest, ExecutorSpec.Advance, ExecutorSpec.FinishRun, ExecutorSpec.Claim;
      clock := env.now;
      if IsActive(journal.View()) { return ControllerBusy; }
      if Dedup.Contains(journal.completed, plan.occurrence) { return DuplicateOccurrence; }
      Claim(plan);
      if |plan.steps| == 0 { FinishRun(RunSkipped, Some(NoExecutableSteps)); }
      else { Advance(env); }
      return NoError;
    }

    method Claim(plan: RunPlan)
      modifies this, journal
      ensures View() == ExecutorSpec.Claim(old(View()), plan)
      ensures journal.plan == Some(plan) && |journal.results| == |plan.steps|
    {
      journal.Claim(plan);
      Write();
    }

    method Stop(env: Env, reason: string)
      requires Valid()
      modifies this, journal
      ensures Valid()
      ensures Readable(old(journal.View()))
      ensures View() == ExecutorSpec.StopRun(old(View()).(clock := env.now), env, reason)
    {
      StopReady(View(), env, reason);
      hide Rest, ExecutorSpec.RequestStop, ExecutorSpec.SendStop, ExecutorSpec.EndForStop,
           ExecutorSpec.SkipRemaining, ExecutorSpec.FinishRun;
      clock := env.now;
      var hadRun := RequestStop();
      SendStop(env);
      if hadRun { FinishStop(reason); } else { ForgetStop(); }
    }

    method ForgetStop()
      modifies this, journal
      ensures View() == ExecutorSpec.Write(old(View()).(j := old(journal.View()).(stopRequested := false)))
    {
      journal.stopRequested := false;
      Write();
    }

    method RequestStop() returns (hadRun: bool)
      modifies this, journal
      ensures View() == ExecutorSpec.RequestStop(old(View()))
      ensures hadRun <==> IsActive(old(journal.View())) && old(journal.plan).Some?
    {
      journal.stopRequested := true;
      hadRun := IsActive(journal.View()) && journal.plan.Some?;
      if hadRun { journal.state := Stopping; }
      CancelPendingTimer();
      Write();
    }

    method FinishStop(reason: string)
      requires HasStep(journal.View())
      modifies this, journal
      ensures View() == ExecutorSpec.FinishRun(ExecutorSpec.SkipRemaining(EndForStop(old(View()), reason), UserStop),
                                               AbortedUser, Some(UserText(reason)))
    {
      hide ExecutorSpec.EndStep, ExecutorSpec.SkipRemaining, ExecutorSpec.FinishRun;
      var status := journal.results[journal.index].status;
      if status == Running || status == Pending {
        EndStep(journal.index, if status == Running then ExternalStop else Skipped, UserText(reason));
      }
      SkipRemaining(UserStop);
      FinishRun(AbortedUser, Some(UserText(reason)));
    }

    /** Leave the current step: stop it if it runs, or if its start may have been accepted. */
    method LeaveStep(env: Env)
      requires HasStep(journal.View())
      modifies this, journal
      ensures View() == ExecutorSpec.LeaveStep(old(View()), env)
    {
      hide ExecutorSpec.SendStop;
      var state := journal.state;
      CancelPendingTimer();
      var status := journal.results[journal.index].status;
      if status == Running { SendStop(env); }
      else if state == Reconciling && status == Pending { SendStop(env); }
    }

    method PauseRun(env: Env, reason: string)
      requires Valid()
      modifies this, journal
      ensures Valid()
      ensures Readable(old(journal.View()))
      ensures View() == ExecutorSpec.PauseRun(old(View()).(clock := env.now), env, reason)
    {
      RestReadable(Any, View());
      ClockRest(Any, View(), env.now);
      PauseRunRest(Any, View().(clock := env.now), env, reason);
      hide Rest, ExecutorSpec.LeaveStep, ExecutorSpec.EndStep, ExecutorSpec.PauseWith;
      clock := env.now;
      if !IsActive(journal.View()) || journal.plan.None? { return; }
      var running := journal.results[journal.index].status == Running;
      LeaveStep(env);
      if running { EndStep(journal.index, ExternalStop, UserText(reason)); }
      PauseWith(PausedExternal, UserText(reason));
    }

    method PauseWith(state: ExecutorState, why: Reason)
      modifies this, journal
      ensures View() == ExecutorSpec.PauseWith(old(View()), state, why)
    {
      journal.state := state;
      journal.pausedReason := Some(why);
      journal.pausedAt := Some(clock);
      Write();
    }

    method ResumeRun(env: Env)
      requires Valid()
      modifies this, journal
      ensures Valid()
      ensures Readable(old(journal.View()))
      ensures View() == ExecutorSpec.ResumeRun(old(View()).(clock := env.now), env)
    {
      RestReadable(Any, View());
      ClockRest(Any, View(), env.now);
      ResumeRunRest(Any, View().(clock := env.now), env);
      PausedHasPlan(Any, View());
      hide Rest, ExecutorSpec.ResumeOrExpire;
      clock := env.now;
      if !IsPaused(journal.View()) { return; }
      journal.pausedReason := None;
      ResumeOrExpire(env);
    }

    method SkipCurrent(env: Env)
      requires Valid()
      modifies this, journal
      ensures Valid()
      ensures Readable(old(journal.View()))
      ensures View() == ExecutorSpec.SkipCurrent(old(View()).(clock := env.now), env)
    {
      SkipReady(View(), env);
      hide Rest, ExecutorSpec.LeaveStep, ExecutorSpec.EndStep;
      clock := env.now;
      if journal.plan.None? || !IsActive(journal.View()) { return; }
      LeaveStep(env);
      EndStep(journal.index, Skipped, UserSkip);
      WaitOutGap(env.config.interZoneGap);
    }

    method WaitOutGap(gap: int)
      modifies this, journal
      ensures View() == ExecutorSpec.ArmIn(
        ExecutorSpec.Write(old(View()).(j := old(journal.View()).(state := InterZoneGap))), gap, OnGap)
    {
      journal.state := InterZoneGap;
      Write();
      ArmIn(gap, OnGap);
    }

    method NoteObservation(env: Env, o: Observation)
      modifies this, journal
      ensures View() == ExecutorSpec.NoteObservation(old(View()).(clock := env.now), o)
    {
      clock := env.now;
      journal.lastObservation := Some(o);
    }

    method HandleZoneState(env: Env, zone: ZoneId, isOn: bool, o: Observation)
      requires Valid()
      modifies this, journal
      ensures Valid()
      ensures Readable(old(journal.View()))
      ensures View() == ExecutorSpec.HandleZoneState(old(View()).(clock := env.now), env, zone, isOn, o)
    {
      RestReadable(Any, View());
      ClockRest(Any, View(), env.now);
      ZoneStateRest(Any, View().(clock := env.now), env, zone, isOn, o);
      hide Rest, ExecutorSpec.ZoneEventDuringRun, ExecutorSpec.ZoneEventDuringGap, ExecutorSpec.ResumeOrExpire,
           SensorPauseCleared;
      NoteObservation(env, o);
      var state := journal.state;
      if journal.plan.None? { return; }
      if state == Watering || state == Starting || state == Reconciling {
        ZoneEventDuringRun(env, zone, isOn, o);
      } else if state == InterZoneGap {
        ZoneEventDuringGap(env, zone, isOn, o);
      } else if (state == PausedExternal && o.active == {} && journal.pausedReason.None?) ||
                (state == PausedSensor && SensorPauseCleared(journal.View(), env, o)) {
        ResumeOrExpire(env);
      }
    }

    method HandleSensorState(env: Env, o: Observation)
      requires Valid()
      modifies this, journal
      ensures Valid()
      ensures Readable(old(journal.View()))
      ensures View() == ExecutorSpec.HandleSensorState(old(View()).(clock := env.now), env, o)
    {
      RestReadable(Any, View());
      ClockRest(Any, View(), env.now);
      SensorStateRest(Any, View().(clock := env.now), env, o);
      PausedHasPlan(Any, View());
      hide Rest, ExecutorSpec.ResumeOrExpire, SensorPauseCleared;
      NoteObservation(env, o);
      if journal.state == PausedSensor && SensorPauseCleared(journal.View(), env, o) { ResumeOrExpire(env); }
    }

    method HandleWeatherState(env: Env, o: Observation)
      requires Valid()
      modifies this, journal
      ensures Valid()
      ensures Readable(old(journal.View()))
      ensures View() == ExecutorSpec.HandleWeatherState(old(View()).(clock := env.now), env, o)
    {
      RestReadable(Any, View());
      ClockRest(Any, View(), env.now);
      WeatherStateRest(Any, View().(clock := env.now), env, o);
      hide Rest, ExecutorSpec.ResumeOrExpire, ExecutorSpec.FreezeCut, SensorPauseCleared, FreezeActive;
      NoteObservation(env, o);
      if journal.plan.None? { return; }
      var guard := env.config.freezeGuard;
      if journal.state == Watering {
        if guard.enabled && FreezePolicyOf(env).skipWhenFreezing && FreezeActive(guard, o) == Some(true) {
          FreezeCut(env);
        }
      } else if journal.state == PausedSensor && SensorPauseCleared(journal.View(), env, o) {
        ResumeOrExpire(env);
      }
    }

    /** The timer scheduler runs a callback it was given, cancelled or not. */
    method Fire(env: Env, t: Timer)
      requires Valid() && t in issued
      modifies this, journal
      ensures Valid()
      ensures Readable(old(journal.View()))
      ensures View() == ExecutorSpec.Fire(old(View()).(clock := env.now), env, t)
    {
      RestReadable(Any, View());
      ClockRest(Any, View(), env.now);
      FireRest(Any, View().(clock := env.now), env, t);
      hide Rest, ExecutorSpec.Dispatch;
      clock := env.now;
      issued := issued - {t};
      if t.generation != generation { return; }
      timer := None;
      Dispatch(env, t.handler);
    }

    method Dispatch(env: Env, handler: Handler)
      requires Readable(journal.View())
      modifies this, journal
      ensures View() == ExecutorSpec.Dispatch(old(View()), env, handler)
    {
      hide ExecutorSpec.HandleExpectedEnd, ExecutorSpec.HandleGap, ExecutorSpec.HandleConfirmOverrun,
        ExecutorSpec.HandleConfirmEarlyEnd, ExecutorSpec.HandleClassifyUncertain, ExecutorSpec.HandleRetryStep,
        ExecutorSpec.HandleRetryUncertainStop;
      if journal.plan.None? {
        if handler == RetryUncertainStop { HandleRetryUncertainStop(env); }
        return;
      }
      match handler {
        case OnExpectedEnd => HandleExpectedEnd(env);
        case OnGap => HandleGap(env);
        case ConfirmOverrun => HandleConfirmOverrun(env);
        case ConfirmEarlyEnd => HandleConfirmEarlyEnd(env);
        case ClassifyUncertain => HandleClassifyUncertain(env);
        case RetryStep => HandleRetryStep(env);
        case RetryUncertainStop => HandleRetryUncertainStop(env);
      }
    }

    // -------------------------------------------------------------------
    // Restart recovery

    method CompleteOrExpire(env: Env, end: Instant)
      requires HasStep(journal.View())
      modifies this, journal
      ensures View() == ExecutorSpec.CompleteOrExpire(old(View()), env, end)
    {
      hide ExecutorSpec.CompleteStep, ExecutorSpec.EndStep, ExecutorSpec.SkipRemaining, ExecutorSpec.FinishRun;
      if clock - end <= 60 * env.config.missedRunToleranceMinutes { CompleteStep(env, end); return; }
      EndStep(journal.index, Completed, RestartMissedTolerance);
      SkipRemaining(RestartMissedTolerance);
      FinishRun(CompletedWithSkips, Some(RestartMissedTolerance));
    }

    method RecoverWatering(env: Env, zoneActive: bool)
      requires HasStep(journal.View())
      modifies this, journal
      ensures View() == ExecutorSpec.RecoverWatering(old(View()), env, zoneActive)
    {
      hide ExecutorSpec.CompleteStep, ExecutorSpec.CompleteOrExpire;
      var end := if journal.expectedEnd.Some? then journal.expectedEnd.value else clock;
      if zoneActive {
        if end <= clock { CompleteStep(env, end); } else { ArmAt(end, OnExpectedEnd); }
        return;
      }
      if end <= clock { CompleteOrExpire(env, end); return; }
      ArmAt(end, OnExpectedEnd);
    }

    method RecoverEndReconcile(env: Env, o: Option<Observation>, zoneActive: bool)
      requires HasStep(journal.View())
      modifies this, journal
      ensures View() == ExecutorSpec.RecoverEndReconcile(old(View()), env, o, zoneActive)
    {
      hide ExecutorSpec.EnterOverrunReconcile, ExecutorSpec.EnterEarlyEndReconcile, ExecutorSpec.ResumeWatering,
        ExecutorSpec.CompleteOrExpire, ExecutorSpec.ClassifyEarlyEnd;
      var end := if journal.expectedEnd.Some? then journal.expectedEnd.value else clock;
      if o.None? {
        if end <= clock { EnterOverrunReconcile(env); } else { EnterEarlyEndReconcile(env); }
        return;
      }
      if zoneActive {
        if end <= clock { EnterOverrunReconcile(env); }
        else {
          ResumeWatering();
          Write();
        }
        return;
      }
      if end <= clock { CompleteOrExpire(env, end); return; }
      ClassifyEarlyEnd(env, o.value);
    }

    method RecoverStart(env: Env, zoneActive: bool)
      requires HasStep(journal.View())
      modifies this, journal
      ensures View() == ExecutorSpec.RecoverStart(old(View()), env, zoneActive)
    {
      hide ExecutorSpec.AcceptAt, ExecutorSpec.StartStep, SkipRunFor, LatestPermissibleStart;
      if zoneActive {
        AcceptAt(env, if journal.pending.Some? then journal.pending.value.intendedAt else clock, clock);
        return;
      }
      if clock <= LatestPermissibleStart(journal.plan.value, env.config) {
        journal.state := Waiting;
        Write();
        StartStep(env);
        return;
      }
      SkipRun(RestartMissedTolerance, CompletedWithSkips);
    }

    method RecoverLocked(env: Env, o: Option<Observation>)
      requires journal.plan.Some? && |journal.results| == |journal.plan.value.steps|
      modifies this, journal
      ensures View() == ExecutorSpec.RecoverLocked(old(View()), env, o)
    {
      hide ExecutorSpec.FinishRun, ExecutorSpec.SkipRemaining, ExecutorSpec.RecoverWatering, ForeignZones,
        ExecutorSpec.RecoverEndReconcile, ExecutorSpec.RecoverStart, ExecutorSpec.ArmGapToNextStart, EndContext;
      if journal.index >= |journal.plan.value.steps| {
        FinishRun(CompletedWithSkips, Some(RecoveredPastEnd));
        return;
      }
      var step := journal.plan.value.steps[journal.index];
      var zoneActive := o.Some? && step.zone in o.value.active;
      var external := ForeignZones(journal.View(), o);
      var state := journal.state;
      if state == Stopping || journal.stopRequested {
        SkipRemaining(UserStop);
        FinishRun(AbortedUser, Some(UserStop));
        return;
      }
      if external != {} {
        journal.state := PausedExternal;
        if journal.pausedAt.None? { journal.pausedAt := Some(clock); }
        Write();
        return;
      }
      if state == PausedExternal || state == PausedSensor { Write(); return; }
      if state == Watering { RecoverWatering(env, zoneActive); return; }
      if EndContext(journal.View()) { RecoverEndReconcile(env, o, zoneActive); return; }
      if state == Starting || state == Reconciling || state == Waiting { RecoverStart(env, zoneActive); return; }
      if state == InterZoneGap { ArmGapToNextStart(env); }
    }

    /** A restarted executor holds a stored journal and nothing else. */
    method Recover(env: Env)
      requires Stored(journal.View()) && timer.None? && issued == {} && Log(Any, View())
      modifies this, journal
      ensures Valid()
      ensures View() == ExecutorSpec.Recover(old(View()), env)
    {
      RebootedRest(View(), env);
      hide ExecutorSpec.RecoverLocked, Rest, Log;
      if !IsActive(journal.View()) || journal.plan.None? { return; }
      Observe(env);
      RecoverLocked(env, env.read);
    }
  }
}
