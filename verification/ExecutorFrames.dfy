/** What a lock hold leaves alone: no status returns to PENDING, and a start command is
    only ever sent by starting a step. */
module ExecutorFrames {
  import opened Domain
  import opened ExecutorSpec
  import opened ExecutorInvariant
  import Dedup

  /** The start commands among the executor's effects, oldest first. */
  function Starts(es: seq<Effect>): seq<Effect> {
    if es == [] then [] else
    Starts(es[..|es| - 1]) + (if es[|es| - 1].StartZone? then [es[|es| - 1]] else [])
  }

  /** `r` follows `s` without a start: same plan or none, and nothing becomes PENDING again. */
  predicate Keeps(s: Exec, r: Exec) {
    && Starts(r.effects) == Starts(s.effects)
    && (r.j.plan.Some? ==>
         && r.j.plan == s.j.plan && |r.j.results| == |s.j.results| && r.j.index == s.j.index
         && forall k :: 0 <= k < |r.j.results| && r.j.results[k].status == Pending ==> s.j.results[k].status == Pending)
  }

  lemma {:induction false} StartsAppend(es: seq<Effect>, e: Effect)
    ensures Starts(es + [e]) == Starts(es) + (if e.StartZone? then [e] else [])
  {
    assert (es + [e])[..|es|] == es;
  }

  lemma FinishKeeps(s: Exec, outcome: RunOutcome, reason: Option<Reason>)
    ensures Keeps(s, FinishRun(s, outcome, reason)) && FinishRun(s, outcome, reason).j.state == Idle
  {
    if s.j.plan.Some? { StartsAppend(s.effects, RunFinished(s.j.plan.value, outcome, reason, s.j.results)); }
    hide Starts, Dedup.Record;
  }

  lemma SendStopKeeps(s: Exec, env: Env)
    ensures var r := SendStop(s, env);
      Keeps(s, r) && r.j == s.j.(pending := r.j.pending, uncertainCount := r.j.uncertainCount)
  {
    StartsAppend(s.effects, StopController(s.clock));
    hide Starts;
  }

  lemma EndStepKeeps(s: Exec, index: nat, status: StepStatus, reason: Reason)
    requires status != Pending
    ensures Keeps(s, EndStep(s, index, status, reason))
  {
    hide Starts;
  }

  lemma SkipFinishKeeps(s: Exec, skip: Reason, outcome: RunOutcome, reason: Option<Reason>)
    ensures var r := FinishRun(SkipRemaining(s, skip), outcome, reason); Keeps(s, r) && r.j.state == Idle
  {
    FinishKeeps(SkipRemaining(s, skip), outcome, reason);
    hide Starts, FinishRun;
  }

  lemma EndAndFinishKeeps(s: Exec, status: StepStatus, why: Reason, skip: Reason, outcome: RunOutcome, reason: Reason)
    requires status != Pending
    ensures var r := FinishRun(SkipRemaining(EndStep(s, s.j.index, status, why), skip), outcome, Some(reason));
      Keeps(s, r) && r.j.state == Idle
  {
    EndStepKeeps(s, s.j.index, status, why);
    SkipFinishKeeps(EndStep(s, s.j.index, status, why), skip, outcome, Some(reason));
    hide Starts, FinishRun, SkipRemaining;
  }

  lemma CompleteKeeps(s: Exec, env: Env, end: Instant)
    requires HasStep(s.j)
    ensures Keeps(s, CompleteStep(s, env, end))
  {
    hide Starts, GapTarget;
  }

  lemma AcceptKeeps(s: Exec, env: Env, start: Instant, now: Instant)
    requires HasStep(s.j)
    ensures var r := AcceptAt(s, env, start, now);
      Keeps(s, r) && r.j.results[r.j.index].status != Pending && r.j.plan.Some?
  {
    var s1 := BeginWatering(s, start, Accepted);
    assert Keeps(s, s1) by { hide Starts; }
    CompleteKeeps(s1, env, s1.j.expectedEnd.value);
    hide Starts, GapTarget;
  }

  lemma ClassifyEarlyEndKeeps(s: Exec, env: Env, o: Observation)
    requires HasStep(s.j)
    ensures Keeps(s, ClassifyEarlyEnd(s, env, o))
  {
    hide Starts, FinishRun, SkipRemaining, EndStep;
    var s1 := CancelTimer(s);
    EndStepKeeps(s1, s1.j.index, SensorCut, RainSensorWet);
    EndAndFinishKeeps(s1, SensorCut, RainSensorWet, RainSensorWet, AbortedSensor, RainSensorWet);
    EndAndFinishKeeps(s1, ExternalStop, PowerLoss, SourceUnavailable, AbortedPowerLoss, PowerLoss);
    EndAndFinishKeeps(s1, ExternalStop, StoppedOutside, ExternalActivity, AbortedExternal, StoppedOutside);
  }

  lemma StopOverrunKeeps(s: Exec, env: Env)
    ensures Keeps(s, StopOverrun(s, env))
  {
    hide Starts, FinishRun, SkipRemaining, EndStep, SendStop;
    SendStopKeeps(s, env);
    EndAndFinishKeeps(SendStop(s, env), OverrunStopped, ControllerOverrun, ExternalActivity, RunFailed,
                      ControllerOverrun);
  }

  lemma ConfirmOverrunKeeps(s: Exec, env: Env)
    requires HasStep(s.j)
    ensures Keeps(s, HandleConfirmOverrun(s, env))
  {
    var s1 := Observe(s, env);
    assert Keeps(s, s1) && HasStep(s1.j) by { hide Starts; }
    hide Starts, Observe, StopOverrun, CompleteStep, OnPastEnd;
    CompleteKeeps(s1, env, EndOrNow(s1));
    StopOverrunKeeps(s1, env);
  }

  lemma ConfirmEarlyEndKeeps(s: Exec, env: Env)
    requires HasStep(s.j)
    ensures Keeps(s, HandleConfirmEarlyEnd(s, env))
  {
    var s1 := Observe(s, env);
    if s1.j.lastObservation.Some? {
      ClassifyEarlyEndKeeps(s1.(context := NoContext), env, s1.j.lastObservation.value);
    }
    hide Starts, ClassifyEarlyEnd;
  }

  lemma ExternalConflictKeeps(s: Exec, env: Env)
    requires HasStep(s.j)
    ensures Keeps(s, ExternalConflict(s, env))
  {
    var s1 := CancelTimer(s);
    var s2 := if CurrentStatus(s1.j) == Running
              then EndStep(s1, s1.j.index, ExternalStop, ExternalActivity) else s1;
    EndStepKeeps(s1, s1.j.index, ExternalStop, ExternalActivity);
    SkipFinishKeeps(s2, ExternalActivity, AbortedExternal, Some(ExternalActivity));
    hide Starts, FinishRun, SkipRemaining, EndStep;
  }

  lemma FailAfterCommandKeeps(s: Exec)
    ensures Keeps(s, FailRun(s, CommandFailed, CommandFailed, CommandFailed))
  {
    hide Starts, FinishRun, SkipRemaining, EndStep;
    EndAndFinishKeeps(s, StepFailed, CommandFailed, CommandFailed, RunFailed, CommandFailed);
  }

  lemma RetryOrFailKeeps(s: Exec, env: Env)
    requires HasStep(s.j)
    ensures Keeps(s, RetryOrFail(s, env))
  {
    hide Starts, FailRun, LatestPermissibleStart, RetryDelay;
    FailAfterCommandKeeps(s.(j := SetDisposition(s.j, CommandRejected)));
  }

  lemma ClassifyUncertainKeeps(s: Exec, env: Env)
    requires HasStep(s.j)
    ensures Keeps(s, HandleClassifyUncertain(s, env))
  {
    var s1 := Observe(s, env);
    assert Keeps(s, s1) && HasStep(s1.j) by { hide Starts; }
    hide Starts, AcceptAt, ExternalConflict, RetryOrFail, ExternalZones, Observe, HasStep;
    var o := s1.j.lastObservation;
    if o.Some? && CurrentStep(s1.j).zone in o.value.active { AcceptKeeps(s1, env, CommandTime(s1), s1.clock); }
    else if o.Some? && ExternalZones(s1.j, o.value, s1.j.index) != {} { ExternalConflictKeeps(s1, env); }
    else { RetryOrFailKeeps(s1, env); }
  }

  lemma OwnZoneOnKeeps(s: Exec, o: Observation)
    requires HasStep(s.j)
    ensures Keeps(s, OwnZoneOn(s, o))
  {
    hide Starts;
  }

  lemma OwnZoneOffKeeps(s: Exec, env: Env, o: Observation)
    requires HasStep(s.j)
    ensures Keeps(s, OwnZoneOff(s, env, o))
  {
    CompleteKeeps(CancelTimer(s), env, o.observedAt);
    ClassifyEarlyEndKeeps(s, env, o);
    hide Starts, CompleteStep, ClassifyEarlyEnd;
  }

  lemma ZoneDuringRunKeeps(s: Exec, env: Env, zone: ZoneId, isOn: bool, o: Observation)
    requires HasStep(s.j)
    ensures Keeps(s, ZoneEventDuringRun(s, env, zone, isOn, o))
  {
    hide Starts, OwnZoneOn, OwnZoneOff, ExternalConflict, ExternalZones;
    OwnZoneOnKeeps(s, o);
    OwnZoneOffKeeps(s, env, o);
    ExternalConflictKeeps(s, env);
  }

  lemma ZoneDuringGapKeeps(s: Exec, env: Env, zone: ZoneId, isOn: bool, o: Observation)
    requires HasStep(s.j)
    ensures Keeps(s, ZoneEventDuringGap(s, env, zone, isOn, o))
  {
    hide Starts, ExternalConflict;
    ExternalConflictKeeps(s, env);
  }

  lemma ExpectedEndKeeps(s: Exec, env: Env)
    requires HasStep(s.j)
    ensures Keeps(s, HandleExpectedEnd(s, env))
  {
    hide Starts, CompleteStep, OnPastEnd;
    CompleteKeeps(s, env, EndOrNow(s));
  }

  lemma FreezeCutKeeps(s: Exec, env: Env)
    requires HasStep(s.j)
    ensures Keeps(s, FreezeCut(s, env))
  {
    SendStopKeeps(CancelTimer(s), env);
    var s1 := SendStop(CancelTimer(s), env);
    EndStepKeeps(s1, s1.j.index, SensorCut, LowTemperature);
    EndAndFinishKeeps(s1, SensorCut, LowTemperature, LowTemperature, AbortedSensor, LowTemperature);
    hide Starts, FinishRun, SkipRemaining, EndStep, SendStop;
  }

  lemma StopRunKeeps(s: Exec, env: Env, reason: string)
    requires Readable(s.j)
    ensures Keeps(s, StopRun(s, env, reason))
    ensures IsActive(s.j) && s.j.plan.Some? ==> StopRun(s, env, reason).j.state == Idle
  {
    var hadRun := IsActive(s.j) && s.j.plan.Some?;
    var s0 := RequestStop(s);
    SendStopKeeps(s0, env);
    var s1 := SendStop(s0, env);
    if hadRun {
      var s2 := EndForStop(s1, reason);
      assert Keeps(s1, s2) by {
        EndStepKeeps(s1, s1.j.index, ExternalStop, UserText(reason));
        EndStepKeeps(s1, s1.j.index, Skipped, UserText(reason));
        hide Starts, EndStep;
      }
      SkipFinishKeeps(s2, UserStop, AbortedUser, Some(UserText(reason)));
    }
    hide Starts, FinishRun, SkipRemaining, EndForStop, SendStop;
  }

  // ---------------------------------------------------------------------
  // The handlers that start a step

  /** Nothing stands between the current step and its start command. */
  predicate Sends(s: Exec, env: Env) {
    HasStep(s.j) && PreStepBlock(s.j, env, s.j.index) == NoBlock && CurrentStep(s.j).zone in env.resolvable
  }

  /** `r` follows `s` by one start command for the step at `index`, sent at `at`. */
  predicate SentOne(s: Exec, r: Exec, index: nat, at: Instant, result: StartResult) {
    && Starts(r.effects) == Starts(s.effects) + [StartZone(index, at, result)]
    && (result == StartRejected ==> r.j.state == Idle && r.j.plan.None?)
    && (result != StartRejected ==>
         && r.j.plan == s.j.plan && |r.j.results| == |s.j.results| && r.j.index == index < |s.j.results|
         && (forall k :: 0 <= k < |r.j.results| && r.j.results[k].status == Pending ==>
               s.j.results[k].status == Pending)
         && (if result == StartOk then r.j.state == Watering && r.j.results[index].status == Running
             else r.j.state == Reconciling && r.context == StartContext && Armed(r, ClassifyUncertain)
                  && r.j.pending.Some? && r.j.pending.value.StartCommand? && r.j.pending.value.intendedAt == at
                  && r.j.results[index] == s.j.results[index].(attempts := s.j.results[index].attempts + 1)))
  }

  lemma CommandedStarts(s: Exec, env: Env)
    requires HasStep(s.j)
    ensures var s1 := Commanded(s, env);
      && HasStep(s1.j) && Starts(s1.effects) == Starts(s.effects) + [StartZone(s.j.index, s.clock, env.start)]
      && s1.j.plan == s.j.plan && |s1.j.results| == |s.j.results| && s1.j.index == s.j.index
      && s1.j.pending.Some? && s1.j.pending.value.StartCommand? && s1.j.pending.value.intendedAt == s.clock
      && s1.j.results
         == s.j.results[s.j.index := s.j.results[s.j.index].(attempts := s.j.results[s.j.index].attempts + 1)]
  {
    StartsAppend(s.effects, StartZone(s.j.index, s.clock, env.start));
    hide Starts;
  }

  lemma SendStartSends(s: Exec, env: Env)
    requires HasStep(s.j)
    ensures SentOne(s, SendStart(s, env), s.j.index, s.clock, env.start)
  {
    hide SendStart, SentOne;
    match env.start {
      case StartRejected => RejectedSends(s, env);
      case StartUncertain => UncertainSends(s, env);
      case StartOk => AcceptedSends(s, env);
    }
  }

  lemma RejectedSends(s: Exec, env: Env)
    requires HasStep(s.j) && env.start == StartRejected
    ensures SentOne(s, SendStart(s, env), s.j.index, s.clock, env.start)
  {
    var s1 := Commanded(s, env);
    CommandedStarts(s, env);
    hide Starts, FailRun, Commanded;
    RejectedSettles(s1.(j := SetDisposition(s1.j, CommandRejected)));
  }

  lemma UncertainSends(s: Exec, env: Env)
    requires HasStep(s.j) && env.start == StartUncertain
    ensures SentOne(s, SendStart(s, env), s.j.index, s.clock, env.start)
  {
    CommandedStarts(s, env);
    hide Starts, FailRun, Commanded;
  }

  lemma AcceptedSends(s: Exec, env: Env)
    requires HasStep(s.j) && env.start == StartOk
    ensures SentOne(s, SendStart(s, env), s.j.index, s.clock, env.start)
  {
    CommandedStarts(s, env);
    hide Starts, FailRun, Commanded;
  }

  lemma RejectedSettles(s: Exec)
    ensures var r := FailRun(s, Rejected, SourceUnavailable, Rejected);
      Keeps(s, r) && r.j.state == Idle && r.j.plan.None?
  {
    hide Starts, FinishRun, SkipRemaining, EndStep;
    EndAndFinishKeeps(s, StepFailed, Rejected, SourceUnavailable, RunFailed, Rejected);
    FinishIdle(SkipRemaining(EndStep(s, s.j.index, StepFailed, Rejected), SourceUnavailable), RunFailed,
               Some(Rejected));
  }

  lemma FinishIdle(s: Exec, outcome: RunOutcome, reason: Option<Reason>)
    ensures var r := FinishRun(s, outcome, reason); r.j.state == Idle && r.j.plan.None?
  {
    hide Dedup.Record;
  }

  lemma SkipRunForKeeps(s: Exec, reason: Reason, o: RunOutcome)
    ensures Keeps(s, SkipRunFor(s, reason, o))
  {
    SkipFinishKeeps(s, reason, o, Some(reason));
    SkipFinishKeeps(s, reason, RunSkipped, Some(reason));
    hide Starts, FinishRun, SkipRemaining;
  }

  lemma StartStepSends(s: Exec, env: Env)
    requires HasStep(s.j)
    ensures Sends(s, env) ==> SentOne(s, StartStep(s, env), s.j.index, s.clock, env.start)
    ensures !Sends(s, env) ==> Keeps(s, StartStep(s, env))
  {
    hide Starts, PreStepBlock, SkipRunFor, FinishRun, SkipRemaining, EndStep, SendStart, SentOne;
    match PreStepBlock(s.j, env, s.j.index) {
      case BlockDelay => SkipRunForKeeps(s, RainDelay, CompletedWithSkips);
      case BlockWet => SkipRunForKeeps(s, RainSensorWet, AbortedSensor);
      case BlockFreeze => SkipRunForKeeps(s, LowTemperature, AbortedSensor);
      case BlockExternal =>
      case NoBlock =>
        SendStartSends(s, env);
        EndAndFinishKeeps(s, StepFailed, SourceUnavailable, SourceUnavailable, RunFailed, ZoneUnresolved);
    }
  }

  /** Going on with the run: at most one start, of the first pending step. */
  predicate SendsFirstPending(s: Exec, r: Exec, env: Env, at: Instant) {
    || KeepsRun(s, r)
    || exists i: nat :: i < |s.j.results| && i == NextPending(s.j.results) && SentOne(s, r, i, at, env.start)
  }

  /** As `Keeps`, but the current step may have moved. */
  predicate KeepsRun(s: Exec, r: Exec) {
    && Starts(r.effects) == Starts(s.effects)
    && (r.j.plan.Some? ==>
         && r.j.plan == s.j.plan && |r.j.results| == |s.j.results|
         && forall k :: 0 <= k < |r.j.results| && r.j.results[k].status == Pending ==> s.j.results[k].status == Pending)
  }

  lemma NextStepSends(s: Exec, s1: Exec, env: Env, next: nat)
    requires s.j.plan.Some? && |s.j.results| == |s.j.plan.value.steps| > next == NextPending(s.j.results)
    requires s1 == s.(j := s.j.(index := next))
    ensures SendsFirstPending(s, StartStep(s1, env), env, s.clock)
  {
    var r := StartStep(s1, env);
    hide Starts, StartStep, PreStepBlock, NextPending;
    StartStepSends(s1, env);
    if Sends(s1, env) { assert SentOne(s, r, next, s.clock, env.start); } else { assert KeepsRun(s, r); }
  }

  lemma AdvanceSends(s: Exec, env: Env)
    requires s.j.plan.Some? && |s.j.results| == |s.j.plan.value.steps|
    ensures SendsFirstPending(s, Advance(s, env), env, s.clock)
  {
    var next := NextPending(s.j.results);
    if next == |s.j.results| {
      FinishKeeps(s, RunCompleted, None);
      FinishKeeps(s, CompletedWithSkips, Some(SomeStepsSkipped));
      hide Starts, FinishRun;
    } else {
      var s1 := s.(j := s.j.(index := next));
      assert Advance(s, env) == StartStep(s1, env);
      hide StartStep, Advance, NextPending, SendsFirstPending;
      NextStepSends(s, s1, env, next);
    }
  }

  /** Only the effects, the plan and the results matter to what follows. */
  lemma SameRunSends(s: Exec, s': Exec, r: Exec, env: Env, at: Instant)
    requires s.effects == s'.effects && s.j.plan == s'.j.plan && s.j.results == s'.j.results
    requires SendsFirstPending(s, r, env, at) || KeepsRun(s, r)
    ensures SendsFirstPending(s', r, env, at)
  {
    hide Starts, NextPending;
    if !KeepsRun(s', r) {
      var i: nat :| i < |s.j.results| && i == NextPending(s.j.results) && SentOne(s, r, i, at, env.start);
      assert SentOne(s', r, i, at, env.start);
    }
  }

  lemma ResumeOrExpireSends(s: Exec, env: Env)
    requires s.j.plan.Some? && |s.j.results| == |s.j.plan.value.steps|
    ensures SendsFirstPending(s, ResumeOrExpire(s, env), env, s.clock)
  {
    var s1 := s.(j := s.j.(pausedReason := None, pausedAt := None));
    var s2 := Write(s1.(j := s1.j.(state := Waiting)));
    hide Starts, SkipRunFor, Advance, RunHasBegun, LatestPermissibleStart, NextPending, SendsFirstPending;
    AdvanceSends(s2, env);
    SameRunSends(s2, s, Advance(s2, env), env, s.clock);
    SkipRunForKeeps(s1, MissedTolerance, CompletedWithSkips);
    SameRunSends(s1, s, SkipRunFor(s1, MissedTolerance, CompletedWithSkips), env, s.clock);
  }

  lemma RetryStepSends(s: Exec, env: Env)
    requires HasStep(s.j)
    ensures Keeps(s, HandleRetryStep(s, env)) || SentOne(s, HandleRetryStep(s, env), s.j.index, s.clock, env.start)
  {
    var s1 := s.(j := s.j.(state := Waiting));
    StartStepSends(s1, env);
    hide Starts, StartStep, Sends;
  }
}
