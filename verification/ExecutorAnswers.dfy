/** How the executor answers each callback, event and call, told by what can be seen from
    outside: its effects, the armed callback, and the results of the steps. */
module ExecutorAnswers {
  import opened Domain
  import opened ExecutorSpec
  import opened ExecutorInvariant
  import opened ExecutorRuns
  import opened ExecutorCommands
  import opened ExecutorChecks
  import Dedup

  // ---------------------------------------------------------------------
  // Going on with the run

  predicate FirstPending(results: seq<StepResult>, i: nat) {
    i < |results| && results[i].status == Pending && forall k :: 0 <= k < i ==> results[k].status != Pending
  }

  predicate NonePending(results: seq<StepResult>) { forall k :: 0 <= k < |results| ==> results[k].status != Pending }

  lemma NextPendingMeans(results: seq<StepResult>)
    ensures var next := NextPending(results);
      if NonePending(results) then next == |results| else FirstPending(results, next)
  {}

  /** A callback of that kind is armed for that instant. */
  predicate ArmedFor(r: Exec, handler: Handler, when: Instant) {
    r.timer.Some? && r.timer.value.handler == handler && r.timer.value.when == when
  }

  predicate Reports(s: Exec, r: Exec, before: seq<Effect>, outcome: RunOutcome, reason: Option<Reason>) {
    && |r.effects| == |s.effects| + |before| + 1 && s.effects + before < r.effects && IsOver(s, r)
    && var e := r.effects[|s.effects| + |before|];
       e.RunFinished? && Some(e.plan) == s.j.plan && e.outcome == outcome && e.reason == reason
  }

  /** What the report of a run that has just ended says of its steps. */
  function Reported(r: Exec): seq<StepResult>
    requires r.effects != [] && r.effects[|r.effects| - 1].RunFinished?
  {
    r.effects[|r.effects| - 1].results
  }

  /** The first step that is still pending is to be started; when none is, the run is over. */
  ghost predicate WentOn(s: Exec, r: Exec, env: Env)
    requires s.j.plan.Some? && |s.j.results| == |s.j.plan.value.steps|
  {
    if NonePending(s.j.results) then
      var all := forall k :: 0 <= k < |s.j.results| ==> s.j.results[k].status == Completed;
      && Reports(s, r, [], if all then RunCompleted else CompletedWithSkips,
                 if all then None else Some(SomeStepsSkipped))
      && Reported(r) == s.j.results
    else
      exists i: nat :: FirstPending(s.j.results, i) && StartAnswered(s.(j := s.j.(index := i)), r, env)
  }

  lemma AdvanceAnswers(s: Exec, env: Env)
    requires s.j.plan.Some? && |s.j.results| == |s.j.plan.value.steps|
    ensures WentOn(s, Advance(s, env), env)
  {
    NextPendingMeans(s.j.results);
    FinishAdds(s, RunCompleted, None);
    FinishAdds(s, CompletedWithSkips, Some(SomeStepsSkipped));
    hide FinishRun, StartStep, StartAnswered, NextPending;
    if !NonePending(s.j.results) { StartAnswers(s.(j := s.j.(index := NextPending(s.j.results))), env); }
  }

  /** The next start is due when the gap is over or, if it must soak, not before its time. */
  ghost predicate NextDue(j: Journal, gapOver: Instant, when: Instant)
    requires j.plan.Some? && |j.results| == |j.plan.value.steps|
  {
    && gapOver <= when
    && (forall i: nat :: FirstPending(j.results, i) && j.plan.value.steps[i].soakBefore ==>
          j.plan.value.steps[i].plannedStart <= when)
    && (when == gapOver || exists i: nat :: FirstPending(j.results, i) && j.plan.value.steps[i].soakBefore
                             && when == j.plan.value.steps[i].plannedStart)
  }

  lemma GapMeans(s: Exec, env: Env)
    requires s.j.plan.Some? && |s.j.results| == |s.j.plan.value.steps|
    ensures NextDue(s.j, s.clock + env.config.interZoneGap, GapTarget(s, env))
  {
    NextPendingMeans(s.j.results);
    hide NextPending;
    assert forall i: nat, k: nat :: FirstPending(s.j.results, i) && FirstPending(s.j.results, k) ==> i == k;
  }

  /** The current step is completed with that end, and the gap before the next one begins. */
  ghost predicate Completes(s: Exec, r: Exec, env: Env, end: Instant)
    requires HasStep(s.j)
  {
    && r.effects == s.effects && r.clock == s.clock && HasStep(r.j)
    && r.j == s.j.(state := InterZoneGap, pending := None, expectedEnd := None,
                   results := s.j.results[s.j.index :=
                     s.j.results[s.j.index].(status := Completed, actualEnd := Some(end))])
    && r.timer.Some? && r.timer.value.handler == OnGap
    && NextDue(r.j, s.clock + env.config.interZoneGap, r.timer.value.when)
  }

  lemma CompleteAnswers(s: Exec, env: Env, end: Instant)
    requires HasStep(s.j)
    ensures Completes(s, CompleteStep(s, env, end), env, end)
  {
    var r := CompleteStep(s, env, end);
    var s1 := Write(s.(j := r.j, context := NoContext));
    GapMeans(s1, env);
    hide NextDue, GapTarget;
  }

  /** What the journal holds of the last command, marked with what has become of it. */
  function Marked(pending: Option<Command>, d: Disposition): Option<Command> {
    match pending case Some(c) => Some(c.(disposition := d)) case None => None
  }

  /** The zone was seen on: a command whose answer was open has been accepted. */
  function Acknowledged(pending: Option<Command>): Option<Command> {
    if pending.Some? && pending.value.disposition in {Sent, Uncertain} then Marked(pending, Accepted) else pending
  }

  // ---------------------------------------------------------------------
  // How a run is cut

  /** The current step ends like this, now if it has no end yet, and the run is reported over. */
  predicate CutShortBy(s: Exec, r: Exec, before: seq<Effect>, at: Instant, status: StepStatus, why: Reason,
                       outcome: RunOutcome, reason: Reason)
  {
    && Reports(s, r, before, outcome, Some(reason))
    && var after := Reported(r);
       && |after| == |s.j.results|
       && forall k :: 0 <= k < |after| ==>
            if k == s.j.index then
              && after[k].status == status && after[k].reason == Some(why)
              && after[k].actualEnd == (if s.j.results[k].actualEnd.Some? then s.j.results[k].actualEnd else Some(at))
            else
              CutResult(s.j.results[k], after[k])
  }

  lemma EndAnswers(s: Exec, status: StepStatus, why: Reason, skip: Reason, outcome: RunOutcome, reason: Reason)
    requires HasStep(s.j) && Terminal(status) && status != Skipped
    ensures var r := FinishRun(SkipRemaining(EndStep(s, s.j.index, status, why), skip), outcome, Some(reason));
      CutShortBy(s, r, [], s.clock, status, why, outcome, reason)
  {
    FinishAdds(SkipRemaining(EndStep(s, s.j.index, status, why), skip), outcome, Some(reason));
    hide FinishRun;
  }

  /** The current step ends like this, and the run is paused. */
  predicate PausedBy(s: Exec, r: Exec, at: Instant, status: StepStatus, state: ExecutorState) {
    && r.j.state == state && r.j.pausedAt == Some(at)
    && (r.timer.None? || r.timer.value.handler == RetryUncertainStop)
    && r.j.plan == s.j.plan && r.j.index == s.j.index < |s.j.results| == |r.j.results|
    && (forall k :: 0 <= k < |s.j.results| && k != s.j.index ==> r.j.results[k] == s.j.results[k])
    && r.j.results[s.j.index].status == status
  }

  /** The zone went off too early, and this was observed then: the sensor, the power or a hand
      on the valve cut it. */
  predicate CutClassified(s: Exec, r: Exec, env: Env, o: Observation) {
    if o.rainSensor == Some(true) then
      if RainFor(env).sensorCutBehavior == PauseUntilDry
      then PausedBy(s, r, s.clock, SensorCut, PausedSensor) && r.effects == s.effects
      else CutShortBy(s, r, [], s.clock, SensorCut, RainSensorWet, AbortedSensor, RainSensorWet)
    else if !o.sourceAvailable then
      CutShortBy(s, r, [], s.clock, ExternalStop, PowerLoss, AbortedPowerLoss, PowerLoss)
    else CutShortBy(s, r, [], s.clock, ExternalStop, StoppedOutside, AbortedExternal, StoppedOutside)
  }

  lemma SameCutShort(s: Exec, s': Exec, r: Exec, before: seq<Effect>, at: Instant, status: StepStatus, why: Reason,
                     outcome: RunOutcome, reason: Reason)
    requires s.effects == s'.effects && s.j == s'.j
    ensures CutShortBy(s, r, before, at, status, why, outcome, reason)
       <==> CutShortBy(s', r, before, at, status, why, outcome, reason)
  {}

  lemma ClassifyAnswers(s: Exec, env: Env, o: Observation)
    requires HasStep(s.j) && !s.j.stopRequested
    ensures CutClassified(s, ClassifyEarlyEnd(s, env, o), env, o)
  {
    var s1 := CancelTimer(s);
    EndAnswers(s1, SensorCut, RainSensorWet, RainSensorWet, AbortedSensor, RainSensorWet);
    EndAnswers(s1, ExternalStop, PowerLoss, SourceUnavailable, AbortedPowerLoss, PowerLoss);
    EndAnswers(s1, ExternalStop, StoppedOutside, ExternalActivity, AbortedExternal, StoppedOutside);
    var r := ClassifyEarlyEnd(s, env, o);
    SameCutShort(s, s1, r, [], s.clock, SensorCut, RainSensorWet, AbortedSensor, RainSensorWet);
    SameCutShort(s, s1, r, [], s.clock, ExternalStop, PowerLoss, AbortedPowerLoss, PowerLoss);
    SameCutShort(s, s1, r, [], s.clock, ExternalStop, StoppedOutside, AbortedExternal, StoppedOutside);
    hide FinishRun, SkipRemaining, CutShortBy;
  }

  /** Somebody else uses the controller: a running step is an external stop, and the run is
      paused or, by the program's policy, aborted. */
  predicate Conflicts(s: Exec, r: Exec, env: Env)
    requires HasStep(s.j)
  {
    var status := if CurrentStatus(s.j) == Running then ExternalStop else CurrentStatus(s.j);
    if env.program.Some? && env.program.value.interruption == Abort then
      && Reports(s, r, [], AbortedExternal, Some(ExternalActivity)) && CutOff(s.j.results, Reported(r))
    else PausedBy(s, r, s.clock, status, PausedExternal) && r.effects == s.effects
  }

  lemma ConflictAnswers(s: Exec, env: Env)
    requires HasStep(s.j)
    ensures Conflicts(s, ExternalConflict(s, env), env)
  {
    AbortAnswers(s);
    hide FinishRun, SkipRemaining, CutOff, Reports;
  }

  /** The current step, if it runs, is an external stop before the rest is skipped. */
  lemma AbortAnswers(s: Exec)
    requires HasStep(s.j)
    ensures var s1 := CancelTimer(s);
      var s2 := if CurrentStatus(s1.j) == Running then EndStep(s1, s1.j.index, ExternalStop, ExternalActivity) else s1;
      var r := FinishRun(SkipRemaining(s2, ExternalActivity), AbortedExternal, Some(ExternalActivity));
      Reports(s, r, [], AbortedExternal, Some(ExternalActivity)) && CutOff(s.j.results, Reported(r))
  {
    var s1 := CancelTimer(s);
    var s2 := if CurrentStatus(s1.j) == Running then EndStep(s1, s1.j.index, ExternalStop, ExternalActivity) else s1;
    var s3 := SkipRemaining(s2, ExternalActivity);
    assert CutOff(s.j.results, s3.j.results) && s3.j == s.j.(results := s3.j.results) && s3.effects == s.effects;
    FinishAdds(s3, AbortedExternal, Some(ExternalActivity));
    hide FinishRun, SkipRemaining, EndStep, CutOff;
  }

  // ---------------------------------------------------------------------
  // Callbacks

  /** The state after the controller was read. */
  function AfterRead(s: Exec, env: Env): Exec {
    var j := if env.read.Some? then s.j.(lastObservation := env.read) else s.j;
    s.(j := j, clock := s.clock + env.readLatency)
  }

  /** The zone of the current step is on, by a report at or after the step's end. */
  predicate StillOn(j: Journal)
    requires HasStep(j)
  {
    && j.expectedEnd.Some? && j.lastObservation.Some?
    && var (o, z) := (j.lastObservation.value, CurrentStep(j).zone);
       z in o.active && j.expectedEnd.value <= (if z in o.reportedAt then o.reportedAt[z] else o.observedAt)
  }

  function EndOf(s: Exec): Instant { match s.j.expectedEnd case Some(end) => end case None => s.clock }

  predicate ChecksOverrun(s: Exec, r: Exec, env: Env, attempts: nat) {
    && r.effects == s.effects && r.j == s.j.(state := Reconciling) && r.context == OverrunContext
    && r.overrunAttempts == attempts && ArmedFor(r, ConfirmOverrun, s.clock + env.config.overrunConfirmation)
  }

  lemma ExpectedEndAnswers(s: Exec, env: Env)
    requires HasStep(s.j) && s.j.state == Watering
    ensures var r := HandleExpectedEnd(s, env);
      if StillOn(s.j) then ChecksOverrun(s, r, env, 0) else Completes(s, r, env, EndOf(s))
  {
    CompleteAnswers(s, env, EndOf(s));
    hide CompleteStep, Completes;
  }

  /** A zone that is still on at the second check is stopped, and the run fails. */
  lemma ConfirmOverrunAnswers(s: Exec, env: Env)
    requires HasStep(s.j) && s.j.state == Reconciling && s.context == OverrunContext
    ensures var (m, r) := (AfterRead(s, env), HandleConfirmOverrun(s, env));
      if !StillOn(m.j) then Completes(m, r, env, EndOf(m))
      else if s.overrunAttempts == 0 then ChecksOverrun(m, r, env, 1)
      else CutShortBy(m, r, [StopController(m.clock)], m.clock + env.stopLatency, OverrunStopped, ControllerOverrun,
                      RunFailed, ControllerOverrun)
  {
    hide CompleteStep, Completes, StopOverrun, CutShortBy;
    var m := AfterRead(s, env);
    assert Observe(s, env) == m;
    CompleteAnswers(m, env, EndOf(m));
    StopOverrunAnswers(m, env);
  }

  lemma StopOverrunAnswers(s: Exec, env: Env)
    requires HasStep(s.j)
    ensures CutShortBy(s, StopOverrun(s, env), [StopController(s.clock)], s.clock + env.stopLatency, OverrunStopped,
                       ControllerOverrun, RunFailed, ControllerOverrun)
  {
    hide SendStop, FinishRun, SkipRemaining, EndStep, CutShortBy;
    SendStopAdds(s, env);
    var s1 := SendStop(s, env);
    EndAnswers(s1, OverrunStopped, ControllerOverrun, ExternalActivity, RunFailed, ControllerOverrun);
    StoppedFirst(s, s1, StopOverrun(s, env), s1.clock, OverrunStopped, ControllerOverrun, RunFailed, ControllerOverrun);
  }

  predicate Resumes(s: Exec, r: Exec) {
    && r.effects == s.effects && r.context == NoContext
    && r.j == s.j.(state := Watering,
         pending := if s.j.pending.Some? && s.j.pending.value.disposition == Sent
                    then Marked(s.j.pending, Accepted) else s.j.pending)
    && (s.j.expectedEnd.Some? ==> ArmedFor(r, OnExpectedEnd, s.j.expectedEnd.value))
  }

  lemma ConfirmEarlyEndAnswers(s: Exec, env: Env)
    requires HasStep(s.j) && s.j.state == Reconciling && s.context == EarlyEndContext && !s.j.stopRequested
    ensures var (m, r) := (AfterRead(s, env), HandleConfirmEarlyEnd(s, env));
      if m.j.lastObservation.None? || CurrentStep(m.j).zone in m.j.lastObservation.value.active then Resumes(m, r)
      else CutClassified(m, r, env, m.j.lastObservation.value)
  {
    hide ClassifyEarlyEnd, CutClassified;
    var m := AfterRead(s, env);
    assert Observe(s, env) == m;
    if m.j.lastObservation.Some? {
      ClassifyAnswers(m.(context := NoContext), env, m.j.lastObservation.value);
      SameClassified(m.(context := NoContext), m, HandleConfirmEarlyEnd(s, env), env, m.j.lastObservation.value);
    }
  }

  lemma SameClassified(s: Exec, s': Exec, r: Exec, env: Env, o: Observation)
    requires s.effects == s'.effects && s.j == s'.j && s.clock == s'.clock
    ensures CutClassified(s, r, env, o) <==> CutClassified(s', r, env, o)
  {
    SameCutShort(s, s', r, [], s.clock, SensorCut, RainSensorWet, AbortedSensor, RainSensorWet);
    SameCutShort(s, s', r, [], s.clock, ExternalStop, PowerLoss, AbortedPowerLoss, PowerLoss);
    SameCutShort(s, s', r, [], s.clock, ExternalStop, StoppedOutside, AbortedExternal, StoppedOutside);
    hide CutShortBy;
  }

  /** The current step was accepted at `start`: it waters until its duration is over, or is
      completed if that is past. */
  ghost predicate AcceptedFrom(s: Exec, r: Exec, env: Env, start: Instant)
    requires HasStep(s.j)
  {
    var (i, end) := (s.j.index, start + 60 * CurrentStep(s.j).duration);
    && r.effects == s.effects && HasStep(r.j) && r.j.plan == s.j.plan && r.j.index == i
    && (forall k :: 0 <= k < |r.j.results| && k != i ==> r.j.results[k] == s.j.results[k])
    && r.j.results[i].actualStart == Some(start)
    && if end <= s.clock then
         && r.j.state == InterZoneGap && r.j.results[i].status == Completed && r.j.results[i].actualEnd == Some(end)
         && r.timer.Some? && r.timer.value.handler == OnGap
         && NextDue(r.j, s.clock + env.config.interZoneGap, r.timer.value.when)
       else
         && r.j.state == Watering && r.j.results[i].status == Running && r.j.expectedEnd == Some(end)
         && r.j.pending == Marked(s.j.pending, Accepted)
         && ArmedFor(r, OnExpectedEnd, end)
  }

  lemma AcceptAnswers(s: Exec, env: Env, start: Instant)
    requires HasStep(s.j)
    ensures AcceptedFrom(s, AcceptAt(s, env, start, s.clock), env, start)
  {
    var s1 := BeginWatering(s, start, Accepted);
    CompleteAnswers(s1, env, s1.j.expectedEnd.value);
    hide CompleteStep, NextDue;
  }

  /** Not later than the tolerance after the later of the request and the first planned start. */
  predicate InTime(plan: RunPlan, config: Config, now: Instant) {
    var late := now - 60 * config.missedRunToleranceMinutes;
    || late <= plan.requestedStart
    || (plan.steps != [] && forall k :: 0 <= k < |plan.steps| ==> late <= plan.steps[k].plannedStart)
  }

  lemma InTimeMeans(plan: RunPlan, config: Config, now: Instant)
    ensures now <= LatestPermissibleStart(plan, config) <==> InTime(plan, config, now)
  {
    var first := FirstPlanned(plan.steps, plan.requestedStart);
    assert plan.steps != [] ==> exists k :: 0 <= k < |plan.steps| && first == plan.steps[k].plannedStart;
  }

  /** Seconds to the next attempt, by the attempts made. */
  const RETRY_AFTER: seq<int> := [2, 2, 5, 10, 20]

  /** The start was not accepted: it is tried again later, within its attempts and its time, and
      otherwise the run fails. */
  predicate RetriedOrFailed(s: Exec, r: Exec, env: Env)
    requires HasStep(s.j)
  {
    var attempts := s.j.results[s.j.index].attempts;
    if attempts < |RETRY_AFTER| && InTime(s.j.plan.value, env.config, s.clock) then
      && r.effects == s.effects
      && r.j == s.j.(pending := Marked(s.j.pending, CommandRejected), retryCount := s.j.retryCount + 1)
      && r.context == s.context && ArmedFor(r, RetryStep, s.clock + RETRY_AFTER[attempts])
    else FailedFor(s, r, [], CommandFailed)
  }

  lemma RetryAnswers(s: Exec, env: Env)
    requires HasStep(s.j)
    ensures RetriedOrFailed(s, RetryOrFail(s, env), env)
  {
    hide FailRun, LatestPermissibleStart, InTime, FailedFor;
    var s1 := s.(j := SetDisposition(s.j, CommandRejected));
    FailAnswers(s1, CommandFailed, CommandFailed, CommandFailed);
    SameFailed(s, s1, FailRun(s1, CommandFailed, CommandFailed, CommandFailed));
    InTimeMeans(s.j.plan.value, env.config, s.clock);
  }

  lemma SameFailed(s: Exec, s': Exec, r: Exec)
    requires s.effects == s'.effects && s.j.plan == s'.j.plan && s.j.results == s'.j.results && s.j.index == s'.j.index
    requires s.j.completed == s'.j.completed && s.j.lastObservation == s'.j.lastObservation
    requires FailedFor(s', r, [], CommandFailed)
    ensures FailedFor(s, r, [], CommandFailed)
  {}

  function IntendedAt(s: Exec): Instant { match s.j.pending case Some(c) => c.intendedAt case None => s.clock }

  /** An uncertain start: accepted if its zone is on, a conflict if a strange one is, and tried
      again or given up otherwise. */
  lemma UncertainAnswers(s: Exec, env: Env)
    requires HasStep(s.j) && s.j.state == Reconciling
    ensures var (m, r) := (AfterRead(s, env), HandleClassifyUncertain(s, env));
      var o := m.j.lastObservation;
      if o.Some? && CurrentStep(m.j).zone in o.value.active then AcceptedFrom(m, r, env, IntendedAt(m))
      else if o.Some? && SeesStranger(m.j, o.value, m.j.index) then Conflicts(m, r, env)
      else RetriedOrFailed(m, r, env)
  {
    var m := AfterRead(s, env);
    assert Observe(s, env) == m;
    AcceptAnswers(m, env, IntendedAt(m));
    ConflictAnswers(m, env);
    RetryAnswers(m, env);
    if m.j.lastObservation.Some? { StrangersMean(m.j, m.j.lastObservation.value, m.j.index); }
    hide AcceptAt, ExternalConflict, RetryOrFail, AcceptedFrom, Conflicts, RetriedOrFailed, ExternalZones, SeesStranger;
  }

  /** A stop command: journaled before it is sent, and tried again, twice at most, while its
      answer is uncertain. */
  ghost predicate Stopped(s: Exec, r: Exec, env: Env) {
    && Adds(s, r, [StopController(s.clock)]) && r.clock == s.clock + env.stopLatency
    && |r.written| == |s.written| + 2 && s.written < r.written
    && r.written[|s.written|] == s.j.(pending := Some(StopCommand(s.clock, Intended)))
    && r.written[|s.written| + 1] == r.j
    && r.j.pending == Some(StopCommand(s.clock, if env.stopOk then Sent else Uncertain))
    && (if !env.stopOk && IsActive(s.j) && s.stopRetries < 2
        then r.stopRetries == s.stopRetries + 1
             && ArmedFor(r, RetryUncertainStop, r.clock + [5, 20][s.stopRetries])
        else r.timer == s.timer)
    && (env.stopOk ==> r.stopRetries == 0)
  }

  lemma StopAnswers(s: Exec, env: Env)
    ensures Stopped(s, SendStop(s, env), env)
  {}

  // ---------------------------------------------------------------------
  // Calls

  /** The same run, before the same observation, with the same effects and clock. */
  predicate SameRun(s: Exec, s': Exec) {
    && s.effects == s'.effects && s.clock == s'.clock && s.j.plan == s'.j.plan && s.j.results == s'.j.results
    && s.j.completed == s'.j.completed && s.j.uncertainCount == s'.j.uncertainCount
    && s.j.lastObservation == s'.j.lastObservation && |s.written| <= |s'.written|
  }

  lemma SameStarted(s: Exec, s': Exec, r: Exec, env: Env)
    requires SameRun(s, s') && HasStep(s.j) && s.j.index == s'.j.index && StartAnswered(s', r, env)
    ensures StartAnswered(s, r, env)
  {
    assert Clear(s.j, env, s.j.index) <==> Clear(s'.j, env, s.j.index) by { SameClearing(s.j, s'.j, env, s.j.index); }
    hide Clear, Delayed, Wetted, TooCold;
  }

  lemma SameClearing(j: Journal, j': Journal, env: Env, i: nat)
    requires j.plan == j'.plan && j.results == j'.results && j.lastObservation == j'.lastObservation
    requires HasStep(j) && HasStep(j')
    ensures Clear(j, env, i) <==> Clear(j', env, i)
  {
    hide Delayed, Wetted, TooCold;
    if j.lastObservation.Some? {
      var o := j.lastObservation.value;
      assert forall z :: Strange(j, o, i, z) <==> Strange(j', o, i, z);
    }
  }

  lemma SameWentOn(s: Exec, s': Exec, r: Exec, env: Env)
    requires s.j.plan.Some? && |s.j.results| == |s.j.plan.value.steps|
    requires SameRun(s, s') && WentOn(s', r, env)
    ensures WentOn(s, r, env)
  {
    hide StartAnswered;
    if !NonePending(s.j.results) {
      var i :| FirstPending(s'.j.results, i) && StartAnswered(s'.(j := s'.j.(index := i)), r, env);
      SameStarted(s.(j := s.j.(index := i)), s'.(j := s'.j.(index := i)), r, env);
    }
  }

  /** A plan that has just claimed the controller. */
  predicate FreshRun(s: Exec, c: Exec, plan: RunPlan) {
    && c.effects == s.effects && c.clock == s.clock && c.j.plan == Some(plan) && |c.j.results| == |plan.steps|
    && c.j.activeOccurrence == Some(plan.occurrence) && c.j.state == Waiting
    && c.j == EMPTY_JOURNAL.(state := c.j.state, plan := c.j.plan, activeOccurrence := c.j.activeOccurrence,
                             results := c.j.results, lastObservation := s.j.lastObservation, completed := s.j.completed)
    && forall k :: 0 <= k < |c.j.results| ==>
         var result := c.j.results[k];
         result.status == Pending && result.actualStart.None? && result.actualEnd.None? && result.attempts == 0
  }

  /** One run at a time, and none that has been finished as far as the window remembers: a plan
      is refused, and nothing changes, or it claims the controller and its first step is next. */
  lemma StartRunAnswers(s: Exec, env: Env, plan: RunPlan)
    requires s.j.state != Idle ==> IsActive(s.j)
    ensures var (r, error) := StartRun(s, env, plan);
      if s.j.state != Idle then r == s && error == ControllerBusy
      else if exists k :: 0 <= k < |s.j.completed| && s.j.completed[k].id == plan.occurrence
      then r == s && error == DuplicateOccurrence
      else
        && error == NoError
        && if plan.steps == [] then
             && Adds(s, r, [RunFinished(plan, RunSkipped, Some(NoExecutableSteps), [])]) && r.j.plan.None?
           else exists c :: FreshRun(s, c, plan) && WentOn(c, r, env)
  {
    var c := Claim(s, plan);
    assert FreshRun(s, c, plan);
    FinishAdds(c, RunSkipped, Some(NoExecutableSteps));
    AdvanceAnswers(c, env);
    hide FinishRun, Advance, WentOn, FreshRun;
  }

  /** A pause has outlasted the tolerance or, before anything was watered, the run is too late. */
  predicate PausedTooLong(s: Exec, env: Env)
    requires s.j.plan.Some?
  {
    var tolerance := 60 * env.config.missedRunToleranceMinutes;
    if exists k :: 0 <= k < |s.j.results| && (s.j.results[k].status != Pending || s.j.results[k].actualStart.Some?)
    then s.j.pausedAt.Some? && s.j.pausedAt.value + tolerance < s.clock
    else !InTime(s.j.plan.value, env.config, s.clock)
  }

  /** A run that is resumed is skipped if it was paused too long, and goes on otherwise. */
  ghost predicate ResumedOrExpired(s: Exec, r: Exec, env: Env)
    requires s.j.plan.Some? && |s.j.results| == |s.j.plan.value.steps|
  {
    if PausedTooLong(s, env) then SkippedFor(s, r, MissedTolerance, CompletedWithSkips) else WentOn(s, r, env)
  }

  lemma ResumeAnswers(s: Exec, env: Env)
    requires s.j.plan.Some? && |s.j.results| == |s.j.plan.value.steps|
    ensures ResumedOrExpired(s, ResumeOrExpire(s, env), env)
  {
    hide SkipRunFor, Advance, WentOn, SkippedFor, InTime, LatestPermissibleStart;
    var s1 := s.(j := s.j.(pausedReason := None, pausedAt := None));
    var s2 := Write(s1.(j := s1.j.(state := Waiting)));
    InTimeMeans(s.j.plan.value, env.config, s.clock);
    SkipRunAnswers(s1, MissedTolerance, CompletedWithSkips);
    AdvanceAnswers(s2, env);
    SameWentOn(s, s2, Advance(s2, env), env);
    SameSkipped(s, s1, SkipRunFor(s1, MissedTolerance, CompletedWithSkips), MissedTolerance, CompletedWithSkips);
  }

  lemma SameSkipped(s: Exec, s': Exec, r: Exec, reason: Reason, whenWatered: RunOutcome)
    requires s.effects == s'.effects && s.j.plan == s'.j.plan && s.j.results == s'.j.results
    requires s.j.completed == s'.j.completed && s.j.lastObservation == s'.j.lastObservation
    ensures SkippedFor(s, r, reason, whenWatered) <==> SkippedFor(s', r, reason, whenWatered)
  {}

  lemma ResumeRunAnswers(s: Exec, env: Env)
    requires Readable(s.j)
    ensures var r := ResumeRun(s, env);
      if s.j.state in {PausedExternal, PausedSensor} && s.j.plan.Some? then ResumedOrExpired(s, r, env) else r == s
  {
    if IsPaused(s.j) && s.j.plan.Some? {
      var s1 := s.(j := s.j.(pausedReason := None));
      ResumeAnswers(s1, env);
      SameResumed(s, s1, ResumeOrExpire(s1, env), env);
    }
    hide ResumeOrExpire, ResumedOrExpired;
  }

  lemma SameResumed(s: Exec, s': Exec, r: Exec, env: Env)
    requires s.j.plan.Some? && |s.j.results| == |s.j.plan.value.steps|
    requires SameRun(s, s') && s.j.pausedAt == s'.j.pausedAt && ResumedOrExpired(s', r, env)
    ensures ResumedOrExpired(s, r, env)
  {
    hide WentOn, SkippedFor, InTime;
    if PausedTooLong(s, env) { SameSkipped(s, s', r, MissedTolerance, CompletedWithSkips); }
    else { SameWentOn(s, s', r, env); }
  }

  // ---------------------------------------------------------------------
  // Zone and weather events

  /** The state after a report was taken note of. */
  function AfterNote(s: Exec, o: Observation): Exec { s.(j := s.j.(lastObservation := Some(o))) }

  predicate ChecksEarlyEnd(s: Exec, r: Exec, env: Env) {
    && r.effects == s.effects && r.j == s.j.(state := Reconciling) && r.context == EarlyEndContext
    && ArmedFor(r, ConfirmEarlyEnd, s.clock + env.config.overrunConfirmation)
  }

  /** Its own zone went on: watering is resumed, or an uncertain start was accepted after all. */
  predicate OwnZoneStarts(s: Exec, r: Exec, o: Observation)
    requires HasStep(s.j)
  {
    && r.effects == s.effects
    && if s.j.state == Reconciling && s.context == EarlyEndContext then
         && r.j == s.j.(state := Watering, pending := Acknowledged(s.j.pending)) && r.context == NoContext
         && (s.j.expectedEnd.Some? ==> ArmedFor(r, OnExpectedEnd, s.j.expectedEnd.value))
       else if s.j.state == Reconciling && s.context == StartContext then
         var (i, end) := (s.j.index, o.observedAt + 60 * CurrentStep(s.j).duration);
         && r.j == s.j.(state := Watering, actualStart := Some(o.observedAt), expectedEnd := Some(end),
                        pending := Acknowledged(s.j.pending),
                        results := s.j.results[i :=
                          s.j.results[i].(status := Running, actualStart := Some(o.observedAt))])
         && ArmedFor(r, OnExpectedEnd, end)
       else r.j == s.j.(pending := Acknowledged(s.j.pending)) && r.timer == s.timer && r.context == s.context
  }

  lemma OwnZoneOnAnswers(s: Exec, o: Observation)
    requires HasStep(s.j) && s.j.state in {Watering, Reconciling}
    ensures OwnZoneStarts(s, OwnZoneOn(s, o), o)
  {}

  /** Its own zone went off while watering: at the end or close to it, cut, or to be checked. */
  ghost predicate OwnZoneEnds(s: Exec, r: Exec, env: Env, o: Observation)
    requires HasStep(s.j)
  {
    if s.j.state != Watering || s.j.expectedEnd.None? then r == s
    else if s.j.expectedEnd.value <= o.observedAt + env.config.earlyEndTolerance then Completes(s, r, env, o.observedAt)
    else if o.rainSensor == Some(true) || !o.sourceAvailable then CutClassified(s, r, env, o)
    else ChecksEarlyEnd(s, r, env)
  }

  lemma OwnZoneOffAnswers(s: Exec, env: Env, o: Observation)
    requires HasStep(s.j) && !s.j.stopRequested
    ensures OwnZoneEnds(s, OwnZoneOff(s, env, o), env, o)
  {
    hide CompleteStep, Completes, ClassifyEarlyEnd, CutClassified;
    CompleteAnswers(CancelTimer(s), env, o.observedAt);
    SameCompletes(s, CancelTimer(s), CompleteStep(CancelTimer(s), env, o.observedAt), env, o.observedAt);
    ClassifyAnswers(s, env, o);
  }

  lemma SameCompletes(s: Exec, s': Exec, r: Exec, env: Env, end: Instant)
    requires HasStep(s.j) && s.j == s'.j && s.effects == s'.effects && s.clock == s'.clock
    ensures Completes(s, r, env, end) <==> Completes(s', r, env, end)
  {
    hide NextDue;
  }

  /** A zone changed while the current step waters or is reconciled. */
  ghost predicate ZoneSeen(s: Exec, r: Exec, env: Env, zone: ZoneId, isOn: bool, o: Observation)
    requires HasStep(s.j)
  {
    var mine := zone == CurrentStep(s.j).zone;
    if isOn && mine then OwnZoneStarts(s, r, o)
    else if !isOn && mine then OwnZoneEnds(s, r, env, o)
    else if isOn && Strange(s.j, o, s.j.index, zone) then Conflicts(s, r, env)
    else r == s
  }

  lemma ZoneDuringRunAnswers(s: Exec, env: Env, zone: ZoneId, isOn: bool, o: Observation)
    requires HasStep(s.j) && s.j.state in {Watering, Reconciling} && !s.j.stopRequested
    ensures ZoneSeen(s, ZoneEventDuringRun(s, env, zone, isOn, o), env, zone, isOn, o)
  {
    OwnZoneOnAnswers(s, o);
    OwnZoneOffAnswers(s, env, o);
    ConflictAnswers(s, env);
    assert zone in ExternalZones(s.j, o, s.j.index) <==> Strange(s.j, o, s.j.index, zone);
    hide OwnZoneOn, OwnZoneOff, ExternalConflict, OwnZoneStarts, OwnZoneEnds, Conflicts, ExternalZones, Strange;
  }

  /** A zone changed in the gap: only its own zone, reported on after its end, is looked into,
      and is a conflict when the report comes long after. */
  predicate ZoneSeenInGap(s: Exec, r: Exec, env: Env, zone: ZoneId, isOn: bool, o: Observation)
    requires HasStep(s.j)
  {
    var seen := if zone in o.reportedAt then o.reportedAt[zone] else o.observedAt;
    var end := s.j.results[s.j.index].actualEnd;
    if !isOn then r == s
    else if zone != CurrentStep(s.j).zone then Conflicts(s, r, env)
    else if end.None? || seen <= end.value then r == s
    else if seen <= end.value + 90 then
      && r.effects == s.effects && r.j == s.j.(state := Reconciling, expectedEnd := end)
      && r.context == OverrunContext && r.overrunAttempts == 0
      && ArmedFor(r, ConfirmOverrun, s.clock + env.config.overrunConfirmation)
    else Conflicts(s, r, env)
  }

  lemma ZoneDuringGapAnswers(s: Exec, env: Env, zone: ZoneId, isOn: bool, o: Observation)
    requires HasStep(s.j)
    ensures ZoneSeenInGap(s, ZoneEventDuringGap(s, env, zone, isOn, o), env, zone, isOn, o)
  {
    hide ExternalConflict, Conflicts;
    ConflictAnswers(s, env);
  }

  /** Warm enough again: a full degree above the threshold. */
  predicate WarmAgain(guard: FreezeGuard, o: Observation) {
    o.temperature.Some? &&
    match guard.unit
    case Celsius => o.temperature.value >= guard.threshold + 1.0
    case Fahrenheit => (o.temperature.value - 1.0) * 9.0 / 5.0 + 32.0 >= guard.threshold
  }

  /** What paused the run is over: the cold, and it is not wet; or the wet, and it is not cold. */
  predicate PauseIsOver(j: Journal, env: Env, o: Observation) {
    var guard := env.config.freezeGuard;
    if j.pausedReason == Some(LowTemperature) then WarmAgain(guard, o) && o.rainSensor != Some(true)
    else
      && o.rainSensor == Some(false)
      && !(guard.enabled && o.temperature.Some? && AtOrBelow(guard, o.temperature.value))
  }

  lemma PauseIsOverMeans(j: Journal, env: Env, o: Observation)
    ensures SensorPauseCleared(j, env, o) <==> PauseIsOver(j, env, o)
  {}

  /** How a zone event is answered in each state. */
  ghost predicate ZoneAnswered(s: Exec, r: Exec, env: Env, zone: ZoneId, isOn: bool, o: Observation)
    requires s.j.plan.Some? ==> HasStep(s.j)
  {
    var n := AfterNote(s, o);
    if s.j.plan.None? then r == n
    else if s.j.state in {Watering, Reconciling} then ZoneSeen(n, r, env, zone, isOn, o)
    else if s.j.state == InterZoneGap then ZoneSeenInGap(n, r, env, zone, isOn, o)
    else if (s.j.state == PausedExternal && s.j.pausedReason.None? && o.active == {})
            || (s.j.state == PausedSensor && PauseIsOver(s.j, env, o)) then ResumedOrExpired(n, r, env)
    else r == n
  }

  lemma ZoneStateAnswers(s: Exec, env: Env, zone: ZoneId, isOn: bool, o: Observation)
    requires Readable(s.j) && (s.j.plan.Some? ==> !s.j.stopRequested && s.j.state != Starting)
    ensures ZoneAnswered(s, HandleZoneState(s, env, zone, isOn, o), env, zone, isOn, o)
  {
    hide ZoneEventDuringRun, ZoneEventDuringGap, ResumeOrExpire, SensorPauseCleared, ZoneSeen, ZoneSeenInGap,
         ResumedOrExpired, PauseIsOver;
    var n := AfterNote(s, o);
    assert NoteObservation(s, o) == n;
    if s.j.plan.Some? {
      if s.j.state in {Watering, Reconciling} { ZoneDuringRunAnswers(n, env, zone, isOn, o); }
      ZoneDuringGapAnswers(n, env, zone, isOn, o);
      ResumeAnswers(n, env);
      PauseIsOverMeans(n.j, env, o);
    }
    SamePause(s.j, n.j, env, o);
  }

  lemma SamePause(j: Journal, n: Journal, env: Env, o: Observation)
    requires j.pausedReason == n.pausedReason
    ensures PauseIsOver(j, env, o) <==> PauseIsOver(n, env, o)
  {}

  /** Freezing, where the policy asks to stop for it, by a temperature that is known. */
  predicate Freezing(env: Env, o: Observation) {
    && env.config.freezeGuard.enabled && FreezeFor(env).skipWhenFreezing
    && o.temperature.Some? && AtOrBelow(env.config.freezeGuard, o.temperature.value)
  }

  /** A freeze stops the controller and ends the step; the run is paused or aborted by policy. */
  predicate FrozenOut(s: Exec, r: Exec, env: Env) {
    var (stop, at) := ([StopController(s.clock)], s.clock + env.stopLatency);
    if FreezeFor(env).freezeCutBehavior == PauseUntilDry then
      && Adds(s, r, stop) && r.j.state == PausedSensor && r.j.pausedReason == Some(LowTemperature)
      && r.j.pausedAt == Some(at) && r.j.plan == s.j.plan && r.j.index == s.j.index < |s.j.results| == |r.j.results|
      && (forall k :: 0 <= k < |s.j.results| && k != s.j.index ==> r.j.results[k] == s.j.results[k])
      && r.j.results[s.j.index].status == SensorCut
    else CutShortBy(s, r, stop, at, SensorCut, LowTemperature, AbortedSensor, LowTemperature)
  }

  lemma FreezeAnswers(s: Exec, env: Env)
    requires HasStep(s.j)
    ensures FrozenOut(s, FreezeCut(s, env), env)
  {
    hide SendStop, FinishRun, SkipRemaining, CutShortBy, EndStep;
    var s0 := CancelTimer(s);
    SendStopAdds(s0, env);
    var s1 := SendStop(s0, env);
    EndAnswers(s1, SensorCut, LowTemperature, LowTemperature, AbortedSensor, LowTemperature);
    var s2 := EndStep(s1, s1.j.index, SensorCut, LowTemperature);
    var f := FinishRun(SkipRemaining(s2, LowTemperature), AbortedSensor, Some(LowTemperature));
    StoppedFirst(s, s1, f, s1.clock, SensorCut, LowTemperature, AbortedSensor, LowTemperature);
    EndedStep(s1, SensorCut, LowTemperature);
  }

  lemma EndedStep(s: Exec, status: StepStatus, why: Reason)
    requires HasStep(s.j)
    ensures var r := EndStep(s, s.j.index, status, why);
      && r == s.(j := s.j.(results := r.j.results)) && |r.j.results| == |s.j.results|
      && (forall k :: 0 <= k < |s.j.results| && k != s.j.index ==> r.j.results[k] == s.j.results[k])
      && r.j.results[s.j.index].status == status
  {}

  /** A cut after a stop command. */
  lemma StoppedFirst(
    s: Exec, s1: Exec, r: Exec, at: Instant, status: StepStatus, why: Reason, outcome: RunOutcome, reason: Reason)
    requires Adds(s, s1, [StopController(s.clock)])
    requires s1.j.plan == s.j.plan && s1.j.results == s.j.results && s1.j.index == s.j.index
    requires s1.j.completed == s.j.completed && s1.j.lastObservation == s.j.lastObservation
    requires CutShortBy(s1, r, [], at, status, why, outcome, reason)
    ensures CutShortBy(s, r, [StopController(s.clock)], at, status, why, outcome, reason)
  {}

  /** How a weather event is answered, and a sensor event. */
  ghost predicate WeatherAnswered(s: Exec, r: Exec, env: Env, o: Observation)
    requires s.j.plan.Some? ==> HasStep(s.j)
  {
    var n := AfterNote(s, o);
    if s.j.plan.Some? && s.j.state == Watering && Freezing(env, o) then FrozenOut(n, r, env)
    else if s.j.plan.Some? && s.j.state == PausedSensor && PauseIsOver(s.j, env, o) then ResumedOrExpired(n, r, env)
    else r == n
  }

  ghost predicate SensorAnswered(s: Exec, r: Exec, env: Env, o: Observation)
    requires s.j.plan.Some? ==> HasStep(s.j)
  {
    var n := AfterNote(s, o);
    if s.j.plan.Some? && s.j.state == PausedSensor && PauseIsOver(s.j, env, o) then ResumedOrExpired(n, r, env)
    else r == n
  }

  lemma WeatherAnswers(s: Exec, env: Env, o: Observation)
    requires Readable(s.j)
    ensures WeatherAnswered(s, HandleWeatherState(s, env, o), env, o)
    ensures SensorAnswered(s, HandleSensorState(s, env, o), env, o)
  {
    var n := AfterNote(s, o);
    assert NoteObservation(s, o) == n;
    if s.j.plan.Some? {
      FreezeAnswers(n, env);
      ResumeAnswers(n, env);
      PauseIsOverMeans(n.j, env, o);
    }
    SamePause(s.j, n.j, env, o);
    FreezingMeans(env, o);
    hide FreezeCut, ResumeOrExpire, SensorPauseCleared, FrozenOut, ResumedOrExpired, NoteObservation, PauseIsOver,
         Freezing, FreezeActive, FreezePolicyOf;
  }

  lemma FreezingMeans(env: Env, o: Observation)
    ensures Freezing(env, o) <==>
      && env.config.freezeGuard.enabled && FreezePolicyOf(env).skipWhenFreezing
      && FreezeActive(env.config.freezeGuard, o) == Some(true)
  {}

  // ---------------------------------------------------------------------
  // Recovery

  /** The step's end has passed: it is completed with it, or the rest of the run is given up
      when that is longer ago than the tolerance. */
  ghost predicate CompletedOrExpired(s: Exec, r: Exec, env: Env, end: Instant)
    requires HasStep(s.j)
  {
    if s.clock <= end + 60 * env.config.missedRunToleranceMinutes then Completes(s, r, env, end)
    else CutShortBy(s, r, [], s.clock, Completed, RestartMissedTolerance, CompletedWithSkips, RestartMissedTolerance)
  }

  lemma CompleteOrExpireAnswers(s: Exec, env: Env, end: Instant)
    requires HasStep(s.j)
    ensures CompletedOrExpired(s, CompleteOrExpire(s, env, end), env, end)
  {
    CompleteAnswers(s, env, end);
    EndAnswers(s, Completed, RestartMissedTolerance, RestartMissedTolerance, CompletedWithSkips,
               RestartMissedTolerance);
    hide CompleteStep, FinishRun, SkipRemaining, EndStep, Completes, CutShortBy;
  }

  /** Nothing but the state, the pause and the armed callback may have changed. */
  predicate Untouched(s: Exec, r: Exec) {
    r.effects == s.effects && r.j.plan == s.j.plan && r.j.results == s.j.results && r.j.index == s.j.index
  }

  /** A watering step: waited for, or over. */
  ghost predicate WateringRecovered(s: Exec, r: Exec, env: Env, isOn: bool)
    requires HasStep(s.j)
  {
    var end := EndOf(s);
    if s.clock < end then Untouched(s, r) && r.j.state == Watering && ArmedFor(r, OnExpectedEnd, end)
    else if isOn then Completes(s, r, env, end)
    else CompletedOrExpired(s, r, env, end)
  }

  /** A step whose end was being checked: without a read it is checked again. */
  ghost predicate EndCheckRecovered(s: Exec, r: Exec, env: Env, o: Option<Observation>, isOn: bool)
    requires HasStep(s.j)
  {
    var over := EndOf(s) <= s.clock;
    if o.None? || (isOn && over) then if over then ChecksOverrun(s, r, env, 0) else ChecksEarlyEnd(s, r, env)
    else if isOn then Resumes(s, r)
    else if over then CompletedOrExpired(s, r, env, EndOf(s))
    else CutClassified(s, r, env, o.value)
  }

  /** A step that may not have started: accepted if its zone is on, and otherwise started again
      if it is not too late. */
  ghost predicate StartRecovered(s: Exec, r: Exec, env: Env, isOn: bool)
    requires HasStep(s.j)
  {
    if isOn then AcceptedFrom(s, r, env, IntendedAt(s))
    else if InTime(s.j.plan.value, env.config, s.clock) then StartAnswered(s, r, env)
    else SkippedFor(s, r, RestartMissedTolerance, CompletedWithSkips)
  }

  /** A zone other than the step's own is on, unexplained. */
  predicate SeesOther(j: Journal, o: Option<Observation>)
    requires HasStep(j)
  {
    o.Some? && exists z :: z in o.value.active && z != CurrentStep(j).zone && Strange(j, o.value, j.index, z)
  }

  /** How a run is taken up again after a crash, once the controller has been read: by what was
      journaled of it, the clock, and what is on now. */
  ghost predicate Recovered(s: Exec, r: Exec, env: Env, o: Option<Observation>)
    requires HasStep(s.j)
  {
    var isOn := o.Some? && CurrentStep(s.j).zone in o.value.active;
    if s.j.state == Stopping || s.j.stopRequested then
      Reports(s, r, [], AbortedUser, Some(UserStop)) && CutOff(s.j.results, Reported(r))
    else if SeesOther(s.j, o) then
      && Untouched(s, r) && r.j.state == PausedExternal && r.timer == s.timer
      && r.j.pausedAt == (if s.j.pausedAt.Some? then s.j.pausedAt else Some(s.clock))
    else match s.j.state
      case PausedExternal => Untouched(s, r) && r.j == s.j && r.timer == s.timer
      case PausedSensor => Untouched(s, r) && r.j == s.j && r.timer == s.timer
      case Watering => WateringRecovered(s, r, env, isOn)
      case InterZoneGap =>
        && Untouched(s, r) && r.j == s.j && r.timer.Some? && r.timer.value.handler == OnGap
        && NextDue(s.j, s.clock + env.config.interZoneGap, r.timer.value.when)
      case Reconciling =>
        if CurrentStatus(s.j) == Running && s.j.results[s.j.index].actualStart.Some?
        then EndCheckRecovered(s, r, env, o, isOn) else StartRecovered(s, r, env, isOn)
      case Waiting => StartRecovered(s, r, env, isOn)
      case Starting => StartRecovered(s, r, env, isOn)
      case _ => r == s
  }

  lemma WateringAnswers(s: Exec, env: Env, isOn: bool)
    requires HasStep(s.j) && s.j.state == Watering
    ensures WateringRecovered(s, RecoverWatering(s, env, isOn), env, isOn)
  {
    CompleteAnswers(s, env, EndOf(s));
    CompleteOrExpireAnswers(s, env, EndOf(s));
    hide CompleteStep, CompleteOrExpire, Completes, CompletedOrExpired;
  }

  lemma EndCheckAnswers(s: Exec, env: Env, o: Option<Observation>)
    requires HasStep(s.j) && s.j.state == Reconciling && !s.j.stopRequested
    ensures var isOn := o.Some? && CurrentStep(s.j).zone in o.value.active;
      EndCheckRecovered(s, RecoverEndReconcile(s, env, o, isOn), env, o, isOn)
  {
    hide CompleteOrExpire, ClassifyEarlyEnd, CompletedOrExpired, CutClassified;
    CompleteOrExpireAnswers(s, env, EndOf(s));
    if o.Some? { ClassifyAnswers(s, env, o.value); }
  }

  lemma RecoverStartAnswers(s: Exec, env: Env, isOn: bool)
    requires HasStep(s.j)
    ensures StartRecovered(s, RecoverStart(s, env, isOn), env, isOn)
  {
    hide AcceptAt, StartStep, SkipRunFor, InTime, LatestPermissibleStart, StartAnswered, AcceptedFrom, SkippedFor;
    var s1 := Write(s.(j := s.j.(state := Waiting)));
    AcceptAnswers(s, env, IntendedAt(s));
    InTimeMeans(s.j.plan.value, env.config, s.clock);
    StartAnswers(s1, env);
    SameStarted(s, s1, StartStep(s1, env), env);
    SkipRunAnswers(s, RestartMissedTolerance, CompletedWithSkips);
  }

  lemma OthersMean(j: Journal, o: Option<Observation>)
    requires HasStep(j)
    ensures ForeignZones(j, o) != {} <==> SeesOther(j, o)
  {
    if o.Some? {
      forall z ensures z in ExternalZones(j, o.value, j.index) <==> Strange(j, o.value, j.index, z) {}
      hide Strange, ExternalZones;
      if z :| z in o.value.active && z != CurrentStep(j).zone && Strange(j, o.value, j.index, z) {
        assert z in ForeignZones(j, o);
      }
      if z :| z in ForeignZones(j, o) { assert z in o.value.active by { StrangeIsActive(j, o.value, z); } }
    }
  }

  lemma StrangeIsActive(j: Journal, o: Observation, z: ZoneId)
    requires HasStep(j) && Strange(j, o, j.index, z)
    ensures z in o.active
  {}

  lemma RecoverLockedAnswers(s: Exec, env: Env, o: Option<Observation>)
    requires HasStep(s.j)
    ensures Recovered(s, RecoverLocked(s, env, o), env, o)
  {
    hide RecoverWatering, RecoverEndReconcile, RecoverStart, GapTarget, NextDue, ForeignZones, SeesOther,
         WateringRecovered, EndCheckRecovered, StartRecovered, FinishRun, SkipRemaining, CutOff, Reports;
    var isOn := o.Some? && CurrentStep(s.j).zone in o.value.active;
    OthersMean(s.j, o);
    StopWinsAnswers(s);
    GapMeans(s, env);
    if s.j.state == Watering { WateringAnswers(s, env, isOn); }
    if s.j.state == Reconciling && !s.j.stopRequested { EndCheckAnswers(s, env, o); }
    RecoverStartAnswers(s, env, isOn);
  }

  lemma StopWinsAnswers(s: Exec)
    requires s.j.plan.Some?
    ensures var r := FinishRun(SkipRemaining(s, UserStop), AbortedUser, Some(UserStop));
      Reports(s, r, [], AbortedUser, Some(UserStop)) && CutOff(s.j.results, Reported(r))
  {
    var cut := SkipRemaining(s, UserStop);
    assert CutOff(s.j.results, cut.j.results);
    FinishAdds(cut, AbortedUser, Some(UserStop));
    hide FinishRun, SkipRemaining, CutOff;
  }

  /** The journal was past its last step: the run is reported over. */
  predicate ReportedPastEnd(s: Exec, r: Exec) {
    Reports(s, r, [], CompletedWithSkips, Some(RecoveredPastEnd)) && Reported(r) == s.j.results
  }

  lemma PastEndAnswers(s: Exec, env: Env)
    requires s.j.plan.Some? && |s.j.results| == |s.j.plan.value.steps| <= s.j.index
    ensures ReportedPastEnd(s, RecoverLocked(s, env, env.read))
  {
    FinishAdds(s, CompletedWithSkips, Some(RecoveredPastEnd));
    hide FinishRun;
  }

  lemma RecoverReads(s: Exec, env: Env)
    requires s.j.plan.Some? && |s.j.results| == |s.j.plan.value.steps| && s.j.state !in {Idle, Failed}
    ensures Recover(s, env) == RecoverLocked(AfterRead(s, env), env, env.read)
  {
    ActiveMeans(s.j);
    hide RecoverLocked, IsActive;
    assert Observe(s, env) == AfterRead(s, env);
  }

  lemma ActiveMeans(j: Journal)
    ensures IsActive(j) <==> j.state !in {Idle, Failed}
  {
    match j.state
    case Idle => case Failed => case Waiting => case Starting => case Watering =>
    case InterZoneGap => case PausedExternal => case PausedSensor => case Reconciling => case Stopping =>
  }

  /** Recovery makes one read, and then takes up the run that the journal tells of, if any. */
  ghost predicate RecoverAnswered(s: Exec, r: Exec, env: Env)
    requires s.j.plan.Some? ==> |s.j.results| == |s.j.plan.value.steps|
  {
    var m := AfterRead(s, env);
    if s.j.plan.None? || s.j.state in {Idle, Failed} then r == s
    else if |s.j.results| <= s.j.index then ReportedPastEnd(m, r)
    else Recovered(m, r, env, env.read)
  }

  lemma RecoverAnswers(s: Exec, env: Env)
    requires s.j.plan.Some? ==> |s.j.results| == |s.j.plan.value.steps|
    ensures RecoverAnswered(s, Recover(s, env), env)
  {
    var m := AfterRead(s, env);
    hide RecoverLocked, Recovered, ReportedPastEnd;
    if s.j.plan.Some? && s.j.state !in {Idle, Failed} {
      RecoverReads(s, env);
      hide Recover;
      if HasStep(m.j) { RecoverLockedAnswers(m, env, env.read); } else { PastEndAnswers(m, env); }
    }
  }

  // ---------------------------------------------------------------------
  // Every event of an execution

  /** How the callbacks are answered. */
  ghost predicate CallbackAnswered(f: Exec, r: Exec, env: Env, handler: Handler)
    requires HasStep(f.j)
  {
    var m := AfterRead(f, env);
    var o := m.j.lastObservation;
    match handler
    case OnExpectedEnd => if StillOn(f.j) then ChecksOverrun(f, r, env, 0) else Completes(f, r, env, EndOf(f))
    case OnGap => WentOn(f, r, env)
    case ConfirmOverrun =>
      if !StillOn(m.j) then Completes(m, r, env, EndOf(m))
      else if f.overrunAttempts == 0 then ChecksOverrun(m, r, env, 1)
      else CutShortBy(m, r, [StopController(m.clock)], m.clock + env.stopLatency, OverrunStopped, ControllerOverrun,
                      RunFailed, ControllerOverrun)
    case ConfirmEarlyEnd =>
      if o.None? || CurrentStep(m.j).zone in o.value.active then Resumes(m, r) else CutClassified(m, r, env, o.value)
    case ClassifyUncertain =>
      if o.Some? && CurrentStep(m.j).zone in o.value.active then AcceptedFrom(m, r, env, IntendedAt(m))
      else if o.Some? && SeesStranger(m.j, o.value, m.j.index) then Conflicts(m, r, env)
      else RetriedOrFailed(m, r, env)
    case RetryStep => StartAnswered(f, r, env)
    case RetryUncertainStop =>
      if f.j.pending.Some? && f.j.pending.value.StopCommand? && f.j.pending.value.disposition == Uncertain
      then Stopped(f, r, env) else r == f
  }

  lemma RetryStepAnswers(s: Exec, env: Env)
    requires HasStep(s.j) && s.j.state == Reconciling
    ensures StartAnswered(s, HandleRetryStep(s, env), env)
  {
    var s1 := s.(j := s.j.(state := Waiting));
    StartAnswers(s1, env);
    SameStarted(s, s1, StartStep(s1, env), env);
    hide StartStep, StartAnswered;
  }

  lemma DispatchAnswers(s: Exec, env: Env, handler: Handler)
    requires HasStep(s.j) && Expects(s, handler) && !s.j.stopRequested
    ensures CallbackAnswered(s, Dispatch(s, env, handler), env, handler)
  {
    hide HandleExpectedEnd, Advance, HandleConfirmOverrun, HandleConfirmEarlyEnd, HandleClassifyUncertain,
      HandleRetryStep, SendStop, ChecksOverrun, Completes, WentOn, CutShortBy, Resumes, CutClassified, AcceptedFrom,
      Conflicts, RetriedOrFailed, StartAnswered, Stopped, StillOn, SeesStranger;
    match handler {
      case OnExpectedEnd => ExpectedEndAnswers(s, env);
      case OnGap => AdvanceAnswers(s, env);
      case ConfirmOverrun => ConfirmOverrunAnswers(s, env);
      case ConfirmEarlyEnd => ConfirmEarlyEndAnswers(s, env);
      case ClassifyUncertain => UncertainAnswers(s, env);
      case RetryStep => RetryStepAnswers(s, env);
      case RetryUncertainStop => StopAnswers(s, env);
    }
  }

  /** A callback fires: one that was never issued, or was replaced, changes nothing. */
  ghost predicate FireAnswered(s: Exec, r: Exec, env: Env, t: Timer) {
    if t !in s.issued then r == s
    else if s.timer != Some(t) then r == s.(issued := s.issued - {t})
    else HasStep(s.j) && CallbackAnswered(s.(issued := s.issued - {t}, timer := None), r, env, t.handler)
  }

  lemma FireAnswers(s: Exec, env: Env, t: Timer)
    requires Rest(Any, s) && t in s.issued
    ensures Readable(s.j) && FireAnswered(s, Fire(s, env, t), env, t)
  {
    RestReadable(Any, s);
    var f := s.(issued := s.issued - {t}, timer := None);
    OnlyArmedIsLive(s, t);
    hide Rest, Dispatch, CallbackAnswered;
    if s.timer == Some(t) {
      ArmedExpects(s);
      SameExpected(s, f, t.handler);
      DispatchAnswers(f, env, t.handler);
    }
  }

  lemma OnlyArmedIsLive(s: Exec, t: Timer)
    requires Rest(Any, s) && t in s.issued
    ensures t.generation == s.generation <==> s.timer == Some(t)
  {}

  lemma ArmedExpects(s: Exec)
    requires Rest(Any, s) && s.timer.Some?
    ensures HasStep(s.j) && !s.j.stopRequested && s.timer.value in s.issued
    ensures s.timer.value.generation == s.generation && Expects(s, s.timer.value.handler)
  {}

  lemma SameExpected(s: Exec, f: Exec, handler: Handler)
    requires f.j == s.j && f.context == s.context && Expects(s, handler)
    ensures Expects(f, handler)
  {}

  /** How a user's call or an event is answered, in the state with the new time. */
  ghost predicate EventAnswered(s: Exec, r: Exec, event: Event, env: Env)
    requires s.j.plan.Some? ==> HasStep(s.j)
  {
    match event
    case StartRunEvent(plan) =>
      if s.j.state != Idle || exists k :: 0 <= k < |s.j.completed| && s.j.completed[k].id == plan.occurrence then r == s
      else if plan.steps == [] then
        Adds(s, r, [RunFinished(plan, RunSkipped, Some(NoExecutableSteps), [])]) && r.j.plan.None?
      else exists c :: FreshRun(s, c, plan) && WentOn(c, r, env)
    case StopEvent(reason) => StopAnswered(s, r, reason)
    case PauseEvent(reason) =>
      if s.j.plan.None? then r == s
      else
        && Adds(s, r, if MayBeOn(s.j) then [StopController(s.clock)] else [])
        && PausedBy(s, r, r.clock, if CurrentStatus(s.j) == Running then ExternalStop else CurrentStatus(s.j),
                    PausedExternal)
        && r.j.pausedReason == Some(UserText(reason))
    case ResumeEvent =>
      if s.j.state in {PausedExternal, PausedSensor} && s.j.plan.Some? then ResumedOrExpired(s, r, env) else r == s
    case SkipEvent =>
      if s.j.plan.None? then r == s
      else
        && Adds(s, r, if MayBeOn(s.j) then [StopController(s.clock)] else [])
        && r.j.state == InterZoneGap && ArmedFor(r, OnGap, r.clock + env.config.interZoneGap)
        && HasStep(r.j) && r.j.plan == s.j.plan && r.j.index == s.j.index && CurrentStatus(r.j) == Skipped
        && forall k :: 0 <= k < |s.j.results| && k != s.j.index ==> r.j.results[k] == s.j.results[k]
    case ZoneEvent(zone, isOn, seen) => ZoneAnswered(s, r, env, zone, isOn, seen)
    case SensorEvent(seen) => SensorAnswered(s, r, env, seen)
    case WeatherEvent(seen) => WeatherAnswered(s, r, env, seen)
    case NoteEvent(seen) => r == AfterNote(s, seen)
    case FireEvent(timer) => FireAnswered(s, r, env, timer)
    case RestartEvent(k) => if k < |s.written| then RestartAnswered(s, r, env, s.written[k]) else r == s
  }

  /** After a crash, the executor holds the journal and nothing else of what it held. */
  ghost predicate RestartAnswered(s: Exec, r: Exec, env: Env, j: Journal) {
    exists b: Exec ::
      && b.j == j && b.effects == s.effects && b.written == s.written && b.clock == s.clock
      && b.timer.None? && b.issued == {} && b.context == NoContext && b.overrunAttempts == 0 && b.stopRetries == 0
      && (j.plan.Some? ==> |j.results| == |j.plan.value.steps|)
      && RecoverAnswered(b, r, env)
  }

  lemma RestartAnswers(s: Exec, env: Env, j: Journal)
    requires j.plan.Some? ==> |j.results| == |j.plan.value.steps|
    ensures RestartAnswered(s, Recover(Reboot(s, j), env), env, j)
  {
    RecoverAnswers(Reboot(s, j), env);
    hide Recover, RecoverAnswered;
  }

  /** A stop is always sent, also when nothing runs; a run is then reported over. */
  predicate StopAnswered(s: Exec, r: Exec, reason: string) {
    StopIntended(s, r) &&
    if s.j.plan.None? then
      && Adds(s, r, [StopController(s.clock)])
      && r.j == s.j.(stopRequested := false, pending := r.j.pending, uncertainCount := r.j.uncertainCount)
    else
      && Reports(s, r, [StopController(s.clock)], AbortedUser, Some(UserText(reason)))
      && CutOff(s.j.results, Reported(r))
  }

  lemma UserAnswers(s: Exec, env: Env, reason: string)
    requires s.j.plan.Some? && HasStep(s.j) && IsActive(s.j)
    ensures EventAnswered(s, PauseRun(s, env, reason), PauseEvent(reason), env)
    ensures EventAnswered(s, SkipCurrent(s, env), SkipEvent, env)
  {
    hide LeaveStep, MayBeOn, EndResult, Adds, PausedBy;
    PauseIsAnswered(s, env, reason);
    SkipIsAnswered(s, env);
  }

  lemma PauseIsAnswered(s: Exec, env: Env, reason: string)
    requires HasStep(s.j) && IsActive(s.j)
    ensures var r := PauseRun(s, env, reason);
      && Adds(s, r, if MayBeOn(s.j) then [StopController(s.clock)] else [])
      && PausedBy(s, r, r.clock, if CurrentStatus(s.j) == Running then ExternalStop else CurrentStatus(s.j),
                  PausedExternal)
      && r.j.pausedReason == Some(UserText(reason))
  {
    LeaveAdds(s, env);
    var s1 := LeaveStep(s, env);
    assert s1.timer.None? || s1.timer.value.handler == RetryUncertainStop;
    hide LeaveStep, MayBeOn;
  }

  lemma SkipIsAnswered(s: Exec, env: Env)
    requires HasStep(s.j) && IsActive(s.j)
    ensures var r := SkipCurrent(s, env);
      && Adds(s, r, if MayBeOn(s.j) then [StopController(s.clock)] else [])
      && r.j.state == InterZoneGap && ArmedFor(r, OnGap, r.clock + env.config.interZoneGap)
      && HasStep(r.j) && r.j.plan == s.j.plan && r.j.index == s.j.index && CurrentStatus(r.j) == Skipped
      && forall k :: 0 <= k < |s.j.results| && k != s.j.index ==> r.j.results[k] == s.j.results[k]
  {
    LeaveAdds(s, env);
    hide LeaveStep, MayBeOn;
  }

  lemma IdleHasNoRun(s: Exec)
    requires Rest(Any, s)
    ensures RunFound(s)
  {}

  /** What calls and events find of a run, if there is one. */
  predicate RunFound(s: Exec) {
    && (s.j.plan.Some? <==> s.j.state != Idle)
    && (s.j.plan.Some? ==> HasStep(s.j) && IsActive(s.j) && !s.j.stopRequested && s.j.state != Starting)
  }

  lemma CallAnswers(s: Exec, event: Event, env: Env)
    requires RunFound(s) && s.clock == env.now && !event.FireEvent? && !event.RestartEvent?
    ensures EventAnswered(s, Step(s, event, env), event, env)
  {
    assert s.(clock := env.now) == s;
    hide StartRun, StopRun, PauseRun, ResumeRun, SkipCurrent, HandleZoneState, HandleSensorState, HandleWeatherState,
         ZoneAnswered, SensorAnswered, WeatherAnswered, ResumedOrExpired, StopAnswered, WentOn, FreshRun;
    match event {
      case StartRunEvent(plan) => StartRunAnswers(s, env, plan);
      case StopEvent(reason) => StopIsAnswered(s, env, reason);
      case PauseEvent(reason) =>
        if s.j.plan.Some? { UserAnswers(s, env, reason); } else { NoRunNoChange(s, env, reason); }
      case ResumeEvent => ResumeRunAnswers(s, env);
      case SkipEvent => if s.j.plan.Some? { UserAnswers(s, env, ""); } else { NoRunNoChange(s, env, ""); }
      case ZoneEvent(zone, isOn, seen) => ZoneStateAnswers(s, env, zone, isOn, seen);
      case SensorEvent(seen) => WeatherAnswers(s, env, seen);
      case WeatherEvent(seen) => WeatherAnswers(s, env, seen);
      case NoteEvent(seen) =>
    }
  }

  /** In every reachable state, calls and events are answered like this, a stop in particular
      by a stop command. */
  lemma EventAnswers(s: Exec, event: Event, env: Env)
    requires Rest(Any, s) && s.clock == env.now
    ensures s.j.plan.Some? ==> HasStep(s.j)
    ensures EventAnswered(s, Step(s, event, env), event, env)
  {
    RestReadable(Any, s);
    IdleHasNoRun(s);
    assert s.(clock := env.now) == s;
    hide Rest, Fire, FireAnswered, Recover, Reboot, RestartAnswered;
    if event.FireEvent? {
      if event.timer in s.issued { FireAnswers(s, env, event.timer); } else { NotIssued(s, env, event.timer); }
    } else if event.RestartEvent? {
      if event.write < |s.written| { RestartAnswers(s, env, s.written[event.write]); }
    } else {
      hide EventAnswered, Step;
      CallAnswers(s, event, env);
    }
  }

  lemma NotIssued(s: Exec, env: Env, t: Timer)
    requires t !in s.issued
    ensures FireAnswered(s, s, env, t)
  {}

  lemma NoRunNoChange(s: Exec, env: Env, reason: string)
    requires s.j.plan.None?
    ensures PauseRun(s, env, reason) == s && SkipCurrent(s, env) == s
  {}

  lemma StopIsAnswered(s: Exec, env: Env, reason: string)
    requires s.j.plan.Some? ==> HasStep(s.j) && IsActive(s.j)
    ensures StopAnswered(s, StopRun(s, env, reason), reason)
  {
    StopAdds(s, env, reason);
    StopIsIntended(s, env, reason);
    hide StopRun, CutOff, StopIntended;
  }

  /** In every execution: each call, event and callback, whatever came before, crashes included. */
  lemma {:induction false} EveryEventIsAnswered(trace: Trace, event: Event, env: Env)
    ensures var s := Run(INITIAL, trace);
      && (s.j.plan.Some? ==> HasStep(s.j))
      && EventAnswered(s.(clock := env.now), Step(s, event, env), event, env)
  {
    var s := Run(INITIAL, trace);
    EverythingIsAdmissible(INITIAL, trace);
    InitialRest(Any);
    RunRest(Any, INITIAL, trace);
    ClockRest(Any, s, env.now);
    RestReadable(Any, s);
    assert Step(s.(clock := env.now), event, env) == Step(s, event, env) by { ClockStep(s, event, env); }
    hide Run, Step, Rest, EventAnswered;
    EventAnswers(s.(clock := env.now), event, env);
  }

  lemma ClockStep(s: Exec, event: Event, env: Env)
    ensures Step(s.(clock := env.now), event, env) == Step(s, event, env)
  {}
}
