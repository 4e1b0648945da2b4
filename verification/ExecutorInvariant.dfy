/** The invariant of the executor between two lock holds, and what every handler keeps.

    What is known depends on the history. After any crash the timer and the journal's
    shape are certain (`Any`). While crashes hit resumable journals only, so are the step
    statuses (`CrashFree`). While no recovery pauses over a running step, a running step is
    one that is watered or reconciled (`Unpaused`). And, crashes or not, as long as no step is
    skipped or written off after it was cut short, the recorded start and end of a COMPLETED
    step are at least its commanded duration, less a tolerance, apart (`Unskipped`). */
module ExecutorInvariant {
  import opened Domain
  import opened ExecutorSpec
  import Dedup

  datatype History = Any | CrashFree | Unpaused | Unskipped(tolerance: nat)

  // ---------------------------------------------------------------------
  // Timers

  /** Every callback ever issued and not yet fired is stale, except the armed one. */
  ghost predicate Callbacks(s: Exec) {
    && (s.timer.Some? ==> s.timer.value in s.issued && s.timer.value.generation == s.generation)
    && (forall t :: t in s.issued ==> t.generation <= s.generation)
    && (forall t :: t in s.issued && t.generation == s.generation ==> s.timer == Some(t))
  }

  predicate Armed(s: Exec, h: Handler) { s.timer.Some? && s.timer.value.handler == h }

  /** No timer, or the best-effort stop retry. */
  predicate Quiet(s: Exec) { s.timer.Some? ==> s.timer.value.handler == RetryUncertainStop }

  predicate AttemptsLeft(j: Journal) { HasStep(j) && j.results[j.index].attempts < MAX_COMMAND_ATTEMPTS }

  /** Exactly the timer that the state and the reconcile context call for. */
  predicate MatchingTimer(s: Exec) {
    match s.j.state
    case Idle => s.timer.None?
    case Watering => Armed(s, OnExpectedEnd) && s.j.expectedEnd == Some(s.timer.value.when)
    case InterZoneGap => Armed(s, OnGap)
    case PausedExternal => Quiet(s)
    case PausedSensor => Quiet(s)
    case Reconciling =>
      (match s.context
       case StartContext => Armed(s, ClassifyUncertain) || (Armed(s, RetryStep) && AttemptsLeft(s.j))
       case OverrunContext => Armed(s, ConfirmOverrun)
       case EarlyEndContext => Armed(s, ConfirmEarlyEnd) && s.j.expectedEnd.Some?
       case NoContext => false)
    case _ => false
  }

  // ---------------------------------------------------------------------
  // Step statuses

  predicate Terminal(status: StepStatus) { status != Pending && status != Running }

  predicate Settled(results: seq<StepResult>) {
    forall k :: 0 <= k < |results| ==> Terminal(results[k].status)
  }

  /** A step that ended without completing says why; one that has not ended has no end. */
  predicate Recorded(results: seq<StepResult>) {
    forall k :: 0 <= k < |results| ==>
      if Terminal(results[k].status) then results[k].status == Completed || results[k].reason.Some?
      else results[k].actualEnd.None?
  }

  predicate Enough(r: StepResult, step: RunStep, tolerance: int) {
    r.actualStart.Some? && r.actualEnd.Some? &&
    r.actualEnd.value - r.actualStart.value >= 60 * step.duration - tolerance
  }

  predicate WateredAll(steps: seq<RunStep>, results: seq<StepResult>, tolerance: int) {
    |steps| == |results| &&
    forall k :: 0 <= k < |results| && results[k].status == Completed ==> Enough(results[k], steps[k], tolerance)
  }

  /** Steps before the current one are over, steps after it are untouched. */
  predicate Ordered(j: Journal) {
    && (forall k :: 0 <= k < j.index && k < |j.results| ==> Terminal(j.results[k].status))
    && (forall k :: j.index < k < |j.results| ==> j.results[k].status == Pending)
  }

  /** The expected end is the commanded one. */
  predicate ClockRuns(j: Journal)
    requires HasStep(j)
  {
    var r := j.results[j.index];
    r.actualStart.Some? && j.expectedEnd == Some(r.actualStart.value + 60 * CurrentStep(j).duration)
  }

  /** A running step carries its commanded clock. */
  predicate RunningClock(j: Journal)
    requires HasStep(j)
  {
    CurrentStatus(j) == Running ==> ClockRuns(j)
  }

  /** The current step has a recorded end that is too early: it was cut short, or started
      again after it had ended. */
  predicate CutShort(j: Journal, tolerance: int)
    requires HasStep(j)
  {
    var r := j.results[j.index];
    r.actualEnd.Some? && !Enough(r, CurrentStep(j), tolerance)
  }

  /** What completes was watered, and what runs has its commanded clock. */
  predicate Watered(h: History, j: Journal) {
    h.Unskipped? && j.plan.Some? && Shaped(j) ==>
      && WateredAll(j.plan.value.steps, j.results, h.tolerance)
      && (HasStep(j) && (CurrentStatus(j) == Running || j.state == Watering) ==> ClockRuns(j))
  }

  /** A running step has a recorded start. */
  predicate Begun(h: History, j: Journal) {
    h.Unpaused? && HasStep(j) && CurrentStatus(j) == Running ==> j.results[j.index].actualStart.Some?
  }

  /** In a gap the current step is over; it runs only while something will see to its end. */
  predicate GapOver(h: History, j: Journal) {
    && (h.Unskipped? && HasStep(j) && j.state == InterZoneGap ==> Terminal(CurrentStatus(j)))
    && (h.Unpaused? && HasStep(j) && CurrentStatus(j) == Running ==> j.state in {Watering, Reconciling, Stopping})
  }

  /** The current step may be started. */
  predicate Startable(h: History, j: Journal)
    requires HasStep(j)
  {
    (h.CrashFree? ==> CurrentStatus(j) == Pending) && (h.Unpaused? ==> CurrentStatus(j) != Running)
  }

  /** The current step may be left. */
  predicate NotRunning(h: History, j: Journal)
    requires HasStep(j)
  {
    h.CrashFree? || h.Unpaused? ==> CurrentStatus(j) != Running
  }

  predicate CleanJournal(j: Journal) {
    HasStep(j) && Ordered(j) && RunningClock(j) && Recorded(j.results)
  }

  predicate StateFitsStatus(j: Journal)
    requires HasStep(j)
  {
    match CurrentStatus(j)
    case Pending => j.state in {Waiting, Starting, Reconciling, PausedExternal, PausedSensor, Stopping}
    case Running => j.state in {Watering, Reconciling, Stopping}
    case _ => j.state in {InterZoneGap, Reconciling, PausedExternal, PausedSensor, Waiting, Stopping}
  }

  /** What is ever persisted: an active run with its plan, or an idle journal without. */
  predicate Stored(j: Journal) {
    Shaped(j) && if j.plan.Some? then IsActive(j) else j.state == Idle
  }

  /** What a crash-free executor ever persists. */
  predicate PersistOk(j: Journal) {
    j.plan.Some? ==>
      Shaped(j) && Recorded(j.results) && (Settled(j.results) || (CleanJournal(j) && StateFitsStatus(j)))
  }

  /** What the history allows to be persisted. */
  predicate Writable(h: History, j: Journal) {
    Stored(j) && (h.CrashFree? ==> PersistOk(j)) && Watered(h, j) && Begun(h, j) && GapOver(h, j)
  }

  predicate FinishedOk(h: History, e: Effect) {
    e.RunFinished? ==>
      && |e.results| == |e.plan.steps|
      && (if e.outcome == RunCompleted then AllCompleted(e.results) else e.reason.Some?)
      && (h.CrashFree? ==> Settled(e.results) && Recorded(e.results))
      && (h.Unskipped? ==> WateredAll(e.plan.steps, e.results, h.tolerance))
  }

  ghost predicate Log(h: History, s: Exec) {
    && Callbacks(s)
    && (forall k :: 0 <= k < |s.written| ==> Writable(h, s.written[k]))
    && (forall k :: 0 <= k < |s.effects| ==> FinishedOk(h, s.effects[k]))
  }

  /** What a run can be finished from: any shape, with the reasons given so far. */
  ghost predicate Closing(h: History, s: Exec) {
    && Log(h, s) && s.j.plan.Some? && Shaped(s.j) && IsActive(s.j)
    && (h.CrashFree? ==> Recorded(s.j.results))
    && Watered(h, s.j) && Begun(h, s.j)
  }

  /** The middle of a lock hold. */
  ghost predicate Mid(h: History, s: Exec) {
    Closing(h, s) && HasStep(s.j) && !s.j.stopRequested && (h.CrashFree? ==> CleanJournal(s.j))
  }

  predicate StatusMatches(s: Exec)
    requires HasStep(s.j)
  {
    var status := CurrentStatus(s.j);
    match s.j.state
    case Watering => status == Running
    case InterZoneGap => Terminal(status)
    case Reconciling =>
      (match s.context
       case StartContext => status == Pending
       case OverrunContext => status != Pending
       case _ => status == Running)
    case _ => status != Running
  }

  /** The expected end is the commanded one, or that of a step that was watered. */
  predicate EndIsDue(j: Journal, tolerance: int)
    requires HasStep(j)
  {
    var r := j.results[j.index];
    ClockRuns(j) || (r.actualEnd.Some? && j.expectedEnd == r.actualEnd && Enough(r, CurrentStep(j), tolerance))
  }

  /** A step that may still be declared COMPLETED will have been watered. */
  predicate GapWatered(s: Exec, tolerance: int)
    requires HasStep(s.j)
  {
    match s.j.state
    case InterZoneGap => Terminal(CurrentStatus(s.j)) && !CutShort(s.j, tolerance)
    case Reconciling =>
      (s.context == OverrunContext ==> EndIsDue(s.j, tolerance)) && (s.context == EarlyEndContext ==> ClockRuns(s.j))
    case _ => true
  }

  /** A running step is watered or reconciled, and no start is open for it. */
  predicate Attended(s: Exec)
    requires HasStep(s.j)
  {
    CurrentStatus(s.j) == Running ==>
      s.j.state == Watering || (s.j.state == Reconciling && s.context != StartContext)
  }

  /** The invariant between two lock holds. */
  ghost predicate Rest(h: History, s: Exec) {
    && Log(h, s) && MatchingTimer(s)
    && if s.j.state == Idle then s.j.plan.None? else
       && Mid(h, s)
       && (h.CrashFree? ==> StatusMatches(s))
       && (h.Unpaused? ==> Attended(s))
       && (h.Unskipped? ==> GapWatered(s, h.tolerance))
  }

  // ---------------------------------------------------------------------
  // Journal pieces

  lemma SkipAllSettles(results: seq<StepResult>, reason: Reason, now: Instant)
    ensures Settled(SkipAll(results, reason, now))
    ensures Recorded(results) ==> Recorded(SkipAll(results, reason, now))
  {}

  lemma SkipAllWatered(h: History, j: Journal, reason: Reason, now: Instant)
    requires Watered(h, j)
    ensures Watered(h, j.(results := SkipAll(j.results, reason, now)))
  {
    var j1 := j.(results := SkipAll(j.results, reason, now));
    if HasStep(j) { assert HasStep(j1) && CurrentStep(j1) == CurrentStep(j); }
  }

  /** The last journal of a run that still holds its plan, and the first without. */
  lemma FinishWrites(h: History, s: Exec, completed: seq<Dedup.Entry>)
    requires Closing(h, s) && GapOver(h, s.j) && (h.CrashFree? ==> Settled(s.j.results))
    ensures Writable(h, s.j.(completed := completed))
    ensures forall p: Journal :: p.plan.None? && p.state == Idle ==> Writable(h, p)
  {
    var w := s.j.(completed := completed);
    if HasStep(s.j) { assert HasStep(w) && CurrentStep(w) == CurrentStep(s.j); }
    hide WateredAll, CleanJournal, Log;
  }

  lemma FinishRest(h: History, s: Exec, outcome: RunOutcome, reason: Option<Reason>)
    requires Closing(h, s) && GapOver(h, s.j)
    requires h.CrashFree? ==> Settled(s.j.results)
    requires if outcome == RunCompleted then AllCompleted(s.j.results) else reason.Some?
    ensures Rest(h, FinishRun(s, outcome, reason))
  {
    var recorded := s.j.(completed := Dedup.Record(s.j.completed, s.j.plan.value.occurrence, s.clock));
    FinishWrites(h, s, recorded.completed);
    var e := RunFinished(s.j.plan.value, outcome, reason, s.j.results);
    assert FinishedOk(h, e) by { hide Dedup.Record, Settled, Recorded, WateredAll, CleanJournal; }
    var r := FinishRun(s, outcome, reason);
    assert r.j.plan.None? && r.j.state == Idle && r.timer.None? && r.generation == s.generation + 1;
    assert r.written == s.written + [recorded] + [r.j] && r.effects == s.effects + [e] && r.issued == s.issued;
    hide Dedup.Record, FinishRun, Writable, FinishedOk;
    assert Log(h, s) by { hide Log; }
    hide Closing;
    assert Log(h, r);
    hide Log;
  }

  lemma SkipFinishRest(h: History, s: Exec, skip: Reason, outcome: RunOutcome, reason: Option<Reason>)
    requires Closing(h, s)
    requires outcome != RunCompleted && reason.Some?
    ensures Rest(h, FinishRun(SkipRemaining(s, skip), outcome, reason))
  {
    SkipAllSettles(s.j.results, skip, s.clock);
    SkipAllWatered(h, s.j, skip, s.clock);
    assert Closing(h, SkipRemaining(s, skip)) by { hide SkipAll, Settled, Recorded, Watered; }
    assert GapOver(h, SkipRemaining(s, skip).j);
    hide FinishRun, Rest, SkipRemaining;
    FinishRest(h, SkipRemaining(s, skip), outcome, reason);
  }

  lemma SkipRunForRest(h: History, s: Exec, reason: Reason, whenWatered: RunOutcome)
    requires Closing(h, s) && whenWatered != RunCompleted
    ensures Rest(h, SkipRunFor(s, reason, whenWatered))
  {
    hide FinishRun, Rest, Closing;
    SkipFinishRest(h, s, reason, whenWatered, Some(reason));
    SkipFinishRest(h, s, reason, RunSkipped, Some(reason));
  }

  // ---------------------------------------------------------------------
  // Pieces of a lock hold

  /** `r` is `s` after a stop command: only the command, counters, clock and timer moved. */
  predicate AfterStop(s: Exec, r: Exec) {
    && r.j == s.j.(pending := r.j.pending, uncertainCount := r.j.uncertainCount)
    && r.context == s.context && r.clock >= s.clock
    && Quiet(r)
  }

  lemma SendStopMid(h: History, s: Exec, env: Env)
    requires Log(h, s) && Quiet(s) && Writable(h, s.j)
    ensures var r := SendStop(s, env); Log(h, r) && AfterStop(s, r)
  {
    CommandStopMid(h, s, env);
    var s1 := CommandStop(s, env);
    assert SendStop(s, env).written == s1.written + [SendStop(s, env).j];
    forall p, u ensures Writable(h, s.j.(pending := p, uncertainCount := u)) { StopWrite(h, s.j, p, u); }
    hide Writable, FinishedOk, CommandStop;
  }

  lemma CommandStopMid(h: History, s: Exec, env: Env)
    requires Log(h, s) && Quiet(s) && Writable(h, s.j)
    ensures var r := CommandStop(s, env); Log(h, r) && AfterStop(s, r)
  {
    StopWrite(h, s.j, Some(StopCommand(s.clock, Intended)), s.j.uncertainCount);
    hide Writable, FinishedOk;
  }

  lemma StopWrite(h: History, j: Journal, pending: Option<Command>, uncertainCount: nat)
    requires Writable(h, j)
    ensures Writable(h, j.(pending := pending, uncertainCount := uncertainCount))
  {
    var w := j.(pending := pending, uncertainCount := uncertainCount);
    if HasStep(w) { assert CurrentStep(w) == CurrentStep(j) && CurrentStatus(w) == CurrentStatus(j); }
    hide WateredAll, Recorded, Settled;
  }

  /** Ending the current step like this does not call it COMPLETED, or rightly so. */
  predicate CompletesWell(h: History, s: Exec, status: StepStatus) {
    h.Unskipped? && status == Completed ==>
      HasStep(s.j) && Enough(EndResult(s.j.results[s.j.index], status, RestartMissedTolerance, s.clock),
                             CurrentStep(s.j), h.tolerance)
  }

  /** Ending the current step leaves a journal a run can be finished from. */
  lemma EndStepClosing(h: History, s: Exec, status: StepStatus, reason: Reason)
    requires Closing(h, s) && Terminal(status) && CompletesWell(h, s, status)
    ensures var r := EndStep(s, s.j.index, status, reason);
      && Closing(h, r)
      && r == s.(j := s.j.(results := r.j.results))
  {
    hide Writable, FinishedOk;
  }

  /** ... and, without a crash, a journal a run can be paused in. */
  lemma EndStepClean(s: Exec, status: StepStatus, reason: Reason)
    requires CleanJournal(s.j) && Terminal(status)
    ensures var r := EndStep(s, s.j.index, status, reason);
      CleanJournal(r.j) && CurrentStatus(r.j) == status
  {}

  lemma EndMid(h: History, s: Exec, status: StepStatus, reason: Reason)
    requires Mid(h, s) && Terminal(status) && status != Completed
    ensures var r := EndStep(s, s.j.index, status, reason);
      && Mid(h, r) && CurrentStatus(r.j) == status && CurrentStep(r.j) == CurrentStep(s.j)
  {
    var r := EndStep(s, s.j.index, status, reason);
    assert r.j == s.j.(results := r.j.results) && HasStep(r.j) && r.j.results[r.j.index].status == status;
    assert CompletesWell(h, s, status);
    if h.CrashFree? { EndStepClean(s, status, reason); }
    assert Closing(h, s);
    hide EndStep, CleanJournal, Closing, CompletesWell;
    EndStepClosing(h, s, status, reason);
  }

  lemma PauseRest(h: History, s: Exec, state: ExecutorState, why: Option<Reason>)
    requires Mid(h, s) && Quiet(s) && NotRunning(h, s.j)
    requires state == PausedExternal || state == PausedSensor
    ensures Rest(h, Write(s.(j := s.j.(state := state, pausedReason := why, pausedAt := Some(s.clock)))))
  {
    var j := s.j.(state := state, pausedReason := why, pausedAt := Some(s.clock));
    assert CurrentStep(j) == CurrentStep(s.j) && CurrentStatus(j) == CurrentStatus(s.j);
    assert CleanJournal(s.j) ==> CleanJournal(j);
    assert Writable(h, j);
    hide FinishedOk, Ordered, Recorded, RunningClock, WateredAll, Writable;
  }

  lemma PauseExternalRest(h: History, s: Exec)
    requires Mid(h, s) && Quiet(s) && NotRunning(h, s.j)
    ensures Rest(h, PauseExternal(s))
  {
    PauseRest(h, s, PausedExternal, s.j.pausedReason);
    assert s.j.(state := PausedExternal, pausedAt := Some(s.clock))
        == s.j.(state := PausedExternal, pausedReason := s.j.pausedReason, pausedAt := Some(s.clock));
  }

  // ---------------------------------------------------------------------
  // Starting a step

  /** The journal of a start attempt: same statuses, one more attempt. */
  lemma AttemptJournal(h: History, s: Exec, j: Journal)
    requires Mid(h, s) && Startable(h, s.j)
    requires var r := s.j.results[s.j.index];
      j == s.j.(state := Starting, pending := j.pending,
                results := s.j.results[s.j.index := r.(attempts := r.attempts + 1)])
    ensures HasStep(j) && CurrentStatus(j) == CurrentStatus(s.j)
    ensures Mid(h, s.(j := j)) && Writable(h, j)
  {
    assert CurrentStep(j) == CurrentStep(s.j) && CurrentStatus(j) == CurrentStatus(s.j);
    hide Callbacks, FinishedOk;
  }

  lemma UncertainStartRest(h: History, s: Exec, env: Env)
    requires Mid(h, s) && Startable(h, s.j)
    ensures Rest(h, ReconcileUncertainStart(s, env))
  {
    var r := ReconcileUncertainStart(s, env);
    assert CurrentStep(r.j) == CurrentStep(s.j) && CurrentStatus(r.j) == CurrentStatus(s.j);
    assert CleanJournal(s.j) ==> CleanJournal(r.j);
    assert Writable(h, r.j);
    hide FinishedOk, Ordered, Recorded, RunningClock, WateredAll, Writable;
  }

  /** The current step is running from `start` on. */
  lemma BeginWateringMid(h: History, s: Exec, start: Instant, d: Disposition)
    requires Mid(h, s) && Startable(h, s.j)
    ensures var r := BeginWatering(s, start, d);
      && Mid(h, r) && r.j.state == Watering && CurrentStatus(r.j) == Running && ClockRuns(r.j)
      && r.j.expectedEnd.Some? && r.clock == s.clock
  {
    var r := BeginWatering(s, start, d);
    assert h.CrashFree? ==> CleanJournal(r.j);
    assert Writable(h, r.j);
    hide FinishedOk, Ordered, Recorded, RunningClock, Writable;
  }

  lemma ArmedWateringRest(h: History, s: Exec)
    requires Mid(h, s) && s.j.state == Watering && s.j.expectedEnd.Some?
    requires h.CrashFree? ==> CurrentStatus(s.j) == Running
    ensures Rest(h, ArmAt(s, s.j.expectedEnd.value, OnExpectedEnd))
  {
    hide FinishedOk, Ordered, Recorded, RunningClock, WateredAll, Writable;
  }

  /** End the current step, skip the rest and finish. */
  lemma EndAndFinishRest(
    h: History, s: Exec, status: StepStatus, why: Reason, skip: Reason, outcome: RunOutcome, reason: Reason)
    requires Closing(h, s) && Terminal(status) && CompletesWell(h, s, status)
    requires outcome != RunCompleted
    ensures Rest(h, FinishRun(SkipRemaining(EndStep(s, s.j.index, status, why), skip), outcome, Some(reason)))
  {
    EndStepClosing(h, s, status, why);
    hide FinishRun, SkipRemaining, EndStep, Rest, Closing;
    SkipFinishRest(h, EndStep(s, s.j.index, status, why), skip, outcome, Some(reason));
  }

  lemma FailRunRest(h: History, s: Exec, stepReason: Reason, skipReason: Reason, runReason: Reason)
    requires Closing(h, s)
    ensures Rest(h, FailRun(s, stepReason, skipReason, runReason))
  {
    hide FinishRun, SkipRemaining, EndStep, Rest, Closing;
    EndAndFinishRest(h, s, StepFailed, stepReason, skipReason, RunFailed, runReason);
  }

  lemma CommandedMid(h: History, s: Exec, env: Env)
    requires Mid(h, s) && Startable(h, s.j)
    ensures var r := Commanded(s, env);
      Mid(h, r) && Startable(h, r.j)
  {
    AttemptJournal(h, s, Commanded(s, env).j);
    hide CleanJournal, WateredAll, Recorded, Writable;
  }

  lemma RejectedMid(h: History, s: Exec)
    requires Mid(h, s)
    ensures Closing(h, s.(j := SetDisposition(s.j, CommandRejected)))
  {
    hide CleanJournal, WateredAll, Recorded, Writable, FinishedOk;
  }

  lemma SendStartRest(h: History, s: Exec, env: Env)
    requires Mid(h, s) && Startable(h, s.j)
    ensures Rest(h, SendStart(s, env))
  {
    var s2 := Commanded(s, env);
    CommandedMid(h, s, env);
    assert HasStep(s2.j);
    hide Rest, Mid, FailRun, ReconcileUncertainStart, BeginWatering, Commanded;
    match env.start {
      case StartRejected =>
        RejectedMid(h, s2);
        FailRunRest(h, s2.(j := SetDisposition(s2.j, CommandRejected)), Rejected, SourceUnavailable, Rejected);
      case StartUncertain => UncertainStartRest(h, s2, env);
      case StartOk =>
        BeginWateringMid(h, s2, s2.clock, Sent);
        ArmedWateringRest(h, BeginWatering(s2, s2.clock, Sent));
    }
  }

  lemma StartStepRest(h: History, s: Exec, env: Env)
    requires Mid(h, s) && Quiet(s) && Startable(h, s.j)
    ensures Rest(h, StartStep(s, env))
  {
    assert Closing(h, s);
    hide Rest, Mid, Closing, PreStepBlock, SkipRunFor, PauseExternal, FailRun, SendStart;
    match PreStepBlock(s.j, env, s.j.index) {
      case BlockDelay => SkipRunForRest(h, s, RainDelay, CompletedWithSkips);
      case BlockWet => SkipRunForRest(h, s, RainSensorWet, AbortedSensor);
      case BlockFreeze => SkipRunForRest(h, s, LowTemperature, AbortedSensor);
      case BlockExternal => PauseExternalRest(h, s);
      case NoBlock =>
        FailRunRest(h, s, SourceUnavailable, SourceUnavailable, ZoneUnresolved);
        SendStartRest(h, s, env);
    }
  }

  /** From a gap, a resume or a fresh run: go on with the first pending step. */
  lemma AdvanceRest(h: History, s: Exec, env: Env)
    requires Closing(h, s) && Quiet(s) && !s.j.stopRequested && s.j.state != Watering && GapOver(h, s.j)
    requires h.CrashFree? ==>
      CleanJournal(s.j) && CurrentStatus(s.j) != Running
    ensures Rest(h, Advance(s, env))
  {
    var next := NextPending(s.j.results);
    if next == |s.j.results| {
      assert h.CrashFree? ==> Settled(s.j.results);
      hide FinishRun, Rest, Closing, AllCompleted;
      if AllCompleted(s.j.results) { FinishRest(h, s, RunCompleted, None); }
      FinishRest(h, s, CompletedWithSkips, Some(SomeStepsSkipped));
    } else {
      var s1 := s.(j := s.j.(index := next));
      assert h.CrashFree? ==> CleanJournal(s1.j);
      assert Mid(h, s1) by { hide CleanJournal, WateredAll, Recorded, Writable, FinishedOk; }
      hide Rest, Mid, StartStep;
      StartStepRest(h, s1, env);
    }
  }

  // ---------------------------------------------------------------------
  // Completion, overrun and early end

  /** Ending the current step at `end` counts as watered. */
  predicate EndsWell(h: History, j: Journal, end: Instant)
    requires HasStep(j)
  {
    h.Unskipped? ==> Enough(j.results[j.index].(actualEnd := Some(end)), CurrentStep(j), h.tolerance)
  }

  lemma CompleteRest(h: History, s: Exec, env: Env, end: Instant)
    requires Mid(h, s) && EndsWell(h, s.j, end) && (h.CrashFree? ==> CurrentStatus(s.j) != Pending)
    ensures Rest(h, CompleteStep(s, env, end))
  {
    var r := CompleteStep(s, env, end);
    assert CurrentStep(r.j) == CurrentStep(s.j) && CurrentStatus(r.j) == Completed;
    assert CleanJournal(s.j) ==> CleanJournal(r.j);
    assert Writable(h, r.j);
    hide FinishedOk, Ordered, Recorded, RunningClock, Writable, GapTarget;
  }

  /** A change of state, command, context, clock or observation keeps the middle of a lock hold. */
  lemma TouchMid(h: History, s: Exec, r: Exec)
    requires Mid(h, s)
    requires r.timer == s.timer && r.generation == s.generation && r.issued == s.issued
    requires r.written == s.written && r.effects == s.effects
    requires IsActive(r.j)
    requires r.j == s.j.(state := r.j.state, pending := r.j.pending, lastObservation := r.j.lastObservation,
                         pausedReason := r.j.pausedReason, pausedAt := r.j.pausedAt,
                         retryCount := r.j.retryCount, uncertainCount := r.j.uncertainCount)
    requires h.Unskipped? && r.j.state == Watering ==> ClockRuns(s.j)
    ensures Mid(h, r) && CurrentStatus(r.j) == CurrentStatus(s.j) && CurrentStep(r.j) == CurrentStep(s.j)
    ensures h.Unskipped? ==> (ClockRuns(r.j) <==> ClockRuns(s.j) && r.j.expectedEnd == s.j.expectedEnd)
  {
    hide FinishedOk, Recorded, WateredAll, Writable;
  }

  /** Cancelling the timer does too. */
  lemma CancelMid(h: History, s: Exec)
    requires Mid(h, s)
    ensures Mid(h, CancelTimer(s))
  {
    hide FinishedOk, CleanJournal, Recorded, WateredAll, Writable;
  }

  lemma EnterOverrunRest(h: History, s: Exec, env: Env)
    requires Mid(h, s) && (h.CrashFree? ==> CurrentStatus(s.j) != Pending)
    requires h.Unskipped? ==> EndIsDue(s.j, h.tolerance)
    ensures Rest(h, EnterOverrunReconcile(s, env))
  {
    var r := EnterOverrunReconcile(s, env);
    TouchMid(h, s, s.(j := r.j));
    assert Writable(h, r.j);
    hide FinishedOk, CleanJournal, Recorded, WateredAll, Writable;
  }

  lemma EnterEarlyEndRest(h: History, s: Exec, env: Env)
    requires Mid(h, s) && (h.CrashFree? ==> CurrentStatus(s.j) == Running) && s.j.expectedEnd.Some?
    requires h.Unskipped? ==> ClockRuns(s.j)
    ensures Rest(h, EnterEarlyEndReconcile(s, env))
  {
    var r := EnterEarlyEndReconcile(s, env);
    TouchMid(h, s, s.(j := r.j));
    assert Writable(h, r.j);
    hide FinishedOk, CleanJournal, Recorded, WateredAll, Writable;
  }

  lemma ExpectedEndRest(h: History, s: Exec, env: Env)
    requires Mid(h, s) && s.j.state == Watering && (h.CrashFree? ==> CurrentStatus(s.j) == Running)
    ensures Rest(h, HandleExpectedEnd(s, env))
  {
    assert EndsWell(h, s.j, EndOrNow(s));
    hide Rest, Mid, EnterOverrunReconcile, CompleteStep, OnPastEnd, EndsWell;
    EnterOverrunRest(h, s, env);
    CompleteRest(h, s, env, EndOrNow(s));
  }

  lemma GapRest(h: History, s: Exec, env: Env)
    requires Mid(h, s) && Quiet(s) && NotRunning(h, s.j) && GapOver(h, s.j)
    ensures Rest(h, HandleGap(s, env)) || s.j.state != InterZoneGap
  {
    assert Closing(h, s);
    hide Rest, Mid, Advance, Closing;
    if s.j.state == InterZoneGap { AdvanceRest(h, s, env); }
  }

  lemma ObserveMid(h: History, s: Exec, env: Env)
    requires Mid(h, s)
    ensures var r := Observe(s, env);
      && Mid(h, r) && CurrentStatus(r.j) == CurrentStatus(s.j) && CurrentStep(r.j) == CurrentStep(s.j)
      && r == s.(j := r.j, clock := r.clock) && r.j == s.j.(lastObservation := r.j.lastObservation)
  {
    assert IsActive(s.j);
    hide Mid, CleanJournal;
    var r := Observe(s, env);
    TouchMid(h, s, r);
  }

  lemma OverrunStopRest(h: History, s: Exec, env: Env)
    requires Mid(h, s) && s.timer.None? && s.j.state == Reconciling && (h.CrashFree? ==> CurrentStatus(s.j) != Pending)
    ensures
      var s2 := SendStop(s, env);
      var s3 := EndStep(s2, s2.j.index, OverrunStopped, ControllerOverrun);
      Rest(h, FinishRun(SkipRemaining(s3, ExternalActivity), RunFailed, Some(ControllerOverrun)))
  {
    StopClosing(h, s, env);
    var s2 := SendStop(s, env);
    assert Closing(h, s2);
    hide Rest, Mid, Closing, FinishRun, SendStop, EndStep, SkipRemaining;
    EndAndFinishRest(h, s2, OverrunStopped, ControllerOverrun, ExternalActivity, RunFailed, ControllerOverrun);
  }

  /** A stop in the middle of a lock hold. */
  lemma StopClosing(h: History, s: Exec, env: Env)
    requires Mid(h, s) && Quiet(s) && (h.CrashFree? ==> StateFitsStatus(s.j)) && GapOver(h, s.j)
    ensures var r := SendStop(s, env); Mid(h, r) && AfterStop(s, r)
  {
    MidWritable(h, s);
    assert Log(h, s);
    hide SendStop, Mid, Log, AfterStop, Writable, Quiet;
    SendStopMid(h, s, env);
    AfterStopMid(h, s, SendStop(s, env));
  }

  lemma MidWritable(h: History, s: Exec)
    requires Mid(h, s) && (h.CrashFree? ==> StateFitsStatus(s.j)) && GapOver(h, s.j)
    ensures Writable(h, s.j)
  {
    hide Log, WateredAll, Recorded, Ordered;
  }

  lemma AfterStopMid(h: History, s: Exec, r: Exec)
    requires Mid(h, s) && Log(h, r) && AfterStop(s, r)
    ensures Mid(h, r)
  {
    assert CurrentStep(r.j) == CurrentStep(s.j) && CurrentStatus(r.j) == CurrentStatus(s.j);
    hide Log, WateredAll, Recorded;
  }

  /** The end of an overrun reconcile, on the commanded clock, counts as watered. */
  predicate OverrunEndsWell(h: History, s: Exec)
    requires HasStep(s.j)
  {
    h.Unskipped? ==> s.j.expectedEnd.Some? && EndsWell(h, s.j, s.j.expectedEnd.value)
  }

  lemma CheckAgainRest(h: History, s: Exec, seconds: int)
    requires Mid(h, s) && s.j.state == Reconciling && s.context == OverrunContext
    requires (h.CrashFree? ==> CurrentStatus(s.j) != Pending) && (h.Unskipped? ==> GapWatered(s, h.tolerance))
    ensures Rest(h, ArmIn(s.(overrunAttempts := 1), seconds, ConfirmOverrun))
  {
    TouchMid(h, s, s.(overrunAttempts := 1));
    hide CleanJournal, Recorded, Watered, FinishedOk, Writable, EndIsDue;
  }

  lemma ConfirmOverrunRest(h: History, s: Exec, env: Env)
    requires Mid(h, s) && s.timer.None? && s.j.state == Reconciling && s.context == OverrunContext
    requires (h.CrashFree? ==> CurrentStatus(s.j) != Pending) && OverrunEndsWell(h, s)
    requires h.Unskipped? ==> GapWatered(s, h.tolerance)
    ensures Rest(h, HandleConfirmOverrun(s, env))
  {
    ObserveMid(h, s, env);
    var s1 := Observe(s, env);
    assert EndsWell(h, s1.j, EndOrNow(s1));
    assert h.Unskipped? ==> GapWatered(s1, h.tolerance);
    CheckAgainRest(h, s1, env.config.overrunConfirmation);
    OverrunStopRest(h, s1, env);
    CompleteRest(h, s1, env, EndOrNow(s1));
    hide Rest, Mid, CompleteStep, ArmIn, FinishRun, SendStop, EndStep, SkipRemaining, OnPastEnd;
  }

  lemma SensorCutPauseRest(h: History, s: Exec, reason: Reason, why: Option<Reason>)
    requires Mid(h, s) && Quiet(s)
    ensures var s2 := EndStep(s, s.j.index, SensorCut, reason);
      Rest(h, Write(s2.(j := s2.j.(state := PausedSensor, pausedReason := why, pausedAt := Some(s2.clock)))))
  {
    var s2 := EndStep(s, s.j.index, SensorCut, reason);
    assert Mid(h, s2) && (h.CrashFree? ==> CurrentStatus(s2.j) == SensorCut) by {
      EndStepClosing(h, s, SensorCut, reason);
      if h.CrashFree? { EndStepClean(s, SensorCut, reason); }
      hide CleanJournal, Closing;
    }
    assert Quiet(s2);
    hide Mid, Rest, EndStep, Quiet;
    PauseRest(h, s2, PausedSensor, why);
  }

  lemma ClassifyEarlyEndRest(h: History, s: Exec, env: Env, o: Observation)
    requires Mid(h, s)
    ensures Rest(h, ClassifyEarlyEnd(s, env, o))
  {
    var s1 := CancelTimer(s);
    CancelMid(h, s);
    assert Closing(h, s1) && Quiet(s1);
    var wet := EndStep(s1, s1.j.index, SensorCut, RainSensorWet);
    assert wet.j.(state := PausedSensor, pausedAt := Some(wet.clock))
        == wet.j.(state := PausedSensor, pausedReason := s1.j.pausedReason, pausedAt := Some(wet.clock));
    hide Mid, Closing, Rest, Quiet, FinishRun, SkipRemaining, EndStep, Write;
    if o.Wet() {
      SensorCutPauseRest(h, s1, RainSensorWet, s1.j.pausedReason);
      EndAndFinishRest(h, s1, SensorCut, RainSensorWet, RainSensorWet, AbortedSensor, RainSensorWet);
    } else if !o.sourceAvailable {
      EndAndFinishRest(h, s1, ExternalStop, PowerLoss, SourceUnavailable, AbortedPowerLoss, PowerLoss);
    } else {
      EndAndFinishRest(h, s1, ExternalStop, StoppedOutside, ExternalActivity, AbortedExternal, StoppedOutside);
    }
  }

  lemma ResumeWateringRest(h: History, s: Exec)
    requires Mid(h, s) && (h.CrashFree? ==> CurrentStatus(s.j) == Running) && s.j.expectedEnd.Some?
    requires h.Unskipped? ==> ClockRuns(s.j)
    ensures Rest(h, Write(ResumeWatering(s)))
  {
    var r := ResumeWatering(s);
    TouchMid(h, s, s.(j := r.j, context := NoContext));
    assert Writable(h, r.j);
    hide FinishedOk, CleanJournal, Recorded, WateredAll, Writable;
  }

  lemma ConfirmEarlyEndRest(h: History, s: Exec, env: Env)
    requires Mid(h, s) && s.j.state == Reconciling && s.context == EarlyEndContext
    requires (h.CrashFree? ==> CurrentStatus(s.j) == Running) && s.j.expectedEnd.Some?
    requires h.Unskipped? ==> ClockRuns(s.j)
    ensures Rest(h, HandleConfirmEarlyEnd(s, env))
  {
    ObserveMid(h, s, env);
    var s1 := Observe(s, env);
    TouchMid(h, s1, s1.(context := NoContext));
    hide Rest, Mid, ClassifyEarlyEnd, Write, ResumeWatering;
    ResumeWateringRest(h, s1);
    if s1.j.lastObservation.Some? {
      ClassifyEarlyEndRest(h, s1.(context := NoContext), env, s1.j.lastObservation.value);
    }
  }

  // ---------------------------------------------------------------------
  // Uncertain commands and conflicts

  lemma AcceptRest(h: History, s: Exec, env: Env, start: Instant, now: Instant)
    requires Mid(h, s) && Startable(h, s.j)
    ensures Rest(h, AcceptAt(s, env, start, now))
  {
    BeginWateringMid(h, s, start, Accepted);
    var s1 := BeginWatering(s, start, Accepted);
    assert EndsWell(h, s1.j, s1.j.expectedEnd.value);
    hide Rest, Mid, BeginWatering, CompleteStep, EndsWell;
    CompleteRest(h, s1, env, s1.j.expectedEnd.value);
    ArmedWateringRest(h, s1);
  }

  lemma ExternalConflictRest(h: History, s: Exec, env: Env)
    requires Mid(h, s)
    ensures Rest(h, ExternalConflict(s, env))
  {
    var s1 := CancelTimer(s);
    CancelMid(h, s);
    var s2 := if CurrentStatus(s1.j) == Running
              then EndStep(s1, s1.j.index, ExternalStop, ExternalActivity) else s1;
    assert Mid(h, s2) && Closing(h, s2) && s2.timer.None? && NotRunning(h, s2.j) by {
      EndStepClosing(h, s1, ExternalStop, ExternalActivity);
      if h.CrashFree? { EndStepClean(s1, ExternalStop, ExternalActivity); }
      hide CleanJournal, Closing;
    }
    hide Mid, Closing, Rest, FinishRun, SkipRemaining, EndStep, PauseExternal;
    SkipFinishRest(h, s2, ExternalActivity, AbortedExternal, Some(ExternalActivity));
    PauseExternalRest(h, s2);
  }

  lemma RetryLaterRest(h: History, s: Exec, seconds: int)
    requires Mid(h, s) && s.j.state == Reconciling && s.context == StartContext
    requires Startable(h, s.j) && AttemptsLeft(s.j)
    ensures Rest(h, ArmIn(Write(s.(j := s.j.(retryCount := s.j.retryCount + 1))), seconds, RetryStep))
  {
    var s1 := s.(j := s.j.(retryCount := s.j.retryCount + 1));
    TouchMid(h, s, s1);
    assert Writable(h, s1.j);
    hide FinishedOk, CleanJournal, Recorded, WateredAll, Writable;
  }

  lemma RetryOrFailRest(h: History, s: Exec, env: Env)
    requires Mid(h, s) && s.j.state == Reconciling && s.context == StartContext
    requires Startable(h, s.j)
    ensures Rest(h, RetryOrFail(s, env))
  {
    hide Log, CleanJournal, Recorded, WateredAll, Rest, ArmIn, Write, FailRun, LatestPermissibleStart, RetryDelay;
    var s1 := s.(j := SetDisposition(s.j, CommandRejected));
    TouchMid(h, s, s1);
    FailRunRest(h, s1, CommandFailed, CommandFailed, CommandFailed);
    if AttemptsLeft(s1.j) { RetryLaterRest(h, s1, RetryDelay(s1.j.results[s1.j.index].attempts)); }
  }

  lemma ClassifyUncertainRest(h: History, s: Exec, env: Env)
    requires Mid(h, s) && s.j.state == Reconciling && s.context == StartContext
    requires Startable(h, s.j)
    ensures Rest(h, HandleClassifyUncertain(s, env))
  {
    ObserveMid(h, s, env);
    var s1 := Observe(s, env);
    hide Rest, Mid, AcceptAt, ExternalConflict, RetryOrFail, ExternalZones, Observe, Log;
    AcceptRest(h, s1, env, CommandTime(s1), s1.clock);
    ExternalConflictRest(h, s1, env);
    RetryOrFailRest(h, s1, env);
  }

  lemma RetryStepRest(h: History, s: Exec, env: Env)
    requires Mid(h, s) && s.j.state == Reconciling && Quiet(s)
    requires Startable(h, s.j)
    ensures Rest(h, HandleRetryStep(s, env))
  {
    TouchMid(h, s, s.(j := s.j.(state := Waiting)));
    hide Rest, Mid, StartStep;
    StartStepRest(h, s.(j := s.j.(state := Waiting)), env);
  }

  // ---------------------------------------------------------------------
  // Zone, sensor and weather events

  lemma OwnZoneOnRest(h: History, s: Exec, o: Observation)
    requires Rest(h, s) && (s.j.state == Watering || s.j.state == Reconciling)
    ensures Rest(h, OwnZoneOn(s, o))
  {
    var s1 := Acknowledge(s);
    assert Rest(h, s1) by { AcknowledgeRest(h, s); }
    if s1.j.state == Reconciling && s1.context == EarlyEndContext {
      hide Write, ResumeWatering;
      ResumeWateringRest(h, s1);
    } else if s1.j.state == Reconciling && s1.context == StartContext {
      hide AcceptedNow, ArmAt;
      AcceptedNowMid(h, s1, o.observedAt);
      ArmedWateringRest(h, AcceptedNow(s1, o.observedAt));
    }
  }

  lemma AcknowledgeRest(h: History, s: Exec)
    requires Rest(h, s) && (s.j.state == Watering || s.j.state == Reconciling)
    ensures Rest(h, Write(s.(j := SetDisposition(s.j, Accepted))))
  {
    var s1 := s.(j := SetDisposition(s.j, Accepted));
    TouchMid(h, s, s1);
    assert Writable(h, s1.j);
    hide FinishedOk, CleanJournal, Recorded, WateredAll, Writable;
  }

  lemma AcceptedNowMid(h: History, s: Exec, start: Instant)
    requires Mid(h, s) && Startable(h, s.j)
    ensures var r := AcceptedNow(s, start);
      && Mid(h, r) && r.j.state == Watering && CurrentStatus(r.j) == Running && r.j.expectedEnd.Some?
  {
    var r := AcceptedNow(s, start);
    assert h.CrashFree? ==> CleanJournal(r.j);
    assert Writable(h, r.j);
    hide FinishedOk, Ordered, Recorded, RunningClock, Writable;
  }

  /** The configured tolerance is within the one the history speaks of. */
  predicate Within(h: History, env: Env) {
    h.Unskipped? ==> env.config.earlyEndTolerance <= h.tolerance
  }

  lemma OwnZoneOffRest(h: History, s: Exec, env: Env, o: Observation)
    requires Rest(h, s) && s.j.state != Idle && Within(h, env)
    ensures Rest(h, OwnZoneOff(s, env, o))
  {
    if s.j.state == Watering && s.j.expectedEnd.Some? {
      CancelMid(h, s);
      hide CompleteStep, ClassifyEarlyEnd, EnterEarlyEndReconcile;
      if o.observedAt >= s.j.expectedEnd.value - env.config.earlyEndTolerance {
        assert EndsWell(h, CancelTimer(s).j, o.observedAt);
        hide Rest, Mid, EndsWell;
        CompleteRest(h, CancelTimer(s), env, o.observedAt);
      } else {
        hide Rest;
        ClassifyEarlyEndRest(h, s, env, o);
        EnterEarlyEndRest(h, s, env);
      }
    }
  }

  lemma ZoneDuringRunRest(h: History, s: Exec, env: Env, zone: ZoneId, isOn: bool, o: Observation)
    requires Rest(h, s) && (s.j.state == Watering || s.j.state == Reconciling) && Within(h, env)
    ensures Rest(h, ZoneEventDuringRun(s, env, zone, isOn, o))
  {
    assert Mid(h, s);
    hide Rest, Mid, Within, OwnZoneOn, OwnZoneOff, ExternalConflict, ExternalZones;
    OwnZoneOnRest(h, s, o);
    OwnZoneOffRest(h, s, env, o);
    ExternalConflictRest(h, s, env);
  }

  lemma ZoneDuringGapRest(h: History, s: Exec, env: Env, zone: ZoneId, isOn: bool, o: Observation)
    requires Rest(h, s) && s.j.state == InterZoneGap
    ensures Rest(h, ZoneEventDuringGap(s, env, zone, isOn, o))
  {
    var r := s.j.results[s.j.index];
    var s1 := s.(j := s.j.(expectedEnd := r.actualEnd));
    assert CurrentStep(s1.j) == CurrentStep(s.j) && CurrentStatus(s1.j) == CurrentStatus(s.j);
    assert Mid(h, s1) by { hide Recorded, WateredAll, FinishedOk, Writable; }
    hide ExternalConflict, EnterOverrunReconcile, Mid, Log, Closing, MatchingTimer;
    ExternalConflictRest(h, s, env);
    if isOn && r.actualEnd.Some? { EnterOverrunRest(h, s1, env); }
  }

  // ---------------------------------------------------------------------
  // Entry points

  /** The run waits for its next start. */
  lemma WaitingMid(h: History, s: Exec)
    requires Mid(h, s) && NotRunning(h, s.j)
    ensures var r := Write(s.(j := s.j.(state := Waiting)));
      Mid(h, r) && CurrentStatus(r.j) == CurrentStatus(s.j) && CurrentStep(r.j) == CurrentStep(s.j)
  {
    var s1 := s.(j := s.j.(state := Waiting));
    TouchMid(h, s, s1);
    assert Writable(h, s1.j) by { hide CleanJournal, WateredAll, Recorded, Settled; }
    hide FinishedOk, CleanJournal, Recorded, Watered, Writable;
  }

  lemma ResumeOrExpireRest(h: History, s: Exec, env: Env)
    requires Mid(h, s) && Quiet(s) && IsPaused(s.j) && NotRunning(h, s.j)
    ensures Rest(h, ResumeOrExpire(s, env))
  {
    var s1 := s.(j := s.j.(pausedReason := None, pausedAt := None));
    TouchMid(h, s, s1);
    var s2 := Write(s1.(j := s1.j.(state := Waiting)));
    WaitingMid(h, s1);
    hide Rest, CleanJournal, Watered, Quiet, Log, SkipRunFor, Advance, Write, RunHasBegun, LatestPermissibleStart,
         Recorded,
         WateredAll;
    SkipRunForRest(h, s1, MissedTolerance, CompletedWithSkips);
    AdvanceRest(h, s2, env);
  }

  lemma FreezeCutRest(h: History, s: Exec, env: Env)
    requires Mid(h, s) && s.j.state == Watering && (h.CrashFree? ==> CurrentStatus(s.j) == Running)
    ensures Rest(h, FreezeCut(s, env))
  {
    CancelMid(h, s);
    StopClosing(h, CancelTimer(s), env);
    var s1 := SendStop(CancelTimer(s), env);
    hide Rest, CleanJournal, Log, FinishRun, SkipRemaining, EndStep, Write, SendStop, Recorded, WateredAll;
    SensorCutPauseRest(h, s1, LowTemperature, Some(LowTemperature));
    EndAndFinishRest(h, s1, SensorCut, LowTemperature, LowTemperature, AbortedSensor, LowTemperature);
  }

  lemma StartRunRest(h: History, s: Exec, env: Env, plan: RunPlan)
    requires Rest(h, s)
    ensures Rest(h, StartRun(s, env, plan).0)
  {
    if s.j.state == Idle {
      var s1 := Claim(s, plan);
      assert forall k :: 0 <= k < |s1.j.results| ==> s1.j.results[k] == FRESH_RESULT;
      assert |plan.steps| > 0 ==> CleanJournal(s1.j);
      assert Writable(h, s1.j);
      assert Closing(h, s1) && Quiet(s1) by { hide Writable, FinishedOk, CleanJournal; }
      hide Rest, CleanJournal, Closing, Log, Quiet, FinishRun, Advance, Claim;
      if |plan.steps| == 0 { FinishRest(h, s1, RunSkipped, Some(NoExecutableSteps)); }
      else { AdvanceRest(h, s1, env); }
    }
  }

  lemma StopRunRest(h: History, s: Exec, env: Env, reason: string)
    requires Rest(h, s)
    ensures Rest(h, StopRun(s, env, reason))
  {
    if s.j.state == Idle { StopIdleRest(h, s, env, reason); }
    else {
      var s0 := RequestStop(s);
      StoppingClosing(h, s);
      SendStopMid(h, s0, env);
      var s1 := SendStop(s0, env);
      assert HasStep(s0.j) && s0.j.plan == s.j.plan && s0.j.results == s.j.results && s0.j.index == s.j.index;
      hide Rest, Mid, Log, FinishRun, SkipRemaining, EndForStop, SendStop, RequestStop;
      AfterStopClosing(h, s0, s1);
      hide Closing;
      StopFinishRest(h, s1, reason);
    }
  }

  lemma AfterStopClosing(h: History, s: Exec, r: Exec)
    requires Closing(h, s) && Log(h, r) && AfterStop(s, r) && HasStep(s.j)
    ensures Closing(h, r) && HasStep(r.j)
  {
    assert CurrentStep(r.j) == CurrentStep(s.j) && CurrentStatus(r.j) == CurrentStatus(s.j);
    hide Log, WateredAll, Recorded;
  }

  /** A user stop ends the current step if it has not ended, then the run. */
  lemma StopFinishRest(h: History, s: Exec, reason: string)
    requires Closing(h, s) && HasStep(s.j)
    ensures Rest(h, FinishRun(SkipRemaining(EndForStop(s, reason), UserStop), AbortedUser, Some(UserText(reason))))
  {
    hide Rest, Closing, FinishRun, SkipRemaining, EndStep;
    match CurrentStatus(s.j) {
      case Running => EndAndFinishRest(h, s, ExternalStop, UserText(reason), UserStop, AbortedUser, UserText(reason));
      case Pending => EndAndFinishRest(h, s, Skipped, UserText(reason), UserStop, AbortedUser, UserText(reason));
      case _ => SkipFinishRest(h, s, UserStop, AbortedUser, Some(UserText(reason)));
    }
  }

  /** A stop request is journaled before the command is sent. */
  lemma StoppingClosing(h: History, s: Exec)
    requires Mid(h, s)
    ensures var r := RequestStop(s);
      && Closing(h, r) && HasStep(r.j) && Quiet(r) && Writable(h, r.j)
  {
    var j := s.j.(stopRequested := true, state := Stopping);
    assert CurrentStep(j) == CurrentStep(s.j) && CurrentStatus(j) == CurrentStatus(s.j);
    assert CleanJournal(s.j) ==> CleanJournal(j);
    hide FinishedOk, Recorded, WateredAll, CleanJournal;
  }

  lemma StopIdleRest(h: History, s: Exec, env: Env, reason: string)
    requires Rest(h, s) && s.j.state == Idle
    ensures Rest(h, StopRun(s, env, reason))
  {
    var s0 := RequestStop(s);
    assert Log(h, s0) && Quiet(s0) && Writable(h, s0.j) by { hide FinishedOk; }
    assert s0.j.state == Idle && s0.timer.None?;
    hide FinishedOk, RequestStop;
    SendStopMid(h, s0, env);
    var s1 := SendStop(s0, env);
    assert s1.timer.None?;
    hide SendStop;
  }

  lemma LeaveStepMid(h: History, s: Exec, env: Env)
    requires Rest(h, s) && s.j.state != Idle
    ensures var r := LeaveStep(s, env);
      Mid(h, r) && Quiet(r) && r.j.results == s.j.results && CurrentStep(r.j) == CurrentStep(s.j)
  {
    var s1 := CancelTimer(s);
    CancelMid(h, s);
    if NeedsStop(s1.j) {
      assert h.CrashFree? ==> StateFitsStatus(s1.j);
      hide CleanJournal, Log, SendStop;
      StopClosing(h, s1, env);
    }
  }

  lemma PauseRunRest(h: History, s: Exec, env: Env, reason: string)
    requires Rest(h, s)
    ensures Rest(h, PauseRun(s, env, reason))
  {
    if s.j.state != Idle {
      LeaveStepMid(h, s, env);
      var s1 := LeaveStep(s, env);
      var s2 := if CurrentStatus(s.j) == Running
                then EndStep(s1, s1.j.index, ExternalStop, UserText(reason)) else s1;
      assert Mid(h, s2) && Quiet(s2) && NotRunning(h, s2.j) by {
        EndMid(h, s1, ExternalStop, UserText(reason));
        hide Mid, LeaveStep;
      }
      hide Rest, Mid, Quiet, EndStep, LeaveStep, Write;
      PauseRest(h, s2, PausedExternal, Some(UserText(reason)));
    }
  }

  lemma ResumeRunRest(h: History, s: Exec, env: Env)
    requires Rest(h, s)
    ensures Rest(h, ResumeRun(s, env))
  {
    if IsPaused(s.j) {
      var s1 := s.(j := s.j.(pausedReason := None));
      TouchMid(h, s, s1);
      hide ResumeOrExpire, Log, CleanJournal, Recorded, WateredAll;
      ResumeOrExpireRest(h, s1, env);
    }
  }

  lemma SkippedGapRest(h: History, s: Exec, env: Env)
    requires Mid(h, s) && (!h.Any? ==> Terminal(CurrentStatus(s.j)))
    requires h.Unskipped? ==> !CutShort(s.j, h.tolerance)
    ensures Rest(h, ArmIn(Write(s.(j := s.j.(state := InterZoneGap))), env.config.interZoneGap, OnGap))
  {
    var s1 := s.(j := s.j.(state := InterZoneGap));
    TouchMid(h, s, s1);
    assert Writable(h, s1.j);
    hide FinishedOk, CleanJournal, Recorded, WateredAll, Writable, Enough;
  }

  lemma SkipCurrentRest(h: History, s: Exec, env: Env)
    requires Rest(h, s)
    requires h.Unskipped? && s.j.state != Idle ==> !CutShort(s.j, h.tolerance)
    ensures Rest(h, SkipCurrent(s, env))
  {
    if s.j.state != Idle {
      LeaveStepMid(h, s, env);
      var s1 := LeaveStep(s, env);
      var s2 := EndStep(s1, s1.j.index, Skipped, UserSkip);
      EndMid(h, s1, Skipped, UserSkip);
      assert h.Unskipped? ==> !CutShort(s2.j, h.tolerance);
      hide Mid, LeaveStep, Rest, Write, CutShort, EndStep, ArmIn;
      SkippedGapRest(h, s2, env);
    }
  }

  lemma NoteRest(h: History, s: Exec, o: Observation)
    requires Rest(h, s)
    ensures Rest(h, NoteObservation(s, o))
  {
    if s.j.state != Idle {
      TouchMid(h, s, NoteObservation(s, o));
      hide Mid, Log;
    } else {
      hide Writable, FinishedOk;
    }
  }

  lemma ZoneStateRest(h: History, s: Exec, env: Env, zone: ZoneId, isOn: bool, o: Observation)
    requires Rest(h, s) && Within(h, env)
    ensures Rest(h, HandleZoneState(s, env, zone, isOn, o))
  {
    NoteRest(h, s, o);
    var s1 := NoteObservation(s, o);
    hide Log, CleanJournal, Recorded, WateredAll, Within, ZoneEventDuringRun, ZoneEventDuringGap, ResumeOrExpire,
         SensorPauseCleared;
    if s1.j.state == Watering || s1.j.state == Reconciling { ZoneDuringRunRest(h, s1, env, zone, isOn, o); }
    else if s1.j.state == InterZoneGap { ZoneDuringGapRest(h, s1, env, zone, isOn, o); }
    else if IsPaused(s1.j) { ResumeOrExpireRest(h, s1, env); }
  }

  lemma SensorStateRest(h: History, s: Exec, env: Env, o: Observation)
    requires Rest(h, s)
    ensures Rest(h, HandleSensorState(s, env, o))
  {
    NoteRest(h, s, o);
    var s1 := NoteObservation(s, o);
    hide Log, CleanJournal, Recorded, WateredAll, ResumeOrExpire, SensorPauseCleared;
    if IsPaused(s1.j) { ResumeOrExpireRest(h, s1, env); }
  }

  lemma WeatherStateRest(h: History, s: Exec, env: Env, o: Observation)
    requires Rest(h, s)
    ensures Rest(h, HandleWeatherState(s, env, o))
  {
    NoteRest(h, s, o);
    var s1 := NoteObservation(s, o);
    hide Log, CleanJournal, Recorded, WateredAll, ResumeOrExpire, SensorPauseCleared, FreezeCut, FreezeActive;
    if s1.j.state == Watering { FreezeCutRest(h, s1, env); }
    else if IsPaused(s1.j) { ResumeOrExpireRest(h, s1, env); }
  }

  /** A callback of the current generation is the armed one; any other does nothing. */
  lemma FireRest(h: History, s: Exec, env: Env, t: Timer)
    requires Rest(h, s) && t in s.issued
    ensures Rest(h, Fire(s, env, t))
    ensures t.generation != s.generation ==> Fire(s, env, t) == s.(issued := s.issued - {t})
  {
    if t.generation != s.generation {
      var s1 := s.(issued := s.issued - {t});
      assert Log(h, s1) by { hide Writable, FinishedOk; }
      hide Log, CleanJournal, Recorded, WateredAll;
    } else {
      var s1 := s.(issued := s.issued - {t}, timer := None);
      assert s.timer == Some(t);
      assert Log(h, s1) by { hide Writable, FinishedOk; }
      if s.j.state != Idle {
        assert Mid(h, s1) by { hide CleanJournal, Recorded, WateredAll, Log; }
        FiredRest(h, s1, env, t.handler);
      }
    }
  }

  /** What a handler finds when its callback fires: the state it was armed in, no timer. */
  predicate Expects(s: Exec, handler: Handler) {
    match handler
    case OnExpectedEnd => s.j.state == Watering
    case OnGap => s.j.state == InterZoneGap
    case ConfirmOverrun => s.j.state == Reconciling && s.context == OverrunContext
    case ConfirmEarlyEnd => s.j.state == Reconciling && s.context == EarlyEndContext && s.j.expectedEnd.Some?
    case ClassifyUncertain => s.j.state == Reconciling && s.context == StartContext
    case RetryStep => s.j.state == Reconciling && s.context == StartContext
    case RetryUncertainStop => IsPaused(s.j)
  }

  lemma FiredRest(h: History, s: Exec, env: Env, handler: Handler)
    requires Mid(h, s) && s.timer.None? && Expects(s, handler)
    requires (h.CrashFree? ==> StatusMatches(s)) && (h.Unpaused? ==> Attended(s))
    requires h.Unskipped? ==> GapWatered(s, h.tolerance)
    ensures Rest(h, Dispatch(s, env, handler))
  {
    assert s.j.state == Reconciling && s.context == OverrunContext ==> OverrunEndsWell(h, s);
    hide Log, CleanJournal, Recorded, WateredAll, Rest, HandleExpectedEnd, HandleGap, HandleConfirmOverrun,
      HandleConfirmEarlyEnd, HandleClassifyUncertain, HandleRetryStep, HandleRetryUncertainStop, OverrunEndsWell;
    match handler {
      case OnExpectedEnd => ExpectedEndRest(h, s, env);
      case OnGap => GapRest(h, s, env);
      case ConfirmOverrun => ConfirmOverrunRest(h, s, env);
      case ConfirmEarlyEnd => ConfirmEarlyEndRest(h, s, env);
      case ClassifyUncertain => ClassifyUncertainRest(h, s, env);
      case RetryStep => RetryStepRest(h, s, env);
      case RetryUncertainStop => RetryStopRest(h, s, env);
    }
  }

  lemma RetryStopRest(h: History, s: Exec, env: Env)
    requires Mid(h, s) && s.timer.None? && IsPaused(s.j) && NotRunning(h, s.j)
    ensures Rest(h, HandleRetryUncertainStop(s, env))
  {
    assert h.CrashFree? ==> StateFitsStatus(s.j);
    hide Log, CleanJournal, Recorded, WateredAll, SendStop;
    StopClosing(h, s, env);
  }

  lemma PausedHasPlan(h: History, s: Exec)
    requires Rest(h, s)
    ensures IsPaused(s.j) ==> s.j.plan.Some? && HasStep(s.j)
  {}

  lemma StoppedHasStep(s: Exec, env: Env)
    requires Rest(Any, s)
    ensures s.j.plan.Some? ==> HasStep(SendStop(RequestStop(s), env).j)
    ensures Readable(s.j)
  {
    if s.j.plan.Some? {
      StoppingClosing(Any, s);
      SendStopMid(Any, RequestStop(s), env);
      hide SendStop, Log;
    }
  }
}
