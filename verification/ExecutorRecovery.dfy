/** Restart recovery: what the persisted journal turns into, for any observation. */
module ExecutorRecovery {
  import opened Domain
  import opened ExecutorSpec
  import opened ExecutorInvariant
  import opened ExecutorFrames

  /** The journals recovery handles as intended: a step not yet over, a gap, a pause or a stop. */
  predicate Resumable(j: Journal) {
    HasStep(j) && Ordered(j) &&
    (!Terminal(CurrentStatus(j)) || j.state in {InterZoneGap, PausedExternal, PausedSensor, Stopping})
  }

  predicate StopWins(j: Journal) { j.state == Stopping || j.stopRequested }

  /** Recovery pauses for foreign activity without ending the running step. */
  predicate PausesOverRunning(j: Journal, o: Option<Observation>)
    requires HasStep(j)
  {
    CurrentStatus(j) == Running && !StopWins(j) && ForeignZones(j, o) != {}
  }

  predicate LeavesRunning(j: Journal, o: Option<Observation>) { HasStep(j) && PausesOverRunning(j, o) }

  /** Recovery, having made its read, goes on with the run. */
  predicate GoesOn(j: Journal, o: Option<Observation>) {
    HasStep(j) && !StopWins(j) && ForeignZones(j, o) == {}
  }

  /** The expected end is past by more than the missed-run tolerance. */
  predicate LongPast(s: Exec, env: Env) {
    EndOrNow(s) <= s.clock && s.clock - EndOrNow(s) > 60 * env.config.missedRunToleranceMinutes
  }

  /** ... and calls the current step COMPLETED because its end is long past. */
  predicate WritesOff(s: Exec, env: Env, o: Option<Observation>) {
    && GoesOn(s.j, o) && (s.j.state == Watering || (EndContext(s.j) && o.Some?))
    && !(o.Some? && CurrentStep(s.j).zone in o.value.active)
    && LongPast(s, env)
  }

  /** Recovery takes the recorded end of the current step for a proper one although it is
      too early: it waits out the gap after it, or writes the step off as COMPLETED. */
  predicate TrustsShortEnd(s: Exec, env: Env, o: Option<Observation>, tolerance: int) {
    && HasStep(s.j) && CutShort(s.j, tolerance)
    && ((GoesOn(s.j, o) && s.j.state == InterZoneGap) || WritesOff(s, env, o))
  }

  /** What recovery needs to know about a journal to keep what the history promises. */
  predicate Restorable(h: History, s: Exec, env: Env, o: Option<Observation>) {
    match h
    case Any => true
    case CrashFree => Resumable(s.j) && StateFitsStatus(s.j) && CleanJournal(s.j) && !PausesOverRunning(s.j, o)
    case Unpaused => GapOver(h, s.j) && !LeavesRunning(s.j, o)
    case Unskipped(tolerance) => GapOver(h, s.j) && !TrustsShortEnd(s, env, o, tolerance)
  }

  lemma CompleteOrExpireRest(h: History, s: Exec, env: Env, end: Instant)
    requires Mid(h, s) && (h.CrashFree? ==> CurrentStatus(s.j) != Pending)
    requires h.Unskipped? ==> ClockRuns(s.j) && s.j.expectedEnd == Some(end) && end <= s.clock
    requires h.Unskipped? && s.clock - end > 60 * env.config.missedRunToleranceMinutes ==> !CutShort(s.j, h.tolerance)
    ensures Rest(h, CompleteOrExpire(s, env, end))
  {
    assert EndsWell(h, s.j, end) && Closing(h, s);
    assert s.clock - end > 60 * env.config.missedRunToleranceMinutes ==> CompletesWell(h, s, Completed);
    hide Rest, Mid, Closing, CompleteStep, FinishRun, SkipRemaining, EndStep, EndsWell, CompletesWell, CutShort,
         ClockRuns;
    CompleteRest(h, s, env, end);
    if s.clock - end > 60 * env.config.missedRunToleranceMinutes {
      EndAndFinishRest(h, s, Completed, RestartMissedTolerance, RestartMissedTolerance, CompletedWithSkips,
                       RestartMissedTolerance);
    }
  }

  lemma RecoverWateringRest(h: History, s: Exec, env: Env, zoneActive: bool)
    requires Mid(h, s) && s.j.state == Watering && (h.CrashFree? ==> CurrentStatus(s.j) == Running)
    requires h.Unskipped? && !zoneActive && LongPast(s, env) ==> !CutShort(s.j, h.tolerance)
    ensures Rest(h, RecoverWatering(s, env, zoneActive))
  {
    var end := EndOrNow(s);
    assert EndsWell(h, s.j, end) && (h.Unskipped? ==> ClockRuns(s.j));
    hide Rest, Mid, CompleteStep, CompleteOrExpire, ArmAt, EndsWell, ClockRuns, CutShort;
    if end > s.clock { ArmedWateringRest(h, s); }
    else if zoneActive { CompleteRest(h, s, env, end); }
    else { CompleteOrExpireRest(h, s, env, end); }
  }

  lemma RecoverEndReconcileRest(h: History, s: Exec, env: Env, o: Option<Observation>, zoneActive: bool)
    requires Mid(h, s) && (h.CrashFree? ==> CurrentStatus(s.j) == Running)
    requires h.Unskipped? ==> ClockRuns(s.j)
    requires h.Unskipped? && o.Some? && !zoneActive && LongPast(s, env) ==> !CutShort(s.j, h.tolerance)
    ensures Rest(h, RecoverEndReconcile(s, env, o, zoneActive))
  {
    hide Rest, Mid, CompleteOrExpire, EnterOverrunReconcile, EnterEarlyEndReconcile, Write, ResumeWatering,
         ClassifyEarlyEnd, CutShort;
    var end := EndOrNow(s);
    if end <= s.clock {
      EnterOverrunRest(h, s, env);
      if o.Some? && !zoneActive { CompleteOrExpireRest(h, s, env, end); }
    } else {
      EnterEarlyEndRest(h, s, env);
      ResumeWateringRest(h, s);
      if o.Some? { ClassifyEarlyEndRest(h, s, env, o.value); }
    }
  }

  lemma RecoverStartRest(h: History, s: Exec, env: Env, zoneActive: bool)
    requires Mid(h, s) && s.timer.None? && Startable(h, s.j)
    ensures Rest(h, RecoverStart(s, env, zoneActive))
  {
    var s1 := Write(s.(j := s.j.(state := Waiting)));
    WaitingMid(h, s);
    assert Closing(h, s);
    assert Startable(h, s1.j) && Quiet(s1);
    hide Rest, Mid, Closing, Quiet, AcceptAt, StartStep, SkipRunFor, Write, LatestPermissibleStart, Startable;
    AcceptRest(h, s, env, CommandTime(s), s.clock);
    StartStepRest(h, s1, env);
    SkipRunForRest(h, s, RestartMissedTolerance, CompletedWithSkips);
  }

  lemma RecoverGapRest(h: History, s: Exec, env: Env)
    requires Mid(h, s) && s.j.state == InterZoneGap && NotRunning(h, s.j)
    requires h.CrashFree? || h.Unskipped? ==> Terminal(CurrentStatus(s.j))
    requires h.Unskipped? ==> !CutShort(s.j, h.tolerance)
    ensures Rest(h, ArmGapToNextStart(s, env))
  {
    hide CleanJournal, Recorded, WateredAll, FinishedOk, GapTarget, Writable, CutShort, Watered;
  }

  lemma RecoverPausedRest(h: History, s: Exec, pausedAt: Option<Instant>)
    requires Mid(h, s) && s.timer.None? && NotRunning(h, s.j)
    ensures Rest(h, Write(s.(j := s.j.(state := PausedExternal, pausedAt := pausedAt))))
    ensures IsPaused(s.j) ==> Rest(h, Write(s))
  {
    TouchMid(h, s, s.(j := s.j.(state := PausedExternal, pausedAt := pausedAt)));
    hide CleanJournal, Recorded, WateredAll, FinishedOk;
  }

  lemma RecoverLockedRest(h: History, s: Exec, env: Env, o: Option<Observation>)
    requires Closing(h, s) && s.timer.None? && Restorable(h, s, env, o)
    ensures Rest(h, RecoverLocked(s, env, o))
  {
    if s.j.index >= |s.j.plan.value.steps| {
      FinishRest(h, s, CompletedWithSkips, Some(RecoveredPastEnd));
    } else if StopWins(s.j) {
      SkipFinishRest(h, s, UserStop, AbortedUser, Some(UserStop));
    } else {
      assert Mid(h, s);
      RecoverOpenRest(h, s, env, o);
    }
  }

  lemma RecoverOpenRest(h: History, s: Exec, env: Env, o: Option<Observation>)
    requires Mid(h, s) && s.timer.None? && Restorable(h, s, env, o) && !StopWins(s.j)
    ensures Rest(h, RecoverLocked(s, env, o))
  {
    var zoneActive := o.Some? && CurrentStep(s.j).zone in o.value.active;
    assert h.CrashFree? && CurrentStatus(s.j) == Running && s.j.state == Reconciling ==> EndContext(s.j);
    assert h.Unskipped? && EndContext(s.j) ==> ClockRuns(s.j);
    assert h.Unskipped? && ForeignZones(s.j, o) == {} && s.j.state == InterZoneGap ==> !CutShort(s.j, h.tolerance);
    assert h.Unskipped? && CutShort(s.j, h.tolerance) && LongPast(s, env) && ForeignZones(s.j, o) == {} ==>
      (s.j.state == Watering ==> zoneActive) && (EndContext(s.j) ==> o.None? || zoneActive);
    hide LongPast, CutShort, ClockRuns, Watered;
    hide Rest, Log, CleanJournal, Recorded, WateredAll, Ordered, FinishRun, SkipRemaining, Write, RecoverWatering,
      RecoverEndReconcile, RecoverStart, ArmGapToNextStart, ForeignZones;
    if ForeignZones(s.j, o) != {} {
      RecoverPausedRest(h, s, if s.j.pausedAt.None? then Some(s.clock) else s.j.pausedAt);
    } else if IsPaused(s.j) {
      RecoverPausedRest(h, s, None);
    } else if s.j.state == Watering {
      RecoverWateringRest(h, s, env, zoneActive);
    } else if s.j.state == InterZoneGap {
      RecoverGapRest(h, s, env);
    } else if EndContext(s.j) {
      RecoverEndReconcileRest(h, s, env, o, zoneActive);
    } else {
      RecoverStartRest(h, s, env, zoneActive);
    }
  }

  // ---------------------------------------------------------------------
  // Main results

  lemma RebootedRest(s: Exec, env: Env)
    requires Log(Any, s) && Stored(s.j) && s.timer.None?
    ensures Rest(Any, Recover(s, env))
  {
    if s.j.plan.Some? {
      var s1 := Observe(s, env);
      assert Closing(Any, s1) by { hide FinishedOk; }
      RecoverLockedRest(Any, s1, env, env.read);
    }
  }

  /** Whatever journal was stored, whatever the read says: recovery ends idle, paused,
      or with exactly the timer that the state calls for. */
  lemma RecoverNeverWedges(s: Exec, j: Journal, env: Env)
    requires Log(Any, s) && Stored(j)
    ensures Rest(Any, Recover(Reboot(s, j), env))
  {
    var s0 := Reboot(s, j);
    assert Log(Any, s0) by { hide FinishedOk; }
    hide Log, Rest, Recover;
    RebootedRest(s0, env);
  }

  lemma ResumableIsClean(j: Journal)
    requires PersistOk(j) && Stored(j) && Resumable(j) && j.plan.Some?
    ensures CleanJournal(j) && StateFitsStatus(j)
  {}

  /** On a resumable journal recovery also restores the order of the step statuses,
      except exactly when it pauses over a step that is still running. */
  lemma RecoverRestoresStatuses(s: Exec, j: Journal, env: Env)
    requires Log(CrashFree, s)
    requires PersistOk(j) && Stored(j) && j.plan.Some? && Resumable(j)
    ensures Rest(CrashFree, Recover(Reboot(s, j), env)) <==> !PausesOverRunning(j, env.read)
  {
    ResumableIsClean(j);
    var s0 := Reboot(s, j);
    assert Log(CrashFree, s0) by { hide FinishedOk, Writable; }
    var s1 := Observe(s0, env);
    ObservedJournal(s0, env);
    if !PausesOverRunning(j, env.read) {
      assert Closing(CrashFree, s1) by { hide FinishedOk, PersistOk; }
      RecoverLockedRest(CrashFree, s1, env, env.read);
    } else {
      hide Log, CleanJournal, ForeignZones, Stored;
    }
  }

  /** Whatever journal was stored: recovery leaves no step running unattended, except exactly
      when it pauses over a step that is still running. */
  lemma RecoverKeepsAttended(s: Exec, j: Journal, env: Env)
    requires Log(Unpaused, s) && Writable(Unpaused, j) && j.plan.Some?
    ensures Rest(Unpaused, Recover(Reboot(s, j), env)) <==> !LeavesRunning(j, env.read)
  {
    var s0 := Reboot(s, j);
    assert Log(Unpaused, s0) by { hide FinishedOk, Writable; }
    var s1 := Observe(s0, env);
    if HasStep(j) { ObservedJournal(s0, env); }
    if !LeavesRunning(j, env.read) {
      assert Closing(Unpaused, s1) && Restorable(Unpaused, s1, env, env.read) by { hide FinishedOk, PausesOverRunning; }
      hide Closing, Restorable, RecoverLocked, Rest, Log, Writable, PausesOverRunning;
      RecoverLockedRest(Unpaused, s1, env, env.read);
    } else {
      hide Log, ForeignZones, Writable;
    }
  }

  /** The recorded end that recovery, after its read, relies on is too early. */
  predicate RecoveryTrustsShortEnd(s: Exec, j: Journal, env: Env, tolerance: int) {
    TrustsShortEnd(Observe(Reboot(s, j), env), env, env.read, tolerance)
  }

  /** Whatever journal was stored: recovery keeps COMPLETED to mean watered, except exactly
      when it relies on a recorded end that is too early. */
  lemma RecoverKeepsWatered(s: Exec, j: Journal, env: Env, tolerance: nat)
    requires Log(Unskipped(tolerance), s) && Writable(Unskipped(tolerance), j) && j.plan.Some?
    ensures Rest(Unskipped(tolerance), Recover(Reboot(s, j), env)) <==> !RecoveryTrustsShortEnd(s, j, env, tolerance)
  {
    var h := Unskipped(tolerance);
    var s0 := Reboot(s, j);
    assert Log(h, s0) by { hide FinishedOk, Writable; }
    var s1 := Observe(s0, env);
    if HasStep(j) { ObservedJournal(s0, env); }
    assert Watered(h, s1.j) && GapOver(h, s1.j) by { hide WateredAll; }
    if !TrustsShortEnd(s1, env, env.read, tolerance) {
      assert Closing(h, s1) by { hide FinishedOk, Writable, Watered; }
      RecoverLockedRest(h, s1, env, env.read);
    } else {
      assert Recover(Reboot(s, j), env) == RecoverLocked(s1, env, env.read);
      hide Recover, Reboot, Log, Watered, Writable, RecoverLocked;
      ShortEndBreaks(s1, env, env.read, tolerance);
    }
  }

  lemma ShortEndBreaks(s: Exec, env: Env, o: Option<Observation>, tolerance: nat)
    requires TrustsShortEnd(s, env, o, tolerance)
    ensures !Rest(Unskipped(tolerance), RecoverLocked(s, env, o))
  {
    if WritesOff(s, env, o) {
      WrittenOffFalsely(s, env, o, tolerance);
      var r := RecoverLocked(s, env, o);
      assert !FinishedOk(Unskipped(tolerance), r.effects[|s.effects|]);
      hide RecoverLocked, Writable, Callbacks, CutShort, WateredAll;
    } else {
      hide Log, ForeignZones, CutShort, Watered;
    }
  }

  /** A step that recovery writes off keeps an end that is too early, and is COMPLETED. */
  lemma WrittenOffFalsely(s: Exec, env: Env, o: Option<Observation>, tolerance: nat)
    requires HasStep(s.j) && CutShort(s.j, tolerance) && WritesOff(s, env, o)
    ensures var effects := RecoverLocked(s, env, o).effects;
      && |effects| == |s.effects| + 1
      && var e := effects[|s.effects|];
         && e.RunFinished? && e.plan == s.j.plan.value && |e.results| == |s.j.results|
         && e.results[s.j.index].status == Completed
         && !Enough(e.results[s.j.index], CurrentStep(s.j), tolerance)
  {
    assert RecoverLocked(s, env, o) == CompleteOrExpire(s, env, EndOrNow(s)) by { hide CompleteOrExpire, ForeignZones; }
  }

  lemma ObservedJournal(s: Exec, env: Env)
    requires HasStep(s.j)
    ensures var j := Observe(s, env).j;
      && HasStep(j) && CurrentStep(j) == CurrentStep(s.j) && CurrentStatus(j) == CurrentStatus(s.j)
      && (forall o :: ForeignZones(j, o) == ForeignZones(s.j, o))
      && (Resumable(s.j) ==> Resumable(j)) && (StateFitsStatus(s.j) ==> StateFitsStatus(j))
      && (CleanJournal(s.j) ==> CleanJournal(j))
      && (forall o :: PausesOverRunning(j, o) <==> PausesOverRunning(s.j, o))
  {
    var j := Observe(s, env).j;
    forall o ensures ForeignZones(j, o) == ForeignZones(s.j, o) {
      if o.Some? { assert ExternalZones(j, o.value, j.index) == ExternalZones(s.j, o.value, s.j.index); }
    }
  }

  /** The journals of a crash-free executor that are not resumable: of a run that is over
      and about to be reset, or RECONCILING or WAITING over a step that has ended. */
  lemma NonResumableWrites(j: Journal)
    requires PersistOk(j) && Stored(j) && j.plan.Some? && !Settled(j.results)
    ensures HasStep(j)
    ensures !Resumable(j) <==> Terminal(CurrentStatus(j)) && j.state in {Reconciling, Waiting}
  {}

  // ---------------------------------------------------------------------
  // When recovery sends a start command

  /** Recovery takes the journal for one whose start may still be outstanding. */
  predicate ReachesStart(j: Journal, o: Option<Observation>) {
    HasStep(j) && !StopWins(j) && ForeignZones(j, o) == {} &&
    j.state in {Starting, Reconciling, Waiting} && !EndContext(j)
  }

  /** The conditions under which a recovery that has made its read starts the current step. */
  predicate SendsAfterRead(s: Exec, env: Env) {
    && ReachesStart(s.j, env.read)
    && !(env.read.Some? && CurrentStep(s.j).zone in env.read.value.active)
    && s.clock <= LatestPermissibleStart(s.j.plan.value, env.config)
    && Sends(Write(s.(j := s.j.(state := Waiting))), env)
  }

  predicate RecoverySends(s: Exec, j: Journal, env: Env) {
    SendsAfterRead(Observe(Reboot(s, j), env), env)
  }

  lemma RecoverStartSends(s: Exec, env: Env, zoneActive: bool)
    requires HasStep(s.j)
    ensures var s1 := Write(s.(j := s.j.(state := Waiting)));
      Starts(RecoverStart(s, env, zoneActive).effects) == Starts(s.effects) +
        if !zoneActive && s.clock <= LatestPermissibleStart(s.j.plan.value, env.config) && Sends(s1, env)
        then [StartZone(s.j.index, s.clock, env.start)] else []
  {
    var s1 := Write(s.(j := s.j.(state := Waiting)));
    hide Starts, AcceptAt, StartStep, SkipRunFor, LatestPermissibleStart, Sends;
    if zoneActive { AcceptKeeps(s, env, CommandTime(s), s.clock); }
    else if s.clock <= LatestPermissibleStart(s.j.plan.value, env.config) { StartStepSends(s1, env); }
    else { SkipRunForKeeps(s, RestartMissedTolerance, CompletedWithSkips); }
  }

  lemma RecoverOtherwiseKeeps(s: Exec, env: Env, o: Option<Observation>, zoneActive: bool)
    requires HasStep(s.j)
    ensures Keeps(s, RecoverWatering(s, env, zoneActive)) && Keeps(s, RecoverEndReconcile(s, env, o, zoneActive))
    ensures Keeps(s, ArmGapToNextStart(s, env))
  {
    hide Starts, CompleteStep, FinishRun, SkipRemaining, EndStep, ClassifyEarlyEnd, GapTarget;
    var end := EndOrNow(s);
    CompleteKeeps(s, env, end);
    EndAndFinishKeeps(s, Completed, RestartMissedTolerance, RestartMissedTolerance, CompletedWithSkips,
                      RestartMissedTolerance);
    assert Keeps(s, CompleteOrExpire(s, env, end));
    hide CompleteOrExpire;
    if o.Some? { ClassifyEarlyEndKeeps(s, env, o.value); }
  }

  lemma RecoverLockedSends(s: Exec, env: Env, o: Option<Observation>)
    requires s.j.plan.Some? && Shaped(s.j)
    ensures var r := RecoverLocked(s, env, o);
      if ReachesStart(s.j, o) then r == RecoverStart(s, env, o.Some? && CurrentStep(s.j).zone in o.value.active)
      else Starts(r.effects) == Starts(s.effects)
  {
    hide Starts, FinishRun, SkipRemaining, RecoverWatering, RecoverEndReconcile, RecoverStart, ArmGapToNextStart,
         ForeignZones, EndContext;
    if !HasStep(s.j) { FinishKeeps(s, CompletedWithSkips, Some(RecoveredPastEnd)); }
    else if StopWins(s.j) { SkipFinishKeeps(s, UserStop, AbortedUser, Some(UserStop)); }
    else { RecoverOtherwiseKeeps(s, env, o, o.Some? && CurrentStep(s.j).zone in o.value.active); }
  }

  lemma SendsAfterReadExactly(s: Exec, env: Env)
    requires s.j.plan.Some? && Shaped(s.j)
    ensures Starts(RecoverLocked(s, env, env.read).effects) == Starts(s.effects) +
      if SendsAfterRead(s, env) then [StartZone(s.j.index, s.clock, env.start)] else []
  {
    RecoverLockedSends(s, env, env.read);
    if ReachesStart(s.j, env.read) {
      RecoverStartSends(s, env, env.read.Some? && CurrentStep(s.j).zone in env.read.value.active);
    }
    hide Starts, RecoverLocked, RecoverStart, ForeignZones, Sends, LatestPermissibleStart;
  }

  /** Recovery sends a start command under exactly these conditions. */
  lemma RecoverySendsExactly(s: Exec, j: Journal, env: Env)
    requires Stored(j)
    ensures Starts(Recover(Reboot(s, j), env).effects) == Starts(s.effects) +
      if RecoverySends(s, j, env) then [StartZone(j.index, s.clock + env.readLatency, env.start)] else []
  {
    hide Starts, RecoverLocked, LatestPermissibleStart, Sends, ForeignZones, EndContext;
    if j.plan.Some? { SendsAfterReadExactly(Observe(Reboot(s, j), env), env); }
  }

  /** Among the journals of a crash-free executor, the step that recovery starts is PENDING
      exactly when the journal is resumable, and it is never one that is RUNNING. */
  lemma RecoveryStartsPendingIffResumable(s: Exec, j: Journal, env: Env)
    requires PersistOk(j) && RecoverySends(s, j, env)
    ensures CurrentStatus(j) == Pending <==> Resumable(j)
    ensures CurrentStatus(j) != Running
  {
    hide ForeignZones, Sends, LatestPermissibleStart;
  }

  /** Among the journals that are written while no recovery pauses over a running step, the
      step that recovery starts is never one that is RUNNING. */
  lemma RecoveryStartsNoneRunning(s: Exec, j: Journal, env: Env)
    requires Writable(Unpaused, j) && RecoverySends(s, j, env)
    ensures HasStep(j) && CurrentStatus(j) != Running
  {
    hide ForeignZones, Sends, LatestPermissibleStart;
  }
}
