/** The coordinator's launching as it runs: the retry dictionary, the launch timer and the
    journal's deduplication window are updated in place. */
module Coordinator {
  import opened Domain
  import opened CoordinatorSpec
  import Dedup
  import Executor
  import Planner = PlannerSpec

  class LaunchDesk {
    /** The executor's journal; the executor sets and clears the active occurrence. */
    const journal: Executor.ExecutionJournal
    var timeline: seq<RunPlan>
    var index: map<OccurrenceId, Planner.Occurrence>
    var programs: map<ProgramId, Planner.Program>
    var toleranceMinutes: int
    var retry: seq<OccurrenceId>
    var retryArmed: bool
    var armed: Option<Armed>
    ghost var log: seq<Settlement>
    ghost var forgotten: set<OccurrenceId>

    constructor (
      journal: Executor.ExecutionJournal, programs: map<ProgramId, Planner.Program>, toleranceMinutes: int)
      ensures this.journal == journal
      ensures View() == Desk(journal.completed, journal.activeOccurrence, [], map[], programs, toleranceMinutes,
                             [], false, None, [], {})
    {
      this.journal, this.programs, this.toleranceMinutes := journal, programs, toleranceMinutes;
      timeline, index, retry, retryArmed, armed, log, forgotten := [], map[], [], false, None, [], {};
    }

    ghost function View(): Desk
      reads this, journal
    {
      Desk(journal.completed, journal.activeOccurrence, timeline, index, programs, toleranceMinutes,
           retry, retryArmed, armed, log, forgotten)
    }

    method LaunchDeadline(run: RunPlan) returns (deadline: Instant)
      ensures deadline == CoordinatorSpec.LaunchDeadline(View(), run)
    {
      var from := CoordinatorSpec.PlannedLaunch(run);
      if run.program in programs && programs[run.program].missedRun == Planner.SkipMissed {
        from := run.requestedStart;
      }
      deadline := from + 60 * toleranceMinutes;
    }

    /** Is the occurrence finished or running? */
    method IsSettled(id: OccurrenceId) returns (settled: bool)
      ensures settled == CoordinatorSpec.Settled(View(), id)
    {
      settled := Dedup.Contains(journal.completed, id) || journal.activeOccurrence == Some(id);
    }

    /** The first run that may still be launched. */
    method NextPendingRun(now: Instant) returns (next: Option<nat>)
      ensures next == CoordinatorSpec.NextPending(View(), now, 0)
    {
      for i := 0 to |timeline|
        invariant CoordinatorSpec.NextPending(View(), now, 0) == CoordinatorSpec.NextPending(View(), now, i)
      {
        var run := timeline[i];
        if run.steps != [] {
          var settled := IsSettled(run.occurrence);
          var deadline := LaunchDeadline(run);
          if !settled && run.occurrence !in retry && now <= deadline { return Some(i); }
        }
      }
      return None;
    }

    method RecordOccurrenceSkip(id: OccurrenceId, now: Instant)
      modifies `log, `forgotten, journal
      ensures View() == CoordinatorSpec.RecordSkip(old(View()), id, now)
    {
      ghost var before := journal.completed;
      journal.RecordOccurrenceFinished(id, now);
      forgotten := forgotten + (CoordinatorSpec.Ids(before) + {id} - CoordinatorSpec.Ids(journal.completed));
      log := log + [Skipped(id)];
    }

    method ExpireOne(run: RunPlan, now: Instant)
      modifies `retry, `log, `forgotten, journal
      ensures View() == CoordinatorSpec.ExpireOne(old(View()), run, now)
    {
      hide CoordinatorSpec.RecordSkip, CoordinatorSpec.LaunchDeadline, Dedup.Contains;
      if run.steps == [] { return; }
      var settled := IsSettled(run.occurrence);
      if settled || run.occurrence !in index || run.program !in programs { return; }
      var deadline := LaunchDeadline(run);
      if now <= deadline { return; }
      retry := CoordinatorSpec.Remove(retry, run.occurrence);
      RecordOccurrenceSkip(run.occurrence, now);
    }

    /** Record a skip for every run of the timeline past its deadline. */
    method ExpireStaleOccurrences(now: Instant)
      modifies `retry, `log, `forgotten, journal
      ensures View() == CoordinatorSpec.ExpireFrom(old(View()), now, 0)
    {
      ghost var goal := CoordinatorSpec.ExpireFrom(View(), now, 0);
      for i := 0 to |timeline|
        invariant CoordinatorSpec.ExpireFrom(View(), now, i) == goal
      {
        hide CoordinatorSpec.ExpireOne;
        ExpireOne(timeline[i], now);
      }
    }

    /** Arm the launch timer for the next pending run; keep a timer that is already right. */
    method ArmNextOccurrence(now: Instant, allowed: bool)
      modifies `retry, `log, `forgotten, `armed, journal
      ensures View() == CoordinatorSpec.ArmNext(old(View()), now, allowed)
    {
      hide CoordinatorSpec.ExpireFrom, CoordinatorSpec.NextPending, CoordinatorSpec.PlannedLaunch;
      if !allowed {
        armed := None;
        return;
      }
      ExpireStaleOccurrences(now);
      var next := NextPendingRun(now);
      if next.None? || timeline[next.value].occurrence !in index {
        armed := None;
        return;
      }
      var run := timeline[next.value];
      var when := Max(CoordinatorSpec.PlannedLaunch(run), now);
      if armed == Some(Armed(run.occurrence, when)) { return; }
      armed := Some(Armed(run.occurrence, when));
    }

    method Recalculate(
      runs: seq<RunPlan>, occurrences: map<OccurrenceId, Planner.Occurrence>, now: Instant, allowed: bool)
      modifies `timeline, `index, `retry, `log, `forgotten, `armed, journal
      ensures View() == CoordinatorSpec.Recalculate(old(View()), runs, occurrences, now, allowed)
    {
      timeline, index := runs, occurrences;
      hide CoordinatorSpec.ArmNext;
      ArmNextOccurrence(now, allowed);
    }

    /** Retry a blocked launch later; one timer serves all blocked occurrences. */
    method ArmLaunchRetry(id: OccurrenceId, now: Instant, allowed: bool)
      modifies `retry, `retryArmed, `log, `forgotten, `armed, journal
      ensures View() == CoordinatorSpec.ArmRetry(old(View()), id, now, allowed)
    {
      if id !in retry { retry := retry + [id]; }
      if !retryArmed { retryArmed := true; }
      hide CoordinatorSpec.ArmNext;
      ArmNextOccurrence(now, allowed);
    }

    /** The retry timer: everything that waits is launched again. */
    method RetryPass() returns (due: seq<OccurrenceId>)
      modifies `retry, `retryArmed
      ensures due == old(retry)
      ensures View() == old(View()).(retry := [], retryArmed := false)
    {
      due := retry;
      retry, retryArmed := [], false;
    }

    /** The latest launch instant, from the first run of the timeline for the occurrence. */
    method OccurrenceLaunchDeadline(o: Planner.Occurrence) returns (deadline: Instant)
      ensures deadline == CoordinatorSpec.DeadlineOf(View(), o, 0)
    {
      hide CoordinatorSpec.LaunchDeadline;
      for i := 0 to |timeline|
        invariant CoordinatorSpec.DeadlineOf(View(), o, 0) == CoordinatorSpec.DeadlineOf(View(), o, i)
      {
        if timeline[i].occurrence == o.id {
          deadline := LaunchDeadline(timeline[i]);
          return;
        }
      }
      deadline := o.start + 60 * toleranceMinutes;
    }

    /** A launch up to its first wait. */
    method BeginLaunch(o: Planner.Occurrence, now: Instant, blocked: Blocked) returns (outcome: Attempted)
      modifies `log, `forgotten, journal
      ensures (View(), outcome) == CoordinatorSpec.Attempt(old(View()), o, now, blocked)
    {
      hide CoordinatorSpec.RecordSkip, CoordinatorSpec.DeadlineOf, Dedup.Contains;
      if o.program !in programs { return Stale; }
      var settled := IsSettled(o.id);
      if settled { return Stale; }
      var deadline := OccurrenceLaunchDeadline(o);
      if journal.activeOccurrence.Some? {
        if now <= deadline { return Retry; }
        RecordOccurrenceSkip(o.id, now);
        return SkippedNow;
      }
      if blocked != NotBlocked {
        if blocked == BlockedForNow && now <= deadline { return Retry; }
        RecordOccurrenceSkip(o.id, now);
        return SkippedNow;
      }
      return GoesOn(Launch(o.id, now, deadline));
    }

    /** The launch after its wait, up to the executor's answer. */
    method CommitLaunch(launch: Launch, runnable: bool, now: Instant) returns (outcome: Committed)
      modifies `log, `forgotten, journal
      ensures (View(), outcome) == CoordinatorSpec.Commit(old(View()), launch, runnable, now)
    {
      hide CoordinatorSpec.RecordSkip, Dedup.Contains;
      if !runnable {
        RecordOccurrenceSkip(launch.id, now);
        return NothingToRun;
      }
      if journal.activeOccurrence.Some? {
        if launch.begun <= launch.deadline { return Busy; }
        RecordOccurrenceSkip(launch.id, now);
        return BusyLate;
      }
      if Dedup.Contains(journal.completed, launch.id) { return Duplicate; }
      journal.activeOccurrence := Some(launch.id);
      log := log + [Ran(launch.id)];
      return Started;
    }

    /** The executor finishes its run. */
    method RunFinished(now: Instant)
      modifies `forgotten, journal
      ensures View() == CoordinatorSpec.FinishActive(old(View()), now)
    {
      if journal.activeOccurrence.Some? {
        var id := journal.activeOccurrence.value;
        ghost var before := journal.completed;
        journal.RecordOccurrenceFinished(id, now);
        forgotten := forgotten + (CoordinatorSpec.Ids(before) + {id} - CoordinatorSpec.Ids(journal.completed));
        journal.activeOccurrence := None;
      }
    }
  }
}
