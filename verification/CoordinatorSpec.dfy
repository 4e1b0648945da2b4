/** How timeline occurrences are launched, retried, expired and settled.

    Each function is one uninterrupted stretch of the event loop. A launch has two: up to
    the first wait, and from there to the executor's answer. `log` and `forgotten` are kept
    for the specification: which occurrences were settled (a run claimed the controller, or
    a skip was recorded), and which have dropped out of the deduplication window. */
module CoordinatorSpec {
  import opened Domain
  import Dedup
  import Planner = PlannerSpec

  datatype Settlement = Ran(id: OccurrenceId) | Skipped(id: OccurrenceId)

  datatype Armed = Armed(id: OccurrenceId, at: Instant)

  /** A launch that has passed its checks and waits for its adjustment. */
  datatype Launch = Launch(id: OccurrenceId, begun: Instant, deadline: Instant)

  datatype Desk = Desk(
    completed: seq<Dedup.Entry>,
    active: Option<OccurrenceId>,
    timeline: seq<RunPlan>,
    index: map<OccurrenceId, Planner.Occurrence>,
    programs: map<ProgramId, Planner.Program>,
    toleranceMinutes: int,
    retry: seq<OccurrenceId>,
    retryArmed: bool,
    armed: Option<Armed>,
    log: seq<Settlement>,
    forgotten: set<OccurrenceId>)

  // ---------------------------------------------------------------------
  // Deadlines

  function PlannedLaunch(run: RunPlan): Instant {
    if run.steps == [] then run.requestedStart else Planner.BlockStart(run.steps)
  }

  function LaunchDeadline(d: Desk, run: RunPlan): Instant {
    (if run.program in d.programs && d.programs[run.program].missedRun == Planner.SkipMissed
     then run.requestedStart else PlannedLaunch(run)) + 60 * d.toleranceMinutes
  }

  predicate Settled(d: Desk, id: OccurrenceId) { Dedup.Contains(d.completed, id) || d.active == Some(id) }

  /** A run that the launch timer may be armed for. */
  predicate Launchable(d: Desk, run: RunPlan, now: Instant) {
    run.steps != [] && !Settled(d, run.occurrence) && run.occurrence !in d.retry && now <= LaunchDeadline(d, run)
  }

  /** The position of the first launchable run, from the i-th on. */
  function NextPending(d: Desk, now: Instant, i: nat): (r: Option<nat>)
    requires i <= |d.timeline|
    ensures r.Some? ==> i <= r.value < |d.timeline| && Launchable(d, d.timeline[r.value], now)
    ensures forall k :: i <= k < (if r.Some? then r.value else |d.timeline|) ==> !Launchable(d, d.timeline[k], now)
    decreases |d.timeline| - i
  {
    if i == |d.timeline| then None
    else if Launchable(d, d.timeline[i], now) then Some(i)
    else NextPending(d, now, i + 1)
  }

  // ---------------------------------------------------------------------
  // Settling

  function Ids(c: seq<Dedup.Entry>): set<OccurrenceId> { set k | 0 <= k < |c| :: c[k].id }

  /** Record a finish in the window, and note which occurrences it pushed out. */
  function Remember(d: Desk, id: OccurrenceId, now: Instant): Desk {
    var completed := Dedup.Record(d.completed, id, now);
    d.(completed := completed, forgotten := d.forgotten + (Ids(d.completed) + {id} - Ids(completed)))
  }

  function RecordSkip(d: Desk, id: OccurrenceId, now: Instant): Desk {
    var r := Remember(d, id, now);
    r.(log := d.log + [Skipped(id)])
  }

  /** The executor accepts the run. */
  function Claim(d: Desk, id: OccurrenceId): Desk {
    d.(active := Some(id), log := d.log + [Ran(id)])
  }

  function FinishActive(d: Desk, now: Instant): Desk {
    if d.active.None? then d else Remember(d, d.active.value, now).(active := None)
  }

  function Remove(retry: seq<OccurrenceId>, id: OccurrenceId): seq<OccurrenceId> {
    if retry == [] then []
    else if retry[0] == id then Remove(retry[1..], id)
    else [retry[0]] + Remove(retry[1..], id)
  }

  // ---------------------------------------------------------------------
  // Expiry and arming

  predicate Overdue(d: Desk, run: RunPlan, now: Instant) {
    run.steps != [] && !Settled(d, run.occurrence)
    && run.occurrence in d.index && run.program in d.programs && now > LaunchDeadline(d, run)
  }

  function ExpireOne(d: Desk, run: RunPlan, now: Instant): Desk {
    if Overdue(d, run, now)
    then RecordSkip(d.(retry := Remove(d.retry, run.occurrence)), run.occurrence, now) else d
  }

  /** Skip every overdue run of the timeline, from the i-th on. */
  function ExpireFrom(d: Desk, now: Instant, i: nat): (r: Desk)
    requires i <= |d.timeline|
    ensures r.timeline == d.timeline && r.index == d.index && r.programs == d.programs
    ensures r.toleranceMinutes == d.toleranceMinutes && r.active == d.active
    decreases |d.timeline| - i
  {
    if i == |d.timeline| then d else ExpireFrom(ExpireOne(d, d.timeline[i], now), now, i + 1)
  }

  /** Expire, then arm the launch timer for the next pending run, if any. */
  function ArmNext(d: Desk, now: Instant, allowed: bool): Desk {
    if !allowed then d.(armed := None)
    else
      var e := ExpireFrom(d, now, 0);
      var next := NextPending(e, now, 0);
      if next.None? then e.(armed := None)
      else
        var run := e.timeline[next.value];
        if run.occurrence !in e.index then e.(armed := None)
        else e.(armed := Some(Armed(run.occurrence, Max(PlannedLaunch(run), now))))
  }

  /** A new timeline: the occurrences it was compiled from are the known ones. */
  function Recalculate(
    d: Desk, timeline: seq<RunPlan>, index: map<OccurrenceId, Planner.Occurrence>, now: Instant, allowed: bool): Desk
  {
    ArmNext(d.(timeline := timeline, index := index), now, allowed)
  }

  function ArmRetry(d: Desk, id: OccurrenceId, now: Instant, allowed: bool): Desk {
    ArmNext(d.(retry := if id in d.retry then d.retry else d.retry + [id], retryArmed := true), now, allowed)
  }

  // ---------------------------------------------------------------------
  // Launching

  datatype Blocked = NotBlocked | BlockedForNow | BlockedForGood

  function DeadlineOf(d: Desk, o: Planner.Occurrence, i: nat): Instant
    requires i <= |d.timeline|
    decreases |d.timeline| - i
  {
    if i == |d.timeline| then o.start + 60 * d.toleranceMinutes
    else if d.timeline[i].occurrence == o.id then LaunchDeadline(d, d.timeline[i])
    else DeadlineOf(d, o, i + 1)
  }

  /** The launch up to its first wait: it is stale, retried, skipped, or goes on. A launch that
      ends here asks for a recalculation or arms a retry, which is the next step. */
  datatype Attempted = Stale | Retry | SkippedNow | GoesOn(launch: Launch)

  function Attempt(d: Desk, o: Planner.Occurrence, now: Instant, blocked: Blocked): (Desk, Attempted) {
    if o.program !in d.programs || Settled(d, o.id) then (d, Stale)
    else
      var deadline := DeadlineOf(d, o, 0);
      if d.active.Some? then
        if now <= deadline then (d, Retry) else (RecordSkip(d, o.id, now), SkippedNow)
      else if blocked == BlockedForNow && now <= deadline then (d, Retry)
      else if blocked != NotBlocked then (RecordSkip(d, o.id, now), SkippedNow)
      else (d, GoesOn(Launch(o.id, now, deadline)))
  }

  datatype Committed = NothingToRun | Started | Busy | BusyLate | Duplicate

  /** The launch after its wait: compiled again, it is skipped if nothing is left to run;
      otherwise the executor takes it, is busy, or knows it already. */
  function Commit(d: Desk, launch: Launch, runnable: bool, now: Instant): (Desk, Committed) {
    if !runnable then (RecordSkip(d, launch.id, now), NothingToRun)
    else if d.active.Some? then
      if launch.begun <= launch.deadline then (d, Busy) else (RecordSkip(d, launch.id, now), BusyLate)
    else if Dedup.Contains(d.completed, launch.id) then (d, Duplicate)
    else (Claim(d, launch.id), Started)
  }
}
