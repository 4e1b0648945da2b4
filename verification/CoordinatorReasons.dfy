/** Why an occurrence is launched, retried or written off: the deadlines spelled out. */
module CoordinatorReasons {
  import opened Domain
  import opened CoordinatorSpec
  import opened CoordinatorRuns
  import Dedup
  import Planner = PlannerSpec

  // ---------------------------------------------------------------------
  // Deadlines

  /** The tolerance has passed since the requested start, if the program skips missed runs, and
      since the first planned start otherwise. */
  predicate TooLate(d: Desk, run: RunPlan, now: Instant) {
    var late := now - 60 * d.toleranceMinutes;
    if run.steps == [] || (run.program in d.programs && d.programs[run.program].missedRun == Planner.SkipMissed)
    then run.requestedStart < late
    else exists k :: 0 <= k < |run.steps| && run.steps[k].plannedStart < late
  }

  lemma DeadlineMeans(d: Desk, run: RunPlan, now: Instant)
    ensures now > LaunchDeadline(d, run) <==> TooLate(d, run, now)
  {
    hide Planner.BlockStart;
  }

  /** The occurrence is running, or finished as far as the window remembers. */
  predicate Known(d: Desk, id: OccurrenceId) {
    d.active == Some(id) || exists k :: 0 <= k < |d.completed| && d.completed[k].id == id
  }

  lemma SettledMeans(d: Desk, id: OccurrenceId)
    ensures Settled(d, id) <==> Known(d, id)
  {}

  // ---------------------------------------------------------------------
  // Expiry writes off what is too late, and nothing else

  /** The k-th run waters, belongs to a known occurrence and program, and is too late. */
  predicate Expired(d: Desk, now: Instant, k: nat)
    requires k < |d.timeline|
  {
    var run := d.timeline[k];
    run.steps != [] && run.occurrence in d.index && run.program in d.programs && TooLate(d, run, now)
  }

  lemma OverdueMeans(d: Desk, now: Instant, k: nat)
    requires k < |d.timeline|
    ensures Overdue(d, d.timeline[k], now) <==> Expired(d, now, k) && !Known(d, d.timeline[k].occurrence)
  {
    DeadlineMeans(d, d.timeline[k], now);
    SettledMeans(d, d.timeline[k].occurrence);
    hide TooLate, LaunchDeadline, Settled, Known;
  }

  lemma {:induction false} RemoveMeans(retry: seq<OccurrenceId>, id: OccurrenceId)
    ensures forall x :: x in Remove(retry, id) <==> x in retry && x != id
  {
    if retry != [] {
      RemoveMeans(retry[1..], id);
      assert retry == [retry[0]] + retry[1..];
    }
  }

  /** The settlement at position m is the skip of an expired run. */
  ghost predicate RightlyExpired(d: Desk, now: Instant, i: nat, r: Desk, m: nat)
    requires m < |r.log|
  {
    var id := r.log[m].id;
    && r.log[m] == Skipped(id) && d.active != Some(id) && (Known(d, id) ==> id in r.forgotten)
    && exists k :: i <= k < |d.timeline| && d.timeline[k].occurrence == id && Expired(d, now, k)
  }

  /** What an expiry does: every settlement it adds is the skip of a run that is too late and
      was not settled; every such run is settled after it; nothing else changes, but that the
      window may forget. */
  ghost predicate ExpiresRightly(d: Desk, now: Instant, i: nat, r: Desk) {
    && r == d.(log := r.log, retry := r.retry, completed := r.completed, forgotten := r.forgotten)
    && d.log <= r.log && d.forgotten <= r.forgotten
    && (forall m :: |d.log| <= m < |r.log| ==> RightlyExpired(d, now, i, r, m))
    && (forall k :: i <= k < |d.timeline| && Expired(d, now, k) ==>
          Known(d, d.timeline[k].occurrence) || SettledSince(|d.log|, r, d.timeline[k].occurrence))
    && (forall id :: id in r.retry <==> id in d.retry && !SettledSince(|d.log|, r, id))
    && (forall id :: Known(r, id) ==> Known(d, id) || SettledSince(|d.log|, r, id))
    && (forall id :: Known(d, id) || SettledSince(|d.log|, r, id) ==> Known(r, id) || id in r.forgotten)
  }

  lemma SkipMoves(d: Desk, id: OccurrenceId, now: Instant)
    ensures var r := RecordSkip(d.(retry := Remove(d.retry, id)), id, now);
      && r == d.(log := d.log + [Skipped(id)], retry := r.retry, completed := r.completed, forgotten := r.forgotten)
      && d.forgotten <= r.forgotten
      && (forall x :: x in r.retry <==> x in d.retry && x != id)
      && (forall x :: Known(r, x) ==> Known(d, x) || x == id)
      && (forall x :: Known(d, x) || x == id ==> Known(r, x) || x in r.forgotten)
  {
    var d1 := d.(retry := Remove(d.retry, id));
    RemoveMeans(d.retry, id);
    var r := RecordSkip(d1, id, now);
    var ids, after := Ids(d.completed), Ids(r.completed);
    forall x ensures Known(r, x) ==> Known(d, x) || x == id {
      if Dedup.Contains(r.completed, x) { RecordAdds(d.completed, id, now, x); }
      hide Dedup.Record;
    }
    hide Dedup.Record, Remove;
    forall x | Known(d, x) || x == id ensures Known(r, x) || x in r.forgotten {
      IdsContains(d.completed, x);
      IdsContains(r.completed, x);
    }
  }

  lemma ExpireOneMeans(d: Desk, now: Instant, k: nat)
    requires k < |d.timeline|
    ensures var (id, r) := (d.timeline[k].occurrence, ExpireOne(d, d.timeline[k], now));
      if Expired(d, now, k) && !Known(d, id) then
        && r == d.(log := d.log + [Skipped(id)], retry := r.retry, completed := r.completed, forgotten := r.forgotten)
        && d.forgotten <= r.forgotten
        && (forall x :: x in r.retry <==> x in d.retry && x != id)
        && (forall x :: Known(r, x) ==> Known(d, x) || x == id)
        && (forall x :: Known(d, x) || x == id ==> Known(r, x) || x in r.forgotten)
      else r == d
  {
    OverdueMeans(d, now, k);
    SkipMoves(d, d.timeline[k].occurrence, now);
    hide Overdue, Expired, Known, RecordSkip, Remove;
  }

  /** The same settlements, read from one expiry or from its two parts. */
  lemma SinceSplit(d: Desk, e: Desk, r: Desk, x: OccurrenceId)
    requires d.log <= e.log <= r.log
    ensures SettledSince(|d.log|, r, x) <==> SettledSince(|d.log|, e, x) || SettledSince(|e.log|, r, x)
  {
    if SettledSince(|d.log|, r, x) {
      var m :| |d.log| <= m < |r.log| && r.log[m].id == x;
      if m < |e.log| { assert e.log[m].id == x; }
    }
    if SettledSince(|d.log|, e, x) {
      var m :| |d.log| <= m < |e.log| && e.log[m].id == x;
      assert r.log[m].id == x;
    }
    if SettledSince(|e.log|, r, x) {
      var m :| |e.log| <= m < |r.log| && r.log[m].id == x;
      assert |d.log| <= m;
    }
  }

  lemma SameExpired(d: Desk, e: Desk, now: Instant, k: nat)
    requires d.timeline == e.timeline && d.index == e.index && d.programs == e.programs && k < |d.timeline|
    requires d.toleranceMinutes == e.toleranceMinutes
    ensures Expired(d, now, k) <==> Expired(e, now, k)
  {}

  lemma ExpireKept(d: Desk, now: Instant, i: nat, r: Desk)
    requires i < |d.timeline| && ExpireOne(d, d.timeline[i], now) == d && ExpiresRightly(d, now, i + 1, r)
    requires Expired(d, now, i) ==> Known(d, d.timeline[i].occurrence)
    ensures ExpiresRightly(d, now, i, r)
  {
    hide ExpireOne, Expired, Known, SettledSince;
    forall m | |d.log| <= m < |r.log| ensures RightlyExpired(d, now, i, r, m) {
      assert RightlyExpired(d, now, i + 1, r, m);
    }
  }

  lemma ExpireSkipped(d: Desk, now: Instant, i: nat, e: Desk, r: Desk)
    requires i < |d.timeline| && Expired(d, now, i) && !Known(d, d.timeline[i].occurrence)
    requires var id := d.timeline[i].occurrence;
      && e == d.(log := d.log + [Skipped(id)], retry := e.retry, completed := e.completed, forgotten := e.forgotten)
      && d.forgotten <= e.forgotten
      && (forall x :: x in e.retry <==> x in d.retry && x != id)
      && (forall x :: Known(e, x) ==> Known(d, x) || x == id)
      && (forall x :: Known(d, x) || x == id ==> Known(e, x) || x in e.forgotten)
    requires ExpiresRightly(e, now, i + 1, r)
    ensures ExpiresRightly(d, now, i, r)
  {
    var id := d.timeline[i].occurrence;
    assert d.active != Some(id);
    assert e.log[|d.log|] == Skipped(id) && r.log[|d.log|] == Skipped(id);
    forall k | 0 <= k < |d.timeline| ensures Expired(d, now, k) <==> Expired(e, now, k) { SameExpired(d, e, now, k); }
    hide Expired, Known;
    forall x ensures SettledSince(|d.log|, r, x) <==> x == id || SettledSince(|e.log|, r, x) {
      SinceSplit(d, e, r, x);
      if SettledSince(|d.log|, e, x) {
        var m :| |d.log| <= m < |e.log| && e.log[m].id == x;
        assert m == |d.log|;
      }
      assert e.log[|d.log|].id == id;
    }
    hide SettledSince;
    forall m | |d.log| <= m < |r.log| ensures RightlyExpired(d, now, i, r, m) {
      if m > |d.log| {
        assert RightlyExpired(e, now, i + 1, r, m);
        ExpiredLater(d, e, now, i, r, m);
      }
    }
  }

  lemma ExpiredLater(d: Desk, e: Desk, now: Instant, i: nat, r: Desk, m: nat)
    requires m < |r.log| && RightlyExpired(e, now, i + 1, r, m)
    requires e.timeline == d.timeline && e.active == d.active && e.forgotten <= r.forgotten
    requires forall k :: 0 <= k < |d.timeline| ==> (Expired(d, now, k) <==> Expired(e, now, k))
    requires forall x :: Known(d, x) ==> Known(e, x) || x in e.forgotten
    ensures RightlyExpired(d, now, i, r, m)
  {
    hide Expired, Known;
    var id := r.log[m].id;
    var k :| i + 1 <= k < |e.timeline| && e.timeline[k].occurrence == id && Expired(e, now, k);
    assert i <= k < |d.timeline| && d.timeline[k].occurrence == id && Expired(d, now, k);
  }

  /** Expiry, from the i-th run on, writes off exactly the known runs that are too late. */
  lemma {:induction false} ExpiryExactly(d: Desk, now: Instant, i: nat)
    requires i <= |d.timeline|
    ensures ExpiresRightly(d, now, i, ExpireFrom(d, now, i))
    decreases |d.timeline| - i
  {
    if i < |d.timeline| {
      var e, r := ExpireOne(d, d.timeline[i], now), ExpireFrom(d, now, i);
      ExpireOneMeans(d, now, i);
      hide ExpireOne, ExpiresRightly, Expired, Known;
      assert r == ExpireFrom(e, now, i + 1);
      ExpiryExactly(e, now, i + 1);
      if e == d && !(Expired(d, now, i) && !Known(d, d.timeline[i].occurrence)) {
        ExpireKept(d, now, i, r);
      } else {
        ExpireSkipped(d, now, i, e, r);
      }
    } else {
      hide Expired, Known;
    }
  }

  // ---------------------------------------------------------------------
  // Arming

  /** The run waters, is not settled, does not wait for a retry, and is not too late. */
  predicate MayLaunch(d: Desk, run: RunPlan, now: Instant) {
    run.steps != [] && !Known(d, run.occurrence) && run.occurrence !in d.retry && !TooLate(d, run, now)
  }

  lemma LaunchableMeans(d: Desk, run: RunPlan, now: Instant)
    ensures Launchable(d, run, now) <==> MayLaunch(d, run, now)
  {
    DeadlineMeans(d, run, now);
    SettledMeans(d, run.occurrence);
    hide TooLate, LaunchDeadline, Settled, Known;
  }

  /** The k-th run is the first that may be launched. */
  predicate FirstThatMay(d: Desk, now: Instant, k: nat) {
    k < |d.timeline| && MayLaunch(d, d.timeline[k], now) && forall i :: 0 <= i < k ==> !MayLaunch(d, d.timeline[i], now)
  }

  /** Armed for that run, at its first planned start or, if that is past, at once. */
  ghost predicate ArmedAt(d: Desk, now: Instant, k: nat) {
    && FirstThatMay(d, now, k) && d.armed.Some? && d.armed.value.id == d.timeline[k].occurrence
    && var (steps, at) := (d.timeline[k].steps, d.armed.value.at);
       if exists i :: 0 <= i < |steps| && steps[i].plannedStart <= now then at == now
       else
         && (exists i :: 0 <= i < |steps| && steps[i].plannedStart == at)
         && forall i :: 0 <= i < |steps| ==> at <= steps[i].plannedStart
  }

  lemma PlannedMeans(d: Desk, now: Instant, k: nat)
    requires FirstThatMay(d, now, k)
    requires d.armed == Some(Armed(d.timeline[k].occurrence, Max(PlannedLaunch(d.timeline[k]), now)))
    ensures ArmedAt(d, now, k)
  {
    var steps := d.timeline[k].steps;
    assert steps != [];
    var first := PlannedLaunch(d.timeline[k]);
    hide FirstThatMay, Planner.BlockStart;
    assert forall i :: 0 <= i < |steps| ==> first <= steps[i].plannedStart;
    assert exists i :: 0 <= i < |steps| && first == steps[i].plannedStart;
  }

  /** Arming: the expiry first, and then the timer is armed for the first run that may be
      launched, exactly if there is one and its occurrence is known. */
  lemma ArmsRightly(d: Desk, now: Instant, allowed: bool)
    ensures var r := ArmNext(d, now, allowed);
      if !allowed then r == d.(armed := None)
      else
        && ExpiresRightly(d, now, 0, r.(armed := d.armed))
        && (if exists k: nat :: FirstThatMay(r, now, k) && r.timeline[k].occurrence in r.index
            then exists k: nat :: ArmedAt(r, now, k) else r.armed == None)
  {
    var r := ArmNext(d, now, allowed);
    if allowed {
      ExpiryExactly(d, now, 0);
      ArmsFirstLaunchable(d, now);
      forall k | 0 <= k < |r.timeline| ensures MayLaunch(r, r.timeline[k], now) <==> Launchable(r, r.timeline[k], now) {
        LaunchableMeans(r, r.timeline[k], now);
      }
      assert r.(armed := d.armed) == ExpireFrom(d, now, 0) by { hide ExpireFrom, NextPending, PlannedLaunch; }
      hide ExpireFrom, Launchable, MayLaunch, PlannedLaunch, ArmNext, ExpiresRightly, ArmedAt;
      forall k: nat ensures FirstThatMay(r, now, k) <==> k < |r.timeline| && FirstLaunchable(r, now, k) {}
      OnlyOneFirst(r, now);
      if r.armed.Some? {
        var k :| 0 <= k < |r.timeline| && FirstLaunchable(r, now, k)
          && r.armed.value == Armed(r.timeline[k].occurrence, Max(PlannedLaunch(r.timeline[k]), now));
        PlannedMeans(r, now, k);
      }
    }
  }

  lemma OnlyOneFirst(d: Desk, now: Instant)
    ensures forall k: nat, m: nat :: FirstThatMay(d, now, k) && FirstThatMay(d, now, m) ==> k == m
  {
    hide MayLaunch;
  }

  // ---------------------------------------------------------------------
  // Launching

  /** By the first run that the timeline has for the occurrence, or by its own request. */
  ghost predicate LaunchLate(d: Desk, o: Planner.Occurrence, now: Instant) {
    || (exists k: nat :: FirstRunOf(d, o.id, 0, k) && TooLate(d, d.timeline[k], now))
    || ((forall k :: 0 <= k < |d.timeline| ==> d.timeline[k].occurrence != o.id)
        && o.start < now - 60 * d.toleranceMinutes)
  }

  predicate FirstRunOf(d: Desk, id: OccurrenceId, i: nat, k: nat) {
    && i <= k < |d.timeline| && d.timeline[k].occurrence == id
    && forall j :: i <= j < k ==> d.timeline[j].occurrence != id
  }

  lemma {:induction false} DeadlineOfMeans(d: Desk, o: Planner.Occurrence, i: nat, now: Instant)
    requires i <= |d.timeline|
    ensures now > DeadlineOf(d, o, i) <==>
      || (exists k: nat :: FirstRunOf(d, o.id, i, k) && TooLate(d, d.timeline[k], now))
      || ((forall k :: i <= k < |d.timeline| ==> d.timeline[k].occurrence != o.id)
          && o.start < now - 60 * d.toleranceMinutes)
    decreases |d.timeline| - i
  {
    hide TooLate, LaunchDeadline;
    if i < |d.timeline| {
      DeadlineMeans(d, d.timeline[i], now);
      if d.timeline[i].occurrence == o.id {
        assert FirstRunOf(d, o.id, i, i);
      } else {
        DeadlineOfMeans(d, o, i + 1, now);
        assert forall k: nat :: FirstRunOf(d, o.id, i, k) <==> FirstRunOf(d, o.id, i + 1, k);
      }
    }
  }

  /** The checks of a launch find it stale. */
  predicate IsStale(d: Desk, o: Planner.Occurrence) { o.program !in d.programs || Known(d, o.id) }

  /** ... or blocked, for good or for now. */
  ghost predicate WrittenOff(d: Desk, o: Planner.Occurrence, now: Instant, blocked: Blocked) {
    && !IsStale(d, o)
    && if d.active.Some? || blocked == BlockedForNow then LaunchLate(d, o, now) else blocked == BlockedForGood
  }

  /** A launch is put off as long as it is not too late, skipped when it is or when it is blocked
      for good, and goes on when nothing is in its way; only a skip changes the desk. */
  lemma LaunchAnswers(d: Desk, o: Planner.Occurrence, now: Instant, blocked: Blocked)
    ensures var (r, outcome) := Attempt(d, o, now, blocked);
      && (outcome.Stale? <==> IsStale(d, o))
      && (outcome.SkippedNow? <==> WrittenOff(d, o, now, blocked))
      && (outcome.Retry? <==>
            !IsStale(d, o) && !LaunchLate(d, o, now) && (d.active.Some? || blocked == BlockedForNow))
      && (outcome.GoesOn? <==> !IsStale(d, o) && d.active.None? && blocked == NotBlocked)
      && (outcome.GoesOn? ==> outcome.launch.id == o.id && outcome.launch.begun == now
                              && (outcome.launch.begun > outcome.launch.deadline <==> LaunchLate(d, o, now)))
      && (!outcome.SkippedNow? ==> r == d)
      && (outcome.SkippedNow? ==> r.log == d.log + [Skipped(o.id)] && r.retry == d.retry && r.armed == d.armed)
  {
    SettledMeans(d, o.id);
    DeadlineOfMeans(d, o, 0, now);
    hide DeadlineOf, Settled, Known, Remember, TooLate;
  }

  // ---------------------------------------------------------------------
  // Every settlement has its reason

  ghost predicate HasReason(d: Desk, event: Event, now: Instant, s: Settlement) {
    match event
    case RecalculateEvent(timeline, index, allowed) =>
      s.Skipped? && allowed && IsExpired(d.(timeline := timeline, index := index), now, s.id)
    case ArmRetryEvent(_, allowed) => s.Skipped? && allowed && IsExpired(d, now, s.id)
    case AttemptEvent(o, blocked) => s == Skipped(o.id) && WrittenOff(d, o, now, blocked)
    case CommitEvent(launch, runnable) =>
      && s.id == launch.id
      && (if s.Ran? then runnable && d.active.None? && !Known(d, launch.id)
          else !runnable || (d.active.Some? && launch.begun > launch.deadline))
    case _ => false
  }

  /** A run of the timeline for the occurrence, which is not running, is too late. */
  ghost predicate IsExpired(d: Desk, now: Instant, id: OccurrenceId) {
    d.active != Some(id) && exists k :: 0 <= k < |d.timeline| && d.timeline[k].occurrence == id && Expired(d, now, k)
  }

  lemma ArmHasReason(d: Desk, now: Instant, allowed: bool, m: nat)
    requires |d.log| <= m < |ArmNext(d, now, allowed).log|
    ensures var s := ArmNext(d, now, allowed).log[m]; s.Skipped? && allowed && IsExpired(d, now, s.id)
  {
    ArmsRightly(d, now, allowed);
    var r := ArmNext(d, now, allowed);
    hide ArmNext, Expired, Known, FirstThatMay, ArmedAt;
    assert RightlyExpired(d, now, 0, r.(armed := d.armed), m);
  }

  lemma StepHasReason(d: Desk, event: Event, now: Instant, m: nat)
    requires |d.log| <= m < |Step(d, event, now).log|
    ensures HasReason(d, event, now, Step(d, event, now).log[m])
  {
    hide ArmNext, IsExpired, Known, Dedup.Record, WrittenOff, Attempt;
    match event
    case RecalculateEvent(timeline, index, allowed) =>
      ArmHasReason(d.(timeline := timeline, index := index), now, allowed, m);
    case ArmRetryEvent(id, allowed) =>
      var d1 := d.(retry := if id in d.retry then d.retry else d.retry + [id], retryArmed := true);
      ArmHasReason(d1, now, allowed, m);
      SameReason(d, d1, now, Step(d, event, now).log[m].id);
    case AttemptEvent(o, blocked) => LaunchAnswers(d, o, now, blocked);
    case CommitEvent(launch, runnable) => SettledMeans(d, launch.id);
    case _ =>
  }

  lemma SameReason(d: Desk, e: Desk, now: Instant, id: OccurrenceId)
    requires e == d.(retry := e.retry, retryArmed := e.retryArmed)
    ensures IsExpired(e, now, id) <==> IsExpired(d, now, id)
  {
    forall k | 0 <= k < |d.timeline| ensures Expired(d, now, k) <==> Expired(e, now, k) { SameExpired(d, e, now, k); }
    hide Expired;
  }

  /** In every history each settlement was made for a reason: a skip because the occurrence was
      too late, blocked for good, or had nothing left to run; a run because it could be run and
      was neither running nor remembered as finished. */
  lemma {:induction false} EverySettlementHasReason(d: Desk, trace: Trace, m: nat)
    requires |d.log| <= m < |Run(d, trace).log|
    ensures exists k ::
      0 <= k < |trace| && HasReason(Run(d, trace[..k]), trace[k].0, trace[k].1, Run(d, trace).log[m])
    decreases |trace|
  {
    hide HasReason, Step;
    assert trace != [];
    var e, rest := Step(d, trace[0].0, trace[0].1), trace[1..];
    var s := Run(d, trace).log[m];
    if m < |e.log| {
      StepHasReason(d, trace[0].0, trace[0].1, m);
      RunHonest(e, rest, s.id);
      assert e.log <= Run(e, rest).log;
      assert Run(d, trace[..0]) == d && e.log[m] == s;
      assert HasReason(Run(d, trace[..0]), trace[0].0, trace[0].1, s);
    } else {
      EverySettlementHasReason(e, rest, m);
      var k :| 0 <= k < |rest| && HasReason(Run(e, rest[..k]), rest[k].0, rest[k].1, s);
      assert trace[..k + 1][1..] == rest[..k] && trace[..k + 1][0] == trace[0] && trace[k + 1] == rest[k];
      assert Run(d, trace[..k + 1]) == Run(e, rest[..k]);
      assert HasReason(Run(d, trace[..k + 1]), trace[k + 1].0, trace[k + 1].1, s);
    }
  }
}
