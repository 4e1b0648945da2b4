/** Any interleaving of launches, retries, expiries, recalculations and finishes: an
    occurrence is settled at most once while the deduplication window remembers it. */
module CoordinatorRuns {
  import opened Domain
  import opened CoordinatorSpec
  import Dedup
  import Planner = PlannerSpec

  datatype Event =
    | RecalculateEvent(timeline: seq<RunPlan>, index: map<OccurrenceId, Planner.Occurrence>, allowed: bool)
    | ArmRetryEvent(retryId: OccurrenceId, allowed: bool)
    | OccurrenceTimer
    | RetryTimer
    | AttemptEvent(occurrence: Planner.Occurrence, blocked: Blocked)
    | CommitEvent(launch: Launch, runnable: bool)
    | FinishEvent

  function Step(d: Desk, event: Event, now: Instant): Desk {
    match event
    case RecalculateEvent(timeline, index, allowed) => Recalculate(d, timeline, index, now, allowed)
    case ArmRetryEvent(id, allowed) => ArmRetry(d, id, now, allowed)
    case OccurrenceTimer => d.(armed := None)
    case RetryTimer => d.(retry := [], retryArmed := false)
    case AttemptEvent(o, blocked) => Attempt(d, o, now, blocked).0
    case CommitEvent(launch, runnable) => Commit(d, launch, runnable, now).0
    case FinishEvent => FinishActive(d, now)
  }

  /** Every settled occurrence is remembered, or forgotten by the window; and only a
      forgotten one can have been settled before. */
  ghost predicate Once(d: Desk) {
    && Dedup.DistinctIds(d.completed)
    && (forall k :: 0 <= k < |d.log| ==> Settled(d, d.log[k].id) || d.log[k].id in d.forgotten)
    && (forall i, j :: 0 <= i < j < |d.log| && d.log[i].id == d.log[j].id ==> d.log[i].id in d.forgotten)
  }

  /** A launch that comes back from its wait to record a skip, although its occurrence was
      settled meanwhile. */
  predicate Races(d: Desk, event: Event) {
    && event.CommitEvent? && Settled(d, event.launch.id)
    && (!event.runnable || (d.active.Some? && event.launch.begun > event.launch.deadline))
  }

  // ---------------------------------------------------------------------
  // The window

  lemma {:induction false} PutDistinct(c: seq<Dedup.Entry>, id: OccurrenceId, at: Instant)
    requires Dedup.DistinctIds(c)
    ensures Dedup.DistinctIds(Dedup.Put(c, id, at))
    ensures Ids(Dedup.Put(c, id, at)) == Ids(c) + {id}
  {
    var r := Dedup.Put(c, id, at);
    if c == [] {
      assert r[0].id == id;
    } else if c[0].id == id {
      assert forall k :: 0 <= k < |c| ==> r[k].id == c[k].id;
      assert id in Ids(c) by { assert c[0].id == id; }
      forall x ensures x in Ids(r) <==> x in Ids(c) {
        if x in Ids(r) { var k :| 0 <= k < |r| && r[k].id == x; assert c[k].id == x; }
        if x in Ids(c) { var k :| 0 <= k < |c| && c[k].id == x; assert r[k].id == x; }
      }
    } else {
      PutDistinct(c[1..], id, at);
      IdsCons(c[0], c[1..]);
      IdsCons(c[0], Dedup.Put(c[1..], id, at));
      assert c == [c[0]] + c[1..];
      DistinctCons(c[0], Dedup.Put(c[1..], id, at));
      assert c[0].id !in Ids(c[1..]);
    }
  }

  lemma IdsCons(e: Dedup.Entry, c: seq<Dedup.Entry>)
    ensures Ids([e] + c) == {e.id} + Ids(c)
  {
    var r := [e] + c;
    forall x ensures x in Ids(r) <==> x in {e.id} + Ids(c) {
      if x in Ids(r) { var k :| 0 <= k < |r| && r[k].id == x; if k > 0 { assert c[k - 1].id == x; } }
      if x == e.id { assert r[0].id == x; }
      if x in Ids(c) { var k :| 0 <= k < |c| && c[k].id == x; assert r[k + 1].id == x; }
    }
  }

  lemma DistinctCons(e: Dedup.Entry, c: seq<Dedup.Entry>)
    requires Dedup.DistinctIds(c) && e.id !in Ids(c)
    ensures Dedup.DistinctIds([e] + c)
  {
    forall k | 0 <= k < |c| ensures c[k].id != e.id { assert c[k].id in Ids(c); }
  }

  lemma {:induction false} WithoutDistinct(c: seq<Dedup.Entry>, id: OccurrenceId)
    requires Dedup.DistinctIds(c)
    ensures Dedup.DistinctIds(Dedup.Without(c, id)) && Ids(Dedup.Without(c, id)) <= Ids(c)
  {
    if c != [] {
      WithoutDistinct(c[1..], id);
      assert c == [c[0]] + c[1..];
      IdsCons(c[0], c[1..]);
      IdsCons(c[0], Dedup.Without(c[1..], id));
      assert c[0].id !in Ids(c[1..]);
      if c[0].id != id { DistinctCons(c[0], Dedup.Without(c[1..], id)); }
    }
  }

  lemma {:induction false} WithoutAllDistinct(c: seq<Dedup.Entry>, doomed: seq<Dedup.Entry>)
    requires Dedup.DistinctIds(c)
    ensures Dedup.DistinctIds(Dedup.WithoutAll(c, doomed)) && Ids(Dedup.WithoutAll(c, doomed)) <= Ids(c)
    decreases |doomed|
  {
    if doomed != [] {
      WithoutDistinct(c, doomed[0].id);
      WithoutAllDistinct(Dedup.Without(c, doomed[0].id), doomed[1..]);
    }
  }

  lemma RecordDistinct(c: seq<Dedup.Entry>, id: OccurrenceId, at: Instant)
    requires Dedup.DistinctIds(c)
    ensures Dedup.DistinctIds(Dedup.Record(c, id, at)) && Ids(Dedup.Record(c, id, at)) <= Ids(c) + {id}
  {
    PutDistinct(c, id, at);
    var c1 := Dedup.Put(c, id, at);
    if |c1| > DEDUP_MAX_OCCURRENCES { WithoutAllDistinct(c1, Dedup.Oldest(c1)); }
  }

  lemma IdsContains(c: seq<Dedup.Entry>, id: OccurrenceId)
    ensures Dedup.Contains(c, id) <==> id in Ids(c)
  {}

  /** Recording keeps every earlier memory, or counts it as forgotten. */
  lemma RememberKeeps(d: Desk, id: OccurrenceId, now: Instant)
    requires Dedup.DistinctIds(d.completed)
    ensures var r := Remember(d, id, now);
      && Dedup.DistinctIds(r.completed) && d.forgotten <= r.forgotten
      && (forall x :: Dedup.Contains(d.completed, x) || x == id ==> Dedup.Contains(r.completed, x) || x in r.forgotten)
  {
    RecordDistinct(d.completed, id, now);
    var r := Remember(d, id, now);
    hide Dedup.Record, Dedup.Contains;
    forall x | Dedup.Contains(d.completed, x) || x == id ensures Dedup.Contains(r.completed, x) || x in r.forgotten {
      IdsContains(d.completed, x);
      IdsContains(r.completed, x);
    }
  }

  /** Forgotten is exactly what dropped out of the window on the way. */
  lemma ForgetsWhatDrops(d: Desk, id: OccurrenceId, now: Instant, x: OccurrenceId)
    ensures var r := Remember(d, id, now);
      x in r.forgotten <==>
        || x in d.forgotten
        || ((x == id || exists k :: 0 <= k < |d.completed| && d.completed[k].id == x)
            && forall k :: 0 <= k < |r.completed| ==> r.completed[k].id != x)
  {
    hide Dedup.Record;
  }

  // ---------------------------------------------------------------------
  // Each kind of settlement

  lemma SkipOnce(d: Desk, id: OccurrenceId, now: Instant)
    requires Once(d) && (!Settled(d, id) || id in d.forgotten)
    ensures Once(RecordSkip(d, id, now))
  {
    RememberKeeps(d, id, now);
    hide Remember, Dedup.DistinctIds, Dedup.Contains;
  }

  lemma ClaimOnce(d: Desk, id: OccurrenceId)
    requires Once(d) && d.active.None? && !Settled(d, id)
    ensures Once(Claim(d, id))
  {
    hide Dedup.DistinctIds, Dedup.Contains;
  }

  lemma FinishOnce(d: Desk, now: Instant)
    requires Once(d)
    ensures Once(FinishActive(d, now))
  {
    if d.active.Some? { RememberKeeps(d, d.active.value, now); }
    hide Remember, Dedup.DistinctIds, Dedup.Contains;
  }

  lemma {:induction false} ExpireOnce(d: Desk, now: Instant, i: nat)
    requires Once(d) && i <= |d.timeline|
    ensures Once(ExpireFrom(d, now, i))
    decreases |d.timeline| - i
  {
    if i < |d.timeline| {
      var run := d.timeline[i];
      if Overdue(d, run, now) {
        var d1 := d.(retry := Remove(d.retry, run.occurrence));
        assert Once(d1) && !Settled(d1, run.occurrence) by { hide Dedup.DistinctIds, Dedup.Contains, Remove; }
        SkipOnce(d1, run.occurrence, now);
      }
      hide Once, RecordSkip, LaunchDeadline;
      ExpireOnce(ExpireOne(d, run, now), now, i + 1);
    }
  }

  lemma ArmOnce(d: Desk, now: Instant, allowed: bool)
    requires Once(d)
    ensures Once(ArmNext(d, now, allowed))
  {
    ExpireOnce(d, now, 0);
    hide ExpireFrom, NextPending, Dedup.DistinctIds, Dedup.Contains;
  }

  lemma AttemptOnce(d: Desk, o: Planner.Occurrence, now: Instant, blocked: Blocked)
    requires Once(d)
    ensures Once(Attempt(d, o, now, blocked).0)
  {
    if !Settled(d, o.id) { SkipOnce(d, o.id, now); }
    hide Once, RecordSkip, DeadlineOf, Settled;
  }

  /** A commit keeps the count at one exactly unless it races; then it settles a second time. */
  lemma CommitOnce(d: Desk, launch: Launch, runnable: bool, now: Instant)
    requires Once(d)
    requires forall k :: 0 <= k < |d.log| ==> d.log[k].id !in d.forgotten
    requires Settled(d, launch.id) ==> exists k :: 0 <= k < |d.log| && d.log[k].id == launch.id
    ensures var r := Commit(d, launch, runnable, now).0;
      (forall i, j :: 0 <= i < j < |r.log| ==> r.log[i].id != r.log[j].id) <==> !Races(d, CommitEvent(launch, runnable))
  {
    var event := CommitEvent(launch, runnable);
    var r := Commit(d, launch, runnable, now).0;
    hide Remember, Dedup.DistinctIds, Dedup.Contains;
    assert forall i, j :: 0 <= i < j < |d.log| ==> d.log[i].id != d.log[j].id;
    if Races(d, event) {
      var k :| 0 <= k < |d.log| && d.log[k].id == launch.id;
      assert r.log == d.log + [Skipped(launch.id)];
      assert r.log[k].id == r.log[|d.log|].id;
    }
  }

  lemma StepOnce(d: Desk, event: Event, now: Instant)
    requires Once(d) && !Races(d, event)
    ensures Once(Step(d, event, now))
  {
    match event
    case RecalculateEvent(timeline, index, allowed) =>
      assert Once(d.(timeline := timeline, index := index)) by { hide Dedup.DistinctIds, Dedup.Contains; }
      ArmOnce(d.(timeline := timeline, index := index), now, allowed);
    case ArmRetryEvent(id, allowed) =>
      var d1 := d.(retry := if id in d.retry then d.retry else d.retry + [id], retryArmed := true);
      assert Once(d1) by { hide Dedup.DistinctIds, Dedup.Contains; }
      ArmOnce(d1, now, allowed);
    case OccurrenceTimer => hide Dedup.DistinctIds, Dedup.Contains;
    case RetryTimer => hide Dedup.DistinctIds, Dedup.Contains;
    case AttemptEvent(o, blocked) => AttemptOnce(d, o, now, blocked);
    case CommitEvent(launch, runnable) =>
      if !Settled(d, launch.id) {
        SkipOnce(d, launch.id, now);
        if d.active.None? { ClaimOnce(d, launch.id); }
      }
      hide Once, RecordSkip, Claim, Dedup.Contains;
    case FinishEvent => FinishOnce(d, now);
  }

  // ---------------------------------------------------------------------
  // Whole histories

  type Trace = seq<(Event, Instant)>

  function Run(d: Desk, trace: Trace): Desk
    decreases |trace|
  {
    if trace == [] then d else Run(Step(d, trace[0].0, trace[0].1), trace[1..])
  }

  predicate RaceFree(d: Desk, trace: Trace)
    decreases |trace|
  {
    trace == [] || (!Races(d, trace[0].0) && RaceFree(Step(d, trace[0].0, trace[0].1), trace[1..]))
  }

  /** Over any history without a racing launch, an occurrence that the window never forgot is
      run or recorded as skipped at most once, and never both. */
  lemma {:induction false} SettledAtMostOnce(d: Desk, trace: Trace)
    requires Once(d) && RaceFree(d, trace)
    ensures Once(Run(d, trace))
    ensures var r := Run(d, trace);
      forall i, j :: 0 <= i < j < |r.log| && r.log[i].id !in r.forgotten ==> r.log[i].id != r.log[j].id
    decreases |trace|
  {
    if trace != [] {
      StepOnce(d, trace[0].0, trace[0].1);
      hide Step, Races, Once;
      SettledAtMostOnce(Step(d, trace[0].0, trace[0].1), trace[1..]);
    } else {
      hide Dedup.DistinctIds, Settled;
    }
  }

  /** Two launches of one occurrence that overlap: the second, finding nothing to run after its
      wait, records a skip for the occurrence that the first has just started. */
  lemma OverlappingLaunchesSettleTwice(d: Desk, o: Planner.Occurrence, now: Instant)
    requires o.program in d.programs && !Settled(d, o.id) && d.active.None?
    ensures var first := Attempt(d, o, now, NotBlocked);
      && first.1.GoesOn?
      && var second := Attempt(first.0, o, now, NotBlocked);
         && second.1.GoesOn?
         && var started := Commit(second.0, first.1.launch, true, now).0;
            Commit(started, second.1.launch, false, now).0.log == d.log + [Ran(o.id), Skipped(o.id)]
  {
    hide DeadlineOf, Remember;
  }

  // ---------------------------------------------------------------------
  // Nothing overdue is left behind

  /** After an expiry every known run past its deadline was settled before, or has been
      skipped by this expiry. */
  lemma {:induction false} ExpirySettlesOverdue(d: Desk, now: Instant, i: nat, k: nat)
    requires i <= k < |d.timeline| && d.timeline[k].steps != []
    requires d.timeline[k].occurrence in d.index && d.timeline[k].program in d.programs
    requires now > LaunchDeadline(d, d.timeline[k])
    ensures var r := ExpireFrom(d, now, i);
      Settled(d, d.timeline[k].occurrence) || SettledSince(|d.log|, r, d.timeline[k].occurrence)
    decreases |d.timeline| - i
  {
    var e, r := ExpireOne(d, d.timeline[i], now), ExpireFrom(d, now, i);
    var id := d.timeline[k].occurrence;
    if !Settled(d, id) {
      ExpireOneHonest(d, d.timeline[i], now, id);
      ExpireHonest(e, now, i + 1, id);
      assert ExpireFrom(e, now, i + 1) == r;
      if i == k {
        assert e.log == d.log + [Skipped(id)];
        assert r.log[|d.log|] == e.log[|d.log|];
      } else {
        ExpirySettlesOverdue(e, now, i + 1, k);
        hide ExpireOne, ExpireFrom, Settled, LaunchDeadline;
        HonestThen(d, e, r, id);
        if Settled(e, id) {
          var m :| |d.log| <= m < |e.log| && e.log[m].id == id;
          assert r.log[m] == e.log[m];
        }
      }
    }
  }

  lemma RecordAdds(c: seq<Dedup.Entry>, id: OccurrenceId, now: Instant, other: OccurrenceId)
    requires Dedup.Contains(Dedup.Record(c, id, now), other)
    ensures Dedup.Contains(c, other) || other == id
  {
    var c1 := Dedup.Put(c, id, now);
    if |c1| > DEDUP_MAX_OCCURRENCES { WithoutAllAdds(c1, Dedup.Oldest(c1), other); }
    PutAdds(c, id, now, other);
  }

  lemma {:induction false} PutAdds(c: seq<Dedup.Entry>, id: OccurrenceId, now: Instant, other: OccurrenceId)
    requires Dedup.Contains(Dedup.Put(c, id, now), other)
    ensures Dedup.Contains(c, other) || other == id
  {
    var r := Dedup.Put(c, id, now);
    Dedup.ContainsSplit(r, other);
    if c != [] {
      Dedup.ContainsSplit(c, other);
      if c[0].id != id && c[0].id != other { PutAdds(c[1..], id, now, other); }
      if c[0].id == id { assert r[1..] == c[1..]; }
    }
  }

  lemma {:induction false} WithoutAdds(c: seq<Dedup.Entry>, id: OccurrenceId, other: OccurrenceId)
    requires Dedup.Contains(Dedup.Without(c, id), other)
    ensures Dedup.Contains(c, other)
  {
    Dedup.ContainsSplit(c, other);
    if c[0].id != id {
      Dedup.ContainsSplit(Dedup.Without(c, id), other);
      if c[0].id != other { WithoutAdds(c[1..], id, other); }
    }
  }

  lemma {:induction false} WithoutAllAdds(c: seq<Dedup.Entry>, doomed: seq<Dedup.Entry>, other: OccurrenceId)
    requires Dedup.Contains(Dedup.WithoutAll(c, doomed), other)
    ensures Dedup.Contains(c, other)
    decreases |doomed|
  {
    if doomed != [] {
      WithoutAllAdds(Dedup.Without(c, doomed[0].id), doomed[1..], other);
      WithoutAdds(c, doomed[0].id, other);
    }
  }

  /** The k-th run is the first that may be launched. */
  predicate FirstLaunchable(d: Desk, now: Instant, k: nat)
    requires k < |d.timeline|
  {
    Launchable(d, d.timeline[k], now) && forall i :: 0 <= i < k ==> !Launchable(d, d.timeline[i], now)
  }

  ghost predicate ArmedForFirst(d: Desk, now: Instant) {
    d.armed.Some? && exists k ::
      && 0 <= k < |d.timeline| && FirstLaunchable(d, now, k)
      && d.armed.value == Armed(d.timeline[k].occurrence, Max(PlannedLaunch(d.timeline[k]), now))
  }

  /** The launch timer is armed for the first launchable run, at its planned start or at once;
      it is not armed exactly when no run is launchable or that run's occurrence is unknown. */
  lemma ArmsFirstLaunchable(d: Desk, now: Instant)
    ensures var r := ArmNext(d, now, true);
      && (r.armed.Some? ==> ArmedForFirst(r, now))
      && (r.armed.None? <==> forall k :: 0 <= k < |r.timeline| && FirstLaunchable(r, now, k) ==>
                               r.timeline[k].occurrence !in r.index)
  {
    var e := ExpireFrom(d, now, 0);
    var next := NextPending(e, now, 0);
    var r := ArmNext(d, now, true);
    NextPendingSame(e, r, now, 0);
    hide ExpireFrom, LaunchDeadline, Dedup.Contains, PlannedLaunch, NextPending;
    if next.Some? { assert FirstLaunchable(r, now, next.value); }
  }

  lemma {:induction false} NextPendingSame(d: Desk, e: Desk, now: Instant, i: nat)
    requires i <= |d.timeline| && e == d.(armed := e.armed)
    ensures NextPending(d, now, i) == NextPending(e, now, i)
    ensures forall k :: 0 <= k < |d.timeline| ==> Launchable(d, d.timeline[k], now) == Launchable(e, e.timeline[k], now)
    decreases |d.timeline| - i
  {
    if i < |d.timeline| { NextPendingSame(d, e, now, i + 1); }
  }

  // ---------------------------------------------------------------------
  // What a race takes

  /** The occurrence was settled after the first n settlements. */
  predicate SettledSince(n: nat, d: Desk, id: OccurrenceId) {
    exists k :: n <= k < |d.log| && d.log[k].id == id
  }

  /** From `d` to `r` settlements were only added, and the occurrence did not become settled
      without one of its own. */
  predicate Honest(d: Desk, r: Desk, id: OccurrenceId) {
    d.log <= r.log && (Settled(r, id) && !Settled(d, id) ==> SettledSince(|d.log|, r, id))
  }

  lemma HonestThen(d: Desk, e: Desk, r: Desk, id: OccurrenceId)
    requires Honest(d, e, id) && Honest(e, r, id)
    ensures Honest(d, r, id)
  {
    hide Settled;
    if SettledSince(|d.log|, e, id) {
      var k :| |d.log| <= k < |e.log| && e.log[k].id == id;
      assert r.log[k].id == id;
    }
    if SettledSince(|e.log|, r, id) {
      var k :| |e.log| <= k < |r.log| && r.log[k].id == id;
      assert SettledSince(|d.log|, r, id);
    }
  }

  lemma RememberHonest(d: Desk, known: OccurrenceId, now: Instant, id: OccurrenceId)
    ensures var r := Remember(d, known, now);
      r.log == d.log && r.active == d.active && (Settled(r, id) ==> Settled(d, id) || id == known)
  {
    if Dedup.Contains(Dedup.Record(d.completed, known, now), id) { RecordAdds(d.completed, known, now, id); }
    hide Dedup.Record, Dedup.Contains;
  }

  lemma SkipHonest(d: Desk, skipped: OccurrenceId, now: Instant, id: OccurrenceId)
    ensures Honest(d, RecordSkip(d, skipped, now), id)
  {
    RememberHonest(d, skipped, now, id);
    var r := RecordSkip(d, skipped, now);
    hide Remember, Settled;
    assert r.log == d.log + [Skipped(skipped)] && r.log[|d.log|].id == skipped;
    assert Settled(r, id) == Settled(Remember(d, skipped, now), id) by {
      SettledSame(r, Remember(d, skipped, now), id);
    }
  }

  lemma SettledSame(a: Desk, b: Desk, id: OccurrenceId)
    requires a.completed == b.completed && a.active == b.active
    ensures Settled(a, id) == Settled(b, id)
  {}

  lemma ExpireOneHonest(d: Desk, run: RunPlan, now: Instant, id: OccurrenceId)
    ensures Honest(d, ExpireOne(d, run, now), id)
  {
    var d1 := d.(retry := Remove(d.retry, run.occurrence));
    SettledSame(d, d1, id);
    SkipHonest(d1, run.occurrence, now, id);
    hide RecordSkip, Settled, LaunchDeadline, Remove;
  }

  lemma {:induction false} ExpireHonest(d: Desk, now: Instant, i: nat, id: OccurrenceId)
    requires i <= |d.timeline|
    ensures Honest(d, ExpireFrom(d, now, i), id)
    decreases |d.timeline| - i
  {
    if i < |d.timeline| {
      var run := d.timeline[i];
      var e := ExpireOne(d, run, now);
      ExpireOneHonest(d, run, now, id);
      ExpireHonest(e, now, i + 1, id);
      hide ExpireOne, Honest;
      HonestThen(d, e, ExpireFrom(d, now, i), id);
    }
  }

  lemma ArmHonest(d: Desk, now: Instant, allowed: bool, id: OccurrenceId)
    ensures Honest(d, ArmNext(d, now, allowed), id)
  {
    ExpireHonest(d, now, 0, id);
    var r, e := ArmNext(d, now, allowed), ExpireFrom(d, now, 0);
    hide ExpireFrom, NextPending, Dedup.Contains;
  }

  lemma StepHonest(d: Desk, event: Event, now: Instant, id: OccurrenceId)
    ensures Honest(d, Step(d, event, now), id)
  {
    hide Dedup.Contains, ArmNext, RecordSkip, Remember, DeadlineOf;
    match event
    case RecalculateEvent(timeline, index, allowed) =>
      ArmHonest(d.(timeline := timeline, index := index), now, allowed, id);
    case ArmRetryEvent(retryId, allowed) =>
      var retry := if retryId in d.retry then d.retry else d.retry + [retryId];
      ArmHonest(d.(retry := retry, retryArmed := true), now, allowed, id);
    case OccurrenceTimer =>
    case RetryTimer =>
    case AttemptEvent(o, blocked) => SkipHonest(d, o.id, now, id);
    case CommitEvent(launch, runnable) =>
      SkipHonest(d, launch.id, now, id);
      assert Claim(d, launch.id).log[|d.log|].id == launch.id;
    case FinishEvent => if d.active.Some? { RememberHonest(d, d.active.value, now, id); }
  }

  lemma {:induction false} RunHonest(d: Desk, trace: Trace, id: OccurrenceId)
    ensures Honest(d, Run(d, trace), id)
    decreases |trace|
  {
    if trace != [] {
      var e := Step(d, trace[0].0, trace[0].1);
      StepHonest(d, trace[0].0, trace[0].1, id);
      RunHonest(e, trace[1..], id);
      hide Step, Honest;
      HonestThen(d, e, Run(e, trace[1..]), id);
    }
  }

  /** A launch races only if, during its wait, another step settled the same occurrence: that
      step, and so the second settlement, can be named. */
  lemma {:induction false} RaceNeedsSettlement(
    d: Desk, o: Planner.Occurrence, now: Instant, blocked: Blocked, meanwhile: Trace, runnable: bool)
    requires Attempt(d, o, now, blocked).1.GoesOn?
    requires var (e, outcome) := Attempt(d, o, now, blocked);
      Races(Run(e, meanwhile), CommitEvent(outcome.launch, runnable))
    ensures SettledSince(|d.log|, Run(d, meanwhile), o.id)
  {
    hide Run, DeadlineOf, RecordSkip, Settled;
    RunHonest(d, meanwhile, o.id);
  }

  // ---------------------------------------------------------------------
  // Which histories are free of races

  /** The k-th step is the second half of the launch whose first half is the a-th, and its
      occurrence is settled by no step between them. */
  ghost predicate LaunchedAt(d: Desk, trace: Trace, a: nat, k: nat)
    requires a < k < |trace| && trace[k].0.CommitEvent?
  {
    && trace[a].0.AttemptEvent?
    && var (before, launch) := (Run(d, trace[..a]), trace[k].0.launch);
       && Attempt(before, trace[a].0.occurrence, trace[a].1, trace[a].0.blocked).1 == GoesOn(launch)
       && !SettledSince(|before.log|, Run(d, trace[..k]), launch.id)
  }

  /** Every second half has its first half, and no other settlement of the occurrence comes
      between the two. */
  ghost predicate Undisturbed(d: Desk, trace: Trace) {
    forall k :: 0 <= k < |trace| && trace[k].0.CommitEvent? ==> exists a :: 0 <= a < k && LaunchedAt(d, trace, a, k)
  }

  /** Every launch goes through without a step of another one between its halves. */
  ghost predicate Atomic(d: Desk, trace: Trace) {
    forall k :: 0 <= k < |trace| && trace[k].0.CommitEvent? ==>
      && 0 < k && trace[k - 1].0.AttemptEvent?
      && Attempt(Run(d, trace[..k - 1]), trace[k - 1].0.occurrence, trace[k - 1].1, trace[k - 1].0.blocked).1
         == GoesOn(trace[k].0.launch)
  }

  lemma {:induction false} RunSplit(d: Desk, a: Trace, b: Trace)
    ensures Run(d, a + b) == Run(Run(d, a), b)
    decreases |a|
  {
    if a == [] {
      assert a + b == b;
    } else {
      hide Step;
      RunSplit(Step(d, a[0].0, a[0].1), a[1..], b);
      assert (a + b)[1..] == a[1..] + b;
    }
  }

  lemma {:induction false} NoneRaces(d: Desk, trace: Trace)
    requires forall k :: 0 <= k < |trace| ==> !Races(Run(d, trace[..k]), trace[k].0)
    ensures RaceFree(d, trace)
    decreases |trace|
  {
    if trace != [] {
      var rest, e := trace[1..], Step(d, trace[0].0, trace[0].1);
      assert Run(d, trace[..0]) == d;
      forall k | 0 <= k < |rest| ensures !Races(Run(e, rest[..k]), rest[k].0) {
        assert trace[..k + 1][1..] == rest[..k] && trace[..k + 1][0] == trace[0];
        assert Run(d, trace[..k + 1]) == Run(e, rest[..k]);
        assert trace[k + 1] == rest[k];
      }
      hide Step, Races;
      NoneRaces(e, rest);
    }
  }

  /** Launches during whose wait nobody else settles the occurrence never race. */
  lemma {:induction false} UndisturbedIsRaceFree(d: Desk, trace: Trace)
    requires Undisturbed(d, trace)
    ensures RaceFree(d, trace)
  {
    forall k | 0 <= k < |trace| ensures !Races(Run(d, trace[..k]), trace[k].0) {
      if trace[k].0.CommitEvent? {
        var a :| 0 <= a < k && LaunchedAt(d, trace, a, k);
        var before := Run(d, trace[..a]);
        RunSplit(d, trace[..a], trace[a..k]);
        assert trace[..a] + trace[a..k] == trace[..k];
        RunHonest(before, trace[a..k], trace[k].0.launch.id);
        hide Run, DeadlineOf, RecordSkip, Settled;
      }
    }
    NoneRaces(d, trace);
  }

  lemma {:induction false} AtomicIsUndisturbed(d: Desk, trace: Trace)
    requires Atomic(d, trace)
    ensures Undisturbed(d, trace)
  {
    forall k | 0 <= k < |trace| && trace[k].0.CommitEvent?
      ensures exists a :: 0 <= a < k && LaunchedAt(d, trace, a, k)
    {
      var before, step := Run(d, trace[..k - 1]), trace[k - 1];
      assert trace[..k - 1] + [step] == trace[..k];
      RunSplit(d, trace[..k - 1], [step]);
      assert Run(before, [step]) == Step(before, step.0, step.1) by { assert [step][1..] == []; }
      assert Step(before, step.0, step.1) == before by { hide RecordSkip, DeadlineOf, Settled; }
      assert LaunchedAt(d, trace, k - 1, k);
    }
  }

  /** Where launches are atomic, an occurrence that the window never forgot is run or recorded
      as skipped at most once, whatever else happens. */
  lemma {:induction false} AtomicLaunchesSettleOnce(d: Desk, trace: Trace)
    requires Once(d) && Atomic(d, trace)
    ensures var r := Run(d, trace);
      forall i, j :: 0 <= i < j < |r.log| && r.log[i].id !in r.forgotten ==> r.log[i].id != r.log[j].id
  {
    AtomicIsUndisturbed(d, trace);
    UndisturbedIsRaceFree(d, trace);
    SettledAtMostOnce(d, trace);
  }
}
