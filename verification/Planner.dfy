/** The planner as it runs: work items, builds and the conflict list are objects that the
    scheduling loops update in place. Every method is tied to its function in PlannerSpec. */
module Planner {
  import opened Domain
  import Spec = PlannerSpec
  import PlannerTimeline

  class ConflictLog {
    var entries: seq<Spec.Conflict>

    constructor ()
      ensures entries == []
    {
      entries := [];
    }
  }

  /** `cut` is kept for the specification only. */
  class WorkItem {
    const occurrence: OccurrenceId
    const zone: ZoneId
    const position: int
    const requested: Instant
    const total: nat
    const soak: int
    var cycles: seq<nat>
    var cycleCount: nat
    var emitted: nat
    var eligible: Instant
    var cut: int

    function View(): Spec.Item
      reads this
    {
      Spec.Item(occurrence, zone, position, requested, total, cycles, cycleCount, emitted, soak, eligible, cut)
    }

    constructor (it: Spec.Item)
      ensures View() == it
    {
      occurrence, zone, position, requested := it.occurrence, it.zone, it.position, it.requested;
      total, soak, cycles, cycleCount := it.total, it.soak, it.cycles, it.cycleCount;
      emitted, eligible, cut := it.emitted, it.eligible, it.cut;
    }

    /** Give up all remaining cycles. */
    method Clear() returns (remaining: nat)
      modifies this
      ensures View() == old(View()).(cycles := [], cut := old(cut) + Spec.Minutes(old(cycles)))
      ensures remaining == |old(cycles)|
    {
      remaining := |cycles|;
      cut := cut + Spec.Minutes(cycles);
      cycles := [];
    }

    /** Water only `available` minutes of the current cycle, and none of the later ones. */
    method CutShort(available: nat)
      modifies this
      ensures View() == old(View()).(cycles := [available], cycleCount := old(emitted) + 1,
                                     cut := old(cut) + Spec.Minutes(old(cycles)) - available)
    {
      cut := cut + Spec.Minutes(cycles) - available;
      cycles := [available];
      cycleCount := emitted + 1;
    }

    /** Take the next cycle off the queue and soak after its end. */
    method TakeCycle(start: Instant) returns (step: RunStep)
      requires cycles != []
      modifies this
      ensures step == Spec.StepFor(old(View()), start)
      ensures View() == old(View()).(cycles := old(cycles)[1..], emitted := old(emitted) + 1,
                                     eligible := step.plannedEnd + soak)
    {
      var duration := cycles[0];
      cycles := cycles[1..];
      emitted := emitted + 1;
      var end := start + 60 * duration;
      step := RunStep(zone, emitted, cycleCount, requested, start, end, duration, emitted > 1 && soak > 0);
      eligible := end + soak;
    }
  }

  /** `owners` names, for the specification only, the work item of each step. */
  class OccurrenceBuild {
    const occurrence: Spec.Occurrence
    const program: Spec.Program
    var steps: seq<RunStep>
    var skipped: seq<Spec.SkippedZone>
    var dropped: bool
    ghost var owners: seq<nat>

    function View(): Spec.Build
      reads this
    {
      Spec.Build(occurrence, program, steps, skipped, dropped)
    }

    ghost predicate Valid()
      reads this
    {
      |owners| == |steps|
    }

    ghost function Placed(): seq<Spec.Placed>
      requires Valid()
      reads this
    {
      seq(|steps|, i requires 0 <= i < |steps| && Valid() reads this => Spec.Placed(owners[i], steps[i]))
    }

    constructor (o: Spec.Occurrence, p: Spec.Program, skips: seq<Spec.SkippedZone>)
      ensures Valid() && View() == Spec.Build(o, p, [], skips, false)
    {
      occurrence, program := o, p;
      steps, skipped, dropped, owners := [], skips, false, [];
    }

    method Skip(zone: ZoneId)
      requires Valid()
      modifies this`skipped
      ensures Valid() && Placed() == old(Placed())
      ensures skipped == old(skipped) + [Spec.SkippedZone(zone, Spec.OutOfWindow)]
    {
      skipped := skipped + [Spec.SkippedZone(zone, Spec.OutOfWindow)];
    }

    method Drop()
      modifies this`dropped, this`steps, this`owners
      ensures Valid() && dropped && steps == [] && Placed() == []
    {
      dropped, steps, owners := true, [], [];
    }

    method Append(step: RunStep, ghost owner: nat)
      requires Valid()
      modifies this`steps, this`owners
      ensures Valid() && Placed() == old(Placed()) + [Spec.Placed(owner, step)]
    {
      steps, owners := steps + [step], owners + [owner];
    }

    /** Correct the cycle count of the steps already emitted for a zone and request. */
    method Recount(zone: ZoneId, requested: Instant, count: nat)
      requires Valid()
      modifies this`steps
      ensures Valid() && Placed() == Spec.Recount(old(Placed()), zone, requested, count)
    {
      var recounted: seq<RunStep> := [];
      for i := 0 to |steps|
        invariant |recounted| == i && unchanged(this)
        invariant forall j :: 0 <= j < i ==>
          recounted[j] == Spec.Recount(old(Placed()), zone, requested, count)[j].step
      {
        var step := steps[i];
        recounted := recounted + [if step.zone == zone && step.requestedStart == requested
                                  then step.(cycleCount := count) else step];
      }
      steps := recounted;
    }
  }

  predicate Distinct(items: seq<WorkItem>) {
    forall i, j :: 0 <= i < j < |items| ==> items[i] != items[j]
  }

  function Views(items: seq<WorkItem>): (r: seq<Spec.Item>)
    reads items
    ensures |r| == |items|
    ensures forall i :: 0 <= i < |items| ==> r[i] == items[i].View()
  {
    if items == [] then [] else [items[0].View()] + Views(items[1..])
  }

  /** The state of the layout loop, with the conflicts added since it began. */
  ghost function Snapshot(
    pending: seq<WorkItem>, build: OccurrenceBuild, log: ConflictLog, since: nat, cursor: Instant): Spec.Layout
    requires build.Valid() && since <= |log.entries|
    reads pending, build, log
  {
    Spec.Layout(Views(pending), build.Placed(), build.skipped, build.dropped, cursor, log.entries[since..])
  }

  lemma {:induction false} ViewsUpdated(before: seq<Spec.Item>, items: seq<WorkItem>, k: nat)
    requires |before| == |items| && k < |items|
    requires forall j :: 0 <= j < |items| && j != k ==> items[j].View() == before[j]
    ensures Views(items) == before[k := items[k].View()]
  {}

  /** Give up the item's remaining cycles; skip its zone, or drop the whole occurrence. */
  method ApplyWindowViolation(
    c: Spec.Setting, pending: seq<WorkItem>, k: nat, build: OccurrenceBuild, log: ConflictLog,
    policy: Spec.WindowPolicy, ghost since: nat, ghost cursor: Instant)
    requires k < |pending| && Distinct(pending) && build.Valid() && since <= |log.entries|
    modifies pending[k], build, log
    ensures build.Valid() && since <= |log.entries|
    ensures Snapshot(pending, build, log, since, cursor)
      == Spec.ApplyWindowViolation(c, old(Snapshot(pending, build, log, since, cursor)), k, policy)
    ensures log.entries[..since] == old(log.entries[..since])
  {
    hide Views, Spec.Minutes, Spec.Recount;
    ghost var before := Views(pending);
    var remaining := pending[k].Clear();
    ViewsUpdated(before, pending, k);
    if policy == Spec.SkipStep || policy == Spec.TruncateLast {
      build.Skip(pending[k].zone);
    } else {
      build.Drop();
      log.entries := log.entries + [Spec.Conflict(c.occurrence, c.program, Some(pending[k].zone), Spec.OutOfWindow)];
    }
  }

  /** Shorten the item's current cycle, give up the later ones and renumber its steps. */
  method Truncate(
    pending: seq<WorkItem>, k: nat, build: OccurrenceBuild, available: nat,
    ghost log: ConflictLog, ghost since: nat, ghost cursor: Instant)
    requires k < |pending| && Distinct(pending) && build.Valid() && since <= |log.entries|
    requires pending[k].cycles != []
    modifies pending[k], build
    ensures build.Valid()
    ensures Snapshot(pending, build, log, since, cursor)
      == Spec.Truncate(old(Snapshot(pending, build, log, since, cursor)), k, available)
  {
    hide Views, Spec.Minutes, Spec.Recount;
    ghost var before := Views(pending);
    if |pending[k].cycles| > 1 { build.Skip(pending[k].zone); }
    pending[k].CutShort(available);
    build.Recount(pending[k].zone, pending[k].requested, pending[k].cycleCount);
    ViewsUpdated(before, pending, k);
  }

  /** Append the item's next cycle at the cursor; the controller is free after the gap. */
  method Emit(
    c: Spec.Setting, pending: seq<WorkItem>, k: nat, build: OccurrenceBuild, cursor: Instant,
    ghost log: ConflictLog, ghost since: nat)
    returns (next: Instant)
    requires k < |pending| && Distinct(pending) && build.Valid() && since <= |log.entries|
    requires pending[k].cycles != []
    modifies pending[k], build
    ensures build.Valid()
    ensures Snapshot(pending, build, log, since, next)
      == Spec.Emit(c, old(Snapshot(pending, build, log, since, cursor)), k)
  {
    hide Views, Spec.Minutes, Spec.Recount;
    ghost var before := Views(pending);
    var step := pending[k].TakeCycle(cursor);
    build.Append(step, k);
    ViewsUpdated(before, pending, k);
    next := step.plannedEnd + c.gap;
  }

  method PlaceNext(
    c: Spec.Setting, pending: seq<WorkItem>, k: nat, build: OccurrenceBuild, log: ConflictLog, cursor: Instant,
    ghost since: nat)
    returns (next: Instant)
    requires k < |pending| && Distinct(pending) && build.Valid() && since <= |log.entries|
    requires pending[k].cycles != []
    modifies pending[k], build, log
    ensures build.Valid() && since <= |log.entries|
    ensures Snapshot(pending, build, log, since, next)
      == Spec.PlaceNext(c, old(Snapshot(pending, build, log, since, cursor)), k)
    ensures log.entries[..since] == old(log.entries[..since])
  {
    if c.window.Some? {
      var window, local := c.window.value, Spec.LocalTime(c.offset, cursor);
      if !Spec.WindowContains(window, local) {
        ApplyWindowViolation(c, pending, k, build, log, window.policy, since, cursor);
        return cursor;
      }
      if window.policy == Spec.TruncateLast {
        var available := Spec.MinutesUntilWindowEnd(window, local);
        if pending[k].cycles[0] > available {
          if available < 1 {
            ApplyWindowViolation(c, pending, k, build, log, window.policy, since, cursor);
            return cursor;
          }
          Truncate(pending, k, build, available, log, since, cursor);
        }
      }
    }
    next := Emit(c, pending, k, build, cursor, log, since);
  }

  // ---------------------------------------------------------------------
  // The layout loop

  method AnyLeft(pending: seq<WorkItem>) returns (any: bool)
    ensures any == Spec.AnyLeft(Views(pending))
  {
    hide Views;
    for i := 0 to |pending|
      invariant forall j :: 0 <= j < i ==> !Spec.Left(Views(pending)[j])
    {
      if pending[i].cycles != [] {
        assert Spec.Left(Views(pending)[i]);
        return true;
      }
    }
    return false;
  }

  /** The ready item with the least sort key, the first of them on a tie. */
  method LeastReady(pending: seq<WorkItem>, cursor: Instant) returns (best: Option<nat>)
    ensures best == Spec.LeastReady(Views(pending), cursor, |pending|)
  {
    hide Views;
    best := None;
    for i := 0 to |pending|
      invariant best == Spec.LeastReady(Views(pending), cursor, i)
    {
      if pending[i].cycles != [] && pending[i].eligible <= cursor {
        if best.None? || Spec.KeyLess(pending[i].View(), pending[best.value].View()) { best := Some(i); }
      }
    }
  }

  /** The earliest instant at which an item with cycles left may start. */
  method NextEligible(pending: seq<WorkItem>) returns (next: Option<Instant>)
    ensures next == Spec.NextEligible(Views(pending), |pending|)
  {
    hide Views;
    next := None;
    for i := 0 to |pending|
      invariant next == Spec.NextEligible(Views(pending), i)
    {
      if pending[i].cycles != [] {
        next := if next.None? then Some(pending[i].eligible) else Some(Min(next.value, pending[i].eligible));
      }
    }
  }

  method ClearAll(pending: seq<WorkItem>)
    requires Distinct(pending)
    modifies pending
    ensures Views(pending) == Spec.Cleared(old(Views(pending)))
  {
    hide Views;
    for i := 0 to |pending|
      invariant forall j :: 0 <= j < i ==> pending[j].View() == old(pending[j].View()).(cycles := [])
      invariant forall j :: i <= j < |pending| ==> pending[j].View() == old(pending[j].View())
    {
      pending[i].cycles := [];
    }
  }

  /** One round: place the next cycle of the chosen item, or wait for one to become ready. */
  method Round(
    c: Spec.Setting, pending: seq<WorkItem>, build: OccurrenceBuild, log: ConflictLog, cursor: Instant,
    ghost since: nat)
    returns (next: Instant)
    requires Distinct(pending) && build.Valid() && since <= |log.entries|
    requires Spec.AnyLeft(Views(pending))
    modifies pending, build, log
    ensures build.Valid() && since <= |log.entries|
    ensures Snapshot(pending, build, log, since, next)
         == Spec.Round(c, old(Snapshot(pending, build, log, since, cursor)))
    ensures log.entries[..since] == old(log.entries[..since])
  {
    hide Views, Spec.PlaceNext;
    var best := LeastReady(pending, cursor);
    if best.None? {
      var earliest := NextEligible(pending);
      next := Max(cursor, earliest.value);
    } else {
      assert Spec.AnyReady(Views(pending), cursor) by { assert Spec.Ready(Views(pending)[best.value], cursor); }
      assert best.value == Spec.Choose(Views(pending), cursor);
      next := PlaceNext(c, pending, best.value, build, log, cursor, since);
    }
  }

  lemma {:induction false} LayOutUnfolds(c: Spec.Setting, l: Spec.Layout)
    ensures Spec.LayOut(c, l) ==
      if !Spec.AnyLeft(l.items) then l
      else if l.dropped then l.(items := Spec.Cleared(l.items))
      else Spec.LayOut(c, Spec.Round(c, l))
  {}

  /** The loop is on its way to the layout `goal`, and has not touched the earlier conflicts. */
  ghost predicate Toward(
    c: Spec.Setting, pending: seq<WorkItem>, build: OccurrenceBuild, log: ConflictLog, cursor: Instant,
    earlier: seq<Spec.Conflict>, goal: Spec.Layout)
    reads pending, build, log
  {
    && build.Valid() && |earlier| <= |log.entries| && log.entries[..|earlier|] == earlier
    && Spec.LayOut(c, Snapshot(pending, build, log, |earlier|, cursor)) == goal
  }

  /** A round of the loop that is on its way, and the progress it makes. */
  method Advance(
    c: Spec.Setting, pending: seq<WorkItem>, build: OccurrenceBuild, log: ConflictLog, cursor: Instant,
    ghost earlier: seq<Spec.Conflict>, ghost goal: Spec.Layout)
    returns (next: Instant)
    requires Distinct(pending) && Toward(c, pending, build, log, cursor, earlier, goal)
    requires Spec.AnyLeft(Views(pending)) && !build.dropped
    modifies pending, build, log
    ensures Toward(c, pending, build, log, next, earlier, goal)
    ensures Spec.CyclesLeft(Views(pending)) < Spec.CyclesLeft(old(Views(pending))) ||
            (Views(pending) == old(Views(pending)) && !Spec.AnyReady(old(Views(pending)), cursor)
             && Spec.AnyReady(Views(pending), next))
  {
    hide Views, Spec.Round, Spec.AnyReady, Spec.LayOut, Spec.AnyLeft, Spec.CyclesLeft, Spec.Cleared, Distinct;
    ghost var l := Snapshot(pending, build, log, |earlier|, cursor);
    LayOutUnfolds(c, l);
    Spec.RoundProgress(c, l);
    next := Round(c, pending, build, log, cursor, |earlier|);
  }

  /** The loop itself: rounds until no cycle is left or the occurrence is dropped. */
  method PlaceAll(
    c: Spec.Setting, pending: seq<WorkItem>, build: OccurrenceBuild, log: ConflictLog, start: Instant,
    ghost earlier: seq<Spec.Conflict>, ghost goal: Spec.Layout)
    returns (cursor: Instant)
    requires Distinct(pending) && Toward(c, pending, build, log, start, earlier, goal)
    modifies pending, build, log
    ensures Toward(c, pending, build, log, cursor, earlier, goal)
    ensures build.dropped || !Spec.AnyLeft(Views(pending))
  {
    cursor := start;
    hide Views, Toward, Spec.AnyReady, Spec.AnyLeft, Spec.CyclesLeft, Distinct;
    var any := AnyLeft(pending);
    while any && !build.dropped
      invariant Toward(c, pending, build, log, cursor, earlier, goal)
      invariant any == Spec.AnyLeft(Views(pending))
      decreases Spec.CyclesLeft(Views(pending)), if Spec.AnyReady(Views(pending), cursor) then 0 else 1
    {
      cursor := Advance(c, pending, build, log, cursor, earlier, goal);
      any := AnyLeft(pending);
    }
  }

  /** Lay out one occurrence's cycles from the cursor onward. */
  method ScheduleOccurrence(
    c: Spec.Setting, pending: seq<WorkItem>, build: OccurrenceBuild, log: ConflictLog, start: Instant)
    returns (ghost finish: Instant)
    requires Distinct(pending) && build.Valid()
    modifies pending, build, log
    ensures build.Valid() && |old(log.entries)| <= |log.entries|
    ensures Snapshot(pending, build, log, |old(log.entries)|, finish)
      == Spec.LayOut(c, old(Snapshot(pending, build, log, |log.entries|, start)))
    ensures log.entries[..|old(log.entries)|] == old(log.entries)
  {
    ghost var earlier := log.entries;
    ghost var goal := Spec.LayOut(c, Snapshot(pending, build, log, |earlier|, start));
    hide Views, Spec.LayOut, Spec.AnyLeft, Spec.Cleared, Distinct;
    var cursor := PlaceAll(c, pending, build, log, start, earlier, goal);
    LayOutUnfolds(c, Snapshot(pending, build, log, |earlier|, cursor));
    if build.dropped { ClearDropped(c, pending, build, log, earlier, cursor); }
    finish := cursor;
  }

  /** A dropped occurrence waters nothing more. */
  method ClearDropped(
    c: Spec.Setting, pending: seq<WorkItem>, build: OccurrenceBuild, log: ConflictLog,
    ghost earlier: seq<Spec.Conflict>, ghost cursor: Instant)
    requires Distinct(pending) && build.Valid() && build.dropped && |earlier| <= |log.entries|
    modifies pending
    ensures Snapshot(pending, build, log, |earlier|, cursor)
      == Spec.LayOut(c, old(Snapshot(pending, build, log, |earlier|, cursor)))
  {
    LayOutUnfolds(c, Snapshot(pending, build, log, |earlier|, cursor));
    hide Views, Spec.LayOut, Spec.Cleared, Distinct, Spec.AnyLeft;
    var any := AnyLeft(pending);
    if any { ClearAll(pending); }
  }

  // ---------------------------------------------------------------------
  // Serving the occurrences one after the other

  predicate DistinctObjects(builds: seq<OccurrenceBuild>) {
    forall i, j :: 0 <= i < j < |builds| ==> builds[i] != builds[j]
  }

  function BuildViews(builds: seq<OccurrenceBuild>): (r: seq<Spec.Build>)
    reads builds
    ensures |r| == |builds|
    ensures forall i :: 0 <= i < |builds| ==> r[i] == builds[i].View()
  {
    if builds == [] then [] else [builds[0].View()] + BuildViews(builds[1..])
  }

  lemma {:induction false} BuildViewsUpdated(before: seq<Spec.Build>, builds: seq<OccurrenceBuild>, k: nat)
    requires |before| == |builds| && k < |builds|
    requires forall j :: 0 <= j < |builds| && j != k ==> builds[j].View() == before[j]
    ensures BuildViews(builds) == before[k := builds[k].View()]
  {}

  /** The items of one occurrence that have cycles left. */
  method GroupOf(items: seq<WorkItem>, occurrence: OccurrenceId) returns (group: seq<WorkItem>)
    requires Distinct(items)
    ensures Views(group) == Spec.PendingOf(Views(items), occurrence)
    ensures Distinct(group)
    ensures forall g :: g in group ==> g in items && g.occurrence == occurrence
  {
    group := [];
    hide Views;
    for i := |items| downto 0
      invariant Views(group) == Spec.PendingOf(Views(items)[i..], occurrence)
      invariant Distinct(group)
      invariant forall g :: g in group ==> g in items[i..] && g.occurrence == occurrence
    {
      if items[i].occurrence == occurrence && items[i].cycles != [] {
        assert items[i] !in items[i + 1..];
        ViewsCons(items[i], group);
        group := [items[i]] + group;
      }
      PendingTail(Views(items), i, occurrence);
    }
    assert Views(items)[0..] == Views(items) && items[0..] == items;
  }

  lemma {:induction false} ViewsCons(item: WorkItem, items: seq<WorkItem>)
    ensures Views([item] + items) == [item.View()] + Views(items)
  {}

  lemma {:induction false} PendingTail(items: seq<Spec.Item>, i: nat, occurrence: OccurrenceId)
    requires i < |items|
    ensures Spec.PendingOf(items[i..], occurrence) ==
      (if items[i].occurrence == occurrence && Spec.Left(items[i])
       then [items[i]] + Spec.PendingOf(items[i + 1..], occurrence)
       else Spec.PendingOf(items[i + 1..], occurrence))
  {
    assert items[i..][1..] == items[i + 1..];
  }

  lemma PlacedUntagged(build: OccurrenceBuild)
    requires build.Valid()
    ensures Spec.Untag(build.Placed()) == build.steps
  {}

  predicate Untouched(build: Spec.Build) { build.steps == [] && !build.dropped }

  lemma {:induction false} StartSnapshot(group: seq<WorkItem>, build: OccurrenceBuild, log: ConflictLog, start: Instant)
    requires build.Valid() && Untouched(build.View())
    ensures Snapshot(group, build, log, |log.entries|, start)
      == Spec.Layout(Views(group), [], build.skipped, false, start, [])
  {
    hide Views;
  }

  lemma FinishSnapshot(
    group: seq<WorkItem>, build: OccurrenceBuild, before: Spec.Build, log: ConflictLog, earlier: seq<Spec.Conflict>,
    finish: Instant, l: Spec.Layout)
    requires build.Valid() && |earlier| <= |log.entries| && log.entries[..|earlier|] == earlier
    requires build.occurrence == before.occurrence && build.program == before.program
    requires Snapshot(group, build, log, |earlier|, finish) == l
    ensures build.View() == Spec.Filled(before, l)
    ensures log.entries == earlier + l.conflicts
  {
    PlacedUntagged(build);
    hide Views;
    assert log.entries == earlier + log.entries[|earlier|..];
  }

  /** Lay out an untouched build. */
  method Fill(c: Spec.Setting, group: seq<WorkItem>, build: OccurrenceBuild, log: ConflictLog, start: Instant)
    requires Distinct(group) && build.Valid() && Untouched(build.View())
    modifies group, build, log
    ensures build.Valid()
    ensures var l := Spec.LayOut(c, Spec.Layout(old(Views(group)), [], old(build.skipped), false, start, []));
      && build.View() == Spec.Filled(old(build.View()), l)
      && log.entries == old(log.entries) + l.conflicts
  {
    StartSnapshot(group, build, log, start);
    ghost var earlier, before := log.entries, build.View();
    ghost var l := Spec.LayOut(c, Snapshot(group, build, log, |log.entries|, start));
    hide Views, Spec.LayOut, Distinct, Untouched, Spec.Filled, Snapshot;
    ghost var finish := ScheduleOccurrence(c, group, build, log, start);
    FinishSnapshot(group, build, before, log, earlier, finish, l);
  }

  /** What serving a claim makes of its build, the conflicts and the controller. */
  predicate Served(
    input: Spec.Input, claim: Spec.Claim, build: Spec.Build, conflicts: seq<Spec.Conflict>, free: Option<Instant>,
    build1: Spec.Build, conflicts1: seq<Spec.Conflict>, free1: Option<Instant>)
  {
    claim.pending != [] &&
    var l := Spec.LayoutOf(input, build, claim, free);
    && build1 == Spec.Filled(build, l)
    && conflicts1 == conflicts + l.conflicts
    && free1 == if build1.steps != [] && !build1.dropped then Some(Spec.BlockEnd(build1.steps) + input.gap) else free
  }

  /** Lay out the claim's items from the instant at which the controller is free. */
  method ServeGroup(
    input: Spec.Input, claim: Spec.Claim, group: seq<WorkItem>, build: OccurrenceBuild, log: ConflictLog,
    free: Option<Instant>)
    returns (next: Option<Instant>)
    requires Distinct(group) && build.Valid() && Untouched(build.View())
    requires claim.pending != [] && claim.pending == Views(group)
    modifies group, build, log
    ensures build.Valid()
    ensures Served(input, claim, old(build.View()), old(log.entries), free, build.View(), log.entries, next)
  {
    hide Views, Spec.LayOut, Distinct, Untouched, Spec.Filled, Spec.StartCursor, Spec.BlockEnd;
    Fill(Spec.SettingFor(input, build.View()), group, build, log, Spec.StartCursor(claim, free));
    next := if build.steps != [] && !build.dropped then Some(Spec.BlockEnd(build.steps) + input.gap) else free;
  }

  /** Collect the claim's items and serve them; items of other occurrences are left alone. */
  method ServeClaim(
    input: Spec.Input, claim: Spec.Claim, items: seq<WorkItem>, build: OccurrenceBuild, log: ConflictLog,
    free: Option<Instant>)
    returns (next: Option<Instant>)
    requires Distinct(items) && build.Valid() && Untouched(build.View())
    requires claim.pending != [] && claim.pending == Spec.PendingOf(Views(items), claim.occurrence)
    modifies items, build, log
    ensures build.Valid()
    ensures Served(input, claim, old(build.View()), old(log.entries), free, build.View(), log.entries, next)
    ensures forall item :: item in items && item.occurrence != claim.occurrence ==> item.View() == old(item.View())
  {
    hide Views, Spec.PendingOf, Spec.LayoutOf, Spec.BlockEnd, Distinct, Untouched, Spec.Filled;
    var group := GroupOf(items, claim.occurrence);
    next := ServeGroup(input, claim, group, build, log, free);
  }

  lemma {:induction false} PendingFrame(a: seq<Spec.Item>, b: seq<Spec.Item>, id: OccurrenceId)
    requires |a| == |b|
    requires forall k :: 0 <= k < |a| ==> a[k] == b[k] || (a[k].occurrence != id && b[k].occurrence != id)
    ensures Spec.PendingOf(a, id) == Spec.PendingOf(b, id)
  {
    if a != [] { PendingFrame(a[1..], b[1..], id); }
  }

  /** A claim that is still to be served: its items and its build are as they were. */
  predicate Waiting(claim: Spec.Claim, items: seq<Spec.Item>, builds: seq<Spec.Build>) {
    && claim.index < |builds| && claim.pending != []
    && claim.pending == Spec.PendingOf(items, claim.occurrence)
    && Untouched(builds[claim.index])
  }

  predicate AllWaiting(claims: seq<Spec.Claim>, m: nat, items: seq<Spec.Item>, builds: seq<Spec.Build>) {
    forall j :: m <= j < |claims| ==> Waiting(claims[j], items, builds)
  }

  predicate DistinctOccurrences(claims: seq<Spec.Claim>) {
    forall i, j :: 0 <= i < j < |claims| ==>
      claims[i].index != claims[j].index && claims[i].occurrence != claims[j].occurrence
  }

  /** Serving one occurrence leaves the claims of the others as they were. */
  lemma StillWaiting(
    claims: seq<Spec.Claim>, m: nat, items: seq<Spec.Item>, builds: seq<Spec.Build>,
    items1: seq<Spec.Item>, builds1: seq<Spec.Build>)
    requires m < |claims| && DistinctOccurrences(claims) && AllWaiting(claims, m, items, builds)
    requires |items| == |items1| && |builds| == |builds1|
    requires forall k :: 0 <= k < |items| ==>
      items[k] == items1[k] || items[k].occurrence == items1[k].occurrence == claims[m].occurrence
    requires forall i :: 0 <= i < |builds| && i != claims[m].index ==> builds[i] == builds1[i]
    ensures AllWaiting(claims, m + 1, items1, builds1)
  {
    hide Spec.PendingOf, Untouched;
    forall j | m + 1 <= j < |claims| ensures Waiting(claims[j], items1, builds1) {
      assert Waiting(claims[j], items, builds);
      PendingFrame(items, items1, claims[j].occurrence);
    }
  }

  ghost function BoardOf(builds: seq<OccurrenceBuild>, log: ConflictLog, free: Option<Instant>): Spec.Board
    reads builds, log
  {
    Spec.Board(BuildViews(builds), log.entries, free)
  }

  ghost predicate AllValid(builds: seq<OccurrenceBuild>)
    reads builds
  {
    forall i :: 0 <= i < |builds| ==> builds[i].Valid()
  }

  lemma BoardServed(input: Spec.Input, claim: Spec.Claim, b: Spec.Board, r: Spec.Board)
    requires claim.index < |b.builds| == |r.builds|
    requires r.builds == b.builds[claim.index := r.builds[claim.index]]
    requires Served(input, claim, b.builds[claim.index], b.conflicts, b.free,
                    r.builds[claim.index], r.conflicts, r.free)
    ensures claim.pending != [] && r == Spec.ServeClaim(input, claim, b)
  {
    hide Spec.LayoutOf, Spec.BlockEnd, Spec.Filled;
  }

  /** Serve one claim; other builds and the items of other occurrences are left alone. */
  method ServeOnBoard(
    input: Spec.Input, claim: Spec.Claim, items: seq<WorkItem>, builds: seq<OccurrenceBuild>,
    log: ConflictLog, free: Option<Instant>)
    returns (next: Option<Instant>)
    requires Waiting(claim, Views(items), BuildViews(builds)) && AllValid(builds)
    requires Distinct(items) && DistinctObjects(builds)
    modifies items, builds, log
    ensures claim.index < |builds| && claim.pending != []
    ensures BoardOf(builds, log, next) == Spec.ServeClaim(input, claim, old(BoardOf(builds, log, free)))
    ensures forall i :: 0 <= i < |builds| && i != claim.index ==> builds[i].View() == old(builds[i].View())
    ensures forall item :: item in items && item.occurrence != claim.occurrence ==> item.View() == old(item.View())
    ensures AllValid(builds)
  {
    var build := builds[claim.index];
    ghost var board := BoardOf(builds, log, free);
    assert forall i :: 0 <= i < |builds| && i != claim.index ==> builds[i] != build;
    assert Untouched(build.View());
    hide Views, BuildViews, Spec.PendingOf, Untouched, Distinct, DistinctObjects, Spec.ServeClaim, Served;
    next := ServeClaim(input, claim, items, build, log, free);
    BuildViewsUpdated(board.builds, builds, claim.index);
    BoardServed(input, claim, board, BoardOf(builds, log, next));
  }

  method ServeNext(
    input: Spec.Input, claims: seq<Spec.Claim>, m: nat, items: seq<WorkItem>, builds: seq<OccurrenceBuild>,
    log: ConflictLog, free: Option<Instant>)
    returns (next: Option<Instant>)
    requires m < |claims| && DistinctOccurrences(claims)
    requires AllWaiting(claims, m, Views(items), BuildViews(builds)) && AllValid(builds)
    requires Distinct(items) && DistinctObjects(builds)
    modifies items, builds, log
    ensures claims[m].index < |builds| && claims[m].pending != []
    ensures BoardOf(builds, log, next) == Spec.ServeClaim(input, claims[m], old(BoardOf(builds, log, free)))
    ensures AllWaiting(claims, m + 1, Views(items), BuildViews(builds)) && AllValid(builds)
  {
    ghost var itemViews, buildViews := Views(items), BuildViews(builds);
    assert Waiting(claims[m], itemViews, buildViews);
    hide Views, BuildViews, Distinct, DistinctObjects, AllWaiting, Waiting, Spec.ServeClaim, BoardOf, AllValid;
    next := ServeOnBoard(input, claims[m], items, builds, log, free);
    StillWaiting(claims, m, itemViews, buildViews, Views(items), BuildViews(builds));
  }

  lemma StartWaiting(claims: seq<Spec.Claim>, items: seq<Spec.Item>, builds: seq<Spec.Build>)
    requires claims == Spec.Claims(builds, items)
    requires forall i :: 0 <= i < |builds| ==> Untouched(builds[i])
    requires forall i, j :: 0 <= i < j < |builds| ==> builds[i].occurrence.id != builds[j].occurrence.id
    ensures AllWaiting(claims, 0, items, builds) && DistinctOccurrences(claims)
  {
    PlannerTimeline.ClaimsAreClaims(builds, items);
    hide Spec.Claims, Spec.PendingOf, Untouched;
    forall j | 0 <= j < |claims| ensures Waiting(claims[j], items, builds) {
      assert PlannerTimeline.IsClaim(builds, items, claims[j]);
    }
    forall i, j | 0 <= i < j < |claims|
      ensures claims[i].index != claims[j].index && claims[i].occurrence != claims[j].occurrence
    {
      assert PlannerTimeline.IsClaim(builds, items, claims[i]) && PlannerTimeline.IsClaim(builds, items, claims[j]);
    }
  }

  /** Serving the rest of the claims from here leads to the goal. */
  ghost predicate Serving(input: Spec.Input, claims: seq<Spec.Claim>, board: Spec.Board, goal: Spec.Board) {
    Spec.Claimable(claims, |board.builds|) && Spec.ServeAll(input, claims, board) == goal
  }

  lemma {:induction false} ServingNext(
    input: Spec.Input, claims: seq<Spec.Claim>, m: nat, board: Spec.Board, goal: Spec.Board)
    requires m < |claims| && Serving(input, claims[m..], board, goal)
    requires claims[m].index < |board.builds| && claims[m].pending != []
    ensures Serving(input, claims[m + 1..], Spec.ServeClaim(input, claims[m], board), goal)
  {
    assert claims[m..][1..] == claims[m + 1..];
    hide Spec.LayoutOf, Spec.BlockEnd;
  }

  /** Occurrences claim the controller in order; each waits for the blocks before it. */
  method Schedule(input: Spec.Input, items: seq<WorkItem>, builds: seq<OccurrenceBuild>, log: ConflictLog)
    returns (free: Option<Instant>)
    requires Distinct(items) && DistinctObjects(builds) && AllValid(builds)
    requires forall i :: 0 <= i < |builds| ==> Untouched(builds[i].View())
    requires forall i, j :: 0 <= i < j < |builds| ==> builds[i].occurrence.id != builds[j].occurrence.id
    modifies items, builds, log
    ensures AllValid(builds)
    ensures BoardOf(builds, log, free)
      == Spec.Schedule(input, old(BuildViews(builds)), old(Views(items)), old(log.entries))
  {
    var claims := Spec.Claims(BuildViews(builds), Views(items));
    StartWaiting(claims, Views(items), BuildViews(builds));
    free := None;
    ghost var goal := Spec.ServeAll(input, claims, BoardOf(builds, log, free));
    assert goal == Spec.Schedule(input, BuildViews(builds), Views(items), log.entries);
    assert claims[0..] == claims;
    assert Serving(input, claims[0..], BoardOf(builds, log, free), goal);
    hide Views, BuildViews, Spec.Claims, Spec.ServeAll, Spec.ServeClaim, Distinct, DistinctObjects, AllWaiting, BoardOf,
         DistinctOccurrences, Untouched, AllValid, Serving, Spec.Schedule;
    for m := 0 to |claims|
      invariant AllWaiting(claims, m, Views(items), BuildViews(builds)) && AllValid(builds)
      invariant Serving(input, claims[m..], BoardOf(builds, log, free), goal)
    {
      ghost var board := BoardOf(builds, log, free);
      free := ServeNext(input, claims, m, items, builds, log, free);
      ServingNext(input, claims, m, board, goal);
    }
    ServedAll(input, claims[|claims|..], BoardOf(builds, log, free), goal);
  }

  lemma ServedAll(input: Spec.Input, claims: seq<Spec.Claim>, board: Spec.Board, goal: Spec.Board)
    requires claims == [] && Serving(input, claims, board, goal)
    ensures board == goal
  {}
}
