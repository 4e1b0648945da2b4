/** The compiled timeline: nothing is lost, nothing overlaps, and the order of the
    candidates does not matter. */
module PlannerTimeline {
  import opened Domain
  import opened Sorting
  import opened PlannerSpec
  import opened PlannerLayout
  import opened PlannerSchedule

  // ---------------------------------------------------------------------
  // What the planner asks of its input

  predicate DistinctCandidates(candidates: seq<Occurrence>) {
    forall i, j :: 0 <= i < j < |candidates| ==> candidates[i].id != candidates[j].id
  }

  predicate ProperProgram(input: Input, program: Program) {
    forall k :: 0 <= k < |program.zoneSteps| && program.zoneSteps[k].zone in input.zones ==>
      EffectiveSoakMinutes(input.zones[program.zoneSteps[k].zone], program.zoneSteps[k]) >= 0
  }

  predicate ProperInput(input: Input) {
    && input.gap >= 0
    && (forall z :: z in input.zones ==> input.zones[z].id == z)
    && (forall p :: p in input.programs ==> ProperProgram(input, input.programs[p]))
  }

  // ---------------------------------------------------------------------
  // Work items

  /** The zone's own policy for runtimes that are quantised to nothing, or else the controller's. */
  predicate Clamps(input: Input, zone: Zone) {
    match zone.minimumRuntime
    case Some(policy) => policy == ClampToOneMinute
    case None => input.minimumRuntime == ClampToOneMinute
  }

  /** What was computed for the zone, or the runtime of the step or zone to the nearest minute. */
  predicate AdjustedBy(input: Input, id: OccurrenceId, zone: Zone, step: ZoneStep, a: Adjustment) {
    if id in input.adjustments && zone.id in input.adjustments[id] then a == input.adjustments[id][zone.id]
    else
      && a.exact == (match step.baseOverride case Some(base) => base case None => zone.baseRuntime)
      && -0.5 <= a.quantized as real - a.exact <= 0.5
      && (a.quantized as real - a.exact == -0.5 ==> a.exact < 0.0)
      && (a.quantized as real - a.exact == 0.5 ==> a.exact > 0.0)
  }

  /** The step's own limits, or else the zone's. */
  predicate LimitedBy(zone: Zone, step: ZoneStep, it: Item) {
    && (step.maxCycleOverride.Some? ==> it.cycles == AllocateCycles(it.total, step.maxCycleOverride))
    && (step.maxCycleOverride.None? ==> it.cycles == AllocateCycles(it.total, zone.maxCycle))
    && (step.soakOverride.Some? ==> it.soak == 60 * step.soakOverride.value)
    && (step.soakOverride.None? && zone.minimumSoak.Some? ==> it.soak == 60 * zone.minimumSoak.value)
    && (step.soakOverride.None? && zone.minimumSoak.None? ==> it.soak == 0)
  }

  /** The minutes a zone gets: its quantised runtime, capped; a positive runtime that is
      quantised to nothing counts as one minute where the minimum is clamped. */
  predicate MinutesWanted(input: Input, zone: Zone, adjustment: Adjustment, total: nat) {
    || (0 < adjustment.quantized <= MAX_COMMAND_MINUTES && total == adjustment.quantized)
    || (adjustment.quantized > MAX_COMMAND_MINUTES && total == MAX_COMMAND_MINUTES)
    || (adjustment.quantized <= 0 && total == 1
        && adjustment.exact > 0.0 && Clamps(input, zone))
  }

  /** Nothing to water: the runtime is quantised to nothing and the minimum not clamped. */
  predicate BelowTheMinimum(input: Input, zone: Zone, adjustment: Adjustment) {
    adjustment.quantized <= 0
    && (adjustment.exact <= 0.0 || !Clamps(input, zone))
  }

  /** What becomes of a zone step: an untouched work item for all the minutes wanted, in
      cycles within the maximum; or a skip, with its reason. */
  predicate PreparedAs(input: Input, occurrence: Occurrence, step: ZoneStep, r: Prepared) {
    if step.zone !in input.zones then r == Skip(SkippedZone(step.zone, SourceUnavailable))
    else
      var zone := input.zones[step.zone];
      var adjustment := AdjustmentFor(input, occurrence.id, zone, step);
      if !step.enabled || !zone.enabled then r == Skip(SkippedZone(step.zone, ZoneDisabled))
      else if BelowTheMinimum(input, zone, adjustment) then r == Skip(SkippedZone(step.zone, BelowResolution))
      else r.Work? && MinutesWanted(input, zone, adjustment, r.item.total)
           && LimitedBy(zone, step, r.item) && r.item.position == step.position
           && AdjustedBy(input, occurrence.id, zone, step, adjustment)
  }

  /** A work item waters the whole total of its zone, starting out untouched. */
  lemma ItemIsFresh(input: Input, occurrence: Occurrence, step: ZoneStep)
    requires ProperInput(input)
    requires step.zone in input.zones ==> EffectiveSoakMinutes(input.zones[step.zone], step) >= 0
    ensures var r := BuildWorkItem(input, occurrence, step);
      && (r.Work? ==>
            && FreshItem(r.item) && r.item.occurrence == occurrence.id && r.item.zone == step.zone
            && r.item.requested == occurrence.start + step.requestedOffset
            && 1 <= r.item.total <= MAX_COMMAND_MINUTES)
      && (r.Skip? ==> r.zone.zone == step.zone)
      && PreparedAs(input, occurrence, step, r)
  {
    if step.zone in input.zones {
      var zone := input.zones[step.zone];
      var total := TotalMinutes(input, zone, AdjustmentFor(input, occurrence.id, zone, step));
      if total > 0 { CyclesConserveAndBalance(total, EffectiveMaxCycle(zone, step)); }
      TotalIsWanted(input, zone, AdjustmentFor(input, occurrence.id, zone, step));
      AdjustmentMeans(input, occurrence.id, zone, step);
      assert BuildWorkItem(input, occurrence, step).Work? ==>
        LimitedBy(zone, step, BuildWorkItem(input, occurrence, step).item) by {
        hide TotalMinutes, AllocateCycles, AdjustmentFor;
      }
      hide LimitedBy, AdjustedBy;
      hide TotalMinutes, MinutesWanted, BelowTheMinimum, AllocateCycles, Minutes, AdjustmentFor, EffectiveSoakMinutes,
           EffectiveMaxCycle;
    }
  }

  lemma AdjustmentMeans(input: Input, id: OccurrenceId, zone: Zone, step: ZoneStep)
    ensures AdjustedBy(input, id, zone, step, AdjustmentFor(input, id, zone, step))
  {
    QuantizeNearest(EffectiveBaseRuntime(zone, step));
    hide Quantize;
  }

  lemma TotalIsWanted(input: Input, zone: Zone, adjustment: Adjustment)
    ensures var total := TotalMinutes(input, zone, adjustment);
      && (total == 0 <==> BelowTheMinimum(input, zone, adjustment))
      && (total > 0 ==> MinutesWanted(input, zone, adjustment, total))
  {}

  /** The same condition, independent of the order of the steps. */
  ghost predicate ProperSteps(input: Input, steps: seq<ZoneStep>) {
    forall a :: a in steps && a.zone in input.zones ==> EffectiveSoakMinutes(input.zones[a.zone], a) >= 0
  }

  lemma OrderedStepsProper(input: Input, program: Program)
    requires ProperProgram(input, program)
    ensures ProperSteps(input, StepsInOrder(program))
  {
    SortPermutes(BY_POSITION, program.zoneSteps);
    hide Sort, EffectiveSoakMinutes;
  }

  ghost predicate FromSteps(occurrence: Occurrence, items: seq<Item>, steps: seq<ZoneStep>) {
    forall k :: 0 <= k < |items| ==> ItemFrom(occurrence, items[k], steps)
  }

  ghost predicate ItemFrom(occurrence: Occurrence, it: Item, steps: seq<ZoneStep>) {
    && FreshItem(it) && it.occurrence == occurrence.id && it.total <= MAX_COMMAND_MINUTES
    && exists s :: s in steps && s.zone == it.zone && it.requested == occurrence.start + s.requestedOffset
  }

  lemma {:induction false} ItemsAreFresh(input: Input, occurrence: Occurrence, steps: seq<ZoneStep>)
    requires ProperInput(input) && ProperSteps(input, steps)
    ensures var items := ItemsOf(input, occurrence, steps);
      FromSteps(occurrence, items, steps) && FreshItems(items)
  {
    if steps != [] {
      var rest := ItemsOf(input, occurrence, steps[1..]);
      assert ProperSteps(input, steps[1..]) by { hide EffectiveSoakMinutes, ProperInput; }
      ItemsAreFresh(input, occurrence, steps[1..]);
      assert steps[0] in steps;
      ItemIsFresh(input, occurrence, steps[0]);
      ItemsCons(input, occurrence, steps);
    } else {
      assert ItemsOf(input, occurrence, steps) == [];
    }
  }

  lemma {:induction false} ItemsCons(input: Input, occurrence: Occurrence, steps: seq<ZoneStep>)
    requires steps != [] && ProperSteps(input, steps)
    requires var rest := ItemsOf(input, occurrence, steps[1..]);
      FromSteps(occurrence, rest, steps[1..]) && FreshItems(rest)
    requires var r := BuildWorkItem(input, occurrence, steps[0]);
      r.Work? ==>
        && FreshItem(r.item) && r.item.occurrence == occurrence.id && r.item.zone == steps[0].zone
        && r.item.requested == occurrence.start + steps[0].requestedOffset && r.item.total <= MAX_COMMAND_MINUTES
    ensures var items := ItemsOf(input, occurrence, steps);
      FromSteps(occurrence, items, steps) && FreshItems(items)
  {
    var rest := ItemsOf(input, occurrence, steps[1..]);
    var first := BuildWorkItem(input, occurrence, steps[0]);
    var items := ItemsOf(input, occurrence, steps);
    hide BuildWorkItem, FreshItem, EffectiveSoakMinutes;
    forall k | 0 <= k < |rest| ensures ItemFrom(occurrence, rest[k], steps) {
      assert ItemFrom(occurrence, rest[k], steps[1..]);
    }
    if first.Work? {
      assert steps[0] in steps;
      assert ItemFrom(occurrence, first.item, steps);
      assert items == [first.item] + rest;
    } else {
      assert items == rest;
    }
  }

  // Repeated requests matter to the numbering of cycles alone

  predicate SameRequest(a: ZoneStep, b: ZoneStep) { a.zone == b.zone && a.requestedOffset == b.requestedOffset }

  /** No zone is listed twice at the same offset. */
  predicate DistinctZoneRequests(steps: seq<ZoneStep>) {
    forall i, j :: 0 <= i < j < |steps| ==> !SameRequest(steps[i], steps[j])
  }

  lemma {:induction false} DistinctSteps(program: Program)
    requires DistinctZoneRequests(program.zoneSteps)
    ensures DistinctZoneRequests(StepsInOrder(program))
  {
    var steps := program.zoneSteps;
    assert NoDuplicates(steps) by {
      forall i, j | 0 <= i < j < |steps| ensures steps[i] != steps[j] { assert !SameRequest(steps[i], steps[j]); }
    }
    SortNoDuplicates(BY_POSITION, steps);
    SortPermutes(BY_POSITION, steps);
    var s := StepsInOrder(program);
    hide Sort;
    forall i, j | 0 <= i < j < |s| ensures !SameRequest(s[i], s[j]) {
      assert s[i] in steps && s[j] in steps && s[i] != s[j];
    }
  }

  lemma {:induction false} DistinctItems(input: Input, occurrence: Occurrence, steps: seq<ZoneStep>)
    requires ProperInput(input) && ProperSteps(input, steps) && DistinctZoneRequests(steps)
    ensures DistinctRequests(ItemsOf(input, occurrence, steps))
  {
    if steps != [] {
      var rest := ItemsOf(input, occurrence, steps[1..]);
      var first := BuildWorkItem(input, occurrence, steps[0]);
      var items := ItemsOf(input, occurrence, steps);
      assert ProperSteps(input, steps[1..]) && steps[0] in steps;
      ItemIsFresh(input, occurrence, steps[0]);
      ItemsAreFresh(input, occurrence, steps[1..]);
      DistinctItems(input, occurrence, steps[1..]);
      hide BuildWorkItem, FreshItem, EffectiveSoakMinutes, ProperInput, PreparedAs;
      if first.Work? {
        forall k | 0 <= k < |rest|
          ensures first.item.zone != rest[k].zone || first.item.requested != rest[k].requested
        {
          assert ItemFrom(occurrence, rest[k], steps[1..]);
          var s :| s in steps[1..] && s.zone == rest[k].zone
            && rest[k].requested == occurrence.start + s.requestedOffset;
          assert !SameRequest(steps[0], s);
        }
        assert items == [first.item] + rest;
      } else {
        assert items == rest;
      }
    }
  }

  function AtPosition(position: int, steps: seq<ZoneStep>): seq<ZoneStep> {
    Among((z: ZoneStep) => z.position == position, steps)
  }

  /** The zone steps of a program are taken by position, and in the order listed where
      positions are the same. */
  lemma ZonesInOrder(program: Program, position: int)
    ensures var listed: seq<ZoneStep> := program.zoneSteps;
      var s: seq<ZoneStep> := StepsInOrder(program);
      && multiset(s) == multiset(listed)
      && (forall i, j :: 0 <= i < j < |s| ==> s[i].position <= s[j].position)
      && AtPosition(position, s) == AtPosition(position, listed)
  {
    SortPermutes(BY_POSITION, program.zoneSteps);
    assert TotalPreorder(BY_POSITION);
    SortSorts(BY_POSITION, program.zoneSteps);
    SortStable(BY_POSITION, (z: ZoneStep) => z.position == position, program.zoneSteps);
    hide Sort;
    var s := StepsInOrder(program);
    forall i, j | 0 <= i < j < |s| ensures s[i].position <= s[j].position { assert BY_POSITION(s[i], s[j]); }
  }

  // ---------------------------------------------------------------------
  // Preparation

  lemma {:induction false} PendingAppend(a: seq<Item>, b: seq<Item>, id: OccurrenceId)
    ensures PendingOf(a + b, id) == PendingOf(a, id) + PendingOf(b, id)
  {
    if a == [] {
      assert a + b == b;
    } else {
      hide Left;
      PendingAppend(a[1..], b, id);
      assert (a + b)[1..] == a[1..] + b && (a + b)[0] == a[0];
    }
  }

  lemma {:induction false} PendingAll(items: seq<Item>, id: OccurrenceId)
    requires forall k :: 0 <= k < |items| ==> Left(items[k]) && items[k].occurrence == id
    ensures PendingOf(items, id) == items
  {
    if items != [] {
      PendingAll(items[1..], id);
      assert items == [items[0]] + items[1..];
    }
  }

  lemma {:induction false} PendingNone(items: seq<Item>, id: OccurrenceId)
    requires forall k :: 0 <= k < |items| ==> items[k].occurrence != id
    ensures PendingOf(items, id) == []
  {
    if items != [] { PendingNone(items[1..], id); }
  }

  /** The work items of one candidate. */
  function WorkOf(input: Input, occurrence: Occurrence): seq<Item>
    requires Runnable(input, occurrence)
  {
    ItemsOf(input, occurrence, StepsInOrder(input.programs[occurrence.program]))
  }

  lemma WorkIsFresh(input: Input, occurrence: Occurrence)
    requires ProperInput(input) && Runnable(input, occurrence)
    ensures FreshItems(WorkOf(input, occurrence))
    ensures forall k :: 0 <= k < |WorkOf(input, occurrence)| ==>
      Left(WorkOf(input, occurrence)[k]) && WorkOf(input, occurrence)[k].occurrence == occurrence.id
  {
    var program := input.programs[occurrence.program];
    OrderedStepsProper(input, program);
    ItemsAreFresh(input, occurrence, StepsInOrder(program));
    hide ItemsOf, StepsInOrder;
    forall k | 0 <= k < |WorkOf(input, occurrence)|
      ensures Left(WorkOf(input, occurrence)[k]) && WorkOf(input, occurrence)[k].occurrence == occurrence.id
    {
      assert ItemFrom(occurrence, WorkOf(input, occurrence)[k], StepsInOrder(program));
    }
  }

  /** Every work item is that of one of the zone steps. */
  lemma {:induction false} ItemSource(input: Input, occurrence: Occurrence, steps: seq<ZoneStep>, k: nat)
    requires k < |ItemsOf(input, occurrence, steps)|
    ensures exists z :: z in steps && BuildWorkItem(input, occurrence, z) == Work(ItemsOf(input, occurrence, steps)[k])
  {
    var first := BuildWorkItem(input, occurrence, steps[0]);
    hide BuildWorkItem;
    assert steps[0] in steps;
    if first.Work? {
      if k > 0 { ItemSource(input, occurrence, steps[1..], k - 1); }
    } else {
      ItemSource(input, occurrence, steps[1..], k);
    }
  }

  /** A program that lists no zone twice at one offset yields distinct requests. */
  lemma WorkIsDistinct(input: Input, occurrence: Occurrence)
    requires ProperInput(input) && Runnable(input, occurrence)
    requires DistinctZoneRequests(input.programs[occurrence.program].zoneSteps)
    ensures DistinctRequests(WorkOf(input, occurrence))
  {
    var program := input.programs[occurrence.program];
    OrderedStepsProper(input, program);
    DistinctSteps(program);
    DistinctItems(input, occurrence, StepsInOrder(program));
  }

  /** The builds are those of the runnable candidates, in order, with the items of each. */
  ghost predicate PreparedFor(input: Input, candidates: seq<Occurrence>, p: Prelude) {
    && (forall i :: 0 <= i < |p.builds| ==> BuildPrepared(input, candidates, p, p.builds[i]))
    && (forall i, j :: 0 <= i < j < |p.builds| ==> p.builds[i].occurrence.id != p.builds[j].occurrence.id)
  }

  ghost predicate BuildPrepared(input: Input, candidates: seq<Occurrence>, p: Prelude, b: Build) {
    && b.occurrence in candidates && Runnable(input, b.occurrence) && b == BuildFor(input, b.occurrence)
    && PendingOf(p.items, b.occurrence.id) == WorkOf(input, b.occurrence)
  }

  lemma {:induction false} ItemsFromCandidates(input: Input, candidates: seq<Occurrence>, id: OccurrenceId)
    requires ProperInput(input) && forall k :: 0 <= k < |candidates| ==> candidates[k].id != id
    ensures PendingOf(Prepare(input, candidates).items, id) == []
  {
    if candidates != [] {
      var first := candidates[0];
      ItemsFromCandidates(input, candidates[1..], id);
      if Runnable(input, first) {
        WorkIsFresh(input, first);
        PendingNone(WorkOf(input, first), id);
        PendingAppend(WorkOf(input, first), Prepare(input, candidates[1..]).items, id);
      }
    }
  }

  lemma {:induction false} PreparedRight(input: Input, candidates: seq<Occurrence>)
    requires ProperInput(input) && DistinctCandidates(candidates)
    ensures PreparedFor(input, candidates, Prepare(input, candidates))
  {
    if candidates != [] {
      PreparedRight(input, candidates[1..]);
      PreparedCons(input, candidates);
    }
  }

  lemma {:induction false} PreparedCons(input: Input, candidates: seq<Occurrence>)
    requires ProperInput(input) && DistinctCandidates(candidates) && candidates != []
    requires PreparedFor(input, candidates[1..], Prepare(input, candidates[1..]))
    ensures PreparedFor(input, candidates, Prepare(input, candidates))
  {
    var first, rest, p := candidates[0], Prepare(input, candidates[1..]), Prepare(input, candidates);
    hide BuildPrepared, BuildFor, ItemsOf, SkipsOf, StepsInOrder, ProperInput;
    forall i | 0 <= i < |rest.builds|
      ensures BuildPrepared(input, candidates, p, rest.builds[i]) && rest.builds[i].occurrence.id != first.id
    {
      PreparedLater(input, candidates, rest.builds[i]);
    }
    if Runnable(input, first) {
      PreparedFirst(input, candidates);
      assert p.builds == [p.builds[0]] + rest.builds;
    } else {
      assert p.builds == rest.builds;
    }
  }

  lemma {:induction false} PreparedFirst(input: Input, candidates: seq<Occurrence>)
    requires ProperInput(input) && DistinctCandidates(candidates) && candidates != [] && Runnable(input, candidates[0])
    ensures var p := Prepare(input, candidates);
      p.builds != [] && p.builds[0].occurrence == candidates[0] && BuildPrepared(input, candidates, p, p.builds[0])
  {
    var first, rest := candidates[0], Prepare(input, candidates[1..]);
    ItemsFromCandidates(input, candidates[1..], first.id);
    PendingAppend(WorkOf(input, first), rest.items, first.id);
    WorkIsFresh(input, first);
    PendingAll(WorkOf(input, first), first.id);
  }

  lemma {:induction false} PreparedLater(input: Input, candidates: seq<Occurrence>, b: Build)
    requires ProperInput(input) && DistinctCandidates(candidates) && candidates != []
    requires BuildPrepared(input, candidates[1..], Prepare(input, candidates[1..]), b)
    ensures BuildPrepared(input, candidates, Prepare(input, candidates), b) && b.occurrence.id != candidates[0].id
  {
    var first, rest := candidates[0], Prepare(input, candidates[1..]);
    assert first.id != b.occurrence.id;
    if Runnable(input, first) {
      WorkIsFresh(input, first);
      PendingNone(WorkOf(input, first), b.occurrence.id);
      PendingAppend(WorkOf(input, first), rest.items, b.occurrence.id);
    }
  }

  // ---------------------------------------------------------------------
  // Claims

  function ClaimFor(builds: seq<Build>, items: seq<Item>, i: nat): Claim
    requires i < |builds|
  {
    var b := builds[i];
    Claim(i, PendingOf(items, b.occurrence.id), b.program.priority, b.occurrence.createdAt, b.occurrence.id)
  }

  predicate IsClaim(builds: seq<Build>, items: seq<Item>, c: Claim) {
    c.index < |builds| && c == ClaimFor(builds, items, c.index) && c.pending != []
  }

  lemma {:induction false} ClaimsFromRight(builds: seq<Build>, items: seq<Item>, i: nat)
    requires i <= |builds|
    ensures var r := ClaimsFrom(builds, items, i);
      && (forall k :: 0 <= k < |r| ==> IsClaim(builds, items, r[k]))
      && NoDuplicates(r)
    decreases |builds| - i
  {
    if i < |builds| {
      ClaimsFromRight(builds, items, i + 1);
      hide PendingOf;
    }
  }

  lemma ClaimsAreClaims(builds: seq<Build>, items: seq<Item>)
    ensures var r := Claims(builds, items);
      && (forall k :: 0 <= k < |r| ==> IsClaim(builds, items, r[k]))
      && DistinctIndexes(r)
  {
    var claims := ClaimsFrom(builds, items, 0);
    ClaimsFromRight(builds, items, 0);
    SortNoDuplicates(BY_CLAIM, claims);
    SortKeepsElements(claims);
    var r := Claims(builds, items);
    hide Sort, ClaimFor, ClaimLeq, ClaimsFrom;
    forall k | 0 <= k < |r| ensures IsClaim(builds, items, r[k]) { assert r[k] in claims; }
  }

  lemma ClaimsAreGood(input: Input, candidates: seq<Occurrence>, p: Prelude)
    requires ProperInput(input) && PreparedFor(input, candidates, p)
    ensures GoodClaims(Claims(p.builds, p.items), p.builds)
  {
    ClaimsAreClaims(p.builds, p.items);
    var r := Claims(p.builds, p.items);
    hide Claims, FreshItems, ProperInput;
    forall k | 0 <= k < |r| ensures r[k].index < |p.builds| && GoodClaim(r[k]) {
      assert IsClaim(p.builds, p.items, r[k]);
      assert BuildPrepared(input, candidates, p, p.builds[r[k].index]);
      WorkIsFresh(input, p.builds[r[k].index].occurrence);
    }
  }

  /** Claim a comes first: by earliest request, then priority, then creation, then id. */
  predicate ServedFirst(a: Claim, b: Claim)
    requires a.pending != [] && b.pending != []
  {
    var x, y := EarliestRequest(a.pending), EarliestRequest(b.pending);
    || x < y
    || (x == y && a.priority < b.priority)
    || (x == y && a.priority == b.priority && a.createdAt < b.createdAt)
    || (x == y && a.priority == b.priority && a.createdAt == b.createdAt && a.occurrence <= b.occurrence)
  }

  /** Claims are served in order of earliest request, priority, creation and id. */
  lemma ClaimsSorted(builds: seq<Build>, items: seq<Item>, i: nat, j: nat)
    requires i < j < |Claims(builds, items)|
    ensures ServedFirst(Claims(builds, items)[i], Claims(builds, items)[j])
  {
    var claims := Claims(builds, items);
    ClaimLess(claims[i], claims[j]);
    ClaimOrder();
    SortSorts(BY_CLAIM, ClaimsFrom(builds, items, 0));
    hide ClaimLeq, Sort, ClaimsFrom;
    assert BY_CLAIM(claims[i], claims[j]);
  }

  lemma ClaimLess(a: Claim, b: Claim)
    requires a.pending != [] && b.pending != []
    ensures BY_CLAIM(a, b) ==> ServedFirst(a, b)
  {
    hide EarliestRequest;
  }

  lemma ClaimOrder()
    ensures TotalPreorder(BY_CLAIM)
  {
    hide EarliestRequest;
    assert forall a, b :: BY_CLAIM(a, b) <==> ClaimLeq(a, b);
  }

  // ---------------------------------------------------------------------
  // What scheduling and the checks leave alone

  lemma {:induction false} ServeKeeps(input: Input, claims: seq<Claim>, b: Board, i: nat)
    requires Claimable(claims, |b.builds|) && i < |b.builds|
    ensures var r := ServeAll(input, claims, b);
      r.builds[i].occurrence == b.builds[i].occurrence && r.builds[i].program == b.builds[i].program
    decreases |claims|
  {
    if claims != [] {
      ServeKeeps(input, claims[1..], ServeClaim(input, claims[0], b), i);
      hide LayoutOf, BlockEnd, Untag;
    }
  }

  predicate AllAfter(steps: seq<RunStep>, t: Instant) { forall k :: 0 <= k < |steps| ==> steps[k].plannedStart > t }

  /** A run that may not be late starts later than the tolerance after one of its requests. */
  predicate StartsTooLate(input: Input, build: Build) {
    && build.steps != [] && build.program.missedRun == SkipMissed
    && exists q :: 0 <= q < |build.steps| &&
         AllAfter(build.steps, build.steps[q].requestedStart + 60 * input.toleranceMinutes)
  }

  lemma TooLateMeans(input: Input, build: Build)
    ensures TooLate(input, build) <==> StartsTooLate(input, build)
  {
    if build.steps != [] {
      var request := EarliestRequested(build.steps);
      var q :| 0 <= q < |build.steps| && request == build.steps[q].requestedStart;
      forall t ensures AllAfter(build.steps, t) <==> BlockStart(build.steps) > t { StartMeans(build.steps, t); }
      assert forall k :: 0 <= k < |build.steps| ==> request <= build.steps[k].requestedStart;
      hide BlockStart, EarliestRequested, AllAfter;
      assert AllAfter(build.steps, request + 60 * input.toleranceMinutes) ==>
        AllAfter(build.steps, build.steps[q].requestedStart + 60 * input.toleranceMinutes);
    }
  }

  lemma StartMeans(steps: seq<RunStep>, t: Instant)
    requires steps != []
    ensures AllAfter(steps, t) <==> BlockStart(steps) > t
  {
    var k :| 0 <= k < |steps| && BlockStart(steps) == steps[k].plannedStart;
  }

  /** Exactly the runs that start too late are dropped, each with a conflict that says so. */
  lemma {:induction false} LatenessDrops(input: Input, builds: seq<Build>, i: nat)
    requires i < |builds|
    ensures var (kept, missed) := EnforceLateness(input, builds);
      && kept[i] == (if StartsTooLate(input, builds[i]) then builds[i].(steps := [], dropped := true) else builds[i])
      && (StartsTooLate(input, builds[i]) ==>
            Conflict(builds[i].occurrence.id, builds[i].program.id, None, MissedTolerance) in missed)
  {
    TooLateMeans(input, builds[i]);
    hide TooLate, StartsTooLate;
    if i > 0 { LatenessDrops(input, builds[1..], i - 1); }
  }

  /** The builds after scheduling and lateness, as the detector sees them. */
  function OnTime(input: Input, candidates: seq<Occurrence>): seq<Build> {
    EnforceLateness(input, Scheduled(input, candidates).builds).0
  }

  ghost predicate SameRun(a: Build, b: Build) { a.occurrence == b.occurrence && a.program == b.program }

  lemma {:induction false} CandidatesSorted(candidates: seq<Occurrence>)
    requires DistinctCandidates(candidates)
    ensures var s := Sort(BY_REQUEST, candidates);
      && DistinctCandidates(s)
      && (forall o :: o in s <==> o in candidates)
      && SortedBy(BY_REQUEST, s)
  {
    var s := Sort(BY_REQUEST, candidates);
    SortPermutes(BY_REQUEST, candidates);
    SortSorts(BY_REQUEST, candidates);
    SortNoDuplicates(BY_REQUEST, candidates);
    hide Sort;
    forall i, j | 0 <= i < j < |s| ensures s[i].id != s[j].id {
      assert s[i] != s[j] && s[i] in candidates && s[j] in candidates;
    }
  }

  /** Scheduling yields a serial plan with the builds of the runnable candidates. */
  lemma {:induction false} ScheduledIsSerial(input: Input, candidates: seq<Occurrence>)
    requires ProperInput(input) && DistinctCandidates(candidates)
    ensures var builds := Scheduled(input, candidates).builds;
      && SerialPlan(input.gap, builds)
      && |builds| == |Prepare(input, Sort(BY_REQUEST, candidates)).builds|
      && forall i :: 0 <= i < |builds| ==> SameRun(builds[i], Prepare(input, Sort(BY_REQUEST, candidates)).builds[i])
  {
    CandidatesSorted(candidates);
    var s := Sort(BY_REQUEST, candidates);
    var p := Prepare(input, s);
    var b := Board(p.builds, p.conflicts, None);
    var claims := Claims(p.builds, p.items);
    PreparedRight(input, s);
    ClaimsAreGood(input, s, p);
    assert forall i :: 0 <= i < |p.builds| ==> p.builds[i].steps == [] by {
      forall i | 0 <= i < |p.builds| ensures p.builds[i].steps == [] {
        assert BuildPrepared(input, s, p, p.builds[i]);
      }
    }
    hide Sort, Prepare, Claims, ServeAll, GoodClaims, SerialPlan, PreparedFor;
    ServedPlanIsSerial(input, claims, b);
    forall i | 0 <= i < |p.builds| ensures SameRun(ServeAll(input, claims, b).builds[i], p.builds[i]) {
      ServeKeeps(input, claims, b, i);
    }
  }

  lemma {:induction false} OnTimeSerial(input: Input, builds: seq<Build>)
    requires SerialPlan(input.gap, builds)
    ensures SerialPlan(input.gap, EnforceLateness(input, builds).0)
    ensures forall i :: 0 <= i < |builds| ==> SameRun(EnforceLateness(input, builds).0[i], builds[i])
  {
    var r := EnforceLateness(input, builds).0;
    forall i | 0 <= i < |builds| ensures r[i] == builds[i] || r[i] == Withheld(builds[i]) {
      LatenessDrops(input, builds, i);
    }
    hide EnforceLateness;
    forall i, j | 0 <= i < j < |builds| ensures ApartEitherWay(input.gap, r[i], r[j]) {
      assert ApartEitherWay(input.gap, builds[i], builds[j]);
    }
  }

  lemma SerialPlanIsSerial(gap: int, builds: seq<Build>)
    requires gap >= 0 && SerialPlan(gap, builds)
    ensures Serial(gap, builds)
    ensures forall i :: 0 <= i < |builds| ==> Sort(BY_START, builds[i].steps) == builds[i].steps
  {
    forall i | 0 <= i < |builds| ensures Sort(BY_START, builds[i].steps) == builds[i].steps {
      var s := builds[i].steps;
      assert SortedBy(BY_START, s) by {
        forall j, k | 0 <= j < k < |s| ensures BY_START(s[j], s[k]) { assert s[j].plannedStart < s[j].plannedEnd; }
      }
      SortIdentity(BY_START, s);
    }
    hide Sort, Apart, InSeries;
  }

  // ---------------------------------------------------------------------
  // The detector withholds nothing that the scheduler produced

  lemma OnTimeIsProper(input: Input, candidates: seq<Occurrence>)
    requires ProperInput(input) && DistinctCandidates(candidates)
    ensures var builds := OnTime(input, candidates);
      && SerialPlan(input.gap, builds) && DistinctBuilds(builds)
      && SortedBy(BY_BUILD_REQUEST, builds)
  {
    ScheduledIsSerial(input, candidates);
    CandidatesSorted(candidates);
    var s := Sort(BY_REQUEST, candidates);
    var p := Prepare(input, s);
    var scheduled := Scheduled(input, candidates).builds;
    OnTimeSerial(input, scheduled);
    PreparedRight(input, s);
    PrepareSorted(input, s);
    hide Sort, Prepare, Scheduled, EnforceLateness, SerialPlan, BuildPrepared, OccurrenceLeq;
    var builds := OnTime(input, candidates);
    assert builds == EnforceLateness(input, scheduled).0;
    forall i | 0 <= i < |builds| ensures builds[i].occurrence == p.builds[i].occurrence {
      assert SameRun(builds[i], scheduled[i]) && SameRun(scheduled[i], p.builds[i]);
    }
    forall i, j | 0 <= i < j < |builds| ensures BY_BUILD_REQUEST(builds[i], builds[j]) {
      assert BY_BUILD_REQUEST(p.builds[i], p.builds[j]);
    }
  }

  lemma {:induction false} PrepareSorted(input: Input, candidates: seq<Occurrence>)
    requires SortedBy(BY_REQUEST, candidates)
    ensures SortedBy(BY_BUILD_REQUEST, Prepare(input, candidates).builds)
    ensures forall i :: 0 <= i < |Prepare(input, candidates).builds| ==>
      Prepare(input, candidates).builds[i].occurrence in candidates
  {
    if candidates != [] {
      PrepareSorted(input, candidates[1..]);
      var first, rest, p := candidates[0], Prepare(input, candidates[1..]), Prepare(input, candidates);
      hide ItemsOf, SkipsOf, StepsInOrder, OccurrenceLeq;
      forall i | 0 <= i < |rest.builds| ensures BY_REQUEST(first, rest.builds[i].occurrence) {
        var k :| 0 <= k < |candidates[1..]| && candidates[1..][k] == rest.builds[i].occurrence;
        assert candidates[k + 1] == rest.builds[i].occurrence;
      }
      if Runnable(input, first) { assert p.builds == [p.builds[0]] + rest.builds && p.builds[0].occurrence == first; }
    }
  }

  /** The collision detector withholds nothing, and the last two sorts change nothing. */
  lemma NothingWithheld(input: Input, candidates: seq<Occurrence>)
    requires ProperInput(input) && DistinctCandidates(candidates)
    ensures DetectCollisions(input.gap, OnTime(input, candidates)) == (OnTime(input, candidates), [])
    ensures Sort(BY_BUILD_REQUEST, OnTime(input, candidates)) == OnTime(input, candidates)
    ensures forall i :: 0 <= i < |OnTime(input, candidates)| ==>
      Sort(BY_START, OnTime(input, candidates)[i].steps) == OnTime(input, candidates)[i].steps
  {
    var builds := OnTime(input, candidates);
    OnTimeIsProper(input, candidates);
    hide OnTime, Sort, DetectCollisions, Refused, InSeries, Apart;
    SerialPlanIsSerial(input.gap, builds);
    DetectorExact(input.gap, builds);
    SortIdentity(BY_BUILD_REQUEST, builds);
  }

  lemma {:induction false} CompiledRuns(input: Input, candidates: seq<Occurrence>)
    requires ProperInput(input) && DistinctCandidates(candidates)
    ensures var timeline := CompileTimeline(input, candidates);
      && timeline.runs == Runs(OnTime(input, candidates))
      && timeline.conflicts == Scheduled(input, candidates).conflicts
                               + EnforceLateness(input, Scheduled(input, candidates).builds).1
  {
    NothingWithheld(input, candidates);
    hide Sort, DetectCollisions, Scheduled, EnforceLateness, Runs;
  }

  // ---------------------------------------------------------------------
  // The timeline holds every build that is not empty

  /** The run of a build: its steps as they are, with what was skipped. */
  predicate IsRunOf(run: (RunPlan, seq<SkippedZone>), b: Build) {
    && run.0.occurrence == b.occurrence.id && run.0.program == b.program.id
    && run.0.requestedStart == b.occurrence.start && run.0.steps == b.steps && run.1 == b.skipped
  }

  /** The runs of the timeline are those of the builds on time, but for the ones that were dropped
      before anything was planned or skipped. */
  lemma RunsAreBuilds(input: Input, candidates: seq<Occurrence>, i: nat, run: (RunPlan, seq<SkippedZone>))
    requires ProperInput(input) && DistinctCandidates(candidates) && i < |OnTime(input, candidates)|
    ensures var (b, runs) := (OnTime(input, candidates)[i], CompileTimeline(input, candidates).runs);
      && (IsRunOf(run, b) ==> (run in runs <==> !b.dropped || b.steps != [] || b.skipped != []))
      && (run in runs && run.0.occurrence == b.occurrence.id ==> IsRunOf(run, b))
  {
    var builds := OnTime(input, candidates);
    CompiledRuns(input, candidates);
    NothingWithheld(input, candidates);
    OnTimeIsProper(input, candidates);
    RunsElements(builds);
    forall j | 0 <= j < |builds| ensures IsRunOf(FinalizeRun(builds[j]), builds[j]) {}
    hide CompileTimeline, OnTime, Sort, Runs, DetectCollisions, SerialPlan, FinalizeRun;
    if run in Runs(builds) && run.0.occurrence == builds[i].occurrence.id {
      var j :| 0 <= j < |builds| && !DroppedEntirely(builds[j]) && run == FinalizeRun(builds[j]);
      assert builds[j].occurrence.id == builds[i].occurrence.id;
      assert j == i;
    }
    if IsRunOf(run, builds[i]) { assert run == FinalizeRun(builds[i]); }
  }

  // ---------------------------------------------------------------------
  // The timeline is serial

  predicate RunsApart(gap: int, a: RunPlan, b: RunPlan) { Apart(gap, a.steps, b.steps) || Apart(gap, b.steps, a.steps) }

  ghost predicate SerialRuns(gap: int, runs: seq<(RunPlan, seq<SkippedZone>)>) {
    && (forall i :: 0 <= i < |runs| ==> InSeries(gap, runs[i].0.steps))
    && (forall i, j :: 0 <= i < j < |runs| ==> RunsApart(gap, runs[i].0, runs[j].0))
  }

  lemma {:induction false} RunsElements(builds: seq<Build>)
    ensures forall r :: r in Runs(builds) ==>
      exists i :: 0 <= i < |builds| && !DroppedEntirely(builds[i]) && r == FinalizeRun(builds[i])
    ensures forall i :: 0 <= i < |builds| && !DroppedEntirely(builds[i]) ==> FinalizeRun(builds[i]) in Runs(builds)
  {
    if builds != [] {
      RunsElements(builds[1..]);
      hide FinalizeRun, DroppedEntirely;
      forall r | r in Runs(builds)
        ensures exists i :: 0 <= i < |builds| && !DroppedEntirely(builds[i]) && r == FinalizeRun(builds[i])
      {
        if r in Runs(builds[1..]) {
          var i :| 0 <= i < |builds[1..]| && !DroppedEntirely(builds[1..][i]) && r == FinalizeRun(builds[1..][i]);
          assert builds[i + 1] == builds[1..][i];
        } else {
          assert r == FinalizeRun(builds[0]) && !DroppedEntirely(builds[0]);
        }
      }
      forall i | 0 <= i < |builds| && !DroppedEntirely(builds[i]) ensures FinalizeRun(builds[i]) in Runs(builds) {
        if i > 0 { assert builds[1..][i - 1] == builds[i]; }
      }
    }
  }

  lemma {:induction false} RunsSerial(gap: int, builds: seq<Build>)
    requires SerialPlan(gap, builds)
    requires forall i :: 0 <= i < |builds| ==> Sort(BY_START, builds[i].steps) == builds[i].steps
    ensures SerialRuns(gap, Runs(builds))
  {
    if builds != [] {
      hide Sort, InSeries, Apart, StrictlyForward;
      assert SerialPlan(gap, builds[1..]) by {
        forall i, j | 0 <= i < j < |builds[1..]| ensures ApartEitherWay(gap, builds[1..][i], builds[1..][j]) {
          assert ApartEitherWay(gap, builds[i + 1], builds[j + 1]);
        }
      }
      RunsSerial(gap, builds[1..]);
      RunsSerialHead(gap, builds);
    }
  }

  lemma {:induction false} RunsSerialHead(gap: int, builds: seq<Build>)
    requires builds != [] && SerialPlan(gap, builds) && SerialRuns(gap, Runs(builds[1..]))
    requires forall i :: 0 <= i < |builds| ==> Sort(BY_START, builds[i].steps) == builds[i].steps
    ensures SerialRuns(gap, Runs(builds))
  {
    var rest := Runs(builds[1..]);
    forall j | 0 <= j < |rest| ensures RunsApart(gap, FinalizeRun(builds[0]).0, rest[j].0) {
      HeadApart(gap, builds, j);
    }
    assert InSeries(gap, FinalizeRun(builds[0]).0.steps);
    assert Runs(builds) == if DroppedEntirely(builds[0]) then rest else [FinalizeRun(builds[0])] + rest;
    hide *;
    SerialRunsCons(gap, FinalizeRun(builds[0]), rest);
  }

  lemma SerialRunsCons(gap: int, first: (RunPlan, seq<SkippedZone>), rest: seq<(RunPlan, seq<SkippedZone>)>)
    requires SerialRuns(gap, rest) && InSeries(gap, first.0.steps)
    requires forall j :: 0 <= j < |rest| ==> RunsApart(gap, first.0, rest[j].0)
    ensures SerialRuns(gap, [first] + rest)
  {
    hide InSeries, RunsApart;
  }

  lemma HeadApart(gap: int, builds: seq<Build>, j: nat)
    requires builds != [] && SerialPlan(gap, builds) && j < |Runs(builds[1..])|
    requires forall i :: 0 <= i < |builds| ==> Sort(BY_START, builds[i].steps) == builds[i].steps
    ensures RunsApart(gap, FinalizeRun(builds[0]).0, Runs(builds[1..])[j].0)
  {
    RunsElements(builds[1..]);
    hide Sort, InSeries, Apart, StrictlyForward, DroppedEntirely, Runs;
    var r := Runs(builds[1..])[j];
    assert r in Runs(builds[1..]);
    var i :| 0 <= i < |builds[1..]| && r == FinalizeRun(builds[1..][i]);
    assert ApartEitherWay(gap, builds[0], builds[i + 1]);
  }

  /** No two steps of the timeline overlap: the steps of a run follow each other with the gap
      between them, and whole runs never interleave. */
  lemma TimelineIsSerial(input: Input, candidates: seq<Occurrence>)
    requires ProperInput(input) && DistinctCandidates(candidates)
    ensures SerialRuns(input.gap, CompileTimeline(input, candidates).runs)
  {
    CompiledRuns(input, candidates);
    NothingWithheld(input, candidates);
    OnTimeIsProper(input, candidates);
    hide Sort, CompileTimeline, SerialPlan, SerialRuns, OnTime;
    RunsSerial(input.gap, OnTime(input, candidates));
  }

  /** The timeline does not depend on the order in which candidates are supplied. */
  lemma OrderIndependent(input: Input, a: seq<Occurrence>, b: seq<Occurrence>)
    requires DistinctCandidates(a) && multiset(a) == multiset(b)
    ensures CompileTimeline(input, a) == CompileTimeline(input, b)
  {
    forall x, y | x in a && y in a && BY_REQUEST(x, y) && BY_REQUEST(y, x) ensures x == y {}
    SortOrderIndependent(BY_REQUEST, a, b);
    hide Sort, Prepare, Schedule, EnforceLateness, DetectCollisions, Runs;
    assert Scheduled(input, a) == Scheduled(input, b);
  }

  // ---------------------------------------------------------------------
  // Every run is the layout of its own work

  /** The build that the m-th claim ends up with: its own items, laid out from the instant
      at which the blocks before it leave the controller. */
  ghost predicate LaidOutAt(input: Input, claims: seq<Claim>, b: Board, final: seq<Build>, m: nat)
    requires m < |claims| && Claimable(claims, |b.builds|) && |final| == |b.builds|
  {
    var claim := claims[m];
    var build := b.builds[claim.index];
    final[claim.index] ==
      Filled(build, Finished(SettingFor(input, build), claim.pending, build.skipped,
                             StartCursor(claim, FreeBefore(input.gap, final, claims, m, b.free))))
  }

  lemma {:induction false} LaidOutTail(input: Input, claims: seq<Claim>, b: Board, b1: Board, final: seq<Build>, m: nat)
    requires 1 <= m < |claims| && Claimable(claims, |b.builds|) && |final| == |b.builds| == |b1.builds|
    requires Claimable(claims[1..], |b1.builds|)
    requires b1.builds[claims[m].index] == b.builds[claims[m].index]
    requires FreeBefore(input.gap, final, claims, 1, b.free) == b1.free
    requires LaidOutAt(input, claims[1..], b1, final, m - 1)
    ensures LaidOutAt(input, claims, b, final, m)
  {
    FreeBeforeTail(input.gap, final, claims, m, b.free);
    assert claims[m] == claims[1..][m - 1];
    hide FreeBefore, Filled, Finished, StartCursor, SettingFor;
  }

  lemma {:induction false} LaidOutHead(input: Input, claims: seq<Claim>, b: Board, final: seq<Build>)
    requires claims != [] && Claimable(claims, |b.builds|) && |final| == |b.builds|
    requires final[claims[0].index] == ServeClaim(input, claims[0], b).builds[claims[0].index]
    ensures LaidOutAt(input, claims, b, final, 0)
  {
    ServeFills(input, claims[0], b);
    assert FreeBefore(input.gap, final, claims, 0, b.free) == b.free;
    hide Filled, Finished, StartCursor, SettingFor, ServeClaim;
  }

  /** Each claim is laid out from the instant at which the blocks before it are over. */
  lemma {:induction false} EachLaidOut(input: Input, claims: seq<Claim>, b: Board, m: nat)
    requires input.gap >= 0 && GoodClaims(claims, b.builds) && m < |claims|
    ensures Claimable(claims, |b.builds|)
    ensures LaidOutAt(input, claims, b, ServeAll(input, claims, b).builds, m)
    decreases m
  {
    GoodClaimable(claims, b.builds);
    ServeStep(input, claims, b);
    var b1 := ServeClaim(input, claims[0], b);
    ServeFills(input, claims[0], b);
    assert ServeAll(input, claims, b) == ServeAll(input, claims[1..], b1);
    var r := ServeAll(input, claims[1..], b1);
    assert forall k :: 0 <= k < |claims[1..]| ==> claims[1..][k].index != claims[0].index;
    assert GoodClaims(claims[1..], b1.builds) by { hide GoodClaim, ServeClaim; }
    hide *;
    UnclaimedUntouched(input, claims[1..], b1, claims[0].index);
    if m == 0 {
      LaidOutHead(input, claims, b, r.builds);
    } else {
      EachLaidOut(input, claims[1..], b1, m - 1);
      assert b1.builds[claims[m].index] == b.builds[claims[m].index] by { assert claims[1..][m - 1] == claims[m]; }
      LaidOutTail(input, claims, b, b1, r.builds, m);
    }
  }

  /** The claims of a compilation, in the order in which they are served. */
  function ClaimsOf(input: Input, candidates: seq<Occurrence>): seq<Claim> {
    var p := Prepare(input, Sort(BY_REQUEST, candidates));
    Claims(p.builds, p.items)
  }

  /** Each scheduled run is the layout of its own work items, under its own program's window,
      from the instant at which the earlier blocks are over; with no window it starts right
      then, or at its earliest request if that is later. */
  lemma {:induction false} RunsAreLayouts(input: Input, candidates: seq<Occurrence>, m: nat)
    requires ProperInput(input) && DistinctCandidates(candidates) && m < |ClaimsOf(input, candidates)|
    ensures var (builds, claims) := (Scheduled(input, candidates).builds, ClaimsOf(input, candidates));
      && Claimable(claims, |builds|)
      && var (claim, build) := (claims[m], builds[claims[m].index]);
         var begin := StartCursor(claim, FreeBefore(input.gap, builds, claims, m, None));
         && Runnable(input, build.occurrence)
         && build.program == input.programs[build.occurrence.program]
         && claim.pending == WorkOf(input, build.occurrence)
         && var l := Finished(SettingFor(input, build), claim.pending,
                              SkipsOf(input, build.occurrence, StepsInOrder(build.program)), begin);
            && build.steps == Untag(l.placed) && build.skipped == l.skipped && build.dropped == l.dropped
            && (build.program.window.None? ==> build.steps != [] && build.steps[0].plannedStart == begin)
  {
    CandidatesSorted(candidates);
    var s := Sort(BY_REQUEST, candidates);
    var p := Prepare(input, s);
    var b := Board(p.builds, p.conflicts, None);
    PreparedRight(input, s);
    ClaimsAreGood(input, s, p);
    ClaimsAreClaims(p.builds, p.items);
    assert ClaimsOf(input, candidates) == Claims(p.builds, p.items);
    assert Scheduled(input, candidates) == ServeAll(input, Claims(p.builds, p.items), b);
    hide *;
    ScheduledLayout(input, s, p, m);
  }

  lemma {:induction false} ScheduledLayout(input: Input, candidates: seq<Occurrence>, p: Prelude, m: nat)
    requires input.gap >= 0 && PreparedFor(input, candidates, p) && m < |Claims(p.builds, p.items)|
    requires GoodClaims(Claims(p.builds, p.items), p.builds)
    requires IsClaim(p.builds, p.items, Claims(p.builds, p.items)[m])
    ensures var claims := Claims(p.builds, p.items);
      var builds := ServeAll(input, claims, Board(p.builds, p.conflicts, None)).builds;
      && Claimable(claims, |builds|)
      && var (claim, build) := (claims[m], builds[claims[m].index]);
         var begin := StartCursor(claim, FreeBefore(input.gap, builds, claims, m, None));
         && Runnable(input, build.occurrence)
         && build.program == input.programs[build.occurrence.program]
         && claim.pending == WorkOf(input, build.occurrence)
         && var l := Finished(SettingFor(input, build), claim.pending,
                              SkipsOf(input, build.occurrence, StepsInOrder(build.program)), begin);
            && build.steps == Untag(l.placed) && build.skipped == l.skipped && build.dropped == l.dropped
            && (build.program.window.None? ==> build.steps != [] && build.steps[0].plannedStart == begin)
  {
    var claims, b := Claims(p.builds, p.items), Board(p.builds, p.conflicts, None);
    GoodClaimable(claims, p.builds);
    EachLaidOut(input, claims, b, m);
    AllServed(input, claims, b, m);
    var builds := ServeAll(input, claims, b).builds;
    var claim, before := claims[m], p.builds[claims[m].index];
    assert BuildPrepared(input, candidates, p, before);
    assert claim.pending == WorkOf(input, before.occurrence);
    assert GoodClaim(claim);
    var free := FreeBefore(input.gap, builds, claims, m, None);
    CursorIsRequest(claim, free);
    hide ServeAll, Claims, FreeBefore, Finished, StartCursor, PendingOf, ItemsOf, EarliestRequest, InSeries, Untag,
         StrictlyForward, From, SkipsOf, StepsInOrder, FreshItems, BlockEnd, GoodClaims, PreparedFor;
  }

  // ---------------------------------------------------------------------
  // Nothing is lost silently

  predicate Reported(conflicts: seq<Conflict>, id: OccurrenceId) {
    exists k :: 0 <= k < |conflicts| && conflicts[k].occurrence == id
  }

  lemma ReportedAppend(a: seq<Conflict>, b: seq<Conflict>, id: OccurrenceId)
    requires Reported(a, id) || Reported(b, id)
    ensures Reported(a + b, id)
  {
    if Reported(a, id) {
      var k :| 0 <= k < |a| && a[k].occurrence == id;
      assert (a + b)[k].occurrence == id;
    } else {
      var k :| 0 <= k < |b| && b[k].occurrence == id;
      assert (a + b)[|a| + k].occurrence == id;
    }
  }

  ghost predicate DropsReported(builds: seq<Build>, conflicts: seq<Conflict>) {
    forall i :: 0 <= i < |builds| && builds[i].dropped ==>
      builds[i].steps == [] && Reported(conflicts, builds[i].occurrence.id)
  }

  lemma DroppedLayout(c: Setting, items: seq<Item>, skipped: seq<SkippedZone>, begin: Instant)
    requires c.gap >= 0 && FreshItems(items)
    ensures var l := Finished(c, items, skipped, begin);
      l.dropped ==> l.placed == [] && Reported(l.conflicts, c.occurrence)
  {
    LayoutIsLaid(c, items, skipped, begin);
    var l := Finished(c, items, skipped, begin);
    if l.dropped { assert l.conflicts[0].occurrence == c.occurrence; }
    hide Kept, Finished;
  }

  lemma {:induction false} ServeReports(input: Input, claim: Claim, b: Board)
    requires input.gap >= 0 && GoodClaim(claim) && claim.index < |b.builds|
    requires DropsReported(b.builds, b.conflicts)
    ensures var r := ServeClaim(input, claim, b);
      DropsReported(r.builds, r.conflicts) && forall id :: Reported(b.conflicts, id) ==> Reported(r.conflicts, id)
  {
    var build := b.builds[claim.index];
    var c, begin := SettingFor(input, build), StartCursor(claim, b.free);
    var l := Finished(c, claim.pending, build.skipped, begin);
    var r := ServeClaim(input, claim, b);
    assert r.conflicts == b.conflicts + l.conflicts;
    ServeFills(input, claim, b);
    DroppedLayout(c, claim.pending, build.skipped, begin);
    assert l.dropped ==> Filled(build, l).steps == [];
    assert r.builds == b.builds[claim.index := Filled(build, l)];
    hide ServeClaim, Finished, StartCursor, Untag, Reported, Kept, Laid, FreshItems;
    forall id | Reported(b.conflicts, id) || Reported(l.conflicts, id) ensures Reported(r.conflicts, id) {
      ReportedAppend(b.conflicts, l.conflicts, id);
    }
  }

  lemma {:induction false} AllReported(input: Input, claims: seq<Claim>, b: Board)
    requires input.gap >= 0 && GoodClaims(claims, b.builds) && DropsReported(b.builds, b.conflicts)
    ensures Claimable(claims, |b.builds|)
    ensures var r := ServeAll(input, claims, b);
      DropsReported(r.builds, r.conflicts) && forall id :: Reported(b.conflicts, id) ==> Reported(r.conflicts, id)
    decreases |claims|
  {
    GoodClaimable(claims, b.builds);
    if claims != [] {
      var b1 := ServeClaim(input, claims[0], b);
      assert GoodClaims(claims[1..], b1.builds) by { hide GoodClaim, ServeClaim; }
      assert ServeAll(input, claims, b) == ServeAll(input, claims[1..], b1);
      hide ServeClaim, ServeAll, GoodClaim, GoodClaims, DropsReported, Reported;
      ServeReports(input, claims[0], b);
      AllReported(input, claims[1..], b1);
    }
  }

  predicate HasBuild(builds: seq<Build>, o: Occurrence) {
    exists i :: 0 <= i < |builds| && builds[i].occurrence == o
  }

  lemma {:induction false} DisabledReported(input: Input, candidates: seq<Occurrence>, o: Occurrence)
    requires o in candidates
    ensures var p := Prepare(input, candidates);
      if Runnable(input, o) then HasBuild(p.builds, o)
      else Conflict(o.id, o.program, None, ProgramDisabled) in p.conflicts && Reported(p.conflicts, o.id)
  {
    var first, rest, p := candidates[0], Prepare(input, candidates[1..]), Prepare(input, candidates);
    hide ItemsOf, SkipsOf, StepsInOrder;
    if first == o {
      if Runnable(input, o) { assert p.builds[0].occurrence == o; } else { assert p.conflicts[0].occurrence == o.id; }
      hide Prepare;
    } else {
      DisabledReported(input, candidates[1..], o);
      if Runnable(input, o) {
        var i :| 0 <= i < |rest.builds| && rest.builds[i].occurrence == o;
        assert p.builds[if Runnable(input, first) then i + 1 else i].occurrence == o;
      } else {
        var k :| 0 <= k < |rest.conflicts| && rest.conflicts[k].occurrence == o.id;
        assert p.conflicts[if Runnable(input, first) then k else k + 1].occurrence == o.id;
      }
    }
  }

  lemma {:induction false} MissedReported(input: Input, builds: seq<Build>, conflicts: seq<Conflict>)
    requires DropsReported(builds, conflicts)
    ensures var (kept, missed) := EnforceLateness(input, builds);
      DropsReported(kept, conflicts + missed)
  {
    var (kept, missed) := EnforceLateness(input, builds);
    hide EnforceLateness, StartsTooLate, Reported;
    forall i | 0 <= i < |kept| && kept[i].dropped
      ensures kept[i].steps == [] && Reported(conflicts + missed, kept[i].occurrence.id)
    {
      LatenessDrops(input, builds, i);
      if StartsTooLate(input, builds[i]) {
        var k :| 0 <= k < |missed|
          && missed[k] == Conflict(builds[i].occurrence.id, builds[i].program.id, None, MissedTolerance);
        assert Reported(missed, builds[i].occurrence.id) by { MissedAt(missed, k, builds[i].occurrence.id); }
      }
      ReportedAppend(conflicts, missed, kept[i].occurrence.id);
    }
  }

  lemma MissedAt(missed: seq<Conflict>, k: nat, id: OccurrenceId)
    requires k < |missed| && missed[k].occurrence == id
    ensures Reported(missed, id)
  {}

  lemma {:induction false} ScheduledReported(input: Input, candidates: seq<Occurrence>)
    requires ProperInput(input) && DistinctCandidates(candidates)
    ensures var board := Scheduled(input, candidates);
      && DropsReported(board.builds, board.conflicts)
      && forall id :: Reported(Prepare(input, Sort(BY_REQUEST, candidates)).conflicts, id) ==>
           Reported(board.conflicts, id)
  {
    CandidatesSorted(candidates);
    var s := Sort(BY_REQUEST, candidates);
    var p := Prepare(input, s);
    PreparedRight(input, s);
    ClaimsAreGood(input, s, p);
    forall i | 0 <= i < |p.builds| ensures !p.builds[i].dropped { assert BuildPrepared(input, s, p, p.builds[i]); }
    hide Sort, Prepare, Claims, GoodClaims, ServeAll, PreparedFor, Reported;
    AllReported(input, Claims(p.builds, p.items), Board(p.builds, p.conflicts, None));
  }

  /** Every candidate ends up as a run of the timeline, or in its conflicts (or both). */
  lemma {:induction false} NoSilentLoss(input: Input, candidates: seq<Occurrence>, o: Occurrence)
    requires ProperInput(input) && DistinctCandidates(candidates) && o in candidates
    ensures var timeline := CompileTimeline(input, candidates);
      (exists r :: r in timeline.runs && r.0.occurrence == o.id) || Reported(timeline.conflicts, o.id)
  {
    var s := Sort(BY_REQUEST, candidates);
    var board := Scheduled(input, candidates);
    var p := Prepare(input, s);
    var builds := OnTime(input, candidates);
    var missed := EnforceLateness(input, board.builds).1;
    CandidatesSorted(candidates);
    DisabledReported(input, s, o);
    ScheduledReported(input, candidates);
    CompiledRuns(input, candidates);
    MissedReported(input, board.builds, board.conflicts);
    ScheduledIsSerial(input, candidates);
    OnTimeSerial(input, board.builds);
    assert builds == EnforceLateness(input, board.builds).0;
    RunsElements(builds);
    hide Sort, Prepare, Scheduled, EnforceLateness, CompileTimeline, OnTime, Runs, Reported, SerialPlan, Runnable;
    if Runnable(input, o) {
      var i :| 0 <= i < |p.builds| && p.builds[i].occurrence == o;
      assert SameRun(board.builds[i], p.builds[i]) && SameRun(builds[i], board.builds[i]);
      if !builds[i].dropped { assert FinalizeRun(builds[i]) in Runs(builds); }
    } else {
      ReportedAppend(board.conflicts, missed, o.id);
    }
  }

  /** The program exists and is enabled, or the occurrence was asked for by hand. */
  predicate MayRun(input: Input, o: Occurrence) {
    exists p :: p in input.programs && p == o.program && (input.programs[p].enabled || o.manual)
  }

  /** An occurrence that may not run is reported for that, and has no run in the timeline. */
  lemma {:induction false} DisabledIsReported(input: Input, candidates: seq<Occurrence>, o: Occurrence)
    requires ProperInput(input) && DistinctCandidates(candidates) && o in candidates
    ensures var timeline := CompileTimeline(input, candidates);
      if MayRun(input, o) then HasBuild(OnTime(input, candidates), o)
      else
        && Conflict(o.id, o.program, None, ProgramDisabled) in timeline.conflicts
        && forall r :: r in timeline.runs ==> r.0.occurrence != o.id
  {
    hide CompileTimeline, DroppedEntirely, Scheduled, OnTime, Runs, SerialPlan, MayRun, HasBuild, FinalizeRun, Prepare,
         SameRun, BuildPrepared, Sort, EnforceLateness;
    MayRunMeans(input, o);
    var builds := OnTime(input, candidates);
    CandidatesSorted(candidates);
    PreparedRight(input, Sort(BY_REQUEST, candidates));
    DisabledReported(input, Sort(BY_REQUEST, candidates), o);
    CompiledRuns(input, candidates);
    RunsElements(builds);
    hide Runnable;
    if Runnable(input, o) {
      var p := Prepare(input, Sort(BY_REQUEST, candidates));
      assert exists i :: 0 <= i < |p.builds| && p.builds[i].occurrence == o by { BuildIndex(p.builds, o); }
      var i :| 0 <= i < |p.builds| && p.builds[i].occurrence == o;
      OnTimeOrigin(input, candidates, i);
      BuildHere(builds, i, o);
    } else {
      DisabledConflict(input, candidates, o);
      forall r | r in CompileTimeline(input, candidates).runs ensures r.0.occurrence != o.id {
        var i :| 0 <= i < |builds| && r == FinalizeRun(builds[i]);
        FinalizedId(builds[i]);
        OnTimeOrigin(input, candidates, i);
        assert builds[i].occurrence.id != o.id by { OneCandidate(candidates, builds[i].occurrence, o); }
      }
    }
  }

  lemma MayRunMeans(input: Input, o: Occurrence)
    ensures Runnable(input, o) <==> MayRun(input, o)
  {}

  lemma BuildIndex(builds: seq<Build>, o: Occurrence)
    requires HasBuild(builds, o)
    ensures exists i :: 0 <= i < |builds| && builds[i].occurrence == o
  {}

  lemma BuildHere(builds: seq<Build>, i: nat, o: Occurrence)
    requires i < |builds| && builds[i].occurrence == o
    ensures HasBuild(builds, o)
  {}

  lemma OneCandidate(candidates: seq<Occurrence>, a: Occurrence, b: Occurrence)
    requires DistinctCandidates(candidates) && a in candidates && b in candidates && a != b
    ensures a.id != b.id
  {}

  /** The builds that come out on time are those that were prepared. */
  lemma OnTimeOrigin(input: Input, candidates: seq<Occurrence>, i: nat)
    requires ProperInput(input) && DistinctCandidates(candidates)
    ensures var (p, builds) := (Prepare(input, Sort(BY_REQUEST, candidates)), OnTime(input, candidates));
      && |builds| == |p.builds|
      && (i < |builds| ==>
            && builds[i].occurrence == p.builds[i].occurrence && builds[i].occurrence in candidates
            && Runnable(input, builds[i].occurrence))
  {
    var s := Sort(BY_REQUEST, candidates);
    var p, scheduled := Prepare(input, s), Scheduled(input, candidates).builds;
    CandidatesSorted(candidates);
    PreparedRight(input, s);
    ScheduledIsSerial(input, candidates);
    OnTimeSerial(input, scheduled);
    assert OnTime(input, candidates) == EnforceLateness(input, scheduled).0;
    hide Sort, Prepare, Scheduled, SerialPlan, EnforceLateness, OnTime, Runnable;
    if i < |p.builds| {
      assert SameRun(scheduled[i], p.builds[i]) && SameRun(OnTime(input, candidates)[i], scheduled[i]);
      assert BuildPrepared(input, s, p, p.builds[i]);
    }
  }

  lemma DisabledConflict(input: Input, candidates: seq<Occurrence>, o: Occurrence)
    requires ProperInput(input) && DistinctCandidates(candidates)
    requires Conflict(o.id, o.program, None, ProgramDisabled) in Prepare(input, Sort(BY_REQUEST, candidates)).conflicts
    ensures Conflict(o.id, o.program, None, ProgramDisabled) in CompileTimeline(input, candidates).conflicts
  {
    var p := Prepare(input, Sort(BY_REQUEST, candidates));
    CompiledRuns(input, candidates);
    ConflictsKept(input, Claims(p.builds, p.items), Board(p.builds, p.conflicts, None));
    hide Sort, Prepare, CompileTimeline, Claims, ServeAll, EnforceLateness, Runs, OnTime;
  }

  lemma {:induction false} ConflictsKept(input: Input, claims: seq<Claim>, b: Board)
    requires Claimable(claims, |b.builds|)
    ensures b.conflicts <= ServeAll(input, claims, b).conflicts
    decreases |claims|
  {
    if claims != [] {
      hide LayoutOf, BlockEnd;
      ConflictsKept(input, claims[1..], ServeClaim(input, claims[0], b));
    }
  }

  // ---------------------------------------------------------------------
  // Every zone step of a run is accounted for

  /** Some step of the run waters the zone at that request. */
  predicate ZonePlanned(zone: ZoneId, requested: Instant, steps: seq<RunStep>) {
    exists i :: 0 <= i < |steps| && steps[i].zone == zone && steps[i].requestedStart == requested
  }

  predicate ZoneSkipped(zone: ZoneId, skipped: seq<SkippedZone>) {
    exists i :: 0 <= i < |skipped| && skipped[i].zone == zone
  }

  predicate ZoneWorked(zone: ZoneId, requested: Instant, items: seq<Item>) {
    exists k :: 0 <= k < |items| && items[k].zone == zone && items[k].requested == requested
  }

  /** Every zone step is watered at its own request, or its zone is recorded as skipped (a
      skip record does not say for which request). */
  ghost predicate ZonesAccounted(o: Occurrence, zones: seq<ZoneStep>, steps: seq<RunStep>, skipped: seq<SkippedZone>) {
    forall z :: z in zones ==>
      ZonePlanned(z.zone, o.start + z.requestedOffset, steps) || ZoneSkipped(z.zone, skipped)
  }

  lemma {:induction false} WorkOrSkip(input: Input, o: Occurrence, steps: seq<ZoneStep>, z: ZoneStep)
    requires ProperInput(input) && ProperSteps(input, steps) && z in steps
    ensures ZoneWorked(z.zone, o.start + z.requestedOffset, ItemsOf(input, o, steps))
      || ZoneSkipped(z.zone, SkipsOf(input, o, steps))
  {
    var first := BuildWorkItem(input, o, steps[0]);
    var requested := o.start + z.requestedOffset;
    var items, skips := ItemsOf(input, o, steps), SkipsOf(input, o, steps);
    var items1, skips1 := ItemsOf(input, o, steps[1..]), SkipsOf(input, o, steps[1..]);
    assert steps[0] in steps;
    ItemIsFresh(input, o, steps[0]);
    hide BuildWorkItem, FreshItem, EffectiveSoakMinutes, ProperInput;
    if steps[0] == z {
      if first.Work? {
        assert items[0].zone == z.zone;
        assert ZoneWorked(z.zone, requested, items);
      } else {
        assert skips == [first.zone] + skips1;
        assert skips[0].zone == z.zone;
        assert ZoneSkipped(z.zone, skips);
      }
    } else {
      assert ProperSteps(input, steps[1..]);
      WorkOrSkip(input, o, steps[1..], z);
      if ZoneSkipped(z.zone, skips1) {
        var k :| 0 <= k < |skips1| && skips1[k].zone == z.zone;
        assert skips[if first.Skip? then k + 1 else k].zone == z.zone;
        assert ZoneSkipped(z.zone, skips);
      } else {
        var k :| 0 <= k < |items1| && items1[k].zone == z.zone && items1[k].requested == requested;
        assert items[if first.Work? then k + 1 else k].zone == z.zone;
        assert ZoneWorked(z.zone, requested, items);
      }
    }
  }

  lemma {:induction false} LayoutAccounts(
    c: Setting, items: seq<Item>, skipped: seq<SkippedZone>, begin: Instant, zone: ZoneId, requested: Instant)
    requires c.gap >= 0 && FreshItems(items) && !Finished(c, items, skipped, begin).dropped
    requires ZoneWorked(zone, requested, items) || ZoneSkipped(zone, skipped)
    ensures var l := Finished(c, items, skipped, begin);
      ZonePlanned(zone, requested, Untag(l.placed)) || ZoneSkipped(zone, l.skipped)
  {
    var l := Finished(c, items, skipped, begin);
    if ZoneSkipped(zone, skipped) {
      LayoutIsLaid(c, items, skipped, begin);
      var i :| 0 <= i < |skipped| && skipped[i].zone == zone;
      hide Kept, Finished;
      assert l.skipped[i].zone == zone;
    } else {
      var k :| 0 <= k < |items| && items[k].zone == zone && items[k].requested == requested;
      MinutesConserved(c, items, skipped, begin, k);
      hide Finished, MinutesOf, FreshItems;
      if i :| 0 <= i < |l.placed| && l.placed[i].owner == k {
        StepsAreCycles(c, items, skipped, begin, i);
        assert Untag(l.placed)[i].zone == zone;
      }
    }
  }

  lemma {:induction false} ClaimsFromComplete(builds: seq<Build>, items: seq<Item>, i: nat, j: nat)
    requires i <= j < |builds| && PendingOf(items, builds[j].occurrence.id) != []
    ensures ClaimFor(builds, items, j) in ClaimsFrom(builds, items, i)
    decreases j - i
  {
    hide PendingOf;
    var rest := ClaimsFrom(builds, items, i + 1);
    if i < j {
      ClaimsFromComplete(builds, items, i + 1, j);
      assert ClaimFor(builds, items, j) in rest;
    } else {
      assert ClaimsFrom(builds, items, i) == [ClaimFor(builds, items, i)] + rest;
    }
  }

  lemma {:induction false} ClaimsComplete(builds: seq<Build>, items: seq<Item>, j: nat)
    requires j < |builds| && PendingOf(items, builds[j].occurrence.id) != []
    ensures exists m :: 0 <= m < |Claims(builds, items)| && Claims(builds, items)[m].index == j
  {
    ClaimsFromComplete(builds, items, 0, j);
    SortPermutes(BY_CLAIM, ClaimsFrom(builds, items, 0));
    var c := ClaimFor(builds, items, j);
    assert c in Claims(builds, items);
    var m :| 0 <= m < |Claims(builds, items)| && Claims(builds, items)[m] == c;
  }

  lemma {:induction false} ScheduledAccounts(input: Input, candidates: seq<Occurrence>, i: nat)
    requires ProperInput(input) && DistinctCandidates(candidates) && i < |Scheduled(input, candidates).builds|
    ensures var build := Scheduled(input, candidates).builds[i];
      && Runnable(input, build.occurrence) && build.program == input.programs[build.occurrence.program]
      && (!build.dropped ==>
            ZonesAccounted(build.occurrence, StepsInOrder(build.program), build.steps, build.skipped))
  {
    var s := Sort(BY_REQUEST, candidates);
    var p := Prepare(input, s);
    CandidatesSorted(candidates);
    PreparedRight(input, s);
    ScheduledIsSerial(input, candidates);
    var build := Scheduled(input, candidates).builds[i];
    assert BuildPrepared(input, s, p, p.builds[i]);
    assert SameRun(build, p.builds[i]);
    hide Sort, Prepare, Scheduled, PreparedFor, SerialPlan, StepsInOrder, SkipsOf, ItemsOf, PendingOf, ZonesAccounted;
    OrderedStepsProper(input, build.program);
    if m :| 0 <= m < |ClaimsOf(input, candidates)| && ClaimsOf(input, candidates)[m].index == i {
      ClaimedAccounts(input, candidates, m);
    } else {
      UnclaimedAccounts(input, candidates, i);
    }
  }

  lemma {:induction false} ClaimedAccounts(input: Input, candidates: seq<Occurrence>, m: nat)
    requires ProperInput(input) && DistinctCandidates(candidates) && m < |ClaimsOf(input, candidates)|
    ensures var (builds, claims) := (Scheduled(input, candidates).builds, ClaimsOf(input, candidates));
      && Claimable(claims, |builds|)
      && var build := builds[claims[m].index];
         !build.dropped ==>
           ZonesAccounted(build.occurrence, StepsInOrder(build.program), build.steps, build.skipped)
  {
    RunsAreLayouts(input, candidates, m);
    var builds, claims := Scheduled(input, candidates).builds, ClaimsOf(input, candidates);
    var claim, build := claims[m], builds[claims[m].index];
    hide Scheduled, ClaimsOf, FreeBefore, StartCursor, Finished, Untag, SkipsOf, ItemsOf, StepsInOrder, ZonePlanned,
         ZoneSkipped,
         EffectiveSoakMinutes, FreshItems, ProperSteps;
    if !build.dropped {
      var zones := StepsInOrder(build.program);
      assert ProperProgram(input, build.program);
      assert SettingFor(input, build).gap >= 0;
      assert claim.pending == ItemsOf(input, build.occurrence, zones);
      OrderedStepsProper(input, build.program);
      WorkIsFresh(input, build.occurrence);
      forall z | z in zones
        ensures ZonePlanned(z.zone, build.occurrence.start + z.requestedOffset, build.steps)
          || ZoneSkipped(z.zone, build.skipped)
      {
        WorkOrSkip(input, build.occurrence, zones, z);
        LayoutAccounts(SettingFor(input, build), claim.pending, SkipsOf(input, build.occurrence, zones),
                       StartCursor(claim, FreeBefore(input.gap, builds, claims, m, None)), z.zone,
                       build.occurrence.start + z.requestedOffset);
      }
    }
  }

  lemma {:induction false} UnclaimedAccounts(input: Input, candidates: seq<Occurrence>, i: nat)
    requires ProperInput(input) && DistinctCandidates(candidates) && i < |Scheduled(input, candidates).builds|
    requires forall m :: 0 <= m < |ClaimsOf(input, candidates)| ==> ClaimsOf(input, candidates)[m].index != i
    ensures var build := Scheduled(input, candidates).builds[i];
      ZonesAccounted(build.occurrence, StepsInOrder(build.program), build.steps, build.skipped)
  {
    var s := Sort(BY_REQUEST, candidates);
    var p := Prepare(input, s);
    var b := Board(p.builds, p.conflicts, None);
    CandidatesSorted(candidates);
    PreparedRight(input, s);
    ClaimsAreGood(input, s, p);
    GoodClaimable(Claims(p.builds, p.items), p.builds);
    assert ClaimsOf(input, candidates) == Claims(p.builds, p.items);
    assert Scheduled(input, candidates) == ServeAll(input, Claims(p.builds, p.items), b);
    assert |Scheduled(input, candidates).builds| == |p.builds|;
    assert BuildPrepared(input, s, p, p.builds[i]);
    hide Sort, Prepare, Scheduled, ServeAll, Claims, ClaimsOf, PreparedFor, StepsInOrder, SkipsOf, ItemsOf, PendingOf,
         GoodClaims, ProperInput, ZoneSkipped, ZonePlanned, EffectiveSoakMinutes, ProperSteps;
    UnclaimedUntouched(input, Claims(p.builds, p.items), b, i);
    if PendingOf(p.items, p.builds[i].occurrence.id) != [] { ClaimsComplete(p.builds, p.items, i); }
    UnclaimedSkips(input, p.builds[i].occurrence);
  }

  /** A run that waters is that of a claim. */
  lemma {:induction false} UnclaimedEmpty(input: Input, candidates: seq<Occurrence>, i: nat)
    requires ProperInput(input) && DistinctCandidates(candidates) && i < |Scheduled(input, candidates).builds|
    requires forall m :: 0 <= m < |ClaimsOf(input, candidates)| ==> ClaimsOf(input, candidates)[m].index != i
    ensures Scheduled(input, candidates).builds[i].steps == []
  {
    var s := Sort(BY_REQUEST, candidates);
    var p := Prepare(input, s);
    var b := Board(p.builds, p.conflicts, None);
    CandidatesSorted(candidates);
    PreparedRight(input, s);
    ClaimsAreGood(input, s, p);
    GoodClaimable(Claims(p.builds, p.items), p.builds);
    assert ClaimsOf(input, candidates) == Claims(p.builds, p.items);
    assert Scheduled(input, candidates) == ServeAll(input, Claims(p.builds, p.items), b);
    assert |Scheduled(input, candidates).builds| == |p.builds|;
    assert BuildPrepared(input, s, p, p.builds[i]);
    hide Sort, Prepare, Scheduled, ServeAll, Claims, ClaimsOf, PreparedFor, StepsInOrder, SkipsOf, ItemsOf, PendingOf,
         GoodClaims, ProperInput;
    UnclaimedUntouched(input, Claims(p.builds, p.items), b, i);
  }

  /** The build that a run of the timeline which waters came from, as it was laid out. */
  lemma {:induction false} RunIsLaidOut(input: Input, candidates: seq<Occurrence>, run: (RunPlan, seq<SkippedZone>))
    returns (m: nat)
    requires ProperInput(input) && DistinctCandidates(candidates)
    requires run in CompileTimeline(input, candidates).runs && run.0.steps != []
    ensures var (builds, claims) := (Scheduled(input, candidates).builds, ClaimsOf(input, candidates));
      && m < |claims| && Claimable(claims, |builds|)
      && var build := builds[claims[m].index];
         build.occurrence in candidates && run.0.occurrence == build.occurrence.id && run.0.steps == build.steps
  {
    var builds, scheduled := OnTime(input, candidates), Scheduled(input, candidates).builds;
    CompiledRuns(input, candidates);
    NothingWithheld(input, candidates);
    RunsElements(builds);
    var i := RunIsFinalized(builds, run);
    assert builds == EnforceLateness(input, scheduled).0;
    BuildIsOfCandidate(input, candidates, i);
    hide *;
    LatenessDrops(input, scheduled, i);
    WatersOnTime(scheduled[i], builds[i], run);
    m := Claimed(input, candidates, i);
    RunsAreLayouts(input, candidates, m);
  }

  lemma RunIsFinalized(builds: seq<Build>, run: (RunPlan, seq<SkippedZone>)) returns (i: nat)
    requires run in Runs(builds)
    requires forall j :: 0 <= j < |builds| ==> Sort(BY_START, builds[j].steps) == builds[j].steps
    ensures i < |builds| && run.0.steps == builds[i].steps && run.0.occurrence == builds[i].occurrence.id
  {
    RunsElements(builds);
    hide Runs, DroppedEntirely, Sort;
    i :| 0 <= i < |builds| && run == FinalizeRun(builds[i]);
    assert FinalizeRun(builds[i]).0.steps == Sort(BY_START, builds[i].steps) by { FinalizedSteps(builds[i]); }
    FinalizedId(builds[i]);
  }

  lemma FinalizedSteps(build: Build)
    ensures FinalizeRun(build).0.steps == Sort(BY_START, build.steps)
  {}

  lemma WatersOnTime(scheduled: Build, build: Build, run: (RunPlan, seq<SkippedZone>))
    requires build == scheduled || build == Withheld(scheduled)
    requires run.0.steps == build.steps != []
    ensures build == scheduled
  {}

  lemma BuildIsOfCandidate(input: Input, candidates: seq<Occurrence>, i: nat)
    requires ProperInput(input) && DistinctCandidates(candidates) && i < |OnTime(input, candidates)|
    ensures i < |Scheduled(input, candidates).builds| && Scheduled(input, candidates).builds[i].occurrence in candidates
  {
    var s := Sort(BY_REQUEST, candidates);
    var p := Prepare(input, s);
    CandidatesSorted(candidates);
    PreparedRight(input, s);
    ScheduledIsSerial(input, candidates);
    assert OnTime(input, candidates) == EnforceLateness(input, Scheduled(input, candidates).builds).0;
    hide Sort, Prepare, Scheduled, SerialPlan, EnforceLateness;
    assert BuildPrepared(input, s, p, p.builds[i]);
    assert SameRun(Scheduled(input, candidates).builds[i], p.builds[i]);
  }

  lemma Claimed(input: Input, candidates: seq<Occurrence>, i: nat) returns (m: nat)
    requires ProperInput(input) && DistinctCandidates(candidates) && i < |Scheduled(input, candidates).builds|
    requires Scheduled(input, candidates).builds[i].steps != []
    ensures m < |ClaimsOf(input, candidates)| && ClaimsOf(input, candidates)[m].index == i
  {
    hide Scheduled, ClaimsOf, ProperInput;
    if forall m :: 0 <= m < |ClaimsOf(input, candidates)| ==> ClaimsOf(input, candidates)[m].index != i {
      UnclaimedEmpty(input, candidates, i);
    }
    m :| 0 <= m < |ClaimsOf(input, candidates)| && ClaimsOf(input, candidates)[m].index == i;
  }

  lemma {:induction false} UnclaimedSkips(input: Input, o: Occurrence)
    requires ProperInput(input) && Runnable(input, o) && WorkOf(input, o) == []
    ensures var build := BuildFor(input, o);
      ZonesAccounted(o, StepsInOrder(build.program), build.steps, build.skipped)
  {
    var zones := StepsInOrder(input.programs[o.program]);
    OrderedStepsProper(input, input.programs[o.program]);
    forall z | z in zones ensures ZoneSkipped(z.zone, SkipsOf(input, o, zones)) {
      WorkOrSkip(input, o, zones, z);
    }
  }

  /** Whatever the timeline holds of the occurrence waters nothing. */
  ghost predicate NothingOf(timeline: Timeline, id: OccurrenceId) {
    forall r :: r in timeline.runs && r.0.occurrence == id ==> r.0.steps == []
  }

  ghost predicate AccountedBy(input: Input, timeline: Timeline, o: Occurrence, build: Build)
    requires o.program in input.programs
  {
    && build.occurrence == o
    && if build.dropped then NothingOf(timeline, o.id) && Reported(timeline.conflicts, o.id)
       else
         var run := FinalizeRun(build);
         run in timeline.runs && ZonesAccounted(o, StepsInOrder(input.programs[o.program]), run.0.steps, run.1)
  }

  lemma FinalizedId(build: Build)
    ensures FinalizeRun(build).0.occurrence == build.occurrence.id
  {}

  lemma {:induction false} DroppedWatersNothing(builds: seq<Build>, i: nat, timeline: Timeline)
    requires DistinctBuilds(builds) && i < |builds| && builds[i].steps == [] && timeline.runs == Runs(builds)
    ensures NothingOf(timeline, builds[i].occurrence.id)
  {
    RunsElements(builds);
    hide Runs, DroppedEntirely;
    forall r | r in timeline.runs && r.0.occurrence == builds[i].occurrence.id ensures r.0.steps == [] {
      var j :| 0 <= j < |builds| && r == FinalizeRun(builds[j]);
      assert j == i by { FinalizedId(builds[j]); }
    }
  }

  /** The build of a runnable candidate, and what becomes of it. */
  lemma {:induction false} BuildAccounted(input: Input, candidates: seq<Occurrence>, o: Occurrence) returns (i: nat)
    requires ProperInput(input) && DistinctCandidates(candidates) && o in candidates && Runnable(input, o)
    ensures var builds := OnTime(input, candidates);
      && i < |builds| && builds[i].occurrence == o
      && (builds[i].dropped ==> builds[i].steps == [] && Reported(CompileTimeline(input, candidates).conflicts, o.id))
      && (!builds[i].dropped ==>
            ZonesAccounted(o, StepsInOrder(input.programs[o.program]), builds[i].steps, builds[i].skipped))
  {
    var s := Sort(BY_REQUEST, candidates);
    var board := Scheduled(input, candidates);
    var p := Prepare(input, s);
    var builds := OnTime(input, candidates);
    CandidatesSorted(candidates);
    DisabledReported(input, s, o);
    ScheduledReported(input, candidates);
    CompiledRuns(input, candidates);
    MissedReported(input, board.builds, board.conflicts);
    ScheduledIsSerial(input, candidates);
    assert builds == EnforceLateness(input, board.builds).0;
    hide Sort, Prepare, Scheduled, EnforceLateness, CompileTimeline, OnTime, Runs, Reported, SerialPlan, Runnable,
         ZonesAccounted, StepsInOrder, DetectCollisions, ProperInput, TooLate;
    i :| 0 <= i < |p.builds| && p.builds[i].occurrence == o;
    assert SameRun(board.builds[i], p.builds[i]);
    LatenessDrops(input, board.builds, i);
    if !builds[i].dropped {
      assert builds[i] == board.builds[i];
      ScheduledAccounts(input, candidates, i);
    }
  }

  /** A candidate whose program may run has one build. Either that is dropped, and then a
      conflict says so and the timeline waters nothing of it; or it is a run of the timeline
      that plans every zone step at its own request or records its zone as skipped. */
  lemma {:induction false} EveryZoneAccounted(input: Input, candidates: seq<Occurrence>, o: Occurrence)
    requires ProperInput(input) && DistinctCandidates(candidates) && o in candidates && Runnable(input, o)
    ensures var timeline := CompileTimeline(input, candidates);
      exists i :: 0 <= i < |OnTime(input, candidates)| && AccountedBy(input, timeline, o, OnTime(input, candidates)[i])
  {
    var i := BuildAccounted(input, candidates, o);
    var builds, timeline := OnTime(input, candidates), CompileTimeline(input, candidates);
    CompiledRuns(input, candidates);
    NothingWithheld(input, candidates);
    OnTimeIsProper(input, candidates);
    hide CompileTimeline, OnTime, Sort, Runs, Reported, SerialPlan, Runnable, ZonesAccounted, StepsInOrder, NothingOf,
         DetectCollisions, ProperInput, DistinctBuilds;
    if builds[i].dropped {
      DroppedWatersNothing(builds, i, timeline);
    } else {
      RunsElements(builds);
      assert FinalizeRun(builds[i]) in Runs(builds);
      assert FinalizeRun(builds[i]).0.steps == builds[i].steps;
    }
    assert AccountedBy(input, timeline, o, builds[i]);
  }
}
