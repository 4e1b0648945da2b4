/** What the planner computes, as functions on values.

    A timezone is a function from an instant to its UTC offset in seconds; a wall
    clock time is a second of the local day. Texts and provenance are left out. */
module PlannerSpec {
  import opened Domain
  import opened Sorting

  const DAY := 86400

  // ---------------------------------------------------------------------
  // Inputs

  datatype WindowPolicy = SkipStep | TruncateLast | DeferOccurrence | RequireIntervention

  datatype Window = Window(start: int, end: int, policy: WindowPolicy)

  datatype MinimumRuntime = ClampToOneMinute | SkipZone | CarryForward

  datatype MissedRun = RunLate | SkipMissed

  datatype Zone = Zone(
    id: ZoneId,
    enabled: bool,
    baseRuntime: real,
    maxCycle: Option<int>,
    minimumSoak: Option<int>,
    minimumRuntime: Option<MinimumRuntime>)

  datatype ZoneStep = ZoneStep(
    zone: ZoneId,
    position: int,
    enabled: bool,
    requestedOffset: int,
    baseOverride: Option<real>,
    maxCycleOverride: Option<int>,
    soakOverride: Option<int>)

  datatype Program = Program(
    id: ProgramId,
    enabled: bool,
    priority: int,
    zoneSteps: seq<ZoneStep>,
    missedRun: MissedRun,
    window: Option<Window>)

  datatype Occurrence = Occurrence(
    id: OccurrenceId,
    program: ProgramId,
    start: Instant,
    createdAt: Instant,
    manual: bool)

  datatype Adjustment = Adjustment(exact: real, quantized: int)

  datatype Input = Input(
    gap: int,
    toleranceMinutes: int,
    minimumRuntime: MinimumRuntime,
    programs: map<ProgramId, Program>,
    zones: map<ZoneId, Zone>,
    adjustments: map<OccurrenceId, map<ZoneId, Adjustment>>,
    offset: Instant -> int)

  // ---------------------------------------------------------------------
  // Outputs

  datatype SkipReason =
    | SourceUnavailable | ZoneDisabled | BelowResolution | OutOfWindow
    | ProgramDisabled | MissedTolerance | PlannerCollision

  datatype SkippedZone = SkippedZone(zone: ZoneId, reason: SkipReason)

  datatype Conflict = Conflict(
    occurrence: OccurrenceId, program: ProgramId, zone: Option<ZoneId>, reason: SkipReason)

  datatype Timeline = Timeline(runs: seq<(RunPlan, seq<SkippedZone>)>, conflicts: seq<Conflict>)

  // ---------------------------------------------------------------------
  // Working state

  /** One zone of one occurrence. `cut` is what the watering window has taken away so
      far, in minutes; the code does not keep it. */
  datatype Item = Item(
    occurrence: OccurrenceId,
    zone: ZoneId,
    position: int,
    requested: Instant,
    total: nat,
    cycles: seq<nat>,
    cycleCount: nat,
    emitted: nat,
    soak: int,
    eligible: Instant,
    cut: int)

  datatype Build = Build(
    occurrence: Occurrence,
    program: Program,
    steps: seq<RunStep>,
    skipped: seq<SkippedZone>,
    dropped: bool)

  // ---------------------------------------------------------------------
  // Runtimes and cycles

  /** Half-up: ties go away from zero. */
  function Quantize(exact: real): int {
    if exact >= 0.0 then (exact + 0.5).Floor else -((-exact + 0.5).Floor)
  }

  /** The fewest parts of at most `most` that make up the total. */
  function PartCount(total: nat, most: nat): (count: nat)
    requires total > 0 && most > 0
    ensures 0 < count && (count - 1) * most < total <= count * most
  {
    var x := total + most - 1;
    assert x == x / most * most + x % most;
    var count := x / most;
    assert count * most > 0;
    assert (count - 1) * most == count * most - most;
    count
  }

  /** As even as possible, the longer parts first. */
  function SplitEvenly(total: nat, count: nat): seq<nat>
    requires count > 0
  {
    var base, remainder := total / count, total % count;
    seq(count, index => if index < remainder then base + 1 else base)
  }

  function AllocateCycles(total: int, maxCycle: Option<int>): seq<nat> {
    if total <= 0 then []
    else if maxCycle.None? || maxCycle.value <= 0 || total <= maxCycle.value then [total]
    else SplitEvenly(total, PartCount(total, maxCycle.value))
  }

  function EffectiveMaxCycle(zone: Zone, step: ZoneStep): Option<int> {
    if step.maxCycleOverride.Some? then step.maxCycleOverride else zone.maxCycle
  }

  function EffectiveSoakMinutes(zone: Zone, step: ZoneStep): int {
    if step.soakOverride.Some? then step.soakOverride.value
    else if zone.minimumSoak.Some? then zone.minimumSoak.value
    else 0
  }

  function EffectiveBaseRuntime(zone: Zone, step: ZoneStep): real {
    if step.baseOverride.Some? then step.baseOverride.value else zone.baseRuntime
  }

  function EffectiveMinimumRuntime(input: Input, zone: Zone): MinimumRuntime {
    if zone.minimumRuntime.Some? then zone.minimumRuntime.value else input.minimumRuntime
  }

  function AdjustmentFor(input: Input, occurrence: OccurrenceId, zone: Zone, step: ZoneStep): Adjustment {
    if occurrence in input.adjustments && zone.id in input.adjustments[occurrence]
    then input.adjustments[occurrence][zone.id]
    else
      var base := EffectiveBaseRuntime(zone, step);
      Adjustment(base, Quantize(base))
  }

  /** The minutes to water; 0 when the zone is below the controller's resolution. */
  function TotalMinutes(input: Input, zone: Zone, adjustment: Adjustment): (total: nat)
    ensures total <= MAX_COMMAND_MINUTES
  {
    var total := Min(adjustment.quantized, MAX_COMMAND_MINUTES);
    if total > 0 then total
    else if adjustment.exact > 0.0 && EffectiveMinimumRuntime(input, zone) == ClampToOneMinute then 1
    else 0
  }

  datatype Prepared = Work(item: Item) | Skip(zone: SkippedZone)

  function BuildWorkItem(input: Input, occurrence: Occurrence, step: ZoneStep): Prepared {
    if step.zone !in input.zones then Skip(SkippedZone(step.zone, SourceUnavailable))
    else
      var zone := input.zones[step.zone];
      if !step.enabled || !zone.enabled then Skip(SkippedZone(zone.id, ZoneDisabled))
      else
        var total := TotalMinutes(input, zone, AdjustmentFor(input, occurrence.id, zone, step));
        if total == 0 then Skip(SkippedZone(zone.id, BelowResolution))
        else
          var cycles := AllocateCycles(total, EffectiveMaxCycle(zone, step));
          var requested := occurrence.start + step.requestedOffset;
          Work(Item(occurrence.id, zone.id, step.position, requested, total, cycles, |cycles|, 0,
                    60 * EffectiveSoakMinutes(zone, step), requested, 0))
  }

  // ---------------------------------------------------------------------
  // The watering window

  function LocalTime(offset: Instant -> int, t: Instant): int { (t + offset(t)) % DAY }

  predicate WindowContains(w: Window, local: int) {
    if w.start == w.end then true
    else if w.start < w.end then w.start <= local < w.end
    else local >= w.start || local < w.end
  }

  function MinutesUntilWindowEnd(w: Window, local: int): int {
    (if w.end <= local then w.end + DAY - local else w.end - local) / 60
  }

  // ---------------------------------------------------------------------
  // The layout loop

  datatype Setting = Setting(
    occurrence: OccurrenceId,
    program: ProgramId,
    gap: int,
    window: Option<Window>,
    offset: Instant -> int)

  /** A step, with the index of the work item it belongs to. */
  datatype Placed = Placed(owner: nat, step: RunStep)

  datatype Layout = Layout(
    items: seq<Item>,
    placed: seq<Placed>,
    skipped: seq<SkippedZone>,
    dropped: bool,
    cursor: Instant,
    conflicts: seq<Conflict>)

  function Untag(placed: seq<Placed>): seq<RunStep> { seq(|placed|, i requires 0 <= i < |placed| => placed[i].step) }

  predicate Left(it: Item) { it.cycles != [] }

  predicate Ready(it: Item, t: Instant) { Left(it) && it.eligible <= t }

  predicate AnyLeft(items: seq<Item>) { exists k :: 0 <= k < |items| && Left(items[k]) }

  predicate AnyReady(items: seq<Item>, t: Instant) { exists k :: 0 <= k < |items| && Ready(items[k], t) }

  function CyclesLeft(items: seq<Item>): nat {
    if items == [] then 0 else |items[0].cycles| + CyclesLeft(items[1..])
  }

  /** The sort key of an item; priority and creation are the same throughout an occurrence. */
  predicate KeyLess(a: Item, b: Item) {
    a.requested < b.requested ||
    (a.requested == b.requested &&
     (a.position < b.position || (a.position == b.position && a.zone < b.zone)))
  }

  /** The first of the ready items with the least sort key, among the first n. */
  function LeastReady(items: seq<Item>, t: Instant, n: nat): (r: Option<nat>)
    requires n <= |items|
    ensures r.Some? ==> r.value < n && Ready(items[r.value], t)
    ensures r.None? <==> forall k :: 0 <= k < n ==> !Ready(items[k], t)
  {
    if n == 0 then None
    else
      var best := LeastReady(items, t, n - 1);
      if !Ready(items[n - 1], t) then best
      else if best.None? || KeyLess(items[n - 1], items[best.value]) then Some(n - 1)
      else best
  }

  function Choose(items: seq<Item>, t: Instant): (k: nat)
    requires AnyReady(items, t)
    ensures k < |items| && Ready(items[k], t)
  {
    LeastReady(items, t, |items|).value
  }

  /** The earliest instant at which a remaining item, among the first n, may start. */
  function NextEligible(items: seq<Item>, n: nat): (r: Option<Instant>)
    requires n <= |items|
    ensures r.None? <==> forall k :: 0 <= k < n ==> !Left(items[k])
    ensures r.Some? ==> forall k :: 0 <= k < n && Left(items[k]) ==> r.value <= items[k].eligible
    ensures r.Some? ==> exists k :: 0 <= k < n && Left(items[k]) && r.value == items[k].eligible
  {
    if n == 0 then None
    else
      var rest := NextEligible(items, n - 1);
      if !Left(items[n - 1]) then rest
      else if rest.None? then Some(items[n - 1].eligible)
      else Some(Min(rest.value, items[n - 1].eligible))
  }

  function Minutes(cycles: seq<nat>): nat {
    if cycles == [] then 0 else cycles[0] + Minutes(cycles[1..])
  }

  /** Clear the item's cycles, and either record the zone as skipped or drop the occurrence. */
  function ApplyWindowViolation(c: Setting, l: Layout, k: nat, policy: WindowPolicy): Layout
    requires k < |l.items|
  {
    var it := l.items[k];
    var l1 := l.(items := l.items[k := it.(cycles := [], cut := it.cut + Minutes(it.cycles))]);
    if policy == SkipStep || policy == TruncateLast
    then l1.(skipped := l.skipped + [SkippedZone(it.zone, OutOfWindow)])
    else l1.(dropped := true,
             placed := [],
             conflicts := l.conflicts + [Conflict(c.occurrence, c.program, Some(it.zone), OutOfWindow)])
  }

  /** Correct the cycle count of the steps already emitted for a zone and request. */
  function Recount(placed: seq<Placed>, zone: ZoneId, requested: Instant, count: nat): (r: seq<Placed>) {
    seq(|placed|, i requires 0 <= i < |placed| =>
      if placed[i].step.zone == zone && placed[i].step.requestedStart == requested
      then placed[i].(step := placed[i].step.(cycleCount := count))
      else placed[i])
  }

  /** Shorten the item's current cycle and give up the ones after it. */
  function Truncate(l: Layout, k: nat, available: nat): Layout
    requires k < |l.items| && Left(l.items[k])
  {
    var it := l.items[k];
    var count := it.emitted + 1;
    l.(items := l.items[k := it.(cycles := [available], cycleCount := count,
                                 cut := it.cut + Minutes(it.cycles) - available)],
       placed := Recount(l.placed, it.zone, it.requested, count),
       skipped := l.skipped + (if |it.cycles| > 1 then [SkippedZone(it.zone, OutOfWindow)] else []))
  }

  function StepFor(it: Item, start: Instant): RunStep
    requires Left(it)
  {
    RunStep(it.zone, it.emitted + 1, it.cycleCount, it.requested,
            start, start + 60 * it.cycles[0], it.cycles[0], it.emitted > 0 && it.soak > 0)
  }

  /** Place the item's next cycle at the cursor. */
  function Emit(c: Setting, l: Layout, k: nat): Layout
    requires k < |l.items| && Left(l.items[k])
  {
    var it := l.items[k];
    var end := l.cursor + 60 * it.cycles[0];
    l.(items := l.items[k := it.(cycles := it.cycles[1..], emitted := it.emitted + 1, eligible := end + it.soak)],
       placed := l.placed + [Placed(k, StepFor(it, l.cursor))],
       cursor := end + c.gap)
  }

  /** The next cycle of the chosen item, subject to the window. */
  function PlaceNext(c: Setting, l: Layout, k: nat): Layout
    requires k < |l.items| && Left(l.items[k])
  {
    if c.window.None? then Emit(c, l, k)
    else
      var w, local := c.window.value, LocalTime(c.offset, l.cursor);
      if !WindowContains(w, local) then ApplyWindowViolation(c, l, k, w.policy)
      else
        var available := MinutesUntilWindowEnd(w, local);
        if w.policy != TruncateLast || l.items[k].cycles[0] <= available then Emit(c, l, k)
        else if available < 1 then ApplyWindowViolation(c, l, k, w.policy)
        else Emit(c, Truncate(l, k, available), k)
  }

  /** One round of the loop. */
  function Round(c: Setting, l: Layout): Layout
    requires AnyLeft(l.items)
  {
    if AnyReady(l.items, l.cursor) then PlaceNext(c, l, Choose(l.items, l.cursor))
    else l.(cursor := Max(l.cursor, NextEligible(l.items, |l.items|).value))
  }

  function Cleared(items: seq<Item>): seq<Item> {
    seq(|items|, i requires 0 <= i < |items| => items[i].(cycles := []))
  }

  function LayOut(c: Setting, l: Layout): Layout
    decreases CyclesLeft(l.items), if AnyReady(l.items, l.cursor) then 0 else 1
  {
    if !AnyLeft(l.items) then l
    else if l.dropped then l.(items := Cleared(l.items))
    else
      RoundProgress(c, l);
      LayOut(c, Round(c, l))
  }

  // ---------------------------------------------------------------------
  // Termination of the loop

  lemma {:induction false} CyclesLeftUpdate(items: seq<Item>, k: nat, it: Item)
    requires k < |items|
    ensures CyclesLeft(items[k := it]) == CyclesLeft(items) - |items[k].cycles| + |it.cycles|
  {
    if k > 0 {
      CyclesLeftUpdate(items[1..], k - 1, it);
      assert items[k := it][1..] == items[1..][k - 1 := it];
    } else {
      assert items[0 := it][1..] == items[1..];
    }
  }

  /** A round uses up a cycle, or moves the cursor to where one is ready. */
  lemma RoundProgress(c: Setting, l: Layout)
    requires AnyLeft(l.items)
    ensures var r := Round(c, l);
      CyclesLeft(r.items) < CyclesLeft(l.items) ||
      (r.items == l.items && !AnyReady(l.items, l.cursor) && AnyReady(r.items, r.cursor))
  {
    if AnyReady(l.items, l.cursor) {
      var k := Choose(l.items, l.cursor);
      PlaceNextProgress(c, l, k);
    } else {
      var next := NextEligible(l.items, |l.items|).value;
      var j :| 0 <= j < |l.items| && Left(l.items[j]) && next == l.items[j].eligible;
      assert Ready(l.items[j], Round(c, l).cursor);
    }
  }

  lemma PlaceNextProgress(c: Setting, l: Layout, k: nat)
    requires k < |l.items| && Left(l.items[k])
    ensures CyclesLeft(PlaceNext(c, l, k).items) < CyclesLeft(l.items)
  {
    var r := PlaceNext(c, l, k);
    CyclesLeftUpdate(l.items, k, r.items[k]);
    assert r.items == l.items[k := r.items[k]];
  }

  // ---------------------------------------------------------------------
  // One block per occurrence

  /** The steps, skips and drop of a finished layout, put back into its build. */
  function Filled(build: Build, l: Layout): Build {
    build.(steps := Untag(l.placed), skipped := l.skipped, dropped := l.dropped)
  }

  /** The occurrence's claim on the controller: what it still has to water. */
  datatype Claim = Claim(index: nat, pending: seq<Item>, priority: int, createdAt: Instant, occurrence: OccurrenceId)

  function EarliestRequest(pending: seq<Item>): (r: Instant)
    requires pending != []
    ensures forall k :: 0 <= k < |pending| ==> r <= pending[k].requested
    ensures exists k :: 0 <= k < |pending| && r == pending[k].requested
  {
    if |pending| == 1 then pending[0].requested
    else Min(pending[0].requested, EarliestRequest(pending[1..]))
  }

  function EarliestEligible(pending: seq<Item>): (r: Instant)
    requires pending != []
    ensures forall k :: 0 <= k < |pending| ==> r <= pending[k].eligible
    ensures exists k :: 0 <= k < |pending| && r == pending[k].eligible
  {
    if |pending| == 1 then pending[0].eligible
    else Min(pending[0].eligible, EarliestEligible(pending[1..]))
  }

  /** The items of one occurrence that have cycles left, in order. */
  function PendingOf(items: seq<Item>, occurrence: OccurrenceId): seq<Item> {
    if items == [] then []
    else if items[0].occurrence == occurrence && Left(items[0])
    then [items[0]] + PendingOf(items[1..], occurrence)
    else PendingOf(items[1..], occurrence)
  }

  function ClaimsFrom(builds: seq<Build>, items: seq<Item>, i: nat): (r: seq<Claim>)
    requires i <= |builds|
    ensures forall k :: 0 <= k < |r| ==> i <= r[k].index < |builds| && r[k].pending != []
    decreases |builds| - i
  {
    if i == |builds| then []
    else
      var b := builds[i];
      var pending := PendingOf(items, b.occurrence.id);
      (if pending == [] then []
       else [Claim(i, pending, b.program.priority, b.occurrence.createdAt, b.occurrence.id)])
      + ClaimsFrom(builds, items, i + 1)
  }

  predicate ClaimLeq(a: Claim, b: Claim) {
    if a.pending == [] || b.pending == [] then a.pending == []
    else
      var x, y := EarliestRequest(a.pending), EarliestRequest(b.pending);
      x < y || (x == y &&
        (a.priority < b.priority || (a.priority == b.priority &&
          (a.createdAt < b.createdAt || (a.createdAt == b.createdAt && a.occurrence <= b.occurrence)))))
  }

  const BY_CLAIM: (Claim, Claim) -> bool := (a: Claim, b: Claim) => ClaimLeq(a, b)

  /** The end of the last step. */
  function BlockEnd(steps: seq<RunStep>): (r: Instant)
    requires steps != []
    ensures forall k :: 0 <= k < |steps| ==> steps[k].plannedEnd <= r
    ensures exists k :: 0 <= k < |steps| && r == steps[k].plannedEnd
  {
    if |steps| == 1 then steps[0].plannedEnd else Max(steps[0].plannedEnd, BlockEnd(steps[1..]))
  }

  /** The start of the first step. */
  function BlockStart(steps: seq<RunStep>): (r: Instant)
    requires steps != []
    ensures forall k :: 0 <= k < |steps| ==> r <= steps[k].plannedStart
    ensures exists k :: 0 <= k < |steps| && r == steps[k].plannedStart
  {
    if |steps| == 1 then steps[0].plannedStart else Min(steps[0].plannedStart, BlockStart(steps[1..]))
  }

  datatype Board = Board(builds: seq<Build>, conflicts: seq<Conflict>, free: Option<Instant>)

  function StartCursor(claim: Claim, free: Option<Instant>): Instant
    requires claim.pending != []
  {
    var cursor := EarliestEligible(claim.pending);
    if free.Some? then Max(cursor, free.value) else cursor
  }

  function SettingFor(input: Input, build: Build): Setting {
    Setting(build.occurrence.id, build.program.id, input.gap, build.program.window, input.offset)
  }

  /** The layout of one claim that gets the controller when it becomes free. */
  function LayoutOf(input: Input, build: Build, claim: Claim, free: Option<Instant>): Layout
    requires claim.pending != []
  {
    LayOut(SettingFor(input, build),
           Layout(claim.pending, [], build.skipped, false, StartCursor(claim, free), []))
  }

  function ServeClaim(input: Input, claim: Claim, b: Board): Board
    requires claim.index < |b.builds| && claim.pending != []
  {
    var l := LayoutOf(input, b.builds[claim.index], claim, b.free);
    var build := Filled(b.builds[claim.index], l);
    Board(b.builds[claim.index := build],
          b.conflicts + l.conflicts,
          if build.steps != [] && !build.dropped then Some(BlockEnd(build.steps) + input.gap) else b.free)
  }

  /** Each claim is for one of the builds, and has something to water. */
  predicate Claimable(claims: seq<Claim>, builds: nat) {
    forall k :: 0 <= k < |claims| ==> claims[k].index < builds && claims[k].pending != []
  }

  function ServeAll(input: Input, claims: seq<Claim>, b: Board): (r: Board)
    requires Claimable(claims, |b.builds|)
    ensures |r.builds| == |b.builds|
    decreases |claims|
  {
    if claims == [] then b else ServeAll(input, claims[1..], ServeClaim(input, claims[0], b))
  }

  function Claims(builds: seq<Build>, items: seq<Item>): (r: seq<Claim>)
    ensures forall k :: 0 <= k < |r| ==> r[k].index < |builds| && r[k].pending != []
  {
    var claims := ClaimsFrom(builds, items, 0);
    SortKeepsElements(claims);
    Sort(BY_CLAIM, claims)
  }

  lemma {:induction false} SortKeepsElements(claims: seq<Claim>)
    ensures forall k :: 0 <= k < |Sort(BY_CLAIM, claims)| ==> Sort(BY_CLAIM, claims)[k] in claims
  {
    SortPermutes(BY_CLAIM, claims);
    hide Sort, ClaimLeq;
  }

  function Schedule(input: Input, builds: seq<Build>, items: seq<Item>, conflicts: seq<Conflict>): Board {
    ServeAll(input, Claims(builds, items), Board(builds, conflicts, None))
  }

  // ---------------------------------------------------------------------
  // Lateness

  function EarliestRequested(steps: seq<RunStep>): (r: Instant)
    requires steps != []
    ensures forall k :: 0 <= k < |steps| ==> r <= steps[k].requestedStart
    ensures exists k :: 0 <= k < |steps| && r == steps[k].requestedStart
  {
    if |steps| == 1 then steps[0].requestedStart else Min(steps[0].requestedStart, EarliestRequested(steps[1..]))
  }

  predicate TooLate(input: Input, build: Build) {
    && build.steps != []
    && build.program.missedRun == SkipMissed
    && BlockStart(build.steps) > EarliestRequested(build.steps) + 60 * input.toleranceMinutes
  }

  function Withheld(build: Build): Build { build.(dropped := true, steps := []) }

  function ConflictOf(build: Build, reason: SkipReason): Conflict {
    Conflict(build.occurrence.id, build.program.id, None, reason)
  }

  /** The builds in order, and the conflicts of those dropped for being late. */
  function EnforceLateness(input: Input, builds: seq<Build>): (r: (seq<Build>, seq<Conflict>))
    ensures |r.0| == |builds|
  {
    if builds == [] then ([], [])
    else
      var rest := EnforceLateness(input, builds[1..]);
      if TooLate(input, builds[0])
      then ([Withheld(builds[0])] + rest.0, [ConflictOf(builds[0], MissedTolerance)] + rest.1)
      else ([builds[0]] + rest.0, rest.1)
  }

  // ---------------------------------------------------------------------
  // The collision detector

  predicate Active(build: Build) { build.steps != [] && !build.dropped }

  function ActiveOf(builds: seq<Build>): seq<Build> {
    if builds == [] then []
    else (if Active(builds[0]) then [builds[0]] else []) + ActiveOf(builds[1..])
  }

  const BY_START: (RunStep, RunStep) -> bool := (a: RunStep, b: RunStep) => a.plannedStart <= b.plannedStart

  function FirstStart(build: Build): Instant { if build.steps == [] then 0 else BlockStart(build.steps) }

  const BY_FIRST_START: (Build, Build) -> bool := (a: Build, b: Build) => FirstStart(a) <= FirstStart(b)

  /** Two consecutive steps of the run come closer than the gap. */
  predicate SelfCollides(gap: int, build: Build) {
    var sorted := Sort(BY_START, build.steps);
    exists i :: 0 <= i < |sorted| - 1 && sorted[i + 1].plannedStart < sorted[i].plannedEnd + gap
  }

  /** Split builds into those whose own steps keep the gap, and the rest. */
  function SelfCheck(gap: int, active: seq<Build>): (seq<Build>, seq<Build>) {
    if active == [] then ([], [])
    else
      var rest := SelfCheck(gap, active[1..]);
      if SelfCollides(gap, active[0])
      then (rest.0, [active[0]] + rest.1)
      else ([active[0]] + rest.0, rest.1)
  }

  /** Split builds, in order of start, into survivors and those that begin before the
      last survivor has ended and the gap has passed. */
  function CrossCheck(gap: int, active: seq<Build>, survivorEnd: Option<Instant>): (seq<Build>, seq<Build>)
    requires forall k :: 0 <= k < |active| ==> active[k].steps != []
    decreases |active|
  {
    if active == [] then ([], [])
    else if survivorEnd.Some? && BlockStart(active[0].steps) < survivorEnd.value + gap then
      var rest := CrossCheck(gap, active[1..], survivorEnd);
      (rest.0, [active[0]] + rest.1)
    else
      var rest := CrossCheck(gap, active[1..], Some(BlockEnd(active[0].steps)));
      ([active[0]] + rest.0, rest.1)
  }

  function WithholdAll(builds: seq<Build>, refused: seq<Build>): (r: seq<Build>)
    ensures |r| == |builds|
  {
    seq(|builds|, i requires 0 <= i < |builds| =>
      if builds[i] in refused then Withheld(builds[i]) else builds[i])
  }

  function CollisionConflicts(refused: seq<Build>): seq<Conflict> {
    seq(|refused|, k requires 0 <= k < |refused| => ConflictOf(refused[k], PlannerCollision))
  }

  /** The active builds in execution order. */
  function InOrder(builds: seq<Build>): seq<Build> { Sort(BY_FIRST_START, ActiveOf(builds)) }

  lemma {:induction false} ActiveOfElements(builds: seq<Build>)
    ensures forall b :: b in ActiveOf(builds) <==> b in builds && Active(b)
  {
    if builds != [] {
      ActiveOfElements(builds[1..]);
      assert builds == [builds[0]] + builds[1..];
    }
  }

  lemma {:induction false} SelfCheckElements(gap: int, active: seq<Build>)
    ensures var r := SelfCheck(gap, active);
      forall b :: (b in r.0 <==> b in active && !SelfCollides(gap, b))
               && (b in r.1 <==> b in active && SelfCollides(gap, b))
  {
    if active != [] {
      SelfCheckElements(gap, active[1..]);
      hide SelfCollides;
      assert active == [active[0]] + active[1..];
    }
  }

  lemma InOrderElements(builds: seq<Build>)
    ensures forall b :: b in InOrder(builds) <==> b in builds && Active(b)
  {
    ActiveOfElements(builds);
    SortPermutes(BY_FIRST_START, ActiveOf(builds));
  }

  /** The builds whose own steps keep the gap, in execution order. */
  function Sound(gap: int, builds: seq<Build>): (r: seq<Build>)
    ensures forall k :: 0 <= k < |r| ==> r[k].steps != []
  {
    InOrderElements(builds);
    SelfCheckElements(gap, InOrder(builds));
    var r := SelfCheck(gap, InOrder(builds)).0;
    assert forall k :: 0 <= k < |r| ==> r[k] in r && r[k] in InOrder(builds);
    r
  }

  /** The builds the detector refuses: first the self-colliding ones, then the interleaving ones. */
  function Refused(gap: int, builds: seq<Build>): seq<Build> {
    SelfCheck(gap, InOrder(builds)).1 + CrossCheck(gap, Sound(gap, builds), None).1
  }

  function DetectCollisions(gap: int, builds: seq<Build>): (r: (seq<Build>, seq<Conflict>))
    ensures |r.0| == |builds|
  {
    (WithholdAll(builds, Refused(gap, builds)), CollisionConflicts(Refused(gap, builds)))
  }

  // ---------------------------------------------------------------------
  // Compilation

  const BY_POSITION: (ZoneStep, ZoneStep) -> bool := (a: ZoneStep, b: ZoneStep) => a.position <= b.position

  predicate OccurrenceLeq(a: Occurrence, b: Occurrence) {
    a.start < b.start || (a.start == b.start && a.id <= b.id)
  }

  const BY_REQUEST: (Occurrence, Occurrence) -> bool := (a: Occurrence, b: Occurrence) => OccurrenceLeq(a, b)

  const BY_BUILD_REQUEST: (Build, Build) -> bool := (a: Build, b: Build) => OccurrenceLeq(a.occurrence, b.occurrence)

  function ItemsOf(input: Input, occurrence: Occurrence, steps: seq<ZoneStep>): seq<Item> {
    if steps == [] then []
    else
      var first := BuildWorkItem(input, occurrence, steps[0]);
      (if first.Work? then [first.item] else []) + ItemsOf(input, occurrence, steps[1..])
  }

  function SkipsOf(input: Input, occurrence: Occurrence, steps: seq<ZoneStep>): seq<SkippedZone> {
    if steps == [] then []
    else
      var first := BuildWorkItem(input, occurrence, steps[0]);
      (if first.Skip? then [first.zone] else []) + SkipsOf(input, occurrence, steps[1..])
  }

  /** Does the occurrence's program exist, and may it run? */
  predicate Runnable(input: Input, occurrence: Occurrence) {
    occurrence.program in input.programs &&
    (input.programs[occurrence.program].enabled || occurrence.manual)
  }

  function StepsInOrder(program: Program): seq<ZoneStep> { Sort(BY_POSITION, program.zoneSteps) }

  function BuildFor(input: Input, occurrence: Occurrence): Build
    requires Runnable(input, occurrence)
  {
    var program := input.programs[occurrence.program];
    Build(occurrence, program, [], SkipsOf(input, occurrence, StepsInOrder(program)), false)
  }

  datatype Prelude = Prelude(builds: seq<Build>, items: seq<Item>, conflicts: seq<Conflict>)

  /** The builds, work items and conflicts of the candidates, in order. */
  function Prepare(input: Input, candidates: seq<Occurrence>): Prelude {
    if candidates == [] then Prelude([], [], [])
    else
      var first, rest := candidates[0], Prepare(input, candidates[1..]);
      if Runnable(input, first)
      then Prelude([BuildFor(input, first)] + rest.builds,
                   ItemsOf(input, first, StepsInOrder(input.programs[first.program])) + rest.items,
                   rest.conflicts)
      else rest.(conflicts := [Conflict(first.id, first.program, None, ProgramDisabled)] + rest.conflicts)
  }

  predicate DroppedEntirely(build: Build) { build.dropped && build.steps == [] && build.skipped == [] }

  function FinalizeRun(build: Build): (RunPlan, seq<SkippedZone>) {
    (RunPlan(build.occurrence.id, build.program.id, build.occurrence.start, Sort(BY_START, build.steps)),
     build.skipped)
  }

  function Runs(builds: seq<Build>): seq<(RunPlan, seq<SkippedZone>)> {
    if builds == [] then []
    else (if DroppedEntirely(builds[0]) then [] else [FinalizeRun(builds[0])]) + Runs(builds[1..])
  }

  function Scheduled(input: Input, candidates: seq<Occurrence>): Board {
    var p := Prepare(input, Sort(BY_REQUEST, candidates));
    Schedule(input, p.builds, p.items, p.conflicts)
  }

  function CompileTimeline(input: Input, candidates: seq<Occurrence>): Timeline {
    var board := Scheduled(input, candidates);
    var (onTime, missed) := EnforceLateness(input, board.builds);
    var (builds, collisions) := DetectCollisions(input.gap, onTime);
    Timeline(Runs(Sort(BY_BUILD_REQUEST, builds)), board.conflicts + missed + collisions)
  }
}
