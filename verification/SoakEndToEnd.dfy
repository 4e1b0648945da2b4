/** The planner's soak spacing and the executor's gap wait together: in every execution on plan
    of compiled runs, restarts included, a zone's cycles stay apart by the soak, less the
    lateness of the earlier cycle. */
module SoakEndToEnd {
  import opened Domain
  import opened PlannerSpec
  import opened PlannerLayout
  import opened PlannerSchedule
  import opened PlannerTimeline
  import opened Sorting
  import ExecutorSpec
  import ExecutorOnce
  import ExecutorRuns
  import ExecutorSoak

  // ---------------------------------------------------------------------
  // What the planner provides

  lemma {:induction false} EligibleAfterOwn(items: seq<Item>, placed: seq<Placed>, n: nat, i: nat, k: nat)
    requires i < n <= |placed| && k < |items| && placed[i].owner == k
    requires forall a, b :: 0 <= a < b < n ==> placed[a].step.plannedEnd <= placed[b].step.plannedEnd
    ensures EligibleAfter(items, placed, n, k) >= placed[i].step.plannedEnd + items[k].soak
  {
    if placed[n - 1].owner != k { EligibleAfterOwn(items, placed, n - 1, i, k); }
  }

  /** A later cycle of the same zone is planned after the soak, and says so. */
  lemma {:induction false} CyclesSoak(
    c: Setting, items: seq<Item>, skipped: seq<SkippedZone>, begin: Instant, i: nat, n: nat)
    requires c.gap >= 0 && FreshItems(items) && i < n < |Finished(c, items, skipped, begin).placed|
    requires var l := Finished(c, items, skipped, begin); l.placed[i].owner == l.placed[n].owner
    ensures var l := Finished(c, items, skipped, begin);
      var k := l.placed[n].owner;
      && k < |items|
      && l.placed[n].step.plannedStart >= l.placed[i].step.plannedEnd + items[k].soak
      && (items[k].soak > 0 ==> l.placed[n].step.soakBefore)
  {
    var l := Finished(c, items, skipped, begin);
    var k := l.placed[n].owner;
    LayoutIsLaid(c, items, skipped, begin);
    forall a, b | 0 <= a < b < n ensures l.placed[a].step.plannedEnd <= l.placed[b].step.plannedEnd {
      assert StepKept(c, items, l, b);
      assert Spaced(c, begin, l);
    }
    hide Finished, Kept, Laid, InWindow, FreshItems, Spaced;
    StepsAreCycles(c, items, skipped, begin, n);
    EligibleAfterOwn(items, l.placed, n, i, k);
    PlacedIsCounted(l.placed, n, i, k);
  }

  lemma {:induction false} PlacedIsCounted(placed: seq<Placed>, n: nat, i: nat, k: nat)
    requires i < n <= |placed| && placed[i].owner == k
    ensures CountOf(placed, n, k) >= 1
  {
    if i < n - 1 { PlacedIsCounted(placed, n - 1, i, k); }
  }

  /** A compiled run never begins with a soaked cycle. */
  lemma FirstStepNotSoaked(c: Setting, items: seq<Item>, skipped: seq<SkippedZone>, begin: Instant)
    requires c.gap >= 0 && FreshItems(items) && Finished(c, items, skipped, begin).placed != []
    ensures !Finished(c, items, skipped, begin).placed[0].step.soakBefore
  {
    StepsAreCycles(c, items, skipped, begin, 0);
    hide Finished;
  }

  // ---------------------------------------------------------------------
  // Compiled runs

  /** The plan of a run in some compiled timeline. */
  ghost predicate Compiled(plan: RunPlan) {
    exists input, candidates, skipped ::
      ProperInput(input) && DistinctCandidates(candidates) && (plan, skipped) in CompileTimeline(input, candidates).runs
  }

  lemma CompiledBeginsUnsoaked(plan: RunPlan)
    requires Compiled(plan) && plan.steps != []
    ensures !plan.steps[0].soakBefore
  {
    var input: Input, candidates: seq<Occurrence>, skipped: seq<SkippedZone> :|
      && ProperInput(input) && DistinctCandidates(candidates)
      && (plan, skipped) in CompileTimeline(input, candidates).runs;
    var m := RunIsLaidOut(input, candidates, (plan, skipped));
    var claims, builds := ClaimsOf(input, candidates), Scheduled(input, candidates).builds;
    var claim, build := claims[m], builds[claims[m].index];
    RunsAreLayouts(input, candidates, m);
    WorkIsFresh(input, build.occurrence);
    var begin := StartCursor(claim, FreeBefore(input.gap, builds, claims, m, None));
    hide Finished, FreshItems, CompileTimeline, Scheduled, ClaimsOf, StepsInOrder, SkipsOf, StartCursor, FreeBefore,
         WorkOf;
    FirstStepNotSoaked(SettingFor(input, build), claim.pending,
                       SkipsOf(input, build.occurrence, StepsInOrder(build.program)), begin);
  }

  /** The i-th step is a cycle of that zone step of the occurrence's program. */
  predicate CycleOf(plan: RunPlan, i: nat, o: Occurrence, z: ZoneStep)
    requires i < |plan.steps|
  {
    plan.steps[i].zone == z.zone && plan.steps[i].requestedStart == o.start + z.requestedOffset
  }

  function SoakOf(input: Input, z: ZoneStep): int
    requires z.zone in input.zones
  {
    60 * EffectiveSoakMinutes(input.zones[z.zone], z)
  }

  /** The two steps are planned the soak apart, and the later one says that it waits for it. */
  predicate SoakedApart(plan: RunPlan, i: nat, n: nat, soak: int)
    requires i < n < |plan.steps|
  {
    && plan.steps[n].plannedStart >= plan.steps[i].plannedStart + 60 * plan.steps[i].duration + soak
    && (soak > 0 ==> plan.steps[n].soakBefore)
  }

  lemma {:induction false} OwnerIs(input: Input, o: Occurrence, steps: seq<ZoneStep>, z: ZoneStep, k: nat)
    requires ProperInput(input) && k < |ItemsOf(input, o, steps)| && DistinctZoneRequests(steps) && z in steps
    requires var it := ItemsOf(input, o, steps)[k]; it.zone == z.zone && it.requested == o.start + z.requestedOffset
    ensures z.zone in input.zones && ItemsOf(input, o, steps)[k].soak == SoakOf(input, z)
  {
    ItemSource(input, o, steps, k);
    hide BuildWorkItem, ItemsOf, EffectiveSoakMinutes, ProperInput;
    var y :| y in steps && BuildWorkItem(input, o, y) == Work(ItemsOf(input, o, steps)[k]);
    SourceOf(input, o, y);
    OneStep(steps, y, z);
  }

  lemma OneStep(steps: seq<ZoneStep>, y: ZoneStep, z: ZoneStep)
    requires DistinctZoneRequests(steps) && y in steps && z in steps && SameRequest(y, z)
    ensures y == z
  {
    var a :| 0 <= a < |steps| && steps[a] == y;
    var b :| 0 <= b < |steps| && steps[b] == z;
    assert SameRequest(steps[a], steps[b]) && SameRequest(steps[b], steps[a]);
  }

  lemma SourceOf(input: Input, o: Occurrence, y: ZoneStep)
    requires ProperInput(input) && BuildWorkItem(input, o, y).Work?
    ensures var it := BuildWorkItem(input, o, y).item;
      && y.zone in input.zones && it.zone == y.zone && it.requested == o.start + y.requestedOffset
      && it.soak == SoakOf(input, y)
  {
    hide TotalMinutes, AllocateCycles, AdjustmentFor, EffectiveSoakMinutes;
  }

  /** The build of the m-th claim, and its layout. */
  ghost function BuildOf(input: Input, candidates: seq<Occurrence>, m: nat): Build
    requires ProperInput(input) && DistinctCandidates(candidates) && m < |ClaimsOf(input, candidates)|
  {
    RunsAreLayouts(input, candidates, m);
    Scheduled(input, candidates).builds[ClaimsOf(input, candidates)[m].index]
  }

  ghost function LaidOut(input: Input, candidates: seq<Occurrence>, m: nat): Layout
    requires ProperInput(input) && DistinctCandidates(candidates) && m < |ClaimsOf(input, candidates)|
  {
    RunsAreLayouts(input, candidates, m);
    var (builds, claims) := (Scheduled(input, candidates).builds, ClaimsOf(input, candidates));
    var build := BuildOf(input, candidates, m);
    Finished(SettingFor(input, build), WorkOf(input, build.occurrence),
             SkipsOf(input, build.occurrence, StepsInOrder(build.program)),
             StartCursor(claims[m], FreeBefore(input.gap, builds, claims, m, None)))
  }

  /** The run is what the m-th claim was laid out as. */
  ghost predicate RunOf(input: Input, candidates: seq<Occurrence>, m: nat, plan: RunPlan)
    requires ProperInput(input) && DistinctCandidates(candidates)
  {
    && m < |ClaimsOf(input, candidates)|
    && plan.occurrence == BuildOf(input, candidates, m).occurrence.id
    && BuildOf(input, candidates, m).occurrence in candidates
    && Runnable(input, BuildOf(input, candidates, m).occurrence)
    && plan.steps == Untag(LaidOut(input, candidates, m).placed)
  }

  /** Every run of the timeline that waters is. */
  lemma RunIsOfClaim(input: Input, candidates: seq<Occurrence>, run: (RunPlan, seq<SkippedZone>)) returns (m: nat)
    requires ProperInput(input) && DistinctCandidates(candidates)
    requires run in CompileTimeline(input, candidates).runs && run.0.steps != []
    ensures RunOf(input, candidates, m, run.0)
  {
    m := RunIsLaidOut(input, candidates, run);
    RunsAreLayouts(input, candidates, m);
    hide Finished, CompileTimeline, Scheduled, ClaimsOf, StepsInOrder, SkipsOf, StartCursor, FreeBefore, WorkOf,
         ProperInput, Untag;
  }

  /** The two steps are cycles of the same work item, the k-th of the run's occurrence. */
  ghost predicate OneItem(input: Input, candidates: seq<Occurrence>, m: nat, i: nat, n: nat, k: nat)
    requires ProperInput(input) && DistinctCandidates(candidates) && m < |ClaimsOf(input, candidates)|
  {
    var placed := LaidOut(input, candidates, m).placed;
    && i < n < |placed| && placed[i].owner == placed[n].owner == k
    && Runnable(input, BuildOf(input, candidates, m).occurrence)
    && k < |WorkOf(input, BuildOf(input, candidates, m).occurrence)|
  }

  ghost function ItemSoak(input: Input, candidates: seq<Occurrence>, m: nat, k: nat): int
    requires ProperInput(input) && DistinctCandidates(candidates) && m < |ClaimsOf(input, candidates)|
    requires Runnable(input, BuildOf(input, candidates, m).occurrence)
    requires k < |WorkOf(input, BuildOf(input, candidates, m).occurrence)|
  {
    WorkOf(input, BuildOf(input, candidates, m).occurrence)[k].soak
  }

  /** Two cycles of one work item of a compiled run are planned the soak apart. */
  lemma {:induction false} CompiledCyclesSoak(
    input: Input, candidates: seq<Occurrence>, m: nat, plan: RunPlan, i: nat, n: nat, k: nat)
    requires ProperInput(input) && DistinctCandidates(candidates) && RunOf(input, candidates, m, plan)
    requires OneItem(input, candidates, m, i, n, k)
    ensures n < |plan.steps| && SoakedApart(plan, i, n, ItemSoak(input, candidates, m, k))
  {
    var (builds, claims) := (Scheduled(input, candidates).builds, ClaimsOf(input, candidates));
    var build := BuildOf(input, candidates, m);
    RunsAreLayouts(input, candidates, m);
    WorkIsFresh(input, build.occurrence);
    assert input.gap >= 0;
    hide Finished, CompileTimeline, Scheduled, ClaimsOf, StepsInOrder, SkipsOf, StartCursor, FreeBefore, WorkOf,
         ProperInput, EffectiveSoakMinutes, FreshItems, BuildOf, Claimable;
    LayoutSoaks(SettingFor(input, build), WorkOf(input, build.occurrence),
                SkipsOf(input, build.occurrence, StepsInOrder(build.program)),
                StartCursor(claims[m], FreeBefore(input.gap, builds, claims, m, None)), plan, i, n);
  }

  lemma {:induction false} LayoutSoaks(
    c: Setting, items: seq<Item>, skipped: seq<SkippedZone>, begin: Instant, plan: RunPlan, i: nat, n: nat)
    requires c.gap >= 0 && FreshItems(items) && i < n < |Finished(c, items, skipped, begin).placed|
    requires var placed := Finished(c, items, skipped, begin).placed;
      plan.steps == Untag(placed) && placed[i].owner == placed[n].owner < |items|
    ensures SoakedApart(plan, i, n, items[Finished(c, items, skipped, begin).placed[n].owner].soak)
  {
    var l := Finished(c, items, skipped, begin);
    hide Finished, FreshItems, CountOf, EligibleAfter;
    StepsAreCycles(c, items, skipped, begin, i);
    assert plan.steps[i] == l.placed[i].step && plan.steps[n] == l.placed[n].step;
    CyclesSoak(c, items, skipped, begin, i, n);
  }

  /** Where a program lists no zone twice at one offset, the cycles of a zone step are those of
      one work item, with the soak of that zone step. */
  lemma {:induction false} ZoneStepIsItem(
    input: Input, candidates: seq<Occurrence>, m: nat, plan: RunPlan, o: Occurrence, z: ZoneStep, i: nat, n: nat)
    returns (k: nat)
    requires ProperInput(input) && DistinctCandidates(candidates) && RunOf(input, candidates, m, plan)
    requires o in candidates && plan.occurrence == o.id && o.program in input.programs
    requires DistinctZoneRequests(input.programs[o.program].zoneSteps) && z in input.programs[o.program].zoneSteps
    requires i < n < |plan.steps| && CycleOf(plan, i, o, z) && CycleOf(plan, n, o, z)
    ensures OneItem(input, candidates, m, i, n, k)
    ensures z.zone in input.zones && ItemSoak(input, candidates, m, k) == SoakOf(input, z)
  {
    var build, l := BuildOf(input, candidates, m), LaidOut(input, candidates, m);
    RunsAreLayouts(input, candidates, m);
    assert build.occurrence == o by {
      var a :| 0 <= a < |candidates| && candidates[a] == o;
      var b :| 0 <= b < |candidates| && candidates[b] == build.occurrence;
      hide CompileTimeline, Scheduled, ClaimsOf, WorkOf, StartCursor, Finished, Claimable, ProperInput, LaidOut,
           BuildOf;
    }
    var (builds, claims) := (Scheduled(input, candidates).builds, ClaimsOf(input, candidates));
    assert input.gap >= 0;
    hide Finished, CompileTimeline, Scheduled, ClaimsOf, StepsInOrder, SkipsOf, StartCursor, FreeBefore, WorkOf,
         CycleOf, ProperInput, EffectiveSoakMinutes, Untag, BuildOf, Claimable;
    k := OwnerOf(input, o, z, SettingFor(input, build), SkipsOf(input, o, StepsInOrder(build.program)),
                 StartCursor(claims[m], FreeBefore(input.gap, builds, claims, m, None)), plan, i, n);
  }

  lemma {:induction false} OwnerOf(
    input: Input, o: Occurrence, z: ZoneStep, c: Setting, skipped: seq<SkippedZone>, begin: Instant,
    plan: RunPlan, i: nat, n: nat) returns (k: nat)
    requires ProperInput(input) && Runnable(input, o) && c.gap >= 0
    requires DistinctZoneRequests(input.programs[o.program].zoneSteps) && z in input.programs[o.program].zoneSteps
    requires plan.steps == Untag(Finished(c, WorkOf(input, o), skipped, begin).placed)
    requires i < n < |plan.steps| && CycleOf(plan, i, o, z) && CycleOf(plan, n, o, z)
    ensures var placed := Finished(c, WorkOf(input, o), skipped, begin).placed;
      n < |placed| && placed[i].owner == placed[n].owner == k < |WorkOf(input, o)|
    ensures z.zone in input.zones && WorkOf(input, o)[k].soak == SoakOf(input, z)
  {
    var items := WorkOf(input, o);
    var l := Finished(c, items, skipped, begin);
    var program := input.programs[o.program];
    WorkIsFresh(input, o);
    WorkIsDistinct(input, o);
    DistinctSteps(program);
    SortPermutes(BY_POSITION, program.zoneSteps);
    assert z in StepsInOrder(program) && items == ItemsOf(input, o, StepsInOrder(program)) by { hide Sort, ItemsOf; }
    hide StepsInOrder, ItemsOf, Sort, DistinctZoneRequests, Finished, WorkOf, FreshItems, ProperInput,
         EffectiveSoakMinutes, CountOf, EligibleAfter;
    StepsAreCycles(c, items, skipped, begin, i);
    StepsAreCycles(c, items, skipped, begin, n);
    assert plan.steps[i] == l.placed[i].step && plan.steps[n] == l.placed[n].step;
    k := l.placed[n].owner;
    var k1 := l.placed[i].owner;
    assert items[k].zone == items[k1].zone && items[k].requested == items[k1].requested;
    assert k == k1;
    OwnerIs(input, o, StepsInOrder(program), z, k);
  }

  // ---------------------------------------------------------------------
  // What the executor preserves

  /** Every run that is started was compiled. */
  ghost predicate StartsCompiled(trace: ExecutorRuns.Trace) {
    forall k :: 0 <= k < |trace| && trace[k].0.StartRunEvent? ==> Compiled(trace[k].0.plan)
  }

  /** The e-th event sends the n-th start command of the run. */
  predicate Commands(trace: ExecutorRuns.Trace, e: nat, plan: RunPlan, n: nat, at: Instant)
    requires e < |trace|
  {
    var s := ExecutorRuns.Run(ExecutorRuns.INITIAL, trace[..e]);
    var start := ExecutorOnce.NewStart(s, ExecutorRuns.Step(s, trace[e].0, trace[e].1));
    && start.Some? && start.value.StartZone? && start.value.index == n && start.value.at == at
    && ExecutorRuns.PlanOf(s, trace[e].0) == Some(plan)
  }

  lemma {:induction false} CommandsOnTime(
    pace: ExecutorSoak.Pace, trace: ExecutorRuns.Trace, e: nat, plan: RunPlan, n: nat, at: Instant)
    requires StartsCompiled(trace) && ExecutorSoak.OnPlanTrace(pace, ExecutorRuns.INITIAL, trace) && e < |trace|
    requires Commands(trace, e, plan, n, at)
    ensures n < |plan.steps| && ExecutorSoak.SoakOver(plan, n, at)
    ensures n > 0 ==>
      var j := ExecutorRuns.JournalOf(ExecutorRuns.Run(ExecutorRuns.INITIAL, trace[..e]), trace[e].0);
      j.plan == Some(plan) && ExecutorSoak.AllRunBefore(pace, j, n, at - ExecutorSoak.GapOf(pace))
  {
    forall k | 0 <= k < |trace| ensures ExecutorSoak.BeginsUnsoaked(trace[k].0) {
      var event := trace[k].0;
      if event.StartRunEvent? && event.plan.steps != [] { CompiledBeginsUnsoaked(event.plan); }
      hide Compiled;
    }
    hide ExecutorRuns.Step, ExecutorRuns.Run, ExecutorSoak.AllOnTime, ExecutorSoak.OnPlanTrace,
         ExecutorSoak.AllRunBefore, ExecutorSoak.SoakOver, Compiled, ExecutorOnce.NewStart;
    ExecutorSoak.SoakedStartsWaitFromStart(pace, trace);
    ExecutorSoak.OnTimeAt(pace, ExecutorRuns.INITIAL, trace, e);
  }

  /** The earlier cycle had run, and had been due to end at least the soak, less its lateness,
      before. */
  ghost predicate SoakedBefore(
    pace: ExecutorSoak.Pace, trace: ExecutorRuns.Trace, e: nat, plan: RunPlan, i: nat, soak: int, at: Instant)
    requires e < |trace| && i < |plan.steps|
  {
    var j := ExecutorRuns.JournalOf(ExecutorRuns.Run(ExecutorRuns.INITIAL, trace[..e]), trace[e].0);
    && |j.results| > i && ExecutorSoak.HasRun(pace, j.results[i], at - ExecutorSoak.GapOf(pace))
    && var (began, previous) := (j.results[i].actualStart.value, plan.steps[i]);
       var (dueEnd, lateness) := (began + 60 * previous.duration, began - previous.plannedStart);
       soak > 0 ==> at >= dueEnd + soak - lateness
  }

  /** In any execution on plan of compiled runs, from the initial state: when the executor
      commands a cycle of a work item, every earlier cycle of it has run, and had been due to
      end at least the soak, less that cycle's lateness, before. */
  lemma {:induction false} SoakSurvivesExecution(
    input: Input, candidates: seq<Occurrence>, m: nat, plan: RunPlan, i: nat, n: nat, k: nat,
    pace: ExecutorSoak.Pace, trace: ExecutorRuns.Trace, e: nat, at: Instant)
    requires ProperInput(input) && DistinctCandidates(candidates) && RunOf(input, candidates, m, plan)
    requires OneItem(input, candidates, m, i, n, k)
    requires StartsCompiled(trace) && ExecutorSoak.OnPlanTrace(pace, ExecutorRuns.INITIAL, trace) && e < |trace|
    requires Commands(trace, e, plan, n, at)
    ensures i < |plan.steps| && SoakedBefore(pace, trace, e, plan, i, ItemSoak(input, candidates, m, k), at)
  {
    CompiledCyclesSoak(input, candidates, m, plan, i, n, k);
    assert i < n;
    hide ProperInput, ExecutorRuns.Step, ExecutorRuns.Run, ExecutorSoak.OnPlanTrace, StartsCompiled, Commands, RunOf,
         OneItem, ItemSoak;
    CommandsOnTime(pace, trace, e, plan, n, at);
  }

  /** The same of a zone step, for programs that list no zone twice at one offset. */
  lemma {:induction false} ZoneStepSoakSurvives(
    input: Input, candidates: seq<Occurrence>, run: (RunPlan, seq<SkippedZone>), o: Occurrence, z: ZoneStep,
    i: nat, n: nat, pace: ExecutorSoak.Pace, trace: ExecutorRuns.Trace, e: nat, at: Instant)
    requires ProperInput(input) && DistinctCandidates(candidates) && run in CompileTimeline(input, candidates).runs
    requires o in candidates && run.0.occurrence == o.id && o.program in input.programs
    requires DistinctZoneRequests(input.programs[o.program].zoneSteps) && z in input.programs[o.program].zoneSteps
    requires i < n < |run.0.steps| && CycleOf(run.0, i, o, z) && CycleOf(run.0, n, o, z)
    requires StartsCompiled(trace) && ExecutorSoak.OnPlanTrace(pace, ExecutorRuns.INITIAL, trace) && e < |trace|
    requires Commands(trace, e, run.0, n, at)
    ensures z.zone in input.zones && SoakedBefore(pace, trace, e, run.0, i, SoakOf(input, z), at)
  {
    hide *;
    var m := RunIsOfClaim(input, candidates, run);
    var k := ZoneStepIsItem(input, candidates, m, run.0, o, z, i, n);
    SoakSurvivesExecution(input, candidates, m, run.0, i, n, k, pace, trace, e, at);
  }
}
