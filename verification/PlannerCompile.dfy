/** The rest of the compiler as it runs: preparation, the lateness rule, the collision
    detector and the finished timeline. */
module PlannerCompile {
  import opened Domain
  import opened Sorting
  import opened Planner
  import Spec = PlannerSpec
  import PlannerTimeline

  // ---------------------------------------------------------------------
  // Lateness

  method EnforceAt(input: Spec.Input, builds: seq<OccurrenceBuild>, i: nat, log: ConflictLog)
    requires DistinctObjects(builds) && AllValid(builds) && i < |builds|
    modifies builds[i], log
    ensures AllValid(builds)
    ensures BuildViews(builds) == old(BuildViews(builds))[i := Outcome(input, old(builds[i].View()))]
    ensures log.entries == old(log.entries) + Missed(input, old(builds[i].View()))
  {
    ghost var before := BuildViews(builds);
    assert forall j :: 0 <= j < |builds| && j != i ==> builds[j] != builds[i];
    hide BuildViews, Spec.TooLate;
    if Spec.TooLate(input, builds[i].View()) { WithholdBuild(builds[i], log, Spec.MissedTolerance); }
    BuildViewsUpdated(before, builds, i);
  }

  /** Drop the builds that start too late for a program that skips missed runs. */
  method EnforceLateness(input: Spec.Input, builds: seq<OccurrenceBuild>, log: ConflictLog)
    requires DistinctObjects(builds) && AllValid(builds)
    modifies builds, log
    ensures AllValid(builds)
    ensures BuildViews(builds) == Spec.EnforceLateness(input, old(BuildViews(builds))).0
    ensures log.entries == old(log.entries) + Spec.EnforceLateness(input, old(BuildViews(builds))).1
  {
    ghost var before, earlier := BuildViews(builds), log.entries;
    EnforcingStarts(input, before, earlier);
    hide BuildViews, Outcome, Spec.EnforceLateness, Missed, Enforcing;
    for i := 0 to |builds|
      invariant AllValid(builds) && Enforcing(input, before, earlier, BuildViews(builds), log.entries, i)
    {
      EnforcingNext(input, before, earlier, BuildViews(builds), log.entries, i);
      EnforceAt(input, builds, i, log);
    }
    EnforcingEnds(input, before, earlier, BuildViews(builds), log.entries);
  }

  /** The first i builds are checked, and the others' conflicts are still to come. */
  ghost predicate Enforcing(
    input: Spec.Input, before: seq<Spec.Build>, earlier: seq<Spec.Conflict>,
    now: seq<Spec.Build>, entries: seq<Spec.Conflict>, i: nat)
  {
    && i <= |before| && now == Partly(input, before, i)
    && entries + Spec.EnforceLateness(input, before[i..]).1 == earlier + Spec.EnforceLateness(input, before).1
  }

  lemma {:induction false} EnforcingStarts(input: Spec.Input, before: seq<Spec.Build>, earlier: seq<Spec.Conflict>)
    ensures Enforcing(input, before, earlier, before, earlier, 0)
  {
    PartlyEnds(input, before);
    assert before[0..] == before;
    hide Spec.EnforceLateness, Partly;
  }

  lemma {:induction false} EnforcingNext(
    input: Spec.Input, before: seq<Spec.Build>, earlier: seq<Spec.Conflict>,
    now: seq<Spec.Build>, entries: seq<Spec.Conflict>, i: nat)
    requires Enforcing(input, before, earlier, now, entries, i) && i < |before|
    ensures |now| == |before|
    ensures Enforcing(input, before, earlier, now[i := Outcome(input, now[i])], entries + Missed(input, now[i]), i + 1)
  {
    MissedStep(input, before, i);
    PartlyStep(input, before, i);
    hide Spec.EnforceLateness, Missed, Outcome;
  }

  lemma {:induction false} EnforcingEnds(
    input: Spec.Input, before: seq<Spec.Build>, earlier: seq<Spec.Conflict>,
    now: seq<Spec.Build>, entries: seq<Spec.Conflict>)
    requires Enforcing(input, before, earlier, now, entries, |before|)
    ensures now == Spec.EnforceLateness(input, before).0
    ensures entries == earlier + Spec.EnforceLateness(input, before).1
  {
    PartlyEnds(input, before);
    assert before[|before|..] == [];
    NoneMissed(input);
    hide Spec.EnforceLateness, Partly;
  }

  /** The first i builds checked, the others not yet. */
  function Partly(input: Spec.Input, builds: seq<Spec.Build>, i: nat): seq<Spec.Build> {
    seq(|builds|, j requires 0 <= j < |builds| => if j < i then Outcome(input, builds[j]) else builds[j])
  }

  lemma PartlyStep(input: Spec.Input, builds: seq<Spec.Build>, i: nat)
    requires i < |builds|
    ensures Partly(input, builds, i)[i] == builds[i]
    ensures Partly(input, builds, i + 1) == Partly(input, builds, i)[i := Outcome(input, builds[i])]
  {
    hide Outcome;
  }

  lemma {:induction false} PartlyEnds(input: Spec.Input, builds: seq<Spec.Build>)
    ensures Partly(input, builds, 0) == builds
    ensures Partly(input, builds, |builds|) == Spec.EnforceLateness(input, builds).0
  {
    LatenessPointwise(input, builds);
    hide Outcome, Spec.EnforceLateness;
  }

  lemma {:induction false} NoneMissed(input: Spec.Input)
    ensures Spec.EnforceLateness(input, []).1 == []
  {}

  function Missed(input: Spec.Input, build: Spec.Build): seq<Spec.Conflict> {
    if Spec.TooLate(input, build) then [Spec.ConflictOf(build, Spec.MissedTolerance)] else []
  }

  lemma {:induction false} MissedStep(input: Spec.Input, builds: seq<Spec.Build>, i: nat)
    requires i < |builds|
    ensures Spec.EnforceLateness(input, builds[i..]).1
      == Missed(input, builds[i]) + Spec.EnforceLateness(input, builds[i + 1..]).1
  {
    assert builds[i..][1..] == builds[i + 1..];
    hide Spec.TooLate;
  }

  function Outcome(input: Spec.Input, build: Spec.Build): Spec.Build {
    if Spec.TooLate(input, build) then Spec.Withheld(build) else build
  }

  lemma {:induction false} LatenessPointwise(input: Spec.Input, builds: seq<Spec.Build>)
    ensures forall i :: 0 <= i < |builds| ==> Spec.EnforceLateness(input, builds).0[i] == Outcome(input, builds[i])
  {
    forall i | 0 <= i < |builds| ensures Spec.EnforceLateness(input, builds).0[i] == Outcome(input, builds[i]) {
      PlannerTimeline.LatenessDrops(input, builds, i);
    }
  }

  /** Drop a run and report why. */
  method WithholdBuild(build: OccurrenceBuild, log: ConflictLog, reason: Spec.SkipReason)
    requires build.Valid()
    modifies build, log
    ensures build.Valid() && build.View() == Spec.Withheld(old(build.View()))
    ensures log.entries == old(log.entries) + [Spec.ConflictOf(old(build.View()), reason)]
  {
    build.Drop();
    log.entries := log.entries + [Spec.Conflict(build.occurrence.id, build.program.id, None, reason)];
  }

  // ---------------------------------------------------------------------
  // The collision detector

  /** Do two consecutive steps, in order of start, come closer than the gap? */
  method SelfCollides(gap: int, build: Spec.Build) returns (collides: bool)
    ensures collides == Spec.SelfCollides(gap, build)
  {
    var steps := Sort(Spec.BY_START, build.steps);
    hide Sort;
    var i := 0;
    while i + 1 < |steps|
      invariant forall j :: 0 <= j < i && j + 1 < |steps| ==> !(steps[j + 1].plannedStart < steps[j].plannedEnd + gap)
    {
      if steps[i + 1].plannedStart < steps[i].plannedEnd + gap { return true; }
      i := i + 1;
    }
    return false;
  }

  lemma {:induction false} SelfCheckAppend(gap: int, a: seq<Spec.Build>, b: Spec.Build)
    ensures var (r, s) := (Spec.SelfCheck(gap, a), Spec.SelfCheck(gap, a + [b]));
      s == if Spec.SelfCollides(gap, b) then (r.0, r.1 + [b]) else (r.0 + [b], r.1)
  {
    hide Spec.SelfCollides;
    if a == [] {
      assert a + [b] == [b];
      assert [b][1..] == [];
      var none: seq<Spec.Build> := [];
      assert Spec.SelfCheck(gap, [b][1..]) == (none, none) && none + [b] == [b] == [b] + none;
    } else {
      SelfCheckAppend(gap, a[1..], b);
      assert (a + [b])[1..] == a[1..] + [b] && (a + [b])[0] == a[0];
      var rest := Spec.SelfCheck(gap, a[1..]);
      assert [a[0]] + (rest.0 + [b]) == [a[0]] + rest.0 + [b] && [a[0]] + (rest.1 + [b]) == [a[0]] + rest.1 + [b];
    }
  }

  /** Separate the runs whose own steps collide. */
  method SelfCheck(gap: int, active: seq<Spec.Build>) returns (sound: seq<Spec.Build>, refused: seq<Spec.Build>)
    ensures (sound, refused) == Spec.SelfCheck(gap, active)
  {
    sound, refused := [], [];
    for i := 0 to |active|
      invariant (sound, refused) == Spec.SelfCheck(gap, active[..i])
    {
      var collides := SelfCollides(gap, active[i]);
      SelfCheckAppend(gap, active[..i], active[i]);
      assert active[..i] + [active[i]] == active[..i + 1];
      hide Spec.SelfCheck, Spec.SelfCollides;
      if collides { refused := refused + [active[i]]; } else { sound := sound + [active[i]]; }
    }
    assert active[..|active|] == active;
  }

  /** Walk the runs in execution order; refuse each one that begins inside the last survivor. */
  method CrossCheck(gap: int, active: seq<Spec.Build>) returns (refused: seq<Spec.Build>)
    requires forall k :: 0 <= k < |active| ==> active[k].steps != []
    ensures refused == Spec.CrossCheck(gap, active, None).1
  {
    refused := [];
    var survivorEnd: Option<Instant> := None;
    assert active[0..] == active;
    hide Spec.BlockStart, Spec.BlockEnd;
    for i := 0 to |active|
      invariant refused + Spec.CrossCheck(gap, active[i..], survivorEnd).1 == Spec.CrossCheck(gap, active, None).1
    {
      assert active[i..][1..] == active[i + 1..];
      if survivorEnd.Some? && Spec.BlockStart(active[i].steps) < survivorEnd.value + gap {
        refused := refused + [active[i]];
      } else {
        survivorEnd := Some(Spec.BlockEnd(active[i].steps));
      }
    }
  }

  /** Withhold every run that collides, on its own or with an earlier survivor. */
  method DetectCollisions(gap: int, builds: seq<OccurrenceBuild>, log: ConflictLog)
    requires DistinctObjects(builds) && AllValid(builds)
    modifies builds, log
    ensures AllValid(builds)
    ensures BuildViews(builds) == Spec.DetectCollisions(gap, old(BuildViews(builds))).0
    ensures log.entries == old(log.entries) + Spec.DetectCollisions(gap, old(BuildViews(builds))).1
  {
    ghost var before := BuildViews(builds);
    var sound, collided := SelfCheck(gap, Spec.InOrder(BuildViews(builds)));
    assert sound == Spec.Sound(gap, before);
    var refused := CrossCheck(gap, sound);
    refused := collided + refused;
    assert refused == Spec.Refused(gap, before);
    hide BuildViews, Spec.InOrder, Spec.SelfCheck, Spec.CrossCheck, Spec.Refused, Spec.Sound;
    WithholdAll(builds, refused);
    log.entries := log.entries + Spec.CollisionConflicts(refused);
  }

  method WithholdAll(builds: seq<OccurrenceBuild>, refused: seq<Spec.Build>)
    requires DistinctObjects(builds) && AllValid(builds)
    modifies builds
    ensures AllValid(builds)
    ensures BuildViews(builds) == Spec.WithholdAll(old(BuildViews(builds)), refused)
  {
    ghost var before := BuildViews(builds);
    hide BuildViews;
    for i := 0 to |builds|
      invariant AllValid(builds)
      invariant forall j :: 0 <= j < i ==>
        builds[j].View() == if before[j] in refused then Spec.Withheld(before[j]) else before[j]
      invariant forall j :: i <= j < |builds| ==> builds[j].View() == before[j]
    {
      var build := builds[i];
      assert forall j :: 0 <= j < |builds| && j != i ==> builds[j] != build;
      if build.View() in refused { build.Drop(); }
    }
  }

  // ---------------------------------------------------------------------
  // Preparation

  lemma {:induction false} ItemsAppend(input: Spec.Input, o: Spec.Occurrence, a: seq<Spec.ZoneStep>, b: Spec.ZoneStep)
    ensures var r := Spec.BuildWorkItem(input, o, b);
      && Spec.ItemsOf(input, o, a + [b]) == Spec.ItemsOf(input, o, a) + (if r.Work? then [r.item] else [])
      && Spec.SkipsOf(input, o, a + [b]) == Spec.SkipsOf(input, o, a) + (if r.Skip? then [r.zone] else [])
  {
    hide Spec.BuildWorkItem;
    if a == [] {
      assert a + [b] == [b] && [b][1..] == [];
    } else {
      ItemsAppend(input, o, a[1..], b);
      assert (a + [b])[1..] == a[1..] + [b] && (a + [b])[0] == a[0];
    }
  }

  /** Quantise and split each zone of the program, or record why it is skipped. */
  method PrepareZones(input: Spec.Input, o: Spec.Occurrence, steps: seq<Spec.ZoneStep>)
    returns (items: seq<WorkItem>, skips: seq<Spec.SkippedZone>)
    ensures Views(items) == Spec.ItemsOf(input, o, steps) && skips == Spec.SkipsOf(input, o, steps)
    ensures Distinct(items) && forall it :: it in items ==> fresh(it)
  {
    items, skips := [], [];
    hide Views, Spec.BuildWorkItem;
    for i := 0 to |steps|
      invariant Views(items) == Spec.ItemsOf(input, o, steps[..i]) && skips == Spec.SkipsOf(input, o, steps[..i])
      invariant Distinct(items) && forall it :: it in items ==> fresh(it)
    {
      ItemsAppend(input, o, steps[..i], steps[i]);
      assert steps[..i] + [steps[i]] == steps[..i + 1];
      hide Spec.ItemsOf, Spec.SkipsOf;
      var prepared := Spec.BuildWorkItem(input, o, steps[i]);
      match prepared {
        case Work(it) =>
          var item := new WorkItem(it);
          ViewsAppend(items, item);
          items := items + [item];
        case Skip(zone) => skips := skips + [zone];
      }
    }
    assert steps[..|steps|] == steps;
  }

  lemma {:induction false} ViewsAppend(items: seq<WorkItem>, item: WorkItem)
    ensures Views(items + [item]) == Views(items) + [item.View()]
  {}

  /** The prelude of one more candidate. */
  function With(input: Spec.Input, p: Spec.Prelude, o: Spec.Occurrence): Spec.Prelude {
    if Spec.Runnable(input, o)
    then Spec.Prelude(p.builds + [Spec.BuildFor(input, o)],
                      p.items + Spec.ItemsOf(input, o, Spec.StepsInOrder(input.programs[o.program])),
                      p.conflicts)
    else p.(conflicts := p.conflicts + [Spec.Conflict(o.id, o.program, None, Spec.ProgramDisabled)])
  }

  lemma {:induction false} PrepareAppend(input: Spec.Input, a: seq<Spec.Occurrence>, o: Spec.Occurrence)
    ensures Spec.Prepare(input, a + [o]) == With(input, Spec.Prepare(input, a), o)
  {
    hide Spec.BuildFor, Spec.ItemsOf, Spec.StepsInOrder, Spec.Runnable;
    if a == [] {
      assert a + [o] == [o];
      PrepareOne(input, o);
    } else {
      PrepareAppend(input, a[1..], o);
      assert (a + [o])[1..] == a[1..] + [o] && (a + [o])[0] == a[0];
      PrepareStep(input, a[0], Spec.Prepare(input, a[1..]), o);
    }
  }

  lemma {:induction false} PrepareOne(input: Spec.Input, o: Spec.Occurrence)
    ensures Spec.Prepare(input, [o]) == With(input, Spec.Prelude([], [], []), o)
  {
    assert [o][1..] == [];
    assert Spec.Prepare(input, [o][1..]) == Spec.Prelude([], [], []);
    hide Spec.BuildFor, Spec.ItemsOf, Spec.StepsInOrder;
  }

  /** Adding in front and adding behind commute. */
  lemma PrepareStep(input: Spec.Input, first: Spec.Occurrence, p: Spec.Prelude, o: Spec.Occurrence)
    ensures Before(input, first, With(input, p, o)) == With(input, Before(input, first, p), o)
  {
    hide Spec.BuildFor, Spec.ItemsOf, Spec.StepsInOrder;
  }

  function Before(input: Spec.Input, o: Spec.Occurrence, p: Spec.Prelude): Spec.Prelude {
    if Spec.Runnable(input, o)
    then Spec.Prelude([Spec.BuildFor(input, o)] + p.builds,
                      Spec.ItemsOf(input, o, Spec.StepsInOrder(input.programs[o.program])) + p.items,
                      p.conflicts)
    else p.(conflicts := [Spec.Conflict(o.id, o.program, None, Spec.ProgramDisabled)] + p.conflicts)
  }

  lemma {:induction false} ViewsConcat(a: seq<WorkItem>, b: seq<WorkItem>)
    ensures Views(a + b) == Views(a) + Views(b)
  {}

  lemma {:induction false} BuildViewsAppend(builds: seq<OccurrenceBuild>, build: OccurrenceBuild)
    ensures BuildViews(builds + [build]) == BuildViews(builds) + [build.View()]
  {}

  ghost predicate Prepared(
    builds: seq<OccurrenceBuild>, items: seq<WorkItem>, log: ConflictLog, p: Spec.Prelude)
    reads builds, items, log
  {
    && BuildViews(builds) == p.builds && Views(items) == p.items && log.entries == p.conflicts
    && Distinct(items) && DistinctObjects(builds) && AllValid(builds)
  }

  lemma DistinctConcat(a: seq<WorkItem>, b: seq<WorkItem>)
    requires Distinct(a) && Distinct(b) && forall x :: x in b ==> x !in a
    ensures Distinct(a + b)
  {
    forall i, j | 0 <= i < j < |a + b| ensures (a + b)[i] != (a + b)[j] {
      if i < |a| <= j { assert a[i] in a && b[j - |a|] in b; }
    }
  }

  lemma PreparedAppend(
    builds: seq<OccurrenceBuild>, items: seq<WorkItem>, log: ConflictLog, p: Spec.Prelude, build: OccurrenceBuild,
    work: seq<WorkItem>)
    requires Prepared(builds, items, log, p) && build.Valid() && Distinct(work)
    requires build !in builds && forall it :: it in work ==> it !in items
    ensures Prepared(builds + [build], items + work, log,
                     p.(builds := p.builds + [build.View()], items := p.items + Views(work)))
  {
    hide Views, BuildViews, Distinct;
    DistinctConcat(items, work);
    ViewsConcat(items, work);
    BuildViewsAppend(builds, build);
  }

  /** Add one runnable candidate's build and work items. */
  method PrepareCandidate(
    input: Spec.Input, o: Spec.Occurrence, builds: seq<OccurrenceBuild>, items: seq<WorkItem>, ghost log: ConflictLog,
    ghost p: Spec.Prelude)
    returns (builds1: seq<OccurrenceBuild>, items1: seq<WorkItem>)
    requires Spec.Runnable(input, o) && Prepared(builds, items, log, p)
    ensures Prepared(builds1, items1, log, With(input, p, o))
    ensures forall b :: b in builds1 ==> b in builds || fresh(b)
    ensures forall it :: it in items1 ==> it in items || fresh(it)
  {
    var program := input.programs[o.program];
    hide Views, Spec.ItemsOf, Spec.SkipsOf, Spec.StepsInOrder, Distinct, Prepared;
    var work, skips := PrepareZones(input, o, Spec.StepsInOrder(program));
    var build := new OccurrenceBuild(o, program, skips);
    PreparedAppend(builds, items, log, p, build, work);
    builds1, items1 := builds + [build], items + work;
  }

  /** Add one candidate, or report that its program may not run. */
  method PrepareNext(
    input: Spec.Input, o: Spec.Occurrence, builds: seq<OccurrenceBuild>, items: seq<WorkItem>, log: ConflictLog,
    ghost p: Spec.Prelude)
    returns (builds1: seq<OccurrenceBuild>, items1: seq<WorkItem>)
    requires Prepared(builds, items, log, p)
    modifies log
    ensures Prepared(builds1, items1, log, With(input, p, o))
    ensures forall b :: b in builds1 ==> b in builds || fresh(b)
    ensures forall it :: it in items1 ==> it in items || fresh(it)
  {
    if Spec.Runnable(input, o) {
      hide Prepared;
      builds1, items1 := PrepareCandidate(input, o, builds, items, log, p);
    } else {
      hide Views, BuildViews, AllValid, Distinct, DistinctObjects;
      builds1, items1 := builds, items;
      log.entries := log.entries + [Spec.Conflict(o.id, o.program, None, Spec.ProgramDisabled)];
    }
  }

  /** Builds, work items and conflicts for the candidates, in order. */
  method Prepare(input: Spec.Input, candidates: seq<Spec.Occurrence>)
    returns (builds: seq<OccurrenceBuild>, items: seq<WorkItem>, log: ConflictLog)
    ensures Prepared(builds, items, log, Spec.Prepare(input, candidates))
    ensures fresh(log) && (forall b :: b in builds ==> fresh(b)) && (forall it :: it in items ==> fresh(it))
  {
    builds, items := [], [];
    log := new ConflictLog();
    for i := 0 to |candidates|
      invariant Prepared(builds, items, log, Spec.Prepare(input, candidates[..i]))
      invariant fresh(log) && (forall b :: b in builds ==> fresh(b)) && (forall it :: it in items ==> fresh(it))
    {
      PrepareAppend(input, candidates[..i], candidates[i]);
      assert candidates[..i] + [candidates[i]] == candidates[..i + 1];
      hide Spec.Prepare, Prepared, With;
      builds, items := PrepareNext(input, candidates[i], builds, items, log, Spec.Prepare(input, candidates[..i]));
    }
    assert candidates[..|candidates|] == candidates;
  }

  // ---------------------------------------------------------------------
  // The compiler

  /** Schedule the prepared work, apply the two checks and finish the runs. */
  method Finish(
    input: Spec.Input, builds: seq<OccurrenceBuild>, items: seq<WorkItem>, log: ConflictLog, ghost p: Spec.Prelude)
    returns (timeline: Spec.Timeline)
    requires Prepared(builds, items, log, p) && Startable(p.builds)
    modifies builds, items, log
    ensures timeline == Finished(input, p)
  {
    assert forall i :: 0 <= i < |builds| ==> p.builds[i] == builds[i].View();
    hide Sort, Spec.Schedule, Spec.EnforceLateness, Spec.DetectCollisions, Views, BuildViews,
         DistinctObjects, Distinct, Spec.Runs, Untouched;
    var free := Schedule(input, items, builds, log);
    hide AllValid;
    EnforceLateness(input, builds, log);
    DetectCollisions(input.gap, builds, log);
    timeline := Spec.Timeline(Spec.Runs(Sort(Spec.BY_BUILD_REQUEST, BuildViews(builds))), log.entries);
  }

  function Finished(input: Spec.Input, p: Spec.Prelude): Spec.Timeline {
    var board := Spec.Schedule(input, p.builds, p.items, p.conflicts);
    var (onTime, missed) := Spec.EnforceLateness(input, board.builds);
    var (builds, collisions) := Spec.DetectCollisions(input.gap, onTime);
    Spec.Timeline(Spec.Runs(Sort(Spec.BY_BUILD_REQUEST, builds)), board.conflicts + missed + collisions)
  }

  /** Compile the candidates into one timeline. */
  method CompileTimeline(input: Spec.Input, candidates: seq<Spec.Occurrence>) returns (timeline: Spec.Timeline)
    requires PlannerTimeline.DistinctCandidates(candidates)
    ensures timeline == Spec.CompileTimeline(input, candidates)
  {
    hide *;
    CompiledFromPrelude(input, candidates);
    var ordered := Sort(Spec.BY_REQUEST, candidates);
    var builds, items, log := Prepare(input, ordered);
    forall i | 0 <= i < |builds| ensures fresh(builds[i]) { assert builds[i] in builds; }
    forall i | 0 <= i < |items| ensures fresh(items[i]) { assert items[i] in items; }
    timeline := Finish(input, builds, items, log, Spec.Prepare(input, ordered));
  }

  lemma {:induction false} CompiledFromPrelude(input: Spec.Input, candidates: seq<Spec.Occurrence>)
    requires PlannerTimeline.DistinctCandidates(candidates)
    ensures var p := Spec.Prepare(input, Sort(Spec.BY_REQUEST, candidates));
      Startable(p.builds) && Spec.CompileTimeline(input, candidates) == Finished(input, p)
  {
    PlannerTimeline.CandidatesSorted(candidates);
    PrepareStartable(input, Sort(Spec.BY_REQUEST, candidates));
    hide Sort, Spec.Schedule, Spec.EnforceLateness, Spec.DetectCollisions, Spec.Runs, Spec.Prepare, Startable;
  }

  /** No build has been scheduled yet, and no two are for the same occurrence. */
  predicate Startable(builds: seq<Spec.Build>) {
    && (forall i :: 0 <= i < |builds| ==> Untouched(builds[i]))
    && (forall i, j :: 0 <= i < j < |builds| ==> builds[i].occurrence.id != builds[j].occurrence.id)
  }

  predicate ForCandidates(builds: seq<Spec.Build>, candidates: seq<Spec.Occurrence>) {
    forall i :: 0 <= i < |builds| ==> builds[i].occurrence in candidates
  }

  lemma {:induction false} PrepareStartable(input: Spec.Input, candidates: seq<Spec.Occurrence>)
    requires PlannerTimeline.DistinctCandidates(candidates)
    ensures Startable(Spec.Prepare(input, candidates).builds)
    ensures ForCandidates(Spec.Prepare(input, candidates).builds, candidates)
  {
    if candidates != [] {
      var first, rest := candidates[0], Spec.Prepare(input, candidates[1..]).builds;
      PrepareStartable(input, candidates[1..]);
      hide Spec.SkipsOf, Spec.StepsInOrder, Spec.ItemsOf;
      assert Spec.Prepare(input, candidates).builds
          == (if Spec.Runnable(input, first) then [Spec.BuildFor(input, first)] else []) + rest;
      assert Spec.Runnable(input, first) ==>
        Untouched(Spec.BuildFor(input, first)) && Spec.BuildFor(input, first).occurrence == first;
      hide Spec.Prepare, Spec.BuildFor, Spec.Runnable, Untouched;
      StartableRest(rest, candidates);
      if Spec.Runnable(input, first) { StartableCons(Spec.BuildFor(input, first), rest, candidates); }
      assert [] + rest == rest;
    }
  }

  lemma StartableRest(rest: seq<Spec.Build>, candidates: seq<Spec.Occurrence>)
    requires candidates != [] && ForCandidates(rest, candidates[1..])
    ensures ForCandidates(rest, candidates)
  {}

  lemma StartableCons(build: Spec.Build, rest: seq<Spec.Build>, candidates: seq<Spec.Occurrence>)
    requires PlannerTimeline.DistinctCandidates(candidates) && candidates != []
    requires Startable(rest) && ForCandidates(rest, candidates[1..])
    requires Untouched(build) && build.occurrence == candidates[0]
    ensures Startable([build] + rest) && ForCandidates([build] + rest, candidates)
  {
    hide Untouched;
    StartableRest(rest, candidates);
    forall i | 0 <= i < |rest| ensures rest[i].occurrence.id != build.occurrence.id {
      assert rest[i].occurrence in candidates[1..];
    }
  }
}
