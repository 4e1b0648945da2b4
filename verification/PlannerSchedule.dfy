/** Whole runs share one controller: blocks are serial, and the detector agrees. */
module PlannerSchedule {
  import opened Domain
  import opened Sorting
  import opened PlannerSpec
  import opened PlannerLayout

  /** Every step of the first list has ended, and the gap has passed, before the second starts. */
  predicate Apart(gap: int, a: seq<RunStep>, b: seq<RunStep>) {
    forall i, j :: 0 <= i < |a| && 0 <= j < |b| ==> a[i].plannedEnd + gap <= b[j].plannedStart
  }

  /** The steps follow each other, separated by the gap. */
  predicate InSeries(gap: int, steps: seq<RunStep>) {
    forall i, j :: 0 <= i < j < |steps| ==> steps[i].plannedEnd + gap <= steps[j].plannedStart
  }

  predicate Forward(steps: seq<RunStep>) {
    forall i :: 0 <= i < |steps| ==> steps[i].plannedStart <= steps[i].plannedEnd
  }

  predicate StrictlyForward(steps: seq<RunStep>) {
    forall i :: 0 <= i < |steps| ==> steps[i].plannedStart < steps[i].plannedEnd
  }

  predicate From(t: Instant, steps: seq<RunStep>) {
    forall i :: 0 <= i < |steps| ==> t <= steps[i].plannedStart
  }

  // ---------------------------------------------------------------------
  // One claim

  ghost predicate GoodClaim(claim: Claim) {
    claim.pending != [] && FreshItems(claim.pending)
  }

  /** What serving a claim does to its build and to the controller. */
  ghost predicate Served(input: Input, claim: Claim, free: Option<Instant>, build: Build, next: Option<Instant>)
    requires claim.pending != []
  {
    && InSeries(input.gap, build.steps) && StrictlyForward(build.steps)
    && (build.dropped ==> build.steps == [])
    && (free.Some? ==> From(free.value, build.steps))
    && next == (if build.steps == [] then free else Some(BlockEnd(build.steps) + input.gap))
    && (build.program.window.None? ==>
          build.steps != [] && !build.dropped
          && build.steps[0].plannedStart == if free.Some? then Max(EarliestRequest(claim.pending), free.value)
                                            else EarliestRequest(claim.pending))
  }

  lemma {:induction false} EligibleIsRequested(pending: seq<Item>)
    requires pending != [] && forall k :: 0 <= k < |pending| ==> pending[k].eligible == pending[k].requested
    ensures EarliestEligible(pending) == EarliestRequest(pending)
  {
    if |pending| > 1 { EligibleIsRequested(pending[1..]); }
  }

  lemma CursorIsRequest(claim: Claim, free: Option<Instant>)
    requires GoodClaim(claim)
    ensures StartCursor(claim, free) == if free.Some? then Max(EarliestRequest(claim.pending), free.value)
                                        else EarliestRequest(claim.pending)
    ensures EarliestRequest(claim.pending) <= StartCursor(claim, free)
  {
    assert forall k :: 0 <= k < |claim.pending| ==> FreshItem(claim.pending[k]);
    EligibleIsRequested(claim.pending);
  }

  /** The steps of a finished layout, as the build will hold them. */
  ghost predicate Presentable(c: Setting, begin: Instant, steps: seq<RunStep>, dropped: bool) {
    && InSeries(c.gap, steps) && StrictlyForward(steps) && From(begin, steps)
    && (dropped ==> steps == [])
    && (c.window.None? ==> steps != [] && !dropped && steps[0].plannedStart == begin)
  }

  lemma FinishedPresentable(c: Setting, claim: Claim, skipped: seq<SkippedZone>, begin: Instant)
    requires c.gap >= 0 && GoodClaim(claim) && EarliestRequest(claim.pending) <= begin
    ensures var l := Finished(c, claim.pending, skipped, begin);
      Presentable(c, begin, Untag(l.placed), l.dropped)
  {
    var l := Finished(c, claim.pending, skipped, begin);
    LayoutIsLaid(c, claim.pending, skipped, begin);
    if c.window.None? {
      var k :| 0 <= k < |claim.pending| && EarliestRequest(claim.pending) == claim.pending[k].requested;
      UnwindowedStartsAtOnce(c, claim.pending, skipped, begin, k);
    }
    if !l.dropped { PlacedInSeries(c, claim.pending, begin, l); }
    hide LayOut, Kept, EarliestRequest, FreshItems;
  }

  lemma ServeFills(input: Input, claim: Claim, b: Board)
    requires claim.pending != [] && claim.index < |b.builds|
    ensures var build := b.builds[claim.index];
      var l := Finished(SettingFor(input, build), claim.pending, build.skipped, StartCursor(claim, b.free));
      var r := ServeClaim(input, claim, b);
      && r.builds == b.builds[claim.index := Filled(build, l)]
      && r.free == if Untag(l.placed) != [] && !l.dropped then Some(BlockEnd(Untag(l.placed)) + input.gap) else b.free
  {
    hide LayOut, StartCursor, BlockEnd, Untag, SettingFor;
  }

  /** The layout of a claim, from the instant at which the controller is free for it. */
  lemma LaidOutServed(input: Input, claim: Claim, free: Option<Instant>, build: Build)
    requires input.gap >= 0 && GoodClaim(claim)
    ensures var l := Finished(SettingFor(input, build), claim.pending, build.skipped, StartCursor(claim, free));
      Served(input, claim, free, Filled(build, l),
             if Untag(l.placed) != [] && !l.dropped then Some(BlockEnd(Untag(l.placed)) + input.gap) else free)
  {
    var begin := StartCursor(claim, free);
    var l := Finished(SettingFor(input, build), claim.pending, build.skipped, begin);
    assert SettingFor(input, build).gap >= 0;
    hide *;
    CursorIsRequest(claim, free);
    FinishedPresentable(SettingFor(input, build), claim, build.skipped, begin);
    PresentableServed(input, claim, free, build, Untag(l.placed), l);
  }

  lemma ClaimServed(input: Input, claim: Claim, b: Board)
    requires input.gap >= 0 && GoodClaim(claim) && claim.index < |b.builds|
    ensures var r := ServeClaim(input, claim, b);
      Served(input, claim, b.free, r.builds[claim.index], r.free)
  {
    assert claim.pending != [];
    hide *;
    ServeFills(input, claim, b);
    LaidOutServed(input, claim, b.free, b.builds[claim.index]);
  }

  lemma {:induction false} PresentableServed(
    input: Input, claim: Claim, free: Option<Instant>, build: Build, steps: seq<RunStep>, l: Layout)
    requires claim.pending != [] && steps == Untag(l.placed)
    requires StartCursor(claim, free) == if free.Some? then Max(EarliestRequest(claim.pending), free.value)
                                         else EarliestRequest(claim.pending)
    requires Presentable(SettingFor(input, build), StartCursor(claim, free), steps, l.dropped)
    ensures Served(input, claim, free, Filled(build, l),
                   if steps != [] && !l.dropped then Some(BlockEnd(steps) + input.gap) else free)
  {
    hide InSeries, StrictlyForward, EarliestRequest, BlockEnd, StartCursor;
  }

  lemma PlacedInSeries(c: Setting, items: seq<Item>, begin: Instant, l: Layout)
    requires Kept(c, items, begin, l)
    ensures var steps := Untag(l.placed);
      InSeries(c.gap, steps) && StrictlyForward(steps) && From(begin, steps)
  {
    forall i | 0 <= i < |l.placed| ensures l.placed[i].step.plannedStart < l.placed[i].step.plannedEnd {
      assert StepKept(c, items, l, i);
    }
    assert Spaced(c, begin, l);
    hide Kept;
  }

  // ---------------------------------------------------------------------
  // All claims, in order

  predicate DistinctIndexes(claims: seq<Claim>) {
    forall i, j :: 0 <= i < j < |claims| ==> claims[i].index != claims[j].index
  }

  ghost predicate GoodClaims(claims: seq<Claim>, builds: seq<Build>) {
    && DistinctIndexes(claims)
    && (forall k :: 0 <= k < |claims| ==> claims[k].index < |builds| && GoodClaim(claims[k]))
  }

  /** The instant from which the m-th claim may have the controller: the end of the last
      block before it, plus the gap. */
  function FreeBefore(gap: int, builds: seq<Build>, claims: seq<Claim>, m: nat, free: Option<Instant>): Option<Instant>
    requires m <= |claims| && Claimable(claims, |builds|)
  {
    if m == 0 then free
    else
      var steps := builds[claims[m - 1].index].steps;
      if steps == [] then FreeBefore(gap, builds, claims, m - 1, free) else Some(BlockEnd(steps) + gap)
  }

  lemma {:induction false} FreeBeforeTail(
    gap: int, builds: seq<Build>, claims: seq<Claim>, m: nat, free: Option<Instant>)
    requires 1 <= m <= |claims| && Claimable(claims, |builds|)
    ensures FreeBefore(gap, builds, claims, m, free)
      == FreeBefore(gap, builds, claims[1..], m - 1, FreeBefore(gap, builds, claims, 1, free))
  {
    if m > 1 {
      FreeBeforeTail(gap, builds, claims, m - 1, free);
      assert claims[m - 1] == claims[1..][m - 2];
    }
  }

  lemma {:induction false} UnclaimedUntouched(input: Input, claims: seq<Claim>, b: Board, i: nat)
    requires Claimable(claims, |b.builds|)
    requires i < |b.builds| && forall k :: 0 <= k < |claims| ==> claims[k].index != i
    ensures ServeAll(input, claims, b).builds[i] == b.builds[i]
    decreases |claims|
  {
    if claims != [] {
      UnclaimedUntouched(input, claims[1..], ServeClaim(input, claims[0], b), i);
    }
  }

  ghost predicate ServedAt(input: Input, claims: seq<Claim>, builds: seq<Build>, m: nat, free: Option<Instant>)
    requires m < |claims|
    requires Claimable(claims, |builds|)
  {
    Served(input, claims[m], FreeBefore(input.gap, builds, claims, m, free), builds[claims[m].index],
           FreeBefore(input.gap, builds, claims, m + 1, free))
  }

  lemma GoodClaimable(claims: seq<Claim>, builds: seq<Build>)
    requires GoodClaims(claims, builds)
    ensures Claimable(claims, |builds|)
    ensures claims != [] ==> GoodClaim(claims[0]) && GoodClaims(claims[1..], builds) && Claimable(claims[1..], |builds|)
  {
    assert forall k :: 0 <= k < |claims| ==> GoodClaim(claims[k]) && claims[k].pending != [];
    hide FreshItems;
  }

  lemma {:induction false} ServeStep(input: Input, claims: seq<Claim>, b: Board)
    requires input.gap >= 0 && GoodClaims(claims, b.builds) && claims != []
    ensures Claimable(claims, |b.builds|)
    ensures var r := ServeAll(input, claims, b);
      && FreeBefore(input.gap, r.builds, claims, 1, b.free) == ServeClaim(input, claims[0], b).free
      && ServedAt(input, claims, r.builds, 0, b.free)
  {
    GoodClaimable(claims, b.builds);
    var b1 := ServeClaim(input, claims[0], b);
    var r := ServeAll(input, claims[1..], b1);
    assert r == ServeAll(input, claims, b);
    assert forall k :: 0 <= k < |claims[1..]| ==> claims[1..][k].index != claims[0].index;
    hide *;
    ClaimServed(input, claims[0], b);
    UnclaimedUntouched(input, claims[1..], b1, claims[0].index);
    FirstFree(input, claims, r.builds, b, b1);
    FirstServed(input, claims, r.builds, b, b1);
  }

  /** Every claim is served from the instant at which the earlier ones leave the controller. */
  lemma {:induction false} AllServed(input: Input, claims: seq<Claim>, b: Board, m: nat)
    requires input.gap >= 0 && GoodClaims(claims, b.builds) && m < |claims|
    ensures Claimable(claims, |b.builds|)
    ensures ServedAt(input, claims, ServeAll(input, claims, b).builds, m, b.free)
    decreases m
  {
    ServeStep(input, claims, b);
    GoodClaimable(claims, b.builds);
    if m > 0 {
      var b1 := ServeClaim(input, claims[0], b);
      AllServed(input, claims[1..], b1, m - 1);
      ServedTail(input, claims, ServeAll(input, claims, b).builds, m, b.free, b1.free);
    }
    hide FreeBefore, Served, ServeAll, ServeClaim, GoodClaim, ServedAt;
  }

  lemma {:induction false} ServedTail(
    input: Input, claims: seq<Claim>, builds: seq<Build>, m: nat, free: Option<Instant>, next: Option<Instant>)
    requires 1 <= m < |claims|
    requires Claimable(claims, |builds|)
    requires FreeBefore(input.gap, builds, claims, 1, free) == next
    requires ServedAt(input, claims[1..], builds, m - 1, next)
    ensures ServedAt(input, claims, builds, m, free)
  {
    FreeBeforeTail(input.gap, builds, claims, m, free);
    FreeBeforeTail(input.gap, builds, claims, m + 1, free);
    assert claims[m] == claims[1..][m - 1];
    hide FreeBefore, Served;
  }

  lemma {:induction false} FirstServed(input: Input, claims: seq<Claim>, builds: seq<Build>, b: Board, b1: Board)
    requires claims != [] && Claimable(claims, |builds|)
    requires |b1.builds| == |builds|
    requires builds[claims[0].index] == b1.builds[claims[0].index]
    requires Served(input, claims[0], b.free, b1.builds[claims[0].index], b1.free)
    requires FreeBefore(input.gap, builds, claims, 1, b.free) == b1.free
    requires FreeBefore(input.gap, builds, claims, 0, b.free) == b.free
    ensures ServedAt(input, claims, builds, 0, b.free)
  {
    hide Served, FreeBefore;
  }

  lemma {:induction false} FirstFree(input: Input, claims: seq<Claim>, builds: seq<Build>, b: Board, b1: Board)
    requires claims != [] && Claimable(claims, |builds|)
    requires |b1.builds| == |builds|
    requires builds[claims[0].index] == b1.builds[claims[0].index]
    requires Served(input, claims[0], b.free, b1.builds[claims[0].index], b1.free)
    ensures FreeBefore(input.gap, builds, claims, 1, b.free) == b1.free
    ensures FreeBefore(input.gap, builds, claims, 0, b.free) == b.free
  {}

  ghost predicate AllAreServed(input: Input, claims: seq<Claim>, builds: seq<Build>)
    requires Claimable(claims, |builds|)
  {
    forall m :: 0 <= m < |claims| ==> ServedAt(input, claims, builds, m, None)
  }

  /** The controller never becomes free earlier than before. */
  lemma {:induction false} FreeGrows(input: Input, claims: seq<Claim>, builds: seq<Build>, m: nat, n: nat)
    requires input.gap >= 0
    requires Claimable(claims, |builds|)
    requires AllAreServed(input, claims, builds) && m <= n <= |claims|
    ensures var f, g := FreeBefore(input.gap, builds, claims, m, None), FreeBefore(input.gap, builds, claims, n, None);
      f.Some? ==> g.Some? && f.value <= g.value
    decreases n - m
  {
    if m < n {
      FreeGrows(input, claims, builds, m, n - 1);
      assert ServedAt(input, claims, builds, n - 1, None);
      var steps := builds[claims[n - 1].index].steps;
      if steps != [] {
        assert steps[0].plannedStart <= steps[0].plannedEnd <= BlockEnd(steps);
      }
    }
  }

  lemma {:induction false} FromIsApart(gap: int, a: seq<RunStep>, b: seq<RunStep>)
    requires a != [] && From(BlockEnd(a) + gap, b)
    ensures Apart(gap, a, b)
  {
    assert forall i :: 0 <= i < |a| ==> a[i].plannedEnd <= BlockEnd(a);
    hide BlockEnd;
  }

  lemma FromEarlier(s: Instant, t: Instant, steps: seq<RunStep>)
    requires s <= t && From(t, steps)
    ensures From(s, steps)
  {}

  /** Blocks are disjoint, gap-separated, and in the order of the claims. */
  lemma BlocksInOrder(input: Input, claims: seq<Claim>, builds: seq<Build>, m: nat, n: nat)
    requires input.gap >= 0
    requires Claimable(claims, |builds|)
    requires AllAreServed(input, claims, builds) && m < n < |claims|
    ensures Apart(input.gap, builds[claims[m].index].steps, builds[claims[n].index].steps)
  {
    var a, b := builds[claims[m].index].steps, builds[claims[n].index].steps;
    if a != [] {
      FreeGrows(input, claims, builds, m + 1, n);
      assert ServedAt(input, claims, builds, m, None) && ServedAt(input, claims, builds, n, None);
      FromEarlier(BlockEnd(a) + input.gap, FreeBefore(input.gap, builds, claims, n, None).value, b);
      FromIsApart(input.gap, a, b);
    }
    hide Apart, From, BlockEnd, InSeries, StrictlyForward;
  }

  // ---------------------------------------------------------------------
  // Serial plans

  predicate DistinctBuilds(builds: seq<Build>) {
    forall i, j :: 0 <= i < j < |builds| ==> builds[i].occurrence.id != builds[j].occurrence.id
  }

  predicate ApartEitherWay(gap: int, a: Build, b: Build) {
    Apart(gap, a.steps, b.steps) || Apart(gap, b.steps, a.steps)
  }

  /** Runs do not interleave. */
  predicate Disjoint(gap: int, builds: seq<Build>) {
    forall i, j :: 0 <= i < j < |builds| ==> ApartEitherWay(gap, builds[i], builds[j])
  }

  /** Each run's steps follow each other, and runs do not interleave. */
  predicate SerialPlan(gap: int, builds: seq<Build>) {
    && (forall i :: 0 <= i < |builds| ==> InSeries(gap, builds[i].steps) && StrictlyForward(builds[i].steps))
    && Disjoint(gap, builds)
  }

  lemma {:induction false} EachServed(input: Input, claims: seq<Claim>, b: Board)
    requires input.gap >= 0 && GoodClaims(claims, b.builds) && b.free.None?
    ensures Claimable(claims, |b.builds|)
    ensures AllAreServed(input, claims, ServeAll(input, claims, b).builds)
  {
    GoodClaimable(claims, b.builds);
    var r := ServeAll(input, claims, b);
    forall m | 0 <= m < |claims| ensures ServedAt(input, claims, r.builds, m, None) {
      AllServed(input, claims, b, m);
    }
  }

  lemma {:induction false} ServedPlanIsSerial(input: Input, claims: seq<Claim>, b: Board)
    requires input.gap >= 0 && GoodClaims(claims, b.builds) && b.free.None?
    requires forall i :: 0 <= i < |b.builds| ==> b.builds[i].steps == []
    ensures Claimable(claims, |b.builds|)
    ensures SerialPlan(input.gap, ServeAll(input, claims, b).builds)
  {
    GoodClaimable(claims, b.builds);
    var r := ServeAll(input, claims, b);
    EachServed(input, claims, b);
    forall i | 0 <= i < |b.builds|
      ensures InSeries(input.gap, r.builds[i].steps) && StrictlyForward(r.builds[i].steps)
    {
      if m :| 0 <= m < |claims| && claims[m].index == i {
        assert ServedAt(input, claims, r.builds, m, None);
      } else {
        UnclaimedUntouched(input, claims, b, i);
      }
    }
    hide ServeAll, AllAreServed;
    forall i, j | 0 <= i < j < |b.builds| ensures ApartEitherWay(input.gap, r.builds[i], r.builds[j]) {
      PairApart(input, claims, b, i, j);
    }
  }

  lemma {:induction false} PairApart(input: Input, claims: seq<Claim>, b: Board, i: nat, j: nat)
    requires input.gap >= 0 && GoodClaims(claims, b.builds) && b.free.None?
    requires forall k :: 0 <= k < |b.builds| ==> b.builds[k].steps == []
    requires i < j < |b.builds| && Claimable(claims, |b.builds|)
    requires AllAreServed(input, claims, ServeAll(input, claims, b).builds)
    ensures ApartEitherWay(input.gap, ServeAll(input, claims, b).builds[i], ServeAll(input, claims, b).builds[j])
  {
    var r := ServeAll(input, claims, b);
    if m :| 0 <= m < |claims| && claims[m].index == i {
      if n :| 0 <= n < |claims| && claims[n].index == j {
        if m < n { BlocksInOrder(input, claims, r.builds, m, n); }
        else { BlocksInOrder(input, claims, r.builds, n, m); }
      } else {
        UnclaimedUntouched(input, claims, b, j);
      }
    } else {
      UnclaimedUntouched(input, claims, b, i);
    }
  }

  // ---------------------------------------------------------------------
  // The detector

  lemma {:induction false} CrossCheckElements(gap: int, active: seq<Build>, survivorEnd: Option<Instant>)
    requires forall k :: 0 <= k < |active| ==> active[k].steps != []
    ensures var r := CrossCheck(gap, active, survivorEnd);
      forall b :: b in active <==> b in r.0 || b in r.1
    decreases |active|
  {
    if active != [] {
      CrossCheckElements(gap, active[1..], survivorEnd);
      CrossCheckElements(gap, active[1..], Some(BlockEnd(active[0].steps)));
      assert active == [active[0]] + active[1..];
    }
  }

  /** The runs come one after the other, the first of them after the given end. */
  ghost predicate Follow(gap: int, kept: seq<Build>, end: Option<Instant>) {
    && (end.Some? ==> forall i :: 0 <= i < |kept| ==> From(end.value + gap, kept[i].steps))
    && (forall i, j :: 0 <= i < j < |kept| ==> Apart(gap, kept[i].steps, kept[j].steps))
  }

  lemma FollowHead(gap: int, head: Build, rest: seq<Build>, end: Option<Instant>)
    requires gap >= 0 && head.steps != [] && Forward(head.steps)
    requires end.Some? ==> end.value + gap <= BlockStart(head.steps)
    requires Follow(gap, rest, Some(BlockEnd(head.steps)))
    ensures Follow(gap, [head] + rest, end)
  {
    var kept := [head] + rest;
    assert head.steps[0].plannedStart <= head.steps[0].plannedEnd;
    assert BlockStart(head.steps) <= BlockEnd(head.steps);
    assert end.Some? ==> From(end.value + gap, head.steps);
    forall i | 0 <= i < |rest| ensures Apart(gap, head.steps, rest[i].steps) {
      FromIsApart(gap, head.steps, rest[i].steps);
    }
    forall i | 0 <= i < |rest| && end.Some? ensures From(end.value + gap, rest[i].steps) {
      FromEarlier(end.value + gap, BlockEnd(head.steps) + gap, rest[i].steps);
    }
    hide BlockEnd, BlockStart, Apart, From;
  }

  /** Survivors follow each other and the block that survived before them. */
  lemma {:induction false} SurvivorsFollow(gap: int, active: seq<Build>, survivorEnd: Option<Instant>)
    requires gap >= 0 && forall k :: 0 <= k < |active| ==> active[k].steps != [] && Forward(active[k].steps)
    ensures Follow(gap, CrossCheck(gap, active, survivorEnd).0, survivorEnd)
    decreases |active|
  {
    if active != [] {
      var head := active[0];
      if survivorEnd.Some? && BlockStart(head.steps) < survivorEnd.value + gap {
        SurvivorsFollow(gap, active[1..], survivorEnd);
      } else {
        SurvivorsFollow(gap, active[1..], Some(BlockEnd(head.steps)));
        FollowHead(gap, head, CrossCheck(gap, active[1..], Some(BlockEnd(head.steps))).0, survivorEnd);
      }
    }
    hide Follow, BlockEnd, BlockStart;
  }

  predicate Consecutive(gap: int, steps: seq<RunStep>) {
    forall i :: 0 <= i < |steps| - 1 ==> steps[i].plannedEnd + gap <= steps[i + 1].plannedStart
  }

  lemma {:induction false} ConsecutiveReaches(gap: int, steps: seq<RunStep>, i: nat, j: nat)
    requires gap >= 0 && Forward(steps) && Consecutive(gap, steps) && i < j < |steps|
    ensures steps[i].plannedEnd + gap <= steps[j].plannedStart
  {
    if i < j - 1 { ConsecutiveReaches(gap, steps, i, j - 1); }
  }

  lemma {:induction false} SortedForward(steps: seq<RunStep>)
    requires Forward(steps)
    ensures Forward(Sort(BY_START, steps))
  {
    SortPermutes(BY_START, steps);
    var s := Sort(BY_START, steps);
    hide Sort;
    forall i | 0 <= i < |s| ensures s[i].plannedStart <= s[i].plannedEnd { assert s[i] in s; }
  }

  /** Checking neighbours is enough: a run passes exactly if its steps, in order of start, are in series. */
  lemma SelfCheckExact(gap: int, build: Build)
    requires gap >= 0 && Forward(build.steps)
    ensures !SelfCollides(gap, build) <==> InSeries(gap, Sort(BY_START, build.steps))
  {
    var s := Sort(BY_START, build.steps);
    SortedForward(build.steps);
    hide Sort;
    if !SelfCollides(gap, build) {
      assert Consecutive(gap, s);
      forall i, j | 0 <= i < j < |s| ensures s[i].plannedEnd + gap <= s[j].plannedStart {
        ConsecutiveReaches(gap, s, i, j);
      }
    }
  }

  /** Each active run is in series on its own, and no two active runs interleave. */
  ghost predicate Serial(gap: int, builds: seq<Build>) {
    && (forall i :: 0 <= i < |builds| && Active(builds[i]) ==> InSeries(gap, Sort(BY_START, builds[i].steps)))
    && (forall i, j :: 0 <= i < j < |builds| && Active(builds[i]) && Active(builds[j]) ==>
          ApartEitherWay(gap, builds[i], builds[j]))
  }

  lemma {:induction false} SoundElements(gap: int, builds: seq<Build>)
    ensures forall b :: b in Sound(gap, builds) <==> b in builds && Active(b) && !SelfCollides(gap, b)
    ensures forall b :: b in SelfCheck(gap, InOrder(builds)).1 <==> b in builds && Active(b) && SelfCollides(gap, b)
  {
    InOrderElements(builds);
    SelfCheckElements(gap, InOrder(builds));
    hide SelfCollides, SelfCheck, InOrder, Active;
  }

  /** An active build is refused, or survives both checks. */
  lemma {:induction false} Survives(gap: int, builds: seq<Build>, b: Build)
    requires b in builds && Active(b)
    ensures b in Refused(gap, builds) || (!SelfCollides(gap, b) && b in CrossCheck(gap, Sound(gap, builds), None).0)
  {
    SoundElements(gap, builds);
    CrossCheckElements(gap, Sound(gap, builds), None);
    hide SelfCollides, SelfCheck, CrossCheck, Sound, InOrder;
  }

  /** Whatever builds it is given, the detector hands on only a serial plan, touches no other
      build, and reports a conflict for every run it withholds. */
  lemma DetectorSound(gap: int, builds: seq<Build>)
    requires gap >= 0 && DistinctBuilds(builds)
    requires forall i :: 0 <= i < |builds| ==> Forward(builds[i].steps)
    ensures var (kept, conflicts) := DetectCollisions(gap, builds);
      && Serial(gap, kept)
      && (forall i :: 0 <= i < |builds| ==>
            kept[i] == builds[i] ||
            (kept[i] == Withheld(builds[i]) && ConflictOf(builds[i], PlannerCollision) in conflicts))
  {
    var (kept, conflicts) := DetectCollisions(gap, builds);
    var refused := Refused(gap, builds);
    forall i | 0 <= i < |builds| && builds[i] in refused
      ensures ConflictOf(builds[i], PlannerCollision) in conflicts
    {
      var k :| 0 <= k < |refused| && refused[k] == builds[i];
      assert conflicts[k] == ConflictOf(builds[i], PlannerCollision);
    }
    forall i | 0 <= i < |kept| && Active(kept[i]) ensures InSeries(gap, Sort(BY_START, kept[i].steps)) {
      Survives(gap, builds, builds[i]);
      SelfCheckExact(gap, builds[i]);
    }
    hide Refused, CrossCheck, SelfCollides, InSeries, ConflictOf;
    forall i, j | 0 <= i < j < |kept| && Active(kept[i]) && Active(kept[j])
      ensures ApartEitherWay(gap, kept[i], kept[j])
    {
      SurvivorsApart(gap, builds, i, j);
    }
  }

  lemma SurvivorsApart(gap: int, builds: seq<Build>, i: nat, j: nat)
    requires gap >= 0 && DistinctBuilds(builds)
    requires forall k :: 0 <= k < |builds| ==> Forward(builds[k].steps)
    requires i < j < |builds| && Active(builds[i]) && Active(builds[j])
    requires builds[i] !in Refused(gap, builds) && builds[j] !in Refused(gap, builds)
    ensures ApartEitherWay(gap, builds[i], builds[j])
  {
    hide Refused, CrossCheck, SelfCollides, SelfCheck, Sound, Active, InOrder, Apart;
    var active := Sound(gap, builds);
    Survives(gap, builds, builds[i]);
    Survives(gap, builds, builds[j]);
    SoundElements(gap, builds);
    forall k | 0 <= k < |active| ensures Forward(active[k].steps) { assert active[k] in active; }
    SurvivorsFollow(gap, active, None);
    var kept := CrossCheck(gap, active, None).0;
    var p :| 0 <= p < |kept| && kept[p] == builds[i];
    var q :| 0 <= q < |kept| && kept[q] == builds[j];
  }

  // A serial plan passes

  lemma {:induction false} CrossCheckPasses(gap: int, active: seq<Build>, survivorEnd: Option<Instant>)
    requires forall k :: 0 <= k < |active| ==> active[k].steps != []
    requires Follow(gap, active, survivorEnd)
    ensures CrossCheck(gap, active, survivorEnd).1 == []
    decreases |active|
  {
    if active != [] {
      var head := active[0].steps;
      assert survivorEnd.Some? ==> From(survivorEnd.value + gap, head);
      assert survivorEnd.Some? ==> survivorEnd.value + gap <= BlockStart(head);
      forall i | 0 <= i < |active[1..]| ensures From(BlockEnd(head) + gap, active[1..][i].steps) {
        assert Apart(gap, head, active[i + 1].steps);
        ApartIsFrom(gap, head, active[i + 1].steps);
      }
      assert Follow(gap, active[1..], Some(BlockEnd(head))) by { hide Apart, From, BlockEnd; }
      CrossCheckPasses(gap, active[1..], Some(BlockEnd(head)));
    }
  }

  lemma {:induction false} ApartIsFrom(gap: int, a: seq<RunStep>, b: seq<RunStep>)
    requires a != [] && Apart(gap, a, b)
    ensures From(BlockEnd(a) + gap, b)
  {
    var k :| 0 <= k < |a| && a[k].plannedEnd == BlockEnd(a);
    hide BlockEnd;
  }

  /** Steps run forward, and one that begins as another ends does not also begin with it:
      there is a gap to keep, or no step is of zero length. */
  predicate Orderly(gap: int, steps: seq<RunStep>) { Forward(steps) && (gap > 0 || StrictlyForward(steps)) }

  lemma ApartByStart(gap: int, a: Build, b: Build)
    requires gap >= 0 && a.steps != [] && b.steps != [] && Orderly(gap, a.steps) && Orderly(gap, b.steps)
    requires ApartEitherWay(gap, a, b) && FirstStart(a) <= FirstStart(b)
    ensures Apart(gap, a.steps, b.steps)
  {
  }

  lemma {:induction false} NoneCollides(gap: int, active: seq<Build>)
    requires forall k :: 0 <= k < |active| ==> !SelfCollides(gap, active[k])
    ensures SelfCheck(gap, active) == (active, [])
  {
    if active != [] {
      NoneCollides(gap, active[1..]);
      assert active == [active[0]] + active[1..];
    }
    hide SelfCollides;
  }

  lemma {:induction false} ActiveNoDuplicates(builds: seq<Build>)
    requires DistinctBuilds(builds)
    ensures NoDuplicates(ActiveOf(builds))
  {
    if builds != [] {
      ActiveNoDuplicates(builds[1..]);
      ActiveOfElements(builds[1..]);
      var rest := ActiveOf(builds[1..]);
      hide ActiveOf;
      forall k | 0 <= k < |rest| ensures builds[0] != rest[k] { assert rest[k] in rest; }
    }
  }

  lemma SerialFollows(gap: int, builds: seq<Build>)
    requires gap >= 0 && DistinctBuilds(builds) && Serial(gap, builds)
    requires forall i :: 0 <= i < |builds| ==> Orderly(gap, builds[i].steps)
    ensures Follow(gap, InOrder(builds), None)
  {
    var s := InOrder(builds);
    InOrderElements(builds);
    ActiveNoDuplicates(builds);
    SortNoDuplicates(BY_FIRST_START, ActiveOf(builds));
    SortSorts(BY_FIRST_START, ActiveOf(builds));
    assert forall i, j :: 0 <= i < j < |s| ==> BY_FIRST_START(s[i], s[j]) && s[i] != s[j];
    hide InOrder, Sort, Apart, Orderly, InSeries, FirstStart;
    forall i, j | 0 <= i < j < |s| ensures Apart(gap, s[i].steps, s[j].steps) {
      assert BY_FIRST_START(s[i], s[j]) && s[i] in s && s[j] in s;
      SerialPair(gap, builds, s[i], s[j]);
    }
  }

  lemma SerialPair(gap: int, builds: seq<Build>, a: Build, b: Build)
    requires gap >= 0 && Serial(gap, builds) && a in builds && b in builds && a != b
    requires Active(a) && Active(b) && FirstStart(a) <= FirstStart(b)
    requires forall i :: 0 <= i < |builds| ==> Orderly(gap, builds[i].steps)
    ensures Apart(gap, a.steps, b.steps)
  {
    var i :| 0 <= i < |builds| && builds[i] == a;
    var j :| 0 <= j < |builds| && builds[j] == b;
    hide Apart, Orderly, InSeries, FirstStart;
    assert ApartEitherWay(gap, a, b) by {
      if i < j { assert ApartEitherWay(gap, builds[i], builds[j]); }
      else { assert ApartEitherWay(gap, builds[j], builds[i]); }
    }
    ApartByStart(gap, a, b);
  }

  lemma NothingRefused(gap: int, builds: seq<Build>)
    requires Refused(gap, builds) == []
    ensures DetectCollisions(gap, builds) == (builds, [])
  {
    assert WithholdAll(builds, []) == builds && CollisionConflicts([]) == [];
    hide Refused;
  }

  /** The active runs, in the order in which they execute, are each in series and each come
      after the ones before. */
  ghost predicate SerialInOrder(gap: int, builds: seq<Build>) {
    var s := InOrder(builds);
    && (forall k :: 0 <= k < |s| ==> InSeries(gap, Sort(BY_START, s[k].steps)))
    && Follow(gap, s, None)
  }

  /** The detector refuses nothing exactly when that is so, and then changes nothing. */
  lemma DetectorPasses(gap: int, builds: seq<Build>)
    requires gap >= 0 && forall i :: 0 <= i < |builds| ==> Forward(builds[i].steps)
    ensures Refused(gap, builds) == [] <==> SerialInOrder(gap, builds)
    ensures Refused(gap, builds) == [] ==> DetectCollisions(gap, builds) == (builds, [])
  {
    var s := InOrder(builds);
    InOrderElements(builds);
    forall k | 0 <= k < |s|
      ensures Forward(s[k].steps) && s[k].steps != []
        && (!SelfCollides(gap, s[k]) <==> InSeries(gap, Sort(BY_START, s[k].steps)))
    {
      assert s[k] in s;
      var i :| 0 <= i < |builds| && builds[i] == s[k];
      SelfCheckExact(gap, builds[i]);
    }
    if Refused(gap, builds) == [] { NothingRefused(gap, builds); }
    hide InOrder, SelfCollides, InSeries, Sort, Follow, DetectCollisions;
    RefusedOf(gap, builds);
  }

  /** Nothing is refused exactly when no run collides with itself and none with a run before. */
  lemma RefusedOf(gap: int, builds: seq<Build>)
    requires gap >= 0
    requires forall k :: 0 <= k < |InOrder(builds)| ==>
      InOrder(builds)[k].steps != [] && Forward(InOrder(builds)[k].steps)
    ensures Refused(gap, builds) == [] <==>
      && (forall k :: 0 <= k < |InOrder(builds)| ==> !SelfCollides(gap, InOrder(builds)[k]))
      && Follow(gap, InOrder(builds), None)
  {
    var s := InOrder(builds);
    SelfCheckElements(gap, s);
    hide InOrder, SelfCollides, SelfCheck, Follow, CrossCheck;
    if forall k :: 0 <= k < |s| ==> !SelfCollides(gap, s[k]) {
      NoneCollides(gap, s);
      assert Sound(gap, builds) == s;
      if Follow(gap, s, None) { CrossCheckPasses(gap, s, None); }
      if CrossCheck(gap, s, None).1 == [] {
        AllSurvive(gap, s, None);
        SurvivorsFollow(gap, s, None);
      }
    } else {
      var k :| 0 <= k < |s| && SelfCollides(gap, s[k]);
      assert s[k] in s && s[k] in SelfCheck(gap, s).1;
    }
  }

  lemma {:induction false} AllSurvive(gap: int, active: seq<Build>, survivorEnd: Option<Instant>)
    requires forall k :: 0 <= k < |active| ==> active[k].steps != []
    requires CrossCheck(gap, active, survivorEnd).1 == []
    ensures CrossCheck(gap, active, survivorEnd).0 == active
    decreases |active|
  {
    if active != [] {
      AllSurvive(gap, active[1..], Some(BlockEnd(active[0].steps)));
      assert active == [active[0]] + active[1..];
    }
  }

  /** Not so for a step of zero length when no gap is asked for: it is serial with a run that
      starts at the same instant, but refused when it comes second. */
  lemma ZeroLengthRefused(a: Build, b: Build)
    requires Active(a) && Active(b) && a.occurrence.id != b.occurrence.id && |a.steps| == |b.steps| == 1
    requires a.steps[0].plannedStart == 5 && a.steps[0].plannedEnd == 10
    requires b.steps[0].plannedStart == b.steps[0].plannedEnd == 5
    ensures Forward(a.steps) && Forward(b.steps)
    ensures Serial(0, [a, b]) && Serial(0, [b, a])
    ensures Refused(0, [a, b]) == [b] && Refused(0, [b, a]) == []
  {
    hide InOrder, Sort, Refused;
    assert Apart(0, b.steps, a.steps);
    ZeroLengthOrder(a, b);
    ZeroLengthOrder(b, a);
  }

  lemma ZeroLengthOrder(a: Build, b: Build)
    requires Active(a) && Active(b) && |a.steps| == |b.steps| == 1
    requires a.steps[0].plannedStart == 5 == b.steps[0].plannedStart
    ensures InOrder([a, b]) == [a, b] && Sort(BY_START, a.steps) == a.steps
    ensures Refused(0, [a, b]) == if a.steps[0].plannedEnd > 5 then [b] else []
  {
    SortIdentity(BY_START, a.steps);
    SortIdentity(BY_START, b.steps);
    assert InOrder([a, b]) == [a, b] by {
      ActiveAll([a, b]);
      assert SortedBy(BY_FIRST_START, [a, b]);
      SortIdentity(BY_FIRST_START, [a, b]);
    }
    NoneCollides(0, [a, b]);
    assert Sound(0, [a, b]) == [a, b];
    hide InOrder, Sort, SelfCheck, Sound;
    CrossPair(a, b);
  }

  lemma CrossPair(a: Build, b: Build)
    requires a.steps != [] && b.steps != []
    ensures CrossCheck(0, [a, b], None).1 == if BlockStart(b.steps) < BlockEnd(a.steps) then [b] else []
  {
    var end := Some(BlockEnd(a.steps));
    assert CrossCheck(0, [b], end).1 == if BlockStart(b.steps) < end.value then [b] else [] by {
      assert [b][1..] == [];
    }
    assert [a, b][1..] == [b];
  }

  lemma {:induction false} ActiveAll(builds: seq<Build>)
    requires forall i :: 0 <= i < |builds| ==> Active(builds[i])
    ensures ActiveOf(builds) == builds
  {
    if builds != [] {
      ActiveAll(builds[1..]);
      assert builds == [builds[0]] + builds[1..];
    }
  }

  /** The detector refuses nothing exactly when the plan is already serial. */
  lemma DetectorExact(gap: int, builds: seq<Build>)
    requires gap >= 0 && DistinctBuilds(builds)
    requires forall i :: 0 <= i < |builds| ==> Orderly(gap, builds[i].steps)
    ensures Refused(gap, builds) == [] <==> Serial(gap, builds)
    ensures Refused(gap, builds) == [] ==> DetectCollisions(gap, builds) == (builds, [])
  {
    forall i | 0 <= i < |builds| ensures Forward(builds[i].steps) { assert Orderly(gap, builds[i].steps); }
    DetectorPasses(gap, builds);
    if Refused(gap, builds) == [] {
      DetectorSound(gap, builds);
    } else if Serial(gap, builds) {
      SerialPasses(gap, builds);
    }
    hide Refused, DetectCollisions, Serial, SerialInOrder;
  }

  lemma SerialPasses(gap: int, builds: seq<Build>)
    requires gap >= 0 && DistinctBuilds(builds) && Serial(gap, builds)
    requires forall i :: 0 <= i < |builds| ==> Orderly(gap, builds[i].steps)
    ensures SerialInOrder(gap, builds)
  {
    var s := InOrder(builds);
    InOrderElements(builds);
    forall k | 0 <= k < |s| ensures InSeries(gap, Sort(BY_START, s[k].steps)) {
      assert s[k] in s;
      var i :| 0 <= i < |builds| && builds[i] == s[k];
    }
    SerialFollows(gap, builds);
    hide InOrder, Follow, Active;
  }
}
