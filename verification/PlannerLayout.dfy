/** The layout of one occurrence: what the greedy loop guarantees. */
module PlannerLayout {
  import opened Domain
  import opened PlannerSpec

  // ---------------------------------------------------------------------
  // Runtimes and cycles

  /** The quantised runtime is a nearest integer, and ties go away from zero. */
  lemma QuantizeNearest(exact: real)
    ensures var q := Quantize(exact) as real;
      && -0.5 <= q - exact <= 0.5
      && (q - exact == -0.5 ==> exact < 0.0)
      && (q - exact == 0.5 ==> exact > 0.0)
  {}

  lemma {:induction false} MinutesAppend(a: seq<nat>, b: seq<nat>)
    ensures Minutes(a + b) == Minutes(a) + Minutes(b)
  {
    if a == [] {
      assert a + b == b;
    } else {
      MinutesAppend(a[1..], b);
      assert (a + b)[1..] == a[1..] + b;
    }
  }

  lemma {:induction false} MinutesConstant(s: seq<nat>, v: nat)
    requires forall i :: 0 <= i < |s| ==> s[i] == v
    ensures Minutes(s) == |s| * v
  {
    if s != [] {
      MinutesConstant(s[1..], v);
      assert |s| * v == (|s| - 1) * v + v;
    }
  }

  lemma {:induction false} MinutesAtMost(s: seq<nat>, v: nat)
    requires forall i :: 0 <= i < |s| ==> s[i] <= v
    ensures Minutes(s) <= |s| * v
  {
    if s != [] {
      MinutesAtMost(s[1..], v);
      assert |s| * v == (|s| - 1) * v + v;
    }
  }

  lemma SplitEvenlySums(total: nat, count: nat, base: nat, remainder: nat)
    requires count > 0 && base == total / count && remainder == total % count
    ensures Minutes(SplitEvenly(total, count)) == total
  {
    SplitAt(SplitEvenly(total, count), base, remainder);
    SplitTotal(total, count, base, remainder);
  }

  lemma {:induction false} SplitAt(s: seq<nat>, base: nat, remainder: nat)
    requires remainder <= |s|
    requires forall i :: 0 <= i < |s| ==> s[i] == if i < remainder then base + 1 else base
    ensures Minutes(s) == remainder * (base + 1) + (|s| - remainder) * base
  {
    var longer, shorter := s[..remainder], s[remainder..];
    MinutesConstant(longer, base + 1);
    MinutesConstant(shorter, base);
    MinutesAppend(longer, shorter);
    assert s == longer + shorter;
  }

  lemma SplitTotal(total: int, count: int, base: int, remainder: int)
    requires count > 0 && base == total / count && remainder == total % count
    ensures remainder * (base + 1) + (count - remainder) * base == total
  {
    assert remainder * (base + 1) == remainder * base + remainder;
    assert (count - remainder) * base == count * base - remainder * base;
    assert total == count * base + remainder;
  }

  lemma ScaleLeq(a: int, b: int, m: int)
    requires a <= b && m >= 0
    ensures a * m <= b * m
  {}

  lemma BaseBounds(total: nat, count: nat, most: nat)
    requires count > 0 && count <= total <= count * most
    ensures 1 <= total / count <= most
    ensures total % count > 0 ==> total / count < most
  {
    var base, remainder := total / count, total % count;
    assert total == base * count + remainder;
    if base >= most { ScaleLeq(most, base, count); }
    assert (most + 1) * count == most * count + count;
    if base >= most + 1 { ScaleLeq(most + 1, base, count); }
    if base <= 0 { ScaleLeq(base, 0, count); }
  }

  lemma CountAtMost(total: nat, most: nat)
    requires total > 0 && most > 0
    ensures PartCount(total, most) <= total
  {
    var count := PartCount(total, most);
    hide PartCount;
    ScaleLeq(1, most, count - 1);
    assert (count - 1) * most == most * (count - 1);
  }

  /** Cycles sum to the total, each fits the maximum, and they differ by at most one minute. */
  lemma CyclesConserveAndBalance(total: int, maxCycle: Option<int>)
    ensures total <= 0 ==> AllocateCycles(total, maxCycle) == []
    ensures total > 0 ==> var r := AllocateCycles(total, maxCycle);
      && r != [] && Minutes(r) == total
      && (forall i :: 0 <= i < |r| ==> 1 <= r[i])
      && (maxCycle.Some? && maxCycle.value > 0 ==> forall i :: 0 <= i < |r| ==> r[i] <= maxCycle.value)
      && (forall i, j :: 0 <= i <= j < |r| ==> r[j] <= r[i] <= r[j] + 1)
  {
    if total <= 0 {
    } else if maxCycle.None? || maxCycle.value <= 0 || total <= maxCycle.value {
      assert AllocateCycles(total, maxCycle) == [total];
      assert Minutes([total]) == total;
    } else {
      var count := PartCount(total, maxCycle.value);
      CountAtMost(total, maxCycle.value);
      BaseBounds(total, count, maxCycle.value);
      EvenParts(total, count, total / count, total % count);
      SplitEvenlySums(total, count, total / count, total % count);
      hide SplitEvenly, Minutes, PartCount;
    }
  }

  lemma EvenParts(total: nat, count: nat, base: nat, remainder: nat)
    requires count > 0 && base == total / count && remainder == total % count
    ensures var r := SplitEvenly(total, count);
      && |r| == count
      && forall i :: 0 <= i < count ==> r[i] == if i < remainder then base + 1 else base
  {}

  /** No split of the total into cycles within the maximum has fewer cycles. */
  lemma {:induction false} CyclesFewest(total: int, most: int, other: seq<nat>)
    requires total > 0 && most > 0
    requires Minutes(other) == total && forall i :: 0 <= i < |other| ==> other[i] <= most
    ensures |AllocateCycles(total, Some(most))| <= |other|
  {
    MinutesAtMost(other, most);
    if total > most {
      var count := PartCount(total, most);
      EvenParts(total, count, total / count, total % count);
      hide PartCount, SplitEvenly, Minutes;
      if |other| < count { ScaleLeq(|other|, count - 1, most); }
    } else {
      assert other != [] by { assert Minutes([]) == 0; }
    }
  }

  // ---------------------------------------------------------------------
  // Reading a plan: who was placed when

  /** How many of the first n placed steps belong to item k. */
  function CountOf(placed: seq<Placed>, n: nat, k: nat): nat
    requires n <= |placed|
  {
    if n == 0 then 0 else CountOf(placed, n - 1, k) + (if placed[n - 1].owner == k then 1 else 0)
  }

  /** The minutes that the first n placed steps give to item k. */
  function MinutesOf(placed: seq<Placed>, n: nat, k: nat): nat
    requires n <= |placed|
  {
    if n == 0 then 0
    else MinutesOf(placed, n - 1, k) + (if placed[n - 1].owner == k then placed[n - 1].step.duration else 0)
  }

  /** When item k may start after the first n placed steps: at its request, or when
      its own last cycle has soaked in. */
  function EligibleAfter(items: seq<Item>, placed: seq<Placed>, n: nat, k: nat): Instant
    requires n <= |placed| && k < |items|
  {
    if n == 0 then items[k].requested
    else if placed[n - 1].owner == k then placed[n - 1].step.plannedEnd + items[k].soak
    else EligibleAfter(items, placed, n - 1, k)
  }

  /** When the controller is free for the n-th placed step. */
  function FreeFor(gap: int, begin: Instant, placed: seq<Placed>, n: nat): Instant
    requires n <= |placed|
  {
    if n == 0 then begin else placed[n - 1].step.plannedEnd + gap
  }

  predicate SameButCount(a: Placed, b: Placed) {
    a.owner == b.owner && a.step.(cycleCount := 0) == b.step.(cycleCount := 0)
  }

  lemma {:induction false} SameReading(items: seq<Item>, p: seq<Placed>, q: seq<Placed>, n: nat, k: nat)
    requires n <= |p| && n <= |q| && k < |items|
    requires forall i :: 0 <= i < n ==> SameButCount(p[i], q[i])
    ensures CountOf(p, n, k) == CountOf(q, n, k)
    ensures MinutesOf(p, n, k) == MinutesOf(q, n, k)
    ensures EligibleAfter(items, p, n, k) == EligibleAfter(items, q, n, k)
  {
    if n > 0 { SameReading(items, p, q, n - 1, k); assert SameButCount(p[n - 1], q[n - 1]); }
  }

  // ---------------------------------------------------------------------
  // The invariant of the loop

  /** Work items as they come out of preparation. */
  ghost predicate FreshItems(items: seq<Item>) {
    forall k :: 0 <= k < |items| ==> FreshItem(items[k])
  }

  ghost predicate FreshItem(it: Item) {
    && it.cycles != [] && (forall i :: 0 <= i < |it.cycles| ==> it.cycles[i] >= 1)
    && Minutes(it.cycles) == it.total && it.cycleCount == |it.cycles|
    && it.emitted == 0 && it.cut == 0 && it.eligible == it.requested && it.soak >= 0
  }

  /** No zone is requested twice for the same instant. Only the numbering of cycles
      depends on it: the code finds the steps to renumber by zone and request. */
  predicate DistinctRequests(items: seq<Item>) {
    forall i, j :: 0 <= i < j < |items| ==> items[i].zone != items[j].zone || items[i].requested != items[j].requested
  }

  /** What never changes about an item. */
  predicate SameItem(a: Item, b: Item) {
    a.zone == b.zone && a.position == b.position && a.requested == b.requested && a.total == b.total && a.soak == b.soak
  }

  predicate SkipRecorded(skipped: seq<SkippedZone>, zone: ZoneId) {
    SkippedZone(zone, OutOfWindow) in skipped
  }

  /** The cycles left are those allocated and not yet placed; or none; or one that was cut
      short and has become the last. */
  predicate CyclesAsAllocated(it0: Item, it: Item) {
    || it.cycles == []
    || (it.emitted < |it0.cycles| && it.cycles == it0.cycles[it.emitted..])
    || (it.emitted < |it0.cycles| && |it.cycles| == 1 && it.cycles[0] < it0.cycles[it.emitted]
        && it.cycleCount == it.emitted + 1)
  }

  /** A step waters its allocated cycle, or a shorter one that is the item's last. */
  predicate DurationKept(it0: Item, it: Item, step: RunStep) {
    && 1 <= step.cycleIndex <= |it0.cycles|
    && (step.duration == it0.cycles[step.cycleIndex - 1] ||
        (step.duration < it0.cycles[step.cycleIndex - 1]
         && step.cycleIndex == it.cycleCount == it.emitted && !Left(it)))
  }

  /** The step is shorter than the cycle allocated for it. */
  predicate ShortStep(it0: Item, step: RunStep) {
    1 <= step.cycleIndex <= |it0.cycles| && step.duration < it0.cycles[step.cycleIndex - 1]
  }

  /** Item k has a placed step that was cut short by the window. */
  predicate ShortPlaced(it0: Item, placed: seq<Placed>, k: nat) {
    exists n :: 0 <= n < |placed| && placed[n].owner == k && ShortStep(it0, placed[n].step)
  }

  /** The cycle count is the number of cycles allocated, until one is cut short. */
  predicate CountAsAllocated(it0: Item, it: Item, placed: seq<Placed>, k: nat) {
    || it.cycleCount == |it0.cycles|
    || (it.emitted < |it0.cycles| && |it.cycles| == 1 && it.cycles[0] < it0.cycles[it.emitted])
    || ShortPlaced(it0, placed, k)
  }

  /** An item's own books balance: minutes, cycle numbers and eligibility. */
  ghost predicate ItemKept(items0: seq<Item>, l: Layout, k: nat)
    requires k < |l.items| && k < |items0|
  {
    var it := l.items[k];
    && SameItem(items0[k], it)
    && MinutesOf(l.placed, |l.placed|, k) + Minutes(it.cycles) + it.cut == it.total
    && it.cut >= 0
    && it.emitted == CountOf(l.placed, |l.placed|, k)
    && it.emitted <= |items0[k].cycles|
    && CountAsAllocated(items0[k], it, l.placed, k)
    && it.eligible == EligibleAfter(items0, l.placed, |l.placed|, k)
    && (forall i :: 0 <= i < |it.cycles| ==> it.cycles[i] >= 1)
    && CyclesAsAllocated(items0[k], it)
    && (it.emitted + |it.cycles| == it.cycleCount || (it.cycles == [] && SkipRecorded(l.skipped, it.zone)))
    && (Left(it) || it.emitted > 0 || SkipRecorded(l.skipped, it.zone))
  }

  /** Inside the window at its start and, when steps are truncated, until its end. */
  predicate InWindow(c: Setting, step: RunStep) {
    c.window.Some? ==>
      var w, local := c.window.value, LocalTime(c.offset, step.plannedStart);
      && WindowContains(w, local)
      && (w.policy == TruncateLast ==> step.duration <= MinutesUntilWindowEnd(w, local))
  }

  /** The n-th placed step is a cycle of its item, numbered, timed and in the window. */
  predicate StepKept(c: Setting, items0: seq<Item>, l: Layout, n: nat)
    requires n < |l.placed|
  {
    var p := l.placed[n];
    && p.owner < |items0| && p.owner < |l.items|
    && p.step.zone == items0[p.owner].zone && p.step.requestedStart == items0[p.owner].requested
    && p.step.plannedEnd == p.step.plannedStart + 60 * p.step.duration && p.step.duration >= 1
    && p.step.cycleIndex == CountOf(l.placed, n, p.owner) + 1
    && (DistinctRequests(items0) ==> p.step.cycleCount == l.items[p.owner].cycleCount)
    && DurationKept(items0[p.owner], l.items[p.owner], p.step)
    && (p.step.soakBefore <==> p.step.cycleIndex > 1 && items0[p.owner].soak > 0)
    && p.step.plannedStart >= EligibleAfter(items0, l.placed, n, p.owner)
    && InWindow(c, p.step)
  }

  /** By request, then by position, then by zone. */
  predicate KeyLeq(a: Item, b: Item) {
    || a.requested < b.requested
    || (a.requested == b.requested && a.position < b.position)
    || (a.requested == b.requested && a.position == b.position && a.zone <= b.zone)
  }

  /** The n-th placed step did not keep item k waiting: it did not leave the controller
      idle while k could start, and went first only with a key no greater than k's. */
  predicate FairTo(c: Setting, items0: seq<Item>, begin: Instant, placed: seq<Placed>, n: nat, k: nat)
    requires n < |placed| && k < |items0|
  {
    var start, eligible := placed[n].step.plannedStart, EligibleAfter(items0, placed, n, k);
    && start <= Max(FreeFor(c.gap, begin, placed, n), eligible)
    && (eligible <= start ==> placed[n].owner < |items0| && KeyLeq(items0[placed[n].owner], items0[k]))
  }

  ghost predicate Spaced(c: Setting, begin: Instant, l: Layout) {
    && begin <= l.cursor
    && (forall i :: 0 <= i < |l.placed| ==> begin <= l.placed[i].step.plannedStart)
    && (forall i :: 0 <= i < |l.placed| ==> l.placed[i].step.plannedEnd + c.gap <= l.cursor)
    && (forall i, j :: 0 <= i < j < |l.placed| ==>
          l.placed[i].step.plannedEnd + c.gap <= l.placed[j].step.plannedStart)
  }

  ghost predicate Greedy(c: Setting, items0: seq<Item>, begin: Instant, l: Layout)
    requires |items0| == |l.items|
  {
    && (forall k :: 0 <= k < |l.items| && Left(l.items[k]) ==>
          l.cursor <= Max(FreeFor(c.gap, begin, l.placed, |l.placed|), l.items[k].eligible))
    && (forall n, k :: 0 <= n < |l.placed| && 0 <= k < |l.items| && Left(l.items[k]) ==>
          FairTo(c, items0, begin, l.placed, n, k))
    && (forall n, m :: 0 <= n <= m < |l.placed| && l.placed[m].owner < |items0| ==>
          FairTo(c, items0, begin, l.placed, n, l.placed[m].owner))
  }

  ghost predicate Kept(c: Setting, items0: seq<Item>, begin: Instant, l: Layout) {
    && |l.items| == |items0|
    && (forall k :: 0 <= k < |items0| ==> ItemKept(items0, l, k))
    && (forall n :: 0 <= n < |l.placed| ==> StepKept(c, items0, l, n))
    && Spaced(c, begin, l)
    && Greedy(c, items0, begin, l)
    && (c.window.None? ==> forall k :: 0 <= k < |items0| ==> l.items[k].cut == 0)
  }

  /** Between rounds no cycle is cut short and still to be placed. */
  predicate NoneShortened(items0: seq<Item>, items: seq<Item>)
    requires |items0| == |items|
  {
    forall k :: 0 <= k < |items| && Left(items[k]) ==>
      items[k].emitted <= |items0[k].cycles| && items[k].cycles == items0[k].cycles[items[k].emitted..]
  }

  /** A dropped occurrence has no steps and one conflict; otherwise it has none. */
  ghost predicate Laid(c: Setting, items0: seq<Item>, begin: Instant, skipped0: seq<SkippedZone>, l: Layout) {
    && |l.items| == |items0|
    && skipped0 <= l.skipped
    && (c.window.None? ==> !l.dropped && l.skipped == skipped0)
    && if l.dropped
       then l.placed == [] && |l.conflicts| == 1 && l.conflicts[0].occurrence == c.occurrence
       else l.conflicts == [] && NoneShortened(items0, l.items) && Kept(c, items0, begin, l)
  }

  // ---------------------------------------------------------------------
  // Every round keeps it

  ghost predicate Proper(c: Setting, items0: seq<Item>) {
    c.gap >= 0 && forall k :: 0 <= k < |items0| ==> items0[k].soak >= 0
  }

  // Emit

  lemma {:induction false} EmitReadings(c: Setting, items0: seq<Item>, l: Layout, k: nat, n: nat, j: nat)
    requires k < |l.items| && Left(l.items[k]) && n <= |l.placed| && j < |items0|
    ensures var p := Emit(c, l, k).placed;
      && CountOf(p, n, j) == CountOf(l.placed, n, j)
      && MinutesOf(p, n, j) == MinutesOf(l.placed, n, j)
      && EligibleAfter(items0, p, n, j) == EligibleAfter(items0, l.placed, n, j)
  {
    SameReading(items0, Emit(c, l, k).placed, l.placed, n, j);
  }

  lemma EmitKeepsItem(c: Setting, items0: seq<Item>, l: Layout, k: nat, j: nat)
    requires k < |l.items| && Left(l.items[k]) && j < |l.items| == |items0|
    requires ItemKept(items0, l, j)
    ensures ItemKept(items0, Emit(c, l, k), j)
  {
    EmitReadings(c, items0, l, k, |l.placed|, j);
    EmitKeepsCount(c, items0, l, k, j);
    hide CountAsAllocated;
  }

  lemma EmitKeepsCount(c: Setting, items0: seq<Item>, l: Layout, k: nat, j: nat)
    requires k < |l.items| && Left(l.items[k]) && j < |l.items| == |items0|
    requires ItemKept(items0, l, j)
    ensures var r := Emit(c, l, k); CountAsAllocated(items0[j], r.items[j], r.placed, j)
  {
    var p := Emit(c, l, k).placed;
    var (it0, it) := (items0[j], l.items[j]);
    hide CountOf, MinutesOf, EligibleAfter;
    if ShortPlaced(it0, l.placed, j) {
      var n :| 0 <= n < |l.placed| && l.placed[n].owner == j && ShortStep(it0, l.placed[n].step);
      assert p[n] == l.placed[n];
    } else if it.cycleCount != |it0.cycles| && j == k {
      assert p[|l.placed|].owner == j && ShortStep(it0, p[|l.placed|].step);
    }
  }

  /** Placing the chosen item's cycle leaves none that is cut short and not placed. */
  lemma EmitSettles(c: Setting, items0: seq<Item>, items: seq<Item>, l: Layout, k: nat)
    requires k < |l.items| == |items0| == |items| && NoneShortened(items0, items)
    requires Left(items[k]) && Left(l.items[k]) && l.items[k].emitted == items[k].emitted
    requires forall j :: 0 <= j < |items| && j != k ==> l.items[j] == items[j]
    requires l.items[k].cycles == items[k].cycles || |l.items[k].cycles| == 1
    ensures NoneShortened(items0, Emit(c, l, k).items)
  {}

  lemma EmitKeepsStep(c: Setting, items0: seq<Item>, l: Layout, k: nat, n: nat)
    requires k < |l.items| && Left(l.items[k]) && n < |l.placed| && |l.items| == |items0|
    requires StepKept(c, items0, l, n)
    ensures StepKept(c, items0, Emit(c, l, k), n)
  {
    EmitReadings(c, items0, l, k, n, l.placed[n].owner);
    hide InWindow, CountOf, EligibleAfter;
  }

  lemma EmitNewStep(c: Setting, items0: seq<Item>, l: Layout, k: nat)
    requires k < |l.items| == |items0| && Ready(l.items[k], l.cursor)
    requires ItemKept(items0, l, k)
    requires InWindow(c, StepFor(l.items[k], l.cursor))
    ensures StepKept(c, items0, Emit(c, l, k), |l.placed|)
  {
    EmitReadings(c, items0, l, k, |l.placed|, k);
    hide InWindow, MinutesOf;
  }

  lemma EmitSpaced(c: Setting, begin: Instant, l: Layout, k: nat)
    requires k < |l.items| && Left(l.items[k]) && c.gap >= 0
    requires Spaced(c, begin, l)
    ensures Spaced(c, begin, Emit(c, l, k))
  {}

  lemma EmitKeepsFair(c: Setting, items0: seq<Item>, begin: Instant, l: Layout, k: nat, n: nat, j: nat)
    requires k < |l.items| && Left(l.items[k]) && n < |l.placed| && j < |items0|
    requires FairTo(c, items0, begin, l.placed, n, j)
    ensures FairTo(c, items0, begin, Emit(c, l, k).placed, n, j)
  {
    EmitReadings(c, items0, l, k, n, j);
  }

  lemma {:induction false} LeastReadyIsLeast(items: seq<Item>, t: Instant, n: nat, j: nat)
    requires n <= |items| && j < n && Ready(items[j], t)
    ensures var r := LeastReady(items, t, n);
      r.Some? && KeyLeq(items[r.value], items[j]) && (j < r.value ==> !KeyLeq(items[j], items[r.value]))
  {
    if j < n - 1 { LeastReadyIsLeast(items, t, n - 1, j); }
  }

  lemma {:induction false} EmitNewFair(c: Setting, items0: seq<Item>, begin: Instant, l: Layout, j: nat)
    requires |l.items| == |items0| && AnyReady(l.items, l.cursor) && j < |l.items| && Left(l.items[j])
    requires var k := Choose(l.items, l.cursor); SameItem(items0[k], l.items[k])
    requires SameItem(items0[j], l.items[j])
    requires l.items[j].eligible == EligibleAfter(items0, l.placed, |l.placed|, j)
    requires l.cursor <= Max(FreeFor(c.gap, begin, l.placed, |l.placed|), l.items[j].eligible)
    ensures FairTo(c, items0, begin, Emit(c, l, Choose(l.items, l.cursor)).placed, |l.placed|, j)
  {
    var k := Choose(l.items, l.cursor);
    EmitReadings(c, items0, l, k, |l.placed|, j);
    if l.items[j].eligible <= l.cursor { LeastReadyIsLeast(l.items, l.cursor, |l.items|, j); }
  }

  lemma EmitGreedy(c: Setting, items0: seq<Item>, begin: Instant, l: Layout)
    requires Proper(c, items0) && Kept(c, items0, begin, l) && AnyReady(l.items, l.cursor)
    ensures Greedy(c, items0, begin, Emit(c, l, Choose(l.items, l.cursor)))
  {
    var k := Choose(l.items, l.cursor);
    var r := Emit(c, l, k);
    var last := |l.placed|;
    assert SameItem(items0[k], l.items[k]) by { assert ItemKept(items0, l, k); }
    forall j | 0 <= j < |items0| && Left(l.items[j]) ensures FairTo(c, items0, begin, r.placed, last, j) {
      assert ItemKept(items0, l, j);
      EmitNewFair(c, items0, begin, l, j);
    }
    forall n, j | 0 <= n < last && 0 <= j < |items0| && FairTo(c, items0, begin, l.placed, n, j)
      ensures FairTo(c, items0, begin, r.placed, n, j)
    {
      EmitKeepsFair(c, items0, begin, l, k, n, j);
    }
    EmitFacts(c, l, k);
    hide FairTo, StepKept, ItemKept, Emit, Spaced, Choose;
  }

  lemma EmitFacts(c: Setting, l: Layout, k: nat)
    requires k < |l.items| && Left(l.items[k])
    ensures var r := Emit(c, l, k);
      && |r.items| == |l.items| && |r.placed| == |l.placed| + 1
      && (forall j :: 0 <= j < |l.items| && j != k ==> r.items[j] == l.items[j])
      && (forall n :: 0 <= n < |l.placed| ==> r.placed[n] == l.placed[n])
      && r.placed[|l.placed|].owner == k
      && r.items[k].cut == l.items[k].cut
      && r.placed[|l.placed|].step.plannedEnd + c.gap == r.cursor
  {}

  lemma EmitKept(c: Setting, items0: seq<Item>, begin: Instant, l: Layout)
    requires Proper(c, items0) && Kept(c, items0, begin, l) && AnyReady(l.items, l.cursor)
    requires InWindow(c, StepFor(l.items[Choose(l.items, l.cursor)], l.cursor))
    ensures Kept(c, items0, begin, Emit(c, l, Choose(l.items, l.cursor)))
  {
    var k := Choose(l.items, l.cursor);
    var r := Emit(c, l, k);
    EmitGreedy(c, items0, begin, l);
    EmitSpaced(c, begin, l, k);
    assert ItemKept(items0, l, k);
    EmitNewStep(c, items0, l, k);
    forall j | 0 <= j < |items0| ensures ItemKept(items0, r, j) {
      assert ItemKept(items0, l, j);
      EmitKeepsItem(c, items0, l, k, j);
    }
    forall n | 0 <= n < |l.placed| ensures StepKept(c, items0, r, n) {
      assert StepKept(c, items0, l, n);
      EmitKeepsStep(c, items0, l, k, n);
    }
    EmitFacts(c, l, k);
    hide FairTo, StepKept, ItemKept, Emit, Spaced, Greedy, Choose;
  }

  // Truncate

  lemma TruncateSame(c: Setting, items0: seq<Item>, begin: Instant, l: Layout, k: nat, available: nat, n: nat)
    requires Proper(c, items0) && Kept(c, items0, begin, l)
    requires k < |l.items| && Left(l.items[k]) && n < |l.placed|
    ensures var r := Truncate(l, k, available);
      && SameButCount(r.placed[n], l.placed[n])
      && (DistinctRequests(items0) ==>
            && (l.placed[n].owner == k ==> r.placed[n].step.cycleCount == l.items[k].emitted + 1)
            && (l.placed[n].owner != k ==> r.placed[n].step.cycleCount == l.placed[n].step.cycleCount))
  {
    assert StepKept(c, items0, l, n);
    assert ItemKept(items0, l, k);
    hide CountOf, MinutesOf, EligibleAfter, InWindow;
  }

  lemma {:induction false} TruncateReadings(
    c: Setting, items0: seq<Item>, begin: Instant, l: Layout, k: nat, available: nat, n: nat, j: nat)
    requires Proper(c, items0) && Kept(c, items0, begin, l)
    requires k < |l.items| && Left(l.items[k]) && n <= |l.placed| && j < |items0|
    ensures var p := Truncate(l, k, available).placed;
      && |p| == |l.placed|
      && CountOf(p, n, j) == CountOf(l.placed, n, j)
      && MinutesOf(p, n, j) == MinutesOf(l.placed, n, j)
      && EligibleAfter(items0, p, n, j) == EligibleAfter(items0, l.placed, n, j)
  {
    var r := Truncate(l, k, available);
    forall i | 0 <= i < n ensures SameButCount(r.placed[i], l.placed[i]) {
      TruncateSame(c, items0, begin, l, k, available, i);
    }
    SameReading(items0, r.placed, l.placed, n, j);
  }

  lemma TruncateKeepsItem(c: Setting, items0: seq<Item>, begin: Instant, l: Layout, k: nat, available: nat, j: nat)
    requires Proper(c, items0) && Kept(c, items0, begin, l)
    requires k < |l.items| && Left(l.items[k]) && 1 <= available < l.items[k].cycles[0] && j < |items0|
    ensures ItemKept(items0, Truncate(l, k, available), j)
  {
    assert ItemKept(items0, l, j) && ItemKept(items0, l, k);
    TruncateReadings(c, items0, begin, l, k, available, |l.placed|, j);
    TruncateKeepsCount(c, items0, begin, l, k, available, j);
    assert Minutes([available]) == available;
    hide CountOf, MinutesOf, EligibleAfter, StepKept, Greedy, Spaced, Recount, CountAsAllocated;
  }

  lemma TruncateKeepsCount(c: Setting, items0: seq<Item>, begin: Instant, l: Layout, k: nat, available: nat, j: nat)
    requires Proper(c, items0) && Kept(c, items0, begin, l)
    requires k < |l.items| && Left(l.items[k]) && 1 <= available < l.items[k].cycles[0] && j < |items0|
    ensures var r := Truncate(l, k, available); CountAsAllocated(items0[j], r.items[j], r.placed, j)
  {
    var p := Truncate(l, k, available).placed;
    assert ItemKept(items0, l, j);
    hide CountOf, MinutesOf, EligibleAfter, StepKept, Greedy, Spaced, Recount;
    if j != k && ShortPlaced(items0[j], l.placed, j) {
      var n :| 0 <= n < |l.placed| && l.placed[n].owner == j && ShortStep(items0[j], l.placed[n].step);
      TruncateSame(c, items0, begin, l, k, available, n);
      assert p[n].owner == j && ShortStep(items0[j], p[n].step);
    }
  }

  lemma TruncateKeepsStep(c: Setting, items0: seq<Item>, begin: Instant, l: Layout, k: nat, available: nat, n: nat)
    requires Proper(c, items0) && Kept(c, items0, begin, l)
    requires k < |l.items| && Left(l.items[k]) && n < |l.placed|
    ensures StepKept(c, items0, Truncate(l, k, available), n)
  {
    assert StepKept(c, items0, l, n);
    TruncateSame(c, items0, begin, l, k, available, n);
    TruncateReadings(c, items0, begin, l, k, available, n, l.placed[n].owner);
    hide CountOf, MinutesOf, EligibleAfter, InWindow, Greedy, Spaced, Recount, ItemKept;
  }

  lemma TruncateKeepsFair(
    c: Setting, items0: seq<Item>, begin: Instant, l: Layout, k: nat, available: nat, n: nat, j: nat)
    requires Proper(c, items0) && Kept(c, items0, begin, l)
    requires k < |l.items| && Left(l.items[k]) && n < |l.placed| && j < |items0|
    requires FairTo(c, items0, begin, l.placed, n, j)
    ensures FairTo(c, items0, begin, Truncate(l, k, available).placed, n, j)
  {
    TruncateReadings(c, items0, begin, l, k, available, n, j);
    TruncateSame(c, items0, begin, l, k, available, n);
    if n > 0 { TruncateSame(c, items0, begin, l, k, available, n - 1); }
    hide CountOf, MinutesOf, EligibleAfter, Kept, Truncate;
  }

  lemma TruncateSpaced(c: Setting, items0: seq<Item>, begin: Instant, l: Layout, k: nat, available: nat)
    requires Proper(c, items0) && Kept(c, items0, begin, l)
    requires k < |l.items| && Left(l.items[k])
    ensures Spaced(c, begin, Truncate(l, k, available))
  {
    var r := Truncate(l, k, available);
    forall i | 0 <= i < |l.placed| ensures SameButCount(r.placed[i], l.placed[i]) {
      TruncateSame(c, items0, begin, l, k, available, i);
    }
    assert Spaced(c, begin, l);
    hide Kept, Recount;
    assert forall i :: 0 <= i < |r.placed| ==>
      r.placed[i].step.plannedStart == l.placed[i].step.plannedStart &&
      r.placed[i].step.plannedEnd == l.placed[i].step.plannedEnd;
  }

  lemma TruncateFacts(l: Layout, k: nat, available: nat)
    requires k < |l.items| && Left(l.items[k])
    ensures var r := Truncate(l, k, available);
      && |r.items| == |l.items| && |r.placed| == |l.placed| && r.cursor == l.cursor
      && (forall j :: 0 <= j < |l.items| && j != k ==> r.items[j] == l.items[j])
      && Left(r.items[k]) && r.items[k].eligible == l.items[k].eligible
      && (forall j :: 0 <= j < |l.items| ==> Left(r.items[j]) == Left(l.items[j]))
      && (forall j :: 0 <= j < |l.items| ==> r.items[j].eligible == l.items[j].eligible)
      && (forall n :: 0 <= n < |l.placed| ==>
            r.placed[n].owner == l.placed[n].owner && r.placed[n].step.plannedEnd == l.placed[n].step.plannedEnd)
  {}

  lemma TruncateGreedy(c: Setting, items0: seq<Item>, begin: Instant, l: Layout, k: nat, available: nat)
    requires Proper(c, items0) && Kept(c, items0, begin, l)
    requires k < |l.items| && Left(l.items[k])
    ensures |items0| == |l.items| && Greedy(c, items0, begin, Truncate(l, k, available))
  {
    var r := Truncate(l, k, available);
    forall n, j | 0 <= n < |l.placed| && 0 <= j < |items0| && FairTo(c, items0, begin, l.placed, n, j)
      ensures FairTo(c, items0, begin, r.placed, n, j)
    {
      TruncateKeepsFair(c, items0, begin, l, k, available, n, j);
    }
    TruncateFacts(l, k, available);
    hide FairTo, StepKept, ItemKept, Truncate, Spaced;
  }

  lemma TruncateKept(c: Setting, items0: seq<Item>, begin: Instant, l: Layout, k: nat, available: nat)
    requires Proper(c, items0) && Kept(c, items0, begin, l) && c.window.Some?
    requires k < |l.items| && Left(l.items[k]) && 1 <= available < l.items[k].cycles[0]
    ensures Kept(c, items0, begin, Truncate(l, k, available))
  {
    var r := Truncate(l, k, available);
    forall j | 0 <= j < |items0| ensures ItemKept(items0, r, j) {
      TruncateKeepsItem(c, items0, begin, l, k, available, j);
    }
    forall n | 0 <= n < |l.placed| ensures StepKept(c, items0, r, n) {
      TruncateKeepsStep(c, items0, begin, l, k, available, n);
    }
    TruncateSpaced(c, items0, begin, l, k, available);
    TruncateGreedy(c, items0, begin, l, k, available);
    TruncateFacts(l, k, available);
    hide FairTo, StepKept, ItemKept, Truncate, Spaced, Greedy;
  }

  // Violation and waiting

  lemma ViolationKept(c: Setting, items0: seq<Item>, begin: Instant, l: Layout, k: nat, policy: WindowPolicy)
    requires Proper(c, items0) && Kept(c, items0, begin, l) && c.window.Some? && k < |l.items|
    requires policy == SkipStep || policy == TruncateLast
    requires NoneShortened(items0, l.items)
    ensures Kept(c, items0, begin, ApplyWindowViolation(c, l, k, policy))
    ensures NoneShortened(items0, ApplyWindowViolation(c, l, k, policy).items)
  {
    var r := ApplyWindowViolation(c, l, k, policy);
    forall j | 0 <= j < |items0| ensures ItemKept(items0, r, j) {
      assert ItemKept(items0, l, j);
      hide CountOf, MinutesOf, EligibleAfter, Kept, ShortPlaced;
    }
    forall n | 0 <= n < |l.placed| ensures StepKept(c, items0, r, n) {
      assert StepKept(c, items0, l, n);
      hide CountOf, MinutesOf, EligibleAfter, InWindow, Kept;
    }
    hide FairTo, StepKept, ItemKept;
  }

  lemma WaitKept(c: Setting, items0: seq<Item>, begin: Instant, l: Layout)
    requires Proper(c, items0) && Kept(c, items0, begin, l) && AnyLeft(l.items)
    ensures Kept(c, items0, begin, l.(cursor := Max(l.cursor, NextEligible(l.items, |l.items|).value)))
  {
    var next := NextEligible(l.items, |l.items|).value;
    var r := l.(cursor := Max(l.cursor, next));
    forall j | 0 <= j < |items0| ensures ItemKept(items0, r, j) {
      assert ItemKept(items0, l, j);
    }
    forall n | 0 <= n < |l.placed| ensures StepKept(c, items0, r, n) {
      assert StepKept(c, items0, l, n);
    }
    hide FairTo, StepKept, ItemKept;
  }

  // ---------------------------------------------------------------------
  // The whole loop

  lemma RoundLaid(c: Setting, items0: seq<Item>, begin: Instant, skipped0: seq<SkippedZone>, l: Layout)
    requires Proper(c, items0) && Laid(c, items0, begin, skipped0, l) && !l.dropped && AnyLeft(l.items)
    ensures Laid(c, items0, begin, skipped0, Round(c, l))
  {
    if AnyReady(l.items, l.cursor) {
      PlaceNextLaid(c, items0, begin, skipped0, l);
    } else {
      WaitKept(c, items0, begin, l);
      hide Kept, NextEligible;
    }
  }

  lemma PlaceNextLaid(c: Setting, items0: seq<Item>, begin: Instant, skipped0: seq<SkippedZone>, l: Layout)
    requires Proper(c, items0) && Laid(c, items0, begin, skipped0, l) && !l.dropped && AnyReady(l.items, l.cursor)
    ensures Laid(c, items0, begin, skipped0, PlaceNext(c, l, Choose(l.items, l.cursor)))
  {
    var k := Choose(l.items, l.cursor);
    if c.window.None? {
      EmitKept(c, items0, begin, l);
      EmitSettles(c, items0, l.items, l, k);
    } else {
      var w, local := c.window.value, LocalTime(c.offset, l.cursor);
      var available := MinutesUntilWindowEnd(w, local);
      if WindowContains(w, local) && (w.policy != TruncateLast || l.items[k].cycles[0] <= available) {
        EmitKept(c, items0, begin, l);
        EmitSettles(c, items0, l.items, l, k);
      } else if WindowContains(w, local) && available >= 1 {
        TruncatedKept(c, items0, begin, l, available);
        EmitSettles(c, items0, l.items, Truncate(l, k, available), k);
      } else if w.policy == SkipStep || w.policy == TruncateLast {
        ViolationKept(c, items0, begin, l, k, w.policy);
      }
    }
    hide Kept, Choose, MinutesUntilWindowEnd, WindowContains, LocalTime, Recount, AnyReady;
  }

  lemma TruncatedKept(c: Setting, items0: seq<Item>, begin: Instant, l: Layout, available: nat)
    requires Proper(c, items0) && Kept(c, items0, begin, l) && AnyReady(l.items, l.cursor)
    requires c.window.Some? && c.window.value.policy == TruncateLast
    requires var k := Choose(l.items, l.cursor);
      var local := LocalTime(c.offset, l.cursor);
      && WindowContains(c.window.value, local)
      && 1 <= available < l.items[k].cycles[0]
      && available == MinutesUntilWindowEnd(c.window.value, local)
    ensures var k := Choose(l.items, l.cursor);
      Kept(c, items0, begin, Emit(c, Truncate(l, k, available), k))
  {
    var k := Choose(l.items, l.cursor);
    var t := Truncate(l, k, available);
    TruncateKept(c, items0, begin, l, k, available);
    ChooseSame(l.items, t.items, l.cursor, k, available, l.items[k].emitted + 1);
    assert InWindow(c, StepFor(t.items[k], t.cursor)) by {
      hide MinutesUntilWindowEnd, WindowContains, LocalTime, Kept, Recount;
    }
    assert t.cursor == l.cursor;
    EmitKept(c, items0, begin, t);
  }

  /** Shortening the chosen item does not change the choice. */
  lemma ChooseSame(a: seq<Item>, b: seq<Item>, t: Instant, k: nat, available: nat, count: nat)
    requires k < |a| && Left(a[k])
    requires exists cut :: b == a[k := a[k].(cycles := [available], cycleCount := count, cut := cut)]
    ensures AnyReady(b, t) <==> AnyReady(a, t)
    ensures AnyReady(a, t) ==> Choose(b, t) == Choose(a, t)
  {
    LeastSame(a, b, t, |a|);
    assert forall j :: 0 <= j < |a| ==> Ready(a[j], t) == Ready(b[j], t);
  }

  lemma {:induction false} LeastSame(a: seq<Item>, b: seq<Item>, t: Instant, n: nat)
    requires |a| == |b| && n <= |a|
    requires forall j :: 0 <= j < |a| ==> Ready(a[j], t) == Ready(b[j], t) && SameItem(a[j], b[j])
    ensures LeastReady(a, t, n) == LeastReady(b, t, n)
  {
    if n > 0 { LeastSame(a, b, t, n - 1); }
  }

  lemma {:induction false} LayOutLaid(
    c: Setting, items0: seq<Item>, begin: Instant, skipped0: seq<SkippedZone>, l: Layout)
    requires Proper(c, items0) && Laid(c, items0, begin, skipped0, l)
    ensures Laid(c, items0, begin, skipped0, LayOut(c, l)) && !AnyLeft(LayOut(c, l).items)
    decreases CyclesLeft(l.items), if AnyReady(l.items, l.cursor) then 0 else 1
  {
    if AnyLeft(l.items) && !l.dropped {
      RoundLaid(c, items0, begin, skipped0, l);
      RoundProgress(c, l);
      LayOutLaid(c, items0, begin, skipped0, Round(c, l));
    }
    hide Kept, Round, AnyReady;
  }

  function Begin(items: seq<Item>, skipped: seq<SkippedZone>, begin: Instant): Layout {
    Layout(items, [], skipped, false, begin, [])
  }

  function Finished(c: Setting, items: seq<Item>, skipped: seq<SkippedZone>, begin: Instant): Layout {
    LayOut(c, Begin(items, skipped, begin))
  }

  lemma BeginIsLaid(c: Setting, items: seq<Item>, skipped: seq<SkippedZone>, begin: Instant)
    requires c.gap >= 0 && FreshItems(items)
    ensures Proper(c, items) && Laid(c, items, begin, skipped, Begin(items, skipped, begin))
  {
    var l0 := Begin(items, skipped, begin);
    forall k | 0 <= k < |items| ensures ItemKept(items, l0, k) {
      assert FreshItem(items[k]);
      assert items[k].cycles == items[k].cycles[0..];
    }
    assert forall k :: 0 <= k < |items| ==> FreshItem(items[k]);
    assert Laid(c, items, begin, skipped, l0) by { hide ItemKept; }
  }

  lemma LayoutIsLaid(c: Setting, items: seq<Item>, skipped: seq<SkippedZone>, begin: Instant)
    requires c.gap >= 0 && FreshItems(items)
    ensures var l := Finished(c, items, skipped, begin);
      Laid(c, items, begin, skipped, l) && forall k :: 0 <= k < |items| ==> !Left(l.items[k])
  {
    BeginIsLaid(c, items, skipped, begin);
    LayOutLaid(c, items, begin, skipped, Begin(items, skipped, begin));
  }

  // ---------------------------------------------------------------------
  // What a finished layout promises

  lemma {:induction false} CountedIsPlaced(placed: seq<Placed>, n: nat, k: nat)
    requires n <= |placed| && CountOf(placed, n, k) > 0
    ensures exists i :: 0 <= i < n && placed[i].owner == k
  {
    if placed[n - 1].owner != k { CountedIsPlaced(placed, n - 1, k); }
  }

  /** Emitted minutes and minutes cut by the window make up the total; nothing is cut
      without a window, and a zone without any step is recorded as skipped. */
  lemma {:induction false} MinutesConserved(
    c: Setting, items: seq<Item>, skipped: seq<SkippedZone>, begin: Instant, k: nat)
    requires c.gap >= 0 && FreshItems(items) && k < |items|
    ensures var l := Finished(c, items, skipped, begin);
      |l.items| == |items| && (!l.dropped ==>
        && MinutesOf(l.placed, |l.placed|, k) + l.items[k].cut == items[k].total
        && l.items[k].cut >= 0
        && (c.window.None? ==> l.items[k].cut == 0)
        && ((exists i :: 0 <= i < |l.placed| && l.placed[i].owner == k)
            || SkippedZone(items[k].zone, OutOfWindow) in l.skipped))
  {
    LayoutIsLaid(c, items, skipped, begin);
    var l := Finished(c, items, skipped, begin);
    if !l.dropped {
      assert ItemKept(items, l, k);
      assert !Left(l.items[k]);
      if l.items[k].emitted > 0 { CountedIsPlaced(l.placed, |l.placed|, k); }
      hide LayOut, CountOf, MinutesOf, EligibleAfter, StepKept, Spaced, Greedy;
    }
  }

  /** Each step is the next cycle of its zone: it waters the allocated minutes (or fewer,
      and is then the last), and starts neither before the request nor before the soak. */
  lemma {:induction false} StepsAreCycles(
    c: Setting, items: seq<Item>, skipped: seq<SkippedZone>, begin: Instant, n: nat)
    requires c.gap >= 0 && FreshItems(items) && n < |Finished(c, items, skipped, begin).placed|
    ensures var l := Finished(c, items, skipped, begin);
      var (k, step) := (l.placed[n].owner, l.placed[n].step);
      && k < |items| == |l.items|
      && step.zone == items[k].zone && step.requestedStart == items[k].requested
      && step.plannedEnd == step.plannedStart + 60 * step.duration
      && step.plannedStart >= EligibleAfter(items, l.placed, n, k)
      && step.cycleIndex == CountOf(l.placed, n, k) + 1 <= |items[k].cycles|
      && (step.soakBefore <==> step.cycleIndex > 1 && items[k].soak > 0)
      && 1 <= step.duration <= items[k].cycles[step.cycleIndex - 1]
      && (step.duration < items[k].cycles[step.cycleIndex - 1] ==>
            step.cycleIndex == CountOf(l.placed, |l.placed|, k))
  {
    LayoutIsLaid(c, items, skipped, begin);
    var l := Finished(c, items, skipped, begin);
    assert StepKept(c, items, l, n);
    assert ItemKept(items, l, l.placed[n].owner);
    hide LayOut, CountOf, MinutesOf, EligibleAfter, Spaced, Greedy, InWindow;
  }

  /** The steps of a zone are numbered 1..k of k exactly when all its cycles are placed or
      one of them is cut short. Otherwise a cycle met a closed window: the zone is recorded
      as skipped, and its steps keep the count of the cycles allocated. */
  lemma NumberedConsistently(c: Setting, items: seq<Item>, skipped: seq<SkippedZone>, begin: Instant, n: nat)
    requires c.gap >= 0 && FreshItems(items) && DistinctRequests(items)
    requires n < |Finished(c, items, skipped, begin).placed|
    ensures var l := Finished(c, items, skipped, begin);
      var (k, count) := (l.placed[n].owner, l.placed[n].step.cycleCount);
      && k < |items|
      && var (most, placed) := (|items[k].cycles|, CountOf(l.placed, |l.placed|, k));
         && (count == placed <==> placed == most || ShortPlaced(items[k], l.placed, k))
         && (count != placed ==> placed < most == count && SkipRecorded(l.skipped, items[k].zone))
  {
    LayoutIsLaid(c, items, skipped, begin);
    var l := Finished(c, items, skipped, begin);
    var k := l.placed[n].owner;
    assert StepKept(c, items, l, n);
    assert ItemKept(items, l, k);
    if ShortPlaced(items[k], l.placed, k) {
      var m :| 0 <= m < |l.placed| && l.placed[m].owner == k && ShortStep(items[k], l.placed[m].step);
      assert StepKept(c, items, l, m);
    }
    hide LayOut, CountOf, MinutesOf, EligibleAfter, Spaced, Greedy, InWindow, DistinctRequests;
  }

  /** Once a step is cut short it is the last of its zone, and every step of the zone, also
      those placed before it, carries the number of steps there are. */
  lemma {:induction false} TruncatedIsRenumbered(
    c: Setting, items: seq<Item>, skipped: seq<SkippedZone>, begin: Instant, n: nat, m: nat)
    requires c.gap >= 0 && FreshItems(items) && DistinctRequests(items)
    requires var p := Finished(c, items, skipped, begin).placed;
      n < |p| && m < |p| && p[m].owner == p[n].owner < |items| && ShortStep(items[p[n].owner], p[n].step)
    ensures var p := Finished(c, items, skipped, begin).placed;
      && p[m].step.cycleCount == CountOf(p, |p|, p[n].owner) == p[n].step.cycleIndex
      && p[m].step.cycleIndex == CountOf(p, m, p[n].owner) + 1
  {
    LayoutIsLaid(c, items, skipped, begin);
    var l := Finished(c, items, skipped, begin);
    assert StepKept(c, items, l, n) && StepKept(c, items, l, m);
    assert ItemKept(items, l, l.placed[n].owner);
    hide LayOut, CountOf, MinutesOf, EligibleAfter, Spaced, Greedy, InWindow, DistinctRequests;
  }

  /** Greedy: when the n-th step was placed, every item that was placed then or later either
      could not start before it, or could but has no smaller sort key; and the controller
      was never left idle while such an item could start. */
  lemma {:induction false} NeverIdlesAndLeastFirst(
    c: Setting, items: seq<Item>, skipped: seq<SkippedZone>, begin: Instant, n: nat, m: nat)
    requires c.gap >= 0 && FreshItems(items) && n <= m < |Finished(c, items, skipped, begin).placed|
    ensures var placed := Finished(c, items, skipped, begin).placed;
      var (chosen, rival) := (placed[n].owner, placed[m].owner);
      && chosen < |items| && rival < |items|
      && var (start, eligible) := (placed[n].step.plannedStart, EligibleAfter(items, placed, n, rival));
         && FreeFor(c.gap, begin, placed, n) <= start <= Max(FreeFor(c.gap, begin, placed, n), eligible)
         && (eligible <= start ==> KeyLeq(items[chosen], items[rival]))
  {
    LayoutIsLaid(c, items, skipped, begin);
    var l := Finished(c, items, skipped, begin);
    assert StepKept(c, items, l, n) && StepKept(c, items, l, m);
    assert FairTo(c, items, begin, l.placed, n, l.placed[m].owner);
    hide LayOut, CountOf, MinutesOf, EligibleAfter, StepKept, ItemKept, InWindow;
  }

  /** Only with distinct requests: a zone listed twice at one offset, whose second listing
      is cut short, ends with a step numbered 2 of 1. */
  lemma RepeatedRequestMisnumbers(c: Setting, first: Item, second: Item)
    requires c.gap == 0 && c.window == Some(Window(0, 180, TruncateLast)) && forall t :: c.offset(t) == 0
    requires first == Item(c.occurrence, first.zone, 0, 0, 2, [1, 1], 2, 0, 0, 0, 0)
    requires second == Item(c.occurrence, first.zone, 1, 0, 2, [2], 1, 0, 0, 0, 0)
    ensures FreshItems([first, second]) && !DistinctRequests([first, second])
    ensures var placed := Finished(c, [first, second], [], 0).placed;
      |placed| == 3 && placed[1].step.cycleIndex == 2 && placed[1].step.cycleCount == 1
  {
    RepeatedItems([first, second]);
    var l0 := Begin([first, second], [], 0);
    hide LayOut, FreshItems, DistinctRequests, AnyReady, AnyLeft, Emit;
    RepeatedFits(c, l0);
    var l1 := RepeatedEmit(c, l0);
    assert l1.items[1] == second;
    RepeatedFits(c, l1);
    var l2 := RepeatedEmit(c, l1);
    assert l2.items[1] == second;
    RepeatedEnd(c, l2, first.zone);
  }

  lemma RepeatedEmit(c: Setting, l: Layout) returns (r: Layout)
    requires c.gap == 0 && |l.items| == 2 && Left(l.items[0]) && l.items[0].cycles[0] == 1 && l.items[0].soak == 0
    ensures r == Emit(c, l, 0)
    ensures r.cursor == l.cursor + 60 && r.dropped == l.dropped && |r.items| == 2 && r.items[1] == l.items[1]
    ensures var it := l.items[0];
      r.items[0] == it.(cycles := it.cycles[1..], emitted := it.emitted + 1, eligible := r.cursor)
    ensures |r.placed| == |l.placed| + 1 && r.placed[|l.placed|].step == StepFor(l.items[0], l.cursor)
  {
    r := Emit(c, l, 0);
  }

  /** The first item's cycle of one minute fits before the end of the window. */
  lemma {:induction false} RepeatedFits(c: Setting, l: Layout)
    requires c.window == Some(Window(0, 180, TruncateLast)) && c.offset(l.cursor) == 0 && 0 <= l.cursor <= 60
    requires |l.items| == 2 && Ready(l.items[0], l.cursor) && l.items[0].cycles[0] == 1 && !l.dropped
    requires !KeyLess(l.items[1], l.items[0])
    ensures LayOut(c, l) == LayOut(c, Emit(c, l, 0))
  {
    var r := RepeatedRound(c, l, 0);
    hide *;
    RepeatedPlace(c, l);
  }

  lemma RepeatedPlace(c: Setting, l: Layout)
    requires c.window == Some(Window(0, 180, TruncateLast)) && c.offset(l.cursor) == 0 && 0 <= l.cursor <= 60
    requires |l.items| == 2 && Left(l.items[0]) && l.items[0].cycles[0] == 1
    ensures PlaceNext(c, l, 0) == Emit(c, l, 0)
  {
    hide Emit, Truncate, ApplyWindowViolation;
    assert LocalTime(c.offset, l.cursor) == l.cursor;
  }

  lemma RepeatedItems(items: seq<Item>)
    requires |items| == 2 && items[0].zone == items[1].zone && items[0].requested == items[1].requested
    requires items[0].cycles == [1, 1] && items[1].cycles == [2]
    requires forall k :: 0 <= k < 2 ==>
      && items[k].total == 2 && items[k].cycleCount == |items[k].cycles| && items[k].emitted == 0
      && items[k].cut == 0 && items[k].eligible == items[k].requested && items[k].soak >= 0
    ensures FreshItems(items) && !DistinctRequests(items)
  {
    assert Minutes([1, 1]) == 1 + Minutes([1, 1][1..]);
    assert FreshItem(items[0]) && FreshItem(items[1]);
  }

  lemma {:induction false} RepeatedEnd(c: Setting, l: Layout, zone: ZoneId)
    requires c.window == Some(Window(0, 180, TruncateLast)) && c.offset(120) == 0
    requires |l.items| == 2 && !Left(l.items[0]) && l.items[1].cycles == [2] && l.items[1].eligible <= l.cursor == 120
    requires l.items[1].zone == zone && l.items[1].requested == 0 && l.items[1].emitted == 0 && !l.dropped
    requires |l.placed| == 2 && l.placed[1].step.zone == zone && l.placed[1].step.requestedStart == 0
    ensures var r := LayOut(c, l);
      && |r.placed| == 3 && r.placed[1].step.cycleIndex == l.placed[1].step.cycleIndex
      && r.placed[1].step.cycleCount == 1
  {
    var r := RepeatedRound(c, l, 1);
    assert r == Emit(c, Truncate(l, 1, 1), 1) by {
      assert LocalTime(c.offset, 120) == 120;
      hide LayOut, Emit, Truncate;
    }
    hide PlaceNext;
    RepeatedTruncated(c, l, zone);
  }

  lemma {:induction false} RepeatedTruncated(c: Setting, l: Layout, zone: ZoneId)
    requires |l.items| == 2 && !Left(l.items[0]) && l.items[1].cycles == [2]
    requires l.items[1].zone == zone && l.items[1].requested == 0 && l.items[1].emitted == 0
    requires |l.placed| == 2 && l.placed[1].step.zone == zone && l.placed[1].step.requestedStart == 0
    ensures var r := Emit(c, Truncate(l, 1, 1), 1);
      && LayOut(c, r) == r && |r.placed| == 3 && r.placed[1].step.cycleIndex == l.placed[1].step.cycleIndex
      && r.placed[1].step.cycleCount == 1
  {
    assert !AnyLeft(Emit(c, Truncate(l, 1, 1), 1).items);
  }

  lemma RepeatedRound(c: Setting, l: Layout, k: nat) returns (r: Layout)
    requires |l.items| == 2 && k < 2 && Left(l.items[k]) && l.items[k].eligible <= l.cursor && !l.dropped
    requires Ready(l.items[0], l.cursor) ==>
      (k == 0 <==> !KeyLess(l.items[1], l.items[0]) || !Ready(l.items[1], l.cursor))
    requires !Ready(l.items[0], l.cursor) ==> k == 1
    ensures LayOut(c, l) == LayOut(c, r) && r == PlaceNext(c, l, k)
  {
    r := PlaceNext(c, l, k);
    assert Ready(l.items[k], l.cursor);
    assert LeastReady(l.items, l.cursor, 2) == Some(k) by {
      assert LeastReady(l.items, l.cursor, 0) == None;
      assert LeastReady(l.items, l.cursor, 1) == if Ready(l.items[0], l.cursor) then Some(0) else None;
    }
    assert Round(c, l) == r;
  }

  // ---------------------------------------------------------------------
  // Greedy, with respect to every item that still has cycles

  /** The loop that starts in layout l comes by layout b. */
  ghost predicate Passes(c: Setting, l: Layout, b: Layout)
    decreases CyclesLeft(l.items), if AnyReady(l.items, l.cursor) then 0 else 1
  {
    b == l || (AnyLeft(l.items) && !l.dropped && (RoundProgress(c, l); Passes(c, Round(c, l), b)))
  }

  /** Layout b is the one in which the n-th step was chosen: it starts at b's cursor, its item
      is the first with the least key of the ready ones, and no item with cycles left in b is kept waiting. */
  ghost predicate ChosenIn(
    c: Setting, items0: seq<Item>, begin: Instant, b: Layout, placed: seq<Placed>, n: nat)
    requires n < |placed|
  {
    var (k, t) := (placed[n].owner, b.cursor);
    && |b.placed| == n && |b.items| == |items0| && k < |b.items|
    && placed[n].step.plannedStart == t && Ready(b.items[k], t)
    && (forall j :: 0 <= j < |b.items| && Ready(b.items[j], t) ==> KeyLeq(b.items[k], b.items[j]))
    && (forall j :: 0 <= j < k && Ready(b.items[j], t) ==> !KeyLeq(b.items[j], b.items[k]))
    && (forall j :: 0 <= j < |b.items| && Left(b.items[j]) ==>
          b.items[j].eligible == EligibleAfter(items0, placed, n, j) && FairTo(c, items0, begin, placed, n, j))
  }

  /** A round leaves the steps placed so far, except for their counts. */
  lemma RoundGrows(c: Setting, l: Layout)
    requires AnyLeft(l.items) && !Round(c, l).dropped
    ensures var r := Round(c, l);
      && |l.placed| <= |r.placed| <= |l.placed| + 1
      && (forall i :: 0 <= i < |l.placed| ==> SameButCount(r.placed[i], l.placed[i]))
      && (|r.placed| > |l.placed| ==>
            && AnyReady(l.items, l.cursor)
            && r.placed[|l.placed|].owner == Choose(l.items, l.cursor)
            && r.placed[|l.placed|].step.plannedStart == l.cursor)
  {
    hide Choose, WindowContains, MinutesUntilWindowEnd, LocalTime;
  }

  lemma {:induction false} DroppedStays(c: Setting, l: Layout)
    requires l.dropped
    ensures LayOut(c, l).dropped
  {}

  lemma {:induction false} LayOutGrows(c: Setting, l: Layout)
    requires !LayOut(c, l).dropped
    ensures var p := LayOut(c, l).placed;
      |l.placed| <= |p| && forall i :: 0 <= i < |l.placed| ==> SameButCount(p[i], l.placed[i])
    decreases CyclesLeft(l.items), if AnyReady(l.items, l.cursor) then 0 else 1
  {
    if l.dropped {
      DroppedStays(c, l);
    } else if AnyLeft(l.items) {
      var r := Round(c, l);
      if r.dropped { DroppedStays(c, r); }
      RoundGrows(c, l);
      RoundProgress(c, l);
      LayOutGrows(c, r);
      hide Round, AnyReady;
    }
  }

  /** When the n-th step is chosen, no item that has cycles left is kept waiting by it. */
  lemma FairWhenChosen(c: Setting, items0: seq<Item>, begin: Instant, l: Layout, placed: seq<Placed>)
    requires Kept(c, items0, begin, l) && AnyReady(l.items, l.cursor)
    requires |l.placed| < |placed| && forall i :: 0 <= i < |l.placed| ==> SameButCount(placed[i], l.placed[i])
    requires placed[|l.placed|].owner == Choose(l.items, l.cursor)
    requires placed[|l.placed|].step.plannedStart == l.cursor
    ensures ChosenIn(c, items0, begin, l, placed, |l.placed|)
  {
    var (k, n) := (Choose(l.items, l.cursor), |l.placed|);
    assert ItemKept(items0, l, k);
    forall j | 0 <= j < |l.items| && Left(l.items[j])
      ensures l.items[j].eligible == EligibleAfter(items0, placed, n, j) && FairTo(c, items0, begin, placed, n, j)
    {
      assert ItemKept(items0, l, j);
      FairReading(c, items0, begin, l, placed, j);
    }
    forall j | 0 <= j < |l.items| && Ready(l.items[j], l.cursor)
      ensures KeyLeq(l.items[k], l.items[j]) && (j < k ==> !KeyLeq(l.items[j], l.items[k]))
    {
      LeastReadyIsLeast(l.items, l.cursor, |l.items|, j);
    }
    hide FairTo, StepKept, ItemKept, Spaced, Greedy, EligibleAfter, KeyLess, KeyLeq;
  }

  lemma {:induction false} FairReading(
    c: Setting, items0: seq<Item>, begin: Instant, l: Layout, placed: seq<Placed>, j: nat)
    requires Kept(c, items0, begin, l) && AnyReady(l.items, l.cursor) && j < |l.items| && Left(l.items[j])
    requires |l.placed| < |placed| && forall i :: 0 <= i < |l.placed| ==> SameButCount(placed[i], l.placed[i])
    requires placed[|l.placed|].owner == Choose(l.items, l.cursor)
    requires placed[|l.placed|].step.plannedStart == l.cursor
    ensures l.items[j].eligible == EligibleAfter(items0, placed, |l.placed|, j)
    ensures FairTo(c, items0, begin, placed, |l.placed|, j)
  {
    var (k, n) := (Choose(l.items, l.cursor), |l.placed|);
    assert ItemKept(items0, l, k) && ItemKept(items0, l, j);
    SameReading(items0, placed, l.placed, n, j);
    if n > 0 { assert SameButCount(placed[n - 1], l.placed[n - 1]); }
    if l.items[j].eligible <= l.cursor { LeastReadyIsLeast(l.items, l.cursor, |l.items|, j); }
    hide StepKept, Spaced, EligibleAfter, Choose, MinutesOf, CountOf;
  }

  lemma {:induction false} StepWasChosen(
    c: Setting, items0: seq<Item>, begin: Instant, skipped0: seq<SkippedZone>, l: Layout, n: nat)
    requires Proper(c, items0) && Laid(c, items0, begin, skipped0, l)
    requires |l.placed| <= n < |LayOut(c, l).placed|
    ensures exists b :: Passes(c, l, b) && ChosenIn(c, items0, begin, b, LayOut(c, l).placed, n)
    decreases CyclesLeft(l.items), if AnyReady(l.items, l.cursor) then 0 else 1
  {
    LayOutLaid(c, items0, begin, skipped0, l);
    assert AnyLeft(l.items) && !l.dropped;
    var r := Round(c, l);
    RoundLaid(c, items0, begin, skipped0, l);
    LayOutLaid(c, items0, begin, skipped0, r);
    RoundProgress(c, l);
    if r.dropped { DroppedStays(c, r); }
    RoundGrows(c, l);
    if |r.placed| <= n {
      StepWasChosen(c, items0, begin, skipped0, r, n);
      var b :| Passes(c, r, b) && ChosenIn(c, items0, begin, b, LayOut(c, r).placed, n);
      assert Passes(c, l, b);
    } else {
      LayOutGrows(c, r);
      FairWhenChosen(c, items0, begin, l, LayOut(c, l).placed);
      assert Passes(c, l, l);
    }
    hide Kept, Round, AnyReady, ChosenIn;
  }

  /** Every step was the least-key choice among the items ready at its start, and did not
      keep any item waiting that had cycles left then, whether they were placed or given up
      to the window later. */
  lemma {:induction false} GreedyEveryRound(
    c: Setting, items: seq<Item>, skipped: seq<SkippedZone>, begin: Instant, n: nat)
    requires c.gap >= 0 && FreshItems(items) && n < |Finished(c, items, skipped, begin).placed|
    ensures exists b ::
      && Passes(c, Begin(items, skipped, begin), b)
      && ChosenIn(c, items, begin, b, Finished(c, items, skipped, begin).placed, n)
  {
    BeginIsLaid(c, items, skipped, begin);
    StepWasChosen(c, items, begin, skipped, Begin(items, skipped, begin), n);
  }

  // ---------------------------------------------------------------------
  // When the numbering is off

  /** The window has no room for the item's next cycle, not even for a minute of it. */
  predicate NoRoom(c: Setting, l: Layout, k: nat)
    requires k < |l.items| && Left(l.items[k])
  {
    c.window.Some? &&
    var w, local := c.window.value, LocalTime(c.offset, l.cursor);
    || !WindowContains(w, local)
    || (w.policy == TruncateLast && MinutesUntilWindowEnd(w, local) < 1)
  }

  /** The loop is about to give up the rest of an item of which it has placed a cycle. */
  predicate GivesUp(c: Setting, l: Layout, k: nat) {
    AnyReady(l.items, l.cursor) && Choose(l.items, l.cursor) == k && l.items[k].emitted > 0 && NoRoom(c, l, k)
  }

  predicate GivenUp(it: Item) { it.cycles == [] && 0 < it.emitted != it.cycleCount }

  lemma RoundGivesUp(c: Setting, items0: seq<Item>, begin: Instant, l: Layout, k: nat)
    requires Kept(c, items0, begin, l) && AnyLeft(l.items) && k < |l.items|
    ensures |Round(c, l).items| == |l.items|
    ensures GivenUp(Round(c, l).items[k]) <==> GivenUp(l.items[k]) || GivesUp(c, l, k)
  {
    if AnyReady(l.items, l.cursor) && Choose(l.items, l.cursor) == k {
      assert ItemKept(items0, l, k);
      hide Kept, CountOf, MinutesOf, EligibleAfter, WindowContains, LocalTime, MinutesUntilWindowEnd, Choose, Recount;
    } else {
      hide Kept, WindowContains, LocalTime, MinutesUntilWindowEnd, Choose, Recount, NextEligible;
    }
  }

  lemma {:induction false} PassesRound(c: Setting, l: Layout, b: Layout)
    requires AnyLeft(l.items) && !l.dropped
    ensures Passes(c, l, b) <==> b == l || Passes(c, Round(c, l), b)
  {}

  lemma {:induction false} GivenUpExactly(
    c: Setting, items0: seq<Item>, begin: Instant, skipped0: seq<SkippedZone>, l: Layout, k: nat)
    requires Proper(c, items0) && Laid(c, items0, begin, skipped0, l) && !LayOut(c, l).dropped && k < |l.items|
    ensures |LayOut(c, l).items| == |l.items|
    ensures GivenUp(LayOut(c, l).items[k]) <==>
      GivenUp(l.items[k]) || exists b :: Passes(c, l, b) && GivesUp(c, b, k)
    decreases CyclesLeft(l.items), if AnyReady(l.items, l.cursor) then 0 else 1
  {
    if l.dropped { DroppedStays(c, l); }
    if AnyLeft(l.items) {
      var r := Round(c, l);
      assert LayOut(c, l) == LayOut(c, r) by { hide Round; }
      RoundGivesUp(c, items0, begin, l, k);
      RoundLaid(c, items0, begin, skipped0, l);
      RoundProgress(c, l);
      hide Round, LayOut, Laid, AnyReady, GivesUp, GivenUp;
      GivenUpExactly(c, items0, begin, skipped0, r, k);
      forall b ensures Passes(c, l, b) <==> b == l || Passes(c, r, b) { PassesRound(c, l, b); }
      hide Passes;
      if GivesUp(c, l, k) { assert Passes(c, l, l) && GivesUp(c, l, k); }
      if b :| Passes(c, r, b) && GivesUp(c, b, k) { assert Passes(c, l, b) && GivesUp(c, b, k); }
    } else {
      assert forall b :: Passes(c, l, b) ==> b == l;
      assert !GivesUp(c, l, k);
    }
  }

  /** The steps of a zone are numbered other than 1..k of k exactly if the loop comes by a
      layout in which the zone is next, has had a cycle placed, and finds the window closed. */
  lemma {:induction false} NumberedUnlessGivenUp(
    c: Setting, items: seq<Item>, skipped: seq<SkippedZone>, begin: Instant, n: nat)
    requires c.gap >= 0 && FreshItems(items) && DistinctRequests(items)
    requires n < |Finished(c, items, skipped, begin).placed|
    ensures var l := Finished(c, items, skipped, begin);
      var (k, count) := (l.placed[n].owner, l.placed[n].step.cycleCount);
      count != CountOf(l.placed, |l.placed|, k) <==>
        exists b :: Passes(c, Begin(items, skipped, begin), b) && GivesUp(c, b, k)
  {
    var l, l0 := Finished(c, items, skipped, begin), Begin(items, skipped, begin);
    var k := l.placed[n].owner;
    LayoutIsLaid(c, items, skipped, begin);
    BeginIsLaid(c, items, skipped, begin);
    assert StepKept(c, items, l, n);
    assert ItemKept(items, l, k);
    assert FreshItem(items[k]) && !GivenUp(l0.items[k]);
    PlacedCounts(l.placed, n, k);
    hide LayOut, Kept, Laid, EligibleAfter, MinutesOf, InWindow, GivesUp, Passes, FreshItems, DistinctRequests, CountOf;
    GivenUpExactly(c, items, begin, skipped, l0, k);
  }

  lemma {:induction false} PlacedCounts(placed: seq<Placed>, n: nat, k: nat)
    requires n < |placed| && placed[n].owner == k
    ensures CountOf(placed, |placed|, k) > 0
  {
    CountGrows(placed, n + 1, |placed|, k);
  }

  lemma {:induction false} CountGrows(placed: seq<Placed>, m: nat, n: nat, k: nat)
    requires m <= n <= |placed|
    ensures CountOf(placed, m, k) <= CountOf(placed, n, k)
  {
    if m < n { CountGrows(placed, m, n - 1, k); }
  }

  /** Two cycles of a minute, and a window that closes after the first: one step is left, and
      it is numbered 1 of 2. */
  lemma ClosedWindowMisnumbers(c: Setting, it: Item)
    requires c.gap == 0 && c.window == Some(Window(0, 60, SkipStep)) && forall t :: c.offset(t) == 0
    requires it == Item(c.occurrence, it.zone, 0, 0, 2, [1, 1], 2, 0, 0, 0, 0)
    ensures FreshItems([it]) && DistinctRequests([it])
    ensures var placed := Finished(c, [it], [], 0).placed;
      |placed| == 1 && placed[0].step.cycleIndex == 1 && placed[0].step.cycleCount == 2
  {
    assert Minutes([1, 1]) == 1 + Minutes([1, 1][1..]);
    var l0 := Begin([it], [], 0);
    assert FreshItem(it);
    hide LayOut, FreshItems, DistinctRequests, Minutes, AnyLeft;
    SingleRound(c, l0);
    var l1 := Emit(c, l0, 0);
    assert PlaceNext(c, l0, 0) == l1;
    SingleRound(c, l1);
    var l2 := PlaceNext(c, l1, 0);
    assert !WindowContains(c.window.value, LocalTime(c.offset, 60));
    assert l2 == ApplyWindowViolation(c, l1, 0, SkipStep);
    SingleDone(c, l2);
  }

  lemma {:induction false} SingleRound(c: Setting, l: Layout)
    requires |l.items| == 1 && Ready(l.items[0], l.cursor) && !l.dropped
    ensures LayOut(c, l) == LayOut(c, PlaceNext(c, l, 0))
  {
    assert LeastReady(l.items, l.cursor, 1) == Some(0) by { assert LeastReady(l.items, l.cursor, 0) == None; }
    assert Round(c, l) == PlaceNext(c, l, 0);
    hide PlaceNext;
  }

  lemma {:induction false} SingleDone(c: Setting, l: Layout)
    requires |l.items| == 1 && !Left(l.items[0])
    ensures LayOut(c, l) == l
  {}

  predicate TimeOfDay(t: int) { 0 <= t < DAY }

  lemma WithinWindow(w: Window, local: int, after: int, duration: int)
    requires TimeOfDay(w.start) && TimeOfDay(w.end) && TimeOfDay(local)
    requires WindowContains(w, local) && duration <= MinutesUntilWindowEnd(w, local) && 0 <= after < 60 * duration
    ensures WindowContains(w, (local + after) % DAY)
  {
    var left := if w.end <= local then w.end + DAY - local else w.end - local;
    assert left == left / 60 * 60 + left % 60;
    var v := local + after;
    assert v < local + left;
    assert v % DAY == if v < DAY then v else v - DAY;
  }

  lemma LocalShift(offset: Instant -> int, utc: int, s: Instant, t: Instant)
    requires offset(s) == utc && offset(t) == utc
    ensures LocalTime(offset, t) == (LocalTime(offset, s) + (t - s)) % DAY
  {
    var a := s + utc;
    assert a == a / DAY * DAY + a % DAY;
    assert t + utc == a / DAY * DAY + (a % DAY + (t - s));
  }

  /** Going round the clock from the window's start, its end has not been reached yet. */
  predicate OpenAt(w: Window, local: int) {
    w.start == w.end || (local - w.start) % DAY < (w.end - w.start) % DAY
  }

  /** The comparisons of the code, with a case for windows past midnight, say just that. */
  lemma WindowIsArc(w: Window, local: int)
    requires TimeOfDay(w.start) && TimeOfDay(w.end) && TimeOfDay(local)
    ensures WindowContains(w, local) <==> OpenAt(w, local)
  {
    Wrapped(local - w.start);
    Wrapped(w.end - w.start);
  }

  lemma Wrapped(d: int)
    requires -DAY < d < DAY
    ensures d % DAY == if d < 0 then d + DAY else d
  {}

  /** Every step starts inside the local window; with a fixed UTC offset and truncation,
      every instant of it lies inside. */
  lemma StaysInWindow(c: Setting, items: seq<Item>, skipped: seq<SkippedZone>, begin: Instant, n: nat, t: Instant)
    requires c.gap >= 0 && FreshItems(items) && n < |Finished(c, items, skipped, begin).placed|
    requires c.window.Some? && TimeOfDay(c.window.value.start) && TimeOfDay(c.window.value.end)
    ensures var step := Finished(c, items, skipped, begin).placed[n].step;
      && OpenAt(c.window.value, (step.plannedStart + c.offset(step.plannedStart)) % DAY)
      && (c.window.value.policy == TruncateLast && step.plannedStart <= t < step.plannedEnd
          && c.offset(t) == c.offset(step.plannedStart) ==>
            OpenAt(c.window.value, (t + c.offset(t)) % DAY))
  {
    LayoutIsLaid(c, items, skipped, begin);
    var l := Finished(c, items, skipped, begin);
    var step := l.placed[n].step;
    assert StepKept(c, items, l, n);
    WindowIsArc(c.window.value, LocalTime(c.offset, step.plannedStart));
    WindowIsArc(c.window.value, LocalTime(c.offset, t));
    hide LayOut, CountOf, MinutesOf, EligibleAfter, Spaced, Greedy, ItemKept, WindowContains, MinutesUntilWindowEnd,
         OpenAt;
    if c.window.value.policy == TruncateLast && step.plannedStart <= t < step.plannedEnd
       && c.offset(t) == c.offset(step.plannedStart) {
      LocalShift(c.offset, c.offset(t), step.plannedStart, t);
      WithinWindow(c.window.value, LocalTime(c.offset, step.plannedStart), t - step.plannedStart, step.duration);
    }
  }

  /** Without a window, work starts as soon as the controller and one request allow. */
  lemma UnwindowedStartsAtOnce(c: Setting, items: seq<Item>, skipped: seq<SkippedZone>, begin: Instant, k: nat)
    requires c.gap >= 0 && FreshItems(items) && c.window.None?
    requires k < |items| && items[k].requested <= begin
    ensures var l := Finished(c, items, skipped, begin);
      l.placed != [] && !l.dropped && l.placed[0].step.plannedStart == begin
  {
    LayoutIsLaid(c, items, skipped, begin);
    var l := Finished(c, items, skipped, begin);
    assert ItemKept(items, l, k) && !Left(l.items[k]);
    assert FreshItem(items[k]);
    MinutesPositive(items[k].cycles);
    MinutesConserved(c, items, skipped, begin, k);
    assert MinutesOf(l.placed, |l.placed|, k) > 0;
    MinutesArePlaced(l.placed, |l.placed|, k);
    var m :| 0 <= m < |l.placed| && l.placed[m].owner == k;
    NeverIdlesAndLeastFirst(c, items, skipped, begin, 0, m);
    assert EligibleAfter(items, l.placed, 0, k) == items[k].requested;
  }

  lemma {:induction false} MinutesPositive(cycles: seq<nat>)
    requires cycles != [] && cycles[0] >= 1
    ensures Minutes(cycles) >= 1
  {}

  lemma {:induction false} MinutesArePlaced(placed: seq<Placed>, n: nat, k: nat)
    requires n <= |placed| && MinutesOf(placed, n, k) > 0
    ensures exists i :: 0 <= i < n && placed[i].owner == k
  {
    if placed[n - 1].owner != k { MinutesArePlaced(placed, n - 1, k); }
  }
}
