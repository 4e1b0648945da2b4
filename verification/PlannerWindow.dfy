/** The watering window: what it is, and that work is cut or given up only where it forces that. */
module PlannerWindow {
  import opened Domain
  import opened PlannerSpec
  import opened PlannerLayout

  // ---------------------------------------------------------------------
  // The window on the clock

  ghost predicate ProperWindow(c: Setting) {
    c.window.Some? && TimeOfDay(c.window.value.start) && TimeOfDay(c.window.value.end)
  }

  /** The clock next shows the window's end at `u`: not before, and at u exactly. */
  ghost predicate ClosesAt(c: Setting, t: Instant, u: Instant)
    requires c.window.Some?
  {
    && t < u && (u + c.offset(u)) % DAY == c.window.value.end
    && forall v :: t < v < u ==> (v + c.offset(v)) % DAY != c.window.value.end
  }

  /** The UTC offset does not change in a day from t on. */
  ghost predicate FixedOffset(c: Setting, t: Instant) {
    forall v :: t <= v <= t + DAY ==> c.offset(v) == c.offset(t)
  }

  /** The whole minutes until the window closes, and the instant at which it does. */
  lemma ClosesInMinutes(c: Setting, t: Instant) returns (u: Instant)
    requires ProperWindow(c) && FixedOffset(c, t)
    ensures ClosesAt(c, t, u)
    ensures var m := MinutesUntilWindowEnd(c.window.value, LocalTime(c.offset, t)); t + 60 * m <= u < t + 60 * m + 60
  {
    var (end, local) := (c.window.value.end, LocalTime(c.offset, t));
    var left := if end <= local then end + DAY - local else end - local;
    u := t + left;
    assert left == left / 60 * 60 + left % 60;
    forall v | t < v <= u ensures LocalTime(c.offset, v) == end <==> v == u {
      LocalShift(c.offset, c.offset(t), t, v);
      Around(local, v - t, end);
    }
  }

  lemma Around(local: int, s: int, end: int)
    requires TimeOfDay(local) && TimeOfDay(end) && 0 < s <= if end <= local then end + DAY - local else end - local
    ensures (local + s) % DAY == end <==> s == if end <= local then end + DAY - local else end - local
  {
    assert (local + s) % DAY == if local + s < DAY then local + s else local + s - DAY;
  }

  // ---------------------------------------------------------------------
  // A step is cut only where the window closes

  /** The step lasts for the whole minutes until the window closes. */
  predicate CutToWindow(c: Setting, step: RunStep) {
    && c.window.Some? && c.window.value.policy == TruncateLast
    && step.duration == MinutesUntilWindowEnd(c.window.value, LocalTime(c.offset, step.plannedStart))
  }

  predicate RightlyCut(c: Setting, items0: seq<Item>, p: Placed) {
    p.owner < |items0| && (ShortStep(items0[p.owner], p.step) ==> CutToWindow(c, p.step))
  }

  lemma SameCut(c: Setting, items0: seq<Item>, p: Placed, q: Placed)
    requires SameButCount(q, p) && RightlyCut(c, items0, p)
    ensures RightlyCut(c, items0, q)
  {}

  lemma RoundCut(c: Setting, items0: seq<Item>, l: Layout)
    requires AnyLeft(l.items) && |items0| == |l.items| && NoneShortened(items0, l.items)
    requires |Round(c, l).placed| > |l.placed|
    ensures RightlyCut(c, items0, Round(c, l).placed[|l.placed|])
  {
    hide Choose, WindowContains, MinutesUntilWindowEnd, LocalTime, NextEligible;
  }

  lemma {:induction false} StepCut(
    c: Setting, items0: seq<Item>, begin: Instant, skipped0: seq<SkippedZone>, l: Layout, n: nat)
    requires Proper(c, items0) && Laid(c, items0, begin, skipped0, l)
    requires |l.placed| <= n < |LayOut(c, l).placed|
    ensures RightlyCut(c, items0, LayOut(c, l).placed[n])
    decreases CyclesLeft(l.items), if AnyReady(l.items, l.cursor) then 0 else 1
  {
    hide Kept, Round, AnyReady, RightlyCut, SameButCount;
    LayOutLaid(c, items0, begin, skipped0, l);
    assert AnyLeft(l.items) && !l.dropped;
    var r := Round(c, l);
    RoundLaid(c, items0, begin, skipped0, l);
    LayOutLaid(c, items0, begin, skipped0, r);
    RoundProgress(c, l);
    if r.dropped { DroppedStays(c, r); }
    RoundGrows(c, l);
    if |r.placed| <= n {
      StepCut(c, items0, begin, skipped0, r, n);
    } else {
      RoundCut(c, items0, l);
      LayOutGrows(c, r);
      SameCut(c, items0, r.placed[n], LayOut(c, r).placed[n]);
    }
  }

  /** Under truncation every step ends before the window closes, and one that is shorter than
      its allocated cycle does so less than a minute before. No other step is ever cut. */
  lemma CutOnlyByWindow(c: Setting, items: seq<Item>, skipped: seq<SkippedZone>, begin: Instant, n: nat)
    returns (u: Instant)
    requires c.gap >= 0 && FreshItems(items) && n < |Finished(c, items, skipped, begin).placed|
    ensures var p := Finished(c, items, skipped, begin).placed[n];
      && p.owner < |items|
      && (ShortStep(items[p.owner], p.step) ==> c.window.Some? && c.window.value.policy == TruncateLast)
      && (ProperWindow(c) && c.window.value.policy == TruncateLast && FixedOffset(c, p.step.plannedStart) ==>
            && ClosesAt(c, p.step.plannedStart, u) && p.step.plannedEnd <= u
            && (ShortStep(items[p.owner], p.step) ==> u < p.step.plannedEnd + 60))
  {
    BeginIsLaid(c, items, skipped, begin);
    StepCut(c, items, begin, skipped, Begin(items, skipped, begin), n);
    LayoutIsLaid(c, items, skipped, begin);
    var l := Finished(c, items, skipped, begin);
    var step := l.placed[n].step;
    assert StepKept(c, items, l, n);
    u := 0;
    hide LayOut, Kept, FixedOffset, ClosesAt, LocalTime, MinutesUntilWindowEnd, WindowContains, EligibleAfter, CountOf;
    if ProperWindow(c) && c.window.value.policy == TruncateLast && FixedOffset(c, step.plannedStart) {
      u := ClosesInMinutes(c, step.plannedStart);
    }
  }

  // ---------------------------------------------------------------------
  // An item is given up only where the window has no room

  /** The loop is about to serve item k. */
  predicate Next(l: Layout, k: nat) { AnyReady(l.items, l.cursor) && Choose(l.items, l.cursor) == k }

  lemma {:induction false} PassesSame(c: Setting, l: Layout, b: Layout)
    requires Passes(c, l, b)
    ensures LayOut(c, l) == LayOut(c, b)
    decreases CyclesLeft(l.items), if AnyReady(l.items, l.cursor) then 0 else 1
  {
    if b != l {
      RoundProgress(c, l);
      PassesSame(c, Round(c, l), b);
      hide Round, AnyReady;
    }
  }

  /** A served item is finished, or cut short, unless the window had no room for it. */
  lemma RoundServes(c: Setting, items0: seq<Item>, begin: Instant, l: Layout, k: nat)
    requires Kept(c, items0, begin, l) && NoneShortened(items0, l.items) && AnyLeft(l.items)
    requires k < |l.items| && Left(l.items[k]) && |Round(c, l).items| == |l.items| && !Left(Round(c, l).items[k])
    requires !(Next(l, k) && NoRoom(c, l, k))
    ensures var r := Round(c, l);
      r.items[k].emitted == |items0[k].cycles| || ShortPlaced(items0[k], r.placed, k)
  {
    assert Next(l, k) by { hide WindowContains, MinutesUntilWindowEnd, LocalTime, Choose, Recount, NextEligible, Kept; }
    assert ItemKept(items0, l, k);
    var r := Round(c, l);
    hide WindowContains, MinutesUntilWindowEnd, LocalTime, Choose, Kept, CountOf, MinutesOf, EligibleAfter, ItemKept;
    if r.items[k].emitted != |items0[k].cycles| {
      assert r.placed[|l.placed|].owner == k && ShortStep(items0[k], r.placed[|l.placed|].step);
    }
  }

  lemma ShortStays(it: Item, p: seq<Placed>, q: seq<Placed>, k: nat)
    requires |p| <= |q| && forall i :: 0 <= i < |p| ==> SameButCount(q[i], p[i])
    requires ShortPlaced(it, p, k)
    ensures ShortPlaced(it, q, k)
  {
    var n :| 0 <= n < |p| && p[n].owner == k && ShortStep(it, p[n].step);
    assert SameButCount(q[n], p[n]);
  }

  lemma {:induction false} CountStays(items: seq<Item>, p: seq<Placed>, q: seq<Placed>, k: nat)
    requires |p| <= |q| && k < |items| && forall i :: 0 <= i < |p| ==> SameButCount(q[i], p[i])
    ensures CountOf(p, |p|, k) <= CountOf(q, |q|, k)
  {
    SameReading(items, p, q, |p|, k);
    CountGrows(q, |p|, |q|, k);
  }

  /** What an item that has cycles left ends with. */
  ghost predicate Abandoned(items0: seq<Item>, final: Layout, k: nat)
    requires k < |items0|
  {
    CountOf(final.placed, |final.placed|, k) < |items0[k].cycles| && !ShortPlaced(items0[k], final.placed, k)
  }

  lemma {:induction false} AbandonedAt(
    c: Setting, items0: seq<Item>, begin: Instant, skipped0: seq<SkippedZone>, l: Layout, k: nat)
    requires Proper(c, items0) && Laid(c, items0, begin, skipped0, l) && !LayOut(c, l).dropped
    requires k < |l.items| && Left(l.items[k]) && Abandoned(items0, LayOut(c, l), k)
    ensures exists b :: Passes(c, l, b) && Next(b, k) && k < |b.items| && Left(b.items[k]) && NoRoom(c, b, k)
    decreases CyclesLeft(l.items), if AnyReady(l.items, l.cursor) then 0 else 1
  {
    if l.dropped { DroppedStays(c, l); }
    var r := Round(c, l);
    assert LayOut(c, l) == LayOut(c, r) by { hide Round; }
    RoundLaid(c, items0, begin, skipped0, l);
    RoundProgress(c, l);
    if r.dropped { DroppedStays(c, r); }
    if Next(l, k) && NoRoom(c, l, k) {
      assert Passes(c, l, l);
    } else if Left(r.items[k]) {
      hide Round, LayOut, Laid, AnyReady, Next, NoRoom, Abandoned;
      AbandonedAt(c, items0, begin, skipped0, r, k);
      var b :| Passes(c, r, b) && Next(b, k) && k < |b.items| && Left(b.items[k]) && NoRoom(c, b, k);
      PassesRound(c, l, b);
    } else {
      RoundServes(c, items0, begin, l, k);
      LayOutGrows(c, r);
      assert ItemKept(items0, r, k);
      hide Round, LayOut, Kept, CountOf, ShortPlaced, MinutesOf, EligibleAfter;
      CountStays(items0, r.placed, LayOut(c, r).placed, k);
      if ShortPlaced(items0[k], r.placed, k) { ShortStays(items0[k], r.placed, LayOut(c, r).placed, k); }
      assert false;
    }
  }

  /** Item k is served next at the cursor: it may start, and no item that may has a smaller key. */
  ghost predicate ServedNext(l: Layout, k: nat) {
    && k < |l.items| && Ready(l.items[k], l.cursor)
    && forall j :: 0 <= j < |l.items| && Ready(l.items[j], l.cursor) ==> KeyLeq(l.items[k], l.items[j])
  }

  lemma NextIsServed(l: Layout, k: nat)
    requires Next(l, k)
    ensures ServedNext(l, k)
  {
    forall j | 0 <= j < |l.items| && Ready(l.items[j], l.cursor) ensures KeyLeq(l.items[k], l.items[j]) {
      LeastReadyIsLeast(l.items, l.cursor, |l.items|, j);
    }
    hide KeyLeq;
  }

  /** The window is closed at t or, where steps are truncated, closes within the minute. */
  ghost predicate NoRoomAt(c: Setting, t: Instant) {
    && c.window.Some?
    && (|| !OpenAt(c.window.value, (t + c.offset(t)) % DAY)
        || (c.window.value.policy == TruncateLast && exists u :: ClosesAt(c, t, u) && u < t + 60))
  }

  lemma NoRoomMeans(c: Setting, l: Layout, k: nat)
    requires ProperWindow(c) && FixedOffset(c, l.cursor) && k < |l.items| && Left(l.items[k]) && NoRoom(c, l, k)
    ensures NoRoomAt(c, l.cursor)
  {
    WindowIsArc(c.window.value, LocalTime(c.offset, l.cursor));
    var u := ClosesInMinutes(c, l.cursor);
    hide FixedOffset, ClosesAt, WindowContains, OpenAt, LocalTime, MinutesUntilWindowEnd;
  }

  /** With a fixed UTC offset: an item some of whose cycles are not placed, though none of
      them was cut short, was served at an instant at which the window had no room. */
  lemma GivenUpOnlyByWindow(c: Setting, items: seq<Item>, skipped: seq<SkippedZone>, begin: Instant, k: nat)
    requires c.gap >= 0 && FreshItems(items) && k < |items|
    requires !Finished(c, items, skipped, begin).dropped && Abandoned(items, Finished(c, items, skipped, begin), k)
    requires c.window.Some? ==> ProperWindow(c) && forall t :: FixedOffset(c, t)
    ensures exists b ::
      Passes(c, Begin(items, skipped, begin), b) && ServedNext(b, k) && NoRoomAt(c, b.cursor)
  {
    var l0 := Begin(items, skipped, begin);
    BeginIsLaid(c, items, skipped, begin);
    assert FreshItem(items[k]);
    hide Abandoned, Laid, Passes, LayOut, NoRoom, Next, FreshItems, ServedNext, NoRoomAt, FixedOffset;
    AbandonedAt(c, items, begin, skipped, l0, k);
    var b :| Passes(c, l0, b) && Next(b, k) && k < |b.items| && Left(b.items[k]) && NoRoom(c, b, k);
    NextIsServed(b, k);
    assert c.window.Some? by { NoRoomNeedsWindow(c, b, k); }
    NoRoomMeans(c, b, k);
  }

  lemma NoRoomNeedsWindow(c: Setting, l: Layout, k: nat)
    requires k < |l.items| && Left(l.items[k]) && NoRoom(c, l, k)
    ensures c.window.Some?
  {}

  // ---------------------------------------------------------------------
  // An occurrence is dropped only where an item meets the closed window

  predicate DropsOccurrence(c: Setting) {
    c.window.Some? && c.window.value.policy in {DeferOccurrence, RequireIntervention}
  }

  lemma RoundDrops(c: Setting, l: Layout)
    requires AnyLeft(l.items) && !l.dropped
    ensures Round(c, l).dropped <==>
      DropsOccurrence(c) && AnyReady(l.items, l.cursor)
      && !WindowContains(c.window.value, LocalTime(c.offset, l.cursor))
  {
    hide Choose, WindowContains, MinutesUntilWindowEnd, LocalTime, Recount, NextEligible;
  }

  /** Some item is served while the window is closed. */
  ghost predicate MeetsClosed(c: Setting, l: Layout)
    requires c.window.Some?
  {
    AnyReady(l.items, l.cursor) && !WindowContains(c.window.value, LocalTime(c.offset, l.cursor))
  }

  lemma {:induction false} DroppedAt(c: Setting, l: Layout)
    requires !l.dropped
    ensures LayOut(c, l).dropped <==>
      DropsOccurrence(c) && exists b :: Passes(c, l, b) && !b.dropped && MeetsClosed(c, b)
    decreases CyclesLeft(l.items), if AnyReady(l.items, l.cursor) then 0 else 1
  {
    if AnyLeft(l.items) {
      var r := Round(c, l);
      assert LayOut(c, l) == LayOut(c, r) by { hide Round; }
      RoundDrops(c, l);
      RoundProgress(c, l);
      forall b ensures Passes(c, l, b) <==> b == l || Passes(c, r, b) { PassesRound(c, l, b); }
      hide Round, LayOut, AnyReady, WindowContains, LocalTime;
      if r.dropped {
        DroppedStays(c, r);
        assert Passes(c, l, l) && MeetsClosed(c, l);
      } else {
        DroppedAt(c, r);
        if DropsOccurrence(c) && MeetsClosed(c, l) { assert false; }
      }
    } else {
      hide WindowContains, LocalTime;
      assert forall b :: Passes(c, l, b) ==> b == l;
      assert forall b :: b == l && c.window.Some? ==> !MeetsClosed(c, b);
    }
  }

  /** One conflict more: the zone of one of the items met the closed window. */
  predicate OneConflict(c: Setting, items: seq<Item>, before: seq<Conflict>, after: seq<Conflict>) {
    exists k ::
      0 <= k < |items| && after == before + [Conflict(c.occurrence, c.program, Some(items[k].zone), OutOfWindow)]
  }

  /** Dropping is reported once, for the zone that met the closed window. */
  lemma {:induction false} DropReported(c: Setting, l: Layout)
    requires !l.dropped && LayOut(c, l).dropped
    ensures OneConflict(c, l.items, l.conflicts, LayOut(c, l).conflicts)
    decreases CyclesLeft(l.items), if AnyReady(l.items, l.cursor) then 0 else 1
  {
    var r := Round(c, l);
    assert LayOut(c, l) == LayOut(c, r) by { hide Round; }
    RoundProgress(c, l);
    RoundReports(c, l);
    hide Round, AnyReady;
    if r.dropped {
      DroppedKeepsConflicts(c, r);
    } else {
      DropReported(c, r);
    }
  }

  lemma RoundReports(c: Setting, l: Layout)
    requires AnyLeft(l.items) && !l.dropped
    ensures var r := Round(c, l);
      && |r.items| == |l.items| && (forall k :: 0 <= k < |l.items| ==> r.items[k].zone == l.items[k].zone)
      && (if r.dropped then OneConflict(c, l.items, l.conflicts, r.conflicts) else r.conflicts == l.conflicts)
  {
    hide Choose, WindowContains, MinutesUntilWindowEnd, LocalTime, Recount, NextEligible;
  }

  lemma {:induction false} DroppedKeepsConflicts(c: Setting, l: Layout)
    requires l.dropped
    ensures LayOut(c, l).conflicts == l.conflicts
  {}

  /** The occurrence is dropped, with all its steps, exactly if its window is of the kind that
      defers or asks for intervention and the loop serves an item while it is closed. */
  lemma DroppedOnlyByWindow(c: Setting, items: seq<Item>, skipped: seq<SkippedZone>, begin: Instant)
    requires c.gap >= 0 && FreshItems(items) && (c.window.Some? ==> ProperWindow(c))
    ensures var (l0, l) := (Begin(items, skipped, begin), Finished(c, items, skipped, begin));
      && (l.dropped ==> l.placed == [] && OneConflict(c, items, [], l.conflicts))
      && (l.dropped <==>
            && c.window.Some? && c.window.value.policy in {DeferOccurrence, RequireIntervention}
            && exists b, k :: Passes(c, l0, b) && !b.dropped && ServedNext(b, k)
                 && !OpenAt(c.window.value, (b.cursor + c.offset(b.cursor)) % DAY))
  {
    var l0 := Begin(items, skipped, begin);
    hide Passes, LayOut, Kept, WindowContains, OpenAt, FreshItems, NoneShortened, ServedNext, MeetsClosed;
    LayoutIsLaid(c, items, skipped, begin);
    DroppedAt(c, l0);
    if LayOut(c, l0).dropped { DropReported(c, l0); }
    if c.window.Some? {
      forall b: Layout ensures MeetsClosed(c, b) <==>
        exists k :: ServedNext(b, k) && !OpenAt(c.window.value, (b.cursor + c.offset(b.cursor)) % DAY)
      {
        MeetsClosedMeans(c, b);
      }
    }
  }

  lemma MeetsClosedMeans(c: Setting, l: Layout)
    requires ProperWindow(c)
    ensures MeetsClosed(c, l) <==>
      exists k :: ServedNext(l, k) && !OpenAt(c.window.value, (l.cursor + c.offset(l.cursor)) % DAY)
  {
    WindowIsArc(c.window.value, LocalTime(c.offset, l.cursor));
    if AnyReady(l.items, l.cursor) { NextIsServed(l, Choose(l.items, l.cursor)); }
    hide WindowContains, OpenAt, KeyLeq;
  }

  // ---------------------------------------------------------------------
  // What is recorded as skipped

  /** Item k has no cycle left to place, though not all that were allocated were placed. */
  predicate Curtailed(items0: seq<Item>, l: Layout, k: nat) {
    k < |l.items| && k < |items0| && !Left(l.items[k]) && l.items[k].emitted < |items0[k].cycles|
  }

  /** The records added so far are those of the curtailed items. */
  ghost predicate SkipsKept(items0: seq<Item>, skipped0: seq<SkippedZone>, l: Layout) {
    && |l.items| == |items0| && skipped0 <= l.skipped
    && (forall k: nat :: Curtailed(items0, l, k) ==>
          SkippedZone(items0[k].zone, OutOfWindow) in l.skipped[|skipped0|..])
    && (forall x :: x in l.skipped[|skipped0|..] ==>
          exists k: nat :: Curtailed(items0, l, k) && x == SkippedZone(items0[k].zone, OutOfWindow))
  }

  /** What a round does to the items and the records. */
  lemma RoundCurtails(c: Setting, items0: seq<Item>, begin: Instant, l: Layout)
    requires Kept(c, items0, begin, l) && NoneShortened(items0, l.items) && AnyLeft(l.items) && !Round(c, l).dropped
    requires !l.dropped
    ensures var r := Round(c, l);
      && |r.items| == |l.items|
      && if r.skipped == l.skipped then forall k: nat :: Curtailed(items0, r, k) <==> Curtailed(items0, l, k)
         else
           exists n: nat ::
             && n < |l.items| && Curtailed(items0, r, n) && !Curtailed(items0, l, n)
             && r.skipped == l.skipped + [SkippedZone(items0[n].zone, OutOfWindow)]
             && forall k: nat :: k != n ==> (Curtailed(items0, r, k) <==> Curtailed(items0, l, k))
  {
    var r := Round(c, l);
    if AnyReady(l.items, l.cursor) {
      var k := Choose(l.items, l.cursor);
      assert ItemKept(items0, l, k);
      hide Kept, ItemKept, Choose, WindowContains, MinutesUntilWindowEnd, LocalTime, Recount, NextEligible, AnyReady;
      PlaceCurtails(c, items0, l, k);
    }
  }

  lemma PlaceCurtails(c: Setting, items0: seq<Item>, l: Layout, k: nat)
    requires |l.items| == |items0| && k < |l.items| && Left(l.items[k]) && !PlaceNext(c, l, k).dropped && !l.dropped
    requires l.items[k].emitted <= |items0[k].cycles| && l.items[k].zone == items0[k].zone
    requires l.items[k].cycles == items0[k].cycles[l.items[k].emitted..]
    ensures var r := PlaceNext(c, l, k);
      && |r.items| == |l.items|
      && if r.skipped == l.skipped then forall j: nat :: Curtailed(items0, r, j) <==> Curtailed(items0, l, j)
         else
           && Curtailed(items0, r, k) && !Curtailed(items0, l, k)
           && r.skipped == l.skipped + [SkippedZone(items0[k].zone, OutOfWindow)]
           && forall j: nat :: j != k ==> (Curtailed(items0, r, j) <==> Curtailed(items0, l, j))
  {
    hide WindowContains, MinutesUntilWindowEnd, LocalTime, Recount;
  }

  lemma {:induction false} LayOutSkips(
    c: Setting, items0: seq<Item>, begin: Instant, skipped0: seq<SkippedZone>, l: Layout)
    requires Proper(c, items0) && Laid(c, items0, begin, skipped0, l) && !LayOut(c, l).dropped
    requires SkipsKept(items0, skipped0, l)
    ensures SkipsKept(items0, skipped0, LayOut(c, l))
    decreases CyclesLeft(l.items), if AnyReady(l.items, l.cursor) then 0 else 1
  {
    if l.dropped { DroppedStays(c, l); }
    if AnyLeft(l.items) {
      var r := Round(c, l);
      assert LayOut(c, l) == LayOut(c, r) by { hide Round; }
      if r.dropped { DroppedStays(c, r); }
      RoundLaid(c, items0, begin, skipped0, l);
      RoundProgress(c, l);
      RoundCurtails(c, items0, begin, l);
      hide Round, LayOut, Laid, AnyReady, Kept, NoneShortened;
      RecordKept(items0, skipped0, l, r);
      LayOutSkips(c, items0, begin, skipped0, r);
    }
  }

  lemma RecordKept(items0: seq<Item>, skipped0: seq<SkippedZone>, l: Layout, r: Layout)
    requires SkipsKept(items0, skipped0, l) && |r.items| == |l.items|
    requires if r.skipped == l.skipped then forall k: nat :: Curtailed(items0, r, k) <==> Curtailed(items0, l, k)
             else
               exists n: nat ::
                 && n < |l.items| && Curtailed(items0, r, n) && !Curtailed(items0, l, n)
                 && r.skipped == l.skipped + [SkippedZone(items0[n].zone, OutOfWindow)]
                 && forall k: nat :: k != n ==> (Curtailed(items0, r, k) <==> Curtailed(items0, l, k))
    ensures SkipsKept(items0, skipped0, r)
  {
    var m := |skipped0|;
    if r.skipped != l.skipped {
      var n: nat :| n < |l.items| && Curtailed(items0, r, n) && !Curtailed(items0, l, n)
        && r.skipped == l.skipped + [SkippedZone(items0[n].zone, OutOfWindow)]
        && forall k: nat :: k != n ==> (Curtailed(items0, r, k) <==> Curtailed(items0, l, k));
      hide Curtailed;
      assert r.skipped[m..] == l.skipped[m..] + [SkippedZone(items0[n].zone, OutOfWindow)];
      forall x | x in r.skipped[m..]
        ensures exists k: nat :: Curtailed(items0, r, k) && x == SkippedZone(items0[k].zone, OutOfWindow)
      {
        if x in l.skipped[m..] {
          var k: nat :| Curtailed(items0, l, k) && x == SkippedZone(items0[k].zone, OutOfWindow);
          assert Curtailed(items0, r, k);
        } else {
          assert x == SkippedZone(items0[n].zone, OutOfWindow);
        }
      }
    }
  }

  /** The zones recorded as skipped by the layout are exactly those of items not all of whose
      cycles were placed, whether they were given up or cut short before their last. */
  lemma SkipsAreCurtailed(c: Setting, items: seq<Item>, skipped: seq<SkippedZone>, begin: Instant, x: SkippedZone)
    requires c.gap >= 0 && FreshItems(items) && !Finished(c, items, skipped, begin).dropped
    ensures var l := Finished(c, items, skipped, begin);
      && skipped <= l.skipped
      && (x in l.skipped[|skipped|..] <==>
            exists k :: 0 <= k < |items| && CountOf(l.placed, |l.placed|, k) < |items[k].cycles|
              && x == SkippedZone(items[k].zone, OutOfWindow))
  {
    var l0, l := Begin(items, skipped, begin), Finished(c, items, skipped, begin);
    BeginIsLaid(c, items, skipped, begin);
    LayoutIsLaid(c, items, skipped, begin);
    forall k: nat ensures !Curtailed(items, l0, k) { if k < |items| { assert FreshItem(items[k]); } }
    assert l0.skipped[|skipped|..] == [];
    hide LayOut, FreshItems;
    LayOutSkips(c, items, begin, skipped, l0);
    forall k | 0 <= k < |items|
      ensures Curtailed(items, l, k) <==> CountOf(l.placed, |l.placed|, k) < |items[k].cycles|
    {
      assert ItemKept(items, l, k);
      hide CountOf, MinutesOf, EligibleAfter, StepKept, Spaced, Greedy;
    }
    hide Curtailed, CountOf, Kept;
  }
}
