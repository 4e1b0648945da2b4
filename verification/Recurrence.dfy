/** Recurrence rules resolved to instants, with daylight saving.

    A wall clock instant is counted in seconds like a UTC one; a date is a number of days,
    so that `day * DAY + time` is the wall clock instant of a start. Calendar fields and
    solar events are parameters. */
module Recurrence {
  import opened Domain
  import opened Sorting

  const DAY := 86400

  // ---------------------------------------------------------------------
  // Time zones

  /** A change of UTC offset at an instant. */
  datatype Change = Change(at: Instant, before: int, after: int)

  /** `near` names, for a wall clock instant, the only change within a day of it (any
      change without effect there, if there is none). */
  datatype Zone = Zone(offset: Instant -> int, near: int -> Change)

  function OffsetBy(c: Change, t: Instant): int { if t < c.at then c.before else c.after }

  ghost predicate ProperAt(z: Zone, n: int) {
    var c := z.near(n);
    && -DAY < c.before < DAY && -DAY < c.after < DAY && -DAY <= c.after - c.before <= DAY
    && forall t :: n - DAY <= t <= n + DAY ==> z.offset(t) == OffsetBy(c, t)
  }

  ghost predicate ProperZone(z: Zone) { forall n :: ProperAt(z, n) }

  /** The offset of a wall clock instant under PEP 495: inside a gap or a repeated hour,
      `fold` 0 takes the offset before the change and `fold` 1 the one after it. */
  function LocalOffset(z: Zone, n: int, fold: int): int {
    var c := z.near(n);
    var change := c.at + (if fold == 0 then Max(c.before, c.after) else Min(c.before, c.after));
    if n < change then c.before else c.after
  }

  function ToUtc(z: Zone, n: int, fold: int): Instant { n - LocalOffset(z, n, fold) }

  function ToLocal(z: Zone, t: Instant): int { t + z.offset(t) }

  predicate IsNonexistent(z: Zone, n: int) { ToLocal(z, ToUtc(z, n, 0)) != n }

  // ---------------------------------------------------------------------
  // The instant after a gap

  function FloorMinute(t: int): int { t - t % 60 }

  function Midpoint(lo: Instant, hi: Instant): Instant { FloorMinute(lo + (hi - lo) / 2) }

  /** The binary search, as a function of its two bounds. */
  function Search(z: Zone, target: int, lo: Instant, hi: Instant): Instant
    decreases hi - lo
  {
    if hi - lo <= 60 then hi
    else
      var mid := Midpoint(lo, hi);
      if mid <= lo then hi
      else if z.offset(mid) == target then Search(z, target, lo, mid)
      else Search(z, target, mid, hi)
  }

  function FirstValidInstantAfterGap(z: Zone, n: int): Instant {
    var a, b := ToUtc(z, n, 1), ToUtc(z, n, 0);
    var lo, hi := Min(a, b), Max(a, b);
    Search(z, z.offset(hi), lo, hi)
  }

  method FirstValidInstant(z: Zone, n: int) returns (hi: Instant)
    ensures hi == FirstValidInstantAfterGap(z, n)
  {
    var lo := ToUtc(z, n, 1);
    hi := ToUtc(z, n, 0);
    if lo > hi { lo, hi := hi, lo; }
    var target := z.offset(hi);
    while hi - lo > 60
      invariant Search(z, target, lo, hi) == FirstValidInstantAfterGap(z, n)
      decreases hi - lo
    {
      var mid := Midpoint(lo, hi);
      if mid <= lo { break; }
      if z.offset(mid) == target { hi := mid; } else { lo := mid; }
    }
  }

  datatype GapPolicy = ShiftForward | SkipStart

  function ResolveLocalStart(z: Zone, n: int, policy: GapPolicy): Option<Instant> {
    if IsNonexistent(z, n) then
      if policy == SkipStart then None else Some(FirstValidInstantAfterGap(z, n))
    else Some(ToUtc(z, n, 0))
  }

  // ---------------------------------------------------------------------
  // What resolution means

  predicate InGap(c: Change, n: int) { c.at + c.before <= n < c.at + c.after }

  /** A start is nonexistent exactly when it lies in the gap of a forward change. */
  lemma NonexistentIsGap(z: Zone, n: int)
    requires ProperZone(z)
    ensures IsNonexistent(z, n) <==> InGap(z.near(n), n)
  {
    assert ProperAt(z, n);
  }

  /** In a repeated hour both folds show the time, the first before the change and the second
      after it. */
  lemma RepeatedTwice(z: Zone, n: int)
    requires ProperZone(z) && z.near(n).at + z.near(n).after <= n < z.near(n).at + z.near(n).before
    ensures ToUtc(z, n, 0) < z.near(n).at <= ToUtc(z, n, 1)
    ensures ToLocal(z, ToUtc(z, n, 0)) == n == ToLocal(z, ToUtc(z, n, 1))
  {
    assert ProperAt(z, n);
  }

  predicate MinuteAligned(c: Change) { c.at % 60 == 0 && c.before % 60 == 0 && c.after % 60 == 0 }

  /** Seconds that put a start inside the first minute of a gap make the search stop short. */
  predicate Overshoots(c: Change, n: int) { n % 60 != 0 && n - (c.at + c.before) < 60 }

  lemma FloorMinuteBounds(t: int)
    ensures FloorMinute(t) % 60 == 0 && FloorMinute(t) <= t < FloorMinute(t) + 60
  {
    assert t == t / 60 * 60 + t % 60;
  }

  /** The state of the search between a gap's two candidate instants. */
  ghost predicate Searching(z: Zone, n: int, lo: Instant, hi: Instant) {
    var c := z.near(n);
    && ProperAt(z, n) && InGap(c, n) && MinuteAligned(c)
    && n - c.after <= lo < c.at <= hi <= n - c.before
    && (lo % 60 == 0 || lo == n - c.after)
    && (hi % 60 == 0 || hi == n - c.before)
    && (Overshoots(c, n) ==> hi == n - c.before)
  }

  /** The search stops only at the change itself, unless the start overshoots it. */
  lemma SearchStops(z: Zone, n: int, lo: Instant, hi: Instant)
    requires Searching(z, n, lo, hi) && (hi - lo <= 60 || Midpoint(lo, hi) <= lo)
    ensures hi == if Overshoots(z.near(n), n) then n - z.near(n).before else z.near(n).at
  {
    var c := z.near(n);
    var lowest := lo + (hi - lo) / 2;
    Residues(c, n, lo);
    Residues(c, n, hi);
    FloorMinuteBounds(lowest);
    hide ProperAt, FloorMinute, MinuteAligned;
    MinutesStop(c.at / 60, n % 60, lo / 60, lo % 60, hi / 60, hi % 60, FloorMinute(lowest) / 60);
  }

  /** Whole minutes, or the seconds of the start. */
  lemma Residues(c: Change, n: int, t: Instant)
    requires MinuteAligned(c) && (t % 60 == 0 || t == n - c.after || t == n - c.before)
    ensures t == 60 * (t / 60) + t % 60 && (t % 60 == 0 || t % 60 == n % 60)
    ensures c.at == 60 * (c.at / 60)
    ensures InGap(c, n) && t == n - c.before && n % 60 != 0 && !Overshoots(c, n) ==> t - c.at >= 60
  {}

  /** The same in minutes and seconds: a stop with an aligned upper bound is at the change. */
  lemma MinutesStop(at: int, s: int, l: int, ls: int, h: int, hs: int, m: int)
    requires 0 <= s < 60 && (ls == 0 || ls == s) && (hs == 0 || hs == s)
    requires 60 * l + ls < 60 * at <= 60 * h + hs
    requires 60 * m <= 60 * l + ls + (60 * h + hs - (60 * l + ls)) / 2 < 60 * m + 60
    requires 60 * h + hs - (60 * l + ls) <= 60 || 60 * m <= 60 * l + ls
    ensures h == at
  {
    var lo, hi := 60 * l + ls, 60 * h + hs;
    assert hi - lo >= 2 * ((hi - lo) / 2) >= hi - lo - 1;
  }

  /** A midpoint keeps the bounds around the change; an overshooting start never moves the upper one. */
  lemma SearchNarrows(z: Zone, n: int, lo: Instant, hi: Instant)
    requires Searching(z, n, lo, hi) && hi - lo > 60 && Midpoint(lo, hi) > lo
    ensures var mid := Midpoint(lo, hi);
      if z.offset(mid) == z.near(n).after then Searching(z, n, lo, mid) else Searching(z, n, mid, hi)
  {
    var c, mid := z.near(n), Midpoint(lo, hi);
    FloorMinuteBounds(lo + (hi - lo) / 2);
    assert z.offset(mid) == OffsetBy(c, mid) by { assert ProperAt(z, n); }
    assert mid < hi && mid % 60 == 0;
    if Overshoots(c, n) { OvershootBelow(z, n, lo, hi); }
    hide ProperAt, FloorMinute, MinuteAligned, Midpoint, Overshoots, InGap;
  }

  lemma OvershootBelow(z: Zone, n: int, lo: Instant, hi: Instant)
    requires Searching(z, n, lo, hi) && Overshoots(z.near(n), n) && hi - lo > 60
    ensures Midpoint(lo, hi) < z.near(n).at
  {
    var c := z.near(n);
    FloorMinuteBounds(lo + (hi - lo) / 2);
    Residues(c, n, lo);
    Residues(c, n, hi);
    assert hi - c.at < 60 && hi == c.at + hi % 60;
    hide ProperAt, FloorMinute, MinuteAligned;
    MinutesBelow(c.at / 60, n % 60, lo / 60, lo % 60, Midpoint(lo, hi) / 60);
  }

  /** From an overshooting start less than a minute past the change, every midpoint is before it. */
  lemma MinutesBelow(at: int, s: int, l: int, ls: int, m: int)
    requires 0 < s < 60 && (ls == 0 || ls == s) && 60 * l + ls < 60 * at
    requires 60 * at + s - (60 * l + ls) > 60
    requires 60 * m <= 60 * l + ls + (60 * at + s - (60 * l + ls)) / 2
    ensures m < at
  {
    var lo, hi := 60 * l + ls, 60 * at + s;
    assert 2 * ((hi - lo) / 2) <= hi - lo;
  }

  lemma {:induction false} SearchEnds(z: Zone, n: int, lo: Instant, hi: Instant)
    requires Searching(z, n, lo, hi)
    ensures var c := z.near(n);
      Search(z, c.after, lo, hi) == if Overshoots(c, n) then n - c.before else c.at
    decreases hi - lo
  {
    var c, mid := z.near(n), Midpoint(lo, hi);
    FloorMinuteBounds(lo + (hi - lo) / 2);
    if hi - lo <= 60 || mid <= lo {
      SearchStops(z, n, lo, hi);
    } else {
      SearchNarrows(z, n, lo, hi);
      hide Searching, Overshoots, Midpoint, FloorMinute;
      if z.offset(mid) == c.after { SearchEnds(z, n, lo, mid); } else { SearchEnds(z, n, mid, hi); }
    }
  }

  /** For a start in a gap, with everything but the start on whole minutes: the search finds
      the change exactly, unless the start is less than a minute into the gap and has seconds;
      then it answers the start's image under the old offset, which is later. */
  lemma GapSearchExact(z: Zone, n: int)
    requires ProperZone(z) && IsNonexistent(z, n) && MinuteAligned(z.near(n))
    ensures var c := z.near(n);
      && (FirstValidInstantAfterGap(z, n) == c.at <==> !Overshoots(c, n))
      && (Overshoots(c, n) ==> FirstValidInstantAfterGap(z, n) == n - c.before > c.at)
  {
    var c := z.near(n);
    NonexistentIsGap(z, n);
    assert ProperAt(z, n);
    assert n - c.before >= c.at && (n % 60 == 0 || n > c.at + c.before);
    assert z.offset(n - c.before) == c.after;
    SearchEnds(z, n, n - c.after, n - c.before);
  }

  /** A start of 02:00:30 with clocks going from 02:00 to 03:00: answered 03:00:30, not 03:00. */
  lemma OvershootExample()
    ensures var z := Zone(t => if t < 7200 then 0 else 3600, n => Change(7200, 0, 3600));
      && ProperZone(z) && MinuteAligned(z.near(7230))
      && ResolveLocalStart(z, 7230, ShiftForward) == Some(7230)
      && ToLocal(z, 7200) > 7230
  {
    var z := Zone(t => if t < 7200 then 0 else 3600, n => Change(7200, 0, 3600));
    assert forall n :: ProperAt(z, n);
    GapSearchExact(z, 7230);
  }

  /** The wall clock has reached the requested time. */
  predicate Reached(z: Zone, n: int, t: Instant) { ToLocal(z, t) >= n }

  ghost predicate FirstReached(z: Zone, n: int, t: Instant) {
    Reached(z, n, t) && forall v :: v < t ==> !Reached(z, n, v)
  }

  /** Nothing earlier than a day before can show the requested time. */
  lemma NotReachedEarlier(z: Zone, n: int, v: Instant)
    requires ProperZone(z) && v < n - DAY
    ensures !Reached(z, n, v)
  {
    var m := ToLocal(z, v);
    assert ProperAt(z, v);
    assert z.offset(v) == OffsetBy(z.near(v), v);
  }

  /** With the shift policy, a start resolves to the first instant at which the wall clock
      reads the requested time or later (on a normal day, in a gap, and in a repeated hour),
      exactly unless it overshoots a gap. */
  lemma ResolvesToFirstReached(z: Zone, n: int)
    requires ProperZone(z) && (InGap(z.near(n), n) ==> MinuteAligned(z.near(n)))
    ensures var r := ResolveLocalStart(z, n, ShiftForward);
      r.Some? && (FirstReached(z, n, r.value) <==> !(InGap(z.near(n), n) && Overshoots(z.near(n), n)))
  {
    var c := z.near(n);
    var r := ResolveLocalStart(z, n, ShiftForward).value;
    NonexistentIsGap(z, n);
    if IsNonexistent(z, n) {
      GapSearchExact(z, n);
      assert ProperAt(z, n);
      assert Reached(z, n, c.at) by { assert z.offset(c.at) == c.after; }
    }
    hide FirstValidInstantAfterGap;
    if !(InGap(c, n) && Overshoots(c, n)) {
      forall v | v < r ensures !Reached(z, n, v) {
        if v < n - DAY { NotReachedEarlier(z, n, v); } else { NotReachedBefore(z, n, r, v); }
      }
      assert Reached(z, n, r) by { assert ProperAt(z, n); }
    }
  }

  lemma NotReachedBefore(z: Zone, n: int, r: Instant, v: Instant)
    requires ProperZone(z) && n - DAY <= v < r
    requires r == if InGap(z.near(n), n) then z.near(n).at else ToUtc(z, n, 0)
    ensures !Reached(z, n, v)
  {
    assert ProperAt(z, n);
    assert z.offset(v) == OffsetBy(z.near(n), v);
  }

  // ---------------------------------------------------------------------
  // Rules and programs

  datatype Calendar = Calendar(month: int -> int, dayOfMonth: int -> int, weekday: int -> int)

  datatype RuleKind = Weekly | OddDays | EvenDays | Interval

  datatype Rule = Rule(
    kind: RuleKind,
    weekdays: set<int>,
    intervalDays: Option<int>,
    anchor: Option<int>,
    first: Option<int>,
    last: Option<int>,
    months: Option<set<int>>,
    gapPolicy: GapPolicy)

  predicate DateQualifies(rule: Rule, cal: Calendar, day: int) {
    && (rule.first.Some? ==> rule.first.value <= day)
    && (rule.last.Some? ==> day <= rule.last.value)
    && (rule.months.Some? ==> cal.month(day) in rule.months.value)
    && match rule.kind
       case Weekly => cal.weekday(day) in rule.weekdays
       case OddDays => cal.dayOfMonth(day) % 2 == 1
       case EvenDays => cal.dayOfMonth(day) % 2 == 0
       case Interval =>
         rule.anchor.Some? && rule.intervalDays.Some? && rule.intervalDays.value != 0 &&
         day >= rule.anchor.value && (day - rule.anchor.value) % rule.intervalDays.value == 0
  }

  /** Sunrise and sunset starts are numbered; `solar` says when they fall on a date, if ever. */
  datatype StartTime = Clock(at: int) | Solar(event: int)

  datatype RecurringProgram = RecurringProgram(
    enabled: bool, starts: seq<StartTime>, rule: Rule, scheduleUpdatedAt: Option<Instant>)

  datatype Place = Place(zone: Zone, calendar: Calendar, solar: (int, int) -> Option<Instant>)

  function ResolveStart(p: RecurringProgram, at: Place, day: int, start: StartTime): Option<Instant> {
    match start
    case Clock(time) => ResolveLocalStart(at.zone, day * DAY + time, p.rule.gapPolicy)
    case Solar(event) => at.solar(event, day)
  }

  /** Inside the half-open window, and not before the schedule was last changed. */
  predicate Wanted(p: RecurringProgram, from: Instant, until: Instant, t: Instant) {
    from <= t < until && (p.scheduleUpdatedAt.Some? ==> p.scheduleUpdatedAt.value <= t)
  }

  /** The start falls on that qualifying day, at that wanted instant. */
  predicate Due(p: RecurringProgram, at: Place, from: Instant, until: Instant, day: int, start: StartTime, t: Instant) {
    && start in p.starts && DateQualifies(p.rule, at.calendar, day)
    && ResolveStart(p, at, day, start) == Some(t) && Wanted(p, from, until, t)
  }

  predicate TimesOfDay(p: RecurringProgram) {
    forall k :: 0 <= k < |p.starts| && p.starts[k].Clock? ==> 0 <= p.starts[k].at < DAY
  }

  function LocalDate(z: Zone, t: Instant): int { ToLocal(z, t) / DAY }

  // ---------------------------------------------------------------------
  // The padding of one day misses nothing

  /** Resolution moves a start by one of the two offsets around it, or between them. */
  lemma ResolvedBetween(z: Zone, n: int, policy: GapPolicy)
    requires ProperZone(z)
    ensures var c, r := z.near(n), ResolveLocalStart(z, n, policy);
      r.Some? ==> n - Max(c.before, c.after) <= r.value <= n - Min(c.before, c.after)
  {
    var c := z.near(n);
    NonexistentIsGap(z, n);
    var a, b := ToUtc(z, n, 1), ToUtc(z, n, 0);
    SearchBetween(z, z.offset(Max(a, b)), Min(a, b), Max(a, b));
    hide ProperZone, Search;
  }

  lemma {:induction false} SearchBetween(z: Zone, target: int, lo: Instant, hi: Instant)
    requires lo <= hi
    ensures lo <= Search(z, target, lo, hi) <= hi
    decreases hi - lo
  {
    var mid := Midpoint(lo, hi);
    FloorMinuteBounds(lo + (hi - lo) / 2);
    if hi - lo > 60 && mid > lo {
      if z.offset(mid) == target { SearchBetween(z, target, lo, mid); } else { SearchBetween(z, target, mid, hi); }
    }
  }

  /** A clock start that resolves into the window lies on a date at most one day outside it. */
  lemma PaddingMissesNothing(z: Zone, n: int, policy: GapPolicy, from: Instant, until: Instant)
    requires ProperZone(z)
    requires var r := ResolveLocalStart(z, n, policy); r.Some? && from <= r.value < until
    ensures LocalDate(z, from) - 1 <= n / DAY <= LocalDate(z, until) + 1
  {
    var c := z.near(n);
    ResolvedBetween(z, n, policy);
    assert ProperAt(z, n);
    hide ResolveLocalStart;
    if n / DAY > LocalDate(z, until) + 1 { LateStart(z, n, until); }
    if n / DAY < LocalDate(z, from) - 1 { EarlyStart(z, n, from); }
  }

  lemma OffsetBounded(z: Zone, t: Instant)
    requires ProperZone(z)
    ensures -DAY < z.offset(t) < DAY
  {
    assert ProperAt(z, t);
    assert z.offset(t) == OffsetBy(z.near(t), t);
  }

  /** A start at least one day after the window's last date resolves past the window. */
  lemma LateStart(z: Zone, n: int, until: Instant)
    requires ProperZone(z) && n / DAY > LocalDate(z, until) + 1
    ensures n - Max(z.near(n).before, z.near(n).after) >= until
  {
    var c, local := z.near(n), ToLocal(z, until);
    assert local < (local / DAY + 1) * DAY && n >= n / DAY * DAY;
    assert n > local + DAY;
    assert ProperAt(z, n);
    OffsetBounded(z, until);
    if n - DAY <= until <= n + DAY { assert z.offset(until) == OffsetBy(c, until); }
  }

  /** A start at least one day before the window's first date resolves before the window. */
  lemma EarlyStart(z: Zone, n: int, from: Instant)
    requires ProperZone(z) && n / DAY < LocalDate(z, from) - 1
    ensures n - Min(z.near(n).before, z.near(n).after) < from
  {
    var c, local := z.near(n), ToLocal(z, from);
    assert local >= local / DAY * DAY && n < (n / DAY + 1) * DAY;
    assert n < local - DAY;
    assert ProperAt(z, n);
    OffsetBounded(z, from);
    if n - DAY <= from <= n + DAY { assert z.offset(from) == OffsetBy(c, from); }
  }

  // ---------------------------------------------------------------------
  // Expansion of a program over a window

  const CHRONOLOGICAL: (Instant, Instant) -> bool := (a: Instant, b: Instant) => a <= b

  predicate Increasing(s: seq<Instant>) { forall i, j :: 0 <= i < j < |s| ==> s[i] < s[j] }

  ghost predicate DueOn(
    p: RecurringProgram, at: Place, from: Instant, until: Instant, first: int, last: int, t: Instant)
  {
    exists day, start :: first <= day <= last && Due(p, at, from, until, day, start, t)
  }

  predicate Resolves(p: RecurringProgram, at: Place, day: int, start: StartTime, t: Instant) {
    start in p.starts && ResolveStart(p, at, day, start) == Some(t)
  }

  /** The instants that one day's starts resolve to, in order. */
  method Resolve(p: RecurringProgram, at: Place, day: int) returns (resolved: seq<Instant>)
    ensures forall t :: t in resolved <==> exists start :: Resolves(p, at, day, start, t)
  {
    resolved := [];
    for i := 0 to |p.starts|
      invariant forall t :: t in resolved ==> exists start :: Resolves(p, at, day, start, t)
      invariant forall k :: 0 <= k < i ==>
        (ResolveStart(p, at, day, p.starts[k]).Some? ==> ResolveStart(p, at, day, p.starts[k]).value in resolved)
    {
      hide ResolveStart;
      var r := ResolveStart(p, at, day, p.starts[i]);
      if r.Some? {
        assert Resolves(p, at, day, p.starts[i], r.value);
        resolved := resolved + [r.value];
      }
    }
    hide ResolveStart;
    SortPermutes(CHRONOLOGICAL, resolved);
    resolved := Sort(CHRONOLOGICAL, resolved);
  }

  /** The wanted instants among these, without those already found. */
  method AddWanted(
    p: RecurringProgram, from: Instant, until: Instant, resolved: seq<Instant>, found: seq<Instant>, seen: set<Instant>)
    returns (found1: seq<Instant>, seen1: set<Instant>)
    requires NoDuplicates(found) && forall t :: t in found <==> t in seen
    ensures NoDuplicates(found1) && forall t :: t in found1 <==> t in seen1
    ensures forall t :: t in found1 <==> t in found || (t in resolved && Wanted(p, from, until, t))
  {
    found1, seen1 := found, seen;
    for i := 0 to |resolved|
      invariant NoDuplicates(found1) && forall t :: t in found1 <==> t in seen1
      invariant forall t :: t in found1 <==> t in found || (t in resolved[..i] && Wanted(p, from, until, t))
    {
      hide Wanted;
      var t := resolved[i];
      assert resolved[..i + 1] == resolved[..i] + [t];
      if Wanted(p, from, until, t) && t !in seen1 {
        seen1 := seen1 + {t};
        found1 := found1 + [t];
      }
    }
    assert resolved[..|resolved|] == resolved;
  }

  /** The program's starts in the window: in order, without duplicates, and exactly the wanted
      instants of the qualifying days around it. */
  method OccurrencesBetween(p: RecurringProgram, at: Place, from: Instant, until: Instant)
    returns (starts: seq<Instant>)
    ensures Increasing(starts)
    ensures forall t :: t in starts <==>
      p.enabled && DueOn(p, at, from, until, LocalDate(at.zone, from) - 1, LocalDate(at.zone, until) + 1, t)
  {
    if !p.enabled || p.starts == [] { return []; }
    var first, last := LocalDate(at.zone, from) - 1, LocalDate(at.zone, until) + 1;
    var found: seq<Instant>, seen: set<Instant> := [], {};
    var day := first;
    while day <= last
      invariant day >= first && (day <= last + 1 || found == [])
      invariant NoDuplicates(found) && forall t :: t in found <==> t in seen
      invariant forall t :: t in found <==> DueOn(p, at, from, until, first, Min(day - 1, last), t)
    {
      ghost var before := found;
      hide DueOn, Due, Wanted, DateQualifies;
      if DateQualifies(p.rule, at.calendar, day) {
        var resolved := Resolve(p, at, day);
        found, seen := AddWanted(p, from, until, resolved, found, seen);
        DueNext(p, at, from, until, first, day, resolved);
      } else {
        NotDueNext(p, at, from, until, first, day);
      }
      day := day + 1;
    }
    hide DueOn;
    SortPermutes(CHRONOLOGICAL, found);
    SortSorts(CHRONOLOGICAL, found);
    SortNoDuplicates(CHRONOLOGICAL, found);
    starts := Sort(CHRONOLOGICAL, found);
    hide Sort;
    assert forall i, j :: 0 <= i < j < |starts| ==> CHRONOLOGICAL(starts[i], starts[j]);
  }

  lemma DueNext(
    p: RecurringProgram, at: Place, from: Instant, until: Instant, first: int, day: int, resolved: seq<Instant>)
    requires first <= day && DateQualifies(p.rule, at.calendar, day)
    requires forall t :: t in resolved <==> exists start :: Resolves(p, at, day, start, t)
    ensures forall t :: DueOn(p, at, from, until, first, day, t) <==>
      DueOn(p, at, from, until, first, day - 1, t) || (t in resolved && Wanted(p, from, until, t))
  {
    hide DateQualifies, Wanted, ResolveStart;
    forall t | DueOn(p, at, from, until, first, day, t)
      ensures DueOn(p, at, from, until, first, day - 1, t) || (t in resolved && Wanted(p, from, until, t))
    {
      var d, start :| first <= d <= day && Due(p, at, from, until, d, start, t);
      if d == day { assert Resolves(p, at, day, start, t); }
    }
    forall t | t in resolved && Wanted(p, from, until, t) ensures DueOn(p, at, from, until, first, day, t) {
      var start :| Resolves(p, at, day, start, t);
      assert Due(p, at, from, until, day, start, t);
    }
  }

  lemma NotDueNext(p: RecurringProgram, at: Place, from: Instant, until: Instant, first: int, day: int)
    requires !DateQualifies(p.rule, at.calendar, day)
    ensures forall t :: DueOn(p, at, from, until, first, day, t) <==> DueOn(p, at, from, until, first, day - 1, t)
  {
    hide DateQualifies, Wanted, ResolveStart;
  }

  // ---------------------------------------------------------------------
  // Exactness and window splitting for clock starts

  /** The starts, in order, of every qualifying day whatsoever that are wanted. */
  ghost predicate IsExpansion(p: RecurringProgram, at: Place, from: Instant, until: Instant, starts: seq<Instant>) {
    && Increasing(starts)
    && forall t :: t in starts <==> p.enabled && exists day, start :: Due(p, at, from, until, day, start, t)
  }

  predicate ClockOnly(p: RecurringProgram) { forall k :: 0 <= k < |p.starts| ==> p.starts[k].Clock? }

  /** Looking only at the padded dates finds every start of a clock program. */
  lemma PaddedIsExact(p: RecurringProgram, at: Place, from: Instant, until: Instant, t: Instant)
    requires ProperZone(at.zone) && ClockOnly(p) && TimesOfDay(p)
    ensures DueOn(p, at, from, until, LocalDate(at.zone, from) - 1, LocalDate(at.zone, until) + 1, t)
      <==> exists day, start :: Due(p, at, from, until, day, start, t)
  {
    hide ProperZone, ResolveLocalStart, DateQualifies, LocalDate;
    if day, start :| Due(p, at, from, until, day, start, t) {
      var n := day * DAY + start.at;
      assert n / DAY == day;
      PaddingMissesNothing(at.zone, n, p.rule.gapPolicy, from, until);
    }
  }

  lemma PaddedIsExpansion(p: RecurringProgram, at: Place, from: Instant, until: Instant, starts: seq<Instant>)
    requires ProperZone(at.zone) && ClockOnly(p) && TimesOfDay(p)
    requires Increasing(starts)
    requires forall t :: t in starts <==>
      p.enabled && DueOn(p, at, from, until, LocalDate(at.zone, from) - 1, LocalDate(at.zone, until) + 1, t)
    ensures IsExpansion(p, at, from, until, starts)
  {
    hide DueOn, Due, ProperZone, LocalDate;
    forall t ensures t in starts <==> p.enabled && exists day, start :: Due(p, at, from, until, day, start, t) {
      PaddedIsExact(p, at, from, until, t);
    }
  }

  /** Expanding a window in two parts gives the same starts as expanding it at once. */
  lemma WindowsSplit(
    p: RecurringProgram, at: Place, a: Instant, b: Instant, c: Instant,
    left: seq<Instant>, right: seq<Instant>, whole: seq<Instant>)
    requires a <= b <= c
    requires IsExpansion(p, at, a, b, left) && IsExpansion(p, at, b, c, right) && IsExpansion(p, at, a, c, whole)
    ensures whole == left + right
  {
    hide ResolveStart, DateQualifies;
    forall t ensures t in whole <==> t in left || t in right {
      if day, start :| Due(p, at, a, c, day, start, t) {
        assert if t < b then Due(p, at, a, b, day, start, t) else Due(p, at, b, c, day, start, t);
      }
      if day, start :| Due(p, at, a, b, day, start, t) { assert Due(p, at, a, c, day, start, t); }
      if day, start :| Due(p, at, b, c, day, start, t) { assert Due(p, at, a, c, day, start, t); }
    }
    ConcatIncreasing(p, at, a, b, c, left, right);
    IncreasingUnique(whole, left + right);
  }

  lemma ConcatIncreasing(
    p: RecurringProgram, at: Place, a: Instant, b: Instant, c: Instant, left: seq<Instant>, right: seq<Instant>)
    requires IsExpansion(p, at, a, b, left) && IsExpansion(p, at, b, c, right)
    ensures Increasing(left + right)
  {
    hide ResolveStart, DateQualifies;
    forall i, j | 0 <= i < |left| && 0 <= j < |right| ensures left[i] < right[j] {
      assert left[i] in left && right[j] in right;
    }
  }

  lemma {:induction false} IncreasingUnique(s: seq<Instant>, t: seq<Instant>)
    requires Increasing(s) && Increasing(t) && forall x :: x in s <==> x in t
    ensures s == t
  {
    assert t != [] ==> t[0] in t;
    if s != [] {
      assert s[0] in s && t != [] && t[0] in t;
      assert s[0] == t[0];
      assert s == [s[0]] + s[1..] && t == [t[0]] + t[1..];
      forall x ensures x in s[1..] <==> x in t[1..] {
        assert x in s[1..] <==> x in s && x != s[0];
        assert x in t[1..] <==> x in t && x != t[0];
      }
      IncreasingUnique(s[1..], t[1..]);
    }
  }
}
