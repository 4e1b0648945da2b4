/** What an expansion contains, rule by rule and on the wall clock. */
module RecurrenceDays {
  import opened Domain
  import opened Recurrence

  // ---------------------------------------------------------------------
  // The days of a rule

  /** Inside the rule's dates and in one of its months. */
  predicate InSeason(rule: Rule, cal: Calendar, day: int) {
    && (rule.first.None? || rule.first.value <= day)
    && (rule.last.None? || rule.last.value >= day)
    && (rule.months.None? || cal.month(day) in rule.months.value)
  }

  /** The days that the rule's kind names, whatever its season. */
  ghost predicate NamedDay(rule: Rule, cal: Calendar, day: int) {
    match rule.kind
    case Weekly => cal.weekday(day) in rule.weekdays
    case OddDays => exists k :: cal.dayOfMonth(day) == 2 * k + 1
    case EvenDays => exists k :: cal.dayOfMonth(day) == 2 * k
    case Interval =>
      && rule.anchor.Some? && rule.intervalDays.Some?
      && IntervalDay(rule.anchor.value, rule.intervalDays.value, day)
  }

  /** A whole number of intervals after the anchor, or the anchor itself. */
  ghost predicate IntervalDay(anchor: int, interval: int, day: int) {
    interval != 0 && anchor <= day && exists k :: day == anchor + k * interval
  }

  lemma QualifiesIsNamed(rule: Rule, cal: Calendar, day: int)
    ensures DateQualifies(rule, cal, day) <==> InSeason(rule, cal, day) && NamedDay(rule, cal, day)
  {
    match rule.kind
    case Weekly =>
    case OddDays => Halves(cal.dayOfMonth(day));
    case EvenDays => Halves(cal.dayOfMonth(day));
    case Interval =>
      if rule.anchor.Some? && rule.intervalDays.Some? && rule.intervalDays.value != 0 {
        IntervalMeans(rule.anchor.value, rule.intervalDays.value, day);
        hide IntervalDay;
      }
  }

  lemma IntervalMeans(anchor: int, interval: int, day: int)
    requires interval != 0
    ensures IntervalDay(anchor, interval, day) <==> anchor <= day && (day - anchor) % interval == 0
  {
    Multiples(day - anchor, interval);
    if k :| day - anchor == k * interval { assert day == anchor + k * interval; }
    if k :| day == anchor + k * interval { assert day - anchor == k * interval; }
  }

  lemma Halves(n: int)
    ensures n % 2 == 1 <==> exists k :: n == 2 * k + 1
    ensures n % 2 == 0 <==> exists k :: n == 2 * k
  {
    assert n == 2 * (n / 2) + n % 2;
  }

  lemma Multiples(n: int, m: int)
    requires m != 0
    ensures n % m == 0 <==> exists k :: n == k * m
  {
    assert n == n / m * m + n % m;
    if k :| n == k * m { RemainderOfMultiple(k, m); }
  }

  lemma RemainderOfMultiple(k: int, m: int)
    requires m != 0
    ensures k * m % m == 0
  {
    var n := k * m;
    var (q, r) := (n / m, n % m);
    assert n == q * m + r;
    assert (k - q) * m == r;
    if k != q { Away(k - q, m); }
  }

  lemma Away(d: int, m: int)
    requires d != 0 && m != 0
    ensures d * m <= -(if m < 0 then -m else m) || d * m >= (if m < 0 then -m else m)
  {}

  /** Within a season, the interval's days lie exactly the interval apart. */
  lemma IntervalDaysApart(anchor: int, interval: int, day: int, next: int)
    requires interval > 0 && IntervalDay(anchor, interval, day) && day < next
    ensures next <= day + interval ==> (IntervalDay(anchor, interval, next) <==> next == day + interval)
  {
    var k :| day == anchor + k * interval;
    if next < day + interval && IntervalDay(anchor, interval, next) {
      var m :| next == anchor + m * interval;
      Between(k, m, interval);
    }
    assert day + interval == anchor + (k + 1) * interval;
  }

  lemma Between(k: int, m: int, interval: int)
    requires interval > 0
    ensures !(k * interval < m * interval < k * interval + interval)
  {
    if m <= k {
      Scaled(m, k, interval);
    } else {
      Scaled(k + 1, m, interval);
      assert (k + 1) * interval == k * interval + interval;
    }
  }

  lemma Scaled(a: int, b: int, n: int)
    requires a <= b && n > 0
    ensures a * n <= b * n
  {}

  /** Of two consecutive days of one month exactly one is odd and the other even. */
  lemma OddOrEven(odd: Rule, even: Rule, cal: Calendar, day: int)
    requires odd.kind == OddDays && even == odd.(kind := EvenDays)
    requires cal.dayOfMonth(day + 1) == cal.dayOfMonth(day) + 1
    ensures NamedDay(odd, cal, day) <==> !NamedDay(even, cal, day)
    ensures NamedDay(odd, cal, day) <==> NamedDay(even, cal, day + 1)
  {
    Halves(cal.dayOfMonth(day));
    Halves(cal.dayOfMonth(day) + 1);
  }

  // ---------------------------------------------------------------------
  // The instant of a start

  /** Some instant has this wall clock time. */
  ghost predicate Shown(z: Zone, n: int) { exists t :: ToLocal(z, t) == n }

  /** A wall clock time is shown at no instant exactly in the gap of a forward change. */
  lemma ShownUnlessGap(z: Zone, n: int)
    requires ProperZone(z)
    ensures Shown(z, n) <==> !InGap(z.near(n), n)
  {
    NonexistentIsGap(z, n);
    if !InGap(z.near(n), n) { assert ToLocal(z, ToUtc(z, n, 0)) == n; }
    if t :| ToLocal(z, t) == n {
      OffsetBounded(z, t);
      assert ProperAt(z, n);
      assert z.offset(t) == OffsetBy(z.near(n), t);
    }
  }

  /** The start at wall clock time n: the first instant at which the clock reads n or later,
      and under the skip policy only if it ever reads n. */
  ghost predicate StartsAt(z: Zone, n: int, policy: GapPolicy, t: Instant) {
    FirstReached(z, n, t) && (policy == SkipStart ==> Shown(z, n))
  }

  /** The gap around n, if any, is on whole minutes, and n does not overshoot it. */
  ghost predicate Findable(z: Zone, n: int) {
    var c := z.near(n);
    InGap(c, n) ==> MinuteAligned(c) && !Overshoots(c, n)
  }

  lemma ResolvedExactly(z: Zone, n: int, policy: GapPolicy, t: Instant)
    requires ProperZone(z) && Findable(z, n)
    ensures ResolveLocalStart(z, n, policy) == Some(t) <==> StartsAt(z, n, policy, t)
  {
    ResolvesToFirstReached(z, n);
    NonexistentIsGap(z, n);
    ShownUnlessGap(z, n);
    var r := ResolveLocalStart(z, n, ShiftForward).value;
    assert policy == SkipStart && InGap(z.near(n), n) ==> ResolveLocalStart(z, n, policy) == None;
    assert !(policy == SkipStart && InGap(z.near(n), n)) ==> ResolveLocalStart(z, n, policy) == Some(r);
    hide ResolveLocalStart, ProperZone, ToLocal;
  }

  // ---------------------------------------------------------------------
  // The expansion

  /** A start of the program falls on a named day in season, inside the window, and not before
      the schedule was last changed. */
  ghost predicate StartOn(
    p: RecurringProgram, at: Place, from: Instant, until: Instant, day: int, start: StartTime, t: Instant)
  {
    && start in p.starts && InSeason(p.rule, at.calendar, day) && NamedDay(p.rule, at.calendar, day)
    && from <= t && t < until && (p.scheduleUpdatedAt.None? || p.scheduleUpdatedAt.value <= t)
  }

  /** An expansion holds exactly the starts of the days that the rule names. */
  lemma ExpansionByRule(p: RecurringProgram, at: Place, from: Instant, until: Instant, starts: seq<Instant>)
    requires IsExpansion(p, at, from, until, starts)
    ensures forall t :: t in starts <==>
      p.enabled && exists day, start ::
        StartOn(p, at, from, until, day, start, t) && ResolveStart(p, at, day, start) == Some(t)
  {
    hide DateQualifies, InSeason, NamedDay, ResolveStart;
    forall day, start, t
      ensures Due(p, at, from, until, day, start, t) <==>
        StartOn(p, at, from, until, day, start, t) && ResolveStart(p, at, day, start) == Some(t)
    {
      QualifiesIsNamed(p.rule, at.calendar, day);
    }
  }

  /** All starts are clock times that can be found. */
  ghost predicate ClockStarts(p: RecurringProgram, z: Zone) {
    forall start, day :: start in p.starts ==> start.Clock? && FindableOn(z, day, start)
  }

  ghost predicate FindableOn(z: Zone, day: int, start: StartTime) {
    start.Clock? ==> Findable(z, day * DAY + start.at)
  }

  /** For clock starts, the same on the wall clock: on each day that the rule names, the program
      starts at the first instant at which the clock reads the time or later. */
  lemma ExpansionOnTheClock(p: RecurringProgram, at: Place, from: Instant, until: Instant, starts: seq<Instant>)
    requires ProperZone(at.zone) && ClockStarts(p, at.zone) && IsExpansion(p, at, from, until, starts)
    ensures forall t :: t in starts <==>
      p.enabled && exists day, start ::
        && StartOn(p, at, from, until, day, start, t) && start.Clock?
        && StartsAt(at.zone, day * DAY + start.at, p.rule.gapPolicy, t)
  {
    ExpansionByRule(p, at, from, until, starts);
    hide ProperZone, StartsAt, ResolveLocalStart, IsExpansion, InSeason, NamedDay;
    forall day, start, t | StartOn(p, at, from, until, day, start, t)
      ensures start.Clock?
      ensures ResolveStart(p, at, day, start) == Some(t) <==>
        StartsAt(at.zone, day * DAY + start.at, p.rule.gapPolicy, t)
    {
      assert FindableOn(at.zone, day, start);
      ResolvedExactly(at.zone, day * DAY + start.at, p.rule.gapPolicy, t);
    }
  }

  /** What an odd-day and an even-day program with the same starts hold together is what one
      that runs on every day of the season holds. */
  lemma OddAndEvenShare(
    p: RecurringProgram, at: Place, from: Instant, until: Instant, odd: seq<Instant>, even: seq<Instant>)
    requires p.rule.kind == OddDays && IsExpansion(p, at, from, until, odd)
    requires IsExpansion(p.(rule := p.rule.(kind := EvenDays)), at, from, until, even)
    ensures forall t :: t in odd || t in even <==>
      p.enabled && from <= t < until && (p.scheduleUpdatedAt.None? || p.scheduleUpdatedAt.value <= t)
      && exists day, start ::
           start in p.starts && InSeason(p.rule, at.calendar, day) && ResolveStart(p, at, day, start) == Some(t)
  {
    var q := p.(rule := p.rule.(kind := EvenDays));
    ExpansionByRule(p, at, from, until, odd);
    ExpansionByRule(q, at, from, until, even);
    forall day, start ensures ResolveStart(q, at, day, start) == ResolveStart(p, at, day, start)
      && (InSeason(q.rule, at.calendar, day) <==> InSeason(p.rule, at.calendar, day))
      && (NamedDay(p.rule, at.calendar, day) || NamedDay(q.rule, at.calendar, day))
    {
      Halves(at.calendar.dayOfMonth(day));
      hide ResolveLocalStart;
    }
    hide ResolveStart, InSeason, NamedDay, IsExpansion;
    forall t | p.enabled && from <= t < until && (p.scheduleUpdatedAt.None? || p.scheduleUpdatedAt.value <= t)
      && exists day, start ::
           start in p.starts && InSeason(p.rule, at.calendar, day) && ResolveStart(p, at, day, start) == Some(t)
      ensures t in odd || t in even
    {
      var day, start :|
        start in p.starts && InSeason(p.rule, at.calendar, day) && ResolveStart(p, at, day, start) == Some(t);
      assert StartOn(p, at, from, until, day, start, t) || StartOn(q, at, from, until, day, start, t);
    }
  }
}
