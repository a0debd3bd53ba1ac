/** Scan schedules in a zone of fixed offset: the next occurrence, and catching up after downtime. */
module Schedule {
  import opened Options
  import opened Extremes
  import opened Calendar

  datatype Cron = Cron(minutes: set<nat>, hours: set<nat>, days: set<nat>, months: set<nat>, weekdays: set<nat>)

  datatype Plan =
    | Manual
    | Interval(minutes: nat)
    | Daily(hour: nat, minute: nat)
    | Weekly(weekday: nat, hour: nat, minute: nat)
    | Monthly(day: nat, hour: nat, minute: nat)
    | CronPlan(cron: Cron)

  /** What normalize_schedule_config admits. */
  predicate ValidPlan(p: Plan) {
    match p
    case Manual => true
    case Interval(m) => m > 0
    case Daily(h, m) => h < 24 && m < 60
    case Weekly(w, h, m) => w < 7 && h < 24 && m < 60
    case Monthly(d, h, m) => 1 <= d <= 31 && h < 24 && m < 60
    case CronPlan(_) => true
  }

  predicate CronHas(c: Cron, t: nat) {
    var date := DateOf(DayOf(t));
    && date.month in c.months && date.day in c.days
    && HourOf(t) in c.hours && MinuteOf(t) in c.minutes && Weekday(DayOf(t)) in c.weekdays
  }

  /** The local instants a calendar schedule names; a monthly day past the end of a month means its last day. */
  predicate Scheduled(p: Plan, t: nat) {
    t % Minute == 0
    && match p
       case Manual => false
       case Interval(_) => false
       case Daily(h, m) => HourOf(t) == h && MinuteOf(t) == m
       case Weekly(w, h, m) => HourOf(t) == h && MinuteOf(t) == m && Weekday(DayOf(t)) == w
       case Monthly(d, h, m) =>
         var date := DateOf(DayOf(t));
         HourOf(t) == h && MinuteOf(t) == m && date.day == MinNat(d, MonthLength(date.year, date.month))
       case CronPlan(c) => CronHas(c, t)
  }

  /** No scheduled instant lies strictly between the two. */
  ghost predicate NoneBetween(p: Plan, after: nat, before: nat) {
    forall t: nat :: after < t < before ==> !Scheduled(p, t)
  }

  ghost predicate Least(p: Plan, after: nat, t: nat) {
    after < t && Scheduled(p, t) && NoneBetween(p, after, t)
  }

  /** A scheduled instant is the schedule's clock time on its own day. */
  lemma OnItsDay(p: Plan, t: nat)
    requires Scheduled(p, t) && (p.Daily? || p.Weekly? || p.Monthly?)
    ensures t == AtClock(DayOf(t), p.hour, p.minute)
  {
    PartsClock(t);
  }

  lemma DayBounds(t: nat)
    ensures DayOf(t) * Day <= t < (DayOf(t) + 1) * Day
  {
  }

  lemma DayOrder(t: nat, u: nat)
    requires t <= u
    ensures DayOf(t) <= DayOf(u)
  {
    DayBounds(t);
    DayBounds(u);
  }

  /** _next_clock */
  method NextClock(after: nat, hour: nat, minute: nat) returns (r: nat)
    requires hour < 24 && minute < 60
    ensures Least(Daily(hour, minute), after, r)
  {
    ghost var p := Daily(hour, minute);
    var today := DayOf(after);
    r := AtClock(today, hour, minute);
    if r <= after {
      r := AtClock(today + 1, hour, minute);
    }
    ClockParts(today, hour, minute);
    ClockParts(today + 1, hour, minute);
    DayBounds(after);
    forall t: nat | after < t < r ensures !Scheduled(p, t) {
      if Scheduled(p, t) {
        OnItsDay(p, t);
        DayOrder(after, t);
        DayOrder(t, r);
      }
    }
  }

  lemma SameWeekday(day: nat, other: nat)
    requires Weekday(day) == Weekday(other) && day - 7 < other <= day + 7
    ensures other == day || other == day + 7
  {
  }

  lemma WeeklyNone(p: Plan, after: nat, day: nat, today: nat)
    requires p.Weekly? && ValidPlan(p) && today == DayOf(after)
    requires today <= day < today + 7 && Weekday(day) == p.weekday
    ensures NoneBetween(p, after, AtClock(day, p.hour, p.minute))
    ensures AtClock(day, p.hour, p.minute) <= after ==> NoneBetween(p, after, AtClock(day + 7, p.hour, p.minute))
  {
    ClockParts(day, p.hour, p.minute);
    ClockParts(day + 7, p.hour, p.minute);
    forall t: nat | after < t < AtClock(day + 7, p.hour, p.minute) && Scheduled(p, t)
      ensures t == AtClock(day, p.hour, p.minute)
    {
      OnItsDay(p, t);
      DayOrder(after, t);
      DayOrder(t, AtClock(day + 7, p.hour, p.minute));
      SameWeekday(day, DayOf(t));
    }
  }

  function DaysAhead(weekday: nat, day: nat): nat {
    (weekday + 7 - Weekday(day)) % 7
  }

  /** Midnight of the next day, moved on to the weekday wanted. */
  function LaterProbe(probe: nat, weekday: nat): nat {
    AtClock(DayOf(probe) + 1 + DaysAhead(weekday, DayOf(probe) + 1), 0, 0)
  }

  lemma Mod7(weeks: nat, rest: nat)
    requires rest < 7
    ensures (7 * weeks + rest) % 7 == rest
  {
  }

  lemma WeekArithmetic(weekday: nat, day: nat)
    requires weekday < 7
    ensures Weekday(day + DaysAhead(weekday, day)) == weekday
    ensures DaysAhead(weekday, day) == 0 ==> DaysAhead(weekday, day + 1) == 6
  {
    var q, r := day / 7, day % 7;
    if weekday >= r {
      Mod7(1, weekday - r);
      assert DaysAhead(weekday, day) == weekday - r;
      Mod7(q, weekday);
    } else {
      assert DaysAhead(weekday, day) == weekday + 7 - r;
      Mod7(q + 1, weekday);
    }
    if weekday == r {
      if r == 6 {
        Mod7(q + 1, 0);
      } else {
        Mod7(q, r + 1);
      }
      assert DaysAhead(weekday, day + 1) == 6;
    }
  }

  lemma NotBefore(after: nat, day: nat, hour: nat, minute: nat)
    requires hour < 24 && minute < 60 && AtClock(day, hour, minute) <= after
    ensures day <= DayOf(after)
  {
    ClockParts(day, hour, minute);
    DayOrder(AtClock(day, hour, minute), after);
  }

  /** The first probe falls on the weekday, and is the answer unless it has passed. */
  lemma FirstProbe(p: Plan, after: nat)
    requires p.Weekly? && ValidPlan(p)
    ensures var first := AtClock(DayOf(after) + DaysAhead(p.weekday, DayOf(after)), p.hour, p.minute);
      Weekday(DayOf(first)) == p.weekday && (first > after ==> Least(p, after, first))
  {
    var day := DayOf(after) + DaysAhead(p.weekday, DayOf(after));
    WeekArithmetic(p.weekday, DayOf(after));
    ClockParts(day, p.hour, p.minute);
    WeeklyNone(p, after, day, DayOf(after));
  }

  /** A first probe that has passed was today, and the next probe, a week later, is the answer. */
  lemma SecondProbe(p: Plan, after: nat)
    requires p.Weekly? && ValidPlan(p)
    requires AtClock(DayOf(after) + DaysAhead(p.weekday, DayOf(after)), p.hour, p.minute) <= after
    ensures Least(p, after, AtClock(DayOf(LaterProbe(after, p.weekday)), p.hour, p.minute))
  {
    var today := DayOf(after);
    WeekArithmetic(p.weekday, today);
    NotBefore(after, today + DaysAhead(p.weekday, today), p.hour, p.minute);
    ProbeDay(after, p.weekday);
    ClockParts(today + 7, p.hour, p.minute);
    WeeklyNone(p, after, today, today);
    WeekMax(today);
    LaterDay(after, today + 7, p.hour, p.minute);
  }

  lemma WeekMax(day: nat)
    ensures Weekday(day + 7) == Weekday(day)
  {
  }

  lemma ProbeDay(after: nat, weekday: nat)
    requires weekday < 7 && DaysAhead(weekday, DayOf(after)) == 0
    ensures DayOf(LaterProbe(after, weekday)) == DayOf(after) + 7
  {
    WeekArithmetic(weekday, DayOf(after));
    ClockParts(DayOf(after) + 7, 0, 0);
  }

  lemma LaterDay(after: nat, day: nat, hour: nat, minute: nat)
    requires hour < 24 && minute < 60 && day > DayOf(after)
    ensures AtClock(day, hour, minute) > after
  {
    if AtClock(day, hour, minute) <= after {
      NotBefore(after, day, hour, minute);
    }
  }

  /** _next_weekly: the fourteen probes are never exhausted. */
  method NextWeekly(after: nat, weekday: nat, hour: nat, minute: nat) returns (r: Option<nat>)
    requires weekday < 7 && hour < 24 && minute < 60
    ensures r.Some? && Least(Weekly(weekday, hour, minute), after, r.value)
  {
    ghost var p := Weekly(weekday, hour, minute);
    var ahead := DaysAhead(weekday, DayOf(after));
    var probe: nat := after;
    FirstProbe(p, after);
    for i := 0 to 14
      invariant i <= 1
      invariant i == 0 ==> probe == after
      invariant i == 1 ==> Least(p, after, AtClock(DayOf(probe), hour, minute))
    {
      var day := if i == 0 then DayOf(probe) + ahead else DayOf(probe);
      var candidate := AtClock(day, hour, minute);
      if candidate > after && Weekday(DayOf(candidate)) == weekday {
        return Some(candidate);
      }
      SecondProbe(p, after);
      probe := LaterProbe(probe, weekday);
    }
    return None;
  }

  // ---------------------------------------------------------------- monthly

  function MonthlyAt(year: nat, month: nat, day: nat, hour: nat, minute: nat): nat
    requires IsMonth(year, month) && day >= 1
  {
    AtClock(MonthFirst(year, month) + MinNat(day, MonthLength(year, month)) - 1, hour, minute)
  }

  lemma MonthlyAtScheduled(p: Plan, year: nat, month: nat)
    requires p.Monthly? && ValidPlan(p) && IsMonth(year, month)
    ensures var t := MonthlyAt(year, month, p.day, p.hour, p.minute);
      Scheduled(p, t) && DayIn(DayOf(t), year, month)
  {
    var d := MinNat(p.day, MonthLength(year, month));
    ClockParts(MonthFirst(year, month) + d - 1, p.hour, p.minute);
    DateIff(MonthFirst(year, month) + d - 1, year, month, d);
  }

  /** A month holds no other scheduled instant. */
  lemma MonthlyOnly(p: Plan, year: nat, month: nat, t: nat)
    requires p.Monthly? && ValidPlan(p) && IsMonth(year, month) && Scheduled(p, t) && DayIn(DayOf(t), year, month)
    ensures t == MonthlyAt(year, month, p.day, p.hour, p.minute)
  {
    OnItsDay(p, t);
    InMonth(DayOf(t), year, month);
    DateOfParts(DayOf(t));
  }

  ghost predicate NoneBeforeDay(p: Plan, after: nat, day: nat) {
    forall t: nat :: after < t && DayOf(t) < day ==> !Scheduled(p, t)
  }

  /** One month's step: its own instant is the only one before the next month. */
  lemma MonthStep(p: Plan, after: nat, year: nat, month: nat)
    requires p.Monthly? && ValidPlan(p) && IsMonth(year, month) && NoneBeforeDay(p, after, MonthFirst(year, month))
    ensures var t := MonthlyAt(year, month, p.day, p.hour, p.minute);
      && (after < t ==> Least(p, after, t))
      && (t <= after ==> NoneBeforeDay(p, after, MonthFirst(year, month) + MonthLength(year, month)))
  {
    var c := MonthlyAt(year, month, p.day, p.hour, p.minute);
    MonthlyAtScheduled(p, year, month);
    forall t: nat | after < t && DayOf(t) < MonthFirst(year, month) + MonthLength(year, month) && Scheduled(p, t)
      ensures t == c
    {
      MonthlyOnly(p, year, month, t);
    }
    forall t: nat | after < t < c ensures !Scheduled(p, t) {
      DayOrder(t, c);
    }
  }

  /** _next_monthly: the thirty-six months are never exhausted. */
  method NextMonthly(after: nat, day: nat, hour: nat, minute: nat) returns (r: Option<nat>)
    requires 1 <= day <= 31 && hour < 24 && minute < 60
    ensures r.Some? && Least(Monthly(day, hour, minute), after, r.value)
  {
    ghost var p := Monthly(day, hour, minute);
    DateOfParts(DayOf(after));
    var year, month := DateOf(DayOf(after)).year, DateOf(DayOf(after)).month;
    NoneYet(p, after, MonthFirst(year, month));
    for i := 0 to 36
      invariant IsMonth(year, month) && i <= 1
      invariant i == 0 ==> DayIn(DayOf(after), year, month)
      invariant i == 1 ==> DayOf(after) < MonthFirst(year, month)
      invariant NoneBeforeDay(p, after, MonthFirst(year, month))
    {
      var candidate := MonthlyAt(year, month, day, hour, minute);
      MonthlyAtScheduled(p, year, month);
      MonthStep(p, after, year, month);
      if candidate > after {
        return Some(candidate);
      }
      DayOrder(candidate, after);
      NextFirst(year, month);
      year, month := NextYear(year, month), NextMonth(month);
    }
    return None;
  }

  lemma NoneYet(p: Plan, after: nat, day: nat)
    requires day <= DayOf(after)
    ensures NoneBeforeDay(p, after, day)
  {
    forall t: nat | after < t ensures DayOf(after) <= DayOf(t) {
      DayOrder(after, t);
    }
  }

  // ---------------------------------------------------------------- cron

  const SearchMinutes: nat := 366 * 24 * 60

  function FloorMinute(t: nat): nat { t / Minute * Minute }

  /** No scheduled instant among the minutes that the cron search looks at. */
  ghost predicate Barren(p: Plan, after: nat) {
    NoneBetween(p, after, FloorMinute(after) + (SearchMinutes + 1) * Minute)
  }

  /** The search looks at 366 days of minutes after the one that is running. */
  lemma BarrenIff(p: Plan, after: nat)
    ensures Barren(p, after) <==>
      forall t: nat :: after < t < (after / 60_000_000 + 527_041) * 60_000_000 ==> !Scheduled(p, t)
  {
  }

  /** Between one whole minute and the next nothing else can be scheduled. */
  lemma NoneInMinute(p: Plan, after: nat, cursor: nat)
    requires NoneBetween(p, after, cursor) && cursor % Minute == 0 && !Scheduled(p, cursor)
    ensures NoneBetween(p, after, cursor + Minute)
  {
    forall t: nat | after < t < cursor + Minute ensures !Scheduled(p, t) {
      if t % Minute == 0 && t >= cursor {
        SameMinute(t, cursor);
      }
    }
  }

  lemma SameMinute(t: nat, cursor: nat)
    requires t % Minute == 0 && cursor % Minute == 0 && cursor <= t < cursor + Minute
    ensures t == cursor
  {
    assert t == t / Minute * Minute && cursor == cursor / Minute * Minute;
  }

  lemma FirstMinute(p: Plan, after: nat)
    ensures NoneBetween(p, after, FloorMinute(after) + Minute)
  {
    forall t: nat | after < t < FloorMinute(after) + Minute ensures t % Minute != 0 {
      if t % Minute == 0 {
        SameMinute(t, FloorMinute(after));
      }
    }
  }

  /** Advancing by a minute, a cursor stays on whole minutes after the starting time. */
  lemma NextCursor(after: nat, i: nat)
    ensures var cursor := FloorMinute(after) + Minute + i * Minute; cursor % Minute == 0 && cursor > after
  {
    var minutes := after / Minute + 1 + i;
    assert FloorMinute(after) + Minute + i * Minute == minutes * Minute;
    WholeMinutes(minutes);
  }

  /** _next_cron: the least matching minute after, or None exactly when the search window has none. */
  method NextCron(after: nat, c: Cron) returns (r: Option<nat>)
    ensures r.Some? ==> Least(CronPlan(c), after, r.value)
    ensures r.None? <==> Barren(CronPlan(c), after)
  {
    ghost var p := CronPlan(c);
    var cursor := FloorMinute(after) + Minute;
    FirstMinute(p, after);
    for i := 0 to SearchMinutes
      invariant cursor == FloorMinute(after) + Minute + i * Minute
      invariant NoneBetween(p, after, cursor)
    {
      NextCursor(after, i);
      if CronHas(c, cursor) {
        assert Scheduled(p, cursor) && cursor < FloorMinute(after) + (SearchMinutes + 1) * Minute;
        return Some(cursor);
      }
      NoneInMinute(p, after, cursor);
      cursor := cursor + Minute;
    }
    return None;
  }

  // ---------------------------------------------------------------- next occurrence and catching up

  datatype Outcome = Never | At(t: int) | NotFound

  /** An instant in UTC, read in the zone. */
  ghost predicate LeastUtc(p: Plan, offset: int, after: int, t: int) {
    after + offset >= 0 && t + offset >= 0 && Least(p, after + offset, t + offset)
  }

  ghost predicate BarrenUtc(p: Plan, offset: int, after: int) {
    p.CronPlan? && after + offset >= 0 && Barren(p, after + offset)
  }

  /** next_occurrence */
  method NextOccurrence(p: Plan, offset: int, after: int) returns (r: Outcome)
    requires ValidPlan(p) && after + offset >= 0
    ensures r.Never? <==> p.Manual?
    ensures r.NotFound? <==> BarrenUtc(p, offset, after)
    ensures p.Interval? ==> r == At(after + p.minutes * Minute)
    ensures r.At? && !p.Interval? ==> LeastUtc(p, offset, after, r.t)
  {
    var local := after + offset;
    match p
    case Manual => return Never;
    case Interval(minutes) => return At(after + minutes * Minute);
    case Daily(h, m) =>
      var t := NextClock(local, h, m);
      return At(t - offset);
    case Weekly(w, h, m) =>
      var t := NextWeekly(local, w, h, m);
      return At(t.value - offset);
    case Monthly(d, h, m) =>
      var t := NextMonthly(local, d, h, m);
      return At(t.value - offset);
    case CronPlan(c) =>
      var t := NextCron(local, c);
      return if t.Some? then At(t.value - offset) else NotFound;
  }

  ghost predicate OnGrid(step: int, due: int, k: nat, t: int) {
    k >= 1 && t == due + k * step
  }

  /** An occurrence from `due` up to `now` after which the search gives up. */
  ghost predicate Stuck(p: Plan, offset: int, due: int, now: int, u: int) {
    && due <= u <= Max(due, now) && BarrenUtc(p, offset, u)
    && (u == due || Scheduled(p, u + offset))
  }

  /**
   next_future_after_catchup: the loop ends; a calendar schedule yields the least scheduled instant
   after both times, an interval the least multiple after now; and it fails exactly when an
   occurrence on the way has nothing in its search window.
   */
  method NextAfterCatchup(p: Plan, offset: int, now: int, due: int) returns (r: Outcome)
    requires ValidPlan(p) && due + offset >= 0
    ensures r.Never? <==> p.Manual?
    ensures r.At? && p.Interval? ==> exists k :: OnGrid(p.minutes * Minute, due, k, r.t)
    ensures r.At? && p.Interval? ==> r.t > now && (r.t == due + p.minutes * Minute || r.t - p.minutes * Minute <= now)
    ensures r.At? && !p.Interval? ==> LeastUtc(p, offset, Max(due, now), r.t)
    ensures r.At? ==> r.t > due && r.t > now
    ensures r.NotFound? <==> exists u :: Stuck(p, offset, due, now, u)
  {
    ghost var last := due;
    ghost var k: nat := 1;
    r := NextOccurrence(p, offset, due);
    assert p.Interval? ==> OnGrid(p.minutes * Minute, due, k, r.t);
    while r.At? && r.t <= now
      invariant due <= last && (last == due || last <= now)
      invariant r.Never? <==> p.Manual?
      invariant r.At? ==> last < r.t
      invariant p.Interval? ==> r.At? && OnGrid(p.minutes * Minute, due, k, r.t)
      invariant p.Interval? ==> r.t == last + p.minutes * Minute
      invariant last == due || p.Interval? || Scheduled(p, last + offset)
      invariant r.At? && !p.Interval? ==> LeastUtc(p, offset, last, r.t)
      invariant r.NotFound? <==> BarrenUtc(p, offset, last)
      invariant forall u :: u < last ==> !Stuck(p, offset, due, now, u)
      decreases if r.At? then now - r.t else -1
    {
      forall u | u < r.t ensures !Stuck(p, offset, due, now, u) {
        if last < u && !p.Interval? && p.CronPlan? {
          assert u + offset >= 0 ==> !Scheduled(p, u + offset);
        }
      }
      last := r.t;
      k := k + 1;
      r := NextOccurrence(p, offset, r.t);
    }
    StuckBeyond(p, offset, due, now, last, r);
  }

  /** Past the last occurrence reached nothing up to `now` can be stuck. */
  lemma StuckBeyond(p: Plan, offset: int, due: int, now: int, last: int, r: Outcome)
    requires due <= last && (last == due || last <= now) && due + offset >= 0
    requires last == due || p.Interval? || Scheduled(p, last + offset)
    requires r.At? ==> r.t > now && last < r.t
    requires r.At? && !p.Interval? ==> LeastUtc(p, offset, last, r.t)
    requires r.NotFound? <==> BarrenUtc(p, offset, last)
    requires forall u :: u < last ==> !Stuck(p, offset, due, now, u)
    requires r.Never? ==> !p.CronPlan?
    ensures r.NotFound? <==> exists u :: Stuck(p, offset, due, now, u)
    ensures r.At? && !p.Interval? ==> LeastUtc(p, offset, Max(due, now), r.t)
  {
    if r.NotFound? {
      assert Stuck(p, offset, due, now, last);
    } else {
      forall u ensures !Stuck(p, offset, due, now, u) {
      }
    }
  }

  // ---------------------------------------------------------------- a schedule the search misses

  lemma TwelveMonths(year: nat)
    requires year >= 1
    ensures MonthFirst(year + 1, 1) == MonthFirst(year, 1) + (if Leap(year) then 366 else 365)
  {
    var leap := if Leap(year) then 1 else 0;
    assert MonthFirst(year, 3) == MonthFirst(year, 2) + 28 + leap;
    assert MonthFirst(year, 5) == MonthFirst(year, 4) + 30 == MonthFirst(year, 3) + 61;
    assert MonthFirst(year, 7) == MonthFirst(year, 6) + 30 == MonthFirst(year, 5) + 61;
    assert MonthFirst(year, 9) == MonthFirst(year, 8) + 31 == MonthFirst(year, 7) + 62;
    assert MonthFirst(year, 11) == MonthFirst(year, 10) + 31 == MonthFirst(year, 9) + 61;
    assert MonthFirst(year, 12) == MonthFirst(year, 11) + 30;
  }

  lemma {:induction false} YearsGrow(year: nat, later: nat)
    requires 1 <= year <= later
    ensures MonthFirst(later, 1) >= MonthFirst(year, 1) + 365 * (later - year)
  {
    if year < later {
      YearsGrow(year, later - 1);
      TwelveMonths(later - 1);
    }
  }

  /** 29 February at midnight, on any weekday. */
  function LeapDayCron(): Cron {
    Cron({0}, {0}, {29}, {2}, {0, 1, 2, 3, 4, 5, 6})
  }

  ghost predicate LeapMidnight(year: nat, t: nat) {
    year >= 1 && Leap(year) && t == AtClock(MonthFirst(year, 2) + 28, 0, 0)
  }

  lemma AnyWeekday(day: nat)
    ensures Weekday(day) in LeapDayCron().weekdays
  {
  }

  lemma LeapDayComes(year: nat, t: nat)
    requires LeapMidnight(year, t)
    ensures Scheduled(CronPlan(LeapDayCron()), t)
  {
    var day := MonthFirst(year, 2) + 28;
    ClockParts(day, 0, 0);
    DateIff(day, year, 2, 29);
    AnyWeekday(day);
  }

  lemma LeapDayOnly(t: nat)
    requires Scheduled(CronPlan(LeapDayCron()), t)
    ensures LeapMidnight(DateOf(DayOf(t)).year, t)
  {
    PartsClock(t);
    DateOfParts(DayOf(t));
  }

  function SearchEnd(after: nat): nat {
    FloorMinute(after) + (SearchMinutes + 1) * Minute
  }

  /** The search for 29 February fails exactly when no leap day begins between a time and the end of the window. */
  lemma LeapDayMissedIff(after: nat)
    ensures Barren(CronPlan(LeapDayCron()), after) <==>
      forall year: nat, t: nat :: LeapMidnight(year, t) ==> t <= after || t >= SearchEnd(after)
  {
    forall year: nat, t: nat | LeapMidnight(year, t) ensures Scheduled(CronPlan(LeapDayCron()), t) {
      LeapDayComes(year, t);
    }
    forall t: nat | Scheduled(CronPlan(LeapDayCron()), t) ensures LeapMidnight(DateOf(DayOf(t)).year, t) {
      LeapDayOnly(t);
    }
  }

  lemma WindowDays(after: nat)
    ensures SearchEnd(after) <= (DayOf(after) + 368) * Day
  {
    DayBounds(after);
  }

  lemma EarlierLeapDay(after: nat, year: nat, t: nat)
    requires LeapMidnight(year, t) && year < DateOf(DayOf(after)).year
    ensures t <= after
  {
    var now := DateOf(DayOf(after));
    DateOfParts(DayOf(after));
    FirstOfYear(now.year, now.month);
    YearsGrow(year + 1, now.year);
    TwelveMonths(year);
    FebruaryStarts(year);
    DayBounds(after);
  }

  lemma LaterLeapDate(day: nat, year: nat)
    requires var now := DateOf(day).year; year >= now + 2 && !Leap(now)
    ensures year >= 1 && MonthFirst(year, 2) + 28 >= day + 368
  {
    var now := DateOf(day);
    DateOfParts(day);
    BeforeNextYear(now.year, now.month, now.day);
    YearsGrow(now.year + 1, year);
    FebruaryStarts(year);
  }

  lemma LaterLeapDay(after: nat, year: nat, t: nat)
    requires LeapMidnight(year, t) && year >= DateOf(DayOf(after)).year + 2 && !Leap(DateOf(DayOf(after)).year)
    ensures t >= SearchEnd(after)
  {
    LaterLeapDate(DayOf(after), year);
    WindowDays(after);
  }

  lemma FebruaryStarts(year: nat)
    requires year >= 1
    ensures MonthFirst(year, 2) == MonthFirst(year, 1) + 31
  {
  }

  lemma {:induction false} FirstOfYear(year: nat, month: nat)
    requires IsMonth(year, month)
    ensures MonthFirst(year, 1) <= MonthFirst(year, month)
  {
    if month > 1 {
      FirstOfYear(year, month - 1);
    }
  }

  lemma {:induction false} BeforeNextYear(year: nat, month: nat, day: nat)
    requires IsMonth(year, month) && day <= MonthLength(year, month)
    ensures MonthFirst(year, month) + day <= MonthFirst(year + 1, 1)
    decreases 12 - month
  {
    NextFirst(year, month);
    if month < 12 {
      BeforeNextYear(year, month + 1, 0);
    }
  }

  /** In particular it fails from any time in a year that is not a leap year and is not followed by one. */
  lemma LeapDayMissed(after: nat)
    requires var year := DateOf(DayOf(after)).year; !Leap(year) && !Leap(year + 1)
    ensures Barren(CronPlan(LeapDayCron()), after)
  {
    forall year: nat, t: nat | LeapMidnight(year, t) ensures t <= after || t >= SearchEnd(after) {
      if year < DateOf(DayOf(after)).year {
        EarlierLeapDay(after, year, t);
      } else {
        LaterLeapDay(after, year, t);
      }
    }
    LeapDayMissedIff(after);
  }
}
