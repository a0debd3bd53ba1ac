/** The proleptic Gregorian calendar of Python's datetime, counted in microseconds of local time. */
module Calendar {
  const Minute: nat := 60_000_000
  const Day: nat := 1440 * Minute

  datatype Date = Date(year: nat, month: nat, day: nat)

  function DayOf(t: nat): nat { t / Day }

  function HourOf(t: nat): nat { t % Day / (60 * Minute) }

  function MinuteOf(t: nat): nat { t / Minute % 60 }

  /** Day 0 is 1 January of year 1, a Monday. */
  function Weekday(day: nat): nat { day % 7 }

  function AtClock(day: nat, hour: nat, minute: nat): nat {
    day * Day + (hour * 60 + minute) * Minute
  }

  predicate Leap(year: nat) {
    year % 4 == 0 && (year % 100 != 0 || year % 400 == 0)
  }

  function MonthLength(year: nat, month: nat): (r: nat)
    ensures 28 <= r <= 31
  {
    if month == 2 then (if Leap(year) then 29 else 28)
    else if month in {4, 6, 9, 11} then 30
    else 31
  }

  predicate IsMonth(year: nat, month: nat) {
    1 <= year && 1 <= month <= 12
  }

  function NextYear(year: nat, month: nat): nat {
    if month == 12 then year + 1 else year
  }

  function NextMonth(month: nat): nat {
    if month == 12 then 1 else month + 1
  }

  function DateFrom(year: nat, month: nat, n: nat): Date
    requires IsMonth(year, month)
    decreases n
  {
    if n < MonthLength(year, month) then Date(year, month, n + 1)
    else DateFrom(NextYear(year, month), NextMonth(month), n - MonthLength(year, month))
  }

  /** The date of a day number. */
  function DateOf(day: nat): Date {
    DateFrom(1, 1, day)
  }

  /** The day number of the first of a month. */
  function MonthFirst(year: nat, month: nat): nat
    requires IsMonth(year, month)
    decreases year, month
  {
    if month > 1 then MonthFirst(year, month - 1) + MonthLength(year, month - 1)
    else if year > 1 then MonthFirst(year - 1, 12) + MonthLength(year - 1, 12)
    else 0
  }

  lemma {:induction false} DateFromFirst(year: nat, month: nat, n: nat)
    requires IsMonth(year, month)
    ensures DateOf(MonthFirst(year, month) + n) == DateFrom(year, month, n)
    decreases year, month
  {
    if month > 1 {
      DateFromFirst(year, month - 1, n + MonthLength(year, month - 1));
    } else if year > 1 {
      DateFromFirst(year - 1, 12, n + MonthLength(year - 1, 12));
    }
  }

  lemma {:induction false} DateFromBack(year: nat, month: nat, n: nat)
    requires IsMonth(year, month)
    ensures var r := DateFrom(year, month, n);
      && IsMonth(r.year, r.month) && 1 <= r.day <= MonthLength(r.year, r.month)
      && MonthFirst(year, month) + n == MonthFirst(r.year, r.month) + r.day - 1
    decreases n
  {
    if n >= MonthLength(year, month) {
      DateFromBack(NextYear(year, month), NextMonth(month), n - MonthLength(year, month));
    }
  }

  lemma DateOfParts(day: nat)
    ensures var r := DateOf(day);
      && IsMonth(r.year, r.month) && 1 <= r.day <= MonthLength(r.year, r.month)
      && day == MonthFirst(r.year, r.month) + r.day - 1
  {
    DateFromBack(1, 1, day);
  }

  lemma DateGives(day: nat, year: nat, month: nat, d: nat)
    requires IsMonth(year, month) && DateOf(day) == Date(year, month, d)
    ensures day == MonthFirst(year, month) + d - 1
  {
    DateOfParts(day);
  }

  lemma GivesDate(day: nat, year: nat, month: nat, d: nat)
    requires IsMonth(year, month) && 1 <= d <= MonthLength(year, month)
    requires day == MonthFirst(year, month) + d - 1
    ensures DateOf(day) == Date(year, month, d)
  {
    DateFromFirst(year, month, d - 1);
    DateFromWithin(year, month, d - 1);
  }

  /** The d-th day of a month. */
  ghost predicate IsDay(day: nat, year: nat, month: nat, d: nat)
    requires IsMonth(year, month)
  {
    day == MonthFirst(year, month) + d - 1
  }

  /** A day has the date (year, month, d) exactly when it is d - 1 days after the first of that month. */
  lemma DateIff(day: nat, year: nat, month: nat, d: nat)
    requires IsMonth(year, month) && 1 <= d <= MonthLength(year, month)
    ensures DateOf(day) == Date(year, month, d) <==> IsDay(day, year, month, d)
  {
    if DateOf(day) == Date(year, month, d) {
      DateGives(day, year, month, d);
    }
    if IsDay(day, year, month, d) {
      GivesDate(day, year, month, d);
    }
  }

  lemma DateFromWithin(year: nat, month: nat, n: nat)
    requires IsMonth(year, month) && n < MonthLength(year, month)
    ensures DateFrom(year, month, n) == Date(year, month, n + 1)
  {
  }

  /** Fourth years but not hundredth ones, unless they are 400th, up to and including `n`. */
  function LongYears(n: nat): int { n / 4 - n / 100 + n / 400 }

  /** How many days of a year of 365 days lie before a month. */
  const DaysBefore: seq<nat> := [0, 31, 59, 90, 120, 151, 181, 212, 243, 273, 304, 334]

  lemma NextQuotients(n: nat)
    ensures (n + 1) / 4 == n / 4 + if (n + 1) % 4 == 0 then 1 else 0
    ensures (n + 1) / 100 == n / 100 + if (n + 1) % 100 == 0 then 1 else 0
    ensures (n + 1) / 400 == n / 400 + if (n + 1) % 400 == 0 then 1 else 0
  {
  }

  lemma Fourfold(m: nat)
    ensures 4 * m % 4 == 0
  {
  }

  lemma Hundredfold(m: nat)
    ensures 100 * m % 100 == 0
  {
  }

  lemma HundredthIsFourth(n: nat)
    ensures n % 100 == 0 ==> n % 4 == 0
    ensures n % 400 == 0 ==> n % 100 == 0
  {
    Fourfold(25 * (n / 100));
    Hundredfold(4 * (n / 400));
  }

  lemma OneMoreLongYear(n: nat)
    ensures LongYears(n + 1) - LongYears(n) == MonthLength(n + 1, 2) - 28
  {
    NextQuotients(n);
    HundredthIsFourth(n + 1);
  }

  lemma MonthsWithin(year: nat, month: nat)
    requires IsMonth(year, month)
    ensures MonthFirst(year, month) == MonthFirst(year, 1) + DaysBefore[month - 1] + if month > 2 then MonthLength(year, 2) - 28 else 0
  {
    if month > 1 {
      MonthsWithin(year, month - 1);
    }
  }

  /** The year begins after 365 days for each year before, and one more for each fourth, but not each hundredth unless each 400th. */
  lemma {:induction false} YearFirstIs(year: nat)
    requires 1 <= year
    ensures MonthFirst(year, 1) == 365 * (year - 1) + (year - 1) / 4 - (year - 1) / 100 + (year - 1) / 400
  {
    if year > 1 {
      YearFirstIs(year - 1);
      MonthsWithin(year - 1, 12);
      OneMoreLongYear(year - 2);
    }
  }

  /** The whole calendar in closed form: where each month begins, in days from 1 January of year 1. */
  lemma MonthFirstIs(year: nat, month: nat)
    requires IsMonth(year, month)
    ensures MonthFirst(year, month) ==
      365 * (year - 1) + (year - 1) / 4 - (year - 1) / 100 + (year - 1) / 400
      + [0, 31, 59, 90, 120, 151, 181, 212, 243, 273, 304, 334][month - 1]
      + if month > 2 && year % 4 == 0 && (year % 100 != 0 || year % 400 == 0) then 1 else 0
  {
    YearFirstIs(year);
    MonthsWithin(year, month);
  }

  /** A known day: 1 January 2000 is day 730119, a Saturday, and half past twelve that day is so many microseconds from the start. */
  lemma KnownDay()
    ensures DateOf(730119) == Date(2000, 1, 1) && Weekday(730119) == 5
    ensures AtClock(730119, 12, 30) == 63_082_326_600_000_000
  {
    YearFirstIs(2000);
    GivesDate(730119, 2000, 1, 1);
  }

  predicate DayIn(day: nat, year: nat, month: nat)
    requires IsMonth(year, month)
  {
    MonthFirst(year, month) <= day < MonthFirst(year, month) + MonthLength(year, month)
  }

  lemma NextFirst(year: nat, month: nat)
    requires IsMonth(year, month)
    ensures MonthFirst(NextYear(year, month), NextMonth(month)) == MonthFirst(year, month) + MonthLength(year, month)
  {
  }

  /** The days of a month have that year and month in their date. */
  lemma InMonth(day: nat, year: nat, month: nat)
    requires IsMonth(year, month) && DayIn(day, year, month)
    ensures DateOf(day).year == year && DateOf(day).month == month
  {
    DateFromFirst(year, month, day - MonthFirst(year, month));
  }

  lemma InDay(day: nat, rest: nat)
    requires rest < Day
    ensures (day * Day + rest) / Day == day && (day * Day + rest) % Day == rest
  {
  }

  lemma InHour(hour: nat, rest: nat)
    requires rest < 60 * Minute
    ensures (hour * (60 * Minute) + rest) / (60 * Minute) == hour
  {
  }

  lemma WholeMinutes(minutes: nat)
    ensures minutes * Minute / Minute == minutes && minutes * Minute % Minute == 0
  {
  }

  lemma InSixty(hours: nat, minute: nat)
    requires minute < 60
    ensures (hours * 60 + minute) % 60 == minute
  {
  }

  lemma ClockParts(day: nat, hour: nat, minute: nat)
    requires hour < 24 && minute < 60
    ensures var t := AtClock(day, hour, minute);
      t % Minute == 0 && DayOf(t) == day && HourOf(t) == hour && MinuteOf(t) == minute
  {
    var t, m := AtClock(day, hour, minute), hour * 60 + minute;
    InDay(day, m * Minute);
    WholeMinutes(day * 1440 + m);
    InHour(hour, minute * Minute);
    InSixty(day * 24 + hour, minute);
    assert t == (day * 1440 + m) * Minute;
    assert m * Minute == hour * (60 * Minute) + minute * Minute;
    assert day * 1440 + m == (day * 24 + hour) * 60 + minute;
  }

  lemma PartsClock(t: nat)
    requires t % Minute == 0
    ensures HourOf(t) < 24 && MinuteOf(t) < 60
    ensures t == AtClock(DayOf(t), HourOf(t), MinuteOf(t))
  {
    var minutes := t / Minute;
    var day, clock := minutes / 1440, minutes % 1440;
    assert minutes == day * 1440 + clock && clock == clock / 60 * 60 + clock % 60;
    assert t == AtClock(day, clock / 60, clock % 60);
    ClockParts(day, clock / 60, clock % 60);
  }
}
