/**
 * The proleptic Gregorian calendar over epoch milliseconds, in UTC.
 *
 * Instants are integers counting milliseconds since 1970-01-01T00:00:00.000Z;
 * days are integers counting days since 1970-01-01. Dafny's `/` and `%` are
 * Euclidean, which for the positive divisors used here is floor division, so
 * instants before 1970 fall on the right day as well.
 */
module CivilCalendar {

  const MillisPerSecond: int := 1000
  const MillisPerMinute: int := 60000
  const MillisPerHour: int := 3600000
  const MillisPerDay: int := 86400000

  /** The day-of-week numbering of java.util.Calendar. */
  const SUNDAY: int := 1
  const MONDAY: int := 2

  datatype Date = Date(year: int, month: int, day: int)

  predicate IsLeapYear(y: int) {
    y % 4 == 0 && (y % 100 != 0 || y % 400 == 0)
  }

  function DaysInYear(y: int): int {
    if IsLeapYear(y) then 366 else 365
  }

  function DaysInMonth(y: int, m: int): (n: int)
    requires 1 <= m <= 12
    ensures 28 <= n <= 31
  {
    if m == 2 then (if IsLeapYear(y) then 29 else 28)
    else if m == 4 || m == 6 || m == 9 || m == 11 then 30
    else 31
  }

  /** Number of days of year y that lie before the first of month m (m = 13 stands for the next year). */
  function DaysBeforeMonth(y: int, m: int): int
    requires 1 <= m <= 13
  {
    [0, 31, 59, 90, 120, 151, 181, 212, 243, 273, 304, 334, 365][m - 1]
      + (if m > 2 && IsLeapYear(y) then 1 else 0)
  }

  lemma MonthLength(y: int, m: int)
    requires 1 <= m <= 12
    ensures DaysBeforeMonth(y, m + 1) == DaysBeforeMonth(y, m) + DaysInMonth(y, m)
    ensures DaysBeforeMonth(y, 1) == 0 && DaysBeforeMonth(y, 13) == DaysInYear(y)
  {
  }

  predicate ValidDate(dt: Date) {
    1 <= dt.month <= 12 && 1 <= dt.day <= DaysInMonth(dt.year, dt.month)
  }

  /** Leap years strictly before year y, counted from year 0 with the Gregorian rule. */
  function LeapYearsBefore(y: int): int {
    (y - 1) / 4 - (y - 1) / 100 + (y - 1) / 400
  }

  /** Days from 1970-01-01 to the first of January of year y (negative before 1970). */
  function DaysBeforeYear(y: int): int {
    365 * (y - 1970) + LeapYearsBefore(y) - LeapYearsBefore(1970)
  }

  /** Floor division by 4, 100 or 400 steps up by one exactly at the multiples. */
  lemma FloorStep4(y: int)
    ensures y / 4 - (y - 1) / 4 == if y % 4 == 0 then 1 else 0
  {
    var q, r := (y - 1) / 4, (y - 1) % 4;
    if r == 3 {
      assert y == 4 * (q + 1);
    } else {
      assert y == 4 * q + (r + 1);
    }
  }

  /** Quotient and remainder by 4 are the unique ones. */
  lemma Div4(n: int, q: int, r: int)
    requires n == 4 * q + r && 0 <= r < 4
    ensures n / 4 == q && n % 4 == r
  {
  }

  /** Quotient and remainder by 100 are the unique ones. */
  lemma Div100(n: int, q: int, r: int)
    requires n == 100 * q + r && 0 <= r < 100
    ensures n / 100 == q && n % 100 == r
  {
  }

  /** Quotient and remainder by 400 are the unique ones. */
  lemma Div400(n: int, q: int, r: int)
    requires n == 400 * q + r && 0 <= r < 400
    ensures n / 400 == q && n % 400 == r
  {
  }

  lemma FloorStep100(y: int)
    ensures y / 100 - (y - 1) / 100 == if y % 100 == 0 then 1 else 0
    ensures y % 100 == 0 ==> y % 4 == 0
  {
    var q, r := (y - 1) / 100, (y - 1) % 100;
    Div100(y - 1, q, r);
    if r == 99 {
      Div100(y, q + 1, 0);
      Div4(y, 25 * (q + 1), 0);
    } else {
      Div100(y, q, r + 1);
    }
  }

  lemma FloorStep400(y: int)
    ensures y / 400 - (y - 1) / 400 == if y % 400 == 0 then 1 else 0
    ensures y % 400 == 0 ==> y % 100 == 0
  {
    var q, r := (y - 1) / 400, (y - 1) % 400;
    Div400(y - 1, q, r);
    if r == 399 {
      Div400(y, q + 1, 0);
      Div100(y, 4 * (q + 1), 0);
    } else {
      Div400(y, q, r + 1);
    }
  }

  lemma {:induction false} YearLength(y: int)
    ensures DaysBeforeYear(y + 1) == DaysBeforeYear(y) + DaysInYear(y)
  {
    FloorStep4(y);
    FloorStep100(y);
    FloorStep400(y);
  }

  /** A year lasts 146097/400 days on average; DaysBeforeYear stays within two days of that. */
  lemma YearStartBounds(y: int)
    ensures 146097 * (y - 1970) - 607 < 400 * DaysBeforeYear(y) < 146097 * (y - 1970) + 593
  {
    var a, b, c := (y - 1) / 4, (y - 1) / 100, (y - 1) / 400;
    assert 4 * a <= y - 1 < 4 * a + 4;
    assert 100 * b <= y - 1 < 100 * b + 100;
    assert 400 * c <= y - 1 < 400 * c + 400;
    assert LeapYearsBefore(1970) == 477;
  }

  lemma YearStartMonotone(a: int, b: int)
    requires a < b
    ensures DaysBeforeYear(a) < DaysBeforeYear(b)
  {
    YearLength(a);
    if b > a + 1 {
      YearStartBounds(a + 1);
      YearStartBounds(b);
    }
  }

  /** The year in which day d falls. */
  function YearOfDay(d: int): (y: int)
    ensures DaysBeforeYear(y) <= d < DaysBeforeYear(y + 1)
  {
    var e := 1970 + (400 * d) / 146097;
    YearStartBounds(e - 1);
    YearStartBounds(e + 2);
    YearStartMonotone(e - 1, e);
    YearStartMonotone(e, e + 1);
    YearStartMonotone(e + 1, e + 2);
    if d < DaysBeforeYear(e) then e - 1
    else if d < DaysBeforeYear(e + 1) then e
    else e + 1
  }

  lemma YearOfDayUnique(d: int, y: int)
    requires DaysBeforeYear(y) <= d < DaysBeforeYear(y + 1)
    ensures YearOfDay(d) == y
  {
    var z := YearOfDay(d);
    if z < y {
      if z + 1 < y { YearStartMonotone(z + 1, y); }
    } else if y < z {
      if y + 1 < z { YearStartMonotone(y + 1, z); }
    }
  }

  /** The month (1..12) in which day-of-year doy (0-based) of year y falls. */
  function MonthOfDayOfYear(y: int, doy: int): (m: int)
    requires 0 <= doy < DaysInYear(y)
    ensures 1 <= m <= 12 && DaysBeforeMonth(y, m) <= doy < DaysBeforeMonth(y, m + 1)
  {
    var l := if IsLeapYear(y) then 1 else 0;
    if doy < 31 then 1
    else if doy < 59 + l then 2
    else if doy < 90 + l then 3
    else if doy < 120 + l then 4
    else if doy < 151 + l then 5
    else if doy < 181 + l then 6
    else if doy < 212 + l then 7
    else if doy < 243 + l then 8
    else if doy < 273 + l then 9
    else if doy < 304 + l then 10
    else if doy < 334 + l then 11
    else 12
  }

  lemma MonthOfDayOfYearUnique(y: int, doy: int, m: int)
    requires 1 <= m <= 12 && DaysBeforeMonth(y, m) <= doy < DaysBeforeMonth(y, m + 1)
    ensures 0 <= doy < DaysInYear(y) && MonthOfDayOfYear(y, doy) == m
  {
  }

  /** Days since 1970-01-01 of a calendar date. */
  function DaysFromCivil(dt: Date): int
    requires 1 <= dt.month <= 12
  {
    DaysBeforeYear(dt.year) + DaysBeforeMonth(dt.year, dt.month) + dt.day - 1
  }

  /** The calendar date of day d. */
  function CivilFromDays(d: int): (dt: Date)
    ensures ValidDate(dt) && DaysFromCivil(dt) == d
  {
    var y := YearOfDay(d);
    YearLength(y);
    var doy := d - DaysBeforeYear(y);
    var m := MonthOfDayOfYear(y, doy);
    MonthLength(y, m);
    Date(y, m, doy - DaysBeforeMonth(y, m) + 1)
  }

  /** Every valid calendar date is the date of exactly one day. */
  lemma {:induction false} CivilRoundTrip(dt: Date)
    requires ValidDate(dt)
    ensures CivilFromDays(DaysFromCivil(dt)) == dt
  {
    var d := DaysFromCivil(dt);
    MonthLength(dt.year, dt.month);
    YearLength(dt.year);
    assert DaysBeforeMonth(dt.year, dt.month + 1) <= DaysInYear(dt.year) by {
      MonthLength(dt.year, 12);
      assert DaysBeforeMonth(dt.year, 13) == DaysInYear(dt.year);
    }
    YearOfDayUnique(d, dt.year);
    MonthOfDayOfYearUnique(dt.year, d - DaysBeforeYear(dt.year), dt.month);
  }

  /** Days of the same month are consecutive: day k of a month follows the first by k - 1 days. */
  lemma DaysWithinMonth(dt: Date, k: int)
    requires 1 <= dt.month <= 12
    ensures DaysFromCivil(dt.(day := k)) == DaysFromCivil(dt.(day := 1)) + k - 1
  {
  }

  /** The n-th day counted from the first of a month (from 0) falls in that month, on day n + 1. */
  lemma DayInMonth(y: int, m: int, d: int)
    requires 1 <= m <= 12
    requires DaysFromCivil(Date(y, m, 1)) <= d < DaysFromCivil(Date(y, m, 1)) + DaysInMonth(y, m)
    ensures CivilFromDays(d) == Date(y, m, d - DaysFromCivil(Date(y, m, 1)) + 1)
  {
    var k := d - DaysFromCivil(Date(y, m, 1)) + 1;
    DaysWithinMonth(Date(y, m, 1), k);
    CivilRoundTrip(Date(y, m, k));
  }

  /** A valid date lies among the days of its year. */
  lemma DayWithinYear(dt: Date)
    requires ValidDate(dt)
    ensures DaysBeforeYear(dt.year) <= DaysFromCivil(dt) < DaysBeforeYear(dt.year) + DaysInYear(dt.year)
  {
    MonthLength(dt.year, dt.month);
    assert DaysBeforeMonth(dt.year, dt.month + 1) <= DaysInYear(dt.year) by {
      MonthLength(dt.year, 12);
    }
  }

  // ---- Instants and days ----

  function DayOf(t: int): int {
    t / MillisPerDay
  }

  function MillisOfDay(t: int): int {
    t % MillisPerDay
  }

  /** The calendar date on which instant t falls. */
  function DateOf(t: int): Date {
    CivilFromDays(DayOf(t))
  }

  /** java.util.Calendar.DAY_OF_WEEK of day d: SUNDAY = 1, MONDAY = 2, ..., SATURDAY = 7 (1970-01-01 was a Thursday). */
  function DayOfWeek(d: int): (w: int)
    ensures 1 <= w <= 7
  {
    (d + 4) % 7 + 1
  }

  /** Position of day d in its Monday-first week: Monday = 0, ..., Sunday = 6. */
  function WeekdayIndex(d: int): (i: int)
    ensures 0 <= i < 7
    ensures i == (DayOfWeek(d) + 5) % 7
  {
    (d + 3) % 7
  }

  /** The Monday that starts the Monday-first week containing day d. */
  function MondayOf(d: int): (r: int)
    ensures r <= d < r + 7
    ensures DayOfWeek(r) == MONDAY && DayOfWeek(r + 6) == SUNDAY
    ensures WeekdayIndex(r) == 0
  {
    d - WeekdayIndex(d)
  }

  lemma MondayOfWeekDay(d: int, k: int)
    requires 0 <= k < 7
    ensures MondayOf(MondayOf(d) + k) == MondayOf(d)
    ensures WeekdayIndex(MondayOf(d) + k) == k
  {
  }

  /** An instant lies within days a..b exactly when its day does. */
  lemma InstantInDays(t: int, a: int, b: int)
    ensures a * MillisPerDay <= t < (b + 1) * MillisPerDay <==> a <= DayOf(t) <= b
  {
    assert DayOf(t) * MillisPerDay <= t < DayOf(t) * MillisPerDay + MillisPerDay;
  }

  /** The instant h:mi:s.ms on day d. */
  function InstantOf(d: int, h: int, mi: int, s: int, ms: int): int {
    d * MillisPerDay + h * MillisPerHour + mi * MillisPerMinute + s * MillisPerSecond + ms
  }

  lemma InstantOfParts(d: int, h: int, mi: int, s: int, ms: int)
    requires 0 <= h < 24 && 0 <= mi < 60 && 0 <= s < 60 && 0 <= ms < 1000
    ensures DayOf(InstantOf(d, h, mi, s, ms)) == d
    ensures MillisOfDay(InstantOf(d, h, mi, s, ms)) == h * MillisPerHour + mi * MillisPerMinute + s * MillisPerSecond + ms
  {
    var r := h * MillisPerHour + mi * MillisPerMinute + s * MillisPerSecond + ms;
    assert 0 <= r < MillisPerDay;
    assert InstantOf(d, h, mi, s, ms) == d * MillisPerDay + r;
  }
}
