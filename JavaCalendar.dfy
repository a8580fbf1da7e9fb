/**
 * The part of java.util.Calendar that the date-range helpers use, for a UTC
 * calendar whose week starts on Monday: an instant split into a day number and
 * the time-of-day fields, and the `set`/`add`/`getActualMaximum`/`getTime`
 * operations that move it. Every `set` keeps the calendar normalised (Java's
 * lenient recomputation happens at once here).
 */
module JavaCalendar {
  import opened CivilCalendar

  /** Kotlin's `startDate..endDate`: an inclusive range of instants. */
  datatype Window = Window(start: int, end: int) {
    predicate Contains(t: int) {
      start <= t <= end
    }
  }

  /** The last instant of day d whose millisecond field is lastMillis: 23:59:59.lastMillis. */
  function EndOfDay(d: int, lastMillis: int): int {
    InstantOf(d, 23, 59, 59, lastMillis)
  }

  /** Monday 00:00:00.000 to Sunday 23:59:59.lastMillis of the Monday-first week containing anchor. */
  function WeekWindow(anchor: int, lastMillis: int): Window {
    var monday := MondayOf(DayOf(anchor));
    Window(InstantOf(monday, 0, 0, 0, 0), EndOfDay(monday + 6, lastMillis))
  }

  /** The first of month m of year y at 00:00:00.000 to its last day at 23:59:59.lastMillis. */
  function MonthWindowOf(y: int, m: int, lastMillis: int): Window
    requires 1 <= m <= 12
  {
    Window(InstantOf(DaysFromCivil(Date(y, m, 1)), 0, 0, 0, 0),
           EndOfDay(DaysFromCivil(Date(y, m, DaysInMonth(y, m))), lastMillis))
  }

  /** The month window of the month containing anchor. */
  function MonthWindow(anchor: int, lastMillis: int): Window {
    var dt := DateOf(anchor);
    MonthWindowOf(dt.year, dt.month, lastMillis)
  }

  /** January 1 00:00:00.000 to December 31 23:59:59.lastMillis of the year containing anchor. */
  function YearWindow(anchor: int, lastMillis: int): Window {
    var y := DateOf(anchor).year;
    Window(InstantOf(DaysBeforeYear(y), 0, 0, 0, 0), EndOfDay(DaysBeforeYear(y) + DaysInYear(y) - 1, lastMillis))
  }

  /** Calendar.add(MONTH, n) on a date: the month moves with year carry, the day is clamped to the new month's length. */
  function ShiftMonths(dt: Date, n: int): (r: Date)
    requires ValidDate(dt)
    ensures ValidDate(r)
    ensures r.year * 12 + r.month == dt.year * 12 + dt.month + n
    ensures r.day == if dt.day <= DaysInMonth(r.year, r.month) then dt.day else DaysInMonth(r.year, r.month)
  {
    var total := dt.year * 12 + (dt.month - 1) + n;
    var y, m := total / 12, total % 12 + 1;
    Date(y, m, if dt.day <= DaysInMonth(y, m) then dt.day else DaysInMonth(y, m))
  }

  /** The calendar fields of instant t: its day and its hour, minute, second and millisecond. */
  method SplitInstant(t: int) returns (d: int, h: int, mi: int, s: int, ms: int)
    ensures 0 <= h < 24 && 0 <= mi < 60 && 0 <= s < 60 && 0 <= ms < 1000
    ensures d == DayOf(t) && InstantOf(d, h, mi, s, ms) == t
  {
    d := t / MillisPerDay;
    var r := t % MillisPerDay;
    h := r / MillisPerHour;
    var rh := r % MillisPerHour;
    mi := rh / MillisPerMinute;
    var rm := rh % MillisPerMinute;
    s := rm / MillisPerSecond;
    ms := rm % MillisPerSecond;
    assert rh == mi * MillisPerMinute + s * MillisPerSecond + ms;
    assert r == h * MillisPerHour + rh;
    assert t == d * MillisPerDay + r;
  }

  class Calendar {
    /** Days since 1970-01-01 of the calendar's date. */
    var day: int
    var hour: int
    var minute: int
    var second: int
    var millisecond: int

    ghost predicate Valid()
      reads this
    {
      0 <= hour < 24 && 0 <= minute < 60 && 0 <= second < 60 && 0 <= millisecond < 1000
    }

    /** getTime(): the instant the calendar denotes. */
    function Time(): int
      reads this
    {
      InstantOf(day, hour, minute, second, millisecond)
    }

    /** The civil date the calendar's DAY_OF_MONTH, MONTH and YEAR fields hold. */
    function Fields(): Date
      reads this
    {
      CivilFromDays(day)
    }

    /** getActualMaximum(DAY_OF_MONTH). */
    function ActualMaximumDayOfMonth(): (n: int)
      reads this
      ensures 28 <= n <= 31
    {
      DaysInMonth(Fields().year, Fields().month)
    }

    /** getActualMaximum(DAY_OF_YEAR). */
    function ActualMaximumDayOfYear(): int
      reads this
    {
      DaysInYear(Fields().year)
    }

    /** Calendar.getInstance() at instant now (the wall clock is a parameter). */
    constructor (now: int)
      ensures Valid() && Time() == now && day == DayOf(now)
    {
      var d, h, mi, s, ms := SplitInstant(now);
      day, hour, minute, second, millisecond := d, h, mi, s, ms;
    }

    /** setTime(t). */
    method SetTime(t: int)
      modifies this
      ensures Valid() && Time() == t && day == DayOf(t)
    {
      var d, h, mi, s, ms := SplitInstant(t);
      day, hour, minute, second, millisecond := d, h, mi, s, ms;
    }

    /** set(DAY_OF_MONTH, k): same year and month, day k. */
    method SetDayOfMonth(k: int)
      requires Valid() && 1 <= k <= ActualMaximumDayOfMonth()
      modifies this
      ensures Valid() && Fields() == old(Fields()).(day := k)
      ensures day == DaysFromCivil(old(Fields()).(day := k))
      ensures hour == old(hour) && minute == old(minute) && second == old(second) && millisecond == old(millisecond)
    {
      var dt := Fields().(day := k);
      day := DaysFromCivil(dt);
      CivilRoundTrip(dt);
    }

    /** set(DAY_OF_YEAR, k): same year, its k-th day. */
    method SetDayOfYear(k: int)
      requires Valid() && 1 <= k <= ActualMaximumDayOfYear()
      modifies this
      ensures Valid() && day == DaysBeforeYear(old(Fields()).year) + k - 1
      ensures Fields().year == old(Fields()).year
      ensures hour == old(hour) && minute == old(minute) && second == old(second) && millisecond == old(millisecond)
    {
      var y := Fields().year;
      day := DaysBeforeYear(y) + k - 1;
      YearLength(y);
      YearOfDayUnique(day, y);
    }

    /** set(DAY_OF_WEEK, w) in a Monday-first week: the day of the current week whose DAY_OF_WEEK is w. */
    method SetDayOfWeek(w: int)
      requires Valid() && 1 <= w <= 7
      modifies this
      ensures Valid() && day == MondayOf(old(day)) + (w + 5) % 7
      ensures DayOfWeek(day) == w && MondayOf(day) == MondayOf(old(day))
      ensures hour == old(hour) && minute == old(minute) && second == old(second) && millisecond == old(millisecond)
    {
      day := MondayOf(day) + (w + 5) % 7;
      MondayOfWeekDay(old(day), (w + 5) % 7);
    }

    /** set(HOUR_OF_DAY, h). */
    method SetHourOfDay(h: int)
      requires Valid() && 0 <= h < 24
      modifies this`hour
      ensures Valid() && hour == h
    {
      hour := h;
    }

    /** set(MINUTE, mi). */
    method SetMinute(mi: int)
      requires Valid() && 0 <= mi < 60
      modifies this`minute
      ensures Valid() && minute == mi
    {
      minute := mi;
    }

    /** set(SECOND, s). */
    method SetSecond(s: int)
      requires Valid() && 0 <= s < 60
      modifies this`second
      ensures Valid() && second == s
    {
      second := s;
    }

    /** set(MILLISECOND, ms). */
    method SetMillisecond(ms: int)
      requires Valid() && 0 <= ms < 1000
      modifies this`millisecond
      ensures Valid() && millisecond == ms
    {
      millisecond := ms;
    }

    /** add(MONTH, n): time of day kept, month shifted, day clamped. */
    method AddMonths(n: int)
      requires Valid()
      modifies this`day
      ensures Valid() && Fields() == ShiftMonths(old(Fields()), n)
    {
      var dt := ShiftMonths(Fields(), n);
      day := DaysFromCivil(dt);
      CivilRoundTrip(dt);
    }
  }

  // ---- What the three windows are ----

  /** The week window runs from a Monday at midnight to the following Sunday at 23:59:59.lastMillis and holds the anchor's day. */
  lemma WeekWindowShape(anchor: int, lastMillis: int)
    requires 0 <= lastMillis < 1000
    ensures var w := WeekWindow(anchor, lastMillis);
      && DayOfWeek(DayOf(w.start)) == MONDAY && MillisOfDay(w.start) == 0
      && DayOfWeek(DayOf(w.end)) == SUNDAY && MillisOfDay(w.end) == 86399000 + lastMillis
      && DayOf(w.end) == DayOf(w.start) + 6
      && DayOf(w.start) <= DayOf(anchor) <= DayOf(w.end)
      && w.start <= anchor && w.start < w.end
  {
    var monday := MondayOf(DayOf(anchor));
    InstantOfParts(monday, 0, 0, 0, 0);
    InstantOfParts(monday + 6, 23, 59, 59, lastMillis);
    assert anchor >= DayOf(anchor) * MillisPerDay;
  }

  /** The month window runs from the first of the anchor's month at midnight to its last day at 23:59:59.lastMillis. */
  lemma MonthWindowShape(anchor: int, lastMillis: int)
    requires 0 <= lastMillis < 1000
    ensures var w, dt := MonthWindow(anchor, lastMillis), DateOf(anchor);
      && DateOf(w.start) == Date(dt.year, dt.month, 1) && MillisOfDay(w.start) == 0
      && DateOf(w.end) == Date(dt.year, dt.month, DaysInMonth(dt.year, dt.month))
      && MillisOfDay(w.end) == 86399000 + lastMillis
      && DayOf(w.start) <= DayOf(anchor) <= DayOf(w.end)
      && w.start <= anchor && w.start < w.end
  {
    var dt := DateOf(anchor);
    var first, last := dt.(day := 1), dt.(day := DaysInMonth(dt.year, dt.month));
    InstantOfParts(DaysFromCivil(first), 0, 0, 0, 0);
    InstantOfParts(DaysFromCivil(last), 23, 59, 59, lastMillis);
    CivilRoundTrip(first);
    CivilRoundTrip(last);
    DaysWithinMonth(dt, dt.day);
    DaysWithinMonth(dt, DaysInMonth(dt.year, dt.month));
    assert anchor >= DayOf(anchor) * MillisPerDay;
  }

  /** The year window runs from January 1 at midnight to December 31 at 23:59:59.lastMillis of the anchor's year. */
  lemma YearWindowShape(anchor: int, lastMillis: int)
    requires 0 <= lastMillis < 1000
    ensures var w, y := YearWindow(anchor, lastMillis), DateOf(anchor).year;
      && DateOf(w.start) == Date(y, 1, 1) && MillisOfDay(w.start) == 0
      && DateOf(w.end) == Date(y, 12, 31) && MillisOfDay(w.end) == 86399000 + lastMillis
      && DayOf(w.start) <= DayOf(anchor) <= DayOf(w.end)
      && w.start <= anchor && w.start < w.end
  {
    var dt := DateOf(anchor);
    var y := dt.year;
    var first, last := DaysBeforeYear(y), DaysBeforeYear(y) + DaysInYear(y) - 1;
    assert DaysFromCivil(Date(y, 1, 1)) == first;
    assert DaysFromCivil(Date(y, 12, 31)) == last by {
      MonthLength(y, 12);
    }
    InstantOfParts(first, 0, 0, 0, 0);
    InstantOfParts(last, 23, 59, 59, lastMillis);
    CivilRoundTrip(Date(y, 1, 1));
    CivilRoundTrip(Date(y, 12, 31));
    DayWithinYear(dt);
    InstantInDays(anchor, DayOf(anchor), DayOf(anchor));
  }

  /** A month window ending at .999 holds exactly the instants dated in that month. */
  lemma MonthWindowOfContains(y: int, m: int, t: int)
    requires 1 <= m <= 12
    ensures MonthWindowOf(y, m, 999).Contains(t) <==> DateOf(t).year == y && DateOf(t).month == m
  {
    var first := DaysFromCivil(Date(y, m, 1));
    var last := DaysFromCivil(Date(y, m, DaysInMonth(y, m)));
    DaysWithinMonth(Date(y, m, 1), DaysInMonth(y, m));
    InstantInDays(t, first, last);
    assert MonthWindowOf(y, m, 999).Contains(t) <==> first <= DayOf(t) <= last;
    if first <= DayOf(t) <= last {
      DayInMonth(y, m, DayOf(t));
    }
    var dt := DateOf(t);
    if dt.year == y && dt.month == m {
      DaysWithinMonth(Date(y, m, 1), dt.day);
      assert dt == Date(y, m, 1).(day := dt.day);
    }
  }

  /** Every instant of a month window falls on a day of that month. */
  lemma InMonthWindow(anchor: int, lastMillis: int, t: int)
    requires 0 <= lastMillis < 1000 && MonthWindow(anchor, lastMillis).Contains(t)
    ensures DateOf(t).year == DateOf(anchor).year && DateOf(t).month == DateOf(anchor).month
    ensures 1 <= DateOf(t).day <= DaysInMonth(DateOf(anchor).year, DateOf(anchor).month)
  {
    var dt := DateOf(anchor);
    assert MonthWindowOf(dt.year, dt.month, 999).Contains(t);
    MonthWindowOfContains(dt.year, dt.month, t);
  }

  /** A week window ending at .999 holds exactly the instants of the same Monday-first week. */
  lemma WeekWindowContains(anchor: int, t: int)
    ensures WeekWindow(anchor, 999).Contains(t) <==> MondayOf(DayOf(t)) == MondayOf(DayOf(anchor))
  {
    var monday := MondayOf(DayOf(anchor));
    assert t >= DayOf(t) * MillisPerDay && t < (DayOf(t) + 1) * MillisPerDay;
    if monday <= DayOf(t) <= monday + 6 {
      MondayOfWeekDay(DayOf(anchor), DayOf(t) - monday);
    }
  }

  /** A window ending at .999 holds exactly the instants of its days. */
  lemma WholeDaysWindow(w: Window, t: int)
    requires MillisOfDay(w.start) == 0 && MillisOfDay(w.end) == MillisPerDay - 1
    ensures w.Contains(t) <==> DayOf(w.start) <= DayOf(t) <= DayOf(w.end)
  {
  }

  /** A window ending at .000 misses the last 999 milliseconds of its last day. */
  lemma TruncatedWindowMissesLastSecond(w: Window)
    requires MillisOfDay(w.end) == 86399000
    ensures var t := w.end + 500; DayOf(t) == DayOf(w.end) && !w.Contains(t)
  {
  }

  /** February's month window ends on the 29th in a leap year and on the 28th otherwise. */
  lemma FebruaryWindowEnd(anchor: int, lastMillis: int)
    requires 0 <= lastMillis < 1000 && DateOf(anchor).month == 2
    ensures DateOf(MonthWindow(anchor, lastMillis).end).day == if IsLeapYear(DateOf(anchor).year) then 29 else 28
  {
    MonthWindowShape(anchor, lastMillis);
  }

  /** One month back: January goes to December of the previous year, any other month to its predecessor. */
  lemma PreviousMonth(dt: Date)
    requires ValidDate(dt)
    ensures var p := ShiftMonths(dt, -1);
      && (dt.month == 1 ==> p.year == dt.year - 1 && p.month == 12)
      && (dt.month > 1 ==> p.year == dt.year && p.month == dt.month - 1)
  {
  }
}
