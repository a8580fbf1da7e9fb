/**
 * The three date-range recipes the view models repeat: move a Calendar to
 * the first instant of its week, month or year, read getTime(), move it to
 * the last day at 23:59:59 and read getTime() again. The Transactions and
 * Home screens also set MILLISECOND to 999 before the second read (endMillis
 * is Some(999)); the Statistics and Budget screens do not, so their windows end
 * at 23:59:59.000 (endMillis is None).
 */
module DateRanges {
  import opened Wrappers
  import opened CivilCalendar
  import opened JavaCalendar

  /** The millisecond of the end instant: the one set last, or the 0 left by the start. */
  function EndMillis(endMillis: Option<int>): int {
    endMillis.GetOr(0)
  }

  predicate ValidEndMillis(endMillis: Option<int>) {
    endMillis.Some? ==> 0 <= endMillis.value < 1000
  }

  lemma DayOfTime(c: Calendar)
    requires c.Valid()
    ensures DayOf(c.Time()) == c.day && DateOf(c.Time()) == c.Fields()
  {
    InstantOfParts(c.day, c.hour, c.minute, c.second, c.millisecond);
  }

  /** set(DAY_OF_WEEK, MONDAY), midnight, getTime; set(DAY_OF_WEEK, SUNDAY), 23:59:59, getTime. */
  method WeekRange(calendar: Calendar, endMillis: Option<int>) returns (w: Window)
    requires calendar.Valid() && ValidEndMillis(endMillis)
    modifies calendar
    ensures w == WeekWindow(old(calendar.Time()), EndMillis(endMillis))
  {
    DayOfTime(calendar);
    calendar.SetDayOfWeek(MONDAY);
    calendar.SetHourOfDay(0);
    calendar.SetMinute(0);
    calendar.SetSecond(0);
    calendar.SetMillisecond(0);
    var startDate := calendar.Time();
    calendar.SetDayOfWeek(SUNDAY);
    calendar.SetHourOfDay(23);
    calendar.SetMinute(59);
    calendar.SetSecond(59);
    if endMillis.Some? {
      calendar.SetMillisecond(endMillis.value);
    }
    var endDate := calendar.Time();
    w := Window(startDate, endDate);
  }

  /** set(DAY_OF_MONTH, 1), midnight, getTime; set(DAY_OF_MONTH, getActualMaximum(DAY_OF_MONTH)), 23:59:59, getTime. */
  method MonthRange(calendar: Calendar, endMillis: Option<int>) returns (w: Window)
    requires calendar.Valid() && ValidEndMillis(endMillis)
    modifies calendar
    ensures w == MonthWindowOf(old(calendar.Fields()).year, old(calendar.Fields()).month, EndMillis(endMillis))
  {
    ghost var dt := calendar.Fields();
    calendar.SetDayOfMonth(1);
    ghost var first := DaysFromCivil(Date(dt.year, dt.month, 1));
    assert calendar.day == first && calendar.Fields() == Date(dt.year, dt.month, 1);
    calendar.SetHourOfDay(0);
    calendar.SetMinute(0);
    calendar.SetSecond(0);
    calendar.SetMillisecond(0);
    var startDate := calendar.Time();
    assert startDate == InstantOf(first, 0, 0, 0, 0);
    var lastDay := calendar.ActualMaximumDayOfMonth();
    assert lastDay == DaysInMonth(dt.year, dt.month);
    calendar.SetDayOfMonth(lastDay);
    assert calendar.day == DaysFromCivil(Date(dt.year, dt.month, lastDay));
    calendar.SetHourOfDay(23);
    calendar.SetMinute(59);
    calendar.SetSecond(59);
    if endMillis.Some? {
      calendar.SetMillisecond(endMillis.value);
    }
    var endDate := calendar.Time();
    w := Window(startDate, endDate);
  }

  /** set(DAY_OF_YEAR, 1), midnight, getTime; set(DAY_OF_YEAR, getActualMaximum(DAY_OF_YEAR)), 23:59:59, getTime. */
  method YearRange(calendar: Calendar, endMillis: Option<int>) returns (w: Window)
    requires calendar.Valid() && ValidEndMillis(endMillis)
    modifies calendar
    ensures w == YearWindow(old(calendar.Time()), EndMillis(endMillis))
  {
    DayOfTime(calendar);
    ghost var y := calendar.Fields().year;
    calendar.SetDayOfYear(1);
    assert calendar.day == DaysBeforeYear(y) && calendar.Fields().year == y;
    calendar.SetHourOfDay(0);
    calendar.SetMinute(0);
    calendar.SetSecond(0);
    calendar.SetMillisecond(0);
    var startDate := calendar.Time();
    assert startDate == InstantOf(DaysBeforeYear(y), 0, 0, 0, 0);
    var lastDay := calendar.ActualMaximumDayOfYear();
    assert lastDay == DaysInYear(y);
    calendar.SetDayOfYear(lastDay);
    assert calendar.day == DaysBeforeYear(y) + DaysInYear(y) - 1;
    calendar.SetHourOfDay(23);
    calendar.SetMinute(59);
    calendar.SetSecond(59);
    if endMillis.Some? {
      calendar.SetMillisecond(endMillis.value);
    }
    var endDate := calendar.Time();
    w := Window(startDate, endDate);
  }
}
