/**
 * TransactionsViewModel: the transaction list under the user's filters
 * (type, category and period, combined with AND), newest first.
 *
 * The period windows end at 23:59:59.999, so each holds whole days. The
 * transaction snapshot the source re-reads from the repository is the
 * parameter `transactions`; the wall clock is `now`.
 */
module TransactionsFilter {
  import opened Wrappers
  import opened Lists
  import opened Sorting
  import opened CivilCalendar
  import opened JavaCalendar
  import opened DateRanges
  import opened Domain
  import opened Ledger

  datatype PeriodFilter = ALL | THIS_WEEK | THIS_MONTH | LAST_MONTH

  /** The Kotlin field `type` is `kind` here. */
  datatype TransactionFilters = TransactionFilters(kind: Option<TransactionType>, categoryId: Option<int>, period: PeriodFilter)

  datatype TransactionsUiState = TransactionsUiState(
    transactions: seq<Transaction>,
    categories: seq<Category>,
    filters: TransactionFilters,
    isLoading: bool)

  /** `TransactionFilters()`: no type, no category, all time. */
  const DefaultFilters := TransactionFilters(None, None, ALL)

  const DefaultUiState := TransactionsUiState([], [], DefaultFilters, true)

  function TransactionDate(t: Transaction): int {
    t.date
  }

  // ---- The period windows ----

  /** getLastMonthDateRange: add(MONTH, -1), then the month recipe. */
  function LastMonthWindow(now: int): Window {
    var p := ShiftMonths(DateOf(now), -1);
    MonthWindowOf(p.year, p.month, 999)
  }

  /** The window a period filter restricts to; ALL has none. */
  function FilterWindow(period: PeriodFilter, now: int): Option<Window> {
    match period
    case ALL => None
    case THIS_WEEK => Some(WeekWindow(now, 999))
    case THIS_MONTH => Some(MonthWindow(now, 999))
    case LAST_MONTH => Some(LastMonthWindow(now))
  }

  method GetCurrentWeekDateRange(now: int) returns (w: Window)
    ensures w == WeekWindow(now, 999)
  {
    var calendar := new Calendar(now);
    w := WeekRange(calendar, Some(999));
  }

  method GetCurrentMonthDateRange(now: int) returns (w: Window)
    ensures w == MonthWindow(now, 999)
  {
    var calendar := new Calendar(now);
    DayOfTime(calendar);
    w := MonthRange(calendar, Some(999));
  }

  method GetLastMonthDateRange(now: int) returns (w: Window)
    ensures w == LastMonthWindow(now)
  {
    var calendar := new Calendar(now);
    DayOfTime(calendar);
    calendar.AddMonths(-1);
    w := MonthRange(calendar, Some(999));
  }

  /** THIS_WEEK keeps exactly the transactions of now's Monday-to-Sunday week. */
  lemma ThisWeekContains(now: int, t: Transaction)
    ensures WeekWindow(now, 999).Contains(t.date) <==> MondayOf(DayOf(t.date)) == MondayOf(DayOf(now))
  {
    WeekWindowContains(now, t.date);
  }

  /** THIS_MONTH keeps exactly the transactions dated in now's calendar month. */
  lemma ThisMonthContains(now: int, t: Transaction)
    ensures MonthWindow(now, 999).Contains(t.date)
            <==> DateOf(t.date).year == DateOf(now).year && DateOf(t.date).month == DateOf(now).month
  {
    MonthWindowOfContains(DateOf(now).year, DateOf(now).month, t.date);
  }

  /**
   * LAST_MONTH keeps exactly the transactions dated in the calendar month
   * before now's: December of the previous year when now is in January.
   */
  lemma LastMonthContains(now: int, t: Transaction)
    ensures var dt, d := DateOf(now), DateOf(t.date);
      LastMonthWindow(now).Contains(t.date)
      <==> if dt.month == 1 then d.year == dt.year - 1 && d.month == 12 else d.year == dt.year && d.month == dt.month - 1
  {
    var p := ShiftMonths(DateOf(now), -1);
    PreviousMonth(DateOf(now));
    MonthWindowOfContains(p.year, p.month, t.date);
  }

  // ---- applyFilters ----

  /** Whether a transaction passes every active filter. */
  predicate Matches(filters: TransactionFilters, now: int, t: Transaction) {
    && (filters.kind.None? || t.kind == filters.kind.value)
    && (filters.categoryId.None? || t.categoryId == filters.categoryId.value)
    && (FilterWindow(filters.period, now).None? || FilterWindow(filters.period, now).value.Contains(t.date))
  }

  function ByType(ts: seq<Transaction>, kind: Option<TransactionType>): seq<Transaction> {
    if kind.Some? then OfKind(ts, kind.value) else ts
  }

  function ByCategory(ts: seq<Transaction>, categoryId: Option<int>): seq<Transaction> {
    if categoryId.Some? then InCategory(ts, categoryId.value) else ts
  }

  function ByPeriod(ts: seq<Transaction>, period: PeriodFilter, now: int): seq<Transaction> {
    match FilterWindow(period, now)
    case None => ts
    case Some(w) => InWindow(ts, w)
  }

  /** applyFilters: type, then category, then period, then newest first. */
  function ApplyFiltersFor(ts: seq<Transaction>, filters: TransactionFilters, now: int): (r: seq<Transaction>)
    ensures SortedDesc(r, TransactionDate)
    ensures |r| <= |ts|
  {
    SortDesc(ByPeriod(ByCategory(ByType(ts, filters.kind), filters.categoryId), filters.period, now), TransactionDate)
  }

  /** applyFilters as the source writes it: `var filtered` narrowed step by step. */
  method ApplyFilters(ts: seq<Transaction>, filters: TransactionFilters, now: int) returns (r: seq<Transaction>)
    ensures r == ApplyFiltersFor(ts, filters, now)
  {
    var filtered := ts;
    if filters.kind.Some? {
      filtered := OfKind(filtered, filters.kind.value);
    }
    if filters.categoryId.Some? {
      filtered := InCategory(filtered, filters.categoryId.value);
    }
    match filters.period {
      case THIS_WEEK =>
        var range := GetCurrentWeekDateRange(now);
        filtered := InWindow(filtered, range);
      case THIS_MONTH =>
        var range := GetCurrentMonthDateRange(now);
        filtered := InWindow(filtered, range);
      case LAST_MONTH =>
        var range := GetLastMonthDateRange(now);
        filtered := InWindow(filtered, range);
      case ALL =>
    }
    r := SortDesc(filtered, TransactionDate);
  }

  lemma ByTypeCount(ts: seq<Transaction>, kind: Option<TransactionType>, t: Transaction)
    ensures multiset(ByType(ts, kind))[t] == if kind.None? || t.kind == kind.value then multiset(ts)[t] else 0
  {
    if kind.Some? {
      OfKindCount(ts, kind.value, t);
    }
  }

  lemma ByCategoryCount(ts: seq<Transaction>, categoryId: Option<int>, t: Transaction)
    ensures multiset(ByCategory(ts, categoryId))[t] == if categoryId.None? || t.categoryId == categoryId.value then multiset(ts)[t] else 0
  {
    if categoryId.Some? {
      BucketCount(ts, CategoryIdOf, categoryId.value, t);
    }
  }

  lemma ByPeriodCount(ts: seq<Transaction>, period: PeriodFilter, now: int, t: Transaction)
    ensures var w := FilterWindow(period, now);
      multiset(ByPeriod(ts, period, now))[t] == if w.None? || w.value.Contains(t.date) then multiset(ts)[t] else 0
  {
    var w := FilterWindow(period, now);
    if w.Some? {
      InWindowCount(ts, w.value, t);
    }
  }

  /**
   * The filters combine with AND and lose nothing: each transaction occurs in
   * the result as often as in the input when it passes every active filter,
   * and not at all otherwise.
   */
  lemma ApplyFiltersCount(ts: seq<Transaction>, filters: TransactionFilters, now: int, t: Transaction)
    ensures multiset(ApplyFiltersFor(ts, filters, now))[t] == if Matches(filters, now, t) then multiset(ts)[t] else 0
  {
    var a := ByType(ts, filters.kind);
    var b := ByCategory(a, filters.categoryId);
    ByTypeCount(ts, filters.kind, t);
    ByCategoryCount(a, filters.categoryId, t);
    ByPeriodCount(b, filters.period, now, t);
  }

  /** Every shown transaction passes every active filter, and every input transaction that passes them all is shown. */
  lemma ApplyFiltersMember(ts: seq<Transaction>, filters: TransactionFilters, now: int, t: Transaction)
    ensures t in ApplyFiltersFor(ts, filters, now) <==> t in ts && Matches(filters, now, t)
  {
    ApplyFiltersCount(ts, filters, now, t);
    var r := ApplyFiltersFor(ts, filters, now);
    assert t in r <==> t in multiset(r);
    assert t in ts <==> t in multiset(ts);
  }

  /** With the default filters the list is the input reordered: same elements, same multiplicities, newest first. */
  lemma DefaultFiltersPermute(ts: seq<Transaction>, now: int)
    ensures multiset(ApplyFiltersFor(ts, DefaultFilters, now)) == multiset(ts)
    ensures SortedDesc(ApplyFiltersFor(ts, DefaultFilters, now), TransactionDate)
  {
  }

  /** A non-null type filter keeps exactly the transactions of that type (with no other filter). */
  lemma TypeFilterExact(ts: seq<Transaction>, kind: TransactionType, now: int, t: Transaction)
    ensures t in ApplyFiltersFor(ts, TransactionFilters(Some(kind), None, ALL), now) <==> t in ts && t.kind == kind
  {
    ApplyFiltersMember(ts, TransactionFilters(Some(kind), None, ALL), now, t);
  }

  /** A non-null category filter keeps exactly the transactions of that category (with no other filter). */
  lemma CategoryFilterExact(ts: seq<Transaction>, categoryId: int, now: int, t: Transaction)
    ensures t in ApplyFiltersFor(ts, TransactionFilters(None, Some(categoryId), ALL), now) <==> t in ts && t.categoryId == categoryId
  {
    ApplyFiltersMember(ts, TransactionFilters(None, Some(categoryId), ALL), now, t);
  }

  class TransactionsViewModel {
    var uiState: TransactionsUiState

    constructor ()
      ensures uiState == DefaultUiState
    {
      uiState := DefaultUiState;
    }

    /** loadData: the filtered list under the current filters, with the categories. */
    method LoadData(transactions: seq<Transaction>, categories: seq<Category>, now: int)
      modifies this
      ensures uiState == TransactionsUiState(ApplyFiltersFor(transactions, old(uiState).filters, now), categories, old(uiState).filters, false)
    {
      var filtered := ApplyFilters(transactions, uiState.filters, now);
      uiState := TransactionsUiState(filtered, categories, uiState.filters, false);
    }

    /** updateFilters: the new filters and the list under them; the categories and loading flag stay. */
    method UpdateFilters(filters: TransactionFilters, transactions: seq<Transaction>, now: int)
      modifies this
      ensures uiState == old(uiState).(transactions := ApplyFiltersFor(transactions, filters, now), filters := filters)
    {
      var filtered := ApplyFilters(transactions, filters, now);
      uiState := uiState.(transactions := filtered, filters := filters);
    }

    method OnTypeFilterChange(kind: Option<TransactionType>, transactions: seq<Transaction>, now: int)
      modifies this
      ensures uiState.filters == old(uiState).filters.(kind := kind)
      ensures uiState == old(uiState).(transactions := ApplyFiltersFor(transactions, uiState.filters, now), filters := uiState.filters)
    {
      UpdateFilters(uiState.filters.(kind := kind), transactions, now);
    }

    method OnCategoryFilterChange(categoryId: Option<int>, transactions: seq<Transaction>, now: int)
      modifies this
      ensures uiState.filters == old(uiState).filters.(categoryId := categoryId)
      ensures uiState == old(uiState).(transactions := ApplyFiltersFor(transactions, uiState.filters, now), filters := uiState.filters)
    {
      UpdateFilters(uiState.filters.(categoryId := categoryId), transactions, now);
    }

    method OnPeriodFilterChange(period: PeriodFilter, transactions: seq<Transaction>, now: int)
      modifies this
      ensures uiState.filters == old(uiState).filters.(period := period)
      ensures uiState == old(uiState).(transactions := ApplyFiltersFor(transactions, uiState.filters, now), filters := uiState.filters)
    {
      UpdateFilters(uiState.filters.(period := period), transactions, now);
    }

    /** resetFilters: back to no type, no category and all time. */
    method ResetFilters(transactions: seq<Transaction>, now: int)
      modifies this
      ensures uiState.filters == TransactionFilters(None, None, ALL)
      ensures uiState == old(uiState).(transactions := ApplyFiltersFor(transactions, DefaultFilters, now), filters := DefaultFilters)
    {
      UpdateFilters(DefaultFilters, transactions, now);
    }
  }
}
