/**
 * StatisticsViewModel: the statistics screen's state for one period (the
 * current week, month or year). The transactions of the period's window are
 * totalled by type, broken down by expense category and split into a series
 * of weekday, day-of-month or month buckets.
 *
 * Amounts are integer minor units and percentages exact reals, so "the
 * percentages add up to 100" holds exactly here; Double and Float rounding is
 * not modelled. The wall clock is the parameter `now`.
 */
module Statistics {
  import opened Wrappers
  import opened Lists
  import opened Sorting
  import opened CivilCalendar
  import opened JavaCalendar
  import opened DateRanges
  import opened Domain
  import opened Ledger

  datatype StatisticsPeriod = WEEK | MONTH | YEAR

  datatype CategoryExpense = CategoryExpense(category: Category, amount: int, percentage: real)

  /** `label` is a Dafny keyword, so the field is called `title`. */
  datatype PeriodData = PeriodData(title: string, income: int, expense: int)

  datatype TotalStats = TotalStats(totalIncome: int, totalExpense: int, difference: int)

  datatype StatisticsUiState = StatisticsUiState(
    period: StatisticsPeriod,
    categoryExpenses: seq<CategoryExpense>,
    periodData: seq<PeriodData>,
    totalStats: TotalStats,
    topCategories: seq<CategoryExpense>,
    isLoading: bool)

  /** `StatisticsUiState()` with its default arguments. */
  const DefaultUiState := StatisticsUiState(StatisticsPeriod.MONTH, [], [], TotalStats(0, 0, 0), [], true)

  // ---- getDateRangeForPeriod ----

  /**
   * The window of a period around now. MILLISECOND is never set on the way to
   * the end, and it was set to 0 for the start, so every window ends at
   * 23:59:59.000.
   */
  function PeriodWindow(period: StatisticsPeriod, now: int): Window {
    match period
    case WEEK => WeekWindow(now, 0)
    case MONTH => MonthWindow(now, 0)
    case YEAR => YearWindow(now, 0)
  }

  /** getDateRangeForPeriod: the range as the source computes it, by moving a Calendar set at now. */
  method GetDateRangeForPeriod(period: StatisticsPeriod, now: int) returns (w: Window)
    ensures w == PeriodWindow(period, now)
  {
    var calendar := new Calendar(now);
    DayOfTime(calendar);
    match period {
      case WEEK => w := WeekRange(calendar, None);
      case MONTH => w := MonthRange(calendar, None);
      case YEAR => w := YearRange(calendar, None);
    }
  }

  /**
   * Every period window starts at midnight no later than now, holds now's
   * day and ends at 23:59:59.000: the week runs Monday to Sunday, the month
   * from the 1st to its last day, the year from January 1 to December 31.
   */
  lemma PeriodWindowBounds(period: StatisticsPeriod, now: int)
    ensures var w, dt := PeriodWindow(period, now), DateOf(now);
      && w.start <= now && w.start < w.end
      && MillisOfDay(w.start) == 0 && MillisOfDay(w.end) == 86399000
      && DayOf(w.start) <= DayOf(now) <= DayOf(w.end)
      && (period == StatisticsPeriod.WEEK ==>
            DayOfWeek(DayOf(w.start)) == MONDAY && DayOfWeek(DayOf(w.end)) == SUNDAY && DayOf(w.end) == DayOf(w.start) + 6)
      && (period == StatisticsPeriod.MONTH ==>
            DateOf(w.start) == Date(dt.year, dt.month, 1) && DateOf(w.end) == Date(dt.year, dt.month, DaysInMonth(dt.year, dt.month)))
      && (period == StatisticsPeriod.YEAR ==>
            DateOf(w.start) == Date(dt.year, 1, 1) && DateOf(w.end) == Date(dt.year, 12, 31))
  {
    match period
    case WEEK =>
      assert PeriodWindow(period, now) == WeekWindow(now, 0);
      WeekWindowShape(now, 0);
    case MONTH =>
      assert PeriodWindow(period, now) == MonthWindow(now, 0);
      MonthWindowShape(now, 0);
    case YEAR =>
      assert PeriodWindow(period, now) == YearWindow(now, 0);
      YearWindowShape(now, 0);
  }

  // ---- calculateCategoryExpenses ----

  /** The category shown for an id that is not in the category list. */
  function Placeholder(id: int): Category {
    Category(id, "Інше", EXPENSE, "help", "#999999")
  }

  function EntryAmount(e: CategoryExpense): int {
    e.amount
  }

  function EntryPercentage(e: CategoryExpense): real {
    e.percentage
  }

  function EntryCategoryId(e: CategoryExpense): int {
    e.category.id
  }

  /** `amount / total * 100`. */
  function Percentage(amount: int, total: int): real
    requires total != 0
  {
    amount as real / total as real * 100.0
  }

  /** The keys of `groupBy { it.categoryId }`: each category id once, in order of first appearance. */
  function DistinctCategoryIds(ts: seq<Transaction>): (r: seq<int>)
    ensures NoDuplicates(r)
    ensures forall c :: c in r <==> exists t :: t in ts && t.categoryId == c
  {
    if |ts| == 0 then []
    else
      var init, last := ts[..|ts| - 1], ts[|ts| - 1];
      assert ts == init + [last];
      var p := DistinctCategoryIds(init);
      if last.categoryId in p then p else p + [last.categoryId]
  }

  /** groupBy keeps first appearance: the first transaction of an earlier key comes before every transaction of a later key. */
  lemma {:induction false} DistinctCategoryIdsOrder(ts: seq<Transaction>, i: int, j: int)
    requires 0 <= i < j < |DistinctCategoryIds(ts)|
    ensures var r := DistinctCategoryIds(ts);
      exists a :: 0 <= a < |ts| && ts[a].categoryId == r[i] && forall b :: 0 <= b <= a ==> ts[b].categoryId != r[j]
  {
    var r := DistinctCategoryIds(ts);
    var init, last := ts[..|ts| - 1], ts[|ts| - 1];
    assert ts == init + [last];
    var p := DistinctCategoryIds(init);
    if j < |p| {
      DistinctCategoryIdsOrder(init, i, j);
      assert r[i] == p[i] && r[j] == p[j];
      var a :| 0 <= a < |init| && init[a].categoryId == p[i] && forall b :: 0 <= b <= a ==> init[b].categoryId != p[j];
      assert ts[a] == init[a];
      assert forall b :: 0 <= b <= a ==> ts[b] == init[b];
    } else {
      assert r == p + [last.categoryId] && r[j] == last.categoryId && r[i] == p[i];
      assert p[i] in p;
      var t :| t in init && t.categoryId == p[i];
      var a :| 0 <= a < |init| && init[a] == t;
      assert ts[a] == t;
      forall b | 0 <= b <= a ensures ts[b].categoryId != r[j] {
        assert ts[b] == init[b] && init[b] in init;
      }
    }
  }

  /** One entry of the breakdown: the category (or its placeholder), its expense sum and its share of total. */
  function CategoryEntry(expenses: seq<Transaction>, categories: seq<Category>, id: int, total: int): CategoryExpense
    requires total != 0
  {
    var amount := SumAmounts(InCategory(expenses, id));
    CategoryExpense(FindCategory(categories, id).GetOr(Placeholder(id)), amount, Percentage(amount, total))
  }

  /** `expensesByCategory.map { ... }`: one entry per key, in key order. */
  function GroupedEntries(expenses: seq<Transaction>, categories: seq<Category>, ids: seq<int>, total: int): (r: seq<CategoryExpense>)
    requires total != 0
    ensures |r| == |ids|
    ensures forall i :: 0 <= i < |ids| ==> r[i] == CategoryEntry(expenses, categories, ids[i], total)
  {
    if |ids| == 0 then []
    else [CategoryEntry(expenses, categories, ids[0], total)] + GroupedEntries(expenses, categories, ids[1..], total)
  }

  /** The expense breakdown before sorting. */
  function Grouped(ts: seq<Transaction>, categories: seq<Category>): seq<CategoryExpense>
    requires SumAmounts(OfKind(ts, EXPENSE)) != 0
  {
    var expenses := OfKind(ts, EXPENSE);
    GroupedEntries(expenses, categories, DistinctCategoryIds(expenses), SumAmounts(expenses))
  }

  /** calculateCategoryExpenses: empty when the expenses total 0, otherwise the grouped entries by amount, largest first. */
  function CategoryExpenses(ts: seq<Transaction>, categories: seq<Category>): (r: seq<CategoryExpense>)
    ensures SortedDesc(r, EntryAmount)
  {
    if SumAmounts(OfKind(ts, EXPENSE)) == 0 then []
    else SortDesc(Grouped(ts, categories), EntryAmount)
  }

  lemma ExpenseIds(ts: seq<Transaction>, c: int)
    ensures c in DistinctCategoryIds(OfKind(ts, EXPENSE)) <==> exists t :: t in ts && t.kind == EXPENSE && t.categoryId == c
  {
    var expenses := OfKind(ts, EXPENSE);
    if c in DistinctCategoryIds(expenses) {
      var t :| t in expenses && t.categoryId == c;
      OfKindMember(ts, EXPENSE, t);
    }
    if exists t :: t in ts && t.kind == EXPENSE && t.categoryId == c {
      var t :| t in ts && t.kind == EXPENSE && t.categoryId == c;
      OfKindMember(ts, EXPENSE, t);
    }
  }

  /** The breakdown is empty exactly when the expenses total 0. */
  lemma CategoryExpensesEmpty(ts: seq<Transaction>, categories: seq<Category>)
    ensures CategoryExpenses(ts, categories) == [] <==> SumAmounts(OfKind(ts, EXPENSE)) == 0
  {
    var expenses := OfKind(ts, EXPENSE);
    if SumAmounts(expenses) != 0 {
      assert |expenses| > 0;
      assert expenses[0] in expenses;
      assert expenses[0].categoryId in DistinctCategoryIds(expenses);
      assert |Grouped(ts, categories)| > 0;
    }
  }

  /**
   * A non-empty breakdown has exactly one entry per expense category id that
   * occurs in the list: no id twice, and an id has an entry iff some expense
   * carries it.
   */
  lemma CategoryExpensesIds(ts: seq<Transaction>, categories: seq<Category>, c: int)
    requires SumAmounts(OfKind(ts, EXPENSE)) != 0
    ensures DistinctBy(CategoryExpenses(ts, categories), EntryCategoryId)
    ensures (exists e :: e in CategoryExpenses(ts, categories) && e.category.id == c)
            <==> exists t :: t in ts && t.kind == EXPENSE && t.categoryId == c
  {
    var expenses := OfKind(ts, EXPENSE);
    var ids := DistinctCategoryIds(expenses);
    var g := Grouped(ts, categories);
    var r := CategoryExpenses(ts, categories);
    assert forall i :: 0 <= i < |g| ==> g[i].category.id == ids[i];
    assert DistinctBy(g, EntryCategoryId);
    SortDescDistinct(g, EntryAmount, EntryCategoryId);
    ExpenseIds(ts, c);
    if exists e :: e in r && e.category.id == c {
      var e :| e in r && e.category.id == c;
      assert e in multiset(g);
      assert e in g;
      var i :| 0 <= i < |g| && g[i] == e;
      assert ids[i] == c;
    }
    if c in ids {
      var i :| 0 <= i < |ids| && ids[i] == c;
      assert g[i] in multiset(r);
      assert g[i] in r && g[i].category.id == c;
    }
  }

  /**
   * Every entry carries the sum of its category's expenses and that sum's
   * share of the total, and shows the listed category with its id, or the
   * placeholder when the id is not listed.
   */
  lemma CategoryEntryFields(ts: seq<Transaction>, categories: seq<Category>, e: CategoryExpense)
    requires e in CategoryExpenses(ts, categories)
    ensures var total := SumAmounts(OfKind(ts, EXPENSE));
      && total != 0
      && e.amount == SumAmounts(InCategory(OfKind(ts, EXPENSE), e.category.id))
      && e.percentage == Percentage(e.amount, total)
      && (FindCategory(categories, e.category.id).Some? ==> e.category == FindCategory(categories, e.category.id).value)
      && (FindCategory(categories, e.category.id).None? ==> e.category == Placeholder(e.category.id))
  {
    var id := EntryOfBreakdown(ts, categories, e);
    EntryShape(OfKind(ts, EXPENSE), categories, id, SumAmounts(OfKind(ts, EXPENSE)));
  }

  /** An entry of the breakdown is the entry of some category id, under a non-zero total. */
  lemma EntryOfBreakdown(ts: seq<Transaction>, categories: seq<Category>, e: CategoryExpense) returns (id: int)
    requires e in CategoryExpenses(ts, categories)
    ensures SumAmounts(OfKind(ts, EXPENSE)) != 0
    ensures e == CategoryEntry(OfKind(ts, EXPENSE), categories, id, SumAmounts(OfKind(ts, EXPENSE)))
  {
    var expenses := OfKind(ts, EXPENSE);
    var ids := DistinctCategoryIds(expenses);
    var g := Grouped(ts, categories);
    assert e in multiset(g);
    assert e in g;
    var i :| 0 <= i < |g| && g[i] == e;
    id := ids[i];
  }

  lemma EntryShape(expenses: seq<Transaction>, categories: seq<Category>, id: int, total: int)
    requires total != 0
    ensures var e := CategoryEntry(expenses, categories, id, total);
      && e.category.id == id
      && e.amount == SumAmounts(InCategory(expenses, id))
      && e.percentage == Percentage(e.amount, total)
      && (FindCategory(categories, id).Some? ==> e.category == FindCategory(categories, id).value)
      && (FindCategory(categories, id).None? ==> e.category == Placeholder(id))
  {
  }

  lemma {:induction false} GroupedAmounts(expenses: seq<Transaction>, categories: seq<Category>, ids: seq<int>, total: int)
    requires total != 0
    ensures SumOf(GroupedEntries(expenses, categories, ids, total), EntryAmount) == BucketsTotal(expenses, CategoryIdOf, ids)
  {
    if |ids| > 0 {
      GroupedAmounts(expenses, categories, ids[1..], total);
      SumOfCons(CategoryEntry(expenses, categories, ids[0], total), GroupedEntries(expenses, categories, ids[1..], total), EntryAmount);
    }
  }

  /** The entry amounts add up to the total expense (both are 0 when the breakdown is empty). */
  lemma CategoryExpensesSum(ts: seq<Transaction>, categories: seq<Category>)
    ensures SumOf(CategoryExpenses(ts, categories), EntryAmount) == SumAmounts(OfKind(ts, EXPENSE))
  {
    var expenses := OfKind(ts, EXPENSE);
    var total := SumAmounts(expenses);
    if total != 0 {
      var ids := DistinctCategoryIds(expenses);
      GroupedAmounts(expenses, categories, ids, total);
      assert forall t :: t in expenses ==> CategoryIdOf(t) in ids;
      BucketsPartition(expenses, CategoryIdOf, ids);
      SortDescSum(Grouped(ts, categories), EntryAmount, EntryAmount);
    }
  }

  lemma PercentageAdd(a: int, b: int, total: int)
    requires total != 0
    ensures Percentage(a, total) + Percentage(b, total) == Percentage(a + b, total)
  {
    assert (a + b) as real == a as real + b as real;
  }

  lemma {:induction false} GroupedPercentages(expenses: seq<Transaction>, categories: seq<Category>, ids: seq<int>, total: int)
    requires total != 0
    ensures var g := GroupedEntries(expenses, categories, ids, total);
      RealSumOf(g, EntryPercentage) == Percentage(SumOf(g, EntryAmount), total)
  {
    var g := GroupedEntries(expenses, categories, ids, total);
    if |ids| > 0 {
      var e, rest := g[0], GroupedEntries(expenses, categories, ids[1..], total);
      assert g == [e] + rest;
      GroupedPercentages(expenses, categories, ids[1..], total);
      SumOfCons(e, rest, EntryAmount);
      assert RealSumOf(g, EntryPercentage) == e.percentage + RealSumOf(rest, EntryPercentage);
      PercentageAdd(e.amount, SumOf(rest, EntryAmount), total);
    } else {
      assert Percentage(0, total) == 0.0;
    }
  }

  /** The percentages of a non-empty breakdown add up to exactly 100. */
  lemma CategoryPercentagesSum(ts: seq<Transaction>, categories: seq<Category>)
    requires SumAmounts(OfKind(ts, EXPENSE)) != 0
    ensures RealSumOf(CategoryExpenses(ts, categories), EntryPercentage) == 100.0
  {
    var expenses := OfKind(ts, EXPENSE);
    var total := SumAmounts(expenses);
    var ids := DistinctCategoryIds(expenses);
    var g := GroupedEntries(expenses, categories, ids, total);
    assert g == Grouped(ts, categories);
    GroupedPercentages(expenses, categories, ids, total);
    GroupedAmounts(expenses, categories, ids, total);
    assert forall t :: t in expenses ==> CategoryIdOf(t) in ids;
    BucketsPartition(expenses, CategoryIdOf, ids);
    assert SumOf(g, EntryAmount) == total;
    SortDescRealSum(g, EntryAmount, EntryPercentage);
    PercentageWhole(total);
  }

  lemma PercentageWhole(total: int)
    requires total != 0
    ensures Percentage(total, total) == 100.0
  {
    assert total as real / total as real == 1.0;
  }

  /** sortedByDescending is stable: entries with the same amount stay in groupBy (first-appearance) order. */
  lemma CategoryExpensesStable(ts: seq<Transaction>, categories: seq<Category>, amount: int)
    requires SumAmounts(OfKind(ts, EXPENSE)) != 0
    ensures WithKey(CategoryExpenses(ts, categories), EntryAmount, amount) == WithKey(Grouped(ts, categories), EntryAmount, amount)
  {
    SortDescStable(Grouped(ts, categories), EntryAmount, amount);
  }

  // ---- calculateWeekData / calculateMonthData / calculateYearData ----

  function PeriodIncome(p: PeriodData): int {
    p.income
  }

  function PeriodExpense(p: PeriodData): int {
    p.expense
  }

  /** One bucket: the income and expense sums of the transactions whose key is k. */
  function BucketData(ts: seq<Transaction>, key: Transaction -> int, k: int, title: string): PeriodData {
    var bucket := Bucket(ts, key, k);
    PeriodData(title, SumAmounts(OfKind(bucket, INCOME)), SumAmounts(OfKind(bucket, EXPENSE)))
  }

  /** `labels.mapIndexed { i, label -> bucket keys[i] }`. */
  function Series(ts: seq<Transaction>, key: Transaction -> int, keys: seq<int>, labels: seq<string>): (r: seq<PeriodData>)
    requires |keys| == |labels|
    ensures |r| == |keys|
    ensures forall i :: 0 <= i < |keys| ==> r[i] == BucketData(ts, key, keys[i], labels[i])
  {
    if |keys| == 0 then []
    else [BucketData(ts, key, keys[0], labels[0])] + Series(ts, key, keys[1..], labels[1..])
  }

  lemma {:induction false} SeriesBuckets(ts: seq<Transaction>, key: Transaction -> int, keys: seq<int>, labels: seq<string>)
    requires |keys| == |labels|
    ensures SumOf(Series(ts, key, keys, labels), PeriodIncome) == BucketsTotal(OfKind(ts, INCOME), key, keys)
    ensures SumOf(Series(ts, key, keys, labels), PeriodExpense) == BucketsTotal(OfKind(ts, EXPENSE), key, keys)
  {
    if |keys| > 0 {
      var p, rest := BucketData(ts, key, keys[0], labels[0]), Series(ts, key, keys[1..], labels[1..]);
      SeriesBuckets(ts, key, keys[1..], labels[1..]);
      SumOfCons(p, rest, PeriodIncome);
      SumOfCons(p, rest, PeriodExpense);
      BucketOfKind(ts, key, keys[0], INCOME);
      BucketOfKind(ts, key, keys[0], EXPENSE);
    }
  }

  /** Buckets with distinct keys covering every transaction: the bucket sums add up to the income and expense totals. */
  lemma SeriesTotals(ts: seq<Transaction>, key: Transaction -> int, keys: seq<int>, labels: seq<string>)
    requires |keys| == |labels| && NoDuplicates(keys)
    requires forall t :: t in ts ==> key(t) in keys
    ensures SumOf(Series(ts, key, keys, labels), PeriodIncome) == SumAmounts(OfKind(ts, INCOME))
    ensures SumOf(Series(ts, key, keys, labels), PeriodExpense) == SumAmounts(OfKind(ts, EXPENSE))
  {
    SeriesBuckets(ts, key, keys, labels);
    BucketsPartition(OfKind(ts, INCOME), key, keys);
    BucketsPartition(OfKind(ts, EXPENSE), key, keys);
  }

  /** Calendar.DAY_OF_WEEK of the transaction's date. */
  function WeekdayKey(t: Transaction): int {
    DayOfWeek(DayOf(t.date))
  }

  /** Calendar.DAY_OF_MONTH of the transaction's date. */
  function DayOfMonthKey(t: Transaction): int {
    DateOf(t.date).day
  }

  /** Calendar.MONTH of the transaction's date (January is 0). */
  function MonthKey(t: Transaction): int {
    DateOf(t.date).month - 1
  }

  /** `if (index == 6) SUNDAY else MONDAY + index` for index 0..6. */
  const WeekdayKeys: seq<int> := seq(7, index => if index == 6 then SUNDAY else MONDAY + index)

  const WeekdayLabels: seq<string> := ["Пн", "Вт", "Ср", "Чт", "Пт", "Сб", "Нд"]

  const MonthKeys: seq<int> := seq(12, i => i)

  const MonthLabels: seq<string> := ["Січ", "Лют", "Бер", "Кві", "Тра", "Чер", "Лип", "Сер", "Вер", "Жов", "Лис", "Гру"]

  /** `(1..n)`. */
  function DayKeys(n: nat): (r: seq<int>)
    ensures |r| == n && forall i :: 0 <= i < n ==> r[i] == i + 1
  {
    seq(n, i => i + 1)
  }

  /** Int.toString of a non-negative number: its decimal digits, most significant first. */
  function NatToString(n: nat): (s: string)
    ensures |s| >= 1 && forall i :: 0 <= i < |s| ==> '0' <= s[i] <= '9'
  {
    if n < 10 then ["0123456789"[n]] else NatToString(n / 10) + ["0123456789"[n % 10]]
  }

  function DayLabels(n: nat): (r: seq<string>)
    ensures |r| == n && forall i :: 0 <= i < n ==> r[i] == NatToString(i + 1)
  {
    seq(n, i requires 0 <= i => NatToString(i + 1))
  }

  /** The number of days of now's month: getActualMaximum(DAY_OF_MONTH). */
  function DaysInMonthOf(now: int): int {
    DaysInMonth(DateOf(now).year, DateOf(now).month)
  }

  /** calculatePeriodData. */
  function PeriodSeries(ts: seq<Transaction>, period: StatisticsPeriod, now: int): seq<PeriodData> {
    match period
    case WEEK => Series(ts, WeekdayKey, WeekdayKeys, WeekdayLabels)
    case MONTH => Series(ts, DayOfMonthKey, DayKeys(DaysInMonthOf(now)), DayLabels(DaysInMonthOf(now)))
    case YEAR => Series(ts, MonthKey, MonthKeys, MonthLabels)
  }

  /** The day at position i of its Monday-first week has the DAY_OF_WEEK of bucket i. */
  lemma WeekdayOfIndex(d: int)
    ensures DayOfWeek(d) == WeekdayKeys[WeekdayIndex(d)]
  {
  }

  /**
   * The week series has 7 buckets labelled Пн to Нд; bucket i holds exactly
   * the transactions dated on day i of their Monday-first week.
   */
  lemma WeekSeriesShape(ts: seq<Transaction>, now: int)
    ensures var r := PeriodSeries(ts, StatisticsPeriod.WEEK, now);
      |r| == 7 && forall i :: 0 <= i < 7 ==> r[i] == BucketData(ts, WeekdayKey, WeekdayKeys[i], WeekdayLabels[i])
    ensures forall i, t :: 0 <= i < 7 ==>
      (t in Bucket(ts, WeekdayKey, WeekdayKeys[i]) <==> t in ts && WeekdayIndex(DayOf(t.date)) == i)
  {
    forall i, t | 0 <= i < 7
      ensures t in Bucket(ts, WeekdayKey, WeekdayKeys[i]) <==> t in ts && WeekdayIndex(DayOf(t.date)) == i
    {
      WeekBucketMember(ts, i, t);
    }
  }

  /** Week bucket i holds exactly the transactions dated on day i of their Monday-first week (Monday = 0, Sunday = 6). */
  lemma WeekBucketMember(ts: seq<Transaction>, i: int, t: Transaction)
    requires 0 <= i < 7
    ensures t in Bucket(ts, WeekdayKey, WeekdayKeys[i]) <==> t in ts && WeekdayIndex(DayOf(t.date)) == i
  {
    BucketMember(ts, WeekdayKey, WeekdayKeys[i], t);
    WeekdayOfIndex(DayOf(t.date));
  }

  /** The month series has one bucket per day of now's month, labelled 1..n. */
  lemma MonthSeriesShape(ts: seq<Transaction>, now: int)
    ensures var r := PeriodSeries(ts, StatisticsPeriod.MONTH, now);
      |r| == DaysInMonthOf(now) && forall i :: 0 <= i < |r| ==> r[i] == BucketData(ts, DayOfMonthKey, i + 1, NatToString(i + 1))
  {
  }

  /** The year series has 12 buckets, January (Calendar.MONTH 0) first. */
  lemma YearSeriesShape(ts: seq<Transaction>, now: int)
    ensures var r := PeriodSeries(ts, StatisticsPeriod.YEAR, now);
      |r| == 12 && forall i :: 0 <= i < 12 ==> r[i] == BucketData(ts, MonthKey, i, MonthLabels[i])
  {
    assert PeriodSeries(ts, StatisticsPeriod.YEAR, now) == Series(ts, MonthKey, MonthKeys, MonthLabels);
  }

  /** Every transaction's weekday has a bucket: the week buckets add up to the totals. */
  lemma WeekSeriesTotals(ts: seq<Transaction>, now: int)
    ensures SumOf(PeriodSeries(ts, StatisticsPeriod.WEEK, now), PeriodIncome) == SumAmounts(OfKind(ts, INCOME))
    ensures SumOf(PeriodSeries(ts, StatisticsPeriod.WEEK, now), PeriodExpense) == SumAmounts(OfKind(ts, EXPENSE))
  {
    forall t | t in ts ensures WeekdayKey(t) in WeekdayKeys {
      WeekdayOfIndex(DayOf(t.date));
    }
    assert NoDuplicates(WeekdayKeys);
    SeriesTotals(ts, WeekdayKey, WeekdayKeys, WeekdayLabels);
  }

  /** Inside the month window every transaction falls on a day 1..n of now's month: the day buckets add up to the totals. */
  lemma MonthSeriesTotals(ts: seq<Transaction>, now: int)
    requires forall t :: t in ts ==> MonthWindow(now, 0).Contains(t.date)
    ensures SumOf(PeriodSeries(ts, StatisticsPeriod.MONTH, now), PeriodIncome) == SumAmounts(OfKind(ts, INCOME))
    ensures SumOf(PeriodSeries(ts, StatisticsPeriod.MONTH, now), PeriodExpense) == SumAmounts(OfKind(ts, EXPENSE))
  {
    var n := DaysInMonthOf(now);
    var keys := DayKeys(n);
    forall t | t in ts ensures DayOfMonthKey(t) in keys {
      InMonthWindow(now, 0, t.date);
      assert keys[DayOfMonthKey(t) - 1] == DayOfMonthKey(t);
    }
    assert NoDuplicates(keys);
    SeriesTotals(ts, DayOfMonthKey, keys, DayLabels(n));
  }

  /** Every transaction's month has a bucket: the month buckets add up to the totals. */
  lemma YearSeriesTotals(ts: seq<Transaction>, now: int)
    ensures SumOf(PeriodSeries(ts, StatisticsPeriod.YEAR, now), PeriodIncome) == SumAmounts(OfKind(ts, INCOME))
    ensures SumOf(PeriodSeries(ts, StatisticsPeriod.YEAR, now), PeriodExpense) == SumAmounts(OfKind(ts, EXPENSE))
  {
    forall t | t in ts ensures MonthKey(t) in MonthKeys {
      assert MonthKeys[MonthKey(t)] == MonthKey(t);
    }
    SeriesTotals(ts, MonthKey, MonthKeys, MonthLabels);
  }

  /** The buckets of every period's series add up to the income and expense totals of a list inside the period's window. */
  lemma PeriodSeriesTotals(ts: seq<Transaction>, period: StatisticsPeriod, now: int)
    requires forall t :: t in ts ==> PeriodWindow(period, now).Contains(t.date)
    ensures SumOf(PeriodSeries(ts, period, now), PeriodIncome) == SumAmounts(OfKind(ts, INCOME))
    ensures SumOf(PeriodSeries(ts, period, now), PeriodExpense) == SumAmounts(OfKind(ts, EXPENSE))
  {
    match period
    case WEEK => WeekSeriesTotals(ts, now);
    case MONTH => MonthSeriesTotals(ts, now);
    case YEAR => YearSeriesTotals(ts, now);
  }

  // ---- calculateStatistics ----

  /** The screen state for period at instant now. */
  function StatisticsFor(ts: seq<Transaction>, categories: seq<Category>, period: StatisticsPeriod, now: int): StatisticsUiState {
    StatisticsOfWindow(InWindow(ts, PeriodWindow(period, now)), categories, period, now)
  }

  /** The state computed from the transactions already cut to the period's window. */
  function StatisticsOfWindow(filtered: seq<Transaction>, categories: seq<Category>, period: StatisticsPeriod, now: int): StatisticsUiState {
    var categoryExpenses := CategoryExpenses(filtered, categories);
    var totalIncome := SumAmounts(OfKind(filtered, INCOME));
    var totalExpense := SumAmounts(OfKind(filtered, EXPENSE));
    StatisticsUiState(period, categoryExpenses, PeriodSeries(filtered, period, now),
                      TotalStats(totalIncome, totalExpense, totalIncome - totalExpense),
                      Take(categoryExpenses, 5), false)
  }

  /** calculateStatistics: it reads the range off a Calendar and then computes the state from the window's transactions. */
  method CalculateStatistics(ts: seq<Transaction>, categories: seq<Category>, period: StatisticsPeriod, now: int)
    returns (state: StatisticsUiState)
    ensures state == StatisticsFor(ts, categories, period, now)
  {
    var range := GetDateRangeForPeriod(period, now);
    var filtered := InWindow(ts, range);
    var categoryExpenses := CategoryExpenses(filtered, categories);
    var periodData := PeriodSeries(filtered, period, now);
    var totalIncome := SumAmounts(OfKind(filtered, INCOME));
    var totalExpense := SumAmounts(OfKind(filtered, EXPENSE));
    var topCategories := Take(categoryExpenses, 5);
    state := StatisticsUiState(period, categoryExpenses, periodData,
                               TotalStats(totalIncome, totalExpense, totalIncome - totalExpense),
                               topCategories, false);
  }

  /** A transaction counts towards the state exactly when it is in the list and its date is in the period's window. */
  lemma StatisticsWindow(ts: seq<Transaction>, period: StatisticsPeriod, now: int, t: Transaction)
    ensures t in InWindow(ts, PeriodWindow(period, now)) <==> t in ts && PeriodWindow(period, now).Contains(t.date)
  {
    InWindowMember(ts, PeriodWindow(period, now), t);
  }

  /**
   * The parts of the state agree: income and expense split the window's
   * total, difference is income minus expense, the breakdown and the series
   * add up to the totals, the breakdown is empty exactly when there is no
   * expense, and the top categories are its first min(5, n) entries.
   */
  lemma StatisticsConsistent(ts: seq<Transaction>, categories: seq<Category>, period: StatisticsPeriod, now: int)
    ensures var s, filtered := StatisticsFor(ts, categories, period, now), InWindow(ts, PeriodWindow(period, now));
      && s.period == period && !s.isLoading
      && s.totalStats.totalIncome + s.totalStats.totalExpense == SumAmounts(filtered)
      && s.totalStats.difference == s.totalStats.totalIncome - s.totalStats.totalExpense
      && SumOf(s.categoryExpenses, EntryAmount) == s.totalStats.totalExpense
      && (s.categoryExpenses == [] <==> s.totalStats.totalExpense == 0)
      && SumOf(s.periodData, PeriodIncome) == s.totalStats.totalIncome
      && SumOf(s.periodData, PeriodExpense) == s.totalStats.totalExpense
      && SortedDesc(s.categoryExpenses, EntryAmount)
      && |s.topCategories| == (if |s.categoryExpenses| < 5 then |s.categoryExpenses| else 5)
      && forall i :: 0 <= i < |s.topCategories| ==> s.topCategories[i] == s.categoryExpenses[i]
  {
    var w := PeriodWindow(period, now);
    var filtered := InWindow(ts, w);
    KindsPartition(filtered);
    CategoryExpensesSum(filtered, categories);
    CategoryExpensesEmpty(filtered, categories);
    PeriodSeriesTotals(filtered, period, now);
  }

  class StatisticsViewModel {
    var uiState: StatisticsUiState

    constructor ()
      ensures uiState == DefaultUiState
    {
      uiState := DefaultUiState;
    }

    /** loadData: recompute for the current period from a snapshot of the transactions and categories. */
    method LoadData(ts: seq<Transaction>, categories: seq<Category>, now: int)
      modifies this
      ensures uiState == StatisticsFor(ts, categories, old(uiState).period, now)
    {
      var state := CalculateStatistics(ts, categories, uiState.period, now);
      uiState := state;
    }

    /** onPeriodChange: recompute for the new period. */
    method OnPeriodChange(period: StatisticsPeriod, ts: seq<Transaction>, categories: seq<Category>, now: int)
      modifies this
      ensures uiState == StatisticsFor(ts, categories, period, now)
    {
      var state := CalculateStatistics(ts, categories, period, now);
      uiState := state;
    }
  }
}
