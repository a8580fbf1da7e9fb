/**
 * BudgetViewModel: how much of each budget's limit is spent in the budget's
 * own period (the week, month or year containing the budget's start date),
 * and the add-budget form with its validation.
 *
 * Amounts are integer minor units and the percentage an exact real. The
 * text field's `toDoubleOrNull` is the parameter `parse`; `Date()` is `now`.
 */
module Budgets {
  import opened Wrappers
  import opened Lists
  import opened CivilCalendar
  import opened JavaCalendar
  import opened DateRanges
  import opened Domain
  import opened Ledger
  import opened AuthStore

  datatype BudgetWithSpent = BudgetWithSpent(budget: Budget, category: Category, currentSpent: int,
                                             percentage: real, isExceeded: bool)

  datatype AddBudgetState = AddBudgetState(
    selectedCategoryId: Option<int>,
    limitAmount: string,
    period: BudgetPeriod,
    expenseCategories: seq<Category>,
    categoryError: Option<string>,
    amountError: Option<string>)

  datatype BudgetUiState = BudgetUiState(budgets: seq<BudgetWithSpent>, isLoading: bool)

  /** `AddBudgetState()` with its default arguments. */
  const DefaultAddBudgetState := AddBudgetState(None, "", BudgetPeriod.MONTH, [], None, None)

  const CategoryRequired: string := "Оберіть категорію"
  const AmountInvalid: string := "Введіть коректну суму більше 0"

  // ---- getDateRangeForBudget ----

  /** The budget's period around its start date, ending at 23:59:59.000 as MILLISECOND stays 0. */
  function BudgetWindow(budget: Budget): Window {
    match budget.period
    case MONTH => MonthWindow(budget.startDate, 0)
    case WEEK => WeekWindow(budget.startDate, 0)
    case YEAR => YearWindow(budget.startDate, 0)
  }

  /** getDateRangeForBudget: a Calendar whose time is set to the budget's start date, moved by the period's recipe. */
  method GetDateRangeForBudget(budget: Budget, now: int) returns (w: Window)
    ensures w == BudgetWindow(budget)
  {
    var calendar := new Calendar(now);
    calendar.SetTime(budget.startDate);
    DayOfTime(calendar);
    match budget.period {
      case MONTH => w := MonthRange(calendar, None);
      case WEEK => w := WeekRange(calendar, None);
      case YEAR => w := YearRange(calendar, None);
    }
  }

  /**
   * The window is the start date's own week, month or year, whatever the
   * clock says: it starts at midnight no later than the start date and holds
   * the start date's day. The month window runs from the 1st to the month's
   * last day; the week window from Monday to Sunday; the year window from
   * January 1 to December 31.
   */
  lemma BudgetWindowShape(budget: Budget)
    ensures var w, dt := BudgetWindow(budget), DateOf(budget.startDate);
      && w.start <= budget.startDate && w.start < w.end
      && MillisOfDay(w.start) == 0 && MillisOfDay(w.end) == 86399000
      && DayOf(w.start) <= DayOf(budget.startDate) <= DayOf(w.end)
      && (budget.period == BudgetPeriod.MONTH ==>
            DateOf(w.start) == Date(dt.year, dt.month, 1) && DateOf(w.end) == Date(dt.year, dt.month, DaysInMonth(dt.year, dt.month)))
      && (budget.period == BudgetPeriod.WEEK ==>
            DayOfWeek(DayOf(w.start)) == MONDAY && DayOfWeek(DayOf(w.end)) == SUNDAY && DayOf(w.end) == DayOf(w.start) + 6)
      && (budget.period == BudgetPeriod.YEAR ==>
            DateOf(w.start) == Date(dt.year, 1, 1) && DateOf(w.end) == Date(dt.year, 12, 31))
  {
    match budget.period
    case MONTH =>
      assert BudgetWindow(budget) == MonthWindow(budget.startDate, 0);
      MonthWindowShape(budget.startDate, 0);
    case WEEK =>
      assert BudgetWindow(budget) == WeekWindow(budget.startDate, 0);
      WeekWindowShape(budget.startDate, 0);
    case YEAR =>
      assert BudgetWindow(budget) == YearWindow(budget.startDate, 0);
      YearWindowShape(budget.startDate, 0);
  }

  // ---- calculateBudgetSpent ----

  /** The category shown for a budget whose category is not in the list. */
  function UnknownCategory(id: int): Category {
    Category(id, "Невідома категорія", EXPENSE, "help", "#999999")
  }

  /** The three filters in the source's order (category, then type, then date) and the sum. */
  function Spent(budget: Budget, transactions: seq<Transaction>): int {
    SumAmounts(InWindow(OfKind(InCategory(transactions, budget.categoryId), EXPENSE), BudgetWindow(budget)))
  }

  /** A transaction counts towards a budget: same category, an expense, dated inside the budget's window. */
  predicate CountsTowards(budget: Budget, t: Transaction) {
    t.categoryId == budget.categoryId && t.kind == EXPENSE && BudgetWindow(budget).Contains(t.date)
  }

  /** Reference definition of the spending: a plain left-to-right sum over the counted transactions. */
  function SpentByFold(budget: Budget, transactions: seq<Transaction>): int {
    if |transactions| == 0 then 0
    else (if CountsTowards(budget, transactions[0]) then transactions[0].amount else 0) + SpentByFold(budget, transactions[1..])
  }

  /** The chained filters sum exactly the transactions that count towards the budget. */
  lemma {:induction false} SpentIsFold(budget: Budget, transactions: seq<Transaction>)
    ensures Spent(budget, transactions) == SpentByFold(budget, transactions)
  {
    if |transactions| > 0 {
      var t, rest := transactions[0], transactions[1..];
      assert transactions == [t] + rest;
      SpentIsFold(budget, rest);
      var w := BudgetWindow(budget);
      BucketCons(t, rest, CategoryIdOf, budget.categoryId);
      var inCat := InCategory(rest, budget.categoryId);
      if t.categoryId == budget.categoryId {
        assert InCategory(transactions, budget.categoryId) == [t] + inCat;
        OfKindCons(t, inCat, EXPENSE);
        var ofKind := OfKind(inCat, EXPENSE);
        if t.kind == EXPENSE {
          assert OfKind([t] + inCat, EXPENSE) == [t] + ofKind;
          FilterCons(t, ofKind, (t: Transaction) => w.Contains(t.date));
          if w.Contains(t.date) {
            SumAmountsCons(t, InWindow(ofKind, w));
          } else {
            assert InWindow([t] + ofKind, w) == InWindow(ofKind, w);
          }
        } else {
          assert OfKind([t] + inCat, EXPENSE) == ofKind;
        }
      } else {
        assert InCategory(transactions, budget.categoryId) == inCat;
      }
    }
  }

  /** spent / amount * 100 for a positive limit, and exactly 0 otherwise. */
  function SpentPercentage(spent: int, limit: int): (p: real)
    ensures limit > 0 ==> p * limit as real == spent as real * 100.0
    ensures limit <= 0 ==> p == 0.0
    ensures limit > 0 && 0 <= spent ==> 0.0 <= p
    ensures limit > 0 && spent <= limit ==> p <= 100.0
  {
    if limit > 0 then spent as real / limit as real * 100.0 else 0.0
  }

  /** calculateBudgetSpent with the budget's window. */
  function BudgetSpentFor(budget: Budget, transactions: seq<Transaction>, categories: seq<Category>): BudgetWithSpent {
    var spent := Spent(budget, transactions);
    BudgetWithSpent(budget, FindCategory(categories, budget.categoryId).GetOr(UnknownCategory(budget.categoryId)),
                    spent, SpentPercentage(spent, budget.amount), spent > budget.amount)
  }

  /**
   * The entry for a budget: the budget itself, its category (or the
   * placeholder with the budget's category id), the spending, its share of
   * the limit, and "exceeded" exactly when strictly more than the limit is spent.
   */
  lemma BudgetSpentFields(budget: Budget, transactions: seq<Transaction>, categories: seq<Category>)
    ensures var r := BudgetSpentFor(budget, transactions, categories);
      && r.budget == budget
      && r.currentSpent == SpentByFold(budget, transactions)
      && (r.isExceeded <==> r.currentSpent > budget.amount)
      && (r.currentSpent == budget.amount ==> !r.isExceeded)
      && r.percentage == SpentPercentage(r.currentSpent, budget.amount)
      && r.category.id == budget.categoryId
      && (FindCategory(categories, budget.categoryId).None? ==> r.category == UnknownCategory(budget.categoryId))
      && (FindCategory(categories, budget.categoryId).Some? ==> r.category == FindCategory(categories, budget.categoryId).value)
  {
    SpentIsFold(budget, transactions);
  }

  /** calculateBudgetSpent: the window comes from a Calendar, the rest from the filters. */
  method CalculateBudgetSpent(budget: Budget, transactions: seq<Transaction>, categories: seq<Category>, now: int)
    returns (r: BudgetWithSpent)
    ensures r == BudgetSpentFor(budget, transactions, categories)
  {
    var category := FindCategory(categories, budget.categoryId).GetOr(UnknownCategory(budget.categoryId));
    var range := GetDateRangeForBudget(budget, now);
    var spent := SumAmounts(InWindow(OfKind(InCategory(transactions, budget.categoryId), EXPENSE), range));
    var percentage := SpentPercentage(spent, budget.amount);
    r := BudgetWithSpent(budget, category, spent, percentage, spent > budget.amount);
  }

  /** `budgets.map { calculateBudgetSpent(it, ...) }`: one entry per budget, in order. */
  method BudgetsWithSpent(budgets: seq<Budget>, transactions: seq<Transaction>, categories: seq<Category>, now: int)
    returns (r: seq<BudgetWithSpent>)
    ensures |r| == |budgets|
    ensures forall i :: 0 <= i < |budgets| ==> r[i] == BudgetSpentFor(budgets[i], transactions, categories)
  {
    r := [];
    for i := 0 to |budgets|
      invariant |r| == i
      invariant forall j :: 0 <= j < i ==> r[j] == BudgetSpentFor(budgets[j], transactions, categories)
    {
      var entry := CalculateBudgetSpent(budgets[i], transactions, categories, now);
      r := r + [entry];
    }
  }

  // ---- The add-budget form ----

  /** Whether the limit text parses to a positive amount. */
  predicate ValidLimit(parsed: Option<int>) {
    parsed.Some? && parsed.value > 0
  }

  class BudgetViewModel {
    var uiState: BudgetUiState
    var addBudgetState: AddBudgetState

    constructor ()
      ensures uiState == BudgetUiState([], true) && addBudgetState == DefaultAddBudgetState
    {
      uiState := BudgetUiState([], true);
      addBudgetState := DefaultAddBudgetState;
    }

    /** loadBudgets: recompute every budget's entry from a snapshot. */
    method LoadBudgets(budgets: seq<Budget>, transactions: seq<Transaction>, categories: seq<Category>, now: int)
      modifies this`uiState
      ensures |uiState.budgets| == |budgets| && !uiState.isLoading
      ensures forall i :: 0 <= i < |budgets| ==> uiState.budgets[i] == BudgetSpentFor(budgets[i], transactions, categories)
    {
      var entries := BudgetsWithSpent(budgets, transactions, categories, now);
      uiState := BudgetUiState(entries, false);
    }

    /** initAddBudgetForm: a fresh form offering only the expense categories. */
    method InitAddBudgetForm(categories: seq<Category>)
      modifies this`addBudgetState
      ensures addBudgetState == DefaultAddBudgetState.(expenseCategories := Filter(categories, (c: Category) => c.kind == EXPENSE))
      ensures forall c :: c in addBudgetState.expenseCategories ==> c in categories && c.kind == EXPENSE
    {
      addBudgetState := AddBudgetState(None, "", BudgetPeriod.MONTH, Filter(categories, (c: Category) => c.kind == EXPENSE), None, None);
    }

    method OnCategorySelect(categoryId: int)
      modifies this`addBudgetState
      ensures addBudgetState == old(addBudgetState).(selectedCategoryId := Some(categoryId), categoryError := None)
    {
      addBudgetState := addBudgetState.(selectedCategoryId := Some(categoryId), categoryError := None);
    }

    method OnLimitAmountChange(amount: string)
      modifies this`addBudgetState
      ensures addBudgetState == old(addBudgetState).(limitAmount := amount, amountError := None)
    {
      addBudgetState := addBudgetState.(limitAmount := amount, amountError := None);
    }

    method OnPeriodChange(period: BudgetPeriod)
      modifies this`addBudgetState
      ensures addBudgetState == old(addBudgetState).(period := period)
    {
      addBudgetState := addBudgetState.(period := period);
    }

    /**
     * saveBudget: both checks run, each setting its own error; with either
     * error nothing is saved. Otherwise the budget gets the selected category,
     * the parsed limit, the form's period and the current instant as its
     * start, and the form is left as it is.
     */
    method SaveBudget(parse: string -> Option<int>, prefs: Prefs, now: int) returns (saved: Option<Budget>)
      modifies this`addBudgetState
      ensures var s0 := old(addBudgetState); var parsed := parse(s0.limitAmount);
        && (saved.Some? <==> s0.selectedCategoryId.Some? && ValidLimit(parsed))
        && addBudgetState.categoryError == (if s0.selectedCategoryId.None? then Some(CategoryRequired) else s0.categoryError)
        && addBudgetState.amountError == (if !ValidLimit(parsed) then Some(AmountInvalid) else s0.amountError)
        && addBudgetState.(categoryError := s0.categoryError, amountError := s0.amountError) == s0
        && (saved.Some? ==> saved.value == Budget(0, CurrentUserId(prefs), s0.selectedCategoryId.value, parsed.value, s0.period, now))
    {
      var state := addBudgetState;
      var hasError := false;
      if state.selectedCategoryId.None? {
        addBudgetState := state.(categoryError := Some(CategoryRequired));
        hasError := true;
      }
      var amountValue := parse(state.limitAmount);
      if amountValue.None? || amountValue.value <= 0 {
        addBudgetState := addBudgetState.(amountError := Some(AmountInvalid));
        hasError := true;
      }
      if hasError {
        return None;
      }
      saved := Some(Budget(0, CurrentUserId(prefs), state.selectedCategoryId.value, amountValue.value, state.period, now));
    }
  }
}
