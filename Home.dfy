/**
 * HomeViewModel: the home screen's month summary and the add-transaction
 * form, whose save writes a transaction and adjusts the account's balance.
 *
 * `toDoubleOrNull` is the parameter `parse` (an amount in minor units, or
 * None). A storage exception is the parameter `fault`: it strikes either the
 * insert or, after the insert, the account lookup and update. `Date()` and
 * the month window read the clock, here `now`.
 */
module Home {
  import opened Wrappers
  import opened Lists
  import opened Text
  import opened CivilCalendar
  import opened JavaCalendar
  import opened DateRanges
  import opened Domain
  import opened Entities
  import opened Ledger
  import opened AuthStore
  import opened Tables
  import opened TransactionStore
  import opened ClientTransactions
  import opened AccountStore

  datatype HomeUiState = HomeUiState(
    accounts: seq<Account>,
    totalBalance: int,
    recentTransactions: seq<Transaction>,
    monthIncome: int,
    monthExpense: int,
    isLoading: bool)

  const DefaultHomeUiState := HomeUiState([], 0, [], 0, 0, true)

  /** The Kotlin field `type` is `kind` here. */
  datatype AddTransactionState = AddTransactionState(
    kind: TransactionType,
    amount: string,
    selectedAccountId: Option<int>,
    selectedCategoryId: Option<int>,
    note: string,
    date: int,
    categories: seq<Category>,
    amountError: Option<string>,
    accountError: Option<string>,
    categoryError: Option<string>)

  /** `AddTransactionState()`: an expense with nothing filled in, dated at its creation. */
  function DefaultAddTransactionState(now: int): AddTransactionState {
    AddTransactionState(EXPENSE, "", None, None, "", now, [], None, None, None)
  }

  const AmountRequired := "Введіть суму"
  const AmountFormat := "Невірний формат суми"
  const AmountNotPositiveError := "Сума має бути більше 0"
  const AccountRequired := "Виберіть рахунок"
  const CategoryRequired := "Виберіть категорію"
  const SaveFailedPrefix := "Помилка збереження: "

  /** The number of transactions the home screen shows. */
  const RecentLimit := 5

  /** Where a storage exception strikes during a save. */
  datatype StorageFault = NoFault | InsertFault(message: string) | AccountFault(message: string)

  // ---- Validation ----

  /** The amount check of saveTransaction: blank, then unparseable, then not positive. */
  function AmountErrorOf(amount: string, parsed: Option<int>): (r: Option<string>)
    ensures r == Some(AmountRequired) <==> IsBlank(amount)
    ensures r == Some(AmountFormat) <==> !IsBlank(amount) && parsed.None?
    ensures r == Some(AmountNotPositiveError) <==> !IsBlank(amount) && parsed.Some? && parsed.value <= 0
    ensures r.None? <==> !IsBlank(amount) && parsed.Some? && parsed.value > 0
  {
    if IsBlank(amount) then Some(AmountRequired)
    else if parsed.None? then Some(AmountFormat)
    else if parsed.value <= 0 then Some(AmountNotPositiveError)
    else None
  }

  function AccountErrorOf(selectedAccountId: Option<int>): (r: Option<string>)
    ensures r.None? <==> selectedAccountId.Some?
    ensures r.Some? ==> r.value == AccountRequired
  {
    if selectedAccountId.None? then Some(AccountRequired) else None
  }

  function CategoryErrorOf(selectedCategoryId: Option<int>): (r: Option<string>)
    ensures r.None? <==> selectedCategoryId.Some?
    ensures r.Some? ==> r.value == CategoryRequired
  {
    if selectedCategoryId.None? then Some(CategoryRequired) else None
  }

  /** The form with all three checks written into it; saveTransaction stops here when any is set. */
  function WithErrors(state: AddTransactionState, parsed: Option<int>): AddTransactionState {
    state.(amountError := AmountErrorOf(state.amount, parsed),
           accountError := AccountErrorOf(state.selectedAccountId),
           categoryError := CategoryErrorOf(state.selectedCategoryId))
  }

  /** Whether the form passes every check. */
  predicate Passes(state: AddTransactionState, parsed: Option<int>) {
    AmountErrorOf(state.amount, parsed).None? && state.selectedAccountId.Some? && state.selectedCategoryId.Some?
  }

  /** The checks report together: a form fails exactly when one of its three errors is set. */
  lemma ErrorsReportedTogether(state: AddTransactionState, parsed: Option<int>)
    ensures var s := WithErrors(state, parsed);
      !Passes(state, parsed) <==> s.amountError.Some? || s.accountError.Some? || s.categoryError.Some?
    ensures Passes(state, parsed) ==> parsed.Some? && parsed.value > 0
  {
  }

  /** The transaction a passing form describes. */
  function NewTransaction(state: AddTransactionState, parsed: Option<int>): (t: Transaction)
    requires Passes(state, parsed)
    ensures t.accountId == state.selectedAccountId.value && t.categoryId == state.selectedCategoryId.value
    ensures t.amount == parsed.value && t.amount > 0
    ensures t.date == state.date && t.note == state.note && t.kind == state.kind && t.id == 0
  {
    Transaction(0, state.selectedAccountId.value, state.selectedCategoryId.value, parsed.value, state.date, state.note, state.kind)
  }

  /** The balance after a transaction: an income adds its amount, an expense subtracts it. */
  function AdjustedBalance(balance: int, kind: TransactionType, amount: int): (r: int)
    ensures kind == INCOME ==> r - balance == amount
    ensures kind == EXPENSE ==> balance - r == amount
  {
    if kind == INCOME then balance + amount else balance - amount
  }

  /** The account table after a save: the selected account's row with its balance adjusted, or no change when it is missing. */
  function AccountsAfterSave(rows: seq<AccountEntity>, account: Option<Account>, kind: TransactionType, amount: int): seq<AccountEntity> {
    match account
    case None => rows
    case Some(a) => Replace(rows, AccountEntityId, AccountToEntity(a.(balance := AdjustedBalance(a.balance, kind, amount))))
  }

  /**
   * A successful save leaves the selected account holding the adjusted
   * balance and every other account's row as it was; a missing account
   * leaves the table as it was.
   */
  lemma AccountsAfterSaveLookup(rows: seq<AccountEntity>, a: Account, kind: TransactionType, amount: int, id: int)
    requires Lookup(rows, AccountEntityId, a.id).Some?
    ensures var after := AccountsAfterSave(rows, Some(a), kind, amount);
      && Lookup(after, AccountEntityId, a.id) == Some(AccountToEntity(a.(balance := AdjustedBalance(a.balance, kind, amount))))
      && (id != a.id ==> Lookup(after, AccountEntityId, id) == Lookup(rows, AccountEntityId, id))
  {
    UpdateAccountLookup(rows, a.(balance := AdjustedBalance(a.balance, kind, amount)), a.id);
    UpdateAccountLookup(rows, a.(balance := AdjustedBalance(a.balance, kind, amount)), id);
  }

  /** With unique account ids the total balance moves by the transaction's signed amount. */
  lemma TotalBalanceAfterSave(accounts: seq<Account>, id: int, kind: TransactionType, amount: int)
    requires UniqueAccountIds(accounts) && exists a :: a in accounts && a.id == id
    ensures TotalBalance(ChangeBalance(accounts, id, if kind == INCOME then amount else -amount))
            == if kind == INCOME then TotalBalance(accounts) + amount else TotalBalance(accounts) - amount
  {
    TotalBalanceUpdate(accounts, id, if kind == INCOME then amount else -amount);
  }

  /**
   * The rows a save writes are the accounts with the selected one's balance
   * changed by the signed amount, so the total balance moves by exactly that
   * amount; a missing account leaves the accounts and the total as they were.
   */
  lemma SavedAccountsBalance(dao: AccountDao, id: int, kind: TransactionType, amount: int)
    requires dao.Valid()
    ensures forall e :: e in AccountsAfterSave(dao.rows, dao.GetAccountById(id), kind, amount) ==> AccountToDomain(e).Some?
    ensures var before, after := StoredAccounts(dao.rows), StoredAccounts(AccountsAfterSave(dao.rows, dao.GetAccountById(id), kind, amount));
      var delta := if kind == INCOME then amount else -amount;
      && (dao.GetAccountById(id).Some? ==> after == ChangeBalance(before, id, delta) && TotalBalance(after) == TotalBalance(before) + delta)
      && (dao.GetAccountById(id).None? ==> after == before)
  {
    var found := dao.GetAccountById(id);
    if found.Some? {
      var a := found.value;
      var delta := if kind == INCOME then amount else -amount;
      assert a.(balance := AdjustedBalance(a.balance, kind, amount)) == a.(balance := a.balance + delta);
      ReplaceStoredAccounts(dao.rows, a, delta);
      StoredAccountIds(dao.rows);
      var before := StoredAccounts(dao.rows);
      var k :| 0 <= k < |dao.rows| && dao.rows[k] == AccountToEntity(a);
      AccountRoundTrip(a);
      assert before[k] == a;
      TotalBalanceUpdate(before, id, delta);
    }
  }

  // ---- The month window and the summary ----

  /** getCurrentMonthDateRange: the 1st 00:00:00.000 to the last day 23:59:59.999 of now's month. */
  method GetCurrentMonthDateRange(now: int) returns (w: Window)
    ensures w == MonthWindow(now, 999)
  {
    var calendar := new Calendar(now);
    DayOfTime(calendar);
    w := MonthRange(calendar, Some(999));
  }

  /** The summary loadData assembles from one snapshot of the tables. */
  function HomeStateFor(accounts: seq<Account>, rows: seq<TransactionEntity>, accountRows: seq<AccountEntity>,
                        userId: int, now: int): HomeUiState
    requires GetRecentTransactions(rows, accountRows, userId, RecentLimit).Some?
  {
    var w := MonthWindow(now, 999);
    HomeUiState(
      accounts,
      TotalBalance(accounts),
      GetRecentTransactions(rows, accountRows, userId, RecentLimit).value,
      GetSumByTypeOrZero(rows, accountRows, userId, INCOME, w.start, w.end),
      GetSumByTypeOrZero(rows, accountRows, userId, EXPENSE, w.start, w.end),
      false)
  }

  /**
   * The month income and expense are the sums over the user's transactions
   * of that type in now's calendar month, and the recent list holds at most
   * five of the newest.
   */
  lemma HomeStateMeaning(accounts: seq<Account>, rows: seq<TransactionEntity>, accountRows: seq<AccountEntity>,
                         userId: int, now: int)
    requires GetRecentTransactions(rows, accountRows, userId, RecentLimit).Some?
    requires var w := MonthWindow(now, 999); GetTransactionsByDateRange(rows, accountRows, userId, w.start, w.end).Some?
    ensures var s := HomeStateFor(accounts, rows, accountRows, userId, now);
      var w := MonthWindow(now, 999);
      var month := GetTransactionsByDateRange(rows, accountRows, userId, w.start, w.end).value;
      && s.monthIncome == SumAmounts(OfKind(month, INCOME))
      && s.monthExpense == SumAmounts(OfKind(month, EXPENSE))
      && s.totalBalance == TotalBalance(accounts)
      && |s.recentTransactions| <= RecentLimit
  {
    var w := MonthWindow(now, 999);
    SumByTypeIsRangeSum(rows, accountRows, userId, INCOME, w.start, w.end);
    SumByTypeIsRangeSum(rows, accountRows, userId, EXPENSE, w.start, w.end);
  }

  /**
   * The writes of a validated save once the insert is known not to fail:
   * the insert under the next id, then, unless the account write fails, the
   * balance adjustment of the account with that id when it exists.
   */
  method PersistTransaction(transactions: TransactionDao, accounts: AccountDao, fault: StorageFault,
                            transaction: Transaction, accountId: int) returns (ok: bool)
    requires transactions.Valid() && accounts.Valid() && !fault.InsertFault?
    requires transaction.id == 0 && transaction.amount > 0
    modifies transactions, accounts`rows
    ensures transactions.Valid() && accounts.Valid()
    ensures ok <==> fault.NoFault?
    ensures transactions.rows == old(transactions.rows) + [TransactionToEntity(transaction.(id := old(transactions.lastId) + 1))]
    ensures !ok ==> accounts.rows == old(accounts.rows)
    ensures ok ==> accounts.rows == AccountsAfterSave(old(accounts.rows), old(accounts.GetAccountById(accountId)),
                                                      transaction.kind, transaction.amount)
  {
    ghost var rows0 := transactions.rows;
    ghost var lastId0 := transactions.lastId;
    var inserted := AddTransaction(transactions, transaction);
    InsertFresh(rows0, lastId0, TransactionToEntity(transaction));
    assert TransactionToEntity(transaction).(id := lastId0 + 1) == TransactionToEntity(transaction.(id := lastId0 + 1));
    if fault.AccountFault? {
      return false;
    }
    AdjustAccount(accounts, accountId, transaction.kind, transaction.amount);
    ok := true;
  }

  /** The balance adjustment of the account with that id, when it exists. */
  method AdjustAccount(accounts: AccountDao, accountId: int, kind: TransactionType, amount: int)
    requires accounts.Valid()
    modifies accounts`rows
    ensures accounts.Valid()
    ensures accounts.rows == AccountsAfterSave(old(accounts.rows), old(accounts.GetAccountById(accountId)), kind, amount)
  {
    var account := accounts.GetAccountById(accountId);
    if account.Some? {
      var newBalance := AdjustedBalance(account.value.balance, kind, amount);
      accounts.UpdateAccount(account.value.(balance := newBalance));
    }
  }

  class HomeViewModel {
    var uiState: HomeUiState
    var addTransactionState: AddTransactionState

    constructor (now: int)
      ensures uiState == DefaultHomeUiState && addTransactionState == DefaultAddTransactionState(now)
    {
      uiState := DefaultHomeUiState;
      addTransactionState := DefaultAddTransactionState(now);
    }

    /** loadData: the summary of the current user's data. */
    method LoadData(accounts: seq<Account>, rows: seq<TransactionEntity>, accountRows: seq<AccountEntity>, prefs: Prefs, now: int)
      requires GetRecentTransactions(rows, accountRows, CurrentUserId(prefs), RecentLimit).Some?
      modifies this`uiState
      ensures uiState == HomeStateFor(accounts, rows, accountRows, CurrentUserId(prefs), now)
    {
      var userId := CurrentUserId(prefs);
      var w := GetCurrentMonthDateRange(now);
      var income := GetSumByTypeOrZero(rows, accountRows, userId, INCOME, w.start, w.end);
      var expense := GetSumByTypeOrZero(rows, accountRows, userId, EXPENSE, w.start, w.end);
      var recent := GetRecentTransactions(rows, accountRows, userId, RecentLimit).value;
      uiState := HomeUiState(accounts, TotalBalance(accounts), recent, income, expense, false);
    }

    method Refresh()
      modifies this`uiState
      ensures uiState == old(uiState).(isLoading := true)
    {
      uiState := uiState.(isLoading := true);
    }

    /** onTransactionTypeChange: the new type, no category, and the categories of that type. */
    method OnTransactionTypeChange(kind: TransactionType, allCategories: seq<Category>)
      modifies this`addTransactionState
      ensures addTransactionState == old(addTransactionState).(kind := kind, selectedCategoryId := None,
                categories := Filter(allCategories, (c: Category) => c.kind == kind))
    {
      addTransactionState := addTransactionState.(kind := kind, selectedCategoryId := None);
      addTransactionState := addTransactionState.(categories := Filter(allCategories, (c: Category) => c.kind == kind));
    }

    /** initAddTransactionForm: a fresh form offering the expense categories. */
    method InitAddTransactionForm(allCategories: seq<Category>, now: int)
      modifies this`addTransactionState
      ensures addTransactionState == DefaultAddTransactionState(now).(categories := Filter(allCategories, (c: Category) => c.kind == EXPENSE))
    {
      addTransactionState := DefaultAddTransactionState(now);
      addTransactionState := addTransactionState.(categories := Filter(allCategories, (c: Category) => c.kind == EXPENSE));
    }

    /** The accounts arriving for an open form: the first account is selected only when none is. */
    method OnAccountsLoaded(accounts: seq<Account>)
      modifies this`addTransactionState
      ensures old(addTransactionState).selectedAccountId.None? && |accounts| > 0
              ==> addTransactionState == old(addTransactionState).(selectedAccountId := Some(accounts[0].id))
      ensures old(addTransactionState).selectedAccountId.Some? || |accounts| == 0
              ==> addTransactionState == old(addTransactionState)
    {
      if |accounts| > 0 && addTransactionState.selectedAccountId.None? {
        addTransactionState := addTransactionState.(selectedAccountId := Some(accounts[0].id));
      }
    }

    method OnAmountChange(amount: string)
      modifies this`addTransactionState
      ensures addTransactionState == old(addTransactionState).(amount := amount, amountError := None)
    {
      addTransactionState := addTransactionState.(amount := amount, amountError := None);
    }

    method OnAccountSelect(accountId: int)
      modifies this`addTransactionState
      ensures addTransactionState == old(addTransactionState).(selectedAccountId := Some(accountId), accountError := None)
    {
      addTransactionState := addTransactionState.(selectedAccountId := Some(accountId), accountError := None);
    }

    method OnCategorySelect(categoryId: int)
      modifies this`addTransactionState
      ensures addTransactionState == old(addTransactionState).(selectedCategoryId := Some(categoryId), categoryError := None)
    {
      addTransactionState := addTransactionState.(selectedCategoryId := Some(categoryId), categoryError := None);
    }

    method OnNoteChange(note: string)
      modifies this`addTransactionState
      ensures addTransactionState == old(addTransactionState).(note := note)
    {
      addTransactionState := addTransactionState.(note := note);
    }

    method OnDateChange(date: int)
      modifies this`addTransactionState
      ensures addTransactionState == old(addTransactionState).(date := date)
    {
      addTransactionState := addTransactionState.(date := date);
    }

    /**
     * saveTransaction. A failing form gets all three errors written and
     * nothing is stored. A passing one is inserted; then the selected
     * account, when it exists, has its balance adjusted, and the form is
     * reset. A storage fault writes its message into the amount error and
     * stops just where it strikes.
     */
    method SaveTransaction(parse: string -> Option<int>, transactions: TransactionDao, accounts: AccountDao,
                           fault: StorageFault, now: int) returns (saved: bool)
      requires transactions.Valid() && accounts.Valid()
      modifies this`addTransactionState, transactions, accounts`rows
      ensures transactions.Valid() && accounts.Valid()
      ensures var s0 := old(addTransactionState); var parsed := parse(s0.amount);
        && (saved <==> Passes(s0, parsed) && fault.NoFault?)
        && (!Passes(s0, parsed) ==>
              addTransactionState == WithErrors(s0, parsed)
              && transactions.rows == old(transactions.rows) && accounts.rows == old(accounts.rows))
        && (Passes(s0, parsed) && fault.InsertFault? ==>
              addTransactionState == s0.(amountError := Some(SaveFailedPrefix + fault.message))
              && transactions.rows == old(transactions.rows) && accounts.rows == old(accounts.rows))
        && (Passes(s0, parsed) && !fault.InsertFault? ==>
              var id := old(transactions.lastId) + 1;
              transactions.rows == old(transactions.rows) + [TransactionToEntity(NewTransaction(s0, parsed).(id := id))])
        && (Passes(s0, parsed) && fault.AccountFault? ==>
              addTransactionState == s0.(amountError := Some(SaveFailedPrefix + fault.message))
              && accounts.rows == old(accounts.rows))
        && (saved ==>
              addTransactionState == DefaultAddTransactionState(now)
              && accounts.rows == AccountsAfterSave(old(accounts.rows), old(accounts.GetAccountById(s0.selectedAccountId.value)),
                                                    s0.kind, parsed.value))
    {
      var state := addTransactionState;
      var amountValue := parse(state.amount);
      var amountError := AmountErrorOf(state.amount, amountValue);
      var accountError := AccountErrorOf(state.selectedAccountId);
      var categoryError := CategoryErrorOf(state.selectedCategoryId);
      if amountError.Some? || accountError.Some? || categoryError.Some? {
        addTransactionState := state.(amountError := amountError, accountError := accountError, categoryError := categoryError);
        return false;
      }
      var transaction := NewTransaction(state, amountValue);
      if fault.InsertFault? {
        addTransactionState := state.(amountError := Some(SaveFailedPrefix + fault.message));
        return false;
      }
      var stored := PersistTransaction(transactions, accounts, fault, transaction, state.selectedAccountId.value);
      if !stored {
        addTransactionState := state.(amountError := Some(SaveFailedPrefix + fault.message));
        return false;
      }
      addTransactionState := DefaultAddTransactionState(now);
      saved := true;
    }
  }
}
