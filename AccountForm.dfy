/**
 * AccountViewModel: the account list and the add-account form.
 *
 * `toDoubleOrNull` is the parameter `parse` (a balance in minor units, or
 * None); a storage exception during the insert is the parameter `fault`,
 * carrying its message.
 */
module AccountForm {
  import opened Wrappers
  import opened Text
  import opened Domain
  import opened Entities
  import opened Tables
  import opened AuthStore
  import opened AccountStore

  datatype AccountsUiState = AccountsUiState(accounts: seq<Account>, isLoading: bool)

  const DefaultAccountsUiState := AccountsUiState([], true)

  /** The Kotlin field `type` is `kind` here. */
  datatype AddAccountState = AddAccountState(
    name: string,
    balance: string,
    kind: AccountType,
    color: string,
    icon: string,
    nameError: Option<string>,
    balanceError: Option<string>)

  const DefaultAddAccountState := AddAccountState("", "", CARD, "#667EEA", "account_balance_wallet", None, None)

  const NameRequired := "Введіть назву рахунку"
  const NameTooShort := "Назва має бути мінімум 2 символи"
  const BalanceRequired := "Введіть початковий баланс"
  const BalanceFormat := "Невірний формат суми"
  const BalanceNegative := "Баланс не може бути від'ємним"
  const SaveFailedPrefix := "Помилка збереження: "

  /** The currency an Account gets when none is given. */
  const DefaultCurrency := "UAH"

  /** The name check: blank first, then shorter than two characters. */
  function NameErrorOf(name: string): (r: Option<string>)
    ensures r == Some(NameRequired) <==> IsBlank(name)
    ensures r == Some(NameTooShort) <==> !IsBlank(name) && |name| < 2
    ensures r.None? <==> !IsBlank(name) && |name| >= 2
  {
    if IsBlank(name) then Some(NameRequired)
    else if |name| < 2 then Some(NameTooShort)
    else None
  }

  /** The balance check: blank, then unparseable, then negative; zero is accepted. */
  function BalanceErrorOf(balance: string, parsed: Option<int>): (r: Option<string>)
    ensures r == Some(BalanceRequired) <==> IsBlank(balance)
    ensures r == Some(BalanceFormat) <==> !IsBlank(balance) && parsed.None?
    ensures r == Some(BalanceNegative) <==> !IsBlank(balance) && parsed.Some? && parsed.value < 0
    ensures r.None? <==> !IsBlank(balance) && parsed.Some? && parsed.value >= 0
  {
    if IsBlank(balance) then Some(BalanceRequired)
    else if parsed.None? then Some(BalanceFormat)
    else if parsed.value < 0 then Some(BalanceNegative)
    else None
  }

  predicate Passes(state: AddAccountState, parsed: Option<int>) {
    NameErrorOf(state.name).None? && BalanceErrorOf(state.balance, parsed).None?
  }

  /** The account a passing form describes, owned by the current user, in the default currency. */
  function NewAccount(state: AddAccountState, parsed: Option<int>, userId: int): (a: Account)
    requires Passes(state, parsed)
    ensures a.id == 0 && a.userId == userId && a.currency == DefaultCurrency
    ensures a.name == state.name && |a.name| >= 2 && a.balance == parsed.value && a.balance >= 0
    ensures a.kind == state.kind && a.color == state.color && a.icon == state.icon
  {
    Account(0, userId, state.name, parsed.value, DefaultCurrency, state.kind, state.color, state.icon)
  }

  /**
   * An account inserted with id 0 gets the id after the largest one issued;
   * no row has it, so the insert adds one row, reads back as the account,
   * and leaves every other row in place.
   */
  lemma AddedAccountReads(rows: seq<AccountEntity>, lastId: int, a: Account, j: int)
    requires forall e :: e in rows ==> e.id <= lastId
    ensures var inserted := a.(id := lastId + 1);
      && Put(rows, AccountEntityId, AccountToEntity(inserted)) == rows + [AccountToEntity(inserted)]
      && Lookup(Put(rows, AccountEntityId, AccountToEntity(inserted)), AccountEntityId, j)
         == (if j == lastId + 1 then Some(AccountToEntity(inserted)) else Lookup(rows, AccountEntityId, j))
      && AccountToDomain(AccountToEntity(inserted)) == Some(inserted)
  {
    var inserted := a.(id := lastId + 1);
    PutFresh(rows, AccountEntityId, AccountToEntity(inserted));
    LookupPut(rows, AccountEntityId, AccountToEntity(inserted), j);
    AccountRoundTrip(inserted);
  }

  class AccountViewModel {
    var uiState: AccountsUiState
    var addAccountState: AddAccountState

    constructor ()
      ensures uiState == DefaultAccountsUiState && addAccountState == DefaultAddAccountState
    {
      uiState := DefaultAccountsUiState;
      addAccountState := DefaultAddAccountState;
    }

    /** loadAccounts: each emission of the user's accounts replaces the list and ends loading. */
    method LoadAccounts(accounts: seq<Account>)
      modifies this`uiState
      ensures uiState == AccountsUiState(accounts, false)
    {
      uiState := AccountsUiState(accounts, false);
    }

    method InitAddAccountForm()
      modifies this`addAccountState
      ensures addAccountState == DefaultAddAccountState
    {
      addAccountState := DefaultAddAccountState;
    }

    method OnNameChange(name: string)
      modifies this`addAccountState
      ensures addAccountState == old(addAccountState).(name := name, nameError := None)
    {
      addAccountState := addAccountState.(name := name, nameError := None);
    }

    method OnBalanceChange(balance: string)
      modifies this`addAccountState
      ensures addAccountState == old(addAccountState).(balance := balance, balanceError := None)
    {
      addAccountState := addAccountState.(balance := balance, balanceError := None);
    }

    method OnTypeChange(kind: AccountType)
      modifies this`addAccountState
      ensures addAccountState == old(addAccountState).(kind := kind)
    {
      addAccountState := addAccountState.(kind := kind);
    }

    method OnColorChange(color: string)
      modifies this`addAccountState
      ensures addAccountState == old(addAccountState).(color := color)
    {
      addAccountState := addAccountState.(color := color);
    }

    method OnIconChange(icon: string)
      modifies this`addAccountState
      ensures addAccountState == old(addAccountState).(icon := icon)
    {
      addAccountState := addAccountState.(icon := icon);
    }

    /**
     * saveAccount. A failing form gets both errors written and nothing is
     * stored. A passing one is inserted for the current user and the form is
     * reset; a storage fault leaves the table as it was and writes its
     * message into the name error.
     */
    method SaveAccount(parse: string -> Option<int>, dao: AccountDao, prefs: Prefs, fault: Option<string>)
      returns (saved: bool)
      requires dao.Valid()
      modifies this`addAccountState, dao
      ensures dao.Valid()
      ensures var s0 := old(addAccountState); var parsed := parse(s0.balance);
        && (saved <==> Passes(s0, parsed) && fault.None?)
        && (!Passes(s0, parsed) ==>
              addAccountState == s0.(nameError := NameErrorOf(s0.name), balanceError := BalanceErrorOf(s0.balance, parsed))
              && dao.rows == old(dao.rows) && dao.lastId == old(dao.lastId))
        && (Passes(s0, parsed) && fault.Some? ==>
              addAccountState == s0.(nameError := Some(SaveFailedPrefix + fault.value))
              && dao.rows == old(dao.rows) && dao.lastId == old(dao.lastId))
        && (saved ==>
              var inserted := NewAccount(s0, parsed, CurrentUserId(prefs)).(id := old(dao.lastId) + 1);
              && addAccountState == DefaultAddAccountState
              && dao.rows == old(dao.rows) + [AccountToEntity(inserted)]
              && dao.lastId == old(dao.lastId) + 1
              && dao.GetAccountById(inserted.id) == Some(inserted))
    {
      var state := addAccountState;
      var nameError := NameErrorOf(state.name);
      var balanceValue := parse(state.balance);
      var balanceError := BalanceErrorOf(state.balance, balanceValue);
      if nameError.Some? || balanceError.Some? {
        addAccountState := state.(nameError := nameError, balanceError := balanceError);
        return false;
      }
      if fault.Some? {
        addAccountState := state.(nameError := Some(SaveFailedPrefix + fault.value));
        return false;
      }
      var account := NewAccount(state, balanceValue, CurrentUserId(prefs));
      AddedAccountReads(dao.rows, dao.lastId, account, dao.lastId + 1);
      var id := dao.AddAccount(account);
      addAccountState := DefaultAddAccountState;
      saved := true;
    }

    /** deleteAccount: the row with the account's id is removed; a storage fault is swallowed. */
    method DeleteAccount(dao: AccountDao, account: Account, fault: Option<string>)
      requires dao.Valid()
      modifies dao`rows
      ensures dao.Valid()
      ensures fault.None? ==> dao.rows == Without(old(dao.rows), AccountEntityId, account.id)
      ensures fault.Some? ==> dao.rows == old(dao.rows)
    {
      if fault.None? {
        dao.DeleteAccount(account);
      }
    }

    /** updateAccount: the row with the account's id takes its values; a storage fault is swallowed. */
    method UpdateAccount(dao: AccountDao, account: Account, fault: Option<string>)
      requires dao.Valid()
      modifies dao`rows
      ensures dao.Valid()
      ensures fault.None? ==> dao.rows == Replace(old(dao.rows), AccountEntityId, AccountToEntity(account))
      ensures fault.Some? ==> dao.rows == old(dao.rows)
    {
      if fault.None? {
        dao.UpdateAccount(account);
      }
    }
  }
}
