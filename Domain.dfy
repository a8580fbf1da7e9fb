/**
 * The client's domain records (the files under domain/model) and their enums.
 *
 * Money is an integer count of minor units (kopiyky) instead of a Double;
 * a java.util.Date is its epoch-millisecond value. The Kotlin field `type`
 * is called `kind` here because `type` is a Dafny keyword.
 */
module Domain {
  import opened Wrappers

  datatype TransactionType = INCOME | EXPENSE {
    /** Enum.name. */
    function Name(): string {
      match this
      case INCOME => "INCOME"
      case EXPENSE => "EXPENSE"
    }
  }

  datatype AccountType = CASH | CARD | BANK {
    function Name(): string {
      match this
      case CASH => "CASH"
      case CARD => "CARD"
      case BANK => "BANK"
    }
  }

  datatype BudgetPeriod = MONTH | WEEK | YEAR {
    function Name(): string {
      match this
      case MONTH => "MONTH"
      case WEEK => "WEEK"
      case YEAR => "YEAR"
    }
  }

  datatype UserRole = USER | ADMIN {
    function Name(): string {
      match this
      case USER => "USER"
      case ADMIN => "ADMIN"
    }
  }

  /** TransactionType.valueOf(s); None stands for the IllegalArgumentException thrown on an unknown name. */
  function TransactionTypeOf(s: string): (r: Option<TransactionType>)
    ensures r.Some? ==> r.value.Name() == s
    ensures r.None? ==> INCOME.Name() != s && EXPENSE.Name() != s
  {
    if s == "INCOME" then Some(INCOME)
    else if s == "EXPENSE" then Some(EXPENSE)
    else None
  }

  /** AccountType.valueOf(s). */
  function AccountTypeOf(s: string): (r: Option<AccountType>)
    ensures r.Some? ==> r.value.Name() == s
    ensures r.None? ==> CASH.Name() != s && CARD.Name() != s && BANK.Name() != s
  {
    if s == "CASH" then Some(CASH)
    else if s == "CARD" then Some(CARD)
    else if s == "BANK" then Some(BANK)
    else None
  }

  /** BudgetPeriod.valueOf(s). */
  function BudgetPeriodOf(s: string): (r: Option<BudgetPeriod>)
    ensures r.Some? ==> r.value.Name() == s
    ensures r.None? ==> MONTH.Name() != s && WEEK.Name() != s && YEAR.Name() != s
  {
    if s == "MONTH" then Some(MONTH)
    else if s == "WEEK" then Some(WEEK)
    else if s == "YEAR" then Some(YEAR)
    else None
  }

  /** UserRole.valueOf(s). */
  function UserRoleOf(s: string): (r: Option<UserRole>)
    ensures r.Some? ==> r.value.Name() == s
    ensures r.None? ==> USER.Name() != s && ADMIN.Name() != s
  {
    if s == "USER" then Some(USER)
    else if s == "ADMIN" then Some(ADMIN)
    else None
  }

  /** valueOf inverts name for every enum of the model. */
  lemma NamesRoundTrip(t: TransactionType, a: AccountType, p: BudgetPeriod, u: UserRole)
    ensures TransactionTypeOf(t.Name()) == Some(t)
    ensures AccountTypeOf(a.Name()) == Some(a)
    ensures BudgetPeriodOf(p.Name()) == Some(p)
    ensures UserRoleOf(u.Name()) == Some(u)
  {
  }

  datatype Transaction = Transaction(id: int, accountId: int, categoryId: int, amount: int,
                                     date: int, note: string, kind: TransactionType)

  datatype Account = Account(id: int, userId: int, name: string, balance: int, currency: string,
                             kind: AccountType, color: string, icon: string)

  datatype Category = Category(id: int, name: string, kind: TransactionType, icon: string, color: string)

  datatype Budget = Budget(id: int, userId: int, categoryId: int, amount: int, period: BudgetPeriod, startDate: int)

  datatype User = User(id: int, name: string, email: string, passwordHash: string, role: UserRole)

  /** `categories.find { it.id == id }`: the first category with that id. */
  function FindCategory(categories: seq<Category>, id: int): (r: Option<Category>)
    ensures r.Some? ==> r.value in categories && r.value.id == id
    ensures r.None? <==> forall c :: c in categories ==> c.id != id
    ensures r.Some? ==> exists i :: 0 <= i < |categories| && categories[i] == r.value
                                    && forall j :: 0 <= j < i ==> categories[j].id != id
  {
    if |categories| == 0 then None
    else if categories[0].id == id then Some(categories[0])
    else
      var r := FindCategory(categories[1..], id);
      assert forall c :: c in categories[1..] ==> c in categories;
      assert r.Some? ==> exists i :: 0 <= i < |categories| && categories[i] == r.value
                                     && forall j :: 0 <= j < i ==> categories[j].id != id by {
        if r.Some? {
          var i :| 0 <= i < |categories[1..]| && categories[1..][i] == r.value
                   && forall j :: 0 <= j < i ==> categories[1..][j].id != id;
          assert categories[i + 1] == r.value;
        }
      }
      r
  }
}
