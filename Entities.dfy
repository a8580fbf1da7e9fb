/**
 * The Room entities (the files under data/local/entity) and their mappers.
 *
 * An entity stores every enum by its name and every date as epoch
 * milliseconds. `toDomain` calls `valueOf`, which throws on an unknown
 * name; here it returns None for such a row. Because a Date is modelled by
 * its millisecond value, `Date(ms)` and `date.time` are identities.
 */
module Entities {
  import opened Wrappers
  import opened Domain

  datatype TransactionEntity = TransactionEntity(id: int, accountId: int, categoryId: int, amount: int,
                                                 date: int, note: string, kind: string)

  datatype AccountEntity = AccountEntity(id: int, userId: int, name: string, balance: int, currency: string,
                                         kind: string, color: string, icon: string)

  datatype BudgetEntity = BudgetEntity(id: int, userId: int, categoryId: int, amount: int, period: string, startDate: int)

  datatype CategoryEntity = CategoryEntity(id: int, name: string, kind: string, icon: string, color: string)

  datatype UserEntity = UserEntity(id: int, name: string, email: string, passwordHash: string, role: string)

  // ---- Transaction ----

  function TransactionToEntity(t: Transaction): TransactionEntity {
    TransactionEntity(t.id, t.accountId, t.categoryId, t.amount, t.date, t.note, t.kind.Name())
  }

  /** Fails exactly on a type string that is not a TransactionType name; otherwise it inverts TransactionToEntity. */
  function TransactionToDomain(e: TransactionEntity): (r: Option<Transaction>)
    ensures r.None? <==> e.kind != "INCOME" && e.kind != "EXPENSE"
    ensures r.Some? ==> TransactionToEntity(r.value) == e
  {
    match TransactionTypeOf(e.kind)
    case None => None
    case Some(k) => Some(Transaction(e.id, e.accountId, e.categoryId, e.amount, e.date, e.note, k))
  }

  /** The type is stored by name, the date as its milliseconds, every other field as it is. */
  lemma TransactionEntityFields(t: Transaction)
    ensures var e := TransactionToEntity(t);
      && e.kind == t.kind.Name() && e.date == t.date
      && e.id == t.id && e.accountId == t.accountId && e.categoryId == t.categoryId
      && e.amount == t.amount && e.note == t.note
  {
  }

  lemma TransactionRoundTrip(t: Transaction)
    ensures TransactionToDomain(TransactionToEntity(t)) == Some(t)
  {
  }

  lemma TransactionEntityRoundTrip(e: TransactionEntity)
    requires e.kind == "INCOME" || e.kind == "EXPENSE"
    ensures TransactionToDomain(e).Some? && TransactionToEntity(TransactionToDomain(e).value) == e
  {
  }

  // ---- Account ----

  function AccountToEntity(a: Account): AccountEntity {
    AccountEntity(a.id, a.userId, a.name, a.balance, a.currency, a.kind.Name(), a.color, a.icon)
  }

  function AccountToDomain(e: AccountEntity): (r: Option<Account>)
    ensures r.None? <==> e.kind != "CASH" && e.kind != "CARD" && e.kind != "BANK"
    ensures r.Some? ==> AccountToEntity(r.value) == e
  {
    match AccountTypeOf(e.kind)
    case None => None
    case Some(k) => Some(Account(e.id, e.userId, e.name, e.balance, e.currency, k, e.color, e.icon))
  }

  lemma AccountRoundTrip(a: Account)
    ensures AccountToDomain(AccountToEntity(a)) == Some(a)
  {
  }

  lemma AccountEntityRoundTrip(e: AccountEntity)
    requires e.kind in {"CASH", "CARD", "BANK"}
    ensures AccountToDomain(e).Some? && AccountToEntity(AccountToDomain(e).value) == e
  {
  }

  // ---- Budget ----

  function BudgetToEntity(b: Budget): BudgetEntity {
    BudgetEntity(b.id, b.userId, b.categoryId, b.amount, b.period.Name(), b.startDate)
  }

  function BudgetToDomain(e: BudgetEntity): (r: Option<Budget>)
    ensures r.None? <==> e.period != "MONTH" && e.period != "WEEK" && e.period != "YEAR"
    ensures r.Some? ==> BudgetToEntity(r.value) == e
  {
    match BudgetPeriodOf(e.period)
    case None => None
    case Some(p) => Some(Budget(e.id, e.userId, e.categoryId, e.amount, p, e.startDate))
  }

  lemma BudgetRoundTrip(b: Budget)
    ensures BudgetToDomain(BudgetToEntity(b)) == Some(b)
  {
  }

  lemma BudgetEntityRoundTrip(e: BudgetEntity)
    requires e.period in {"MONTH", "WEEK", "YEAR"}
    ensures BudgetToDomain(e).Some? && BudgetToEntity(BudgetToDomain(e).value) == e
  {
  }

  // ---- Category ----

  function CategoryToEntity(c: Category): CategoryEntity {
    CategoryEntity(c.id, c.name, c.kind.Name(), c.icon, c.color)
  }

  function CategoryToDomain(e: CategoryEntity): (r: Option<Category>)
    ensures r.None? <==> e.kind != "INCOME" && e.kind != "EXPENSE"
    ensures r.Some? ==> CategoryToEntity(r.value) == e
  {
    match TransactionTypeOf(e.kind)
    case None => None
    case Some(k) => Some(Category(e.id, e.name, k, e.icon, e.color))
  }

  lemma CategoryRoundTrip(c: Category)
    ensures CategoryToDomain(CategoryToEntity(c)) == Some(c)
  {
  }

  lemma CategoryEntityRoundTrip(e: CategoryEntity)
    requires e.kind == "INCOME" || e.kind == "EXPENSE"
    ensures CategoryToDomain(e).Some? && CategoryToEntity(CategoryToDomain(e).value) == e
  {
  }

  // ---- User ----

  function UserToEntity(u: User): UserEntity {
    UserEntity(u.id, u.name, u.email, u.passwordHash, u.role.Name())
  }

  function UserToDomain(e: UserEntity): (r: Option<User>)
    ensures r.None? <==> e.role != "USER" && e.role != "ADMIN"
    ensures r.Some? ==> UserToEntity(r.value) == e && r.value.passwordHash == e.passwordHash
  {
    match UserRoleOf(e.role)
    case None => None
    case Some(role) => Some(User(e.id, e.name, e.email, e.passwordHash, role))
  }

  lemma UserRoundTrip(u: User)
    ensures UserToDomain(UserToEntity(u)) == Some(u)
    ensures UserToEntity(u).passwordHash == u.passwordHash
  {
  }

  lemma UserEntityRoundTrip(e: UserEntity)
    requires e.role == "USER" || e.role == "ADMIN"
    ensures UserToDomain(e).Some? && UserToEntity(UserToDomain(e).value) == e
  {
  }

  /** `entities.map { it.toDomain() }`: fails as a whole when one row fails, and otherwise keeps length and order. */
  function TransactionsToDomain(es: seq<TransactionEntity>): (r: Option<seq<Transaction>>)
    ensures r.Some? <==> forall i :: 0 <= i < |es| ==> TransactionToDomain(es[i]).Some?
    ensures r.Some? ==> |r.value| == |es| && forall i :: 0 <= i < |es| ==> TransactionToDomain(es[i]) == Some(r.value[i])
  {
    if |es| == 0 then Some([])
    else
      match TransactionToDomain(es[0])
      case None => None
      case Some(t) =>
        match TransactionsToDomain(es[1..])
        case None =>
          assert exists i :: 1 <= i < |es| && TransactionToDomain(es[i]).None? by {
            var j :| 0 <= j < |es[1..]| && TransactionToDomain(es[1..][j]).None?;
            assert es[j + 1] == es[1..][j];
          }
          None
        case Some(ts) =>
          assert forall i :: 1 <= i < |es| ==> es[i] == es[1..][i - 1];
          Some([t] + ts)
  }
}
