/**
 * The client TransactionRepository: domain transactions over the
 * TransactionDao. Reads map every entity through `toDomain`, which fails
 * (here: None) when a stored type is not a TransactionType name.
 */
module ClientTransactions {
  import opened Wrappers
  import opened Lists
  import opened Sorting
  import opened Domain
  import opened Entities
  import opened Ledger
  import opened TransactionStore

  /** The message of the IllegalArgumentException addTransaction throws. */
  const AmountNotPositive := "Transaction amount must be greater than 0"

  /**
   * addTransaction: a transaction whose amount is not positive is refused
   * and nothing is written; otherwise it is inserted and the new row id is
   * returned.
   */
  method AddTransaction(dao: TransactionDao, transaction: Transaction) returns (r: Result<int>)
    requires dao.Valid()
    modifies dao
    ensures dao.Valid()
    ensures transaction.amount <= 0 ==> r == Err(AmountNotPositive) && dao.rows == old(dao.rows) && dao.lastId == old(dao.lastId)
    ensures transaction.amount > 0 ==>
      && r.Ok?
      && r.value == (if transaction.id == 0 then old(dao.lastId) + 1 else transaction.id)
      && dao.rows == Tables.Put(old(dao.rows), EntityId, TransactionToEntity(transaction.(id := r.value)))
  {
    if transaction.amount <= 0 {
      return Err(AmountNotPositive);
    }
    var id := dao.Insert(TransactionToEntity(transaction));
    assert TransactionToEntity(transaction).(id := id) == TransactionToEntity(transaction.(id := id));
    r := Ok(id);
  }

  method UpdateTransaction(dao: TransactionDao, transaction: Transaction)
    requires dao.Valid()
    modifies dao`rows
    ensures dao.Valid()
    ensures dao.rows == Tables.Replace(old(dao.rows), EntityId, TransactionToEntity(transaction))
  {
    dao.Update(TransactionToEntity(transaction));
  }

  method DeleteTransaction(dao: TransactionDao, transaction: Transaction)
    requires dao.Valid()
    modifies dao`rows
    ensures dao.Valid()
    ensures dao.rows == Tables.Without(old(dao.rows), EntityId, transaction.id)
  {
    dao.Delete(TransactionToEntity(transaction));
  }

  /** getAllTransactions: the getAll rows as domain transactions, in the same order. */
  function GetAllTransactions(rows: seq<TransactionEntity>, accounts: seq<AccountEntity>, userId: int): Option<seq<Transaction>> {
    TransactionsToDomain(GetAll(rows, accounts, userId))
  }

  function GetTransactionsByDateRange(rows: seq<TransactionEntity>, accounts: seq<AccountEntity>, userId: int,
                                      startDate: int, endDate: int): Option<seq<Transaction>> {
    TransactionsToDomain(GetByDateRange(rows, accounts, userId, startDate, endDate))
  }

  function GetTransactionsByCategory(rows: seq<TransactionEntity>, accounts: seq<AccountEntity>, userId: int,
                                     categoryId: int): Option<seq<Transaction>> {
    TransactionsToDomain(GetByCategory(rows, accounts, userId, categoryId))
  }

  /** getRecentTransactions' default limit. */
  const DefaultRecentLimit := 10

  /** getRecentTransactions: the DAO's most recent rows, each mapped to the domain. */
  function GetRecentTransactions(rows: seq<TransactionEntity>, accounts: seq<AccountEntity>, userId: int, limit: int): Option<seq<Transaction>> {
    TransactionsToDomain(GetRecent(rows, accounts, userId, limit))
  }

  /**
   * With the default limit, the recent transactions are the first ten of
   * getAllTransactions, or all of them when there are fewer.
   */
  lemma DefaultRecentIsFirstTen(rows: seq<TransactionEntity>, accounts: seq<AccountEntity>, userId: int)
    ensures GetAllTransactions(rows, accounts, userId).Some? ==>
      var all := GetAllTransactions(rows, accounts, userId).value;
      var recent := GetRecentTransactions(rows, accounts, userId, DefaultRecentLimit);
      && recent.Some?
      && |recent.value| == (if |all| < DefaultRecentLimit then |all| else DefaultRecentLimit)
      && forall i :: 0 <= i < |recent.value| ==> recent.value[i] == all[i]
  {
    var es := GetAll(rows, accounts, userId);
    var firsts := GetRecent(rows, accounts, userId, DefaultRecentLimit);
    if TransactionsToDomain(es).Some? {
      var all := TransactionsToDomain(es).value;
      forall i | 0 <= i < |firsts| ensures TransactionToDomain(firsts[i]) == Some(all[i]) {
        assert firsts[i] == es[i];
      }
    }
  }

  /** getSumByType: the SUM query with the type stored by name, NULL read as 0. */
  function GetSumByTypeOrZero(rows: seq<TransactionEntity>, accounts: seq<AccountEntity>, userId: int, kind: TransactionType,
                              startDate: int, endDate: int): int {
    GetSumByType(rows, accounts, userId, kind.Name(), startDate, endDate).GetOr(0)
  }

  /** Mapping to the domain keeps the order, so a date-sorted row list gives a date-sorted transaction list. */
  lemma ToDomainSorted(es: seq<TransactionEntity>)
    requires SortedDesc(es, EntityDate) && TransactionsToDomain(es).Some?
    ensures SortedDesc(TransactionsToDomain(es).value, (t: Transaction) => t.date)
  {
    var ts := TransactionsToDomain(es).value;
    forall i, j | 0 <= i < j < |ts| ensures ts[i].date >= ts[j].date {
      assert TransactionToDomain(es[i]) == Some(ts[i]) && TransactionToDomain(es[j]) == Some(ts[j]);
      assert EntityDate(es[i]) >= EntityDate(es[j]);
    }
  }

  /** getAllTransactions returns the user's transactions newest first. */
  lemma AllTransactionsSorted(rows: seq<TransactionEntity>, accounts: seq<AccountEntity>, userId: int)
    requires GetAllTransactions(rows, accounts, userId).Some?
    ensures SortedDesc(GetAllTransactions(rows, accounts, userId).value, (t: Transaction) => t.date)
  {
    ToDomainSorted(GetAll(rows, accounts, userId));
  }

  /** The entity stores the transaction's type by name and its amount as it is. */
  predicate Mirrors(e: TransactionEntity, t: Transaction) {
    e.kind == t.kind.Name() && e.amount == t.amount
  }

  lemma MirrorsKind(e: TransactionEntity, t: Transaction, kind: TransactionType)
    requires Mirrors(e, t)
    ensures KindIs(kind.Name())(e) == (t.kind == kind) && EntityAmount(e) == t.amount
  {
    assert |"INCOME"| != |"EXPENSE"|;
  }

  lemma EntityKindSumHead(es: seq<TransactionEntity>, p: TransactionEntity -> bool)
    requires |es| > 0
    ensures SumOf(Filter(es, p), EntityAmount) == (if p(es[0]) then es[0].amount else 0) + SumOf(Filter(es[1..], p), EntityAmount)
  {
    var head := if p(es[0]) then [es[0]] else [];
    assert Filter(es, p) == head + Filter(es[1..], p);
    SumOfAppend(head, Filter(es[1..], p), EntityAmount);
  }

  lemma DomainKindSumHead(ts: seq<Transaction>, kind: TransactionType)
    requires |ts| > 0
    ensures SumAmounts(OfKind(ts, kind)) == (if ts[0].kind == kind then ts[0].amount else 0) + SumAmounts(OfKind(ts[1..], kind))
  {
    var head := if ts[0].kind == kind then [ts[0]] else [];
    assert OfKind(ts, kind) == head + OfKind(ts[1..], kind);
    SumOfAppend(head, OfKind(ts[1..], kind), Amount);
  }

  lemma {:induction false} KindSumPointwise(es: seq<TransactionEntity>, ts: seq<Transaction>, kind: TransactionType)
    requires |es| == |ts| && forall i :: 0 <= i < |es| ==> Mirrors(es[i], ts[i])
    ensures SumOf(Filter(es, KindIs(kind.Name())), EntityAmount) == SumAmounts(OfKind(ts, kind))
  {
    if |es| > 0 {
      var es', ts' := es[1..], ts[1..];
      forall i | 0 <= i < |es'| ensures Mirrors(es'[i], ts'[i]) {
        assert es'[i] == es[i + 1] && ts'[i] == ts[i + 1];
      }
      KindSumPointwise(es', ts', kind);
      MirrorsKind(es[0], ts[0], kind);
      EntityKindSumHead(es, KindIs(kind.Name()));
      DomainKindSumHead(ts, kind);
    }
  }

  /** Summing the rows of one type name is summing the mapped transactions of that type. */
  lemma KindSumToDomain(es: seq<TransactionEntity>, kind: TransactionType)
    requires TransactionsToDomain(es).Some?
    ensures SumOf(Filter(es, KindIs(kind.Name())), EntityAmount) == SumAmounts(OfKind(TransactionsToDomain(es).value, kind))
  {
    var ts := TransactionsToDomain(es).value;
    forall i | 0 <= i < |es| ensures Mirrors(es[i], ts[i]) {
      assert TransactionToEntity(ts[i]) == es[i];
    }
    KindSumPointwise(es, ts, kind);
  }

  /**
   * getSumByType is the sum of the amounts of the user's transactions of
   * that type in the inclusive range, and 0 when there are none.
   */
  lemma SumByTypeIsRangeSum(rows: seq<TransactionEntity>, accounts: seq<AccountEntity>, userId: int, kind: TransactionType,
                            startDate: int, endDate: int)
    requires GetTransactionsByDateRange(rows, accounts, userId, startDate, endDate).Some?
    ensures GetSumByTypeOrZero(rows, accounts, userId, kind, startDate, endDate)
            == SumAmounts(OfKind(GetTransactionsByDateRange(rows, accounts, userId, startDate, endDate).value, kind))
  {
    SumByTypeOfRange(rows, accounts, userId, kind.Name(), startDate, endDate);
    KindSumToDomain(GetByDateRange(rows, accounts, userId, startDate, endDate), kind);
  }
}
