/**
 * The Room `transactions` table and the queries of TransactionDao.
 *
 * Every query joins with `accounts` to restrict to one user, so it reads a
 * snapshot of the accounts table besides the transaction rows. Rows are
 * entities; the ORDER BY on date is the stable descending sort, so rows with
 * equal dates keep their storage order.
 */
module TransactionStore {
  import opened Wrappers
  import opened Lists
  import opened Sorting
  import opened Tables
  import opened Entities

  function EntityId(e: TransactionEntity): int {
    e.id
  }

  function EntityDate(e: TransactionEntity): int {
    e.date
  }

  function EntityAmount(e: TransactionEntity): int {
    e.amount
  }

  /** `INNER JOIN accounts a ON t.accountId = a.id WHERE a.userId = :userId`. */
  predicate OwnedBy(accounts: seq<AccountEntity>, userId: int, e: TransactionEntity) {
    exists a :: a in accounts && a.id == e.accountId && a.userId == userId
  }

  /** `t.date BETWEEN :startDate AND :endDate`, inclusive at both ends. */
  predicate InRange(e: TransactionEntity, startDate: int, endDate: int) {
    startDate <= e.date <= endDate
  }

  predicate InDateRange(accounts: seq<AccountEntity>, userId: int, startDate: int, endDate: int, e: TransactionEntity) {
    OwnedBy(accounts, userId, e) && InRange(e, startDate, endDate)
  }

  predicate InCategoryOf(accounts: seq<AccountEntity>, userId: int, categoryId: int, e: TransactionEntity) {
    OwnedBy(accounts, userId, e) && e.categoryId == categoryId
  }

  predicate SumMatches(accounts: seq<AccountEntity>, userId: int, kind: string, startDate: int, endDate: int, e: TransactionEntity) {
    OwnedBy(accounts, userId, e) && e.kind == kind && InRange(e, startDate, endDate)
  }

  // ---- The SELECT queries ----

  /** getAll: the user's transactions, newest first. */
  function GetAll(rows: seq<TransactionEntity>, accounts: seq<AccountEntity>, userId: int): (r: seq<TransactionEntity>)
    ensures SortedDesc(r, EntityDate)
  {
    SortDesc(Filter(rows, (e: TransactionEntity) => OwnedBy(accounts, userId, e)), EntityDate)
  }

  /** getByDateRange: the user's transactions dated within [startDate, endDate], newest first. */
  function GetByDateRange(rows: seq<TransactionEntity>, accounts: seq<AccountEntity>, userId: int,
                          startDate: int, endDate: int): (r: seq<TransactionEntity>)
    ensures SortedDesc(r, EntityDate)
  {
    SortDesc(Filter(rows, (e: TransactionEntity) => InDateRange(accounts, userId, startDate, endDate, e)), EntityDate)
  }

  /** getByCategory: the user's transactions of one category, newest first. */
  function GetByCategory(rows: seq<TransactionEntity>, accounts: seq<AccountEntity>, userId: int,
                         categoryId: int): (r: seq<TransactionEntity>)
    ensures SortedDesc(r, EntityDate)
  {
    SortDesc(Filter(rows, (e: TransactionEntity) => InCategoryOf(accounts, userId, categoryId, e)), EntityDate)
  }

  /**
   * getRecent: the first `limit` rows of the getAll order, or all of them
   * when there are fewer; SQLite takes a negative LIMIT as no limit.
   */
  function GetRecent(rows: seq<TransactionEntity>, accounts: seq<AccountEntity>, userId: int, limit: int): (r: seq<TransactionEntity>)
    ensures var all := GetAll(rows, accounts, userId);
      && |r| == (if 0 <= limit < |all| then limit else |all|)
      && forall i :: 0 <= i < |r| ==> r[i] == all[i]
  {
    if limit < 0 then GetAll(rows, accounts, userId) else Take(GetAll(rows, accounts, userId), limit)
  }

  /** getSumByType: `SUM(t.amount)` over the matching rows, which SQL makes NULL when no row matches. */
  function GetSumByType(rows: seq<TransactionEntity>, accounts: seq<AccountEntity>, userId: int, kind: string,
                        startDate: int, endDate: int): (r: Option<int>)
    ensures r.None? <==> forall e :: e in rows ==> !SumMatches(accounts, userId, kind, startDate, endDate, e)
  {
    var matching := Filter(rows, (e: TransactionEntity) => SumMatches(accounts, userId, kind, startDate, endDate, e));
    assert forall e :: e in rows && SumMatches(accounts, userId, kind, startDate, endDate, e) ==> e in matching by {
      forall e | e in rows && SumMatches(accounts, userId, kind, startDate, endDate, e) ensures e in matching {
        FilterMember(rows, (e: TransactionEntity) => SumMatches(accounts, userId, kind, startDate, endDate, e), e);
      }
    }
    if |matching| == 0 then None
    else
      assert matching[0] in matching;
      Some(SumOf(matching, EntityAmount))
  }

  // ---- What the queries return ----

  /** getAll keeps every occurrence of a row of the user's accounts and nothing else. */
  lemma GetAllCount(rows: seq<TransactionEntity>, accounts: seq<AccountEntity>, userId: int, e: TransactionEntity)
    ensures multiset(GetAll(rows, accounts, userId))[e] == if OwnedBy(accounts, userId, e) then multiset(rows)[e] else 0
  {
    FilterCount(rows, (e: TransactionEntity) => OwnedBy(accounts, userId, e), e);
  }

  lemma GetAllMember(rows: seq<TransactionEntity>, accounts: seq<AccountEntity>, userId: int, e: TransactionEntity)
    ensures e in GetAll(rows, accounts, userId) <==> e in rows && OwnedBy(accounts, userId, e)
  {
    GetAllCount(rows, accounts, userId, e);
    assert e in GetAll(rows, accounts, userId) <==> e in multiset(GetAll(rows, accounts, userId));
    assert e in rows <==> e in multiset(rows);
  }

  /** getByDateRange includes both end points of the range. */
  lemma GetByDateRangeMember(rows: seq<TransactionEntity>, accounts: seq<AccountEntity>, userId: int,
                             startDate: int, endDate: int, e: TransactionEntity)
    ensures e in GetByDateRange(rows, accounts, userId, startDate, endDate)
            <==> e in rows && OwnedBy(accounts, userId, e) && startDate <= e.date && e.date <= endDate
  {
    var p := (e: TransactionEntity) => InDateRange(accounts, userId, startDate, endDate, e);
    FilterCount(rows, p, e);
    var r := GetByDateRange(rows, accounts, userId, startDate, endDate);
    assert e in r <==> e in multiset(r);
    assert e in rows <==> e in multiset(rows);
  }

  lemma GetByCategoryMember(rows: seq<TransactionEntity>, accounts: seq<AccountEntity>, userId: int,
                            categoryId: int, e: TransactionEntity)
    ensures e in GetByCategory(rows, accounts, userId, categoryId)
            <==> e in rows && OwnedBy(accounts, userId, e) && e.categoryId == categoryId
  {
    var p := (e: TransactionEntity) => InCategoryOf(accounts, userId, categoryId, e);
    FilterCount(rows, p, e);
    var r := GetByCategory(rows, accounts, userId, categoryId);
    assert e in r <==> e in multiset(r);
    assert e in rows <==> e in multiset(rows);
  }

  function KindIs(kind: string): TransactionEntity -> bool {
    (e: TransactionEntity) => e.kind == kind
  }

  /**
   * The sum query agrees with the range query: with NULL read as 0 it is the
   * sum of the amounts of the range query's rows of that type.
   */
  lemma SumByTypeOfRange(rows: seq<TransactionEntity>, accounts: seq<AccountEntity>, userId: int, kind: string,
                         startDate: int, endDate: int)
    ensures GetSumByType(rows, accounts, userId, kind, startDate, endDate).GetOr(0)
            == SumOf(Filter(GetByDateRange(rows, accounts, userId, startDate, endDate), KindIs(kind)), EntityAmount)
  {
    var inRange := (e: TransactionEntity) => InDateRange(accounts, userId, startDate, endDate, e);
    var matches := (e: TransactionEntity) => SumMatches(accounts, userId, kind, startDate, endDate, e);
    SortDescFilterSum(Filter(rows, inRange), EntityDate, KindIs(kind), EntityAmount);
    FilterFilter(rows, inRange, KindIs(kind), matches);
  }

  // ---- The table ----

  /**
   * The rows, and the largest id handed out so far (the AUTOINCREMENT
   * counter of the primary key).
   */
  class TransactionDao {
    var rows: seq<TransactionEntity>
    var lastId: int

    predicate Valid()
      reads this
    {
      && UniqueKeys(rows, EntityId)
      && 0 <= lastId
      && forall e :: e in rows ==> e.id != 0 && e.id <= lastId
    }

    constructor ()
      ensures rows == [] && lastId == 0 && Valid()
    {
      rows := [];
      lastId := 0;
    }

    /**
     * insert with REPLACE: an id of 0 asks for the next id; any other id
     * replaces the row that has it. Returns the row's id.
     */
    method Insert(e: TransactionEntity) returns (id: int)
      requires Valid()
      modifies this
      ensures Valid()
      ensures id == if e.id == 0 then old(lastId) + 1 else e.id
      ensures rows == Put(old(rows), EntityId, e.(id := id))
      ensures lastId == if id > old(lastId) then id else old(lastId)
    {
      if e.id == 0 {
        id := lastId + 1;
      } else {
        id := e.id;
      }
      var row := e.(id := id);
      PutUnique(rows, EntityId, row);
      forall x | x in Put(rows, EntityId, row) ensures x.id != 0 && x.id <= if id > lastId then id else lastId {
        if x != row {
          WithoutMember(rows, EntityId, id, x);
        }
      }
      rows := Put(rows, EntityId, row);
      if id > lastId {
        lastId := id;
      }
    }

    /** update: the row with e's id, if any, becomes e. */
    method Update(e: TransactionEntity)
      requires Valid()
      modifies this`rows
      ensures Valid()
      ensures rows == Replace(old(rows), EntityId, e)
    {
      ReplaceRows(rows, EntityId, e);
      ReplaceUnique(rows, EntityId, e);
      var r := Replace(rows, EntityId, e);
      forall x | x in r ensures x.id != 0 && x.id <= lastId {
        var i :| 0 <= i < |r| && r[i] == x;
        assert rows[i] in rows;
      }
      rows := r;
    }

    /** delete: the row with e's id, if any, is removed. */
    method Delete(e: TransactionEntity)
      requires Valid()
      modifies this`rows
      ensures Valid()
      ensures rows == Without(old(rows), EntityId, e.id)
    {
      WithoutUnique(rows, EntityId, e.id);
      forall x | x in Without(rows, EntityId, e.id) ensures x.id != 0 && x.id <= lastId {
        WithoutMember(rows, EntityId, e.id, x);
      }
      rows := Without(rows, EntityId, e.id);
    }
  }

  /** An insert with id 0 gets an id no row had, so it adds a row and replaces none. */
  lemma InsertFresh(rows: seq<TransactionEntity>, lastId: int, e: TransactionEntity)
    requires forall x :: x in rows ==> x.id <= lastId
    ensures Put(rows, EntityId, e.(id := lastId + 1)) == rows + [e.(id := lastId + 1)]
  {
    PutFresh(rows, EntityId, e.(id := lastId + 1));
  }

  /** After an insert the new row is the row of its id, and every other id keeps its row. */
  lemma InsertLookup(rows: seq<TransactionEntity>, row: TransactionEntity, id: int)
    ensures Lookup(Put(rows, EntityId, row), EntityId, id) == if id == row.id then Some(row) else Lookup(rows, EntityId, id)
  {
    LookupPut(rows, EntityId, row, id);
  }

  /** An update changes only the row with the entity's id, and only when that row exists. */
  lemma UpdateLookup(rows: seq<TransactionEntity>, e: TransactionEntity, id: int)
    ensures Lookup(Replace(rows, EntityId, e), EntityId, id) ==
      if id != e.id then Lookup(rows, EntityId, id)
      else if Lookup(rows, EntityId, id).Some? then Some(e) else None
  {
    LookupReplace(rows, EntityId, e, id);
  }

  /** A delete removes the row with the entity's id and keeps every other id's row. */
  lemma DeleteLookup(rows: seq<TransactionEntity>, e: TransactionEntity, id: int)
    ensures Lookup(Without(rows, EntityId, e.id), EntityId, id) == if id == e.id then None else Lookup(rows, EntityId, id)
  {
    LookupWithout(rows, EntityId, e.id, id);
  }
}
