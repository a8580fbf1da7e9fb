/**
 * The Room `accounts` table behind AccountRepository, reduced to what the
 * write paths of the Home and Account view models use: insert, update and
 * lookup by id. Rows reach the table only through `toEntity`, so every
 * stored type name is an AccountType name and `toDomain` cannot fail on a
 * stored row.
 */
module AccountStore {
  import opened Wrappers
  import opened Lists
  import opened Tables
  import opened Domain
  import opened Entities

  function AccountEntityId(e: AccountEntity): int {
    e.id
  }

  function Balance(a: Account): int {
    a.balance
  }

  /** calculateTotalBalance: `accounts.sumOf { it.balance }`. */
  function TotalBalance(accounts: seq<Account>): int {
    SumOf(accounts, Balance)
  }

  /** A table holds at most one row per account id. */
  predicate UniqueAccountIds(accounts: seq<Account>) {
    forall i, j :: 0 <= i < j < |accounts| ==> accounts[i].id != accounts[j].id
  }

  /** The stored rows as domain accounts, in table order (`map { it.toDomain() }`); every stored row maps. */
  function StoredAccounts(rows: seq<AccountEntity>): (r: seq<Account>)
    requires forall e :: e in rows ==> AccountToDomain(e).Some?
    ensures |r| == |rows| && forall i :: 0 <= i < |rows| ==> AccountToDomain(rows[i]) == Some(r[i])
  {
    seq(|rows|, i requires 0 <= i < |rows| => AccountToDomain(rows[i]).value)
  }

  /** A stored row and its domain account share the id, so unique row ids give unique account ids. */
  lemma StoredAccountIds(rows: seq<AccountEntity>)
    requires forall e :: e in rows ==> AccountToDomain(e).Some?
    ensures forall i :: 0 <= i < |rows| ==> StoredAccounts(rows)[i].id == rows[i].id
    ensures UniqueKeys(rows, AccountEntityId) ==> UniqueAccountIds(StoredAccounts(rows))
  {
    var r := StoredAccounts(rows);
    forall i | 0 <= i < |rows| ensures r[i].id == rows[i].id {
      assert AccountToEntity(r[i]) == rows[i];
    }
    if UniqueKeys(rows, AccountEntityId) {
      forall i, j | 0 <= i < j < |r| ensures r[i].id != r[j].id {
        assert AccountEntityId(rows[i]) != AccountEntityId(rows[j]);
      }
    }
  }

  /** Every account with that id gets its balance changed by delta. */
  function ChangeBalance(accounts: seq<Account>, id: int, delta: int): (r: seq<Account>)
    ensures |r| == |accounts|
  {
    seq(|accounts|, i requires 0 <= i < |accounts| =>
      if accounts[i].id == id then accounts[i].(balance := accounts[i].balance + delta) else accounts[i])
  }

  /**
   * Changing one account's balance by delta, where the ids are unique,
   * changes the total balance by delta.
   */
  lemma {:induction false} TotalBalanceUpdate(accounts: seq<Account>, id: int, delta: int)
    requires UniqueAccountIds(accounts)
    requires exists a :: a in accounts && a.id == id
    ensures TotalBalance(ChangeBalance(accounts, id, delta)) == TotalBalance(accounts) + delta
  {
    var updated := ChangeBalance(accounts, id, delta);
    var tail := accounts[1..];
    var tailUpdated := ChangeBalance(tail, id, delta);
    assert updated == [updated[0]] + tailUpdated;
    SumOfCons(updated[0], tailUpdated, Balance);
    assert accounts == [accounts[0]] + tail;
    SumOfCons(accounts[0], tail, Balance);
    assert UniqueAccountIds(tail) by {
      forall i, j | 0 <= i < j < |tail| ensures tail[i].id != tail[j].id {
        assert tail[i] == accounts[i + 1] && tail[j] == accounts[j + 1];
      }
    }
    if accounts[0].id == id {
      forall i | 0 <= i < |tail| ensures tailUpdated[i] == tail[i] {
        assert tail[i] == accounts[i + 1];
      }
      assert tailUpdated == tail;
    } else {
      var a :| a in accounts && a.id == id;
      assert a in tail;
      TotalBalanceUpdate(tail, id, delta);
    }
  }

  class AccountDao {
    var rows: seq<AccountEntity>
    var lastId: int

    predicate Valid()
      reads this
    {
      && UniqueKeys(rows, AccountEntityId)
      && 0 <= lastId
      && forall e :: e in rows ==> e.id != 0 && e.id <= lastId && AccountToDomain(e).Some?
    }

    constructor ()
      ensures rows == [] && lastId == 0 && Valid()
    {
      rows := [];
      lastId := 0;
    }

    /** getAccountById: `getById(id)?.toDomain()`, the row with that id as a domain account. */
    function GetAccountById(id: int): (r: Option<Account>)
      reads this
      requires Valid()
      ensures r.None? <==> forall e :: e in rows ==> e.id != id
      ensures r.Some? ==> r.value.id == id && AccountToEntity(r.value) in rows
    {
      match Lookup(rows, AccountEntityId, id)
      case None => None
      case Some(e) => AccountToDomain(e)
    }

    /** addAccount: an insert with REPLACE of `account.toEntity()`; id 0 asks for the next id. */
    method AddAccount(account: Account) returns (id: int)
      requires Valid()
      modifies this
      ensures Valid()
      ensures id == if account.id == 0 then old(lastId) + 1 else account.id
      ensures rows == Put(old(rows), AccountEntityId, AccountToEntity(account.(id := id)))
      ensures lastId == if id > old(lastId) then id else old(lastId)
    {
      if account.id == 0 {
        id := lastId + 1;
      } else {
        id := account.id;
      }
      var row := AccountToEntity(account.(id := id));
      AccountRoundTrip(account.(id := id));
      PutUnique(rows, AccountEntityId, row);
      forall x | x in Put(rows, AccountEntityId, row)
        ensures x.id != 0 && x.id <= (if id > lastId then id else lastId) && AccountToDomain(x).Some?
      {
        if x != row {
          WithoutMember(rows, AccountEntityId, id, x);
        }
      }
      rows := Put(rows, AccountEntityId, row);
      if id > lastId {
        lastId := id;
      }
    }

    /** updateAccount: the row with the account's id, if any, takes the account's values. */
    method UpdateAccount(account: Account)
      requires Valid()
      modifies this`rows
      ensures Valid()
      ensures rows == Replace(old(rows), AccountEntityId, AccountToEntity(account))
    {
      var e := AccountToEntity(account);
      AccountRoundTrip(account);
      ReplaceRows(rows, AccountEntityId, e);
      ReplaceUnique(rows, AccountEntityId, e);
      var r := Replace(rows, AccountEntityId, e);
      forall x | x in r ensures x.id != 0 && x.id <= lastId && AccountToDomain(x).Some? {
        var i :| 0 <= i < |r| && r[i] == x;
        assert rows[i] in rows;
      }
      rows := r;
    }
    /** deleteAccount: `delete(account.toEntity())` removes the row with the account's id. */
    method DeleteAccount(account: Account)
      requires Valid()
      modifies this`rows
      ensures Valid()
      ensures rows == Without(old(rows), AccountEntityId, account.id)
    {
      WithoutUnique(rows, AccountEntityId, account.id);
      forall x | x in Without(rows, AccountEntityId, account.id)
        ensures x.id != 0 && x.id <= lastId && AccountToDomain(x).Some?
      {
        WithoutMember(rows, AccountEntityId, account.id, x);
      }
      rows := Without(rows, AccountEntityId, account.id);
    }
  }

  /**
   * Updating a stored account to its balance plus delta, where ids are
   * unique, changes the domain accounts exactly as ChangeBalance does.
   */
  lemma ReplaceStoredAccounts(rows: seq<AccountEntity>, a: Account, delta: int)
    requires UniqueKeys(rows, AccountEntityId) && forall e :: e in rows ==> AccountToDomain(e).Some?
    requires AccountToEntity(a) in rows
    ensures var after := Replace(rows, AccountEntityId, AccountToEntity(a.(balance := a.balance + delta)));
      forall e :: e in after ==> AccountToDomain(e).Some?
    ensures StoredAccounts(Replace(rows, AccountEntityId, AccountToEntity(a.(balance := a.balance + delta))))
            == ChangeBalance(StoredAccounts(rows), a.id, delta)
  {
    var x := AccountToEntity(a.(balance := a.balance + delta));
    var after := Replace(rows, AccountEntityId, x);
    ReplaceRows(rows, AccountEntityId, x);
    AccountRoundTrip(a.(balance := a.balance + delta));
    forall e | e in after ensures AccountToDomain(e).Some? {
      var i :| 0 <= i < |after| && after[i] == e;
      assert rows[i] in rows;
    }
    StoredAccountIds(rows);
    var before, now := StoredAccounts(rows), StoredAccounts(after);
    var changed := ChangeBalance(before, a.id, delta);
    forall i | 0 <= i < |rows| ensures now[i] == changed[i] {
      if rows[i].id == a.id {
        var k :| 0 <= k < |rows| && rows[k] == AccountToEntity(a);
        AccountRoundTrip(a);
      }
    }
  }

  /** After an update, looking the id up gives the new account; every other id keeps its row. */
  lemma UpdateAccountLookup(rows: seq<AccountEntity>, account: Account, id: int)
    ensures Lookup(Replace(rows, AccountEntityId, AccountToEntity(account)), AccountEntityId, id) ==
      if id != account.id then Lookup(rows, AccountEntityId, id)
      else if Lookup(rows, AccountEntityId, id).Some? then Some(AccountToEntity(account)) else None
  {
    LookupReplace(rows, AccountEntityId, AccountToEntity(account), id);
  }
}
