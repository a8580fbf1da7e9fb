/**
 * The server's AccountRepository over the `accounts` table. Every statement
 * but the insert is scoped to the calling user: a row is read, updated or
 * deleted only when its id and its user_id both match. Ids come from the
 * table's auto-increment counter. Balances are minor units; the
 * Double-to-BigDecimal conversion and the timestamp columns are not
 * modelled.
 */
module ServerAccounts {
  import opened Wrappers
  import opened Tables

  datatype AccountRow = AccountRow(id: int, userId: int, name: string, balance: int, currency: string,
                                   kind: string, color: string, icon: string)

  /** The Kotlin field `type` is `kind` here. */
  datatype CreateAccountRequest = CreateAccountRequest(name: string, balance: int, currency: string,
                                                       kind: string, color: string, icon: string)

  datatype AccountResponse = AccountResponse(id: int, userId: int, name: string, balance: int, currency: string,
                                             kind: string, color: string, icon: string)

  /** A request giving only a name takes the column defaults. */
  function DefaultRequest(name: string): CreateAccountRequest {
    CreateAccountRequest(name, 0, "UAH", "CASH", "#6200EE", "account_balance_wallet")
  }

  function RowId(r: AccountRow): int {
    r.id
  }

  function RowOwner(r: AccountRow): int {
    r.userId
  }

  /** toAccountResponse: every column of the row. */
  function ToResponse(r: AccountRow): AccountResponse {
    AccountResponse(r.id, r.userId, r.name, r.balance, r.currency, r.kind, r.color, r.icon)
  }

  function Responses(rows: seq<AccountRow>): (r: seq<AccountResponse>)
    ensures |r| == |rows| && forall i :: 0 <= i < |rows| ==> r[i] == ToResponse(rows[i])
  {
    MapRows(rows, ToResponse)
  }

  lemma ResponsesAppend(rows: seq<AccountRow>, x: AccountRow)
    ensures Responses(rows + [x]) == Responses(rows) + [ToResponse(x)]
  {
  }

  /** The row an insert writes: the request's columns under the new id and the caller's user id. */
  function NewRow(id: int, userId: int, request: CreateAccountRequest): AccountRow {
    AccountRow(id, userId, request.name, request.balance, request.currency, request.kind, request.color, request.icon)
  }

  /** The row an update writes: every column from the request, the id and the owner kept. */
  function Edited(row: AccountRow, request: CreateAccountRequest): (r: AccountRow)
    ensures r.id == row.id && r.userId == row.userId
  {
    NewRow(row.id, row.userId, request)
  }

  /** The response of create: the request echoed under the new id and the caller's user id. */
  lemma CreateResponseEchoes(id: int, userId: int, request: CreateAccountRequest)
    ensures var r := ToResponse(NewRow(id, userId, request));
      && r.id == id && r.userId == userId && r.name == request.name && r.balance == request.balance
      && r.currency == request.currency && r.kind == request.kind && r.color == request.color && r.icon == request.icon
  {
  }

  /**
   * Every column the request writes fits the `accounts` schema: name 100,
   * currency 3, type 50, colour 7 and icon 50 characters, and a
   * decimal(15, 2) balance.
   */
  predicate Storable(request: CreateAccountRequest) {
    && FitsVarchar(request.name, 100) && FitsDecimal(request.balance) && FitsVarchar(request.currency, 3)
    && FitsVarchar(request.kind, 50) && FitsVarchar(request.color, 7) && FitsVarchar(request.icon, 50)
  }

  /** The column defaults fit the schema, so a request giving only a name is stored when the name fits. */
  lemma DefaultRequestStorable(name: string)
    ensures Storable(DefaultRequest(name)) <==> |name| <= 100
  {
  }

  class AccountRepository {
    var rows: seq<AccountRow>
    var lastId: int

    predicate Valid()
      reads this
    {
      0 <= lastId && UniqueKeys(rows, RowId) && KeysIssued(rows, RowId, lastId)
    }

    constructor ()
      ensures rows == [] && lastId == 0 && Valid()
    {
      rows := [];
      lastId := 0;
    }

    /** getAllByUserId: the user's accounts, and only theirs, in table order. */
    function GetAllByUserId(userId: int): (r: seq<AccountResponse>)
      reads this
      ensures forall i :: 0 <= i < |r| ==> r[i].userId == userId
      ensures forall row :: row in rows && row.userId == userId ==> ToResponse(row) in r
    {
      OwnedListing(rows, RowOwner, userId, ToResponse);
      Responses(OwnedRows(rows, RowOwner, userId))
    }

    /** getById: the account with that id when it belongs to the user, otherwise nothing. */
    function GetById(id: int, userId: int): (r: Option<AccountResponse>)
      reads this
      ensures r.Some? ==> r.value.id == id && r.value.userId == userId
      ensures r.Some? ==> exists row :: row in rows && r.value == ToResponse(row)
      ensures Valid() ==> (r.Some? <==> exists row :: row in rows && row.id == id && row.userId == userId)
    {
      var m := Matched(rows, RowId, RowOwner, id, userId);
      MatchedRows(rows, RowId, RowOwner, id, userId);
      if |m| == 1 then SingleOrNull(Responses(m)) else None
    }

    /**
     * create: a new row for the user under the next id; the response echoes
     * the request. A value too wide for its column throws and writes nothing.
     */
    method Create(userId: int, request: CreateAccountRequest) returns (r: Result<AccountResponse>)
      requires Valid()
      modifies this
      ensures Valid()
      ensures !Storable(request) ==> r == Err(ColumnOverflow) && rows == old(rows) && lastId == old(lastId)
      ensures Storable(request) ==>
        && lastId == old(lastId) + 1
        && rows == old(rows) + [NewRow(lastId, userId, request)]
        && r == Ok(ToResponse(NewRow(lastId, userId, request)))
        && GetById(lastId, userId) == Some(r.value)
        && GetAllByUserId(userId) == old(GetAllByUserId(userId)) + [r.value]
      ensures forall other :: other != userId ==> GetAllByUserId(other) == old(GetAllByUserId(other))
    {
      if !Storable(request) {
        return Err(ColumnOverflow);
      }
      var row := NewRow(lastId + 1, userId, request);
      InsertNextKey(rows, RowId, lastId, row);
      MatchedAppendFresh(rows, row, RowId, RowOwner);
      OwnedRowsAppend(rows, row, RowOwner, userId);
      ResponsesAppend(OwnedRows(rows, RowOwner, userId), row);
      forall other | other != userId
        ensures Responses(OwnedRows(rows + [row], RowOwner, other)) == Responses(OwnedRows(rows, RowOwner, other))
      {
        OwnedRowsAppend(rows, row, RowOwner, other);
      }
      rows := rows + [row];
      lastId := lastId + 1;
      r := Ok(ToResponse(row));
    }

    /**
     * update: the user's row with that id takes every column from the
     * request; the result says whether such a row existed. Other users'
     * rows are untouched. A value too wide for its column throws and writes
     * nothing.
     */
    method Update(id: int, userId: int, request: CreateAccountRequest) returns (r: Result<bool>)
      requires Valid()
      modifies this`rows
      ensures Valid()
      ensures !Storable(request) ==> r == Err(ColumnOverflow) && rows == old(rows)
      ensures Storable(request) ==>
        && rows == ScopedUpdate(old(rows), RowId, RowOwner, id, userId, Edited, request)
        && r.Ok? && (r.value <==> old(GetById(id, userId)).Some?)
        && GetById(id, userId) == if r.value then Some(ToResponse(NewRow(id, userId, request))) else None
      ensures forall other :: other != userId ==> GetAllByUserId(other) == old(GetAllByUserId(other))
    {
      if !Storable(request) {
        return Err(ColumnOverflow);
      }
      var m := Matched(rows, RowId, RowOwner, id, userId);
      ScopedUpdateOutcome(rows, RowId, RowOwner, id, userId, Edited, request, lastId);
      MatchedSingle(rows, RowId, RowOwner, id, userId);
      var after := ScopedUpdate(rows, RowId, RowOwner, id, userId, Edited, request);
      r := Ok(|m| > 0);
      rows := after;
    }

    /** delete: the user's row with that id is removed; the result says whether there was one. */
    method Delete(id: int, userId: int) returns (deleted: bool)
      requires Valid()
      modifies this`rows
      ensures Valid()
      ensures rows == ScopedDelete(old(rows), RowId, RowOwner, id, userId)
      ensures deleted <==> old(GetById(id, userId)).Some?
      ensures GetById(id, userId).None?
      ensures forall other :: other != userId ==> GetAllByUserId(other) == old(GetAllByUserId(other))
    {
      MatchedSingle(rows, RowId, RowOwner, id, userId);
      MatchedCount(rows, RowId, RowOwner, id, userId);
      ScopedDeleteCount(rows, RowId, RowOwner, id, userId);
      ScopedDeleteUnique(rows, RowId, RowOwner, id, userId);
      ScopedDeleteGone(rows, RowId, RowOwner, id, userId);
      forall other | other != userId
        ensures OwnedRows(ScopedDelete(rows, RowId, RowOwner, id, userId), RowOwner, other) == OwnedRows(rows, RowOwner, other)
      {
        ScopedDeleteOthers(rows, RowId, RowOwner, id, userId, other);
      }
      var after := ScopedDelete(rows, RowId, RowOwner, id, userId);
      forall x | x in after ensures 0 < x.id <= lastId {
        ScopedDeleteMember(rows, RowId, RowOwner, id, userId, x);
      }
      deleted := |after| < |rows|;
      rows := after;
    }
  }
}
