/**
 * The server's TransactionRepository over the `transactions` table, scoped
 * to the calling user like the account repository. The list is ordered by
 * date, newest first. A request's date is an ISO-8601 instant parsed by
 * `parseInstant` (whose failure is the exception `Instant.parse` throws);
 * a request without a date takes `now` at create and also at update.
 */
module ServerTransactions {
  import opened Wrappers
  import opened Lists
  import opened Sorting
  import opened Tables

  datatype TransactionRow = TransactionRow(id: int, accountId: int, categoryId: int, userId: int, amount: int,
                                           date: int, note: Option<string>, kind: string)

  /** The Kotlin field `type` is `kind` here. */
  datatype CreateTransactionRequest = CreateTransactionRequest(accountId: int, categoryId: int, amount: int,
                                                               date: Option<string>, note: Option<string>, kind: string)

  /** The response's date is the stored instant; its ISO-8601 rendering is not modelled. */
  datatype TransactionResponse = TransactionResponse(id: int, accountId: int, categoryId: int, userId: int, amount: int,
                                                     date: int, note: Option<string>, kind: string)

  function RowId(r: TransactionRow): int {
    r.id
  }

  function RowOwner(r: TransactionRow): int {
    r.userId
  }

  function RowDate(r: TransactionRow): int {
    r.date
  }

  function ToResponse(r: TransactionRow): TransactionResponse {
    TransactionResponse(r.id, r.accountId, r.categoryId, r.userId, r.amount, r.date, r.note, r.kind)
  }

  function Responses(rows: seq<TransactionRow>): (r: seq<TransactionResponse>)
    ensures |r| == |rows| && forall i :: 0 <= i < |rows| ==> r[i] == ToResponse(rows[i])
  {
    seq(|rows|, i requires 0 <= i < |rows| => ToResponse(rows[i]))
  }

  /** `request.date?.let { Instant.parse(it) } ?: Instant.now()`, failing as the parse does. */
  function RequestDate(parseInstant: string -> Result<int>, request: CreateTransactionRequest, now: int): (r: Result<int>)
    ensures request.date.None? ==> r == Ok(now)
    ensures request.date.Some? ==> r == parseInstant(request.date.value)
  {
    match request.date
    case None => Ok(now)
    case Some(text) => parseInstant(text)
  }

  function NewRow(id: int, userId: int, request: CreateTransactionRequest, date: int): TransactionRow {
    TransactionRow(id, request.accountId, request.categoryId, userId, request.amount, date, request.note, request.kind)
  }

  /** The request paired with the date the statement writes. */
  datatype Edit = Edit(request: CreateTransactionRequest, date: int)

  /** update's SET list: account, category, amount, date, note and type; the id and owner kept. */
  function Edited(row: TransactionRow, edit: Edit): (r: TransactionRow)
    ensures r.id == row.id && r.userId == row.userId
  {
    NewRow(row.id, row.userId, edit.request, edit.date)
  }

  /** Every column the request writes fits the `transactions` schema: a decimal(15, 2) amount and a type of at most 20 characters; the note is unbounded text. */
  predicate Storable(request: CreateTransactionRequest) {
    FitsDecimal(request.amount) && FitsVarchar(request.kind, 20)
  }

  /** The user's transactions, newest first. */
  function Listing(rows: seq<TransactionRow>, userId: int): seq<TransactionResponse> {
    Responses(SortDesc(OwnedRows(rows, RowOwner, userId), RowDate))
  }

  /** The listing holds the user's rows and no other, newest first. */
  lemma ListingMeaning(rows: seq<TransactionRow>, userId: int)
    ensures var r := Listing(rows, userId);
      && (forall i, j :: 0 <= i < j < |r| ==> r[i].date >= r[j].date)
      && (forall i :: 0 <= i < |r| ==> r[i].userId == userId && exists row :: row in rows && r[i] == ToResponse(row))
      && (forall row :: row in rows && row.userId == userId ==> ToResponse(row) in r)
      && |r| == |OwnedRows(rows, RowOwner, userId)|
  {
    var owned := OwnedRows(rows, RowOwner, userId);
    var sorted := SortDesc(owned, RowDate);
    var r := Responses(sorted);
    forall i | 0 <= i < |r| ensures r[i].userId == userId && sorted[i] in rows && r[i] == ToResponse(sorted[i]) {
      assert sorted[i] in multiset(owned);
      OwnedRowsMember(rows, RowOwner, userId, sorted[i]);
    }
    forall row | row in rows && row.userId == userId ensures ToResponse(row) in r {
      OwnedRowsMember(rows, RowOwner, userId, row);
      assert row in multiset(sorted);
      var i :| 0 <= i < |sorted| && sorted[i] == row;
      assert r[i] == ToResponse(row);
    }
    forall i, j | 0 <= i < j < |r| ensures r[i].date >= r[j].date {
      assert RowDate(sorted[i]) >= RowDate(sorted[j]);
    }
  }

  class TransactionRepository {
    var rows: seq<TransactionRow>
    var lastId: int

    predicate Valid()
      reads this
    {
      0 <= lastId && UniqueKeys(rows, RowId) && KeysIssued(rows, RowId, lastId)
    }

    constructor ()
      ensures rows == [] && lastId == 0 && Valid()
    {
      rows := [];
      lastId := 0;
    }

    /** getAllByUserId: the user's transactions ordered by date, newest first. */
    function GetAllByUserId(userId: int): (r: seq<TransactionResponse>)
      reads this
      ensures forall i, j :: 0 <= i < j < |r| ==> r[i].date >= r[j].date
      ensures forall i :: 0 <= i < |r| ==> r[i].userId == userId
      ensures forall row :: row in rows && row.userId == userId ==> ToResponse(row) in r
    {
      ListingMeaning(rows, userId);
      Listing(rows, userId)
    }

    /** The user's row with that id, if there is one: the row the scoped statements address. */
    function Find(id: int, userId: int): (r: Option<TransactionResponse>)
      reads this
      ensures r.Some? ==> r.value.id == id && r.value.userId == userId
      ensures Valid() ==> (r.Some? <==> exists row :: row in rows && row.id == id && row.userId == userId)
    {
      var m := Matched(rows, RowId, RowOwner, id, userId);
      MatchedRows(rows, RowId, RowOwner, id, userId);
      if |m| == 1 then Some(ToResponse(m[0])) else None
    }

    /**
     * create: a new row for the user under the next id, dated by the
     * request or now; the response echoes the request with that date. An
     * unparseable date, and then a value too wide for its column, fails and
     * writes nothing.
     */
    method Create(parseInstant: string -> Result<int>, userId: int, request: CreateTransactionRequest, now: int)
      returns (r: Result<TransactionResponse>)
      requires Valid()
      modifies this
      ensures Valid()
      ensures RequestDate(parseInstant, request, now).Err? ==>
        r == Err(RequestDate(parseInstant, request, now).error) && rows == old(rows) && lastId == old(lastId)
      ensures RequestDate(parseInstant, request, now).Ok? && !Storable(request) ==>
        r == Err(ColumnOverflow) && rows == old(rows) && lastId == old(lastId)
      ensures RequestDate(parseInstant, request, now).Ok? && Storable(request) ==>
        var row := NewRow(old(lastId) + 1, userId, request, RequestDate(parseInstant, request, now).value);
        && r == Ok(ToResponse(row))
        && rows == old(rows) + [row] && lastId == old(lastId) + 1
        && Find(row.id, userId) == Some(ToResponse(row))
        && ToResponse(row) in GetAllByUserId(userId)
        && |GetAllByUserId(userId)| == |old(GetAllByUserId(userId))| + 1
      ensures forall other :: other != userId ==> GetAllByUserId(other) == old(GetAllByUserId(other))
    {
      var date := RequestDate(parseInstant, request, now);
      if date.Err? {
        return Err(date.error);
      }
      if !Storable(request) {
        return Err(ColumnOverflow);
      }
      var row := NewRow(lastId + 1, userId, request, date.value);
      InsertNextKey(rows, RowId, lastId, row);
      MatchedAppendFresh(rows, row, RowId, RowOwner);
      OwnedRowsAppend(rows, row, RowOwner, userId);
      forall other | other != userId
        ensures OwnedRows(rows + [row], RowOwner, other) == OwnedRows(rows, RowOwner, other)
      {
        OwnedRowsAppend(rows, row, RowOwner, other);
      }
      assert row in rows + [row];
      rows := rows + [row];
      lastId := lastId + 1;
      r := Ok(ToResponse(row));
    }

    /**
     * update: the user's row with that id takes every column from the
     * request, dated by the request or now; the result says whether such a
     * row existed. An unparseable date, and then a value too wide for its
     * column, fails and writes nothing.
     */
    method Update(parseInstant: string -> Result<int>, id: int, userId: int, request: CreateTransactionRequest, now: int)
      returns (r: Result<bool>)
      requires Valid()
      modifies this`rows
      ensures Valid()
      ensures RequestDate(parseInstant, request, now).Err? ==>
        r == Err(RequestDate(parseInstant, request, now).error) && rows == old(rows)
      ensures RequestDate(parseInstant, request, now).Ok? && !Storable(request) ==>
        r == Err(ColumnOverflow) && rows == old(rows)
      ensures RequestDate(parseInstant, request, now).Ok? && Storable(request) ==>
        var edit := Edit(request, RequestDate(parseInstant, request, now).value);
        && rows == ScopedUpdate(old(rows), RowId, RowOwner, id, userId, Edited, edit)
        && (r == Ok(true) <==> old(Find(id, userId)).Some?)
        && r.Ok?
        && Find(id, userId) == if r.value then Some(ToResponse(NewRow(id, userId, request, edit.date))) else None
      ensures forall other :: other != userId ==> GetAllByUserId(other) == old(GetAllByUserId(other))
    {
      var date := RequestDate(parseInstant, request, now);
      if date.Err? {
        return Err(date.error);
      }
      if !Storable(request) {
        return Err(ColumnOverflow);
      }
      var edit := Edit(request, date.value);
      var m := Matched(rows, RowId, RowOwner, id, userId);
      ScopedUpdateOutcome(rows, RowId, RowOwner, id, userId, Edited, edit, lastId);
      MatchedSingle(rows, RowId, RowOwner, id, userId);
      var after := ScopedUpdate(rows, RowId, RowOwner, id, userId, Edited, edit);
      rows := after;
      r := Ok(|m| > 0);
    }

    /** delete: the user's row with that id is removed; the result says whether there was one. */
    method Delete(id: int, userId: int) returns (deleted: bool)
      requires Valid()
      modifies this`rows
      ensures Valid()
      ensures rows == ScopedDelete(old(rows), RowId, RowOwner, id, userId)
      ensures deleted <==> old(Find(id, userId)).Some?
      ensures Find(id, userId).None?
      ensures forall other :: other != userId ==> GetAllByUserId(other) == old(GetAllByUserId(other))
    {
      MatchedSingle(rows, RowId, RowOwner, id, userId);
      MatchedCount(rows, RowId, RowOwner, id, userId);
      ScopedDeleteCount(rows, RowId, RowOwner, id, userId);
      ScopedDeleteUnique(rows, RowId, RowOwner, id, userId);
      ScopedDeleteGone(rows, RowId, RowOwner, id, userId);
      forall other | other != userId
        ensures OwnedRows(ScopedDelete(rows, RowId, RowOwner, id, userId), RowOwner, other) == OwnedRows(rows, RowOwner, other)
      {
        ScopedDeleteOthers(rows, RowId, RowOwner, id, userId, other);
      }
      var after := ScopedDelete(rows, RowId, RowOwner, id, userId);
      forall x | x in after ensures 0 < x.id <= lastId {
        ScopedDeleteMember(rows, RowId, RowOwner, id, userId, x);
      }
      deleted := |after| < |rows|;
      rows := after;
    }
  }

}
