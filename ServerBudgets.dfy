/**
 * The server's BudgetRepository over the `budgets` table, scoped to the
 * calling user like the account repository. The start date is a required
 * ISO-8601 instant parsed by `parseInstant`, whose failure is the exception
 * `Instant.parse` throws.
 */
module ServerBudgets {
  import opened Wrappers
  import opened Tables

  datatype BudgetRow = BudgetRow(id: int, userId: int, categoryId: int, limitAmount: int, period: string, startDate: int)

  datatype CreateBudgetRequest = CreateBudgetRequest(categoryId: int, limitAmount: int, period: string, startDate: string)

  /** The response's start date is the stored instant; its ISO-8601 rendering is not modelled. */
  datatype BudgetResponse = BudgetResponse(id: int, userId: int, categoryId: int, limitAmount: int, period: string, startDate: int)

  /** A request without a period budgets by the month. */
  function DefaultPeriodRequest(categoryId: int, limitAmount: int, startDate: string): CreateBudgetRequest {
    CreateBudgetRequest(categoryId, limitAmount, "MONTH", startDate)
  }

  function RowId(r: BudgetRow): int {
    r.id
  }

  function RowOwner(r: BudgetRow): int {
    r.userId
  }

  function ToResponse(r: BudgetRow): BudgetResponse {
    BudgetResponse(r.id, r.userId, r.categoryId, r.limitAmount, r.period, r.startDate)
  }

  function Responses(rows: seq<BudgetRow>): (r: seq<BudgetResponse>)
    ensures |r| == |rows| && forall i :: 0 <= i < |rows| ==> r[i] == ToResponse(rows[i])
  {
    MapRows(rows, ToResponse)
  }

  lemma ResponsesAppend(rows: seq<BudgetRow>, x: BudgetRow)
    ensures Responses(rows + [x]) == Responses(rows) + [ToResponse(x)]
  {
  }

  /** Every column the request writes fits the `budgets` schema: a decimal(15, 2) limit and a period of at most 20 characters. */
  predicate Storable(request: CreateBudgetRequest) {
    FitsDecimal(request.limitAmount) && FitsVarchar(request.period, 20)
  }

  function NewRow(id: int, userId: int, request: CreateBudgetRequest, startDate: int): BudgetRow {
    BudgetRow(id, userId, request.categoryId, request.limitAmount, request.period, startDate)
  }

  /** The request paired with the start date it parsed to. */
  datatype Edit = Edit(request: CreateBudgetRequest, startDate: int)

  /** update's SET list: category, limit, period and start date; the id and owner kept. */
  function Edited(row: BudgetRow, edit: Edit): (r: BudgetRow)
    ensures r.id == row.id && r.userId == row.userId
  {
    NewRow(row.id, row.userId, edit.request, edit.startDate)
  }

  /** The default period fits its column, so a request without a period is stored exactly when its limit fits. */
  lemma DefaultPeriodStorable(categoryId: int, limitAmount: int, startDate: string)
    ensures DefaultPeriodRequest(categoryId, limitAmount, startDate).period == "MONTH"
    ensures Storable(DefaultPeriodRequest(categoryId, limitAmount, startDate)) <==> FitsDecimal(limitAmount)
  {
  }

  class BudgetRepository {
    var rows: seq<BudgetRow>
    var lastId: int

    predicate Valid()
      reads this
    {
      0 <= lastId && UniqueKeys(rows, RowId) && KeysIssued(rows, RowId, lastId)
    }

    constructor ()
      ensures rows == [] && lastId == 0 && Valid()
    {
      rows := [];
      lastId := 0;
    }

    /** getAllByUserId: the user's budgets, and only theirs, in table order. */
    function GetAllByUserId(userId: int): (r: seq<BudgetResponse>)
      reads this
      ensures forall i :: 0 <= i < |r| ==> r[i].userId == userId
      ensures forall row :: row in rows && row.userId == userId ==> ToResponse(row) in r
    {
      OwnedListing(rows, RowOwner, userId, ToResponse);
      Responses(OwnedRows(rows, RowOwner, userId))
    }

    /** The user's row with that id, if there is one: the row the scoped statements address. */
    function Find(id: int, userId: int): (r: Option<BudgetResponse>)
      reads this
      ensures r.Some? ==> r.value.id == id && r.value.userId == userId
      ensures Valid() ==> (r.Some? <==> exists row :: row in rows && row.id == id && row.userId == userId)
    {
      var m := Matched(rows, RowId, RowOwner, id, userId);
      MatchedRows(rows, RowId, RowOwner, id, userId);
      if |m| == 1 then Some(ToResponse(m[0])) else None
    }

    /**
     * create: a new row for the user under the next id with the parsed
     * start date; the response echoes the request. An unparseable start
     * date, and then a value too wide for its column, fails and writes
     * nothing.
     */
    method Create(parseInstant: string -> Result<int>, userId: int, request: CreateBudgetRequest)
      returns (r: Result<BudgetResponse>)
      requires Valid()
      modifies this
      ensures Valid()
      ensures parseInstant(request.startDate).Err? ==>
        r == Err(parseInstant(request.startDate).error) && rows == old(rows) && lastId == old(lastId)
      ensures parseInstant(request.startDate).Ok? && !Storable(request) ==>
        r == Err(ColumnOverflow) && rows == old(rows) && lastId == old(lastId)
      ensures parseInstant(request.startDate).Ok? && Storable(request) ==>
        var row := NewRow(old(lastId) + 1, userId, request, parseInstant(request.startDate).value);
        && r == Ok(ToResponse(row))
        && rows == old(rows) + [row] && lastId == old(lastId) + 1
        && Find(row.id, userId) == Some(ToResponse(row))
        && GetAllByUserId(userId) == old(GetAllByUserId(userId)) + [ToResponse(row)]
      ensures forall other :: other != userId ==> GetAllByUserId(other) == old(GetAllByUserId(other))
    {
      var startDate := parseInstant(request.startDate);
      if startDate.Err? {
        return Err(startDate.error);
      }
      if !Storable(request) {
        return Err(ColumnOverflow);
      }
      var row := NewRow(lastId + 1, userId, request, startDate.value);
      InsertNextKey(rows, RowId, lastId, row);
      MatchedAppendFresh(rows, row, RowId, RowOwner);
      OwnedRowsAppend(rows, row, RowOwner, userId);
      ResponsesAppend(OwnedRows(rows, RowOwner, userId), row);
      forall other | other != userId
        ensures Responses(OwnedRows(rows + [row], RowOwner, other)) == Responses(OwnedRows(rows, RowOwner, other))
      {
        OwnedRowsAppend(rows, row, RowOwner, other);
      }
      rows := rows + [row];
      lastId := lastId + 1;
      r := Ok(ToResponse(row));
    }

    /**
     * update: the user's row with that id takes every column from the
     * request; the result says whether such a row existed. An unparseable
     * start date, and then a value too wide for its column, fails and
     * writes nothing.
     */
    method Update(parseInstant: string -> Result<int>, id: int, userId: int, request: CreateBudgetRequest)
      returns (r: Result<bool>)
      requires Valid()
      modifies this`rows
      ensures Valid()
      ensures parseInstant(request.startDate).Err? ==>
        r == Err(parseInstant(request.startDate).error) && rows == old(rows)
      ensures parseInstant(request.startDate).Ok? && !Storable(request) ==>
        r == Err(ColumnOverflow) && rows == old(rows)
      ensures parseInstant(request.startDate).Ok? && Storable(request) ==>
        var edit := Edit(request, parseInstant(request.startDate).value);
        && rows == ScopedUpdate(old(rows), RowId, RowOwner, id, userId, Edited, edit)
        && (r == Ok(true) <==> old(Find(id, userId)).Some?)
        && r.Ok?
        && Find(id, userId) == if r.value then Some(ToResponse(NewRow(id, userId, request, edit.startDate))) else None
      ensures forall other :: other != userId ==> GetAllByUserId(other) == old(GetAllByUserId(other))
    {
      var startDate := parseInstant(request.startDate);
      if startDate.Err? {
        return Err(startDate.error);
      }
      if !Storable(request) {
        return Err(ColumnOverflow);
      }
      var edit := Edit(request, startDate.value);
      var m := Matched(rows, RowId, RowOwner, id, userId);
      ScopedUpdateOutcome(rows, RowId, RowOwner, id, userId, Edited, edit, lastId);
      MatchedSingle(rows, RowId, RowOwner, id, userId);
      var after := ScopedUpdate(rows, RowId, RowOwner, id, userId, Edited, edit);
      rows := after;
      r := Ok(|m| > 0);
    }

    /** delete: the user's row with that id is removed; the result says whether there was one. */
    method Delete(id: int, userId: int) returns (deleted: bool)
      requires Valid()
      modifies this`rows
      ensures Valid()
      ensures rows == ScopedDelete(old(rows), RowId, RowOwner, id, userId)
      ensures deleted <==> old(Find(id, userId)).Some?
      ensures Find(id, userId).None?
      ensures forall other :: other != userId ==> GetAllByUserId(other) == old(GetAllByUserId(other))
    {
      MatchedSingle(rows, RowId, RowOwner, id, userId);
      MatchedCount(rows, RowId, RowOwner, id, userId);
      ScopedDeleteCount(rows, RowId, RowOwner, id, userId);
      ScopedDeleteUnique(rows, RowId, RowOwner, id, userId);
      ScopedDeleteGone(rows, RowId, RowOwner, id, userId);
      forall other | other != userId
        ensures OwnedRows(ScopedDelete(rows, RowId, RowOwner, id, userId), RowOwner, other) == OwnedRows(rows, RowOwner, other)
      {
        ScopedDeleteOthers(rows, RowId, RowOwner, id, userId, other);
      }
      var after := ScopedDelete(rows, RowId, RowOwner, id, userId);
      forall x | x in after ensures 0 < x.id <= lastId {
        ScopedDeleteMember(rows, RowId, RowOwner, id, userId, x);
      }
      deleted := |after| < |rows|;
      rows := after;
    }
  }
}
