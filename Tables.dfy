/**
 * Rows of a database table as a sequence, with the primary-key and
 * owner-scoped operations the DAOs and the server repositories perform.
 * `key` projects a row's primary key and `owner` its `userId` column.
 */
module Tables {
  import opened Wrappers
  import opened Lists

  /** The primary key is unique. */
  predicate UniqueKeys<T>(rows: seq<T>, key: T -> int) {
    DistinctBy(rows, key)
  }

  /** `WHERE id = :k LIMIT 1`: the first row with key k. */
  function Lookup<T>(rows: seq<T>, key: T -> int, k: int): (r: Option<T>)
    ensures r.Some? ==> r.value in rows && key(r.value) == k
    ensures r.None? <==> forall x :: x in rows ==> key(x) != k
  {
    if |rows| == 0 then None
    else if key(rows[0]) == k then Some(rows[0])
    else
      assert forall x :: x in rows ==> x == rows[0] || x in rows[1..];
      Lookup(rows[1..], key, k)
  }

  lemma LookupCons<T>(x: T, rows: seq<T>, key: T -> int, k: int)
    ensures Lookup([x] + rows, key, k) == if key(x) == k then Some(x) else Lookup(rows, key, k)
  {
    assert ([x] + rows)[0] == x && ([x] + rows)[1..] == rows;
  }

  /** Under a unique key the lookup finds the one row with that key. */
  lemma {:induction false} LookupUnique<T>(rows: seq<T>, key: T -> int, x: T)
    requires UniqueKeys(rows, key) && x in rows
    ensures Lookup(rows, key, key(x)) == Some(x)
  {
    if rows[0] != x {
      assert x in rows[1..];
      var j :| 0 <= j < |rows[1..]| && rows[1..][j] == x;
      assert rows[j + 1] == x;
      assert key(rows[0]) != key(x);
      assert UniqueKeys(rows[1..], key) by {
        forall i, j | 0 <= i < j < |rows[1..]| ensures key(rows[1..][i]) != key(rows[1..][j]) {
          assert rows[1..][i] == rows[i + 1] && rows[1..][j] == rows[j + 1];
        }
      }
      LookupUnique(rows[1..], key, x);
    }
  }

  /** The rows whose key is not k (`DELETE ... WHERE id = :k`). */
  function Without<T(!new)>(rows: seq<T>, key: T -> int, k: int): seq<T> {
    Filter(rows, (x: T) => key(x) != k)
  }

  lemma WithoutMember<T(!new)>(rows: seq<T>, key: T -> int, k: int, y: T)
    ensures y in Without(rows, key, k) <==> y in rows && key(y) != k
  {
    FilterMember(rows, (x: T) => key(x) != k, y);
  }

  /** Removing key k leaves every other key's row where it was. */
  lemma {:induction false} LookupWithout<T(!new)>(rows: seq<T>, key: T -> int, k: int, j: int)
    ensures Lookup(Without(rows, key, k), key, j) == if j == k then None else Lookup(rows, key, j)
  {
    if |rows| == 0 {
    } else {
      assert rows == [rows[0]] + rows[1..];
      LookupWithout(rows[1..], key, k, j);
      var rest := Without(rows[1..], key, k);
      if key(rows[0]) != k {
        assert Without(rows, key, k) == [rows[0]] + rest;
        LookupCons(rows[0], rest, key, j);
      } else {
        assert Without(rows, key, k) == rest;
      }
      LookupCons(rows[0], rows[1..], key, j);
    }
  }

  lemma {:induction false} LookupAppend<T>(rows: seq<T>, x: T, key: T -> int, j: int)
    ensures Lookup(rows + [x], key, j) == if Lookup(rows, key, j).Some? then Lookup(rows, key, j)
                                         else if key(x) == j then Some(x) else None
  {
    if |rows| == 0 {
      assert rows + [x] == [x];
    } else {
      assert (rows + [x])[1..] == rows[1..] + [x];
      LookupAppend(rows[1..], x, key, j);
    }
  }

  /** A filter keeps the key unique. */
  lemma {:induction false} FilterUnique<T(!new)>(rows: seq<T>, p: T -> bool, key: T -> int)
    requires UniqueKeys(rows, key)
    ensures UniqueKeys(Filter(rows, p), key)
  {
    if |rows| > 0 {
      var tail := rows[1..];
      assert UniqueKeys(tail, key) by {
        forall i, j | 0 <= i < j < |tail| ensures key(tail[i]) != key(tail[j]) {
          assert tail[i] == rows[i + 1] && tail[j] == rows[j + 1];
        }
      }
      FilterUnique(tail, p, key);
      var rest := Filter(tail, p);
      if p(rows[0]) {
        var r := [rows[0]] + rest;
        forall i, j | 0 <= i < j < |r| ensures key(r[i]) != key(r[j]) {
          if i == 0 {
            assert r[j] in rest;
            assert r[j] in tail;
            var m :| 0 <= m < |tail| && tail[m] == r[j];
            assert rows[m + 1] == r[j];
          } else {
            assert r[i] == rest[i - 1] && r[j] == rest[j - 1];
          }
        }
      }
    }
  }

  lemma WithoutUnique<T(!new)>(rows: seq<T>, key: T -> int, k: int)
    requires UniqueKeys(rows, key)
    ensures UniqueKeys(Without(rows, key, k), key)
  {
    FilterUnique(rows, (x: T) => key(x) != k, key);
  }

  /** Appending a row whose key is not yet present keeps the key unique. */
  lemma AppendUnique<T>(rows: seq<T>, x: T, key: T -> int)
    requires UniqueKeys(rows, key)
    requires forall y :: y in rows ==> key(y) != key(x)
    ensures UniqueKeys(rows + [x], key)
  {
    var r := rows + [x];
    forall i, j | 0 <= i < j < |r| ensures key(r[i]) != key(r[j]) {
      if j == |rows| {
        assert r[i] in rows;
      } else {
        assert r[i] == rows[i] && r[j] == rows[j];
      }
    }
  }

  /** `INSERT OR REPLACE`: any row with x's key is dropped and x is added. */
  function Put<T(!new)>(rows: seq<T>, key: T -> int, x: T): seq<T> {
    Without(rows, key, key(x)) + [x]
  }

  /** After a replacing insert x is the row of its key, and every other key keeps its row. */
  lemma LookupPut<T(!new)>(rows: seq<T>, key: T -> int, x: T, j: int)
    ensures Lookup(Put(rows, key, x), key, j) == if j == key(x) then Some(x) else Lookup(rows, key, j)
  {
    LookupWithout(rows, key, key(x), j);
    LookupAppend(Without(rows, key, key(x)), x, key, j);
  }

  lemma PutUnique<T(!new)>(rows: seq<T>, key: T -> int, x: T)
    requires UniqueKeys(rows, key)
    ensures UniqueKeys(Put(rows, key, x), key)
  {
    var w := Without(rows, key, key(x));
    FilterUnique(rows, (y: T) => key(y) != key(x), key);
    forall y | y in w ensures key(y) != key(x) {
      WithoutMember(rows, key, key(x), y);
    }
    AppendUnique(w, x, key);
  }

  /** A key that no row has: the insert adds x and keeps every row. */
  lemma PutFresh<T(!new)>(rows: seq<T>, key: T -> int, x: T)
    requires forall y :: y in rows ==> key(y) != key(x)
    ensures Put(rows, key, x) == rows + [x]
  {
    FilterAll(rows, (y: T) => key(y) != key(x));
  }

  /** `UPDATE ... WHERE id = key(x)` setting every column from x. */
  function Replace<T>(rows: seq<T>, key: T -> int, x: T): (r: seq<T>)
    ensures |r| == |rows|
  {
    if |rows| == 0 then []
    else [if key(rows[0]) == key(x) then x else rows[0]] + Replace(rows[1..], key, x)
  }

  /** Every row keeps its key; a row with x's key becomes x and every other row is untouched. */
  lemma {:induction false} ReplaceRows<T>(rows: seq<T>, key: T -> int, x: T)
    ensures forall i :: 0 <= i < |rows| ==>
      Replace(rows, key, x)[i] == if key(rows[i]) == key(x) then x else rows[i]
  {
    if |rows| > 0 {
      ReplaceRows(rows[1..], key, x);
      var r := Replace(rows, key, x);
      forall i | 0 < i < |rows| ensures r[i] == if key(rows[i]) == key(x) then x else rows[i] {
        assert r[i] == Replace(rows[1..], key, x)[i - 1] && rows[i] == rows[1..][i - 1];
      }
    }
  }

  /** An update changes the row of x's key when there is one, and no other key's row. */
  lemma {:induction false} LookupReplace<T>(rows: seq<T>, key: T -> int, x: T, j: int)
    ensures Lookup(Replace(rows, key, x), key, j) ==
      if j != key(x) then Lookup(rows, key, j)
      else if Lookup(rows, key, j).Some? then Some(x) else None
  {
    if |rows| > 0 {
      LookupReplace(rows[1..], key, x, j);
      var head := if key(rows[0]) == key(x) then x else rows[0];
      LookupCons(head, Replace(rows[1..], key, x), key, j);
      assert rows == [rows[0]] + rows[1..];
      LookupCons(rows[0], rows[1..], key, j);
    }
  }

  lemma {:induction false} ReplaceUnique<T>(rows: seq<T>, key: T -> int, x: T)
    requires UniqueKeys(rows, key)
    ensures UniqueKeys(Replace(rows, key, x), key)
  {
    ReplaceRows(rows, key, x);
    var r := Replace(rows, key, x);
    forall i, j | 0 <= i < j < |r| ensures key(r[i]) != key(r[j]) {
      assert key(r[i]) == key(rows[i]) && key(r[j]) == key(rows[j]);
    }
  }

  // ---- Owner-scoped operations (`WHERE id = :id AND user_id = :userId`) ----

  predicate Owns<T>(x: T, key: T -> int, owner: T -> int, id: int, userId: int) {
    key(x) == id && owner(x) == userId
  }

  /** `select { userId eq :userId }`. */
  function OwnedRows<T(!new)>(rows: seq<T>, owner: T -> int, userId: int): seq<T> {
    Filter(rows, (x: T) => owner(x) == userId)
  }

  lemma OwnedRowsMember<T(!new)>(rows: seq<T>, owner: T -> int, userId: int, y: T)
    ensures y in OwnedRows(rows, owner, userId) <==> y in rows && owner(y) == userId
  {
    FilterMember(rows, (x: T) => owner(x) == userId, y);
  }

  /** The rows matched by an owner-scoped WHERE clause. */
  function Matched<T(!new)>(rows: seq<T>, key: T -> int, owner: T -> int, id: int, userId: int): seq<T> {
    Filter(rows, (x: T) => Owns(x, key, owner, id, userId))
  }

  /** An owner-scoped statement affects some row exactly when a row with that id belongs to that user. */
  lemma MatchedCount<T(!new)>(rows: seq<T>, key: T -> int, owner: T -> int, id: int, userId: int)
    ensures |Matched(rows, key, owner, id, userId)| > 0 <==> exists x :: x in rows && key(x) == id && owner(x) == userId
  {
    var m := Matched(rows, key, owner, id, userId);
    if |m| > 0 {
      FilterMember(rows, (x: T) => Owns(x, key, owner, id, userId), m[0]);
    }
    if x :| x in rows && key(x) == id && owner(x) == userId {
      FilterMember(rows, (x: T) => Owns(x, key, owner, id, userId), x);
    }
  }

  /** Under a unique key at most one row matches. */
  lemma {:induction false} MatchedAtMostOne<T(!new)>(rows: seq<T>, key: T -> int, owner: T -> int, id: int, userId: int)
    requires UniqueKeys(rows, key)
    ensures |Matched(rows, key, owner, id, userId)| <= 1
  {
    if |rows| > 0 {
      var tail := rows[1..];
      assert UniqueKeys(tail, key) by {
        forall i, j | 0 <= i < j < |tail| ensures key(tail[i]) != key(tail[j]) {
          assert tail[i] == rows[i + 1] && tail[j] == rows[j + 1];
        }
      }
      MatchedAtMostOne(tail, key, owner, id, userId);
      if Owns(rows[0], key, owner, id, userId) {
        forall y | y in tail ensures key(y) != id {
          var m :| 0 <= m < |tail| && tail[m] == y;
          assert rows[m + 1] == y;
        }
        MatchedCount(tail, key, owner, id, userId);
      }
    }
  }

  /** `update({ id eq :id and userId eq :userId }) { ... }`: apply(row, request) on the matched rows only. */
  function ScopedUpdate<T, Q>(rows: seq<T>, key: T -> int, owner: T -> int, id: int, userId: int,
                              apply: (T, Q) -> T, request: Q): (r: seq<T>)
    ensures |r| == |rows|
  {
    if |rows| == 0 then []
    else [if Owns(rows[0], key, owner, id, userId) then apply(rows[0], request) else rows[0]]
         + ScopedUpdate(rows[1..], key, owner, id, userId, apply, request)
  }

  /**
   * A scoped update rewrites the matched row and touches no other row; in
   * particular no row of another user changes.
   */
  lemma {:induction false} ScopedUpdateRows<T, Q>(rows: seq<T>, key: T -> int, owner: T -> int, id: int, userId: int,
                                                  apply: (T, Q) -> T, request: Q)
    ensures var r := ScopedUpdate(rows, key, owner, id, userId, apply, request);
      && (forall i :: 0 <= i < |rows| && Owns(rows[i], key, owner, id, userId) ==> r[i] == apply(rows[i], request))
      && (forall i :: 0 <= i < |rows| && !Owns(rows[i], key, owner, id, userId) ==> r[i] == rows[i])
      && (forall i :: 0 <= i < |rows| && owner(rows[i]) != userId ==> r[i] == rows[i])
  {
    if |rows| > 0 {
      ScopedUpdateRows(rows[1..], key, owner, id, userId, apply, request);
      var r := ScopedUpdate(rows, key, owner, id, userId, apply, request);
      var tail := ScopedUpdate(rows[1..], key, owner, id, userId, apply, request);
      forall i | 0 < i < |rows| ensures r[i] == tail[i - 1] && rows[i] == rows[1..][i - 1] {
      }
    }
  }

  /** With an apply that keeps key and owner, a scoped update keeps the key unique. */
  lemma ScopedUpdateUnique<T, Q>(rows: seq<T>, key: T -> int, owner: T -> int, id: int, userId: int,
                                 apply: (T, Q) -> T, request: Q)
    requires UniqueKeys(rows, key)
    requires forall x :: key(apply(x, request)) == key(x)
    ensures UniqueKeys(ScopedUpdate(rows, key, owner, id, userId, apply, request), key)
  {
    ScopedUpdateRows(rows, key, owner, id, userId, apply, request);
    var r := ScopedUpdate(rows, key, owner, id, userId, apply, request);
    forall i, j | 0 <= i < j < |r| ensures key(r[i]) != key(r[j]) {
      assert key(r[i]) == key(rows[i]) && key(r[j]) == key(rows[j]);
    }
  }

  /** `deleteWhere { id eq :id and userId eq :userId }`. */
  function ScopedDelete<T(!new)>(rows: seq<T>, key: T -> int, owner: T -> int, id: int, userId: int): seq<T> {
    Filter(rows, (x: T) => !Owns(x, key, owner, id, userId))
  }

  /** A scoped delete removes exactly the matched rows; every other row stays, in order. */
  lemma ScopedDeleteMember<T(!new)>(rows: seq<T>, key: T -> int, owner: T -> int, id: int, userId: int, y: T)
    ensures y in ScopedDelete(rows, key, owner, id, userId) <==> y in rows && !(key(y) == id && owner(y) == userId)
  {
    FilterMember(rows, (x: T) => !Owns(x, key, owner, id, userId), y);
  }

  /** The number of rows a scoped delete removes is the number it matches. */
  lemma ScopedDeleteCount<T(!new)>(rows: seq<T>, key: T -> int, owner: T -> int, id: int, userId: int)
    ensures |rows| - |ScopedDelete(rows, key, owner, id, userId)| == |Matched(rows, key, owner, id, userId)|
  {
    FilterSplit(rows, (x: T) => Owns(x, key, owner, id, userId), (x: T) => !Owns(x, key, owner, id, userId));
  }

  // ---- Auto-increment inserts and what the scoped statements leave behind ----

  /** Every key is positive and at most the last key issued. */
  predicate KeysIssued<T(==)>(rows: seq<T>, key: T -> int, lastId: int) {
    forall x :: x in rows ==> 0 < key(x) <= lastId
  }

  /** An auto-increment insert takes the key after the last one issued, which no row has. */
  lemma InsertNextKey<T>(rows: seq<T>, key: T -> int, lastId: int, x: T)
    requires 0 <= lastId && UniqueKeys(rows, key) && KeysIssued(rows, key, lastId) && key(x) == lastId + 1
    ensures UniqueKeys(rows + [x], key) && KeysIssued(rows + [x], key, lastId + 1)
    ensures forall y :: y in rows ==> key(y) != key(x)
  {
    AppendUnique(rows, x, key);
    forall y | y in rows + [x] ensures 0 < key(y) <= lastId + 1 {
      if y != x {
        assert y in rows;
      }
    }
  }

  /** A newly appended row is listed last among its owner's rows. */
  lemma OwnedRowsAppend<T(!new)>(rows: seq<T>, x: T, owner: T -> int, userId: int)
    ensures OwnedRows(rows + [x], owner, userId) == OwnedRows(rows, owner, userId) + (if owner(x) == userId then [x] else [])
  {
    FilterAppend(rows, [x], (y: T) => owner(y) == userId);
    FilterCons(x, [], (y: T) => owner(y) == userId);
  }

  /** Under a unique key exactly one row matches exactly when some row with that id belongs to that user. */
  lemma MatchedSingle<T(!new)>(rows: seq<T>, key: T -> int, owner: T -> int, id: int, userId: int)
    requires UniqueKeys(rows, key)
    ensures |Matched(rows, key, owner, id, userId)| == 1 <==> exists x :: x in rows && key(x) == id && owner(x) == userId
    ensures |Matched(rows, key, owner, id, userId)| == 1 ==>
      var x := Matched(rows, key, owner, id, userId)[0]; x in rows && key(x) == id && owner(x) == userId
  {
    MatchedCount(rows, key, owner, id, userId);
    MatchedAtMostOne(rows, key, owner, id, userId);
  }

  /**
   * The row an owner-scoped lookup finds is a stored row with that id and
   * owner; under a unique key there is one exactly when such a row exists.
   */
  lemma MatchedRows<T(!new)>(rows: seq<T>, key: T -> int, owner: T -> int, id: int, userId: int)
    ensures var m := Matched(rows, key, owner, id, userId);
      |m| == 1 ==> m[0] in rows && key(m[0]) == id && owner(m[0]) == userId
    ensures UniqueKeys(rows, key) ==>
      (|Matched(rows, key, owner, id, userId)| == 1 <==> exists x :: x in rows && key(x) == id && owner(x) == userId)
  {
    var m := Matched(rows, key, owner, id, userId);
    if |m| == 1 {
      FilterMember(rows, (x: T) => Owns(x, key, owner, id, userId), m[0]);
    }
    if UniqueKeys(rows, key) {
      MatchedSingle(rows, key, owner, id, userId);
    }
  }

  /** `.map { it.toResponse() }` over selected rows. */
  function MapRows<T, R>(rows: seq<T>, f: T -> R): (r: seq<R>)
    ensures |r| == |rows| && forall i :: 0 <= i < |rows| ==> r[i] == f(rows[i])
  {
    seq(|rows|, i requires 0 <= i < |rows| => f(rows[i]))
  }

  /** The listing of a user's rows is made of that user's rows, and every row of the user is listed. */
  lemma OwnedListing<T(!new), R>(rows: seq<T>, owner: T -> int, userId: int, f: T -> R)
    ensures var owned := OwnedRows(rows, owner, userId); var r := MapRows(owned, f);
      && (forall i :: 0 <= i < |r| ==> owned[i] in rows && owner(owned[i]) == userId && r[i] == f(owned[i]))
      && (forall x :: x in rows && owner(x) == userId ==> f(x) in r)
  {
    var owned := OwnedRows(rows, owner, userId);
    var r := MapRows(owned, f);
    forall i | 0 <= i < |r| ensures owned[i] in rows && owner(owned[i]) == userId {
      OwnedRowsMember(rows, owner, userId, owned[i]);
    }
    forall x | x in rows && owner(x) == userId ensures f(x) in r {
      OwnedRowsMember(rows, owner, userId, x);
      var i :| 0 <= i < |owned| && owned[i] == x;
      assert r[i] == f(x);
    }
  }

  /** A row appended under a key no other row has is the only row its key and owner match. */
  lemma MatchedAppendFresh<T(!new)>(rows: seq<T>, x: T, key: T -> int, owner: T -> int)
    requires forall y :: y in rows ==> key(y) != key(x)
    ensures Matched(rows + [x], key, owner, key(x), owner(x)) == [x]
  {
    var p := (y: T) => Owns(y, key, owner, key(x), owner(x));
    FilterAppend(rows, [x], p);
    FilterCons(x, [], p);
    if |Filter(rows, p)| > 0 {
      FilterMember(rows, p, Filter(rows, p)[0]);
    }
  }

  lemma ScopedDeleteUnique<T(!new)>(rows: seq<T>, key: T -> int, owner: T -> int, id: int, userId: int)
    requires UniqueKeys(rows, key)
    ensures UniqueKeys(ScopedDelete(rows, key, owner, id, userId), key)
  {
    FilterUnique(rows, (x: T) => !Owns(x, key, owner, id, userId), key);
  }

  /** After a scoped delete the same statement matches nothing. */
  lemma {:induction false} ScopedDeleteGone<T(!new)>(rows: seq<T>, key: T -> int, owner: T -> int, id: int, userId: int)
    ensures Matched(ScopedDelete(rows, key, owner, id, userId), key, owner, id, userId) == []
  {
    if |rows| > 0 {
      var tail := rows[1..];
      ScopedDeleteGone(tail, key, owner, id, userId);
      var rest := ScopedDelete(tail, key, owner, id, userId);
      assert rows == [rows[0]] + tail;
      FilterCons(rows[0], tail, (x: T) => !Owns(x, key, owner, id, userId));
      if !Owns(rows[0], key, owner, id, userId) {
        assert ScopedDelete(rows, key, owner, id, userId) == [rows[0]] + rest;
        FilterCons(rows[0], rest, (x: T) => Owns(x, key, owner, id, userId));
        assert Matched([rows[0]] + rest, key, owner, id, userId) == Matched(rest, key, owner, id, userId);
      } else {
        assert ScopedDelete(rows, key, owner, id, userId) == rest;
      }
    }
  }

  /** apply(x, request) for every x, in order. */
  function Applied<T, Q>(rows: seq<T>, apply: (T, Q) -> T, request: Q): (r: seq<T>)
    ensures |r| == |rows|
  {
    if |rows| == 0 then [] else [apply(rows[0], request)] + Applied(rows[1..], apply, request)
  }

  /**
   * With an apply that keeps key and owner, the rows a scoped update
   * matches afterwards are the rows it matched before, rewritten.
   */
  lemma {:induction false} ScopedUpdateMatched<T(!new), Q>(rows: seq<T>, key: T -> int, owner: T -> int, id: int, userId: int,
                                                           apply: (T, Q) -> T, request: Q)
    requires forall x :: key(apply(x, request)) == key(x) && owner(apply(x, request)) == owner(x)
    ensures Matched(ScopedUpdate(rows, key, owner, id, userId, apply, request), key, owner, id, userId)
            == Applied(Matched(rows, key, owner, id, userId), apply, request)
  {
    if |rows| > 0 {
      var p := (x: T) => Owns(x, key, owner, id, userId);
      var u := ScopedUpdate(rows, key, owner, id, userId, apply, request);
      var tailU := ScopedUpdate(rows[1..], key, owner, id, userId, apply, request);
      var head := if Owns(rows[0], key, owner, id, userId) then apply(rows[0], request) else rows[0];
      ScopedUpdateMatched(rows[1..], key, owner, id, userId, apply, request);
      assert u == [head] + tailU;
      FilterCons(head, tailU, p);
      assert rows == [rows[0]] + rows[1..];
      FilterCons(rows[0], rows[1..], p);
      var m := Filter(rows[1..], p);
      assert p(head) == p(rows[0]);
      assert Filter(tailU, p) == Applied(m, apply, request);
      if p(rows[0]) {
        assert Matched(rows, key, owner, id, userId) == [rows[0]] + m;
        assert Matched(u, key, owner, id, userId) == [head] + Filter(tailU, p);
        var am := Applied([rows[0]] + m, apply, request);
        assert ([rows[0]] + m)[0] == rows[0] && ([rows[0]] + m)[1..] == m;
        assert am == [apply(rows[0], request)] + Applied(m, apply, request);
      } else {
        assert Matched(rows, key, owner, id, userId) == m;
        assert Matched(u, key, owner, id, userId) == Filter(tailU, p);
      }
    }
  }

  /** A scoped update leaves every other user's rows, in order, as they were. */
  lemma {:induction false} ScopedUpdateOthers<T(!new), Q>(rows: seq<T>, key: T -> int, owner: T -> int, id: int, userId: int,
                                                          apply: (T, Q) -> T, request: Q, other: int)
    requires other != userId
    requires forall x :: owner(apply(x, request)) == owner(x)
    ensures OwnedRows(ScopedUpdate(rows, key, owner, id, userId, apply, request), owner, other) == OwnedRows(rows, owner, other)
  {
    if |rows| > 0 {
      var p := (x: T) => owner(x) == other;
      var tailU := ScopedUpdate(rows[1..], key, owner, id, userId, apply, request);
      var head := if Owns(rows[0], key, owner, id, userId) then apply(rows[0], request) else rows[0];
      ScopedUpdateOthers(rows[1..], key, owner, id, userId, apply, request, other);
      assert ScopedUpdate(rows, key, owner, id, userId, apply, request) == [head] + tailU;
      FilterCons(head, tailU, p);
      assert rows == [rows[0]] + rows[1..];
      FilterCons(rows[0], rows[1..], p);
      if p(rows[0]) {
        assert head == rows[0];
      }
    }
  }

  /**
   * What a scoped update whose apply keeps key and owner leaves behind: the
   * keys stay unique and issued, at most one row was matched, that row (if
   * any) is now the only match in its rewritten form, and every other user's
   * rows are as they were.
   */
  lemma ScopedUpdateOutcome<T(!new), Q>(rows: seq<T>, key: T -> int, owner: T -> int, id: int, userId: int,
                                        apply: (T, Q) -> T, request: Q, lastId: int)
    requires UniqueKeys(rows, key) && KeysIssued(rows, key, lastId)
    requires forall x :: key(apply(x, request)) == key(x) && owner(apply(x, request)) == owner(x)
    ensures var after, m := ScopedUpdate(rows, key, owner, id, userId, apply, request), Matched(rows, key, owner, id, userId);
      && UniqueKeys(after, key) && KeysIssued(after, key, lastId)
      && |m| <= 1
      && (|m| > 0 <==> exists x :: x in rows && key(x) == id && owner(x) == userId)
      && Matched(after, key, owner, id, userId) == (if |m| > 0 then [apply(m[0], request)] else [])
      && forall other :: other != userId ==> OwnedRows(after, owner, other) == OwnedRows(rows, owner, other)
  {
    var m := Matched(rows, key, owner, id, userId);
    var after := ScopedUpdate(rows, key, owner, id, userId, apply, request);
    MatchedAtMostOne(rows, key, owner, id, userId);
    MatchedCount(rows, key, owner, id, userId);
    ScopedUpdateUnique(rows, key, owner, id, userId, apply, request);
    ScopedUpdateMatched(rows, key, owner, id, userId, apply, request);
    if |m| > 0 {
      assert Applied(m, apply, request) == [apply(m[0], request)];
    }
    ScopedUpdateRows(rows, key, owner, id, userId, apply, request);
    forall x | x in after ensures 0 < key(x) <= lastId {
      var i :| 0 <= i < |after| && after[i] == x;
      assert rows[i] in rows;
    }
    forall other | other != userId
      ensures OwnedRows(after, owner, other) == OwnedRows(rows, owner, other)
    {
      ScopedUpdateOthers(rows, key, owner, id, userId, apply, request, other);
    }
  }

  /** A scoped delete leaves every other user's rows, in order, as they were. */
  lemma {:induction false} ScopedDeleteOthers<T(!new)>(rows: seq<T>, key: T -> int, owner: T -> int, id: int, userId: int, other: int)
    requires other != userId
    ensures OwnedRows(ScopedDelete(rows, key, owner, id, userId), owner, other) == OwnedRows(rows, owner, other)
  {
    if |rows| > 0 {
      var p := (x: T) => owner(x) == other;
      var tail := rows[1..];
      var rest := ScopedDelete(tail, key, owner, id, userId);
      ScopedDeleteOthers(tail, key, owner, id, userId, other);
      assert rows == [rows[0]] + tail;
      FilterCons(rows[0], tail, (x: T) => !Owns(x, key, owner, id, userId));
      FilterCons(rows[0], tail, p);
      if !Owns(rows[0], key, owner, id, userId) {
        assert ScopedDelete(rows, key, owner, id, userId) == [rows[0]] + rest;
        FilterCons(rows[0], rest, p);
      } else {
        assert ScopedDelete(rows, key, owner, id, userId) == rest;
      }
    }
  }

  // ---- Column types of the server schema ----

  /** A `varchar(n)` column takes at most n characters; a longer value makes the statement throw. */
  predicate FitsVarchar(s: string, n: nat) {
    |s| <= n
  }

  /** The bound on a `decimal(15, 2)` column in minor units: 13 integer digits and 2 decimals. */
  const DecimalLimit := 1_000_000_000_000_000

  /** A `decimal(15, 2)` column takes the amount; a wider one makes the statement throw. */
  predicate FitsDecimal(minor: int) {
    -DecimalLimit < minor < DecimalLimit
  }

  /** The exception a value too wide for its column raises. */
  const ColumnOverflow := "value does not fit its column"
}
