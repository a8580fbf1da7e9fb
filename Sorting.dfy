/**
 * Kotlin's `sortedByDescending { key(it) }` on lists: a stable sort, so
 * elements with equal keys keep their input order. It is modelled as an
 * insertion sort that inserts each head element in front of the first
 * element whose key is not larger.
 */
module Sorting {
  import opened Lists

  predicate SortedDesc<T>(s: seq<T>, key: T -> int) {
    forall i, j :: 0 <= i < j < |s| ==> key(s[i]) >= key(s[j])
  }

  /** x placed in front of the first element of s whose key does not exceed key(x). */
  function Insert<T>(x: T, s: seq<T>, key: T -> int): (r: seq<T>)
    ensures multiset(r) == multiset{x} + multiset(s)
    ensures |r| == |s| + 1
  {
    if |s| == 0 then [x]
    else if key(x) >= key(s[0]) then [x] + s
    else
      assert s == [s[0]] + s[1..];
      [s[0]] + Insert(x, s[1..], key)
  }

  lemma InsertMember<T>(x: T, s: seq<T>, key: T -> int, y: T)
    ensures y in Insert(x, s, key) <==> y == x || y in s
  {
    var r := Insert(x, s, key);
    assert y in r <==> y in multiset(r);
    assert y in s <==> y in multiset(s);
  }

  lemma SortedDescTail<T>(s: seq<T>, key: T -> int)
    requires |s| > 0 && SortedDesc(s, key)
    ensures SortedDesc(s[1..], key)
  {
    var t := s[1..];
    forall i, j | 0 <= i < j < |t| ensures key(t[i]) >= key(t[j]) {
      assert t[i] == s[i + 1] && t[j] == s[j + 1];
    }
  }

  /** A head whose key bounds every key of a sorted list keeps it sorted. */
  lemma SortedDescCons<T>(h: T, s: seq<T>, key: T -> int)
    requires SortedDesc(s, key) && forall y :: y in s ==> key(h) >= key(y)
    ensures SortedDesc([h] + s, key)
  {
    var r := [h] + s;
    forall i, j | 0 <= i < j < |r| ensures key(r[i]) >= key(r[j]) {
      if i == 0 {
        assert r[j] == s[j - 1];
      } else {
        assert r[i] == s[i - 1] && r[j] == s[j - 1];
      }
    }
  }

  /** The head of a sorted list has the largest key. */
  lemma SortedDescHead<T>(s: seq<T>, key: T -> int)
    requires |s| > 0 && SortedDesc(s, key)
    ensures forall y :: y in s ==> key(s[0]) >= key(y)
  {
    forall y | y in s ensures key(s[0]) >= key(y) {
      var j :| 0 <= j < |s| && s[j] == y;
      if j > 0 {
        assert key(s[0]) >= key(s[j]);
      }
    }
  }

  lemma {:induction false} InsertSorted<T>(x: T, s: seq<T>, key: T -> int)
    requires SortedDesc(s, key)
    ensures SortedDesc(Insert(x, s, key), key)
  {
    if |s| > 0 && key(x) < key(s[0]) {
      var tail := s[1..];
      SortedDescTail(s, key);
      SortedDescHead(s, key);
      InsertSorted(x, tail, key);
      var rest := Insert(x, tail, key);
      forall y | y in rest ensures key(s[0]) >= key(y) {
        InsertMember(x, tail, key, y);
        if y != x {
          assert y in s by {
            var k :| 0 <= k < |tail| && tail[k] == y;
            assert s[k + 1] == y;
          }
        }
      }
      SortedDescCons(s[0], rest, key);
    } else if |s| > 0 {
      SortedDescHead(s, key);
      SortedDescCons(x, s, key);
    }
  }

  function SortDesc<T>(s: seq<T>, key: T -> int): (r: seq<T>)
    ensures multiset(r) == multiset(s)
    ensures |r| == |s|
    ensures SortedDesc(r, key)
  {
    if |s| == 0 then []
    else
      assert s == [s[0]] + s[1..];
      InsertSorted(s[0], SortDesc(s[1..], key), key);
      Insert(s[0], SortDesc(s[1..], key), key)
  }

  /** The elements of s whose key is v, in their order in s. */
  function WithKey<T(!new)>(s: seq<T>, key: T -> int, v: int): seq<T> {
    Filter(s, x => key(x) == v)
  }

  lemma WithKeyCons<T(!new)>(x: T, s: seq<T>, key: T -> int, v: int)
    ensures WithKey([x] + s, key, v) == (if key(x) == v then [x] else []) + WithKey(s, key, v)
  {
    assert ([x] + s)[0] == x && ([x] + s)[1..] == s;
  }

  lemma {:induction false} InsertWithKey<T(!new)>(x: T, s: seq<T>, key: T -> int, v: int)
    ensures WithKey(Insert(x, s, key), key, v) == if key(x) == v then [x] + WithKey(s, key, v) else WithKey(s, key, v)
  {
    if |s| == 0 {
      WithKeyCons(x, s, key, v);
    } else if key(x) >= key(s[0]) {
      WithKeyCons(x, s, key, v);
    } else {
      var tail := s[1..];
      var rest := Insert(x, tail, key);
      assert Insert(x, s, key) == [s[0]] + rest;
      InsertWithKey(x, tail, key, v);
      WithKeyCons(s[0], rest, key, v);
      WithKeyCons(s[0], tail, key, v);
      assert [s[0]] + tail == s;
      var head := if key(s[0]) == v then [s[0]] else [];
      assert WithKey(s, key, v) == head + WithKey(tail, key, v);
      assert WithKey(Insert(x, s, key), key, v) == head + WithKey(rest, key, v);
      if key(x) == v {
        assert head == [];
      }
    }
  }

  /** Stability: for every key value, the elements with that key appear in the output in their input order. */
  lemma {:induction false} SortDescStable<T(!new)>(s: seq<T>, key: T -> int, v: int)
    ensures WithKey(SortDesc(s, key), key, v) == WithKey(s, key, v)
  {
    if |s| > 0 {
      SortDescStable(s[1..], key, v);
      InsertWithKey(s[0], SortDesc(s[1..], key), key, v);
    }
  }

  lemma {:induction false} InsertSum<T>(x: T, s: seq<T>, key: T -> int, f: T -> int)
    ensures SumOf(Insert(x, s, key), f) == f(x) + SumOf(s, f)
  {
    if |s| > 0 && key(x) < key(s[0]) {
      InsertSum(x, s[1..], key, f);
      assert ([s[0]] + Insert(x, s[1..], key))[1..] == Insert(x, s[1..], key);
    } else if |s| > 0 {
      assert ([x] + s)[1..] == s;
    }
  }

  /** Sorting does not change any sum over the list. */
  lemma {:induction false} SortDescSum<T>(s: seq<T>, key: T -> int, f: T -> int)
    ensures SumOf(SortDesc(s, key), f) == SumOf(s, f)
  {
    if |s| > 0 {
      SortDescSum(s[1..], key, f);
      InsertSum(s[0], SortDesc(s[1..], key), key, f);
    }
  }

  /** Summing a filtered list: the head counts when it passes the filter. */
  lemma FilterSumHead<T(!new)>(s: seq<T>, p: T -> bool, f: T -> int)
    requires |s| > 0
    ensures SumOf(Filter(s, p), f) == (if p(s[0]) then f(s[0]) else 0) + SumOf(Filter(s[1..], p), f)
  {
    var head := if p(s[0]) then [s[0]] else [];
    assert Filter(s, p) == head + Filter(s[1..], p);
    SumOfAppend(head, Filter(s[1..], p), f);
  }

  lemma {:induction false} InsertFilterSum<T(!new)>(x: T, s: seq<T>, key: T -> int, p: T -> bool, f: T -> int)
    ensures SumOf(Filter(Insert(x, s, key), p), f) == (if p(x) then f(x) else 0) + SumOf(Filter(s, p), f)
  {
    var r := Insert(x, s, key);
    if |s| == 0 || key(x) >= key(s[0]) {
      assert r == [x] + s;
      assert r[1..] == s;
      FilterSumHead(r, p, f);
    } else {
      var rest := Insert(x, s[1..], key);
      assert r == [s[0]] + rest;
      assert r[0] == s[0] && r[1..] == rest;
      InsertFilterSum(x, s[1..], key, p, f);
      FilterSumHead(r, p, f);
      FilterSumHead(s, p, f);
    }
  }

  /** Sorting does not change the sum over any filtered part of the list. */
  lemma {:induction false} SortDescFilterSum<T(!new)>(s: seq<T>, key: T -> int, p: T -> bool, f: T -> int)
    ensures SumOf(Filter(SortDesc(s, key), p), f) == SumOf(Filter(s, p), f)
  {
    if |s| > 0 {
      SortDescFilterSum(s[1..], key, p, f);
      InsertFilterSum(s[0], SortDesc(s[1..], key), key, p, f);
      FilterSumHead(s, p, f);
    }
  }

  lemma {:induction false} InsertRealSum<T>(x: T, s: seq<T>, key: T -> int, f: T -> real)
    ensures RealSumOf(Insert(x, s, key), f) == f(x) + RealSumOf(s, f)
  {
    if |s| > 0 && key(x) < key(s[0]) {
      InsertRealSum(x, s[1..], key, f);
      assert ([s[0]] + Insert(x, s[1..], key))[1..] == Insert(x, s[1..], key);
    } else if |s| > 0 {
      assert ([x] + s)[1..] == s;
    }
  }

  lemma {:induction false} SortDescRealSum<T>(s: seq<T>, key: T -> int, f: T -> real)
    ensures RealSumOf(SortDesc(s, key), f) == RealSumOf(s, f)
  {
    if |s| > 0 {
      SortDescRealSum(s[1..], key, f);
      InsertRealSum(s[0], SortDesc(s[1..], key), key, f);
    }
  }

  lemma DistinctByTail<T>(s: seq<T>, g: T -> int)
    requires |s| > 0 && DistinctBy(s, g)
    ensures DistinctBy(s[1..], g) && forall y :: y in s[1..] ==> g(y) != g(s[0])
  {
    var t := s[1..];
    forall i, j | 0 <= i < j < |t| ensures g(t[i]) != g(t[j]) {
      assert t[i] == s[i + 1] && t[j] == s[j + 1];
    }
    forall y | y in t ensures g(y) != g(s[0]) {
      var k :| 0 <= k < |t| && t[k] == y;
      assert s[k + 1] == y;
    }
  }

  lemma DistinctByCons<T>(h: T, s: seq<T>, g: T -> int)
    requires DistinctBy(s, g) && forall y :: y in s ==> g(y) != g(h)
    ensures DistinctBy([h] + s, g)
  {
    var r := [h] + s;
    forall i, j | 0 <= i < j < |r| ensures g(r[i]) != g(r[j]) {
      if i == 0 {
        assert r[j] == s[j - 1];
      } else {
        assert r[i] == s[i - 1] && r[j] == s[j - 1];
      }
    }
  }

  lemma {:induction false} InsertDistinct<T>(x: T, s: seq<T>, key: T -> int, g: T -> int)
    requires DistinctBy(s, g) && forall y :: y in s ==> g(y) != g(x)
    ensures DistinctBy(Insert(x, s, key), g)
  {
    if |s| > 0 && key(x) < key(s[0]) {
      var tail := s[1..];
      DistinctByTail(s, g);
      assert forall y :: y in tail ==> y in s;
      InsertDistinct(x, tail, key, g);
      var rest := Insert(x, tail, key);
      forall y | y in rest ensures g(y) != g(s[0]) {
        InsertMember(x, tail, key, y);
        assert s[0] in s;
      }
      DistinctByCons(s[0], rest, g);
    } else if |s| > 0 {
      DistinctByCons(x, s, g);
    }
  }

  /** Sorting keeps a projection that had no repeats free of repeats. */
  lemma {:induction false} SortDescDistinct<T>(s: seq<T>, key: T -> int, g: T -> int)
    requires DistinctBy(s, g)
    ensures DistinctBy(SortDesc(s, key), g)
  {
    if |s| > 0 {
      assert DistinctBy(s[1..], g) by {
        forall i, j | 0 <= i < j < |s[1..]| ensures g(s[1..][i]) != g(s[1..][j]) {
          assert s[1..][i] == s[i + 1] && s[1..][j] == s[j + 1];
        }
      }
      SortDescDistinct(s[1..], key, g);
      var sorted := SortDesc(s[1..], key);
      forall y | y in sorted ensures g(y) != g(s[0]) {
        assert y in multiset(sorted);
        assert y in s[1..];
        var j :| 0 <= j < |s[1..]| && s[1..][j] == y;
        assert s[j + 1] == y;
      }
      InsertDistinct(s[0], sorted, key, g);
    }
  }
}
