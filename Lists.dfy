/** The Kotlin collection operations the core relies on: filter, sumOf and take. */
module Lists {

  /** `filter { p(it) }`: the elements satisfying p, in their original order. */
  function Filter<T(!new)>(s: seq<T>, p: T -> bool): (r: seq<T>)
    ensures |r| <= |s|
    ensures forall x :: x in r ==> x in s && p(x)
  {
    if |s| == 0 then []
    else (if p(s[0]) then [s[0]] else []) + Filter(s[1..], p)
  }

  /** Filter keeps every occurrence of an element that satisfies p and drops every other one. */
  lemma {:induction false} FilterCount<T(!new)>(s: seq<T>, p: T -> bool, x: T)
    ensures multiset(Filter(s, p))[x] == if p(x) then multiset(s)[x] else 0
  {
    if |s| > 0 {
      assert s == [s[0]] + s[1..];
      FilterCount(s[1..], p, x);
    }
  }

  /** An element is kept exactly when it occurs in s and satisfies p. */
  lemma FilterMember<T(!new)>(s: seq<T>, p: T -> bool, x: T)
    ensures x in Filter(s, p) <==> x in s && p(x)
  {
    FilterCount(s, p, x);
    assert x in Filter(s, p) <==> x in multiset(Filter(s, p));
    assert x in s <==> x in multiset(s);
  }

  lemma FilterCons<T(!new)>(x: T, s: seq<T>, p: T -> bool)
    ensures Filter([x] + s, p) == (if p(x) then [x] else []) + Filter(s, p)
  {
    assert ([x] + s)[0] == x && ([x] + s)[1..] == s;
  }

  lemma {:induction false} FilterAppend<T(!new)>(a: seq<T>, b: seq<T>, p: T -> bool)
    ensures Filter(a + b, p) == Filter(a, p) + Filter(b, p)
  {
    if |a| == 0 {
      assert a + b == b;
    } else {
      assert (a + b)[1..] == a[1..] + b;
      FilterAppend(a[1..], b, p);
    }
  }

  /** Two filters can be applied in either order. */
  lemma {:induction false} FilterCommute<T(!new)>(s: seq<T>, p: T -> bool, q: T -> bool)
    ensures Filter(Filter(s, p), q) == Filter(Filter(s, q), p)
  {
    if |s| > 0 {
      FilterCommute(s[1..], p, q);
      var fp, fq := Filter(s[1..], p), Filter(s[1..], q);
      if p(s[0]) {
        FilterAppend([s[0]], fp, q);
      } else {
        assert Filter(s, p) == fp;
      }
      if q(s[0]) {
        FilterAppend([s[0]], fq, p);
      } else {
        assert Filter(s, q) == fq;
      }
    }
  }

  /** Two successive filters are one filter by the conjunction. */
  lemma {:induction false} FilterFilter<T(!new)>(s: seq<T>, p: T -> bool, q: T -> bool, both: T -> bool)
    requires forall x :: both(x) == (p(x) && q(x))
    ensures Filter(Filter(s, p), q) == Filter(s, both)
  {
    if |s| > 0 {
      var t := s[1..];
      FilterFilter(t, p, q, both);
      var fp := Filter(t, p);
      if p(s[0]) {
        assert Filter(s, p) == [s[0]] + fp;
        FilterCons(s[0], fp, q);
      } else {
        assert Filter(s, p) == fp;
      }
      assert Filter(s, both) == (if both(s[0]) then [s[0]] else []) + Filter(t, both);
    }
  }

  /** A filter that keeps everything is the identity. */
  lemma {:induction false} FilterAll<T(!new)>(s: seq<T>, p: T -> bool)
    requires forall x :: x in s ==> p(x)
    ensures Filter(s, p) == s
  {
    if |s| > 0 {
      FilterAll(s[1..], p);
    }
  }

  /** A filter and its complement split the list between them. */
  lemma {:induction false} FilterSplit<T(!new)>(s: seq<T>, p: T -> bool, q: T -> bool)
    requires forall x :: q(x) == !p(x)
    ensures |Filter(s, p)| + |Filter(s, q)| == |s|
  {
    if |s| > 0 {
      FilterSplit(s[1..], p, q);
    }
  }

  /** No two positions of s both satisfy p. */
  predicate AtMostOneSatisfies<T>(s: seq<T>, p: T -> bool) {
    forall i, j :: 0 <= i < j < |s| && p(s[i]) ==> !p(s[j])
  }

  lemma {:induction false} FilterAtMostOne<T(!new)>(s: seq<T>, p: T -> bool)
    requires AtMostOneSatisfies(s, p)
    ensures |Filter(s, p)| <= 1
  {
    if |s| > 0 {
      var t := s[1..];
      assert AtMostOneSatisfies(t, p) by {
        forall i, j | 0 <= i < j < |t| && p(t[i]) ensures !p(t[j]) {
          assert t[i] == s[i + 1] && t[j] == s[j + 1];
        }
      }
      FilterAtMostOne(t, p);
      if p(s[0]) {
        forall x | x in t ensures !p(x) {
          var m :| 0 <= m < |t| && t[m] == x;
          assert s[m + 1] == x;
        }
        if |Filter(t, p)| > 0 {
          FilterMember(t, p, Filter(t, p)[0]);
          assert false;
        }
      }
    }
  }

  /**
   * When at most one element satisfies p, the filter selects a single
   * element exactly when one exists, and that element is it.
   */
  lemma FilterSingle<T(!new)>(s: seq<T>, p: T -> bool)
    requires AtMostOneSatisfies(s, p)
    ensures |Filter(s, p)| <= 1
    ensures |Filter(s, p)| == 1 <==> exists x :: x in s && p(x)
    ensures |Filter(s, p)| == 1 ==> Filter(s, p)[0] in s && p(Filter(s, p)[0])
  {
    FilterAtMostOne(s, p);
    var w := Filter(s, p);
    if |w| > 0 {
      FilterMember(s, p, w[0]);
    }
    if x :| x in s && p(x) {
      FilterMember(s, p, x);
    }
  }

  /** `sumOf { f(it) }` over integers. */
  function SumOf<T>(s: seq<T>, f: T -> int): int {
    if |s| == 0 then 0 else f(s[0]) + SumOf(s[1..], f)
  }

  /** `sumOf { f(it) }` over reals. */
  function RealSumOf<T>(s: seq<T>, f: T -> real): real {
    if |s| == 0 then 0.0 else f(s[0]) + RealSumOf(s[1..], f)
  }

  lemma SumOfCons<T>(x: T, s: seq<T>, f: T -> int)
    ensures SumOf([x] + s, f) == f(x) + SumOf(s, f)
  {
    assert ([x] + s)[0] == x && ([x] + s)[1..] == s;
  }

  lemma {:induction false} SumOfAppend<T>(a: seq<T>, b: seq<T>, f: T -> int)
    ensures SumOf(a + b, f) == SumOf(a, f) + SumOf(b, f)
  {
    if |a| == 0 {
      assert a + b == b;
    } else {
      assert (a + b)[1..] == a[1..] + b;
      SumOfAppend(a[1..], b, f);
    }
  }

  lemma {:induction false} RealSumOfAppend<T>(a: seq<T>, b: seq<T>, f: T -> real)
    ensures RealSumOf(a + b, f) == RealSumOf(a, f) + RealSumOf(b, f)
  {
    if |a| == 0 {
      assert a + b == b;
    } else {
      assert (a + b)[1..] == a[1..] + b;
      RealSumOfAppend(a[1..], b, f);
    }
  }

  /** `take(n)`: the first min(n, |s|) elements. */
  function Take<T>(s: seq<T>, n: nat): (r: seq<T>)
    ensures |r| == if n < |s| then n else |s|
    ensures forall i :: 0 <= i < |r| ==> r[i] == s[i]
  {
    if n < |s| then s[..n] else s
  }

  /** No two positions of s have the same g-projection. */
  predicate DistinctBy<T>(s: seq<T>, g: T -> int) {
    forall i, j :: 0 <= i < j < |s| ==> g(s[i]) != g(s[j])
  }

  /** No value occurs twice in s. */
  predicate NoDuplicates(s: seq<int>) {
    forall i, j :: 0 <= i < j < |s| ==> s[i] != s[j]
  }
}
