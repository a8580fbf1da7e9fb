/**
 * Sums and filters over transaction lists, as the view models write them
 * with `filter { ... }.sumOf { it.amount }`, and the fact behind every
 * time-bucketed series: splitting a list into buckets by a key and adding
 * up the buckets gives the total of the list.
 */
module Ledger {
  import opened Lists
  import opened Domain
  import opened JavaCalendar

  function Amount(t: Transaction): int {
    t.amount
  }

  /** `sumOf { it.amount }`. */
  function SumAmounts(ts: seq<Transaction>): int {
    SumOf(ts, Amount)
  }

  /** `filter { it.type == kind }`. */
  function OfKind(ts: seq<Transaction>, kind: TransactionType): seq<Transaction> {
    Filter(ts, (t: Transaction) => t.kind == kind)
  }

  function CategoryIdOf(t: Transaction): int {
    t.categoryId
  }

  /** `filter { it.categoryId == categoryId }`: the bucket of one category. */
  function InCategory(ts: seq<Transaction>, categoryId: int): seq<Transaction> {
    Bucket(ts, CategoryIdOf, categoryId)
  }

  /** `filter { it.date in start..end }`. */
  function InWindow(ts: seq<Transaction>, w: Window): seq<Transaction> {
    Filter(ts, (t: Transaction) => w.Contains(t.date))
  }

  /** A transaction is in the window's list exactly when it is in the input and its date is in the window. */
  lemma InWindowMember(ts: seq<Transaction>, w: Window, t: Transaction)
    ensures t in InWindow(ts, w) <==> t in ts && w.Contains(t.date)
  {
    FilterMember(ts, (t: Transaction) => w.Contains(t.date), t);
  }

  lemma OfKindMember(ts: seq<Transaction>, kind: TransactionType, t: Transaction)
    ensures t in OfKind(ts, kind) <==> t in ts && t.kind == kind
  {
    FilterMember(ts, (t: Transaction) => t.kind == kind, t);
  }

  /** The transactions whose key is k. */
  function Bucket(ts: seq<Transaction>, key: Transaction -> int, k: int): seq<Transaction> {
    Filter(ts, (t: Transaction) => key(t) == k)
  }

  lemma BucketMember(ts: seq<Transaction>, key: Transaction -> int, k: int, t: Transaction)
    ensures t in Bucket(ts, key, k) <==> t in ts && key(t) == k
  {
    FilterMember(ts, (t: Transaction) => key(t) == k, t);
  }

  /** Each filter keeps every occurrence of a transaction that passes it and drops every other one. */
  lemma BucketCount(ts: seq<Transaction>, key: Transaction -> int, k: int, t: Transaction)
    ensures multiset(Bucket(ts, key, k))[t] == if key(t) == k then multiset(ts)[t] else 0
  {
    FilterCount(ts, (t: Transaction) => key(t) == k, t);
  }

  lemma OfKindCount(ts: seq<Transaction>, kind: TransactionType, t: Transaction)
    ensures multiset(OfKind(ts, kind))[t] == if t.kind == kind then multiset(ts)[t] else 0
  {
    FilterCount(ts, (t: Transaction) => t.kind == kind, t);
  }

  lemma InWindowCount(ts: seq<Transaction>, w: Window, t: Transaction)
    ensures multiset(InWindow(ts, w))[t] == if w.Contains(t.date) then multiset(ts)[t] else 0
  {
    FilterCount(ts, (t: Transaction) => w.Contains(t.date), t);
  }

  /** The sum of the bucket sums, one bucket per entry of keys. */
  function BucketsTotal(ts: seq<Transaction>, key: Transaction -> int, keys: seq<int>): int {
    if |keys| == 0 then 0 else SumAmounts(Bucket(ts, key, keys[0])) + BucketsTotal(ts, key, keys[1..])
  }

  lemma SumAmountsCons(t: Transaction, ts: seq<Transaction>)
    ensures SumAmounts([t] + ts) == t.amount + SumAmounts(ts)
  {
    SumOfCons(t, ts, Amount);
  }

  lemma OfKindCons(t: Transaction, ts: seq<Transaction>, kind: TransactionType)
    ensures OfKind([t] + ts, kind) == (if t.kind == kind then [t] else []) + OfKind(ts, kind)
  {
    FilterCons(t, ts, (t: Transaction) => t.kind == kind);
  }

  lemma BucketCons(t: Transaction, ts: seq<Transaction>, key: Transaction -> int, k: int)
    ensures Bucket([t] + ts, key, k) == (if key(t) == k then [t] else []) + Bucket(ts, key, k)
  {
    FilterCons(t, ts, (t: Transaction) => key(t) == k);
  }

  /** Income and expense split every list: their totals add up to the list's total. */
  lemma {:induction false} KindsPartition(ts: seq<Transaction>)
    ensures SumAmounts(OfKind(ts, INCOME)) + SumAmounts(OfKind(ts, EXPENSE)) == SumAmounts(ts)
  {
    if |ts| > 0 {
      var t, rest := ts[0], ts[1..];
      assert ts == [t] + rest;
      KindsPartition(rest);
      OfKindCons(t, rest, INCOME);
      OfKindCons(t, rest, EXPENSE);
      SumAmountsCons(t, rest);
      if t.kind == INCOME {
        SumAmountsCons(t, OfKind(rest, INCOME));
        assert OfKind(ts, EXPENSE) == OfKind(rest, EXPENSE);
      } else {
        SumAmountsCons(t, OfKind(rest, EXPENSE));
        assert OfKind(ts, INCOME) == OfKind(rest, INCOME);
      }
    }
  }

  lemma {:induction false} BucketsTotalEmpty(key: Transaction -> int, keys: seq<int>)
    ensures BucketsTotal([], key, keys) == 0
  {
    if |keys| > 0 {
      BucketsTotalEmpty(key, keys[1..]);
    }
  }

  /** Adding one transaction in front adds its amount to the bucket total exactly when its key has a bucket. */
  lemma {:induction false} BucketsTotalCons(t: Transaction, ts: seq<Transaction>, key: Transaction -> int, keys: seq<int>)
    requires NoDuplicates(keys)
    ensures BucketsTotal([t] + ts, key, keys) == (if key(t) in keys then t.amount else 0) + BucketsTotal(ts, key, keys)
  {
    if |keys| > 0 {
      var k, ks := keys[0], keys[1..];
      assert NoDuplicates(ks) by {
        forall i, j | 0 <= i < j < |ks| ensures ks[i] != ks[j] {
          assert ks[i] == keys[i + 1] && ks[j] == keys[j + 1];
        }
      }
      BucketsTotalCons(t, ts, key, ks);
      BucketCons(t, ts, key, k);
      assert BucketsTotal([t] + ts, key, keys) == SumAmounts(Bucket([t] + ts, key, k)) + BucketsTotal([t] + ts, key, ks);
      assert BucketsTotal(ts, key, keys) == SumAmounts(Bucket(ts, key, k)) + BucketsTotal(ts, key, ks);
      if key(t) != k {
        assert Bucket([t] + ts, key, k) == Bucket(ts, key, k);
      }
      if key(t) == k {
        SumAmountsCons(t, Bucket(ts, key, k));
        assert key(t) !in ks by {
          forall i | 0 <= i < |ks| ensures ks[i] != k {
            assert ks[i] == keys[i + 1];
          }
        }
      }
      assert key(t) in keys <==> key(t) == k || key(t) in ks by {
        assert keys == [k] + ks;
      }
    }
  }

  /**
   * Buckets with distinct keys that cover every transaction partition the
   * list: the bucket sums add up to the list's total.
   */
  lemma {:induction false} BucketsPartition(ts: seq<Transaction>, key: Transaction -> int, keys: seq<int>)
    requires NoDuplicates(keys)
    requires forall t :: t in ts ==> key(t) in keys
    ensures BucketsTotal(ts, key, keys) == SumAmounts(ts)
  {
    if |ts| == 0 {
      BucketsTotalEmpty(key, keys);
    } else {
      var t, rest := ts[0], ts[1..];
      assert ts == [t] + rest;
      BucketsPartition(rest, key, keys);
      BucketsTotalCons(t, rest, key, keys);
      SumAmountsCons(t, rest);
    }
  }

  /** Restricting a bucket to one kind is the same as taking the bucket of that kind's transactions. */
  lemma BucketOfKind(ts: seq<Transaction>, key: Transaction -> int, k: int, kind: TransactionType)
    ensures OfKind(Bucket(ts, key, k), kind) == Bucket(OfKind(ts, kind), key, k)
  {
    FilterCommute(ts, (t: Transaction) => key(t) == k, (t: Transaction) => t.kind == kind);
  }
}
