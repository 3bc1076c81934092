/**
 * The popularity ranking behind `get_top_skus` (app/tasks/jobs.py):
 * `sorted(items, key=count, reverse=True)[:limit]`. Python's sort is stable,
 * also with `reverse=True`, so SKUs with equal counts keep the order in which
 * they were first tracked.
 */
module Ranking {

  /** One `(sku, count)` item of the request statistics. */
  datatype SkuCount = SkuCount(sku: string, count: int)

  predicate NonIncreasing(s: seq<SkuCount>) {
    forall i, j :: 0 <= i < j < |s| ==> s[i].count >= s[j].count
  }

  predicate NoDuplicates<T(==)>(s: seq<T>) {
    forall i, j :: 0 <= i < j < |s| ==> s[i] != s[j]
  }

  /** The items with count `c`, in sequence order. */
  function WithCount(s: seq<SkuCount>, c: int): (r: seq<SkuCount>)
    ensures |r| <= |s|
  {
    if s == [] then []
    else (if s[0].count == c then [s[0]] else []) + WithCount(s[1..], c)
  }

  lemma {:induction false} WithCountAppend(a: seq<SkuCount>, b: seq<SkuCount>, c: int)
    ensures WithCount(a + b, c) == WithCount(a, c) + WithCount(b, c)
  {
    if a != [] {
      assert (a + b)[1..] == a[1..] + b;
      WithCountAppend(a[1..], b, c);
    } else {
      assert a + b == b;
    }
  }

  /**
   * Places `e` in a non-increasing sequence before the first item with a
   * smaller-or-equal count, i.e. ahead of its ties.
   */
  function InsertByCount(e: SkuCount, sorted: seq<SkuCount>): (r: seq<SkuCount>)
    ensures multiset(r) == multiset(sorted) + multiset{e}
    ensures |r| == |sorted| + 1
  {
    if sorted == [] || e.count >= sorted[0].count then [e] + sorted
    else
      assert sorted == [sorted[0]] + sorted[1..];
      [sorted[0]] + InsertByCount(e, sorted[1..])
  }

  lemma {:induction false} InsertKeepsOrder(e: SkuCount, sorted: seq<SkuCount>)
    requires NonIncreasing(sorted)
    ensures NonIncreasing(InsertByCount(e, sorted))
  {
    if sorted != [] && e.count < sorted[0].count {
      var rest := InsertByCount(e, sorted[1..]);
      InsertKeepsOrder(e, sorted[1..]);
      var r := [sorted[0]] + rest;
      assert sorted == [sorted[0]] + sorted[1..];
      forall j | 0 < j < |r| ensures r[0].count >= r[j].count {
        assert r[j] == rest[j - 1];
        assert r[j] in multiset(rest);
        assert r[j] == e || r[j] in multiset(sorted[1..]);
      }
    }
  }

  /** Inserting `e` puts it at the head of its ties: the items of each count keep their order. */
  lemma {:induction false} InsertAheadOfTies(e: SkuCount, sorted: seq<SkuCount>, c: int)
    requires NonIncreasing(sorted)
    ensures WithCount(InsertByCount(e, sorted), c) == (if e.count == c then [e] else []) + WithCount(sorted, c)
  {
    if sorted == [] || e.count >= sorted[0].count {
      assert ([e] + sorted)[1..] == sorted;
    } else {
      var head, tail := sorted[0], sorted[1..];
      assert NonIncreasing(tail) by {
        forall i, j | 0 <= i < j < |tail| ensures tail[i].count >= tail[j].count {
          assert tail[i] == sorted[i + 1] && tail[j] == sorted[j + 1];
        }
      }
      var rest := InsertByCount(e, tail);
      InsertAheadOfTies(e, tail, c);
      var h := if head.count == c then [head] else [];
      assert ([head] + rest)[1..] == rest;
      assert WithCount([head] + rest, c) == h + WithCount(rest, c);
      assert WithCount(sorted, c) == h + WithCount(tail, c);
      if e.count == c {
        assert h == [];
      }
    }
  }

  lemma {:induction false} InsertNoDuplicates(e: SkuCount, sorted: seq<SkuCount>)
    requires NoDuplicates(sorted) && e !in sorted
    ensures NoDuplicates(InsertByCount(e, sorted))
  {
    if sorted != [] && e.count < sorted[0].count {
      var rest := InsertByCount(e, sorted[1..]);
      InsertNoDuplicates(e, sorted[1..]);
      var r := [sorted[0]] + rest;
      assert sorted[0] !in sorted[1..];
      forall i, j | 0 <= i < j < |r| ensures r[i] != r[j] {
        if i == 0 {
          assert r[j] == rest[j - 1];
          assert r[j] in multiset(rest);
          assert r[j] == e || r[j] in multiset(sorted[1..]);
        } else {
          assert r[i] == rest[i - 1] && r[j] == rest[j - 1];
        }
      }
    }
  }

  /** `sorted(items, key=lambda x: x[1], reverse=True)`: a stable sort by descending count. */
  function SortByCount(entries: seq<SkuCount>): (r: seq<SkuCount>)
    ensures multiset(r) == multiset(entries)
    ensures |r| == |entries|
  {
    if entries == [] then []
    else
      assert entries == [entries[0]] + entries[1..];
      InsertByCount(entries[0], SortByCount(entries[1..]))
  }

  lemma {:induction false} SortIsOrdered(entries: seq<SkuCount>)
    ensures NonIncreasing(SortByCount(entries))
  {
    if entries != [] {
      SortIsOrdered(entries[1..]);
      InsertKeepsOrder(entries[0], SortByCount(entries[1..]));
    }
  }

  /** Stability: the items of each count appear in the ranking in their original order. */
  lemma {:induction false} SortIsStable(entries: seq<SkuCount>, c: int)
    ensures WithCount(SortByCount(entries), c) == WithCount(entries, c)
  {
    if entries != [] {
      SortIsStable(entries[1..], c);
      SortIsOrdered(entries[1..]);
      InsertAheadOfTies(entries[0], SortByCount(entries[1..]), c);
    }
  }

  lemma {:induction false} SortNoDuplicates(entries: seq<SkuCount>)
    ensures NoDuplicates(entries) ==> NoDuplicates(SortByCount(entries))
  {
    if entries != [] && NoDuplicates(entries) {
      var rest := SortByCount(entries[1..]);
      SortNoDuplicates(entries[1..]);
      assert forall j :: 0 <= j < |entries[1..]| ==> entries[1..][j] == entries[j + 1];
      assert entries[0] !in entries[1..];
      assert entries[0] !in multiset(rest);
      InsertNoDuplicates(entries[0], rest);
    }
  }

  /** Length of Python's `s[:limit]`; a negative limit drops that many items from the end. */
  function SliceLength(n: nat, limit: int): (k: nat)
    ensures k <= n
    ensures limit >= 0 ==> k <= limit
    ensures 0 <= limit <= n ==> k == limit
    ensures limit >= n ==> k == n
    ensures limit < 0 ==> k + (if -limit < n then -limit else n) == n
  {
    if limit >= 0 then (if limit < n then limit else n)
    else if n + limit > 0 then n + limit else 0
  }

  /**
   * `sorted(...)[:limit]`: the first items of the ranking. They are in
   * non-increasing count order, no item left out has a higher count than an
   * item kept, and among items with equal count the ones kept are the
   * earliest, in their original order.
   */
  function TopEntries(entries: seq<SkuCount>, limit: int): (r: seq<SkuCount>)
    ensures |r| == SliceLength(|entries|, limit)
    ensures NonIncreasing(r)
    ensures forall x :: x in r ==> x in entries
    ensures NoDuplicates(entries) ==> NoDuplicates(r)
    ensures forall x, y :: x in entries && x !in r && y in r ==> x.count <= y.count
  {
    var sorted := SortByCount(entries);
    SortIsOrdered(entries);
    SortNoDuplicates(entries);
    var n := SliceLength(|entries|, limit);
    PrefixOfRanking(entries, sorted, n);
    sorted[..n]
  }

  /** A prefix of a ranking of `entries` draws from `entries` and outranks what it leaves out. */
  lemma PrefixOfRanking(entries: seq<SkuCount>, sorted: seq<SkuCount>, n: nat)
    requires multiset(sorted) == multiset(entries) && NonIncreasing(sorted) && n <= |sorted|
    ensures forall x :: x in sorted[..n] ==> x in entries
    ensures forall x, y :: x in entries && x !in sorted[..n] && y in sorted[..n] ==> x.count <= y.count
  {
    var r := sorted[..n];
    forall x | x in r ensures x in entries {
      assert x in multiset(sorted);
    }
    forall x, y | x in entries && x !in r && y in r ensures x.count <= y.count {
      assert x in multiset(sorted);
      var j :| 0 <= j < |sorted| && sorted[j] == x;
      var i :| 0 <= i < n && r[i] == y;
      assert j >= n;
    }
  }

  /** Among items of equal count, those kept are the earliest ones, in their original order. */
  lemma TopEntriesKeepEarliestTies(entries: seq<SkuCount>, limit: int, c: int)
    ensures WithCount(TopEntries(entries, limit), c) <= WithCount(entries, c)
  {
    var sorted := SortByCount(entries);
    var n := SliceLength(|entries|, limit);
    assert sorted == sorted[..n] + sorted[n..];
    WithCountAppend(sorted[..n], sorted[n..], c);
    SortIsStable(entries, c);
  }
}
