/**
 * Sequence operations the components borrow from JavaScript arrays and from the hosted
 * store's query language: `filter`, the insertion-ordered de-duplication of `[...new Set(xs)]`,
 * `find`, and an ordering (`sort` with a comparator, `order(...)` on a query) by a key in
 * which an unknown key sorts after every known one.
 */
module Seqs {
  import opened Wrappers

  /** `s.filter(p)`: the elements satisfying `p`, in their original order. */
  function Filter<T>(s: seq<T>, p: T -> bool): (r: seq<T>)
    ensures |r| <= |s|
    ensures forall i :: 0 <= i < |r| ==> r[i] in s && p(r[i])
    ensures forall i :: 0 <= i < |s| && p(s[i]) ==> s[i] in r
  {
    if s == [] then [] else (if p(s[0]) then [s[0]] else []) + Filter(s[1..], p)
  }

  /** Filtering distributes over concatenation: the kept elements keep their relative order. */
  lemma {:induction false} FilterAppend<T>(a: seq<T>, b: seq<T>, p: T -> bool)
    ensures Filter(a + b, p) == Filter(a, p) + Filter(b, p)
  {
    if a == [] {
      assert a + b == b;
    } else {
      assert (a + b)[0] == a[0] && (a + b)[1..] == a[1..] + b;
      FilterAppend(a[1..], b, p);
    }
  }

  /** A filter that every element passes keeps the sequence as it is. */
  lemma {:induction false} FilterKeepsAll<T>(s: seq<T>, p: T -> bool)
    requires forall i :: 0 <= i < |s| ==> p(s[i])
    ensures Filter(s, p) == s
  {
    if s != [] {
      FilterKeepsAll(s[1..], p);
    }
  }

  /** Filtering only drops elements: no element is kept more often than it occurs. */
  lemma {:induction false} FilterSubMultiset<T>(s: seq<T>, p: T -> bool)
    ensures multiset(Filter(s, p)) <= multiset(s)
  {
    FilterCounts(s, p);
  }

  /** Filtering keeps every copy of an element that passes and no copy of one that does not. */
  lemma {:induction false} FilterCounts<T>(s: seq<T>, p: T -> bool)
    ensures forall x :: multiset(Filter(s, p))[x] == if p(x) then multiset(s)[x] else 0
  {
    if s != [] {
      FilterCounts(s[1..], p);
      assert s == [s[0]] + s[1..];
    }
  }

  /** A filter no element passes keeps nothing. */
  lemma FilterDropsAll<T>(s: seq<T>, p: T -> bool)
    requires forall i :: 0 <= i < |s| ==> !p(s[i])
    ensures Filter(s, p) == []
  {
  }

  predicate NoDup<T(==)>(s: seq<T>) {
    forall i, j :: 0 <= i < j < |s| ==> s[i] != s[j]
  }

  /** Filtering a duplicate-free sequence leaves it duplicate-free. */
  lemma {:induction false} FilterNoDup<T>(s: seq<T>, p: T -> bool)
    requires NoDup(s)
    ensures NoDup(Filter(s, p))
  {
    if s != [] {
      var tail := s[1..];
      assert NoDup(tail) by {
        forall i, j | 0 <= i < j < |tail| ensures tail[i] != tail[j] {
          assert tail[i] == s[i + 1] && tail[j] == s[j + 1];
        }
      }
      FilterNoDup(tail, p);
      var rest := Filter(tail, p);
      assert s[0] !in tail by {
        forall i | 0 <= i < |tail| ensures tail[i] != s[0] {
          assert tail[i] == s[i + 1];
        }
      }
      assert forall i :: 0 <= i < |rest| ==> rest[i] in tail;
    }
  }

  /** In a duplicate-free sequence an element that occurs occurs exactly once. */
  lemma {:induction false} NoDupOccursOnce<T>(s: seq<T>, x: T)
    requires NoDup(s) && x in s
    ensures multiset(s)[x] == 1
  {
    var tail := s[1..];
    assert s == [s[0]] + tail;
    assert NoDup(tail) by {
      forall i, j | 0 <= i < j < |tail| ensures tail[i] != tail[j] {
        assert tail[i] == s[i + 1] && tail[j] == s[j + 1];
      }
    }
    if s[0] == x {
      assert x !in tail by {
        forall i | 0 <= i < |tail| ensures tail[i] != x {
          assert tail[i] == s[i + 1];
        }
      }
    } else {
      NoDupOccursOnce(tail, x);
    }
  }

  /** `[...new Set(s)]`: each distinct element once, at the place of its first occurrence. */
  function Dedup<T(==)>(s: seq<T>): (r: seq<T>)
    ensures NoDup(r)
    ensures forall i :: 0 <= i < |r| ==> r[i] in s
    ensures forall i :: 0 <= i < |s| ==> s[i] in r
    ensures |r| <= |s|
  {
    if s == [] then []
    else
      var d := Dedup(s[..|s| - 1]);
      assert forall i :: 0 <= i < |s| - 1 ==> s[i] == s[..|s| - 1][i];
      if s[|s| - 1] in d then d else d + [s[|s| - 1]]
  }

  /** `s.find(p)`: the first element satisfying `p`, if any. */
  function Find<T>(s: seq<T>, p: T -> bool): (r: Option<T>)
    ensures r.Some? ==> r.value in s && p(r.value)
    ensures r.None? <==> forall i :: 0 <= i < |s| ==> !p(s[i])
  {
    if s == [] then None else if p(s[0]) then Some(s[0]) else Find(s[1..], p)
  }

  /** `Find` returns the element at the first index that satisfies `p`. */
  lemma {:induction false} FindIsFirst<T>(s: seq<T>, p: T -> bool, k: int)
    requires 0 <= k < |s| && p(s[k])
    requires forall i :: 0 <= i < k ==> !p(s[i])
    ensures Find(s, p) == Some(s[k])
  {
    if k > 0 {
      FindIsFirst(s[1..], p, k - 1);
    }
  }

  /** A sort key: a known integer, or unknown, which orders after every known key. */
  datatype Rank = Known(key: int) | Unknown

  predicate RankLe(a: Rank, b: Rank) {
    b.Unknown? || (a.Known? && a.key <= b.key)
  }

  predicate SortedBy<T>(s: seq<T>, rank: T -> Rank) {
    forall i, j :: 0 <= i < j < |s| ==> RankLe(rank(s[i]), rank(s[j]))
  }

  /** The index of the first element of `s` that `x` does not rank after, or `|s|`. */
  function InsertionPoint<T>(x: T, s: seq<T>, rank: T -> Rank): (i: nat)
    ensures i <= |s|
    ensures forall k :: 0 <= k < i ==> !RankLe(rank(x), rank(s[k]))
    ensures i < |s| ==> RankLe(rank(x), rank(s[i]))
  {
    if s == [] || RankLe(rank(x), rank(s[0])) then 0 else 1 + InsertionPoint(x, s[1..], rank)
  }

  /** Inserts `x` before the first element it does not rank after; `x` goes ahead of the elements it ties with. */
  function Insert<T>(x: T, s: seq<T>, rank: T -> Rank): (r: seq<T>)
    requires SortedBy(s, rank)
    ensures SortedBy(r, rank)
    ensures multiset(r) == multiset(s) + multiset{x}
  {
    var i := InsertionPoint(x, s, rank);
    SplitCounts(s, i, x);
    s[..i] + [x] + s[i..]
  }

  /** Putting `x` at any cut of `s` adds exactly one `x` to its elements. */
  lemma SplitCounts<T>(s: seq<T>, i: nat, x: T)
    requires i <= |s|
    ensures multiset(s[..i] + [x] + s[i..]) == multiset(s) + multiset{x}
  {
    assert s == s[..i] + s[i..];
  }

  /**
   * Stable insertion sort by `rank`: the result is ordered by rank, unknown ranks last,
   * and is a permutation of the input.
   */
  function SortBy<T>(s: seq<T>, rank: T -> Rank): (r: seq<T>)
    ensures SortedBy(r, rank)
    ensures multiset(r) == multiset(s)
  {
    if s == [] then []
    else
      assert s == [s[0]] + s[1..];
      Insert(s[0], SortBy(s[1..], rank), rank)
  }

  /** When every element has the same rank the sort leaves the order untouched. */
  lemma {:induction false} SortByTiedIsIdentity<T>(s: seq<T>, rank: T -> Rank)
    requires forall i :: 0 <= i < |s| ==> rank(s[i]) == rank(s[0])
    ensures SortBy(s, rank) == s
  {
    if s != [] {
      var tail := s[1..];
      assert forall i :: 0 <= i < |tail| ==> rank(tail[i]) == rank(tail[0]) by {
        forall i | 0 <= i < |tail| ensures rank(tail[i]) == rank(tail[0]) {
          assert tail[i] == s[i + 1] && tail[0] == s[1];
        }
      }
      SortByTiedIsIdentity(tail, rank);
      assert SortBy(s, rank) == Insert(s[0], tail, rank);
      if tail != [] {
        assert rank(tail[0]) == rank(s[0]);
      }
      InsertAtFront(s[0], tail, rank);
      assert s == [s[0]] + tail;
    }
  }

  /** An element that ranks no later than the head of a sorted list is inserted in front of it. */
  lemma InsertAtFront<T>(x: T, s: seq<T>, rank: T -> Rank)
    requires SortedBy(s, rank)
    requires s == [] || RankLe(rank(x), rank(s[0]))
    ensures Insert(x, s, rank) == [x] + s
  {
    assert InsertionPoint(x, s, rank) == 0;
    assert s[..0] == [] && s[0..] == s;
  }
}
