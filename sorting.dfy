/** `Array.prototype.sort` with a numeric comparator `(a, b) => rank(a) - rank(b)`, which the
    language requires to be stable, and `slice(0, n)`. The sort is a stable insertion sort:
    each element is placed after every element already placed whose rank is not greater. */
module Sorting {

  predicate SortedBy<T>(s: seq<T>, rank: T -> real) {
    forall i, j :: 0 <= i < j < |s| ==> rank(s[i]) <= rank(s[j])
  }

  /** Places `x` after the last element whose rank is not greater than its own. */
  function Insert<T>(s: seq<T>, x: T, rank: T -> real): (r: seq<T>)
    ensures multiset(r) == multiset(s) + multiset{x}
  {
    if s == [] || rank(s[|s| - 1]) <= rank(x) then
      s + [x]
    else
      assert s == s[..|s| - 1] + [s[|s| - 1]];
      Insert(s[..|s| - 1], x, rank) + [s[|s| - 1]]
  }

  lemma {:induction false} InsertSorted<T>(s: seq<T>, x: T, rank: T -> real)
    requires SortedBy(s, rank)
    ensures SortedBy(Insert(s, x, rank), rank)
    decreases |s|
  {
    if s != [] && rank(x) < rank(s[|s| - 1]) {
      var last, front := s[|s| - 1], s[..|s| - 1];
      var r := Insert(front, x, rank);
      InsertSorted(front, x, rank);
      forall i | 0 <= i < |r| ensures rank(r[i]) <= rank(last) {
        assert r[i] in multiset(front) + multiset{x};
        if r[i] != x {
          var k :| 0 <= k < |front| && front[k] == r[i];
          assert s[k] == r[i];
        }
      }
    }
  }

  /** `s.slice().sort((a, b) => rank(a) - rank(b))`: ascending by rank, a permutation of `s`. */
  function SortBy<T>(s: seq<T>, rank: T -> real): (r: seq<T>)
    ensures SortedBy(r, rank)
    ensures multiset(r) == multiset(s)
    ensures |r| == |s|
  {
    if s == [] then []
    else
      assert s == s[..|s| - 1] + [s[|s| - 1]];
      var r := Insert(SortBy(s[..|s| - 1], rank), s[|s| - 1], rank);
      InsertSorted(SortBy(s[..|s| - 1], rank), s[|s| - 1], rank);
      assert |r| == |multiset(r)| == |s|;
      r
  }

  /** The elements of `s` of rank `v`, in their order in `s`. */
  function WithRank<T>(s: seq<T>, rank: T -> real, v: real): seq<T> {
    if s == [] then []
    else WithRank(s[..|s| - 1], rank, v) + (if rank(s[|s| - 1]) == v then [s[|s| - 1]] else [])
  }

  /** Appending one element extends the elements of its rank, and only those. */
  lemma WithRankSnoc<T>(s: seq<T>, y: T, rank: T -> real, v: real)
    ensures WithRank(s + [y], rank, v) == WithRank(s, rank, v) + (if rank(y) == v then [y] else [])
  {
    assert (s + [y])[..|s + [y]| - 1] == s;
  }

  /** Inserting `x` adds it after every element of its own rank, and moves no element past
      another of equal rank. */
  lemma {:induction false} InsertStable<T>(s: seq<T>, x: T, rank: T -> real, v: real)
    ensures WithRank(Insert(s, x, rank), rank, v) == WithRank(s, rank, v) + (if rank(x) == v then [x] else [])
    decreases |s|
  {
    if s == [] || rank(s[|s| - 1]) <= rank(x) {
      assert Insert(s, x, rank) == s + [x];
      WithRankSnoc(s, x, rank, v);
    } else {
      var front, last := s[..|s| - 1], s[|s| - 1];
      assert Insert(s, x, rank) == Insert(front, x, rank) + [last];
      assert s == front + [last];
      InsertStable(front, x, rank, v);
      WithRankSnoc(Insert(front, x, rank), last, rank, v);
      WithRankSnoc(front, last, rank, v);
    }
  }

  /** The sort is stable: the elements of any one rank keep their relative order. */
  lemma {:induction false} SortByStable<T>(s: seq<T>, rank: T -> real, v: real)
    ensures WithRank(SortBy(s, rank), rank, v) == WithRank(s, rank, v)
    decreases |s|
  {
    if s != [] {
      var front, last := s[..|s| - 1], s[|s| - 1];
      SortByStable(front, rank, v);
      InsertStable(SortBy(front, rank), last, rank, v);
    }
  }

  /** `s.slice(0, n)` */
  function Take<T>(s: seq<T>, n: nat): (r: seq<T>)
    ensures |r| == if |s| < n then |s| else n
    ensures r <= s
  {
    if |s| < n then s else s[..n]
  }

  /** The first `n` of a list sorted by rank are drawn from the list, stay in rank order, and
      rank no higher than any element left out. */
  lemma TopByRank<T>(s: seq<T>, rank: T -> real, n: nat)
    ensures var sorted := SortBy(s, rank);
      var top := Take(sorted, n);
      && |top| == (if |s| < n then |s| else n)
      && SortedBy(top, rank)
      && multiset(top) <= multiset(s)
      && forall i, j :: 0 <= i < |top| <= j < |sorted| ==> rank(top[i]) <= rank(sorted[j])
  {
    var sorted := SortBy(s, rank);
    var top := Take(sorted, n);
    assert sorted == top + sorted[|top|..];
    assert multiset(sorted) == multiset(top) + multiset(sorted[|top|..]);
  }

  /** An element of `s` left out of the first `n` ranks no lower than any element kept. */
  lemma LeftOutRanksNoLower<T>(s: seq<T>, rank: T -> real, n: nat, q: T)
    requires q in s && q !in Take(SortBy(s, rank), n)
    ensures forall p :: p in Take(SortBy(s, rank), n) ==> rank(p) <= rank(q)
  {
    var sorted := SortBy(s, rank);
    var top := Take(sorted, n);
    assert top == sorted[..|top|];
    assert q in multiset(sorted) by {
      assert q in multiset(s);
    }
    var j :| 0 <= j < |sorted| && sorted[j] == q;
    assert j >= |top| by {
      assert forall i :: 0 <= i < |top| ==> sorted[i] == top[i] && top[i] in top;
    }
    forall p | p in top ensures rank(p) <= rank(q) {
      var i :| 0 <= i < |top| && top[i] == p;
      assert top[i] == sorted[i] && i < j;
    }
  }

  /** Reordering a list keeps the set of ranks its elements show. */
  lemma PermutedRanks<T>(r: seq<T>, s: seq<T>, rank: T -> real, v: real)
    requires multiset(r) == multiset(s)
    ensures (exists i :: 0 <= i < |r| && rank(r[i]) == v) <==> (exists t :: 0 <= t < |s| && rank(s[t]) == v)
  {
    if exists i :: 0 <= i < |r| && rank(r[i]) == v {
      var i :| 0 <= i < |r| && rank(r[i]) == v;
      assert r[i] in multiset(s);
      var t :| 0 <= t < |s| && s[t] == r[i];
    }
    if exists t :: 0 <= t < |s| && rank(s[t]) == v {
      var t :| 0 <= t < |s| && rank(s[t]) == v;
      assert s[t] in multiset(r);
      var i :| 0 <= i < |r| && r[i] == s[t];
    }
  }

  /** With no two elements of equal rank the sorted list is strictly ascending: there are no
      ties for the stable sort to settle. */
  lemma SortByStrict<T>(s: seq<T>, rank: T -> real)
    requires forall i, j :: 0 <= i < j < |s| ==> rank(s[i]) != rank(s[j])
    ensures var r := SortBy(s, rank);
      forall i, j :: 0 <= i < j < |r| ==> rank(r[i]) < rank(r[j])
  {
    var r := SortBy(s, rank);
    forall i, j | 0 <= i < j < |r| ensures rank(r[i]) < rank(r[j]) {
      AtMostOnce(s, rank, r[i]);
      NotRepeated(r, i, j);
      assert r[i] in multiset(s) && r[j] in multiset(s);
      SameRankSameElement(s, rank, r[i], r[j]);
    }
  }

  lemma SameRankSameElement<T>(s: seq<T>, rank: T -> real, x: T, y: T)
    requires forall i, j :: 0 <= i < j < |s| ==> rank(s[i]) != rank(s[j])
    requires x in s && y in s
    ensures rank(x) == rank(y) ==> x == y
  {
    var a :| 0 <= a < |s| && s[a] == x;
    var b :| 0 <= b < |s| && s[b] == y;
    assert a < b || a == b || b < a;
  }

  /** An element that occurs at most once is not found at two positions. */
  lemma NotRepeated<T>(r: seq<T>, i: int, j: int)
    requires 0 <= i < j < |r| && multiset(r)[r[i]] <= 1
    ensures r[i] != r[j]
  {
    assert r == r[..j] + r[j..];
    assert r[i] in r[..j] && r[j] in r[j..];
    assert multiset(r) == multiset(r[..j]) + multiset(r[j..]);
  }

  lemma {:induction false} AtMostOnce<T>(s: seq<T>, rank: T -> real, x: T)
    requires forall i, j :: 0 <= i < j < |s| ==> rank(s[i]) != rank(s[j])
    ensures multiset(s)[x] <= 1
    decreases |s|
  {
    if s != [] {
      var front := s[..|s| - 1];
      AtMostOnce(front, rank, x);
      assert s == front + [s[|s| - 1]];
      if s[|s| - 1] == x {
        assert x !in front;
      }
    }
  }
}
