/** `Array.prototype.reduce` as a sum and `Array.prototype.filter`, both defined from the end
    of the sequence so that appending one element unfolds them by one step. */
module Folds {

  /** `s.reduce((sum, x) => sum + w(x), 0)` over money amounts. */
  function Sum<T>(s: seq<T>, w: T -> real): real {
    if s == [] then 0.0 else Sum(s[..|s| - 1], w) + w(s[|s| - 1])
  }

  /** The same reduce over counts and quantities. */
  function SumInt<T>(s: seq<T>, w: T -> int): int {
    if s == [] then 0 else SumInt(s[..|s| - 1], w) + w(s[|s| - 1])
  }

  /** `s.filter(p)`: the elements satisfying `p`, in their original order. */
  function Filter<T(!new)>(s: seq<T>, p: T -> bool): (r: seq<T>)
    ensures |r| <= |s|
    ensures forall x :: x in r <==> x in s && p(x)
  {
    if s == [] then []
    else
      var r := Filter(s[..|s| - 1], p);
      assert s == s[..|s| - 1] + [s[|s| - 1]];
      if p(s[|s| - 1]) then r + [s[|s| - 1]] else r
  }

  /** Weights of at least one each add up to at least the number of elements. */
  lemma {:induction false} SumIntAtLeastCount<T>(s: seq<T>, w: T -> int)
    ensures (forall k :: 0 <= k < |s| ==> w(s[k]) >= 1) ==> SumInt(s, w) >= |s|
  {
    if s != [] && forall k :: 0 <= k < |s| ==> w(s[k]) >= 1 {
      var front := s[..|s| - 1];
      assert forall k :: 0 <= k < |front| ==> front[k] == s[k];
      SumIntAtLeastCount(front, w);
    }
  }

  /** Amounts that are never negative add up to an amount that is not negative. */
  lemma {:induction false} SumNonNegative<T>(s: seq<T>, w: T -> real)
    ensures (forall k :: 0 <= k < |s| ==> w(s[k]) >= 0.0) ==> Sum(s, w) >= 0.0
  {
    if s != [] && forall k :: 0 <= k < |s| ==> w(s[k]) >= 0.0 {
      var front := s[..|s| - 1];
      assert forall k :: 0 <= k < |front| ==> front[k] == s[k];
      SumNonNegative(front, w);
    }
  }

  lemma {:induction false} SumConcat<T>(a: seq<T>, b: seq<T>, w: T -> real)
    ensures Sum(a + b, w) == Sum(a, w) + Sum(b, w)
    decreases |b|
  {
    if b != [] {
      assert (a + b)[..|a + b| - 1] == a + b[..|b| - 1];
      SumConcat(a, b[..|b| - 1], w);
    } else {
      assert a + b == a;
    }
  }

  lemma {:induction false} SumIntConcat<T>(a: seq<T>, b: seq<T>, w: T -> int)
    ensures SumInt(a + b, w) == SumInt(a, w) + SumInt(b, w)
    decreases |b|
  {
    if b != [] {
      assert (a + b)[..|a + b| - 1] == a + b[..|b| - 1];
      SumIntConcat(a, b[..|b| - 1], w);
    } else {
      assert a + b == a;
    }
  }

  /** `s.flatMap(x => f(c, x))`, with a context `c` handed to every call. */
  function FlatMap<C, T, U>(c: C, s: seq<T>, f: (C, T) -> seq<U>): seq<U> {
    if s == [] then [] else FlatMap(c, s[..|s| - 1], f) + f(c, s[|s| - 1])
  }

  lemma FlatMapSnoc<C, T, U>(c: C, s: seq<T>, x: T, f: (C, T) -> seq<U>)
    ensures FlatMap(c, s + [x], f) == FlatMap(c, s, f) + f(c, x)
  {
    assert (s + [x])[..|s|] == s;
  }

  /** Flat-mapping two runs is flat-mapping each and concatenating the results. */
  lemma {:induction false} FlatMapConcat<C, T, U>(c: C, a: seq<T>, b: seq<T>, f: (C, T) -> seq<U>)
    ensures FlatMap(c, a + b, f) == FlatMap(c, a, f) + FlatMap(c, b, f)
    decreases |b|
  {
    if b == [] {
      assert a + b == a;
    } else {
      var front, last := b[..|b| - 1], b[|b| - 1];
      assert (a + b)[..|a + b| - 1] == a + front;
      assert (a + b)[|a + b| - 1] == last;
      FlatMapConcat(c, a, front, f);
      var x, y, z := FlatMap(c, a, f), FlatMap(c, front, f), f(c, last);
      assert FlatMap(c, a + b, f) == (x + y) + z;
      assert FlatMap(c, b, f) == y + z;
      assert (x + y) + z == x + (y + z);
    }
  }

  /** Replacing one term of a sum changes the sum by the difference of the two terms. */
  lemma {:induction false} SumReplaceOne<T>(a: seq<T>, b: seq<T>, k: int, w: T -> real)
    requires |a| == |b| && 0 <= k < |a|
    requires forall i :: 0 <= i < |a| && i != k ==> a[i] == b[i]
    ensures Sum(b, w) == Sum(a, w) - w(a[k]) + w(b[k])
    decreases |a|
  {
    var n := |a|;
    if k == n - 1 {
      assert a[..n - 1] == b[..n - 1];
    } else {
      SumReplaceOne(a[..n - 1], b[..n - 1], k, w);
    }
  }

  lemma {:induction false} SumIntReplaceOne<T>(a: seq<T>, b: seq<T>, k: int, w: T -> int)
    requires |a| == |b| && 0 <= k < |a|
    requires forall i :: 0 <= i < |a| && i != k ==> a[i] == b[i]
    ensures SumInt(b, w) == SumInt(a, w) - w(a[k]) + w(b[k])
    decreases |a|
  {
    var n := |a|;
    if k == n - 1 {
      assert a[..n - 1] == b[..n - 1];
    } else {
      SumIntReplaceOne(a[..n - 1], b[..n - 1], k, w);
    }
  }

  /** A sum does not depend on the order of its terms. */
  lemma {:induction false} SumPermutation<T>(a: seq<T>, b: seq<T>, w: T -> real)
    requires multiset(a) == multiset(b)
    ensures Sum(a, w) == Sum(b, w)
    decreases |a|
  {
    if a == [] {
      assert |b| == |multiset(b)| == 0;
    } else {
      var x := a[|a| - 1];
      assert x in multiset(b);
      var i :| 0 <= i < |b| && b[i] == x;
      assert b == b[..i] + [x] + b[i + 1..];
      var rest := b[..i] + b[i + 1..];
      assert a == a[..|a| - 1] + [x];
      assert multiset(b) == multiset(b[..i]) + multiset{x} + multiset(b[i + 1..]);
      assert multiset(a) == multiset(a[..|a| - 1]) + multiset{x};
      assert multiset(rest) == multiset(b[..i]) + multiset(b[i + 1..]);
      assert multiset(a[..|a| - 1]) == multiset(a) - multiset{x};
      assert multiset(rest) == multiset(b) - multiset{x};
      SumPermutation(a[..|a| - 1], rest, w);
      SumConcat(b[..i] + [x], b[i + 1..], w);
      SumConcat(b[..i], [x], w);
      SumConcat(b[..i], b[i + 1..], w);
    }
  }

  lemma {:induction false} SumIntPermutation<T>(a: seq<T>, b: seq<T>, w: T -> int)
    requires multiset(a) == multiset(b)
    ensures SumInt(a, w) == SumInt(b, w)
    decreases |a|
  {
    if a == [] {
      assert |b| == |multiset(b)| == 0;
    } else {
      var x := a[|a| - 1];
      assert x in multiset(b);
      var i :| 0 <= i < |b| && b[i] == x;
      assert b == b[..i] + [x] + b[i + 1..];
      var rest := b[..i] + b[i + 1..];
      assert a == a[..|a| - 1] + [x];
      assert multiset(b) == multiset(b[..i]) + multiset{x} + multiset(b[i + 1..]);
      assert multiset(a) == multiset(a[..|a| - 1]) + multiset{x};
      assert multiset(rest) == multiset(b[..i]) + multiset(b[i + 1..]);
      assert multiset(a[..|a| - 1]) == multiset(a) - multiset{x};
      assert multiset(rest) == multiset(b) - multiset{x};
      SumIntPermutation(a[..|a| - 1], rest, w);
      SumIntConcat(b[..i] + [x], b[i + 1..], w);
      SumIntConcat(b[..i], [x], w);
      SumIntConcat(b[..i], b[i + 1..], w);
    }
  }

  lemma {:induction false} FilterConcat<T(!new)>(a: seq<T>, b: seq<T>, p: T -> bool)
    ensures Filter(a + b, p) == Filter(a, p) + Filter(b, p)
    decreases |b|
  {
    if b != [] {
      var front, last := b[..|b| - 1], b[|b| - 1];
      assert (a + b)[..|a + b| - 1] == a + front;
      assert (a + b)[|a + b| - 1] == last;
      FilterConcat(a, front, p);
      var x, y, z := Filter(a, p), Filter(front, p), if p(last) then [last] else [];
      assert Filter(a + b, p) == (x + y) + z;
      assert Filter(b, p) == y + z;
      assert (x + y) + z == x + (y + z);
    } else {
      assert a + b == a;
    }
  }

  /** Filtering by a predicate every element satisfies changes nothing. */
  lemma {:induction false} FilterAll<T(!new)>(s: seq<T>, p: T -> bool)
    requires forall x :: x in s ==> p(x)
    ensures Filter(s, p) == s
    decreases |s|
  {
    if s != [] {
      var front, last := s[..|s| - 1], s[|s| - 1];
      forall x | x in front ensures p(x) {
        var i :| 0 <= i < |front| && front[i] == x;
        assert s[i] == x;
      }
      FilterAll(front, p);
      assert Filter(s, p) == Filter(front, p) + [last];
      assert s == front + [last];
    }
  }


  /** Filtering keeps every copy of an element that satisfies the predicate and no other. */
  lemma {:induction false} FilterCount<T(!new)>(s: seq<T>, p: T -> bool, x: T)
    ensures multiset(Filter(s, p))[x] == if p(x) then multiset(s)[x] else 0
    decreases |s|
  {
    if s != [] {
      var front, last := s[..|s| - 1], s[|s| - 1];
      FilterCount(front, p, x);
      assert s == front + [last];
      assert multiset(s) == multiset(front) + multiset{last};
    }
  }

  /** Filtering two orderings of the same elements gives two orderings of the same result. */
  lemma FilterPermutation<T(!new)>(a: seq<T>, b: seq<T>, p: T -> bool)
    requires multiset(a) == multiset(b)
    ensures multiset(Filter(a, p)) == multiset(Filter(b, p))
  {
    forall x ensures multiset(Filter(a, p))[x] == multiset(Filter(b, p))[x] {
      FilterCount(a, p, x);
      FilterCount(b, p, x);
    }
  }

  /** Two predicates that agree on every element filter a sequence alike. */
  lemma {:induction false} SameFilter<T(!new)>(s: seq<T>, p: T -> bool, q: T -> bool)
    requires forall x :: x in s ==> p(x) == q(x)
    ensures Filter(s, p) == Filter(s, q)
    decreases |s|
  {
    if s != [] {
      SameFilter(s[..|s| - 1], p, q);
    }
  }

  /** `s.map(f)` */
  function Map<T, U>(s: seq<T>, f: T -> U): (r: seq<U>)
    ensures |r| == |s|
    ensures forall i :: 0 <= i < |s| ==> r[i] == f(s[i])
  {
    seq(|s|, i requires 0 <= i < |s| => f(s[i]))
  }

  /** `[...new Set(s)]`: the elements of `s`, each once, in the order they first appear. */
  function Distinct<T(==,!new)>(s: seq<T>): (r: seq<T>)
    ensures forall i, j :: 0 <= i < j < |r| ==> r[i] != r[j]
    ensures forall x :: x in r <==> x in s
  {
    if s == [] then []
    else
      var front, last := s[..|s| - 1], s[|s| - 1];
      var r := Distinct(front);
      assert s == front + [last];
      if last in r then r else r + [last]
  }

  /** Each element of `s` keeps the place of its first occurrence. */
  lemma {:induction false} DistinctFirstOccurrence<T(!new)>(s: seq<T>, i: int, j: int)
    requires 0 <= i < j < |s| && s[i] != s[j]
    requires forall k :: 0 <= k < i ==> s[k] != s[i]
    requires forall k :: 0 <= k < j ==> s[k] != s[j]
    ensures exists a, b :: 0 <= a < b < |Distinct(s)| && Distinct(s)[a] == s[i] && Distinct(s)[b] == s[j]
    decreases |s|
  {
    var front := s[..|s| - 1];
    if j < |s| - 1 {
      DistinctFirstOccurrence(front, i, j);
      var a, b :| 0 <= a < b < |Distinct(front)| && Distinct(front)[a] == front[i] && Distinct(front)[b] == front[j];
      assert Distinct(s)[..|Distinct(front)|] == Distinct(front);
      assert Distinct(s)[a] == s[i] && Distinct(s)[b] == s[j];
    } else {
      assert s[j] !in front;
      assert s[i] in Distinct(front) by { assert front[i] == s[i]; }
      var a :| 0 <= a < |Distinct(front)| && Distinct(front)[a] == s[i];
      assert Distinct(s) == Distinct(front) + [s[j]];
      assert Distinct(s)[|Distinct(front)|] == s[j];
    }
  }

  /** An element that satisfies the predicate lands in the filtered sequence right after what
      the filter keeps of the elements before it. */
  lemma {:induction false} FilterPosition<T(!new)>(s: seq<T>, p: T -> bool, i: int) returns (q: int)
    requires 0 <= i < |s| && p(s[i])
    ensures 0 <= q < |Filter(s, p)| && Filter(s, p)[q] == s[i]
    ensures Filter(s[..i], p) == Filter(s, p)[..q]
    decreases |s|
  {
    var front := s[..|s| - 1];
    if i == |s| - 1 {
      assert s[..i] == front;
      q := |Filter(front, p)|;
    } else {
      q := FilterPosition(front, p, i);
      assert s[..i] == front[..i];
      assert Filter(s, p)[..|Filter(front, p)|] == Filter(front, p);
    }
  }

  /** Two kept elements appear in the filtered sequence in the order they had before. */
  lemma FilterKeepsOrder<T(!new)>(s: seq<T>, p: T -> bool, i: int, j: int) returns (qi: int, qj: int)
    requires 0 <= i < j < |s| && p(s[i]) && p(s[j])
    ensures 0 <= qi < qj < |Filter(s, p)|
    ensures Filter(s, p)[qi] == s[i] && Filter(s, p)[qj] == s[j]
  {
    qi := FilterPosition(s, p, i);
    qj := FilterPosition(s, p, j);
    var q := FilterPosition(s[..j], p, i);
    assert s[..j][..i] == s[..i];
  }

  /** Filtering and then removing repeats keeps the elements in the order of their first
      occurrence. */
  lemma FilteredDistinctOrder<T(!new)>(s: seq<T>, p: T -> bool, i: int, j: int)
    requires 0 <= i < j < |s| && p(s[i]) && p(s[j]) && s[i] != s[j]
    requires forall k :: 0 <= k < i ==> s[k] != s[i]
    requires forall k :: 0 <= k < j ==> s[k] != s[j]
    ensures exists a, b ::
      && 0 <= a < b < |Distinct(Filter(s, p))|
      && Distinct(Filter(s, p))[a] == s[i]
      && Distinct(Filter(s, p))[b] == s[j]
  {
    var f := Filter(s, p);
    var qi := FilterPosition(s, p, i);
    var qj := FilterPosition(s, p, j);
    assert forall k :: 0 <= k < qi ==> f[k] != f[qi] by {
      forall k | 0 <= k < qi ensures f[k] != f[qi] {
        assert f[k] in Filter(s[..i], p);
      }
    }
    assert forall k :: 0 <= k < qj ==> f[k] != f[qj] by {
      forall k | 0 <= k < qj ensures f[k] != f[qj] {
        assert f[k] in Filter(s[..j], p);
      }
    }
    assert qi < qj by {
      assert s[i] in Filter(s[..j], p) by {
        assert s[..j][i] == s[i];
      }
    }
    DistinctFirstOccurrence(f, qi, qj);
  }
}
