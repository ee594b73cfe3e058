/**
 * Sequence helpers shared by the whole model: list comprehensions with a
 * condition, first-match searches, Python's `s[:n]` slice, distinctness of a
 * key and sums of an integer field.
 */
module Seqs {

  /** `[x for x in s if p(x)]`: the elements of `s` that satisfy `p`, in their original order. */
  function Filter<T(!new)>(s: seq<T>, p: T -> bool): (r: seq<T>)
    ensures |r| <= |s|
    ensures forall x :: x in r <==> x in s && p(x)
  {
    if s == [] then []
    else Filter(s[..|s| - 1], p) + (if p(s[|s| - 1]) then [s[|s| - 1]] else [])
  }

  /** Filtering distributes over concatenation, so the result keeps the stored order. */
  lemma {:induction false} FilterConcat<T(!new)>(a: seq<T>, b: seq<T>, p: T -> bool)
    ensures Filter(a + b, p) == Filter(a, p) + Filter(b, p)
    decreases |b|
  {
    if b == [] {
      assert a + b == a;
    } else {
      var n := |b|;
      var last := if p(b[n - 1]) then [b[n - 1]] else [];
      assert (a + b)[..|a + b| - 1] == a + b[..n - 1];
      assert (a + b)[|a + b| - 1] == b[n - 1];
      assert Filter(a + b, p) == Filter(a + b[..n - 1], p) + last;
      FilterConcat(a, b[..n - 1], p);
      assert Filter(b, p) == Filter(b[..n - 1], p) + last;
    }
  }

  /** A filter drops something exactly when some element fails the condition. */
  lemma {:induction false} FilterShorter<T(!new)>(s: seq<T>, p: T -> bool)
    ensures |Filter(s, p)| == |s| <==> forall x :: x in s ==> p(x)
    ensures |Filter(s, p)| < |s| <==> exists x :: x in s && !p(x)
  {
    if s != [] {
      var n := |s|;
      FilterShorter(s[..n - 1], p);
      assert s == s[..n - 1] + [s[n - 1]];
      assert forall x :: x in s <==> x in s[..n - 1] || x == s[n - 1];
    }
  }

  /** The positions of `s` whose element satisfies `p`. */
  ghost function Positions<T>(s: seq<T>, p: T -> bool): set<int> {
    set i | 0 <= i < |s| && p(s[i])
  }

  /** A filter keeps one element per position whose element satisfies the condition. */
  lemma {:induction false} FilterCountsPositions<T(!new)>(s: seq<T>, p: T -> bool)
    ensures |Filter(s, p)| == |Positions(s, p)|
  {
    if s != [] {
      var init := s[..|s| - 1];
      FilterCountsPositions(init, p);
      PositionsSnoc(s, p);
    }
  }

  /** One more element adds its position when it satisfies the condition. */
  lemma PositionsSnoc<T>(s: seq<T>, p: T -> bool)
    requires s != []
    ensures |Positions(s, p)| == |Positions(s[..|s| - 1], p)| + (if p(s[|s| - 1]) then 1 else 0)
  {
    var n := |s|;
    var before, after := Positions(s[..n - 1], p), Positions(s, p);
    assert forall i :: i in before <==> 0 <= i < n - 1 && p(s[i]);
    if p(s[n - 1]) {
      assert after == before + {n - 1};
    } else {
      assert after == before;
    }
  }

  /** A filter whose condition holds everywhere returns its input unchanged. */
  lemma {:induction false} FilterAll<T(!new)>(s: seq<T>, p: T -> bool)
    requires forall x :: x in s ==> p(x)
    ensures Filter(s, p) == s
  {
    if s != [] {
      var init, last := s[..|s| - 1], s[|s| - 1];
      assert s == init + [last];
      assert p(last);
      FilterAll(init, p);
    }
  }

  /** A filter whose condition holds nowhere returns nothing. */
  lemma {:induction false} FilterNone<T(!new)>(s: seq<T>, p: T -> bool)
    requires forall x :: x in s ==> !p(x)
    ensures Filter(s, p) == []
  {
    if s != [] {
      FilterNone(s[..|s| - 1], p);
      assert s[|s| - 1] in s;
    }
  }

  /** Index of the first element satisfying `p`, or `|s|` when there is none (a loop with `break`). */
  function FirstIndex<T(!new)>(s: seq<T>, p: T -> bool): (i: nat)
    ensures i <= |s|
    ensures i < |s| ==> p(s[i])
    ensures forall j :: 0 <= j < i ==> !p(s[j])
    ensures i == |s| <==> forall x :: x in s ==> !p(x)
  {
    if s == [] then 0
    else if p(s[0]) then 0
    else 1 + FirstIndex(s[1..], p)
  }

  /** Python's `s[:n]`: a non-negative `n` keeps at most `n` elements, a negative one drops `-n` from the end. */
  function TakePy<T>(s: seq<T>, n: int): (r: seq<T>)
    ensures n >= 0 ==> |r| == (if n <= |s| then n else |s|)
    ensures n < 0 ==> |r| == (if |s| + n > 0 then |s| + n else 0)
    ensures r == s[..|r|]
  {
    if n >= 0 then (if n <= |s| then s[..n] else s)
    else if |s| + n > 0 then s[..|s| + n]
    else []
  }

  /** No two positions of `s` carry the same key. */
  ghost predicate DistinctBy<T, K>(s: seq<T>, key: T -> K) {
    forall i, j :: 0 <= i < j < |s| ==> key(s[i]) != key(s[j])
  }

  /** The keys of the elements of `s`, as a set. */
  ghost function KeySet<T, K>(s: seq<T>, key: T -> K): set<K> {
    set x | x in s :: key(x)
  }

  /** Keeping a subsequence keeps the keys distinct. */
  lemma {:induction false} FilterKeepsDistinct<T(!new), K>(s: seq<T>, p: T -> bool, key: T -> K)
    requires DistinctBy(s, key)
    ensures DistinctBy(Filter(s, p), key)
  {
    if s != [] {
      var n := |s|;
      var init := s[..n - 1];
      assert DistinctBy(init, key);
      FilterKeepsDistinct(init, p, key);
      var f := Filter(init, p);
      forall i | 0 <= i < |f| ensures key(f[i]) != key(s[n - 1]) {
        assert f[i] in init;
        var j :| 0 <= j < n - 1 && init[j] == f[i];
        assert s[j] == f[i];
      }
    }
  }

  /** A sequence with distinct keys has as many elements as distinct keys. */
  lemma {:induction false} DistinctKeyCount<T, K>(s: seq<T>, key: T -> K)
    requires DistinctBy(s, key)
    ensures |KeySet(s, key)| == |s|
  {
    if s != [] {
      var n := |s|;
      var init := s[..n - 1];
      assert DistinctBy(init, key);
      DistinctKeyCount(init, key);
      forall x | x in init ensures key(x) != key(s[n - 1]) {
        var j :| 0 <= j < n - 1 && init[j] == x;
        assert s[j] == x;
      }
      assert s == init + [s[n - 1]];
      assert KeySet(s, key) == KeySet(init, key) + {key(s[n - 1])};
    }
  }

  /** `sum(f(x) for x in s)`, accumulated from the front as the Python loops do. */
  function SumBy<T>(s: seq<T>, f: T -> int): int {
    if s == [] then 0 else SumBy(s[..|s| - 1], f) + f(s[|s| - 1])
  }

  /** Sums split over concatenation. */
  lemma {:induction false} SumByConcat<T>(a: seq<T>, b: seq<T>, f: T -> int)
    ensures SumBy(a + b, f) == SumBy(a, f) + SumBy(b, f)
    decreases |b|
  {
    if b != [] {
      assert (a + b)[..|a + b| - 1] == a + b[..|b| - 1];
      SumByConcat(a, b[..|b| - 1], f);
    } else {
      assert a + b == a;
    }
  }

  /** Sums of non-negative terms are non-negative. */
  lemma {:induction false} SumByNonNegative<T>(s: seq<T>, f: T -> int)
    requires forall x :: x in s ==> f(x) >= 0
    ensures SumBy(s, f) >= 0
  {
    if s != [] {
      SumByNonNegative(s[..|s| - 1], f);
    }
  }
}
