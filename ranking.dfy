/**
 * Python's `sorted(xs, key=..., reverse=True)`: a stable sort in non-increasing
 * key order (records with equal keys keep their stored order), and the
 * `sorted(xs, key=...)[0]` idiom, which picks the first record of least key.
 * Keys are compared with a strict order `below`; integer keys use `<`, string
 * keys use Python's code-point lexicographic order `LexLess`.
 */
module Ranking {
  import opened Seqs

  /** `below` is irreflexive and transitive. */
  ghost predicate StrictOrder<K(!new)>(below: (K, K) -> bool) {
    && (forall a :: !below(a, a))
    && (forall a, b, c :: below(a, b) && below(b, c) ==> below(a, c))
  }

  /** No element is followed by one whose key is strictly greater. */
  ghost predicate Descending<T, K>(s: seq<T>, key: T -> K, below: (K, K) -> bool) {
    forall i, j :: 0 <= i < j < |s| ==> !below(key(s[i]), key(s[j]))
  }

  /** The elements of `s` whose key is `k`, in order. */
  function WithKey<T, K(==)>(s: seq<T>, key: T -> K, k: K): seq<T> {
    if s == [] then []
    else WithKey(s[..|s| - 1], key, k) + (if key(s[|s| - 1]) == k then [s[|s| - 1]] else [])
  }

  lemma {:induction false} WithKeyConcat<T, K>(a: seq<T>, b: seq<T>, key: T -> K, k: K)
    ensures WithKey(a + b, key, k) == WithKey(a, key, k) + WithKey(b, key, k)
    decreases |b|
  {
    if b == [] {
      assert a + b == a;
    } else {
      assert (a + b)[..|a + b| - 1] == a + b[..|b| - 1];
      WithKeyConcat(a, b[..|b| - 1], key, k);
    }
  }

  lemma {:induction false} WithKeyNone<T, K>(s: seq<T>, key: T -> K, k: K)
    requires forall j :: 0 <= j < |s| ==> key(s[j]) != k
    ensures WithKey(s, key, k) == []
  {
    if s != [] {
      WithKeyNone(s[..|s| - 1], key, k);
    }
  }

  /** Puts `x` after every element whose key is not strictly below its own. */
  function Insert<T, K>(x: T, s: seq<T>, key: T -> K, below: (K, K) -> bool): (r: seq<T>)
    ensures multiset(r) == multiset(s) + multiset{x}
    ensures |r| == |s| + 1
  {
    if s == [] then [x]
    else if below(key(s[0]), key(x)) then [x] + s
    else
      assert s == [s[0]] + s[1..];
      [s[0]] + Insert(x, s[1..], key, below)
  }

  /** Stable sort into non-increasing key order (insertion of each element in stored order). */
  function SortDesc<T, K>(s: seq<T>, key: T -> K, below: (K, K) -> bool): (r: seq<T>)
    ensures multiset(r) == multiset(s)
    ensures |r| == |s|
  {
    if s == [] then []
    else
      assert s == s[..|s| - 1] + [s[|s| - 1]];
      Insert(s[|s| - 1], SortDesc(s[..|s| - 1], key, below), key, below)
  }

  lemma {:induction false} InsertDescending<T, K(!new)>(x: T, s: seq<T>, key: T -> K, below: (K, K) -> bool)
    requires StrictOrder(below)
    requires Descending(s, key, below)
    ensures Descending(Insert(x, s, key, below), key, below)
  {
    if s != [] && !below(key(s[0]), key(x)) {
      var rest := Insert(x, s[1..], key, below);
      assert Descending(s[1..], key, below) by {
        forall i, j | 0 <= i < j < |s| - 1 ensures !below(key(s[1..][i]), key(s[1..][j])) {
          assert s[1..][i] == s[i + 1] && s[1..][j] == s[j + 1];
        }
      }
      InsertDescending(x, s[1..], key, below);
      forall j | 0 <= j < |rest| ensures !below(key(s[0]), key(rest[j])) {
        assert rest[j] in multiset(rest);
        if rest[j] != x {
          assert rest[j] in multiset(s[1..]);
          var m :| 0 <= m < |s| - 1 && s[1..][m] == rest[j];
          assert s[m + 1] == rest[j];
        }
      }
      var r := [s[0]] + rest;
      forall i, j | 0 <= i < j < |r| ensures !below(key(r[i]), key(r[j])) {
        if i > 0 {
          assert r[i] == rest[i - 1] && r[j] == rest[j - 1];
        } else {
          assert r[j] == rest[j - 1];
        }
      }
    }
  }

  /** The sort yields non-increasing keys. */
  lemma {:induction false} SortDescDescending<T, K(!new)>(s: seq<T>, key: T -> K, below: (K, K) -> bool)
    requires StrictOrder(below)
    ensures Descending(SortDesc(s, key, below), key, below)
  {
    if s != [] {
      SortDescDescending(s[..|s| - 1], key, below);
      InsertDescending(s[|s| - 1], SortDesc(s[..|s| - 1], key, below), key, below);
    }
  }

  /** `below` never relates a key to itself. */
  ghost predicate Irreflexive<K(!new)>(below: (K, K) -> bool) {
    forall a :: !below(a, a)
  }

  /** A descending sequence whose head is below `key(x)` has no element with key `key(x)`. */
  lemma HeadBelowExcludesKey<T, K(!new)>(x: T, s: seq<T>, key: T -> K, below: (K, K) -> bool)
    requires Irreflexive(below)
    requires Descending(s, key, below)
    requires |s| > 0 && below(key(s[0]), key(x))
    ensures WithKey(s, key, key(x)) == []
  {
    forall j | 0 <= j < |s| ensures key(s[j]) != key(x) {
      if j > 0 {
        assert !below(key(s[0]), key(s[j]));
      }
    }
    WithKeyNone(s, key, key(x));
  }

  lemma DescendingTail<T, K>(s: seq<T>, key: T -> K, below: (K, K) -> bool)
    requires Descending(s, key, below) && |s| > 0
    ensures Descending(s[1..], key, below)
  {
    forall i, j | 0 <= i < j < |s| - 1 ensures !below(key(s[1..][i]), key(s[1..][j])) {
      assert s[1..][i] == s[i + 1] && s[1..][j] == s[j + 1];
    }
  }

  lemma WithKeyOne<T, K>(x: T, key: T -> K, k: K)
    ensures WithKey([x], key, k) == if key(x) == k then [x] else []
  {
    assert [x][..0] == [];
  }

  /** Insertion adds `x` after the records sharing its key, so each key's records keep their order. */
  lemma {:induction false} InsertWithKey<T, K(!new)>(x: T, s: seq<T>, key: T -> K, below: (K, K) -> bool, k: K)
    requires Irreflexive(below)
    requires Descending(s, key, below)
    ensures WithKey(Insert(x, s, key, below), key, k)
         == WithKey(s, key, k) + (if key(x) == k then [x] else [])
  {
    if s == [] {
      WithKeyOne(x, key, k);
    } else if below(key(s[0]), key(x)) {
      InsertWithKeyFront(x, s, key, below, k);
    } else {
      DescendingTail(s, key, below);
      InsertWithKey(x, s[1..], key, below, k);
      InsertWithKeyStep(x, s, key, below, k);
    }
  }

  /** Inserting in front of a strictly smaller head adds `x` to its key's records, which were none. */
  lemma InsertWithKeyFront<T, K(!new)>(x: T, s: seq<T>, key: T -> K, below: (K, K) -> bool, k: K)
    requires Irreflexive(below)
    requires Descending(s, key, below)
    requires |s| > 0 && below(key(s[0]), key(x))
    ensures WithKey(Insert(x, s, key, below), key, k)
         == WithKey(s, key, k) + (if key(x) == k then [x] else [])
  {
    assert Insert(x, s, key, below) == [x] + s;
    WithKeyConcat([x], s, key, k);
    WithKeyOne(x, key, k);
    if key(x) == k {
      HeadBelowExcludesKey(x, s, key, below);
    }
  }

  /** Inserting behind the head: the head's contribution is kept in front of the insertion into the tail. */
  lemma InsertWithKeyStep<T, K>(x: T, s: seq<T>, key: T -> K, below: (K, K) -> bool, k: K)
    requires |s| > 0 && !below(key(s[0]), key(x))
    requires WithKey(Insert(x, s[1..], key, below), key, k)
          == WithKey(s[1..], key, k) + (if key(x) == k then [x] else [])
    ensures WithKey(Insert(x, s, key, below), key, k)
         == WithKey(s, key, k) + (if key(x) == k then [x] else [])
  {
    var ins := Insert(x, s[1..], key, below);
    InsertBehindHead(x, s, key, below);
    WithKeyCons(s[0], ins, key, k);
    WithKeyHeadTail(s, key, k);
    var head, tail := if key(s[0]) == k then [s[0]] else [], if key(x) == k then [x] else [];
    ConcatAssoc(head, WithKey(s[1..], key, k), tail);
  }

  lemma ConcatAssoc<T>(a: seq<T>, b: seq<T>, c: seq<T>)
    ensures a + (b + c) == (a + b) + c
  {
  }

  lemma InsertBehindHead<T, K>(x: T, s: seq<T>, key: T -> K, below: (K, K) -> bool)
    requires |s| > 0 && !below(key(s[0]), key(x))
    ensures Insert(x, s, key, below) == [s[0]] + Insert(x, s[1..], key, below)
  {
  }

  lemma WithKeyHeadTail<T, K>(s: seq<T>, key: T -> K, k: K)
    requires |s| > 0
    ensures WithKey(s, key, k) == (if key(s[0]) == k then [s[0]] else []) + WithKey(s[1..], key, k)
  {
    assert s == [s[0]] + s[1..];
    WithKeyCons(s[0], s[1..], key, k);
  }

  /** Records are collected from the front as well. */
  lemma WithKeyCons<T, K>(y: T, t: seq<T>, key: T -> K, k: K)
    ensures WithKey([y] + t, key, k) == (if key(y) == k then [y] else []) + WithKey(t, key, k)
  {
    WithKeyConcat([y], t, key, k);
    WithKeyOne(y, key, k);
  }

  /** A leading slice of a descending sequence is descending and holds nothing the sequence does not. */
  lemma TakeDescending<T, K>(s: seq<T>, n: int, key: T -> K, below: (K, K) -> bool)
    requires Descending(s, key, below)
    ensures Descending(TakePy(s, n), key, below)
    ensures multiset(TakePy(s, n)) <= multiset(s)
  {
    var r := TakePy(s, n);
    assert s == r + s[|r|..];
    assert multiset(s) == multiset(r) + multiset(s[|r|..]);
  }

  /** In a descending sequence no record left out of a leading slice has a key above a kept record's. */
  lemma TakeTop<T, K>(s: seq<T>, n: int, key: T -> K, below: (K, K) -> bool)
    requires Descending(s, key, below)
    ensures forall x, y :: x in TakePy(s, n) && y in multiset(s) - multiset(TakePy(s, n)) ==> !below(key(x), key(y))
  {
    var r := TakePy(s, n);
    var rest := s[|r|..];
    assert s == r + rest;
    assert multiset(s) - multiset(r) == multiset(rest);
    forall x, y | x in r && y in multiset(rest) ensures !below(key(x), key(y)) {
      var i :| 0 <= i < |r| && r[i] == x;
      var j :| 0 <= j < |rest| && rest[j] == y;
      assert s[i] == x && s[|r| + j] == y;
    }
  }

  /** Stability: the records sharing any one key appear in the output in their stored order. */
  lemma {:induction false} SortDescStable<T, K(!new)>(s: seq<T>, key: T -> K, below: (K, K) -> bool, k: K)
    requires StrictOrder(below)
    ensures WithKey(SortDesc(s, key, below), key, k) == WithKey(s, key, k)
  {
    if s != [] {
      var n := |s|;
      SortDescStable(s[..n - 1], key, below, k);
      SortDescDescending(s[..n - 1], key, below);
      assert Irreflexive(below);
      InsertWithKey(s[n - 1], SortDesc(s[..n - 1], key, below), key, below, k);
    }
  }

  /** Index of the first element of least key: what `sorted(s, key=key)[0]` returns. */
  function FirstMinBy<T>(s: seq<T>, key: T -> int): (i: nat)
    requires |s| > 0
    ensures i < |s|
    ensures forall j :: 0 <= j < |s| ==> key(s[i]) <= key(s[j])
    ensures forall j :: 0 <= j < i ==> key(s[j]) > key(s[i])
  {
    if |s| == 1 then 0
    else
      var i := FirstMinBy(s[..|s| - 1], key);
      if key(s[|s| - 1]) < key(s[i]) then |s| - 1 else i
  }

  /** Python's `a < b` on strings: code-point lexicographic order. */
  predicate LexLess(a: string, b: string)
    decreases |a|
  {
    if |a| == 0 then |b| > 0
    else if |b| == 0 then false
    else if a[0] != b[0] then a[0] < b[0]
    else LexLess(a[1..], b[1..])
  }

  lemma {:induction false} LexLessIrreflexive(a: string)
    ensures !LexLess(a, a)
    decreases |a|
  {
    if |a| > 0 {
      LexLessIrreflexive(a[1..]);
    }
  }

  lemma {:induction false} LexLessTransitive(a: string, b: string, c: string)
    requires LexLess(a, b) && LexLess(b, c)
    ensures LexLess(a, c)
    decreases |a|
  {
    if |a| > 0 && |b| > 0 && |c| > 0 && a[0] == b[0] && b[0] == c[0] {
      LexLessTransitive(a[1..], b[1..], c[1..]);
    }
  }

  /** String order is a strict order, so the sorting lemmas apply to it. */
  lemma LexLessStrictOrder()
    ensures StrictOrder(LexLess)
  {
    forall a ensures !LexLess(a, a) {
      LexLessIrreflexive(a);
    }
    forall a, b, c | LexLess(a, b) && LexLess(b, c) ensures LexLess(a, c) {
      LexLessTransitive(a, b, c);
    }
  }

  /** Integer `<`, for numeric sort keys. */
  predicate IntBelow(a: int, b: int) {
    a < b
  }

  lemma IntBelowStrictOrder()
    ensures StrictOrder(IntBelow)
  {
  }
}
