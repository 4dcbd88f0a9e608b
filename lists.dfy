/**
 * The list operations of the Kotlin standard library that the core relies on:
 * `filter`, `sum`/`average`, `minBy`/`maxBy` and the stable `sortedBy`.
 */
module Lists {

  /** Kotlin `filter`: the elements satisfying `p`, in their original order. */
  function Filter<T(==)>(s: seq<T>, p: T -> bool): (r: seq<T>)
    ensures |r| <= |s|
    ensures forall i :: 0 <= i < |r| ==> p(r[i]) && r[i] in s
    ensures forall i :: 0 <= i < |s| && p(s[i]) ==> s[i] in r
  {
    if s == [] then []
    else if p(s[0]) then [s[0]] + Filter(s[1..], p)
    else Filter(s[1..], p)
  }

  /** `a` is `b` with some elements left out and the rest in the same order. */
  predicate IsSubsequence<T(==)>(a: seq<T>, b: seq<T>)
    decreases |b|
  {
    a == [] || (b != [] && ((a[0] == b[0] && IsSubsequence(a[1..], b[1..])) || IsSubsequence(a, b[1..])))
  }

  lemma {:induction false} FilterIsSubsequence<T>(s: seq<T>, p: T -> bool)
    ensures IsSubsequence(Filter(s, p), s)
  {
    if s != [] {
      FilterIsSubsequence(s[1..], p);
    }
  }

  /** Filtering a second time with the same predicate changes nothing. */
  lemma {:induction false} FilterIdempotent<T>(s: seq<T>, p: T -> bool)
    ensures Filter(Filter(s, p), p) == Filter(s, p)
  {
    if s != [] {
      FilterIdempotent(s[1..], p);
    }
  }

  /** A list whose elements all satisfy `p` is kept whole. */
  lemma {:induction false} FilterKeepsAll<T>(s: seq<T>, p: T -> bool)
    requires forall i :: 0 <= i < |s| ==> p(s[i])
    ensures Filter(s, p) == s
  {
    if s != [] {
      FilterKeepsAll(s[1..], p);
    }
  }

  lemma {:induction false} FilterConcat<T>(a: seq<T>, b: seq<T>, p: T -> bool)
    ensures Filter(a + b, p) == Filter(a, p) + Filter(b, p)
  {
    if a == [] {
      assert a + b == b;
    } else {
      assert (a + b)[0] == a[0];
      assert (a + b)[1..] == a[1..] + b;
      FilterConcat(a[1..], b, p);
    }
  }

  /** Filtering a list that holds every value keeps exactly the values satisfying `p`. */
  lemma FilterOfEverything<T>(s: seq<T>, p: T -> bool)
    requires forall x :: x in s
    ensures forall x :: x in Filter(s, p) <==> p(x)
  {
    forall x
      ensures x in Filter(s, p) <==> p(x)
    {
      assert x in s;
      var i :| 0 <= i < |s| && s[i] == x;
    }
  }

  /** The keys strictly increase along `s`, so no element occurs twice. */
  predicate IncreasingBy<T>(s: seq<T>, key: T -> int) {
    forall i, j :: 0 <= i < j < |s| ==> key(s[i]) < key(s[j])
  }

  lemma HeadKeyFirst<T>(s: seq<T>, key: T -> int)
    requires IncreasingBy(s, key) && s != []
    ensures forall x :: x in s[1..] ==> key(s[0]) < key(x)
  {
    forall x | x in s[1..]
      ensures key(s[0]) < key(x)
    {
      var m :| 0 <= m < |s[1..]| && s[1..][m] == x;
      assert s[m + 1] == x;
    }
  }

  lemma IncreasingCons<T>(h: T, t: seq<T>, key: T -> int)
    requires IncreasingBy(t, key)
    requires forall i :: 0 <= i < |t| ==> key(h) < key(t[i])
    ensures IncreasingBy([h] + t, key)
  {
    var r := [h] + t;
    forall i, j | 0 <= i < j < |r|
      ensures key(r[i]) < key(r[j])
    {
      assert r[j] == t[j - 1];
      if i > 0 {
        assert r[i] == t[i - 1];
      }
    }
  }

  lemma {:induction false} FilterKeepsIncreasing<T>(s: seq<T>, key: T -> int, p: T -> bool)
    requires IncreasingBy(s, key)
    ensures IncreasingBy(Filter(s, p), key)
  {
    if s != [] {
      var rest := Filter(s[1..], p);
      FilterKeepsIncreasing(s[1..], key, p);
      if p(s[0]) {
        HeadKeyFirst(s, key);
        assert forall i :: 0 <= i < |rest| ==> rest[i] in s[1..];
        IncreasingCons(s[0], rest, key);
      }
    }
  }

  /** A list with strictly increasing keys has as many elements as its set. */
  lemma {:induction false} IncreasingCardinality<T>(s: seq<T>, key: T -> int)
    requires IncreasingBy(s, key)
    ensures |set x | x in s| == |s|
  {
    if s != [] {
      assert IncreasingBy(s[1..], key) by {
        forall i, j | 0 <= i < j < |s[1..]|
          ensures key(s[1..][i]) < key(s[1..][j])
        {
          assert s[1..][i] == s[i + 1] && s[1..][j] == s[j + 1];
        }
      }
      IncreasingCardinality(s[1..], key);
      HeadKeyFirst(s, key);
      assert (set x | x in s) == {s[0]} + (set x | x in s[1..]);
    }
  }

  /** Kotlin `coerceIn(lo, hi)`: the nearest value of `lo..hi`. */
  function CoerceIn(x: int, lo: int, hi: int): (r: int)
    requires lo <= hi
    ensures lo <= r <= hi
    ensures lo <= x <= hi ==> r == x
    ensures r != x ==> (x < lo && r == lo) || (x > hi && r == hi)
  {
    if x < lo then lo else if x > hi then hi else x
  }

  function Sum(s: seq<int>): int {
    if s == [] then 0 else s[0] + Sum(s[1..])
  }

  /**
   * `q` is the mean of `v` truncated toward zero: `q * n <= Sum(v) < (q + 1) * n`
   * for a non-negative sum, `(q - 1) * n < Sum(v) <= q * n` for a negative one.
   */
  predicate IsTruncatedMean(q: int, v: seq<int>) {
    |v| > 0 &&
    (Sum(v) >= 0 ==> q * |v| <= Sum(v) < (q + 1) * |v|) &&
    (Sum(v) < 0 ==> (q - 1) * |v| < Sum(v) <= q * |v|)
  }

  /** Kotlin `average().toInt()`: the mean, truncated toward zero as `Double.toInt` does. */
  function Mean(v: seq<int>): (q: int)
    requires |v| > 0
    ensures IsTruncatedMean(q, v)
  {
    if Sum(v) >= 0 then Sum(v) / |v| else -((-Sum(v)) / |v|)
  }

  /** A sum of `n` values within `lo..hi` lies within `n * lo .. n * hi`. */
  lemma {:induction false} SumBounds(s: seq<int>, lo: int, hi: int)
    requires forall i :: 0 <= i < |s| ==> lo <= s[i] <= hi
    ensures |s| * lo <= Sum(s) <= |s| * hi
  {
    if s != [] {
      SumBounds(s[1..], lo, hi);
      assert |s| * lo == lo + |s[1..]| * lo;
      assert |s| * hi == hi + |s[1..]| * hi;
    }
  }

  /** The truncated mean lies within the bounds of the values. */
  lemma MeanBounds(s: seq<int>, lo: int, hi: int)
    requires |s| > 0
    requires forall i :: 0 <= i < |s| ==> lo <= s[i] <= hi
    ensures lo <= Mean(s) <= hi
  {
    SumBounds(s, lo, hi);
    assert |s| * lo <= Sum(s) <= |s| * hi;
    if Sum(s) >= 0 {
      DivBounds(Sum(s), |s|, lo, hi);
    } else {
      assert |s| * -hi <= -Sum(s) <= |s| * -lo;
      DivBounds(-Sum(s), |s|, -hi, -lo);
    }
  }

  /** If `n * lo <= x <= n * hi` then `lo <= x / n <= hi`. */
  lemma DivBounds(x: int, n: int, lo: int, hi: int)
    requires n > 0 && n * lo <= x <= n * hi
    ensures lo <= x / n <= hi
  {
    var q := x / n;
    assert x == n * q + x % n && 0 <= x % n < n;
    assert n * (q + 1) == n * q + n && n * (hi + 1) == n * hi + n;
    MulStep(n, q + 1, lo);
    MulStep(n, hi + 1, q);
  }

  /** Multiplying by a non-negative factor keeps the order. */
  lemma MulStep(n: int, a: int, b: int)
    ensures 0 <= n && a <= b ==> n * a <= n * b
  {
    var d := b - a;
    assert n * b == n * a + n * d;
  }

  /** Kotlin `minByOrNull(key)` on a non-empty list: the index of the FIRST element of least key. */
  function FirstMinIndex<T(==)>(s: seq<T>, key: T -> int): (k: nat)
    requires |s| > 0
    ensures k < |s|
    ensures forall j :: 0 <= j < |s| ==> key(s[k]) <= key(s[j])
    ensures forall j :: 0 <= j < k ==> key(s[k]) < key(s[j])
  {
    if |s| == 1 then 0
    else
      var k := FirstMinIndex(s[..|s| - 1], key);
      if key(s[|s| - 1]) < key(s[k]) then |s| - 1 else k
  }

  /** Kotlin `maxByOrNull(key)` on a non-empty list: the index of the FIRST element of greatest key. */
  function FirstMaxIndex<T(==)>(s: seq<T>, key: T -> int): (k: nat)
    requires |s| > 0
    ensures k < |s|
    ensures forall j :: 0 <= j < |s| ==> key(s[j]) <= key(s[k])
    ensures forall j :: 0 <= j < k ==> key(s[j]) < key(s[k])
  {
    if |s| == 1 then 0
    else
      var k := FirstMaxIndex(s[..|s| - 1], key);
      if key(s[k]) < key(s[|s| - 1]) then |s| - 1 else k
  }

  predicate SortedBy<T>(s: seq<T>, key: T -> int) {
    forall i, j :: 0 <= i < j < |s| ==> key(s[i]) <= key(s[j])
  }

  lemma SortedCons<T>(y: T, t: seq<T>, key: T -> int)
    requires SortedBy(t, key)
    requires |t| > 0 ==> key(y) <= key(t[0])
    ensures SortedBy([y] + t, key)
  {
    var r := [y] + t;
    forall i, j | 0 <= i < j < |r| ensures key(r[i]) <= key(r[j]) {
      if i == 0 && j > 1 {
        assert key(t[0]) <= key(t[j - 1]);
      }
    }
  }

  lemma SortedTail<T>(s: seq<T>, key: T -> int)
    requires SortedBy(s, key) && s != []
    ensures SortedBy(s[1..], key)
    ensures |s| > 1 ==> key(s[0]) <= key(s[1])
  {
    forall i, j | 0 <= i < j < |s[1..]|
      ensures key(s[1..][i]) <= key(s[1..][j])
    {
      assert s[1..][i] == s[i + 1] && s[1..][j] == s[j + 1];
    }
  }

  /** Keeping the head of `s` in front of `x` inserted into its tail. */
  lemma InsertStep<T>(x: T, s: seq<T>, t: seq<T>, key: T -> int)
    requires SortedBy(s, key) && s != [] && key(s[0]) < key(x)
    requires SortedBy(t, key) && multiset(t) == multiset(s[1..]) + multiset{x}
    requires t != [] && (t[0] == x || (|s| > 1 && t[0] == s[1]))
    ensures SortedBy([s[0]] + t, key)
    ensures multiset([s[0]] + t) == multiset(s) + multiset{x}
  {
    SortedTail(s, key);
    SortedCons(s[0], t, key);
    assert multiset(s) == multiset{s[0]} + multiset(s[1..]) by {
      assert s == [s[0]] + s[1..];
    }
  }

  /** Puts `x` in front of the first element whose key is not smaller than its own. */
  function InsertBy<T(==)>(x: T, s: seq<T>, key: T -> int): (r: seq<T>)
    requires SortedBy(s, key)
    ensures SortedBy(r, key)
    ensures multiset(r) == multiset(s) + multiset{x}
    ensures |r| == |s| + 1
    ensures r[0] == x || (s != [] && r[0] == s[0])
  {
    if s == [] || key(x) <= key(s[0]) then
      SortedCons(x, s, key);
      [x] + s
    else
      SortedTail(s, key);
      var t := InsertBy(x, s[1..], key);
      InsertStep(x, s, t, key);
      [s[0]] + t
  }

  /** Kotlin `sortedBy(key)`: a stable sort by an integer key. */
  function SortBy<T(==)>(s: seq<T>, key: T -> int): (r: seq<T>)
    ensures SortedBy(r, key)
    ensures multiset(r) == multiset(s)
  {
    if s == [] then []
    else
      assert s == [s[0]] + s[1..];
      InsertBy(s[0], SortBy(s[1..], key), key)
  }

  /** The elements of one key, in order. */
  function WithKey<T(==)>(s: seq<T>, key: T -> int, k: int): seq<T> {
    Filter(s, x => key(x) == k)
  }

  lemma {:induction false} InsertByWithKey<T>(x: T, s: seq<T>, key: T -> int, k: int)
    requires SortedBy(s, key)
    ensures WithKey(InsertBy(x, s, key), key, k) == if key(x) == k then [x] + WithKey(s, key, k) else WithKey(s, key, k)
  {
    if s == [] || key(x) <= key(s[0]) {
      assert ([x] + s)[1..] == s;
    } else {
      InsertByWithKey(x, s[1..], key, k);
      var t := InsertBy(x, s[1..], key);
      assert ([s[0]] + t)[1..] == t;
      if key(x) == k {
        assert key(s[0]) != k;
      }
    }
  }

  /**
   * Stability: for every key, the elements carrying it appear in the sorted
   * list in the order they had in the input.
   */
  lemma {:induction false} SortByStable<T>(s: seq<T>, key: T -> int, k: int)
    ensures WithKey(SortBy(s, key), key, k) == WithKey(s, key, k)
  {
    if s != [] {
      SortByStable(s[1..], key, k);
      InsertByWithKey(s[0], SortBy(s[1..], key), key, k);
    }
  }
}
