/**
 * `sort_values(ascending=False)` on a float column: a stable insertion
 * sort, highest key first, NaN keys last.
 */
module Sorting {
  import opened Common

  /** `a` may come before `b` in descending order with NaN last. */
  predicate KeyGe(a: Float, b: Float) {
    b.None? || (a.Some? && a.value >= b.value)
  }

  lemma KeyGeTotal(a: Float, b: Float)
    ensures KeyGe(a, b) || KeyGe(b, a)
  {
  }

  lemma KeyGeTrans(a: Float, b: Float, c: Float)
    requires KeyGe(a, b) && KeyGe(b, c)
    ensures KeyGe(a, c)
  {
  }

  predicate SortedDesc<T>(xs: seq<T>, key: T -> Float) {
    forall i, j :: 0 <= i < j < |xs| ==> KeyGe(key(xs[i]), key(xs[j]))
  }

  /** Put `x` in front of the first element it is not below. */
  function Insert<T>(x: T, xs: seq<T>, key: T -> Float): (r: seq<T>)
    ensures multiset(r) == multiset(xs) + multiset{x}
    ensures |r| == |xs| + 1
  {
    if xs == [] || KeyGe(key(x), key(xs[0])) then [x] + xs
    else
      assert xs == [xs[0]] + xs[1..];
      [xs[0]] + Insert(x, xs[1..], key)
  }

  lemma {:induction false} InsertSorted<T>(x: T, xs: seq<T>, key: T -> Float)
    requires SortedDesc(xs, key)
    ensures SortedDesc(Insert(x, xs, key), key)
  {
    if xs == [] || KeyGe(key(x), key(xs[0])) {
      var r := [x] + xs;
      forall i, j | 0 <= i < j < |r| ensures KeyGe(key(r[i]), key(r[j])) {
        if i == 0 {
          KeyGeTrans(key(x), key(xs[0]), key(xs[j - 1]));
        }
      }
    } else {
      InsertSorted(x, xs[1..], key);
      var t := Insert(x, xs[1..], key);
      var r := [xs[0]] + t;
      KeyGeTotal(key(x), key(xs[0]));
      forall k | 0 <= k < |t| ensures KeyGe(key(xs[0]), key(t[k])) {
        assert t[k] in multiset(t);
        assert t[k] in multiset(xs[1..]) + multiset{x};
        if t[k] != x || t[k] in multiset(xs[1..]) {
          if t[k] in multiset(xs[1..]) {
            var m :| 0 <= m < |xs[1..]| && xs[1..][m] == t[k];
            assert xs[m + 1] == t[k];
          }
        }
      }
      forall i, j | 0 <= i < j < |r| ensures KeyGe(key(r[i]), key(r[j])) {
        if i > 0 {
          assert r[i] == t[i - 1] && r[j] == t[j - 1];
        }
      }
    }
  }

  /** The descending sort: sorted, and a permutation of its input. */
  function SortDesc<T>(xs: seq<T>, key: T -> Float): (r: seq<T>)
    ensures multiset(r) == multiset(xs)
    ensures |r| == |xs|
  {
    if xs == [] then []
    else
      assert xs == [xs[0]] + xs[1..];
      Insert(xs[0], SortDesc(xs[1..], key), key)
  }

  lemma {:induction false} SortDescSorted<T>(xs: seq<T>, key: T -> Float)
    ensures SortedDesc(SortDesc(xs, key), key)
  {
    if xs != [] {
      SortDescSorted(xs[1..], key);
      InsertSorted(xs[0], SortDesc(xs[1..], key), key);
    }
  }

  /** The sort holds exactly the elements of its input. */
  lemma SortDescMembers<T>(xs: seq<T>, key: T -> Float)
    ensures forall x :: x in SortDesc(xs, key) <==> x in xs
  {
    var r := SortDesc(xs, key);
    forall x ensures x in r <==> x in xs {
      assert x in r <==> x in multiset(r);
      assert x in xs <==> x in multiset(xs);
    }
  }

  /** Sorting draws its elements from wherever the unsorted ones came from. */
  lemma SortDescWithin<T>(xs: seq<T>, key: T -> Float, ys: seq<T>)
    requires forall x :: x in xs ==> x in ys
    ensures forall x :: x in SortDesc(xs, key) ==> x in ys
  {
    forall x | x in SortDesc(xs, key) ensures x in ys {
      assert x in multiset(SortDesc(xs, key));
      assert x in multiset(xs);
    }
  }

  /** Sorting an already sorted list keeps it as it is (the sort is stable). */
  lemma {:induction false} SortDescOfSorted<T>(xs: seq<T>, key: T -> Float)
    requires SortedDesc(xs, key)
    ensures SortDesc(xs, key) == xs
  {
    if xs != [] {
      assert SortedDesc(xs[1..], key) by {
        forall i, j | 0 <= i < j < |xs[1..]| ensures KeyGe(key(xs[1..][i]), key(xs[1..][j])) {
          assert xs[1..][i] == xs[i + 1] && xs[1..][j] == xs[j + 1];
        }
      }
      SortDescOfSorted(xs[1..], key);
      if |xs| > 1 {
        assert KeyGe(key(xs[0]), key(xs[1]));
      }
    }
  }

  /** `head(n)` of a sequence. */
  function Head<T>(xs: seq<T>, n: int): (r: seq<T>)
    ensures |r| == if n <= 0 then 0 else MinInt(n, |xs|)
    ensures r == xs[..|r|]
  {
    if n <= 0 then [] else if n >= |xs| then xs else xs[..n]
  }

  /** The elements of `xs` that satisfy `p`, in order. */
  function Filter<T>(xs: seq<T>, p: T -> bool): (r: seq<T>)
    ensures |r| <= |xs|
    ensures forall i :: 0 <= i < |r| ==> p(r[i]) && r[i] in xs
    ensures multiset(r) <= multiset(xs)
  {
    if xs == [] then []
    else
      assert xs == [xs[0]] + xs[1..];
      if p(xs[0]) then [xs[0]] + Filter(xs[1..], p)
      else Filter(xs[1..], p)
  }

  /** A sorted list stays sorted under a new head that is not below any element. */
  lemma PrependSorted<T>(x: T, t: seq<T>, key: T -> Float)
    requires SortedDesc(t, key)
    requires forall y :: y in t ==> KeyGe(key(x), key(y))
    ensures SortedDesc([x] + t, key)
  {
    var r := [x] + t;
    forall i, j | 0 <= i < j < |r| ensures KeyGe(key(r[i]), key(r[j])) {
      if i == 0 {
        assert r[j] == t[j - 1] && r[j] in t;
      } else {
        assert r[i] == t[i - 1] && r[j] == t[j - 1];
      }
    }
  }

  /** The tail of a sorted list is sorted and its head is not below anything in it. */
  lemma SortedTail<T>(xs: seq<T>, key: T -> Float)
    requires SortedDesc(xs, key) && xs != []
    ensures SortedDesc(xs[1..], key)
    ensures forall y :: y in xs[1..] ==> KeyGe(key(xs[0]), key(y))
  {
    forall i, j | 0 <= i < j < |xs[1..]| ensures KeyGe(key(xs[1..][i]), key(xs[1..][j])) {
      assert xs[1..][i] == xs[i + 1] && xs[1..][j] == xs[j + 1];
    }
    forall y | y in xs[1..] ensures KeyGe(key(xs[0]), key(y)) {
      var m :| 0 <= m < |xs[1..]| && xs[1..][m] == y;
      assert xs[m + 1] == y;
    }
  }

  /** Filtering keeps the order. */
  lemma {:induction false} FilterSorted<T>(xs: seq<T>, p: T -> bool, key: T -> Float)
    requires SortedDesc(xs, key)
    ensures SortedDesc(Filter(xs, p), key)
  {
    if xs != [] {
      SortedTail(xs, key);
      FilterSorted(xs[1..], p, key);
      var t := Filter(xs[1..], p);
      if p(xs[0]) {
        forall y | y in t ensures KeyGe(key(xs[0]), key(y)) {
          var m :| 0 <= m < |t| && t[m] == y;
        }
        PrependSorted(xs[0], t, key);
      }
    }
  }

  /** How often `y` occurs in `Filter(xs, p)`: as often as in `xs` when it satisfies `p`, never otherwise. */
  lemma {:induction false} FilterCount<T>(xs: seq<T>, p: T -> bool, y: T)
    ensures multiset(Filter(xs, p))[y] == if p(y) then multiset(xs)[y] else 0
  {
    if xs != [] {
      assert xs == [xs[0]] + xs[1..];
      FilterCount(xs[1..], p, y);
    }
  }

  lemma FilterMember<T>(xs: seq<T>, p: T -> bool, y: T)
    requires y in xs && p(y)
    ensures y in Filter(xs, p)
  {
    FilterCount(xs, p, y);
  }

  /** The first `n` of a sorted list rank at least as high as anything left out. */
  lemma HeadIsTop<T>(xs: seq<T>, key: T -> Float, n: int)
    requires SortedDesc(xs, key)
    ensures forall x, y :: x in Head(xs, n) && y in xs && y !in Head(xs, n) ==> KeyGe(key(x), key(y))
  {
    var h := Head(xs, n);
    forall x, y | x in h && y in xs && y !in h ensures KeyGe(key(x), key(y)) {
      var i :| 0 <= i < |h| && h[i] == x;
      var j :| 0 <= j < |xs| && xs[j] == y;
      if j < |h| {
        assert false;
      }
      assert xs[i] == x;
    }
  }

  lemma SplitAt<T>(xs: seq<T>, k: int)
    requires 0 <= k < |xs|
    ensures xs == (xs[..k] + [xs[k]]) + xs[k + 1..]
  {
  }

  lemma HeadMember<T>(xs: seq<T>, n: int)
    ensures forall x :: x in Head(xs, n) ==> x in xs
  {
    var h := Head(xs, n);
    forall x | x in h ensures x in xs {
      var i :| 0 <= i < |h| && h[i] == x;
      assert xs[i] == x;
    }
  }

  /** The first `n` are drawn from the list, counting repeats. */
  lemma HeadSub<T>(xs: seq<T>, n: int)
    ensures multiset(Head(xs, n)) <= multiset(xs)
  {
    var h := Head(xs, n);
    assert xs == h + xs[|h|..];
  }

  /** Every element the filter keeps passes the test. */
  lemma FilterPasses<T>(xs: seq<T>, p: T -> bool, y: T)
    requires y in Filter(xs, p)
    ensures p(y) && y in xs
  {
    var r := Filter(xs, p);
    var i :| 0 <= i < |r| && r[i] == y;
  }

  /** A filter every element passes keeps the whole list. */
  lemma {:induction false} FilterAll<T>(xs: seq<T>, p: T -> bool)
    requires forall x :: x in xs ==> p(x)
    ensures Filter(xs, p) == xs
  {
    if xs != [] {
      assert xs[0] in xs;
      FilterAll(xs[1..], p);
      assert xs == [xs[0]] + xs[1..];
    }
  }

  /** Filtering on a test and on its negation splits a list between the two results. */
  lemma FilterSplit<T>(xs: seq<T>, p: T -> bool, q: T -> bool)
    requires forall x :: q(x) == !p(x)
    ensures multiset(Filter(xs, p)) + multiset(Filter(xs, q)) == multiset(xs)
  {
    forall y ensures (multiset(Filter(xs, p)) + multiset(Filter(xs, q)))[y] == multiset(xs)[y] {
      FilterCount(xs, p, y);
      FilterCount(xs, q, y);
    }
  }
}
