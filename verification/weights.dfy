/**
 * `_compute_weights`: the target weight of each selected stock, either
 * equal (1/n) or proportional to its prediction score.
 */
module Weights {
  import opened Common
  import opened Text

  /** `(method or "equal").lower()`. */
  function MethodName(scheme: Option<string>): string {
    if scheme.None? || scheme.value == "" then "equal" else Lower(scheme.value)
  }

  /** Weights proportional to the scores are used: the method is "score" and the scores sum above zero. */
  predicate ByScore(scores: seq<real>, scheme: Option<string>) {
    MethodName(scheme) == "score" && Sum(scores) > 0.0
  }

  /** `np.full(n, v)`. */
  function Const(n: nat, v: real): (r: seq<real>)
    ensures |r| == n
    ensures forall i :: 0 <= i < n ==> r[i] == v
  {
    if n == 0 then [] else [v] + Const(n - 1, v)
  }

  /** `scores / d`, element by element. */
  function Scale(s: seq<real>, d: real): (r: seq<real>)
    requires d != 0.0
    ensures |r| == |s|
    ensures forall i :: 0 <= i < |s| ==> r[i] == s[i] / d
  {
    if s == [] then [] else [s[0] / d] + Scale(s[1..], d)
  }

  /**
   * One weight per score: empty for no scores; score / sum under the
   * "score" method when the sum is positive; 1/n for "equal", for an
   * unknown method and for a non-positive score sum.
   */
  function ComputeWeights(scores: seq<real>, scheme: Option<string>): (r: seq<real>)
    ensures |r| == |scores|
    ensures ByScore(scores, scheme) ==>
      forall i :: 0 <= i < |r| ==> r[i] == scores[i] / Sum(scores)
    ensures !ByScore(scores, scheme) ==>
      forall i :: 0 <= i < |r| ==> r[i] == 1.0 / |scores| as real
  {
    if scores == [] then []
    else if ByScore(scores, scheme) then Scale(scores, Sum(scores))
    else Const(|scores|, 1.0 / |scores| as real)
  }

  lemma {:induction false} SumConst(n: nat, v: real)
    ensures Sum(Const(n, v)) == n as real * v
  {
    if n > 0 {
      assert Const(n, v)[1..] == Const(n - 1, v);
      SumConst(n - 1, v);
    }
  }

  lemma {:induction false} SumScale(s: seq<real>, d: real)
    requires d != 0.0
    ensures Sum(Scale(s, d)) == Sum(s) / d
  {
    if s != [] {
      assert Scale(s, d)[1..] == Scale(s[1..], d);
      SumScale(s[1..], d);
    }
  }

  /** Non-empty weights always add up to one. */
  lemma WeightsSumToOne(scores: seq<real>, scheme: Option<string>)
    requires scores != []
    ensures Sum(ComputeWeights(scores, scheme)) == 1.0
  {
    if ByScore(scores, scheme) {
      SumScale(scores, Sum(scores));
    } else {
      var n := |scores| as real;
      SumConst(|scores|, 1.0 / n);
      assert n * (1.0 / n) == 1.0;
    }
  }

  /** Equal weighting never hands out a non-positive weight. */
  lemma EqualWeightsPositive(scores: seq<real>, scheme: Option<string>)
    requires !ByScore(scores, scheme)
    ensures forall w :: w in ComputeWeights(scores, scheme) ==> w > 0.0
  {
  }

  lemma {:induction false} SumConcat(a: seq<real>, b: seq<real>)
    ensures Sum(a + b) == Sum(a) + Sum(b)
  {
    if a != [] {
      assert (a + b)[1..] == a[1..] + b;
      SumConcat(a[1..], b);
    } else {
      assert a + b == b;
    }
  }

  /** Taking out the element at `k` takes it out of the sum. */
  lemma SumRemove(b: seq<real>, k: int)
    requires 0 <= k < |b|
    ensures Sum(b) == Sum(b[..k] + b[k + 1..]) + b[k]
  {
    var front, mid, back := b[..k], [b[k]], b[k + 1..];
    assert Sum(b) == Sum(front + mid) + Sum(back) by {
      assert b == (front + mid) + back;
      SumConcat(front + mid, back);
    }
    assert Sum(front + mid) == Sum(front) + b[k] by {
      SumConcat(front, mid);
      assert mid[1..] == [];
    }
    SumConcat(front, back);
  }

  /** Reordering the scores does not change their sum. */
  lemma {:induction false} SumPermutation(a: seq<real>, b: seq<real>)
    requires multiset(a) == multiset(b)
    ensures Sum(a) == Sum(b)
    decreases |a|
  {
    if a != [] {
      assert a[0] in multiset(b);
      var k :| 0 <= k < |b| && b[k] == a[0];
      PermutationTail(a, b, k);
      SumPermutation(a[1..], b[..k] + b[k + 1..]);
      SumRemove(b, k);
    } else {
      assert |b| == |multiset(b)| == 0;
    }
  }
}
