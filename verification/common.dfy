/**
 * Shared value types for the rebalancing engine: an Option type, the
 * Python float with NaN (modelled as an Option of a real, where None is
 * NaN), and the integer conversions Python applies to floats.
 */
module Common {

  datatype Option<+T> = None | Some(value: T)

  /** A call that either returns a value or raises an exception with a message. */
  datatype Outcome<+T> = Ok(value: T) | Raised(error: string)

  /** A Python float that may be NaN: `None` stands for NaN. */
  type Float = Option<real>

  const NaN: Float := None

  /** `pd.notna(x) and x > 0`: the validity test every price goes through. */
  predicate IsValidPrice(p: Float) {
    p.Some? && p.value > 0.0
  }

  /** `max(a, b)` on reals. */
  function MaxReal(a: real, b: real): real {
    if a >= b then a else b
  }

  /** `min(a, b)` on reals. */
  function MinReal(a: real, b: real): real {
    if a <= b then a else b
  }

  function MaxInt(a: int, b: int): int {
    if a >= b then a else b
  }

  function MinInt(a: int, b: int): int {
    if a <= b then a else b
  }

  /** `max(int(min_shares or 1), 1)`: the trading lot, never below one share. */
  function LotSize(minShares: int): (r: int)
    ensures r >= 1
    ensures minShares >= 1 ==> r == minShares
  {
    MaxInt(minShares, 1)
  }

  function Abs(x: int): nat {
    if x < 0 then -x else x
  }

  /** Python's `int(x)` on a float: truncation toward zero. */
  function Trunc(x: real): (r: int)
    ensures x >= 0.0 ==> r == x.Floor
    ensures r as real <= x || x < 0.0
    ensures x < 0.0 ==> x <= r as real < x + 1.0
    ensures Abs(r) as real <= (if x < 0.0 then -x else x)
  {
    if x >= 0.0 then x.Floor else -((-x).Floor)
  }

  /** Python's built-in `round(x)`: nearest integer, ties to the even one. */
  function RoundHalfEven(x: real): (r: int)
    ensures x - 0.5 <= r as real <= x + 0.5
    ensures x - x.Floor as real != 0.5 ==> x - 0.5 < r as real < x + 0.5
    ensures x - x.Floor as real == 0.5 ==> r % 2 == 0
  {
    var f := x.Floor;
    var d := x - f as real;
    if d < 0.5 then f
    else if d > 0.5 then f + 1
    else if f % 2 == 0 then f
    else f + 1
  }

  /** Python's `int()` and `round()` on the values where they differ from a plain floor. */
  lemma PythonRoundingExamples()
    ensures Trunc(-2.7) == -2 && Trunc(2.7) == 2
    ensures RoundHalfEven(2.5) == 2 && RoundHalfEven(3.5) == 4 && RoundHalfEven(-0.5) == 0
    ensures RoundHalfEven(2.6) == 3
  {
  }

  /** `math.floor(x / lot) * lot` with a positive lot. */
  function LotFloor(x: real, lot: int): int
    requires lot >= 1
  {
    (x / lot as real).Floor * lot
  }

  /** `LotFloor` is the largest multiple of the lot not above `x`. */
  lemma LotFloorSpec(x: real, lot: int)
    requires lot >= 1
    ensures LotFloor(x, lot) % lot == 0
    ensures LotFloor(x, lot) as real <= x
    ensures x < (LotFloor(x, lot) + lot) as real
  {
    LotFloorBounds(x, lot, (x / lot as real).Floor);
  }

  lemma LotFloorBounds(x: real, lot: int, q: int)
    requires lot >= 1
    requires q == (x / lot as real).Floor
    ensures (q * lot) % lot == 0
    ensures (q * lot) as real <= x
    ensures x < (q * lot + lot) as real
  {
    var l := lot as real;
    var y := x / l;
    DivMulCancel(x, l);
    assert q as real <= y < (q + 1) as real;
    MulMonotone(q as real, y, l);
    CastMul(q, lot);
    MulStrict(y, (q + 1) as real, l);
    CastMul(q + 1, lot);
    MulSucc(q, lot);
    MultipleMod(q, lot);
  }

  lemma DivMulCancel(x: real, l: real)
    requires l != 0.0
    ensures (x / l) * l == x
  {}

  lemma MulSucc(a: int, b: int)
    ensures (a + 1) * b == a * b + b
  {}

  lemma CastMul(a: int, b: int)
    ensures (a * b) as real == a as real * b as real
  {}

  lemma MultipleMod(q: int, lot: int)
    requires lot >= 1
    ensures (q * lot) % lot == 0
  {
    var a := q * lot;
    var d := q - a / lot;
    assert a == (a / lot) * lot + a % lot;
    assert d * lot == a % lot by {
      assert d * lot == q * lot - (a / lot) * lot;
    }
    if d != 0 {
      assert false;
    }
  }

  lemma MulMonotone(a: real, b: real, c: real)
    requires a <= b && c > 0.0
    ensures a * c <= b * c
  {}

  lemma MulStrict(a: real, b: real, c: real)
    requires a < b && c > 0.0
    ensures a * c < b * c
  {}

  /** The sum of a sequence of reals. */
  function Sum(s: seq<real>): real {
    if s == [] then 0.0 else s[0] + Sum(s[1..])
  }

  /** Concatenation regroups freely; loops that build a sequence by appending use it. */
  lemma AppendAssoc<T>(a: seq<T>, b: seq<T>, c: seq<T>)
    ensures a + (b + c) == (a + b) + c
  {
  }

  /** Taking out the element at `k` takes one occurrence of it out of the multiset. */
  lemma MultisetRemove<T>(b: seq<T>, k: int)
    requires 0 <= k < |b|
    ensures multiset(b[..k] + b[k + 1..]) == multiset(b) - multiset{b[k]}
  {
    assert b == b[..k] + [b[k]] + b[k + 1..];
  }

  /**
   * Of two reorderings of each other, the first without its head and the
   * second without a matching element are again reorderings of each other.
   */
  lemma PermutationTail<T>(a: seq<T>, b: seq<T>, k: int)
    requires multiset(a) == multiset(b) && a != [] && 0 <= k < |b| && b[k] == a[0]
    ensures multiset(a[1..]) == multiset(b[..k] + b[k + 1..])
  {
    MultisetRemove(b, k);
    assert a == [a[0]] + a[1..];
  }
}
