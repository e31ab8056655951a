/** The estimator's numeric helpers: clamping, division that yields 0 for a
    zero denominator, the `x || d` fallback of form coercion, and the left
    fold `reduce((s, x) => s + x, 0)` over a list of quantities. */
module Numeric {

  /** `Math.max(lo, Math.min(hi, value))`: when the bounds are crossed
      (`lo > hi`) the lower bound wins. */
  function Clamp(value: real, lo: real, hi: real): (r: real)
    ensures lo <= r
    ensures lo <= hi ==> r <= hi
    ensures lo <= value <= hi ==> r == value
    ensures lo <= hi && value < lo ==> r == lo
    ensures lo <= hi && hi < value ==> r == hi
    ensures lo > hi ==> r == lo
  {
    var inner := if hi < value then hi else value;
    if lo < inner then inner else lo
  }

  /** `r` is the ratio `a / b`, taken to be 0 when `b` is 0. */
  ghost predicate IsRatio(r: real, a: real, b: real)
  {
    (b == 0.0 ==> r == 0.0) && (b != 0.0 ==> r * b == a)
  }

  /** Division that yields 0 instead of failing when the denominator is 0. */
  function SafeDiv(a: real, b: real): (r: real)
    ensures IsRatio(r, a, b)
    ensures a == b && b != 0.0 ==> r == 1.0
  {
    if b == 0.0 then 0.0 else a / b
  }

  /** JavaScript's `x || d` on an already parsed field: the falsy value
      `zero` (0 for numbers, "" for text; an unparseable number arrives as 0
      too, since NaN is falsy as well) is replaced by the default `d`. */
  function OrDefault<T(==)>(x: T, zero: T, d: T): (r: T)
    ensures x != zero ==> r == x
    ensures x == zero ==> r == d
    ensures d != zero ==> r != zero
  {
    if x == zero then d else x
  }

  /** `[x]` when the condition holds, `[]` otherwise. */
  function When<T>(fires: bool, x: T): seq<T>
  {
    if fires then [x] else []
  }

  /** Multiplying by a non-negative factor preserves order. */
  lemma MulLeMono(a: real, b: real, c: real)
    requires a <= b && 0.0 <= c
    ensures a * c <= b * c
  {
  }

  /** Scaling by a factor in [0, 1] keeps a non-negative amount within [0, amount]. */
  lemma ScaleWithin(amount: real, factor: real)
    ensures 0.0 <= amount && 0.0 <= factor <= 1.0 ==> 0.0 <= amount * factor <= amount
  {
    if 0.0 <= amount && 0.0 <= factor <= 1.0 {
      MulLeMono(factor, 1.0, amount);
      MulLeMono(0.0, factor, amount);
    }
  }

  /** Left-to-right sum of a list of quantities, starting from 0. */
  function Sum(xs: seq<real>): real
  {
    if xs == [] then 0.0 else Sum(xs[..|xs| - 1]) + xs[|xs| - 1]
  }

  lemma SumAppend(xs: seq<real>, x: real)
    ensures Sum(xs + [x]) == Sum(xs) + x
  {
    assert (xs + [x])[..|xs|] == xs;
  }

  /** Summing is monotone: a pointwise smaller list has a smaller sum. */
  lemma {:induction false} SumMonotone(xs: seq<real>, ys: seq<real>)
    requires |xs| == |ys|
    requires forall i :: 0 <= i < |xs| ==> xs[i] <= ys[i]
    ensures Sum(xs) <= Sum(ys)
  {
    if xs != [] {
      var n := |xs| - 1;
      SumMonotone(xs[..n], ys[..n]);
    }
  }

  /** A list of non-negative quantities has a non-negative sum. */
  lemma {:induction false} SumNonNegative(xs: seq<real>)
    ensures (forall i :: 0 <= i < |xs| ==> 0.0 <= xs[i]) ==> 0.0 <= Sum(xs)
  {
    if xs != [] {
      var init := xs[..|xs| - 1];
      SumNonNegative(init);
      assert forall i :: 0 <= i < |init| ==> init[i] == xs[i];
    }
  }
}
