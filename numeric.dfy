/** JavaScript number helpers, on exact reals.  IEEE-754 rounding of the
    arithmetic itself is not modelled. */
module Numeric {
  import opened Wrappers

  /** `x || 0` / `x ?? 0` on an optional number. */
  function OrZero(x: Option<real>): real {
    x.GetOr(0.0)
  }

  /** Truthiness of an optional number: absent and 0 are falsy. */
  predicate Truthy(x: Option<real>) {
    x.Some? && x.value != 0.0
  }

  /** `Math.round(x)`: the nearest integer, a half rounded towards +infinity. */
  function MathRound(x: real): (r: int)
    ensures x - 0.5 < r as real <= x + 0.5
  {
    (x + 0.5).Floor
  }

  /** 10 to the power `digits`. */
  function Scale(digits: nat): (s: real)
    ensures s >= 1.0
  {
    if digits == 0 then 1.0 else 10.0 * Scale(digits - 1)
  }

  /** The integer count of 10^-digits units that `x.toFixed(digits)` prints:
      the nearest one, a half rounded away from zero. */
  function FixedUnits(x: real, digits: nat): (n: int)
    ensures x * Scale(digits) - 0.5 <= n as real <= x * Scale(digits) + 0.5
    ensures x >= 0.0 ==> n >= 0
    ensures x <= 0.0 ==> n <= 0
  {
    if x >= 0.0 then MathRound(x * Scale(digits))
    else -MathRound(-x * Scale(digits))
  }

  /** `Number(x.toFixed(digits))`. */
  function ToFixed(x: real, digits: nat): (r: real)
    ensures r * Scale(digits) == FixedUnits(x, digits) as real
  {
    FixedUnits(x, digits) as real / Scale(digits)
  }

  lemma {:induction false} FixedUnitsOdd(x: real, digits: nat)
    ensures FixedUnits(-x, digits) == -FixedUnits(x, digits)
  {
    if x < 0.0 {
      assert -x > 0.0;
    } else if x == 0.0 {
      assert MathRound(0.0) == 0;
    }
  }

  /** Left-to-right sum, as `reduce((acc, x) => acc + x, 0)`. */
  function Sum(xs: seq<real>): real {
    if xs == [] then 0.0 else Sum(xs[..|xs| - 1]) + xs[|xs| - 1]
  }

  lemma {:induction false} SumAppend(xs: seq<real>, ys: seq<real>)
    ensures Sum(xs + ys) == Sum(xs) + Sum(ys)
    decreases |ys|
  {
    if ys == [] {
      assert xs + ys == xs;
    } else {
      assert (xs + ys)[..|xs + ys| - 1] == xs + ys[..|ys| - 1];
      SumAppend(xs, ys[..|ys| - 1]);
    }
  }

  lemma {:induction false} SumPositive(xs: seq<real>)
    requires forall i :: 0 <= i < |xs| ==> xs[i] > 0.0
    ensures xs != [] ==> Sum(xs) > 0.0
    ensures Sum(xs) >= 0.0
  {
    if xs != [] {
      SumPositive(xs[..|xs| - 1]);
    }
  }

  /** Mean of a list: `AVG(...)` in SQL, or a `reduce(+) / length`. */
  function Mean(xs: seq<real>): real
    requires xs != []
  {
    Sum(xs) / |xs| as real
  }

  /** A mean lies within the range of its values. */
  lemma {:induction false} MeanBetween(xs: seq<real>, lo: real, hi: real)
    requires xs != [] && forall i :: 0 <= i < |xs| ==> lo <= xs[i] <= hi
    ensures lo <= Mean(xs) <= hi
  {
    SumBounds(xs, lo, hi);
  }

  lemma {:induction false} SumBounds(xs: seq<real>, lo: real, hi: real)
    requires forall i :: 0 <= i < |xs| ==> lo <= xs[i] <= hi
    ensures lo * |xs| as real <= Sum(xs) <= hi * |xs| as real
  {
    if xs != [] {
      SumBounds(xs[..|xs| - 1], lo, hi);
    }
  }
}
