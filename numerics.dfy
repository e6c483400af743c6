/** Small datatypes and real arithmetic shared by every component:
    Option/Result for the source's `None` returns and exceptions, `min`/`max`,
    and Python's `round(x, ndigits)` stated over exact reals. */
module Wrappers {
  datatype Option<+T> = None | Some(value: T)

  datatype Result<+T, +E> = Success(value: T) | Failure(error: E)
}

module Numerics {

  function Min(a: real, b: real): real { if a <= b then a else b }

  function Max(a: real, b: real): real { if a >= b then a else b }

  /** 10^d as a real; the scale that `round(x, d)` works at. */
  function Pow10(d: nat): (p: real)
    ensures p >= 1.0
  {
    if d == 0 then 1.0 else 10.0 * Pow10(d - 1)
  }

  /** Round to the nearest integer, ties to the even neighbour (Python 3's rule). */
  function RoundHalfEven(y: real): (n: int)
    ensures y - 0.5 <= n as real <= y + 0.5
  {
    var f := y.Floor;
    var frac := y - f as real;
    if frac > 0.5 then f + 1
    else if frac < 0.5 then f
    else if f % 2 == 0 then f else f + 1
  }

  /** `x` rounded to a multiple of `1 / scale`, ties to even. */
  function RoundAt(x: real, scale: real): real
    requires scale > 0.0
  {
    RoundHalfEven(x * scale) as real / scale
  }

  /** Python's `round(x, digits)` on an exact real value. */
  function Round(x: real, digits: nat): real
  {
    RoundAt(x, Pow10(digits))
  }

  lemma RoundHalfEvenMonotone(y1: real, y2: real)
    requires y1 <= y2
    ensures RoundHalfEven(y1) <= RoundHalfEven(y2)
  {
    var f1, f2 := y1.Floor, y2.Floor;
    assert f1 <= f2;
    if f1 == f2 {
      assert y1 - f1 as real <= y2 - f2 as real;
    } else {
      assert RoundHalfEven(y1) <= f1 + 1 <= f2 <= RoundHalfEven(y2);
    }
  }

  lemma RoundHalfEvenOfInt(n: int)
    ensures RoundHalfEven(n as real) == n
  {
    assert (n as real).Floor == n;
  }

  lemma MulMonotone(a: real, b: real, p: real)
    requires a <= b && p > 0.0
    ensures a * p <= b * p
  {
    assert b * p - a * p == (b - a) * p;
  }

  lemma DivMonotone(a: real, b: real, p: real)
    requires a <= b && p > 0.0
    ensures a / p <= b / p
  {
    assert b / p - a / p == (b - a) / p;
  }

  lemma RoundAtMonotone(x1: real, x2: real, p: real)
    requires x1 <= x2 && p > 0.0
    ensures RoundAt(x1, p) <= RoundAt(x2, p)
  {
    MulMonotone(x1, x2, p);
    RoundHalfEvenMonotone(x1 * p, x2 * p);
    DivMonotone(RoundHalfEven(x1 * p) as real, RoundHalfEven(x2 * p) as real, p);
  }

  /** Rounding never reverses the order of two values. */
  lemma RoundMonotone(x1: real, x2: real, digits: nat)
    requires x1 <= x2
    ensures Round(x1, digits) <= Round(x2, digits)
  {
    RoundAtMonotone(x1, x2, Pow10(digits));
  }

  lemma RoundAtOnGrid(k: int, p: real)
    requires p > 0.0
    ensures RoundAt(k as real / p, p) == k as real / p
  {
    CancelScale(k as real, p);
    RoundAtOfScaledInt(k as real / p, k, p);
  }

  lemma CancelScale(a: real, p: real)
    requires p > 0.0
    ensures (a / p) * p == a
  {
  }

  lemma RoundAtOfScaledInt(y: real, k: int, p: real)
    requires p > 0.0 && y * p == k as real
    ensures RoundAt(y, p) == k as real / p
  {
    RoundHalfEvenOfInt(k);
  }

  /** A value already on the rounding grid is returned unchanged. */
  lemma RoundOnGrid(k: int, digits: nat)
    ensures Round(k as real / Pow10(digits), digits) == k as real / Pow10(digits)
  {
    RoundAtOnGrid(k, Pow10(digits));
  }

  lemma RoundAtError(x: real, p: real)
    requires p > 0.0
    ensures x - 0.5 / p <= RoundAt(x, p) <= x + 0.5 / p
  {
    var n := RoundHalfEven(x * p);
    assert x * p + -0.5 <= n as real <= x * p + 0.5;
    DivMonotone(x * p + -0.5, n as real, p);
    DivMonotone(n as real, x * p + 0.5, p);
    assert (x * p + -0.5) / p == x - 0.5 / p;
    assert (x * p + 0.5) / p == x + 0.5 / p;
  }

  /** The rounded value lies within half a unit of the last kept digit. */
  lemma RoundError(x: real, digits: nat)
    ensures x - 0.5 / Pow10(digits) <= Round(x, digits) <= x + 0.5 / Pow10(digits)
  {
    RoundAtError(x, Pow10(digits));
  }

  /** Rounding keeps a value inside any interval whose ends are on the grid. */
  lemma RoundBetween(x: real, lo: int, hi: int, digits: nat)
    requires lo as real / Pow10(digits) <= x <= hi as real / Pow10(digits)
    ensures lo as real / Pow10(digits) <= Round(x, digits) <= hi as real / Pow10(digits)
  {
    RoundMonotone(lo as real / Pow10(digits), x, digits);
    RoundMonotone(x, hi as real / Pow10(digits), digits);
    RoundOnGrid(lo, digits);
    RoundOnGrid(hi, digits);
  }

  lemma RoundZero(digits: nat)
    ensures Round(0.0, digits) == 0.0
  {
    RoundOnGrid(0, digits);
  }

  /** A non-negative value rounds to a non-negative value. */
  lemma RoundNonNegative(x: real, digits: nat)
    ensures x >= 0.0 ==> Round(x, digits) >= 0.0
  {
    if x >= 0.0 {
      RoundMonotone(0.0, x, digits);
      RoundZero(digits);
    }
  }
}
