/**
 * Real-number helpers for the map widget: Qt's qBound and qMin, floor and
 * ceiling, exact powers of ten, and the C maths library functions the widget
 * calls (pow with base 2, log2, log10, sin and cos of an angle in degrees),
 * which are taken as supplied functions with the laws stated below.
 * Arithmetic is over the reals: IEEE rounding is not modelled.
 */
module Numerics {

  /** Qt's qBound(lo, x, hi), that is qMax(lo, qMin(hi, x)). */
  function Bound(lo: real, x: real, hi: real): (r: real)
    requires lo <= hi
    ensures lo <= r <= hi
    ensures lo <= x <= hi ==> r == x
    ensures x < lo ==> r == lo
    ensures hi < x ==> r == hi
  {
    if hi < x then hi else if x < lo then lo else x
  }

  /** Qt's qMin on integers. */
  function MinInt(a: int, b: int): (r: int)
    ensures r <= a && r <= b && (r == a || r == b)
  {
    if a < b then a else b
  }

  /** Qt's qMax on integers. */
  function MaxInt(a: int, b: int): (r: int)
    ensures r >= a && r >= b && (r == a || r == b)
  {
    if a < b then b else a
  }

  /** std::floor, as an integer. */
  function Floor(x: real): (n: int)
    ensures n as real <= x < n as real + 1.0
  {
    x.Floor
  }

  /** std::ceil, as an integer. */
  function Ceil(x: real): (n: int)
    ensures n as real - 1.0 < x <= n as real
  {
    -((-x).Floor)
  }

  /** Dividing bounds lo * d <= x < hi * d by a positive d. */
  lemma DivBounds(x: real, lo: real, hi: real, d: real)
    requires d > 0.0 && lo * d <= x < hi * d
    ensures lo <= x / d < hi
  {
    assert (x / d - hi) * d == x - hi * d;
    assert (x / d - lo) * d == x - lo * d;
  }

  lemma MulLe(a: real, b: real, d: real)
    requires a <= b && d > 0.0
    ensures a * d <= b * d
  {
  }

  lemma MulLt(a: real, b: real, d: real)
    requires a < b && d > 0.0
    ensures a * d < b * d
  {
  }

  /** 10 raised to an integer power, exactly. */
  function Pow10(k: int): (r: real)
    ensures r > 0.0
    decreases if k < 0 then -k else k
  {
    if k == 0 then 1.0
    else if k > 0 then 10.0 * Pow10(k - 1)
    else Pow10(k + 1) / 10.0
  }

  lemma {:induction false} Pow10Step(k: int)
    ensures Pow10(k + 1) == 10.0 * Pow10(k)
    decreases if k < 0 then -k else k
  {
    if k < -1 {
      Pow10Step(k + 1);
    }
  }

  /**
   * The transcendental functions of the C library that the widget calls:
   * exp2(x) stands for pow(2.0, x), sinDeg(h) and cosDeg(h) for
   * std::sin and std::cos of qDegreesToRadians(h).
   */
  datatype MathLib = MathLib(
    exp2: real -> real,
    log2: real -> real,
    log10: real -> real,
    sinDeg: real -> real,
    cosDeg: real -> real)

  /**
   * The laws of pow(2, .) and log2 that the zoom/range round trip relies on:
   * exact values at 0 and 8, monotonicity, and log2 inverting pow(2, .).
   */
  ghost predicate Exp2Laws(m: MathLib) {
    && m.exp2(0.0) == 1.0
    && m.exp2(8.0) == 256.0
    && (forall x, y :: x <= y ==> m.exp2(x) <= m.exp2(y))
    && (forall x :: m.log2(m.exp2(x)) == x)
    && (forall y :: y > 0.0 ==> m.exp2(m.log2(y)) == y)
  }

  /** floor(log10(x)) names the decade of a positive x. */
  ghost predicate Log10Law(m: MathLib) {
    forall x :: x > 0.0 ==>
      Pow10(m.log10(x).Floor) <= x < Pow10(m.log10(x).Floor + 1)
  }

  /** sin^2 + cos^2 == 1. */
  ghost predicate TrigLaw(m: MathLib) {
    forall h :: m.sinDeg(h) * m.sinDeg(h) + m.cosDeg(h) * m.cosDeg(h) == 1.0
  }
}
