/**
 * The parts of JavaScript's `Math` object that the analytics code uses, on
 * mathematical reals (IEEE rounding is not modelled).
 */
module JsMath {

  /** `Math.floor`. */
  function Floor(x: real): (r: int)
    ensures r as real <= x < r as real + 1.0
  {
    x.Floor
  }

  /** `Math.round`: the nearest integer, halves rounded towards +infinity. */
  function Round(x: real): (r: int)
    ensures r as real - 0.5 <= x < r as real + 0.5
  {
    Floor(x + 0.5)
  }

  /** `Math.min` of two numbers. */
  function MinR(a: real, b: real): (r: real)
    ensures r <= a && r <= b && (r == a || r == b)
  {
    if a <= b then a else b
  }

  /** `Math.max` of two numbers. */
  function MaxR(a: real, b: real): (r: real)
    ensures r >= a && r >= b && (r == a || r == b)
  {
    if a >= b then a else b
  }

  /** `Math.max(0, Math.min(100, x))`, and equally `Math.min(100, Math.max(0, x))`. */
  function Clamp100(x: real): (r: real)
    ensures 0.0 <= r <= 100.0
    ensures 0.0 <= x <= 100.0 ==> r == x
    ensures x < 0.0 ==> r == 0.0
    ensures x > 100.0 ==> r == 100.0
  {
    MinR(100.0, MaxR(0.0, x))
  }

  /** `Math.round` keeps order. */
  lemma RoundMonotone(x: real, y: real)
    requires x <= y
    ensures Round(x) <= Round(y)
  {
  }

  /** Round stays inside an interval with integral ends. */
  lemma RoundWithin(x: real, lo: int, hi: int)
    requires lo as real <= x <= hi as real
    ensures lo <= Round(x) <= hi
  {
  }

  /** A quotient of integers with |a| <= b lies in [-1, 1]. */
  lemma RatioWithinUnit(a: int, b: int)
    requires 0 < b && -b <= a <= b
    ensures -1.0 <= a as real / b as real <= 1.0
  {
  }

  /** A quotient of naturals with a <= b lies in [0, 1]. */
  lemma FractionWithinUnit(a: nat, b: nat)
    requires 0 < b && a <= b
    ensures 0.0 <= a as real / b as real <= 1.0
  {
    RatioWithinUnit(a, b);
  }

  /** Dividing by a positive number keeps order. */
  lemma DivLe(a: real, b: real, n: real)
    requires n > 0.0
    ensures a / n <= b / n <==> a <= b
  {
  }

  /** Scaling a quotient scales its numerator. */
  lemma MulDiv(a: real, n: real, c: real)
    requires n > 0.0
    ensures (a / n) * c == a * c / n
  {
  }
}
