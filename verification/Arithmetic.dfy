/** Multiplication and division by a positive number, as far as block rounding and binning need them. */
module Arithmetic {

  lemma Scaled(x: int, y: int, d: int)
    requires d > 0
    ensures x < y ==> x * d + d <= y * d
    ensures x <= y ==> x * d <= y * d
  {
    if x < y {
      assert (y - x - 1) * d >= 0;
    }
  }

  lemma DivisionBounds(a: int, d: int)
    requires d > 0
    ensures a / d * d <= a < a / d * d + d
  {
  }

  /** A quotient is the one number whose multiple a lies within one divisor above. */
  lemma Quotient(a: int, d: int, q: int)
    requires d > 0
    ensures a / d * d <= a < a / d * d + d
    ensures q * d <= a < q * d + d <==> a / d == q
  {
    Scaled(a / d, q, d);
    Scaled(q, a / d, d);
  }
}
