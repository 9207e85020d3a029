/**
 * Monotonicity of multiplication and division over the reals, stated once
 * so that the nonlinear steps of the other proofs only instantiate them.
 */
module Arith {
  /** Multiplying both sides by a non-negative factor keeps an inequality. */
  lemma ScaleLe(c: real, a: real, b: real)
    requires 0.0 <= c && a <= b
    ensures c * a <= c * b
  {
  }

  /** Multiplying by a positive factor keeps a strict inequality. */
  lemma StrictScale(c: real, a: real, b: real)
    requires 0.0 < c && a < b
    ensures a * c < b * c
  {
  }

  /** Dividing by a positive N keeps an inequality with a product by N. */
  lemma DivideLe(x: real, y: real, n: real)
    requires n > 0.0 && x <= y * n
    ensures x / n <= y
  {
  }

  /** A quotient of a non-negative value by a positive one is non-negative. */
  lemma DivideNonNegative(x: real, n: real)
    requires n > 0.0 && 0.0 <= x
    ensures 0.0 <= x / n
  {
  }

  /** A quotient by a positive N of a value between 0 and `y * N` lies
      between 0 and `y`. */
  lemma QuotientWithin(x: real, y: real, n: real)
    requires n > 0.0 && 0.0 <= x <= y * n
    ensures 0.0 <= x / n <= y
  {
    DivideLe(x, y, n);
    DivideNonNegative(x, n);
  }

  /** `k` of `last` equal parts of a non-negative span lie within the span. */
  lemma PartOfSpan(span: real, k: real, last: real)
    requires 0.0 <= span && 0.0 <= k <= last && 0.0 < last
    ensures 0.0 <= k * (span / last) <= span
  {
    var step := span / last;
    DivideNonNegative(span, last);
    ScaleLe(step, 0.0, k);
    ScaleLe(step, k, last);
    assert step * last == span;
  }
}
