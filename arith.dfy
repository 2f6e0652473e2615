/** Facts about multiplication of reals that the solver does not find alone. */
module RealArith {

  lemma MulNonNegative(a: real, b: real)
    requires 0.0 <= a && 0.0 <= b
    ensures 0.0 <= a * b
  {
  }

  /** Multiplying by a non-negative factor keeps an order. */
  lemma MulMonotone(a: real, b: real, c: real)
    requires a <= b && 0.0 <= c
    ensures a * c <= b * c
  {
    MulNonNegative(b - a, c);
    assert b * c - a * c == (b - a) * c;
  }

  /** `n * q` lies in `[0, n]` for a fraction `q`. */
  lemma ScaledFraction(n: real, q: real)
    requires 0.0 <= n && 0.0 <= q <= 1.0
    ensures 0.0 <= n * q <= n
  {
    MulNonNegative(n, q);
    MulMonotone(q, 1.0, n);
  }
}
