/** Facts about products and quotients of reals that the solver does not
    find by itself. */
module RealArith {

  lemma ProductPositive(a: real, b: real)
    requires a > 0.0 && b > 0.0
    ensures a * b > 0.0
  {
  }

  lemma ProductNonNegative(a: real, b: real)
    requires a >= 0.0 && b >= 0.0
    ensures a * b >= 0.0
  {
  }

  lemma QuotientPositive(a: real, b: real)
    requires a > 0.0 && b > 0.0
    ensures a / b > 0.0
  {
  }

  /** Multiplying both sides by a positive factor keeps a strict inequality. */
  lemma ScaleByPositive(a: real, b: real, c: real)
    requires c > 0.0
    ensures a < b <==> a * c < b * c
  {
  }

  lemma RatioOfProductsPositive(a: real, b: real, c: real, d: real)
    requires a > 0.0 && b > 0.0 && c > 0.0 && d > 0.0
    ensures a * b > 0.0 && c * d > 0.0
    ensures (a * b) / (c * d) > 0.0
  {
    ProductPositive(a, b);
    ProductPositive(c, d);
    QuotientPositive(a * b, c * d);
  }
}
