/** Order facts about products and quotients of reals, stated as lemmas so
    that a proof can bring each in at the step that needs it. */
module RealArith {

  /** Dividing a positive number by a larger divisor gives less. */
  lemma DivideByLarger(x: real, a: real, b: real)
    requires x > 0.0 && 0.0 < a < b
    ensures x / b < x / a
  {
  }

  lemma PositiveProduct(x: real, y: real)
    requires x > 0.0 && y > 0.0
    ensures x * y > 0.0
  {
  }
}
