/**
 * Small facts about real multiplication that the screens' percentage and average
 * computations rely on, stated once so that each use is a single step.
 */
module RealArith {
  /** Casting a product of integers is the product of the casts. */
  lemma CastProduct(a: int, b: int)
    ensures (a * b) as real == a as real * b as real
  {
  }

  /** A positive factor can be cancelled from both sides of `<=`. */
  lemma CancelPositiveAtMost(a: real, b: real, c: real)
    requires c > 0.0 && a * c <= b * c
    ensures a <= b
  {
  }

  /** A positive factor can be cancelled from both sides of `<`. */
  lemma CancelPositiveLess(a: real, b: real, c: real)
    requires c > 0.0 && a * c < b * c
    ensures a < b
  {
  }

  /** Dividing by a positive number and multiplying back gives the number. */
  lemma DivideThenMultiply(a: real, c: real)
    requires c > 0.0
    ensures a / c * c == a
  {
  }
}
