/**
 * Small facts about real arithmetic that the solver does not find on its
 * own, shared by the scroll-stack and counter models.
 */
module RealFacts {

  /** Products of ordered non-negative factors are ordered. */
  lemma MulMonotone(a: real, b: real, c: real, d: real)
    requires 0.0 <= a <= b && 0.0 <= c <= d
    ensures 0.0 <= a * c <= b * d
  {
    assert a * c <= b * c;
    assert b * c <= b * d;
  }

  /** A product of non-negative factors is non-negative. */
  lemma MulNonNegative(a: real, b: real)
    requires 0.0 <= a && 0.0 <= b
    ensures 0.0 <= a * b
  {
  }

  /** The floor never goes back as its argument grows. */
  lemma FloorMonotone(x: real, y: real)
    requires x <= y
    ensures x.Floor <= y.Floor
  {
  }
}
