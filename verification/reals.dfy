/** Facts about products of non-negative reals, used by the scrubber arithmetic. */
module Reals {
  /** Scaling by a factor in [0, 1] keeps a non-negative number between 0 and itself. */
  lemma ScaleDown(x: real, s: real)
    requires 0.0 <= x && 0.0 <= s <= 1.0
    ensures 0.0 <= x * s <= x
  {
    assert x * (1.0 - s) == x - x * s;
    assert 0.0 <= x * (1.0 - s);
  }

  /** Division by a non-zero number is undone by multiplying back. */
  lemma DivMul(x: real, d: real)
    requires d != 0.0
    ensures (x / d) * d == x
  {
  }
}
