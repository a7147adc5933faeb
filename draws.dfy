/**
 * Every `Math.random()` call of the game is a parameter of the model: a draw
 * `u` with 0 <= u < 1. The game only ever scales such a draw by a non-negative
 * amount.
 */
module Draws {

  /** A draw scaled by `total` lies in [0, total), and is 0 when the total is. */
  lemma ScaledDrawRange(u: real, total: real)
    requires 0.0 <= u < 1.0 && 0.0 <= total
    ensures 0.0 <= u * total
    ensures total > 0.0 ==> u * total < total
    ensures total == 0.0 ==> u * total == 0.0
  {
    if total > 0.0 {
      assert total - u * total == (1.0 - u) * total;
    }
  }
}
