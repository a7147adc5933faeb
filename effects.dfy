/**
 * The arithmetic of what a catch or a mystery-box choice does to the score and
 * the basket: the gain of a scoring catch (script.js:195, 202), the basket
 * re-roll of the Liquid Loan (script.js:203), Burn Debt (script.js:73) and
 * Proof of Repayment (script.js:96).
 */
module Effects {
  import opened Draws

  const MinBasket: real := 100.0
  const BasketSpread: real := 500.0
  const GambleOdds: real := 0.6

  /** `item.points * multiplier` */
  function Gain(points: nat, multiplier: int): (g: int)
    requires multiplier == 1 || multiplier == 2
    ensures 0 <= g
    ensures multiplier == 2 ==> g == 2 * Gain(points, 1)
    ensures multiplier == 1 ==> g == points
  {
    points * multiplier
  }

  /** `100 + Math.random() * 500`: the Liquid Loan's new basket width. */
  function RerolledWidth(u: real): (w: real)
    requires 0.0 <= u < 1.0
    ensures MinBasket <= w < MinBasket + BasketSpread
  {
    ScaledDrawRange(u, BasketSpread);
    MinBasket + u * BasketSpread
  }

  /** Different draws give different widths, so every width in [100, 600) is reachable. */
  lemma RerollReachesEveryWidth(w: real)
    requires MinBasket <= w < MinBasket + BasketSpread
    ensures exists u :: 0.0 <= u < 1.0 && RerolledWidth(u) == w
  {
    var u := (w - MinBasket) / BasketSpread;
    assert RerolledWidth(u) == w;
  }


  /**
   * `Math.floor(score * 0.75)`: Burn Debt keeps three quarters of the score,
   * rounded down. The floor is pinned by 4b <= 3s < 4b + 4.
   */
  function Burned(score: int): (b: int)
    ensures 4 * b <= 3 * score < 4 * b + 4
    ensures 0 <= score ==> 0 <= b <= score
  {
    (3 * score) / 4
  }

  /** Burn Debt on 1000 points leaves 750. */
  lemma BurnExample()
    ensures Burned(1000) == 750
  {
  }

  /**
   * `Math.random() < 0.6 ? score * 2 : Math.floor(score / 2)`: Proof of
   * Repayment doubles the score on a draw below 0.6 and halves it, rounded
   * down, otherwise.
   */
  function Gambled(score: int, u: real): (g: int)
    requires 0.0 <= u < 1.0
    ensures u < GambleOdds ==> g == 2 * score
    ensures GambleOdds <= u ==> 2 * g <= score < 2 * g + 2
    ensures 0 <= score ==> 0 <= g
  {
    if u < GambleOdds then score * 2 else score / 2
  }
}
