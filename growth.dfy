/**
 * The score-driven difficulty curve recomputed by `updateGrowth`
 * (script.js:219-228) and the spawn-tick arithmetic of `dropLoop`
 * (script.js:144, 148).
 */
module Growth {
  import opened Draws

  const MinLogo: real := 100.0
  const MaxLogo: real := 300.0
  /** Points per speed band: every full band adds 15% to the fall speed. */
  const SpeedBand: int := 500
  const SpeedStep: real := 0.15

  /** `Math.min(300, 100 + score / 20)` */
  function LogoSizeFor(score: int): (r: real)
    ensures r <= MaxLogo
    ensures 0 <= score ==> MinLogo <= r
    ensures score <= 4000 ==> r == MinLogo + score as real / 20.0
    ensures 4000 <= score ==> r == MaxLogo
  {
    var grown := MinLogo + score as real / 20.0;
    if grown < MaxLogo then grown else MaxLogo
  }

  lemma LogoSizeMonotone(a: int, b: int)
    requires a <= b
    ensures LogoSizeFor(a) <= LogoSizeFor(b)
  {
  }

  /** `1 + Math.floor(score / 500) * 0.15`; Dafny's `/` on a positive divisor is the floor. */
  function SpeedFor(score: int): (r: real)
    ensures 0 <= score ==> 1.0 <= r
    ensures 0 <= score < SpeedBand ==> r == 1.0
  {
    1.0 + (score / SpeedBand) as real * SpeedStep
  }

  /** A score in band `k` (500k <= score < 500(k+1)) gives a speed multiplier of exactly 1 + 0.15k. */
  lemma SpeedInBand(score: int, k: int)
    requires SpeedBand * k <= score < SpeedBand * (k + 1)
    ensures SpeedFor(score) == 1.0 + k as real * SpeedStep
  {
  }

  /** Five hundred more points always add exactly one speed step. */
  lemma SpeedStepUp(score: int)
    ensures SpeedFor(score + SpeedBand) == SpeedFor(score) + SpeedStep
  {
    var k := score / SpeedBand;
    SpeedInBand(score, k);
    SpeedInBand(score + SpeedBand, k + 1);
  }

  /** The speed multiplier never decreases as the score grows. */
  lemma SpeedMonotone(a: int, b: int)
    requires a <= b
    ensures SpeedFor(a) <= SpeedFor(b)
  {
    var ka, kb := a / SpeedBand, b / SpeedBand;
    SpeedInBand(a, ka);
    SpeedInBand(b, kb);
  }

  /** The worked values of the difficulty curve. */
  lemma SpeedExamples()
    ensures SpeedFor(499) == 1.0 && SpeedFor(500) == 1.15
    ensures SpeedFor(999) == 1.15 && SpeedFor(1000) == 1.3
    ensures SpeedFor(1999) == 1.45 && SpeedFor(2000) == 1.6
  {
  }

  /** `5 + Math.floor(Math.random() * 3)`: how many items one spawn tick drops. */
  function SpawnCount(u: real): (n: int)
    requires 0.0 <= u < 1.0
    ensures 5 <= n <= 7
    ensures (n - 5) as real <= u * 3.0 < (n - 4) as real
  {
    5 + (u * 3.0).Floor
  }

  /** `Math.random() * dropInterval + 500`: the delay before the next spawn tick. */
  function NextDropDelay(u: real, dropInterval: int): (d: real)
    requires 0.0 <= u < 1.0 && 0 < dropInterval
    ensures 500.0 <= d < 500.0 + dropInterval as real
  {
    ScaledDrawRange(u, dropInterval as real);
    u * dropInterval as real + 500.0
  }
}
