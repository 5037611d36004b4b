/** The sandpile-avalanche disturbance that every regulation script draws once per step.
    The three random numbers the scripts draw are parameters here: `burstDraw` and
    `signDraw` stand for the two `np.random.rand()` draws and `u` for the
    `np.random.power(alpha)` draw, which lies in [0, 1]. */
module Avalanche {
  import opened BaselineSet

  /** A fraction `u` of a non-negative scale lies between zero and the scale. */
  lemma FractionOfScale(u: real, scale: real)
    requires 0.0 <= u <= 1.0 && 0.0 <= scale
    ensures 0.0 <= scale * u <= scale
  {
    assert scale - scale * u == scale * (1.0 - u);
  }

  /** Zero unless the burst test `burstDraw < burstProb` passes; then a shock of size
      `scale * u`, positive when `signDraw > 0.5` and negative otherwise. */
  function Disturbance(burstDraw: real, u: real, signDraw: real, burstProb: real, scale: real): (d: real)
    requires 0.0 <= u <= 1.0 && 0.0 <= scale
    ensures -scale <= d <= scale
    ensures burstDraw >= burstProb ==> d == 0.0
    ensures burstDraw < burstProb ==> Abs(d) == scale * u
    ensures d > 0.0 ==> signDraw > 0.5
    ensures d < 0.0 ==> signDraw <= 0.5
  {
    if burstDraw < burstProb then
      FractionOfScale(u, scale);
      var magnitude := scale * u;
      if signDraw > 0.5 then magnitude else -magnitude
    else
      0.0
  }
}
