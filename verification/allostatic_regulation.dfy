/** The plain feedback regulator: each step draws a disturbance, switches the active
    baseline to the one nearest the current trajectory value, applies proportional
    recovery toward it and records the step. */
module AllostaticRegulation {
  import opened BaselineSet
  import Avalanche

  const RecoveryGain: real := 0.25
  const BurstProb: real := 0.05
  const BurstScale: real := 5.0

  /** Proportional recovery toward baseline `b`: one step of it shrinks the error by a
      quarter, and it vanishes exactly on the baseline. */
  function Recovery(z: real, b: real): (r: real)
    ensures (z + r) - b == 0.75 * (z - b)
    ensures r == 0.0 <==> z == b
  {
    -RecoveryGain * (z - b)
  }

  /** Without a disturbance the error keeps its sign and strictly shrinks. */
  lemma Contraction(z: real, b: real)
    ensures var e := z + Recovery(z, b) - b;
      Abs(e) == 0.75 * Abs(z - b)
      && (z != b ==> Abs(e) < Abs(z - b))
      && (e > 0.0 <==> z - b > 0.0) && (e < 0.0 <==> z - b < 0.0)
  {
  }

  /** Without a disturbance the trajectory stays in the region of the baseline it is
      tracking, so the next step does not switch: switching comes from shocks only. */
  lemma NoSwitchWithoutDisturbance(z: real)
    ensures Nearest(z + 0.0 + Recovery(z, Nearest(z))) == Nearest(z)
  {
  }

  /** The trajectory after `n` steps that draw no disturbance. */
  function Quiet(z: real, n: nat): real
    decreases n
  {
    if n == 0 then z
    else
      var x := Quiet(z, n - 1);
      x + 0.0 + Recovery(x, Nearest(x))
  }

  /** A run of quiet steps never leaves the starting baseline `b`; every step scales
      the error to `b` by 0.75, so the error never grows and never changes sign. */
  lemma {:induction false} QuietSettles(z: real, n: nat)
    ensures var b := Nearest(z);
      && Nearest(Quiet(z, n)) == b
      && Abs(Quiet(z, n) - b) <= Abs(z - b)
      && (Quiet(z, n) - b > 0.0 <==> z - b > 0.0)
      && (Quiet(z, n) - b < 0.0 <==> z - b < 0.0)
      && (n > 0 ==> Quiet(z, n) - b == 0.75 * (Quiet(z, n - 1) - b))
    decreases n
  {
    if n > 0 {
      QuietSettles(z, n - 1);
      var x := Quiet(z, n - 1);
      NoSwitchWithoutDisturbance(x);
      Contraction(x, Nearest(x));
    }
  }

  /** The simulation state of the script: trajectory, active baseline, three histories. */
  class Regulator {
    var systemState: real
    var currentBaseline: real
    var historyZ: seq<real>
    var historyBase: seq<real>
    var historyD: seq<real>

    ghost predicate Valid()
      reads this
    {
      currentBaseline in Baselines
      && |historyZ| == |historyD| && |historyBase| == |historyD|
      && forall i :: 0 <= i < |historyBase| ==> historyBase[i] in Baselines
    }

    constructor ()
      ensures Valid()
      ensures systemState == 0.0 && currentBaseline == 0.0
      ensures historyZ == [] && historyBase == [] && historyD == []
    {
      systemState := 0.0;
      currentBaseline := 0.0;
      historyZ, historyBase, historyD := [], [], [];
    }

    /** One frame of the animation. The baseline is chosen from the trajectory value
        before the update, so it lags the trajectory by one step. */
    method Update(burstDraw: real, u: real, signDraw: real)
      requires Valid() && 0.0 <= u <= 1.0
      modifies this
      ensures Valid()
      ensures var d := Avalanche.Disturbance(burstDraw, u, signDraw, BurstProb, BurstScale);
        && currentBaseline == Nearest(old(systemState))
        && systemState == old(systemState) + d + Recovery(old(systemState), currentBaseline)
        && historyZ == old(historyZ) + [systemState]
        && historyBase == old(historyBase) + [currentBaseline]
        && historyD == old(historyD) + [d]
    {
      var disturbance := Avalanche.Disturbance(burstDraw, u, signDraw, BurstProb, BurstScale);

      var closestBaseline := Nearest(systemState);
      if closestBaseline != currentBaseline {
        currentBaseline := closestBaseline;
      }

      var recovery := Recovery(systemState, currentBaseline);
      systemState := systemState + disturbance + recovery;

      historyZ := historyZ + [systemState];
      historyBase := historyBase + [currentBaseline];
      historyD := historyD + [disturbance];
    }
  }
}
