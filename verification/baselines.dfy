/** The set of homeostatic baselines shared by the three regulation scripts, and the
    nearest-baseline choice they all make: Python's `min(baselines, key=...)` in the
    feedback scripts and NumPy's `argmin` in the learning script. Both scan the list
    from the front and replace the current best only on a strictly smaller distance,
    so a tie goes to the earlier baseline. */
module BaselineSet {

  /** The baselines G, in list order. */
  const Baselines: seq<real> := [-4.0, 0.0, 4.0]

  function Abs(x: real): real {
    if x < 0.0 then -x else x
  }

  /** Index of the first element of `bs` at the smallest distance from `z`. */
  function NearestIndex(z: real, bs: seq<real>): (k: nat)
    requires |bs| > 0
    ensures k < |bs|
    ensures forall j :: 0 <= j < |bs| ==> Abs(z - bs[k]) <= Abs(z - bs[j])
    ensures forall j :: 0 <= j < k ==> Abs(z - bs[k]) < Abs(z - bs[j])
  {
    if |bs| == 1 then 0
    else
      var k := NearestIndex(z, bs[..|bs| - 1]);
      if Abs(z - bs[|bs| - 1]) < Abs(z - bs[k]) then |bs| - 1 else k
  }

  /** The nearest-baseline rule for the baselines above, in closed form: the regions are
      closed on the side of the earlier baseline, so the midpoints -2 and 2 go to -4
      and 0 respectively. */
  function Nearest(z: real): (b: real)
    ensures b in Baselines
  {
    if z <= -2.0 then -4.0 else if z <= 2.0 then 0.0 else 4.0
  }

  /** The closed form agrees with the scan the scripts run: it picks the first baseline
      at the smallest distance. */
  lemma NearestIsFirstMinimum(z: real)
    ensures Nearest(z) == Baselines[NearestIndex(z, Baselines)]
  {
    var k := NearestIndex(z, Baselines);
    assert Abs(z - Baselines[k]) <= Abs(z - Baselines[0]);
    assert Abs(z - Baselines[k]) <= Abs(z - Baselines[1]);
    assert Abs(z - Baselines[k]) <= Abs(z - Baselines[2]);
  }

  /** A point lies at distance zero from its nearest baseline exactly when it is one. */
  lemma NearestDistanceZero(z: real)
    ensures Abs(z - Nearest(z)) == 0.0 <==> z in Baselines
  {
  }

  /** At the midpoints the earlier baseline wins the tie. */
  lemma MidpointTieBreak()
    ensures Nearest(2.0) == 0.0 && Nearest(2.1) == 4.0 && Nearest(1.9) == 0.0
    ensures Nearest(-2.0) == -4.0 && Nearest(-1.9) == 0.0
  {
  }
}
