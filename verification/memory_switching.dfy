/** The feedback regulator with a memory window: the step of the plain regulator plus a
    correction that leans against the mean of the last W disturbances. */
module MemorySwitching {
  import opened BaselineSet
  import Avalanche
  import AllostaticRegulation

  const MemoryGain: real := 0.4
  const BurstProb: real := 0.06
  const BurstScale: real := 6.0
  /** Number of trailing steps the display shows. */
  const DisplayWidth: nat := 300

  function Min(a: nat, b: nat): nat {
    if a <= b then a else b
  }

  /** `h[-w:]` for a window width `w >= 1`: the last `min(w, |h|)` entries of `h`, in
      order; a window wider than the history takes all of it. */
  function Window(h: seq<real>, w: nat): (r: seq<real>)
    requires w >= 1
    ensures |r| == Min(w, |h|)
    ensures r == h[|h| - |r|..]
  {
    if w >= |h| then h else h[|h| - w..]
  }

  function Sum(xs: seq<real>): real {
    if xs == [] then 0.0 else xs[0] + Sum(xs[1..])
  }

  /** `np.mean(recent_p) if recent_p else 0.0`. */
  function Mean(xs: seq<real>): (m: real)
    ensures xs == [] ==> m == 0.0
  {
    if xs == [] then 0.0 else Sum(xs) / (|xs| as real)
  }

  /** The mean of an empty window is 0, and that of a non-empty one times its length is
      its sum. */
  lemma MeanTimesLength(xs: seq<real>)
    ensures xs == [] ==> Mean(xs) == 0.0
    ensures xs != [] ==> Mean(xs) * (|xs| as real) == Sum(xs)
  {
  }

  lemma {:induction false} SumBound(xs: seq<real>, bound: real)
    requires forall i :: 0 <= i < |xs| ==> Abs(xs[i]) <= bound
    ensures -((|xs| as real) * bound) <= Sum(xs) <= (|xs| as real) * bound
  {
    if xs != [] {
      var tail := xs[1..];
      assert forall i :: 0 <= i < |tail| ==> tail[i] == xs[i + 1];
      SumBound(tail, bound);
      SuccessorTimes(|tail| as real, bound);
      assert |xs| as real == |tail| as real + 1.0;
      assert Abs(xs[0]) <= bound;
    }
  }

  lemma SuccessorTimes(n: real, b: real)
    ensures (n + 1.0) * b == n * b + b
  {
  }

  /** A mean of values bounded by `bound` is bounded by `bound`. */
  lemma MeanBound(xs: seq<real>, bound: real)
    requires 0.0 <= bound
    requires forall i :: 0 <= i < |xs| ==> Abs(xs[i]) <= bound
    ensures Abs(Mean(xs)) <= bound
  {
    if xs != [] {
      SumBound(xs, bound);
      QuotientBound(Sum(xs), |xs| as real, bound);
    }
  }

  lemma QuotientBound(s: real, n: real, bound: real)
    requires n > 0.0 && -(n * bound) <= s <= n * bound
    ensures -bound <= s / n <= bound
  {
    var q := s / n;
    assert q * n == s;
    if q > bound {
      MulStrict(q, bound, n);
    }
    if q < -bound {
      MulStrict(-bound, q, n);
    }
  }

  lemma MulStrict(a: real, b: real, n: real)
    requires a > b && n > 0.0
    ensures a * n > b * n
  {
  }

  lemma {:induction false} SumConstant(xs: seq<real>, c: real)
    requires forall i :: 0 <= i < |xs| ==> xs[i] == c
    ensures Sum(xs) == (|xs| as real) * c
  {
    if xs != [] {
      SumConstant(xs[1..], c);
    }
  }

  /** The mean of a non-empty window of equal values is that value. */
  lemma MeanConstant(xs: seq<real>, c: real)
    requires xs != []
    requires forall i :: 0 <= i < |xs| ==> xs[i] == c
    ensures Mean(xs) == c
  {
    SumConstant(xs, c);
    MeanTimesLength(xs);
    var n := |xs| as real;
    assert Mean(xs) * n == c * n;
  }

  /** History [1, 1, 1, 1] with a window of 2 gives a correction of 1.0. */
  lemma MeanOfWindowExample()
    ensures Mean(Window([1.0, 1.0, 1.0, 1.0], 2)) == 1.0
  {
    var r := Window([1.0, 1.0, 1.0, 1.0], 2);
    assert r == [1.0, 1.0];
    MeanConstant(r, 1.0);
  }

  /** Appending the current disturbance before slicing makes the window non-empty and
      puts that disturbance last, so the empty-window fallback is never taken. */
  lemma WindowEndsWithNewest(h: seq<real>, d: real, w: nat)
    requires w >= 1
    ensures var r := Window(h + [d], w);
      r != [] && r[|r| - 1] == d
  {
  }

  /** Recovery of this variant: the plain proportional term plus the memory term. One
      step scales the error by 0.75 and then shifts it against the correction. */
  function Recovery(z: real, b: real, correction: real): (r: real)
    ensures (z + r) - b == 0.75 * (z - b) - MemoryGain * correction
    ensures correction == 0.0 ==> (z + r) - b == 0.75 * (z - b)
  {
    AllostaticRegulation.Recovery(z, b) - MemoryGain * correction
  }

  /** `max(0, n - 300)`: where the displayed suffix of a history of length `n` starts. */
  function DisplayStart(n: nat): (s: nat)
    ensures s <= n
    ensures n - s == Min(n, DisplayWidth)
  {
    if n > DisplayWidth then n - DisplayWidth else 0
  }

  /** Every disturbance of a history lies within the burst scale. */
  ghost predicate DisturbancesBounded(h: seq<real>) {
    forall i :: 0 <= i < |h| ==> Abs(h[i]) <= BurstScale
  }

  /** Appending a disturbance within the burst scale keeps a history bounded. */
  lemma AppendBounded(h: seq<real>, d: real)
    requires DisturbancesBounded(h) && Abs(d) <= BurstScale
    ensures DisturbancesBounded(h + [d])
  {
    forall i | 0 <= i < |h + [d]|
      ensures Abs((h + [d])[i]) <= BurstScale
    {
      if i < |h| {
        assert (h + [d])[i] == h[i];
      }
    }
  }

  class MemoryRegulator {
    var systemState: real
    var currentBaseline: real
    var historyZ: seq<real>
    var historyBase: seq<real>
    var historyD: seq<real>

    ghost predicate Valid()
      reads this
    {
      currentBaseline in Baselines
      && |historyZ| == |historyD| && |historyBase| == |historyD|
      && DisturbancesBounded(historyD)
    }

    constructor ()
      ensures Valid()
      ensures systemState == 0.0 && currentBaseline == 0.0
      ensures historyZ == [] && historyBase == [] && historyD == []
    {
      systemState := 0.0;
      currentBaseline := 0.0;
      historyZ, historyBase, historyD := [], [], [];
    }

    /** Current memory correction for window width `w`. */
    function Correction(w: nat): (c: real)
      reads this`historyD
      requires DisturbancesBounded(historyD) && w >= 1
      ensures Abs(c) <= BurstScale
    {
      MeanBound(Window(historyD, w), BurstScale);
      Mean(Window(historyD, w))
    }

    /** One frame of the animation, reading the slider's window width `w` afresh. */
    method Update(w: nat, burstDraw: real, u: real, signDraw: real)
      requires Valid() && 1 <= w <= 100 && 0.0 <= u <= 1.0
      modifies this
      ensures Valid()
      ensures var d := Avalanche.Disturbance(burstDraw, u, signDraw, BurstProb, BurstScale);
        && historyD == old(historyD) + [d]
        && currentBaseline == Nearest(old(systemState))
        && systemState == old(systemState) + d + Recovery(old(systemState), currentBaseline, Correction(w))
        && historyZ == old(historyZ) + [systemState]
        && historyBase == old(historyBase) + [currentBaseline]
      ensures var r := Window(historyD, w);
        r != [] && r[|r| - 1] == historyD[|historyD| - 1]
    {
      var memWindow := w;

      var disturbance := Avalanche.Disturbance(burstDraw, u, signDraw, BurstProb, BurstScale);
      AppendBounded(historyD, disturbance);
      historyD := historyD + [disturbance];

      var closestBaseline := Nearest(systemState);
      if closestBaseline != currentBaseline {
        currentBaseline := closestBaseline;
      }

      var memoryCorrection := Correction(memWindow);

      var recovery := Recovery(systemState, currentBaseline, memoryCorrection);
      systemState := systemState + disturbance + recovery;
      historyZ := historyZ + [systemState];
      historyBase := historyBase + [currentBaseline];
      WindowEndsWithNewest(old(historyD), disturbance, w);
    }
  }
}
