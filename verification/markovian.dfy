/** The tabular Q-learning regulator: the trajectory is discretised into 41 bins, an
    epsilon-greedy agent picks one of three fixed moves, and the one table cell for the
    pre-step bin and the chosen move is updated from a reward for being near a baseline
    after the move. */
module Markovian {
  import opened BaselineSet
  import Avalanche

  const NStates: nat := 41
  const NActions: nat := 3
  const LearningRate: real := 0.1
  const Discount: real := 0.9
  const Epsilon: real := 0.1
  const BurstProb: real := 0.05
  const BurstScale: real := 6.0
  /** Effect of each action on the trajectory (down, stay, up). */
  const ActionEffects: seq<real> := [-1.5, 0.0, 1.5]

  /** `np.clip(x, lo, hi)`. */
  function Clip(x: real, lo: real, hi: real): real {
    if x < lo then lo else if x > hi then hi else x
  }

  /** `int(np.clip((z + 10) * 2, 0, n_states - 1))`: the bin of `z`. The conversion to
      `int` truncates, and the clipped value is never negative, so it is the floor. */
  function StateIdx(z: real): (i: nat)
    ensures i < NStates
    ensures z <= -10.0 ==> i == 0
    ensures z >= 10.0 ==> i == NStates - 1
    ensures -10.0 <= z <= 10.0 ==> i as real <= (z + 10.0) * 2.0 < i as real + 1.0
  {
    Clip((z + 10.0) * 2.0, 0.0, (NStates - 1) as real).Floor
  }

  /** Larger trajectory values never land in a lower bin. */
  lemma StateIdxMonotone(z1: real, z2: real)
    requires z1 <= z2
    ensures StateIdx(z1) <= StateIdx(z2)
  {
  }

  /** Reference points of the discretisation; 0.4 shows that it truncates. */
  lemma StateIdxExamples()
    ensures StateIdx(-10.0) == 0 && StateIdx(0.0) == 20 && StateIdx(10.0) == 40
    ensures StateIdx(20.0) == 40 && StateIdx(0.4) == 20 && StateIdx(-30.0) == 0
  {
  }

  /** `np.argmax`: the first index holding the largest value. */
  function FirstArgMax(xs: seq<real>): (k: nat)
    requires |xs| > 0
    ensures k < |xs|
    ensures forall j :: 0 <= j < |xs| ==> xs[j] <= xs[k]
    ensures forall j :: 0 <= j < k ==> xs[j] < xs[k]
  {
    if |xs| == 1 then 0
    else
      var k := FirstArgMax(xs[..|xs| - 1]);
      if xs[|xs| - 1] > xs[k] then |xs| - 1 else k
  }

  /** `np.max`. */
  function MaxOf(xs: seq<real>): (m: real)
    requires |xs| > 0
    ensures m in xs
    ensures forall j :: 0 <= j < |xs| ==> xs[j] <= m
  {
    xs[FirstArgMax(xs)]
  }

  /** Epsilon-greedy choice: the random action when the exploration draw falls below
      epsilon, otherwise the first action of greatest value in the state's row. */
  function ChooseAction(exploreDraw: real, randomAction: nat, row: seq<real>): (a: nat)
    requires |row| == NActions && randomAction < NActions
    ensures a < NActions
    ensures exploreDraw < Epsilon ==> a == randomAction
    ensures exploreDraw >= Epsilon ==>
      (forall j :: 0 <= j < NActions ==> row[j] <= row[a])
      && (forall j :: 0 <= j < a ==> row[j] < row[a])
  {
    if exploreDraw < Epsilon then randomAction else FirstArgMax(row)
  }

  /** `1 / (1 + d^2) - 0.1` for the distance `d` to the nearest baseline. */
  function Reward(d: real): (r: real)
    ensures -0.1 < r <= 0.9
    ensures r == 0.9 <==> d == 0.0
  {
    ReciprocalOfSquare(d);
    1.0 / (1.0 + d * d) - 0.1
  }

  lemma ReciprocalOfSquare(d: real)
    ensures 0.0 < 1.0 / (1.0 + d * d) <= 1.0
    ensures 1.0 / (1.0 + d * d) == 1.0 <==> d == 0.0
  {
    var s := d * d;
    if d == 0.0 {
      assert s == 0.0;
    } else {
      SquareIncreasing(0.0, Abs(d));
      assert Abs(d) * Abs(d) == s;
      assert 0.0 * 0.0 == 0.0;
      ReciprocalDecreasing(1.0, 1.0 + s);
    }
    ReciprocalPositive(1.0 + s);
  }

  /** The reward strictly falls as the distance grows. */
  lemma RewardDecreasing(d1: real, d2: real)
    requires 0.0 <= d1 < d2
    ensures Reward(d2) < Reward(d1)
  {
    if d1 > 0.0 {
      SquareIncreasing(0.0, d1);
    }
    SquareIncreasing(d1, d2);
    ReciprocalDecreasing(1.0 + d1 * d1, 1.0 + d2 * d2);
  }

  lemma SquareIncreasing(x: real, y: real)
    requires 0.0 <= x < y
    ensures x * x < y * y
  {
    calc {
      x * x;
    <= { if x > 0.0 { MulIncreasing(x, y, x); } }
      x * y;
    < { MulIncreasing(x, y, y); }
      y * y;
    }
  }

  lemma MulIncreasing(x: real, y: real, c: real)
    requires x < y && c > 0.0
    ensures c * x < c * y && x * c < y * c
  {
  }

  lemma ReciprocalPositive(a: real)
    requires a > 0.0
    ensures 1.0 / a > 0.0 && (1.0 / a) * a == 1.0
  {
  }

  lemma ReciprocalDecreasing(a: real, b: real)
    requires 0.0 < a < b
    ensures 1.0 / b < 1.0 / a
  {
    var x, y := 1.0 / a, 1.0 / b;
    ReciprocalPositive(a);
    ReciprocalPositive(b);
    MulIncreasing(a, b, y);
    assert y * a < x * a;
    if y >= x {
      if y > x {
        MulIncreasing(x, y, a);
      }
      assert false;
    }
  }

  /** The reward of a trajectory value peaks, at 0.9, exactly on a baseline. */
  lemma RewardPeaksOnBaselines(z: real)
    ensures Reward(Abs(z - Nearest(z))) == 0.9 <==> z in Baselines
  {
    NearestDistanceZero(z);
  }

  /** The tabular Q-learning update of one cell. */
  function Learned(q: real, reward: real, bestFutureQ: real): (v: real)
    ensures q == 0.0 && bestFutureQ == 0.0 ==> v == LearningRate * reward
  {
    q + LearningRate * (reward + Discount * bestFutureQ - q)
  }

  /** The interval [-1, 9] (the reward bounds divided by 1 - gamma) is closed under the
      update. */
  lemma LearnedStaysBounded(q: real, reward: real, bestFutureQ: real)
    requires -1.0 <= q <= 9.0 && -1.0 <= bestFutureQ <= 9.0
    requires -0.1 < reward <= 0.9
    ensures -1.0 <= Learned(q, reward, bestFutureQ) <= 9.0
  {
  }

  class QLearner {
    var systemState: real
    const qTable: array2<real>
    var historyZ: seq<real>
    var historyBase: seq<real>
    var historyReward: seq<real>

    ghost predicate Valid()
      reads this
    {
      qTable.Length0 == NStates && qTable.Length1 == NActions
      && |historyZ| == |historyReward| && |historyBase| == |historyReward|
    }

    /** Row `i` of the table. */
    function Row(i: nat): (r: seq<real>)
      reads this, qTable
      requires Valid() && i < NStates
      ensures |r| == NActions
      ensures forall j :: 0 <= j < NActions ==> r[j] == qTable[i, j]
    {
      [qTable[i, 0], qTable[i, 1], qTable[i, 2]]
    }

    /** Every entry lies in [-1, 9]. */
    ghost predicate Bounded()
      reads this, qTable
      requires Valid()
    {
      forall i, j :: 0 <= i < NStates && 0 <= j < NActions ==> -1.0 <= qTable[i, j] <= 9.0
    }

    constructor ()
      ensures Valid() && fresh(qTable)
      ensures systemState == 0.0
      ensures forall i, j :: 0 <= i < NStates && 0 <= j < NActions ==> qTable[i, j] == 0.0
      ensures historyZ == [] && historyBase == [] && historyReward == []
    {
      systemState := 0.0;
      qTable := new real[NStates, NActions]((i, j) => 0.0);
      historyZ, historyBase, historyReward := [], [], [];
    }

    /** One frame of the animation. */
    method Update(burstDraw: real, u: real, signDraw: real, exploreDraw: real, randomAction: nat)
      requires Valid() && 0.0 <= u <= 1.0 && randomAction < NActions
      modifies this, qTable
      ensures Valid()
      ensures var s := StateIdx(old(systemState));
        var a := ChooseAction(exploreDraw, randomAction, old(Row(s)));
        var d := Avalanche.Disturbance(burstDraw, u, signDraw, BurstProb, BurstScale);
        var closest := Nearest(systemState);
        var reward := Reward(Abs(systemState - closest));
        var ns := StateIdx(systemState);
        && systemState == old(systemState) + d + ActionEffects[a]
        && qTable[s, a] == Learned(old(qTable[s, a]), reward, MaxOf(old(Row(ns))))
        && (forall i, j :: 0 <= i < NStates && 0 <= j < NActions && (i != s || j != a) ==>
              qTable[i, j] == old(qTable[i, j]))
        && historyZ == old(historyZ) + [systemState]
        && historyBase == old(historyBase) + [closest]
        && historyReward == old(historyReward) + [reward]
      ensures old(Bounded()) ==> Bounded()
    {
      // A. Disturbance
      var disturbance := Avalanche.Disturbance(burstDraw, u, signDraw, BurstProb, BurstScale);

      // B. Epsilon-greedy action selection
      var stateIdx := StateIdx(systemState);
      var actionIdx := ChooseAction(exploreDraw, randomAction, Row(stateIdx));
      var actionVal := ActionEffects[actionIdx];

      // C. System update
      systemState := systemState + disturbance + actionVal;
      var newStateIdx := StateIdx(systemState);

      // D. Reward for proximity to the nearest baseline
      var closestBase := Nearest(systemState);
      var distance := Abs(systemState - closestBase);
      var reward := Reward(distance);

      // E. Q-table update
      var bestFutureQ := MaxOf(Row(newStateIdx));
      ghost var wasBounded := Bounded();
      if wasBounded {
        LearnedStaysBounded(qTable[stateIdx, actionIdx], reward, bestFutureQ);
      }
      qTable[stateIdx, actionIdx] := Learned(qTable[stateIdx, actionIdx], reward, bestFutureQ);

      // F. History
      historyZ := historyZ + [systemState];
      historyBase := historyBase + [closestBase];
      historyReward := historyReward + [reward];
    }
  }
}
