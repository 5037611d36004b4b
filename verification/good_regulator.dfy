/** The rock/paper/scissors illustration of the good-regulator argument: a system that
    cycles through three states, an internal model that counts observed transitions
    and predicts the most frequent successor, and a regulator that plays the move
    beating the prediction. */
module GoodRegulator {

  datatype RPS = Rock | Paper | Scissors

  datatype Outcome = Win | Tie | Loss

  datatype Option<T> = None | Some(value: T)

  /** The system's list of states, in order; it is also the key order of every row of
      the transition table. */
  const States: seq<RPS> := [Rock, Paper, Scissors]

  /** `states.index(s)`. */
  function IndexOf(s: RPS): (i: nat)
    ensures i < |States| && States[i] == s
  {
    match s
    case Rock => 0
    case Paper => 1
    case Scissors => 2
  }

  /** The state after `s` in the system's cycle; the system never stays put. */
  function Next(s: RPS): (t: RPS)
    ensures t != s
  {
    match s
    case Rock => Paper
    case Paper => Scissors
    case Scissors => Rock
  }

  /** `Next` is the system's move: the state one place further along `States`,
      wrapping around at the end; it never stays put. */
  lemma NextIsIndexStep(s: RPS)
    ensures Next(s) == States[(IndexOf(s) + 1) % 3]
    ensures Next(s) != s
  {
  }

  /** Three moves of the system bring it back to where it started. */
  lemma NextCycle(s: RPS)
    ensures Next(Next(Next(s))) == s
  {
  }

  /** The `beats` table: `Beats(a)` is the state that `a` beats. Nothing beats itself,
      and `a` beats the state the cycle leaves to reach `a`. */
  function Beats(a: RPS): (b: RPS)
    ensures b != a
    ensures Next(b) == a
  {
    match a
    case Rock => Scissors
    case Paper => Rock
    case Scissors => Paper
  }

  /** `beats` is a three-cycle: nothing beats itself, every state is beaten by exactly
      one state, and the state a system move leaves behind is the one its successor
      beats. */
  lemma BeatsIsThreeCycle(a: RPS, b: RPS)
    ensures Beats(a) != a
    ensures Beats(a) == Beats(b) ==> a == b
    ensures Beats(Next(a)) == a
    ensures Beats(Beats(Beats(a))) == a
  {
  }

  /** `counter_moves`: the move to play against `x`. It always beats `x`. */
  function CounterMove(x: RPS): (y: RPS)
    ensures Beats(y) == x
    ensures y == Next(x)
  {
    match x
    case Rock => Paper
    case Paper => Scissors
    case Scissors => Rock
  }

  /** The outcome of playing `action` against the system's `actual` state: exactly one
      of win, tie and loss. */
  function Classify(action: RPS, actual: RPS): (o: Outcome)
    ensures o == Win <==> Beats(action) == actual
    ensures o == Tie <==> action == actual
    ensures o == Loss <==> Beats(action) != actual && action != actual
  {
    if Beats(action) == actual then Win
    else if action == actual then Tie
    else Loss
  }

  /** A row of the transition table holds a count for every state. */
  predicate CompleteRow(row: map<RPS, nat>) {
    forall b: RPS :: b in row
  }

  /** The transition table holds a complete row for each of the three states. */
  predicate CompleteTable(t: map<RPS, map<RPS, nat>>) {
    Rock in t && Paper in t && Scissors in t
    && CompleteRow(t[Rock]) && CompleteRow(t[Paper]) && CompleteRow(t[Scissors])
  }

  /** A complete table has a complete row for every state. */
  lemma TableRow(t: map<RPS, map<RPS, nat>>, a: RPS)
    requires CompleteTable(t)
    ensures a in t && CompleteRow(t[a])
  {
    match a
    case Rock =>
    case Paper =>
    case Scissors =>
  }

  /** `transitions[a]`: the row of counts out of `a`. */
  function Row(t: map<RPS, map<RPS, nat>>, a: RPS): (row: map<RPS, nat>)
    requires CompleteTable(t)
    ensures CompleteRow(row)
  {
    TableRow(t, a);
    t[a]
  }

  /** A map that has the three states as keys has every state as a key. */
  lemma ThreeKeys<V>(m: map<RPS, V>)
    requires Rock in m && Paper in m && Scissors in m
    ensures forall b: RPS :: b in m
  {
    forall b: RPS
      ensures b in m
    {
      match b
      case Rock =>
      case Paper =>
      case Scissors =>
    }
  }

  /** A bound on the three counts of a row bounds every count of it. */
  lemma RowBound(row: map<RPS, nat>, m: nat)
    requires CompleteRow(row)
    requires row[Rock] <= m && row[Paper] <= m && row[Scissors] <= m
    ensures forall b: RPS :: row[b] <= m
  {
    forall b: RPS
      ensures row[b] <= m
    {
      match b
      case Rock =>
      case Paper =>
      case Scissors =>
    }
  }

  /** `max(row, key=row.get)`: the first key, in table order, of greatest count. */
  function MostFrequent(row: map<RPS, nat>): (p: RPS)
    requires CompleteRow(row)
    ensures forall b: RPS :: row[b] <= row[p]
    ensures forall b: RPS :: IndexOf(b) < IndexOf(p) ==> row[b] < row[p]
  {
    var best := Rock;
    var best := if row[Paper] > row[best] then Paper else best;
    var best := if row[Scissors] > row[best] then Scissors else best;
    RowBound(row, row[best]);
    best
  }

  class NonTransitiveSystem {
    var currentState: RPS

    constructor ()
      ensures currentState == Rock
    {
      currentState := Rock;
    }

    /** Moves the system one step along its cycle and returns the new state. */
    method GetNextState() returns (s: RPS)
      modifies this
      ensures currentState == Next(old(currentState))
      ensures s == currentState
    {
      var idx := (IndexOf(currentState) + 1) % 3;
      NextIsIndexStep(currentState);
      currentState := States[idx];
      return currentState;
    }
  }

  class InternalModel {
    var transitions: map<RPS, map<RPS, nat>>
    var lastObserved: Option<RPS>
    /** Number of observations so far. */
    ghost var observations: nat

    ghost predicate Valid()
      reads this
    {
      CompleteTable(transitions)
      && (lastObserved.None? <==> observations == 0)
      && TableTotal(transitions) + 1 == (if observations == 0 then 1 else observations)
    }

    /** Count of observed transitions from `a` to `b`. */
    function Count(a: RPS, b: RPS): nat
      reads this
      requires CompleteTable(transitions)
    {
      Row(transitions, a)[b]
    }

    constructor ()
      ensures Valid()
      ensures lastObserved == None && observations == 0
      ensures forall a: RPS, b: RPS :: Count(a, b) == 0
    {
      var zero := map[Rock := 0, Paper := 0, Scissors := 0];
      ThreeKeys(zero);
      var table := map[Rock := zero, Paper := zero, Scissors := zero];
      ThreeKeys(table);
      transitions := table;
      lastObserved := None;
      observations := 0;
    }

    /** Records an observation: counts the transition from the previous observation,
        if there was one, and remembers this one. */
    method Update(obs: RPS)
      requires Valid()
      modifies this
      ensures Valid()
      ensures lastObserved == Some(obs)
      ensures observations == old(observations) + 1
      ensures transitions ==
        if old(lastObserved).Some? then Increment(old(transitions), old(lastObserved).value, obs)
        else old(transitions)
    {
      if lastObserved.Some? {
        IncrementTotal(transitions, lastObserved.value, obs);
        transitions := Increment(transitions, lastObserved.value, obs);
      }
      lastObserved := Some(obs);
      observations := observations + 1;
    }

    /** The predicted next state: Rock before any observation, otherwise the most
        frequent successor of the last observed state, ties going to the first state
        in table order. */
    function PredictNext(): (p: RPS)
      reads this
      requires Valid()
      ensures lastObserved.None? ==> p == Rock
      ensures lastObserved.Some? ==>
        (forall b: RPS :: Count(lastObserved.value, b) <= Count(lastObserved.value, p))
        && (forall b: RPS :: IndexOf(b) < IndexOf(p) ==> Count(lastObserved.value, b) < Count(lastObserved.value, p))
    {
      match lastObserved
      case None => Rock
      case Some(last) => MostFrequent(Row(transitions, last))
    }
  }

  function RowTotal(row: map<RPS, nat>): nat
    requires CompleteRow(row)
  {
    row[Rock] + row[Paper] + row[Scissors]
  }

  /** Sum of all nine counts. */
  function TableTotal(t: map<RPS, map<RPS, nat>>): nat
    requires CompleteTable(t)
  {
    RowTotal(t[Rock]) + RowTotal(t[Paper]) + RowTotal(t[Scissors])
  }

  /** `t[a][b] += 1`: adds one to cell (a, b) and changes no other cell. */
  function Increment(t: map<RPS, map<RPS, nat>>, a: RPS, b: RPS): (u: map<RPS, map<RPS, nat>>)
    requires CompleteTable(t)
    ensures CompleteTable(u)
    ensures forall x: RPS, y: RPS :: Row(u, x)[y] == Row(t, x)[y] + (if x == a && y == b then 1 else 0)
  {
    var row := Row(t, a);
    t[a := row[b := row[b] + 1]]
  }

  /** Each increment adds one to the total count. */
  lemma IncrementTotal(t: map<RPS, map<RPS, nat>>, a: RPS, b: RPS)
    requires CompleteTable(t)
    ensures TableTotal(Increment(t, a, b)) == TableTotal(t) + 1
  {
    var u := Increment(t, a, b);
    match a
    case Rock =>
      assert u[Paper] == t[Paper] && u[Scissors] == t[Scissors];
    case Paper =>
      assert u[Rock] == t[Rock] && u[Scissors] == t[Scissors];
    case Scissors =>
      assert u[Rock] == t[Rock] && u[Paper] == t[Paper];
  }

  class Regulator {
    const model: InternalModel

    constructor ()
      ensures fresh(model) && model.Valid()
      ensures model.lastObserved == None && model.observations == 0
      ensures forall a: RPS, b: RPS :: model.Count(a, b) == 0
    {
      model := new InternalModel();
    }

    /** The counter-move to the model's prediction; it beats the prediction. */
    function SelectAction(): (a: RPS)
      reads model
      requires model.Valid()
      ensures Beats(a) == model.PredictNext()
    {
      CounterMove(model.PredictNext())
    }
  }

  /** System state after `k` moves from Rock. */
  function Cycle(k: nat): RPS {
    if k == 0 then Rock else Next(Cycle(k - 1))
  }

  /** The counts after `k` rounds of the simulation: only the three transitions of the
      cycle are ever counted, Paper to Scissors from round 2 on, Scissors to Rock from
      round 3 on and Rock to Paper from round 4 on. */
  ghost predicate CountsAfter(t: map<RPS, map<RPS, nat>>, k: nat)
    requires CompleteTable(t)
  {
    Row(t, Rock)[Rock] == 0 && Row(t, Rock)[Scissors] == 0 && (Row(t, Rock)[Paper] > 0 <==> k >= 4)
    && Row(t, Paper)[Paper] == 0 && Row(t, Paper)[Rock] == 0 && (Row(t, Paper)[Scissors] > 0 <==> k >= 2)
    && Row(t, Scissors)[Scissors] == 0 && Row(t, Scissors)[Paper] == 0 && (Row(t, Scissors)[Rock] > 0 <==> k >= 3)
  }

  /** The round from which the model has counted the transition out of `a`. */
  function FirstCounted(a: RPS): nat {
    match a
    case Paper => 2
    case Scissors => 3
    case Rock => 4
  }

  /** `CountsAfter` read state by state: a transition off the cycle is never counted, and
      the one out of `a` is counted from round `FirstCounted(a)` on. */
  lemma CountsAfterByState(t: map<RPS, map<RPS, nat>>, k: nat)
    requires CompleteTable(t)
    ensures CountsAfter(t, k) <==>
      (forall a: RPS, b: RPS :: b != Next(a) ==> Row(t, a)[b] == 0)
      && (forall a: RPS :: Row(t, a)[Next(a)] > 0 <==> k >= FirstCounted(a))
  {
    if CountsAfter(t, k) {
      forall a: RPS, b: RPS | b != Next(a)
        ensures Row(t, a)[b] == 0
      {
        match a
        case Rock =>
        case Paper =>
        case Scissors =>
      }
      forall a: RPS
        ensures Row(t, a)[Next(a)] > 0 <==> k >= FirstCounted(a)
      {
        match a
        case Rock =>
        case Paper =>
        case Scissors =>
      }
    }
  }

  /** What the model predicts after `k >= 1` rounds: the default Rock until the cycle has
      been seen once around, then the system's true next state. */
  lemma {:induction false} PredictionAfter(t: map<RPS, map<RPS, nat>>, k: nat)
    requires CompleteTable(t) && CountsAfter(t, k) && k >= 1
    ensures MostFrequent(Row(t, Cycle(k))) == if k >= 4 then Cycle(k + 1) else Rock
  {
    CountsAfterByState(t, k);
    var last := Cycle(k);
    var row := Row(t, last);
    var p := MostFrequent(row);
    if k >= 4 {
      assert row[Next(last)] > 0;
      assert row[p] > 0;
    } else {
      assert k == 1 || k == 2 || k == 3;
      assert k < FirstCounted(last);
      assert row[p] == 0;
    }
  }

  /** The first rounds of the cycle, and the earliest rounds at which Scissors and Rock
      are observed again. */
  lemma CycleStart(k: nat)
    ensures Cycle(1) == Paper && Cycle(2) == Scissors && Cycle(3) == Rock
    ensures Cycle(k) == Scissors ==> k >= 2
    ensures Cycle(k) == Rock && k >= 1 ==> k >= 3
  {
    if k < 3 {
      assert k == 0 || k == 1 || k == 2;
    }
  }

  /** One round of the simulation adds the transition it observes to the counts. */
  lemma {:induction false} CountsStep(t: map<RPS, map<RPS, nat>>, u: map<RPS, map<RPS, nat>>, k: nat)
    requires CompleteTable(t) && CompleteTable(u) && CountsAfter(t, k)
    requires u == if k >= 1 then Increment(t, Cycle(k), Next(Cycle(k))) else t
    ensures CountsAfter(u, k + 1)
  {
    if k >= 1 {
      CycleStart(k);
      match Cycle(k)
      case Rock =>
      case Paper =>
      case Scissors =>
    }
  }

  /** Wins after `n` rounds: the third round wins by the default prediction, and from
      the fifth on every round wins. */
  function ExpectedWins(n: nat): nat {
    if n <= 2 then 0 else if n <= 4 then 1 else n - 3
  }

  /** The prediction for round `k + 1`. */
  function Predicted(k: nat): RPS {
    if k >= 4 then Cycle(k + 1) else Rock
  }

  /** Round `k + 1` scores a win exactly when `ExpectedWins` goes up. */
  lemma {:induction false} RoundScore(k: nat)
    ensures ExpectedWins(k + 1) ==
      ExpectedWins(k) + (if Classify(CounterMove(Predicted(k)), Cycle(k + 1)) == Win then 1 else 0)
  {
    if k < 4 {
      assert k == 0 || k == 1 || k == 2 || k == 3;
    }
  }

  /** The state of system and model after `k` rounds of the simulation loop. */
  ghost predicate AfterRounds(system: NonTransitiveSystem, model: InternalModel, k: nat)
    reads system, model
  {
    model.Valid()
    && system.currentState == Cycle(k)
    && model.lastObserved == (if k == 0 then None else Some(system.currentState))
    && CountsAfter(model.transitions, k)
  }

  /** The game's set-up: a system at Rock and a regulator whose model has seen nothing,
      which is the state after zero rounds. */
  method NewGame() returns (system: NonTransitiveSystem, regulator: Regulator)
    ensures fresh(system) && fresh(regulator) && fresh(regulator.model)
    ensures AfterRounds(system, regulator.model, 0)
  {
    system := new NonTransitiveSystem();
    regulator := new Regulator();
  }

  /** One pass of the simulation loop's body: predict, act, let the system move,
      observe, classify. */
  method PlayRound(system: NonTransitiveSystem, regulator: Regulator, ghost k: nat) returns (outcome: Outcome)
    requires AfterRounds(system, regulator.model, k)
    modifies system, regulator.model
    ensures AfterRounds(system, regulator.model, k + 1)
    ensures ExpectedWins(k + 1) == ExpectedWins(k) + (if outcome == Win then 1 else 0)
  {
    var model := regulator.model;
    if k >= 1 {
      PredictionAfter(model.transitions, k);
    }
    var prediction := model.PredictNext();
    assert prediction == Predicted(k);
    var action := regulator.SelectAction();
    ghost var before := model.transitions;
    var actual := system.GetNextState();
    model.Update(actual);
    CountsStep(before, model.transitions, k);
    outcome := Classify(action, actual);
    RoundScore(k);
  }

  /** The simulation loop: `steps` rounds, counting the wins. */
  method Simulate(steps: nat) returns (wins: nat)
    ensures wins == ExpectedWins(steps)
    ensures steps == 10 ==> wins == 7
  {
    var system, regulator := NewGame();
    wins := 0;
    var step := 0;
    while step < steps
      invariant 0 <= step <= steps
      invariant AfterRounds(system, regulator.model, step)
      invariant wins == ExpectedWins(step)
    {
      var outcome := PlayRound(system, regulator, step);
      if outcome == Win {
        wins := wins + 1;
      }
      step := step + 1;
    }
  }
}
