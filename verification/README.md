# Allostasis Machines in Dafny

The repository holds four short simulations of a regulated trajectory Z. The first three
regulate Z against the homeostatic baselines G in `[-4, 0, 4]`; each step draws a
sandpile-avalanche disturbance D and moves Z:

- `allostatic-regulation.py` switches the active baseline to the one nearest to Z before
  the move, and recovers toward it with gain 0.25.
- `AM-switching-with-memory.py` switches the same way, and its recovery also leans
  against the mean of the last W disturbances (gain 0.4).
- `AM-switching-Markovian.py` has no active baseline and no recovery. A tabular
  Q-learning agent picks one of three moves by epsilon-greedy choice; after the move the
  baseline nearest to the new Z gives the reward the agent learns from.

The fourth script, `non-transitive-good-regulator.py`, is a rock/paper/scissors
illustration of the good-regulator argument. A system cycles Rock, Paper, Scissors. An
internal model counts the transitions it observes and predicts the most frequent
successor. A regulator plays the move that beats the prediction, and each round is
classified as a win, a tie or a loss.

The model has one module per script plus two shared ones:

- `BaselineSet` (baselines.dfy) holds the baselines and the nearest-baseline choice. It
  is shared by the three regulators.
- `Avalanche` (avalanche.dfy) is the disturbance draw.
- `AllostaticRegulation` (allostatic_regulation.dfy), `MemorySwitching`
  (memory_switching.dfy) and `Markovian` (markovian.dfy) each model one regulator.
- `GoodRegulator` (good_regulator.dfy) models the rock/paper/scissors script.

The scripts keep their state in globals, lists and a NumPy array, and update them in
place. Each regulator is therefore a class whose `Update` method is one animation frame:
- the histories are `seq` fields, and each step appends to them;
- the Q-table is an `array2<real>`, and the step writes one cell of it.

In the rock/paper/scissors script, the mutable fields stay class fields: the system's
current state, and the model's count table (a map field) and last observation. The
constant fields `states`, `beats` and `counter_moves` never change, so they become the
module-level `States`, `Beats` and `CounterMove`. The ten-round loop is a method with
loop invariants.

Randomness is made explicit: each NumPy draw becomes a parameter of the step.
- `burstDraw` is compared with the burst probability.
- `u` in [0, 1] is the power-law draw.
- `signDraw` is compared with 0.5.
- `exploreDraw` is compared with epsilon.
- `randomAction` is the action index drawn by `np.random.choice`.

Numbers are Dafny `real`s.

Points of the code that the model keeps as written:
- `int(...)` in the state index truncates, so 0.4 goes to bin 20 (`StateIdxExamples`).
- The Q-learning moves are ±1.5, although the comment at AM-switching-Markovian.py:12
  says ±1.0.
- The learning variant records the baseline nearest to the post-update Z in
  `history_base`.
- The scripts' parameters are module-level constants, and the model uses the same
  constants.

## Model

| member | source | states |
|---|---|---|
| BaselineSet.NearestIndex | allostatic-regulation.py:58 | the chosen index is in range, no baseline is strictly closer, and every earlier baseline is strictly farther (`min` keeps the first minimum) |
| BaselineSet.Nearest | allostatic-regulation.py:58 | the chosen baseline is one of `[-4, 0, 4]` |
| BaselineSet.NearestIsFirstMinimum | allostatic-regulation.py:58 | the closed-form nearest baseline is exactly the first-minimum scan's choice over `[-4, 0, 4]` |
| BaselineSet.MidpointTieBreak | allostatic-regulation.py:58 | at the midpoints ±2 the earlier baseline wins: 2.0 selects 0.0, not 4.0 |
| BaselineSet.NearestDistanceZero | AM-switching-Markovian.py:73-74 | the distance to the nearest baseline is zero exactly when Z is a baseline |
| Avalanche.Disturbance | allostatic-regulation.py:49-54 | zero when the burst test fails; otherwise of size `scale·u`, positive only when the sign draw exceeds 0.5 and negative only otherwise; always within ±scale (also AM-switching-with-memory.py:68-72 and AM-switching-Markovian.py:52-56 with scale 6) |
| AllostaticRegulation.Recovery | allostatic-regulation.py:65-66 | one recovery step scales the error to the baseline by 0.75, and the recovery is zero exactly on the baseline |
| AllostaticRegulation.Contraction | allostatic-regulation.py:65-70 | without a disturbance the new error is 0.75 of the old in size, strictly smaller unless Z is on the baseline, and of the same sign |
| AllostaticRegulation.NoSwitchWithoutDisturbance | allostatic-regulation.py:58-70 | a step with zero disturbance keeps Z in the region of the baseline it tracks, so the next nearest baseline is the same |
| AllostaticRegulation.QuietSettles | allostatic-regulation.py:1-6 | over any number of disturbance-free steps the nearest baseline never changes, the error never grows or changes sign, and each step scales it by 0.75: switching comes only from shocks |
| AllostaticRegulation.Regulator.constructor | allostatic-regulation.py:13-24 | Z and the active baseline start at 0.0 with empty histories |
| AllostaticRegulation.Regulator.Update | allostatic-regulation.py:45-74 | the active baseline becomes the one nearest to the pre-update Z; Z moves by the disturbance plus the recovery toward it; each history grows by exactly its new entry; the three lengths stay equal and recorded baselines stay in the set |
| MemorySwitching.Window | AM-switching-with-memory.py:81 | the window is the last `min(W, len)` entries of the history in order; a window wider than the history takes all of it |
| MemorySwitching.Mean | AM-switching-with-memory.py:82 | the correction of an empty window is 0.0; `MeanTimesLength` ties a non-empty window's mean to its sum |
| MemorySwitching.MeanTimesLength | AM-switching-with-memory.py:82 | the mean of an empty window is 0, and the mean of a non-empty window times its length is its sum |
| MemorySwitching.SumBound | AM-switching-with-memory.py:82 | the sum of n values of size at most `bound` lies within ±n·bound |
| MemorySwitching.MeanBound | AM-switching-with-memory.py:82 | the mean of values of size at most `bound` has size at most `bound` |
| MemorySwitching.MeanConstant | AM-switching-with-memory.py:82 | the mean of a non-empty window of equal values is that value |
| MemorySwitching.MeanOfWindowExample | AM-switching-with-memory.py:81-82 | history `[1, 1, 1, 1]` with W = 2 gives a correction of 1.0 |
| MemorySwitching.WindowEndsWithNewest | AM-switching-with-memory.py:73-82 | the disturbance is appended before the slice, so the window is never empty and ends with the current disturbance; the 0.0 fallback is unreachable |
| MemorySwitching.Recovery | AM-switching-with-memory.py:84-85 | one step scales the error to the baseline by 0.75 and shifts it by -0.4 times the correction; with zero correction it is the plain 0.75 contraction |
| MemorySwitching.DisplayStart | AM-switching-with-memory.py:93 | the displayed suffix never starts before index 0 and holds `min(len, 300)` entries |
| MemorySwitching.AppendBounded | AM-switching-with-memory.py:68-73 | appending a disturbance within ±6 keeps every recorded disturbance within ±6 |
| MemorySwitching.MemoryRegulator.constructor | AM-switching-with-memory.py:11-32 | Z and the active baseline start at 0.0 with empty histories |
| MemorySwitching.MemoryRegulator.Correction | AM-switching-with-memory.py:81-82 | the memory correction for any window width has size at most 6 |
| MemorySwitching.MemoryRegulator.Update | AM-switching-with-memory.py:61-90 | `history_d` gains the disturbance first; the baseline becomes the one nearest to the pre-update Z; Z moves by disturbance plus recovery with the correction over the updated history; the other histories gain their entries; the lengths stay equal and every disturbance stays within ±6; the window ends with the newest disturbance |
| Markovian.StateIdx | AM-switching-Markovian.py:20-22 | the bin is in [0, 40]; Z ≤ -10 gives 0 and Z ≥ 10 gives 40; inside the range the bin is the integer part of `(Z + 10)·2` |
| Markovian.StateIdxMonotone | AM-switching-Markovian.py:20-22 | a larger Z never lands in a lower bin |
| Markovian.StateIdxExamples | AM-switching-Markovian.py:20-22 | -10 maps to 0, 0 to 20, 10 and 20 to 40, -30 to 0, and 0.4 to 20 (truncation, not rounding) |
| Markovian.FirstArgMax | AM-switching-Markovian.py:63 | `argmax` returns an index holding the row maximum, and every earlier index holds a strictly smaller value |
| Markovian.MaxOf | AM-switching-Markovian.py:78 | `max` is an element of the row and no element exceeds it |
| Markovian.ChooseAction | AM-switching-Markovian.py:60-63 | the action index is in [0, 3); below epsilon it is the random action, otherwise the first index of greatest value in the row |
| Markovian.Reward | AM-switching-Markovian.py:75 | the reward lies in (-0.1, 0.9] and is 0.9 exactly at distance zero |
| Markovian.RewardDecreasing | AM-switching-Markovian.py:74-75 | the reward strictly falls as the distance to the nearest baseline grows |
| Markovian.RewardPeaksOnBaselines | AM-switching-Markovian.py:73-75 | the reward of a post-update Z is 0.9 exactly when Z is on a baseline |
| Markovian.Learned | AM-switching-Markovian.py:79 | from an all-zero row a single update gives exactly 0.1 times the reward |
| Markovian.LearnedStaysBounded | AM-switching-Markovian.py:75-79 | if the cell and the future maximum lie in [-1, 9] (the reward bounds over 1 - γ), the updated cell does too |
| Markovian.QLearner.constructor | AM-switching-Markovian.py:18-28 | the 41×3 table starts at zero, Z at 0.0, and the histories empty |
| Markovian.QLearner.Update | AM-switching-Markovian.py:48-84 | Z moves by disturbance plus the effect of the epsilon-greedy action chosen in the pre-step bin; exactly cell (bin, action) changes, to the learned value from the reward and the maximum of the new bin's row read before the write; every other cell keeps its value; the histories gain Z, the baseline nearest the new Z and the reward; a table within [-1, 9] stays within it |
| GoodRegulator.Next | non-transitive-good-regulator.py:14-16 | the system always moves to a different state (`NextIsIndexStep` ties the move to `states[(i + 1) % 3]`) |
| GoodRegulator.Beats | non-transitive-good-regulator.py:9 | no state beats itself, and each state beats the one the cycle leaves to reach it |
| GoodRegulator.NextIsIndexStep | non-transitive-good-regulator.py:15-16 | the system's move is one place further along `states`, wrapping around, and never stays put |
| GoodRegulator.NextCycle | non-transitive-good-regulator.py:11-17 | three moves restore the original state |
| GoodRegulator.BeatsIsThreeCycle | non-transitive-good-regulator.py:9 | nothing beats itself, different states beat different states, each state beats the one that moves to it, and `beats` applied three times is the identity |
| GoodRegulator.CounterMove | non-transitive-good-regulator.py:49 | the counter-move to X beats X (and is X's successor in the cycle) |
| GoodRegulator.Classify | non-transitive-good-regulator.py:78-84 | the outcome is WIN exactly when the action beats the actual state, TIE exactly when they are equal, and LOSS exactly otherwise |
| GoodRegulator.MostFrequent | non-transitive-good-regulator.py:42 | the chosen successor has the greatest count in the row, and every state earlier in Rock, Paper, Scissors order has a strictly smaller count |
| GoodRegulator.NonTransitiveSystem.constructor | non-transitive-good-regulator.py:5-7 | the system starts at Rock |
| GoodRegulator.NonTransitiveSystem.GetNextState | non-transitive-good-regulator.py:11-17 | the state moves one step along the cycle and the new state is returned |
| GoodRegulator.InternalModel.constructor | non-transitive-good-regulator.py:21-28 | all nine counts start at zero and nothing has been observed |
| GoodRegulator.InternalModel.Update | non-transitive-good-regulator.py:30-34 | the first observation changes no count; later ones add one to cell (last observed, observation) only; the observation becomes the last observed; after n ≥ 1 observations the counts sum to n - 1 |
| GoodRegulator.InternalModel.PredictNext | non-transitive-good-regulator.py:36-42 | Rock before any observation; otherwise a successor of greatest count in the last observed state's row, ties going to the earliest of Rock, Paper, Scissors |
| GoodRegulator.Increment | non-transitive-good-regulator.py:33 | the table stays complete, cell (a, b) grows by one and every other cell is unchanged |
| GoodRegulator.IncrementTotal | non-transitive-good-regulator.py:33 | each increment adds one to the total count |
| GoodRegulator.Regulator.constructor | non-transitive-good-regulator.py:46-49 | the regulator starts with a fresh, empty model |
| GoodRegulator.Regulator.SelectAction | non-transitive-good-regulator.py:51-54 | the selected action beats the model's prediction |
| GoodRegulator.CountsAfterByState | non-transitive-good-regulator.py:30-34 | the counts after k rounds, read per state: no transition off the cycle is ever counted, and the one out of each state is counted from its first observed round on |
| GoodRegulator.CycleStart | non-transitive-good-regulator.py:11-17 | after 1, 2 and 3 moves from Rock the system is at Paper, Scissors and Rock; it is not at Scissors before move 2, and not back at Rock before move 3 |
| GoodRegulator.PredictionAfter | non-transitive-good-regulator.py:36-42 | after k ≥ 1 rounds the prediction is Rock while fewer than four rounds have been played, and from then on the system's true next state |
| GoodRegulator.CountsStep | non-transitive-good-regulator.py:71-75 | one round of the loop moves the counts from their state after k rounds to their state after k + 1 |
| GoodRegulator.RoundScore | non-transitive-good-regulator.py:77-84 | round k + 1 is a win exactly when the expected win count goes up: round 3 wins on the default prediction, rounds 1, 2 and 4 do not, and every round from 5 on wins |
| GoodRegulator.NewGame | non-transitive-good-regulator.py:57-58 | a fresh system and regulator are in the state after zero rounds |
| GoodRegulator.PlayRound | non-transitive-good-regulator.py:64-85 | one pass of the loop body takes system and model from their state after k rounds to their state after k + 1, and scores a win exactly when the expected count grows |
| GoodRegulator.Simulate | non-transitive-good-regulator.py:63-88 | n rounds give `ExpectedWins(n)` wins (0 for n ≤ 2, 1 for n ≤ 4, n - 3 after that); the ten-round loop scores 7 wins |

## Left out

- Plotting and animation are not modelled: figure and axis set-up, `FuncAnimation`, `set_data`, `plt.close` and the HTML rendering. They only render the histories.
- The `ipywidgets` slider and `display` are not modelled. The slider's value is the window-width parameter `w` of `MemoryRegulator.Update`, with the slider's range 1 to 100 as its precondition.
- NumPy sampling is replaced by parameters. The model proves nothing statistical: not burst frequency, not sign symmetry, not the power-law shape, and not Q-learning convergence.
- IEEE floating point is not modelled. Z, gains, rewards and Q-values are exact reals, so the 0.75 contraction and the reward bounds hold exactly.
- The `print` output of the rock/paper/scissors loop is not modelled. The loop's `prediction` and `outcome` strings are modelled by `PredictNext` and `Classify`.
- Lines 91-97 of non-transitive-good-regulator.py are not modelled. They refer to names that script never defines and hold no logic.
- BaselineSet.Nearest: the nearest-baseline rule is written in closed form for `[-4, 0, 4]`, and the regulators use it instead of running the scan. `NearestIsFirstMinimum` proves it equal to the first-minimum scan `NearestIndex` over that list.
- MemorySwitching.MemoryRegulator.Update: reading the slider mid-run is not modelled as a separate event. The window width is simply an argument of each step.
