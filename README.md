# DQN agent: learning gate, Q-learning targets and epsilon-greedy choice

This project models the decision-and-arithmetic core of the repository's
Deep Q-Network agent (`Agents/DQN_Agents/DQN_Agent.py`): one-step Watkins
Q-learning with experience replay, where one network both chooses actions
and supplies its own bootstrap targets.

- `LearningGate` (`learning_gate.dfy`): `time_to_learn` and its two halves.
  Learning happens on steps whose number is a multiple of
  `update_every_n_steps`, and only when the replay memory holds strictly
  more transitions than one batch.
- `ActionValues` (`action_values.dfy`): numpy's `argmax` and the value half of
  torch's `max(1)` on one row of action values.
- `QLearning` (`q_learning.dfy`): a sampled batch (actions, rewards, dones,
  and the network's action values for the states and the next states), the
  row maxima, the targets `reward + gamma * max_next * (1 - done)`, the
  gather of the taken actions' values and the mean squared error loss.
- `Exploration` (`exploration.dfy`): the decaying rate
  `epsilon / (1 + episode / 200)` and the epsilon-greedy choice, with the
  random draw and the random action as parameters.
- `DqnAgent` (`dqn_agent.dfy`): the agent as a class whose fields are the
  configuration, the replay memory's length, the step and episode numbers,
  the last action, and the losses the optimiser has been stepped with.
  `Learn`, `SaveExperience`, `TakeOptimisationStep` and
  `PickAndConductAction` change these fields in place.
- `RealArith` (`real_arith.dfy`): order facts about real products and
  quotients, called on by the proofs above.

The gate asks for strictly more stored transitions than one batch, although
a batch without replacement could already be drawn from exactly
`batch_size`; the model follows the code (`ClosedWithoutSpareExperience`).

Action values, rewards, the discount and the exploration rate are Dafny
`real`s. Step numbers are unbounded integers. Python's `%` with a positive
divisor agrees with Dafny's `%`, negative step numbers included.

## Model

| member | source | states |
|---|---|---|
| `LearningGate.CadenceRepeats` | Agents/DQN_Agents/DQN_Agent.py:108-109 | whether a step learns is periodic in `update_every_n_steps`: shifting the step number by any number of whole periods does not change it |
| `LearningGate.CadenceWithinFirstPeriod` | Agents/DQN_Agents/DQN_Agent.py:108-109 | within the first period, step 0 is the only learning step (with `CadenceRepeats`, the learning steps are exactly 0, n, 2n, ...) |
| `LearningGate.CadenceOnMultiples` | Agents/DQN_Agents/DQN_Agent.py:108-109 | every multiple of `update_every_n_steps` is a learning step |
| `LearningGate.ClosedOffCadence` | Agents/DQN_Agents/DQN_Agent.py:105-109 | off the cadence the gate is closed, whatever the memory holds |
| `LearningGate.ClosedWithoutSpareExperience` | Agents/DQN_Agents/DQN_Agent.py:105-112 | a memory holding exactly `batch_size` transitions, or fewer, keeps the gate closed (the comparison is strict) |
| `LearningGate.OpenOnCadenceWithSpareExperience` | Agents/DQN_Agents/DQN_Agent.py:105-112 | on the cadence, a memory holding more than `batch_size` transitions opens the gate (with `OpenGateAllowsSampling`, the gate is open exactly when both conditions hold) |
| `LearningGate.OpenGateAllowsSampling` | Agents/DQN_Agents/DQN_Agent.py:105-117 | an open gate means the step is on the cadence and the memory holds at least `batch_size + 1` transitions, so sampling a full batch cannot run short |
| `ActionValues.ArgMax` | Agents/DQN_Agents/DQN_Agent.py:55 | the returned index is in range and holds a largest value; every earlier index holds a strictly smaller value (numpy's first-occurrence rule) |
| `ActionValues.RowMax` | Agents/DQN_Agents/DQN_Agent.py:79 | the row maximum bounds every value of the row and equals one of them |
| `ActionValues.MaximalValueIsRowMax` | Agents/DQN_Agents/DQN_Agent.py:79 | any value that bounds its row is the row maximum, so the choice among tied maximisers does not affect the value |
| `QLearning.MaxNextValues` | Agents/DQN_Agents/DQN_Agent.py:78-80 | one entry per transition; entry i is the maximum of row i: at least every action value of that row |
| `QLearning.TdTarget` | Agents/DQN_Agents/DQN_Agent.py:82-84 | a terminal transition (`done = 1`) gets its reward exactly; a non-terminal one (`done = 0`) gets `reward + gamma * max_next` |
| `QLearning.CurrentTargets` | Agents/DQN_Agents/DQN_Agent.py:82-84 | the targets have the batch's length, and entry i is the one-step target of entry i of rewards, row maxima and dones alone |
| `QLearning.QTargets` | Agents/DQN_Agents/DQN_Agent.py:72-76 | per transition: the reward alone when terminal, the reward plus the discounted best next-state value when not |
| `QLearning.WellFormedTargetsAreCased` | Agents/DQN_Agents/DQN_Agent.py:72-84 | in a well-formed batch (dones are 1.0 or 0.0) every target is the reward alone when terminal and the reward plus the discounted best next value otherwise |
| `QLearning.ExpectedValues` | Agents/DQN_Agents/DQN_Agent.py:86-90 | one entry per transition, entry i being the value of the action taken in row i; the action must be a valid index into its row |
| `QLearning.ExpectedAtMostRowMax` | Agents/DQN_Agents/DQN_Agent.py:79-88 | the taken action's value never exceeds the state's best value, with equality when the greedy action was taken |
| `QLearning.SumSquaredError` | Agents/DQN_Agents/DQN_Agent.py:68 | the sum of squared differences is never negative |
| `QLearning.SquarePositive` | Agents/DQN_Agents/DQN_Agent.py:68 | a non-zero difference contributes a positive square |
| `QLearning.SumSquaredErrorPositive` | Agents/DQN_Agents/DQN_Agent.py:68 | sequences that differ anywhere have a positive squared error |
| `QLearning.SumSquaredErrorZeroIff` | Agents/DQN_Agents/DQN_Agent.py:68 | the squared error is zero if and only if the two sequences are equal |
| `QLearning.MeanSquaredError` | Agents/DQN_Agents/DQN_Agent.py:68 | the mean squared error of a non-empty batch is never negative, and zero exactly when prediction and target agree |
| `QLearning.Loss` | Agents/DQN_Agents/DQN_Agent.py:64-70 | the loss is never negative, and zero exactly when every taken action's value already equals its one-step target |
| `QLearning.TargetExamples` | Agents/DQN_Agents/DQN_Agent.py:83 | reward 1.0, discount 0.9, best next value 2.0: target 2.8 when not done, 1.0 when done |
| `Exploration.Epsilon` | Agents/DQN_Agents/DQN_Agent.py:52 | episode 0 gives the initial rate; a positive initial rate gives a rate that stays positive and never exceeds the initial one |
| `Exploration.EpsilonDecreasing` | Agents/DQN_Agents/DQN_Agent.py:52 | the rate strictly decreases as the episode number grows |
| `Exploration.EpsilonVanishes` | Agents/DQN_Agents/DQN_Agent.py:52 | past episode `200 * initial / bound` the rate is below any positive bound, so it tends to zero |
| `Exploration.EpsilonExamples` | Agents/DQN_Agents/DQN_Agent.py:52 | with initial rate 1.0: 1.0 at episode 0, 0.5 at 200, 0.25 at 600 |
| `Exploration.EpsilonGreedyChoice` | Agents/DQN_Agents/DQN_Agent.py:50-56 | the chosen action is always a valid index; when the draw exceeds the rate it holds a largest action value, otherwise it is the random pick |
| `Exploration.GreedyStaysGreedy` | Agents/DQN_Agents/DQN_Agent.py:52-55 | a draw that gives a greedy choice in one episode gives one in every later episode |
| `Exploration.FirstEpisodeExplores` | Agents/DQN_Agents/DQN_Agent.py:52-56 | with an initial rate of at least 1, every draw in [0, 1) explores in episode 0 |
| `DqnAgent.Agent.constructor` | Agents/DQN_Agents/DQN_Agent.py:16-31 | a new agent has an empty replay memory, has taken no optimisation step and keeps the given configuration |
| `DqnAgent.Agent.PickAndConductAction` | Agents/DQN_Agents/DQN_Agent.py:33-48 | the agent's action becomes the epsilon-greedy choice for the episode (always a valid action, maximal when greedy, the random pick when exploring, by `EpsilonGreedyChoice`); nothing else changes |
| `DqnAgent.Agent.SaveExperience` | Agents/DQN_Agents/DQN_Agent.py:98-99 | the memory grows by one transition until it reaches capacity and then keeps its length; nothing else changes |
| `DqnAgent.Agent.TakeOptimisationStep` | Agents/DQN_Agents/DQN_Agent.py:92-96 | exactly one optimisation step is taken, with the given loss |
| `DqnAgent.Agent.Learn` | Agents/DQN_Agents/DQN_Agent.py:58-62 | with the gate open, the memory holds more than one batch, so the full batch can be sampled, and exactly one optimisation step is taken, with the batch's loss; with it closed the agent's state is unchanged; the memory is never shrunk by learning |

## Left out

- The network forward pass, `eval()`/`train()` mode switching, `torch.no_grad`,
  `detach` and device selection: the network's outputs for the current
  state, for the batch's states and for its next states are parameters
  (`actionValues`, `Batch.stateValues`, `Batch.nextStateValues`).
- The Adam optimiser, `zero_grad`, `backward` and `step`: an optimisation
  step is recorded only as the loss it consumed (`appliedLosses`); how the
  weights move is not modelled. The learning rate is therefore not part of
  `Config`.
- `locally_save_policy`: file output.
- `Replay_Buffer` and `Base_Agent` are not part of this model. The replay
  memory is represented only by its length, and the batch that
  `sample_experiences` returns is a parameter of `Learn`. How the episode
  loop advances the step and episode numbers, `conduct_action` and the
  environment are not modelled.
- Random number generation: `random.random()` is the parameter `draw` and
  the index `random.choice` picks is the parameter `pick`.
- Floating point: all values are exact reals, so NaN, infinities and
  rounding do not arise. With `batch_size` 0 torch's mean over an empty batch
  is NaN; `ValidConfig` requires a positive batch size instead.
- `update_every_n_steps` of zero or below: Python raises on a zero divisor,
  and a negative cadence is not a meaningful setting (the `== 0` test would
  still agree with Python's, as both hold exactly when the cadence's absolute
  value divides the step number); `ValidConfig` requires a positive cadence.
- The conversion of actions with `.long()` and of done flags to numbers:
  actions are integers, and dones are reals that `WellFormed` restricts to
  1.0 and 0.0, the two values a converted boolean flag can take.
- DqnAgent.Agent.SaveExperience: models the memory's length only, not which
  transition is stored or evicted.
- DqnAgent.Agent.Learn: models the loss the optimiser receives, not the
  gradient step it then takes.
