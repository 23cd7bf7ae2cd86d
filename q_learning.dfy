/** The arithmetic of one learning step of one-step Q-learning over a
    sampled batch: bootstrapped targets from the next states' action values,
    the values of the actions actually taken, and the mean squared error
    between them. Network outputs enter as rows of reals; tensors, devices
    and floating point are not modelled. */
module QLearning {
  import opened ActionValues
  import opened RealArith

  /** A sampled batch as `compute_loss` sees it. The five sequences run in
      parallel, one entry per transition. The states and next states appear
      through what the Q-network makes of them: `stateValues[i]` is the row
      of action values for the i-th state and `nextStateValues[i]` the row
      for the i-th next state. `dones[i]` is 1.0 for a terminal transition
      and 0.0 otherwise. */
  datatype Batch = Batch(
    stateValues: seq<seq<real>>,
    actions: seq<int>,
    rewards: seq<real>,
    nextStateValues: seq<seq<real>>,
    dones: seq<real>)
  {
    function Size(): nat { |actions| }
  }

  /** The shape the batch must have for the step to be defined: parallel
      sequences of one length, non-empty rows for the maximum, every action
      a valid index into its own row (torch's `gather` raises otherwise;
      that is a caller error, not a handled case), and every done flag a
      boolean turned into the number 1.0 or 0.0. */
  predicate WellFormed(b: Batch)
  {
    && |b.stateValues| == |b.actions| == |b.rewards| == |b.nextStateValues| == |b.dones|
    && (forall i :: 0 <= i < |b.nextStateValues| ==> |b.nextStateValues[i]| > 0)
    && (forall i :: 0 <= i < |b.actions| ==> 0 <= b.actions[i] < |b.stateValues[i]|)
    && (forall i :: 0 <= i < |b.dones| ==> b.dones[i] == 0.0 || b.dones[i] == 1.0)
  }

  /** `compute_q_values_for_next_states`: the best next-state value of each
      transition, row by row. */
  function MaxNextValues(rows: seq<seq<real>>): (r: seq<real>)
    requires forall i :: 0 <= i < |rows| ==> |rows[i]| > 0
    ensures |r| == |rows|
    ensures forall i :: 0 <= i < |rows| ==> r[i] == RowMax(rows[i])
    ensures forall i, j :: 0 <= i < |rows| && 0 <= j < |rows[i]| ==> rows[i][j] <= r[i]
  {
    if |rows| == 0 then [] else [RowMax(rows[0])] + MaxNextValues(rows[1..])
  }

  /** The one-step target of a single transition. The factor `1 - done`
      switches the bootstrap term off for a terminal transition. */
  function TdTarget(reward: real, gamma: real, maxNext: real, done: real): (t: real)
    ensures done == 1.0 ==> t == reward
    ensures done == 0.0 ==> t == reward + gamma * maxNext
  {
    reward + gamma * maxNext * (1.0 - done)
  }

  /** `compute_q_values_for_current_states`: the elementwise target over a
      batch. Entry i depends on entry i of the inputs and on nothing else. */
  function CurrentTargets(rewards: seq<real>, maxNext: seq<real>, dones: seq<real>, gamma: real): (r: seq<real>)
    requires |rewards| == |maxNext| == |dones|
    ensures |r| == |rewards|
    ensures forall i :: 0 <= i < |rewards| ==> r[i] == TdTarget(rewards[i], gamma, maxNext[i], dones[i])
  {
    if |rewards| == 0 then []
    else [TdTarget(rewards[0], gamma, maxNext[0], dones[0])]
         + CurrentTargets(rewards[1..], maxNext[1..], dones[1..], gamma)
  }

  /** `compute_q_targets`: maximum over the next state's actions, then the
      target. Terminal transitions get their reward alone, the others the
      reward plus the discounted best next value. */
  function QTargets(nextStateValues: seq<seq<real>>, rewards: seq<real>, dones: seq<real>, gamma: real): (r: seq<real>)
    requires |nextStateValues| == |rewards| == |dones|
    requires forall i :: 0 <= i < |nextStateValues| ==> |nextStateValues[i]| > 0
    ensures |r| == |rewards|
    ensures forall i :: 0 <= i < |rewards| && dones[i] == 1.0 ==> r[i] == rewards[i]
    ensures forall i :: 0 <= i < |rewards| && dones[i] == 0.0 ==>
              r[i] == rewards[i] + gamma * RowMax(nextStateValues[i])
    ensures forall i :: 0 <= i < |rewards| ==>
              r[i] == TdTarget(rewards[i], gamma, RowMax(nextStateValues[i]), dones[i])
  {
    var maxNext := MaxNextValues(nextStateValues);
    var r := CurrentTargets(rewards, maxNext, dones, gamma);
    assert forall i :: 0 <= i < |rewards| ==> maxNext[i] == RowMax(nextStateValues[i]);
    r
  }

  /** In a well-formed batch every target is one of the two cases: the
      reward alone for a terminal transition, the reward plus the discounted
      best next value for any other. */
  lemma WellFormedTargetsAreCased(b: Batch, gamma: real, i: nat)
    requires WellFormed(b) && i < b.Size()
    ensures QTargets(b.nextStateValues, b.rewards, b.dones, gamma)[i]
            == if b.dones[i] == 1.0 then b.rewards[i]
               else b.rewards[i] + gamma * RowMax(b.nextStateValues[i])
  {
  }

  /** `compute_expected_q_values`: torch's `gather` along the action axis,
      the value of the action actually taken in each row. */
  function ExpectedValues(rows: seq<seq<real>>, actions: seq<int>): (r: seq<real>)
    requires |rows| == |actions|
    requires forall i :: 0 <= i < |actions| ==> 0 <= actions[i] < |rows[i]|
    ensures |r| == |rows|
    ensures forall i :: 0 <= i < |rows| ==> r[i] == rows[i][actions[i]]
  {
    if |rows| == 0 then [] else [rows[0][actions[0]]] + ExpectedValues(rows[1..], actions[1..])
  }

  /** Sum of the squared differences of two equally long sequences. */
  function SumSquaredError(xs: seq<real>, ys: seq<real>): (s: real)
    requires |xs| == |ys|
    ensures s >= 0.0
  {
    if |xs| == 0 then 0.0
    else Square(xs[0] - ys[0]) + SumSquaredError(xs[1..], ys[1..])
  }

  function Square(d: real): (s: real)
    ensures s >= 0.0
  {
    d * d
  }

  /** A non-zero difference has a positive square. */
  lemma SquarePositive(d: real)
    requires d != 0.0
    ensures Square(d) > 0.0
  {
    if d > 0.0 {
      calc {
        Square(d);
      ==
        d * d;
      >  { PositiveProduct(d, d); }
        0.0;
      }
    } else {
      calc {
        Square(d);
      ==
        (-d) * (-d);
      >  { PositiveProduct(-d, -d); }
        0.0;
      }
    }
  }

  /** Two sequences that differ somewhere have a positive squared error. */
  lemma {:induction false} SumSquaredErrorPositive(xs: seq<real>, ys: seq<real>)
    requires |xs| == |ys| && xs != ys
    ensures SumSquaredError(xs, ys) > 0.0
  {
    if xs[0] != ys[0] {
      SquarePositive(xs[0] - ys[0]);
    } else {
      assert xs == [xs[0]] + xs[1..] && ys == [ys[0]] + ys[1..];
      SumSquaredErrorPositive(xs[1..], ys[1..]);
    }
  }

  /** The squared error vanishes exactly when the two sequences agree. */
  lemma {:induction false} SumSquaredErrorZeroIff(xs: seq<real>, ys: seq<real>)
    requires |xs| == |ys|
    ensures SumSquaredError(xs, ys) == 0.0 <==> xs == ys
  {
    if xs != ys {
      SumSquaredErrorPositive(xs, ys);
    } else if |xs| > 0 {
      assert Square(xs[0] - ys[0]) == Square(0.0) == 0.0;
      SumSquaredErrorZeroIff(xs[1..], ys[1..]);
    }
  }

  /** `F.mse_loss` with its default mean reduction over a non-empty batch. */
  function MeanSquaredError(xs: seq<real>, ys: seq<real>): (l: real)
    requires |xs| == |ys| > 0
    ensures l >= 0.0
    ensures l == 0.0 <==> xs == ys
  {
    SumSquaredErrorZeroIff(xs, ys);
    SumSquaredError(xs, ys) / (|xs| as real)
  }

  /** `compute_loss`. The loss is never negative, and it is zero exactly when
      every taken action's value already equals its one-step target. */
  function Loss(b: Batch, gamma: real): (l: real)
    requires WellFormed(b) && b.Size() > 0
    ensures l >= 0.0
    ensures l == 0.0 <==> forall i :: 0 <= i < b.Size() ==>
              b.stateValues[i][b.actions[i]]
              == TdTarget(b.rewards[i], gamma, RowMax(b.nextStateValues[i]), b.dones[i])
  {
    var expected := ExpectedValues(b.stateValues, b.actions);
    var targets := QTargets(b.nextStateValues, b.rewards, b.dones, gamma);
    assert (forall i :: 0 <= i < b.Size() ==> expected[i] == targets[i]) <==> expected == targets;
    MeanSquaredError(expected, targets)
  }

  /** The taken action's value never exceeds the state's best value, with
      equality when the greedy action was taken. */
  lemma ExpectedAtMostRowMax(rows: seq<seq<real>>, actions: seq<int>, i: nat)
    requires |rows| == |actions|
    requires forall k :: 0 <= k < |actions| ==> 0 <= actions[k] < |rows[k]|
    requires i < |rows|
    ensures ExpectedValues(rows, actions)[i] <= RowMax(rows[i])
    ensures actions[i] == ArgMax(rows[i]) ==> ExpectedValues(rows, actions)[i] == RowMax(rows[i])
  {
  }

  /** The worked examples: reward 1.0, discount 0.9 and best next value 2.0
      give 2.8 for a non-terminal transition and 1.0 for a terminal one. */
  lemma TargetExamples()
    ensures TdTarget(1.0, 0.9, 2.0, 0.0) == 2.8
    ensures TdTarget(1.0, 0.9, 2.0, 1.0) == 1.0
  {
  }
}
