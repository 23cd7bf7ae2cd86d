/** Epsilon-greedy action selection with an exploration rate that decays
    harmonically over episodes. The uniform draw and the random action are
    inputs: `draw` stands for `random.random()` and `pick` for the index
    that `random.choice` takes from `0 .. actionSize - 1`. */
module Exploration {
  import opened ActionValues
  import opened RealArith

  /** The exploration rate of an episode: the configured initial rate
      divided by `1 + episode / 200`. For a positive initial rate it starts
      at that rate and stays positive. */
  function Epsilon(initial: real, episode: nat): (eps: real)
    ensures episode == 0 ==> eps == initial
    ensures initial > 0.0 ==> 0.0 < eps <= initial
  {
    initial / (1.0 + episode as real / 200.0)
  }

  /** The rate strictly decreases from one episode to any later one. */
  lemma EpsilonDecreasing(initial: real, earlier: nat, later: nat)
    requires initial > 0.0 && earlier < later
    ensures Epsilon(initial, later) < Epsilon(initial, earlier)
  {
    var d1 := 1.0 + earlier as real / 200.0;
    var d2 := 1.0 + later as real / 200.0;
    assert 1.0 <= d1 < d2;
    calc {
      Epsilon(initial, later);
    ==
      initial / d2;
    <  { DivideByLarger(initial, d1, d2); }
      initial / d1;
    ==
      Epsilon(initial, earlier);
    }
  }

  /** The rate falls below any positive bound once the episode number
      passes `200 * initial / bound`: it tends to zero without reaching it. */
  lemma EpsilonVanishes(initial: real, bound: real, episode: nat)
    requires initial > 0.0 && bound > 0.0
    requires episode as real > 200.0 * initial / bound
    ensures Epsilon(initial, episode) < bound
  {
  }

  /** The worked examples for an initial rate of 1.0. */
  lemma EpsilonExamples()
    ensures Epsilon(1.0, 0) == 1.0
    ensures Epsilon(1.0, 200) == 0.5
    ensures Epsilon(1.0, 600) == 0.25
  {
  }

  /** `make_epsilon_greedy_choice`: greedy when the draw exceeds the rate,
      otherwise the random pick. The result is always a valid action; a
      greedy result holds a largest action value. */
  function EpsilonGreedyChoice(actionValues: seq<real>, actionSize: nat, initial: real, episode: nat,
                               draw: real, pick: nat): (action: nat)
    requires |actionValues| == actionSize && pick < actionSize
    ensures action < actionSize
    ensures draw > Epsilon(initial, episode) ==>
              forall j :: 0 <= j < actionSize ==> actionValues[j] <= actionValues[action]
    ensures draw <= Epsilon(initial, episode) ==> action == pick
  {
    if draw > Epsilon(initial, episode) then ArgMax(actionValues) else pick
  }

  /** As episodes pass the agent only gets greedier: a draw that led to a
      greedy choice in one episode leads to one in every later episode. */
  lemma GreedyStaysGreedy(initial: real, earlier: nat, later: nat, draw: real)
    requires initial > 0.0 && earlier <= later
    requires draw > Epsilon(initial, earlier)
    ensures draw > Epsilon(initial, later)
  {
    if earlier < later {
      EpsilonDecreasing(initial, earlier, later);
    }
  }

  /** With an initial rate of at least 1 the first episode always explores,
      since the draw lies in [0, 1). */
  lemma FirstEpisodeExplores(actionValues: seq<real>, actionSize: nat, initial: real, draw: real, pick: nat)
    requires |actionValues| == actionSize && pick < actionSize
    requires initial >= 1.0 && 0.0 <= draw < 1.0
    ensures EpsilonGreedyChoice(actionValues, actionSize, initial, 0, draw, pick) == pick
  {
  }
}
