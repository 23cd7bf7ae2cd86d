/** The DQN agent's own state and the steps that change it. The replay
    memory is represented by its length, the network and its Adam optimiser
    by the sequence of losses they have been stepped with, and the random
    source and the network's outputs by parameters. */
module DqnAgent {
  import opened LearningGate
  import opened QLearning
  import opened Exploration

  /** The hyperparameters the agent reads. The learning rate only feeds the
      optimiser, which is not modelled. */
  datatype Config = Config(
    bufferSize: nat,
    batchSize: nat,
    gamma: real,
    epsilon: real,
    updateEveryNSteps: int,
    actionSize: nat)

  /** What the agent's code needs of its configuration: a positive learning
      cadence (a zero one makes the modulo raise; a negative one is not a
      meaningful setting), a non-empty batch (the mean of the loss is taken
      over it) and at least one action. */
  predicate ValidConfig(c: Config)
  {
    c.updateEveryNSteps > 0 && c.batchSize > 0 && c.actionSize > 0
  }

  class Agent {
    const config: Config
    /** `len(self.memory)`: how many transitions the replay memory holds. */
    var memoryLength: nat
    /** Maintained by the episode loop, read here. */
    var stepNumber: int
    var episodeNumber: nat
    /** The action last picked. */
    var action: nat
    /** The losses the optimiser has stepped the network with, oldest first;
        its length is the number of optimisation steps taken. */
    var appliedLosses: seq<real>

    ghost predicate Valid()
      reads this
    {
      ValidConfig(config) && memoryLength <= config.bufferSize && action < config.actionSize
    }

    /** A fresh agent: empty replay memory and an untrained network. */
    constructor (config: Config, stepNumber: int, episodeNumber: nat)
      requires ValidConfig(config)
      ensures Valid()
      ensures this.config == config && this.stepNumber == stepNumber && this.episodeNumber == episodeNumber
      ensures memoryLength == 0 && appliedLosses == []
    {
      this.config := config;
      this.stepNumber := stepNumber;
      this.episodeNumber := episodeNumber;
      memoryLength := 0;
      // No action has been picked yet; 0 is a placeholder that the first
      // `PickAndConductAction` overwrites.
      action := 0;
      appliedLosses := [];
    }

    /** `pick_and_conduct_action`, up to handing the action to the
        environment: the epsilon-greedy choice on the network's action values
        for the current state becomes the agent's action. */
    method PickAndConductAction(actionValues: seq<real>, draw: real, pick: nat)
      requires Valid()
      requires |actionValues| == config.actionSize && pick < config.actionSize
      modifies this`action
      ensures Valid()
      ensures action == EpsilonGreedyChoice(actionValues, config.actionSize, config.epsilon, episodeNumber, draw, pick)
    {
      action := EpsilonGreedyChoice(actionValues, config.actionSize, config.epsilon, episodeNumber, draw, pick);
    }

    /** `save_experience`: one more transition in the memory, the oldest one
        evicted once the memory is at capacity. */
    method SaveExperience()
      requires Valid()
      modifies this`memoryLength
      ensures Valid()
      ensures memoryLength == if old(memoryLength) < config.bufferSize then old(memoryLength) + 1 else old(memoryLength)
    {
      if memoryLength < config.bufferSize {
        memoryLength := memoryLength + 1;
      }
    }

    /** `take_optimisation_step`: the optimiser consumes one loss. */
    method TakeOptimisationStep(loss: real)
      requires Valid()
      modifies this`appliedLosses
      ensures Valid()
      ensures appliedLosses == old(appliedLosses) + [loss]
    {
      appliedLosses := appliedLosses + [loss];
    }

    /** `learn`. When the gate is open the sampled batch's loss is computed
        and one optimisation step taken with it; when it is closed nothing
        at all changes. `batch` is what sampling the memory would return; it
        is only looked at when the gate is open, and then it has one entry
        per transition of a full batch, which the memory, holding more than
        one batch, can supply. Sampling does not remove transitions from the
        memory. */
    method Learn(batch: Batch)
      requires Valid()
      requires TimeToLearn(stepNumber, config.updateEveryNSteps, memoryLength, config.batchSize) ==>
                 WellFormed(batch) && batch.Size() == config.batchSize
      modifies this`appliedLosses
      ensures Valid()
      ensures TimeToLearn(stepNumber, config.updateEveryNSteps, memoryLength, config.batchSize) ==>
                memoryLength >= config.batchSize + 1
      ensures TimeToLearn(stepNumber, config.updateEveryNSteps, memoryLength, config.batchSize) ==>
                appliedLosses == old(appliedLosses) + [Loss(batch, config.gamma)]
      ensures !TimeToLearn(stepNumber, config.updateEveryNSteps, memoryLength, config.batchSize) ==>
                unchanged(this)
    {
      if TimeToLearn(stepNumber, config.updateEveryNSteps, memoryLength, config.batchSize) {
        OpenGateAllowsSampling(stepNumber, config.updateEveryNSteps, memoryLength, config.batchSize);
        var loss := Loss(batch, config.gamma);
        TakeOptimisationStep(loss);
      }
    }
  }
}
