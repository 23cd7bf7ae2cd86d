/** When the agent learns. Learning happens on steps whose number is a
    multiple of `update_every_n_steps`, and only once the replay memory
    holds strictly more transitions than one batch. */
module LearningGate {

  /** `right_amount_of_steps_taken`. Python's `%` and Dafny's `%` agree for
      a positive divisor, negative step numbers included; a zero divisor
      raises in Python and is excluded here. */
  predicate RightAmountOfStepsTaken(stepNumber: int, updateEveryNSteps: int)
    requires updateEveryNSteps > 0
  {
    stepNumber % updateEveryNSteps == 0
  }

  /** `enough_experiences_to_learn_from`: a strict comparison, so a memory
      holding exactly one batch is not enough. */
  predicate EnoughExperiencesToLearnFrom(memoryLength: nat, batchSize: nat)
  {
    memoryLength > batchSize
  }

  /** `time_to_learn`: both conditions at once. */
  predicate TimeToLearn(stepNumber: int, updateEveryNSteps: int, memoryLength: nat, batchSize: nat)
    requires updateEveryNSteps > 0
  {
    RightAmountOfStepsTaken(stepNumber, updateEveryNSteps) &&
    EnoughExperiencesToLearnFrom(memoryLength, batchSize)
  }

  /** The cadence has period `updateEveryNSteps`: moving `k` whole periods
      forward or back does not change whether the step learns. */
  lemma {:induction false} CadenceRepeats(stepNumber: int, k: nat, updateEveryNSteps: int)
    requires updateEveryNSteps > 0
    ensures RightAmountOfStepsTaken(stepNumber + k * updateEveryNSteps, updateEveryNSteps)
        <==> RightAmountOfStepsTaken(stepNumber, updateEveryNSteps)
  {
    if k > 0 {
      var n := updateEveryNSteps;
      var s := stepNumber + (k - 1) * n;
      CadenceRepeats(stepNumber, k - 1, n);
      ShiftByOnePeriod(s, n);
      assert s + n == stepNumber + k * n;
    }
  }

  /** One period forward leaves the remainder alone. */
  lemma ShiftByOnePeriod(s: int, n: int)
    requires n > 0
    ensures (s + n) % n == s % n
  {
    var q, r := s / n, s % n;
    assert s + n == (q + 1) * n + r;
    DivModUnique(s + n, n, q + 1, r);
  }

  /** Euclidean division is determined by quotient and remainder. */
  lemma DivModUnique(a: int, n: int, q: int, r: int)
    requires n > 0 && 0 <= r < n && a == q * n + r
    ensures a / n == q && a % n == r
  {
    var q', r' := a / n, a % n;
    if q' < q {
      AtLeastOnePeriod(q - q', n);
    } else if q < q' {
      AtLeastOnePeriod(q' - q, n);
    }
  }

  lemma AtLeastOnePeriod(d: int, n: int)
    requires d >= 1 && n > 0
    ensures d * n >= n
  {
  }

  /** Within the first period only step 0 learns. Together with
      `CadenceRepeats` this pins the learning steps down to 0, n, 2n, ... */
  lemma CadenceWithinFirstPeriod(stepNumber: int, updateEveryNSteps: int)
    requires updateEveryNSteps > 0 && 0 <= stepNumber < updateEveryNSteps
    ensures RightAmountOfStepsTaken(stepNumber, updateEveryNSteps) <==> stepNumber == 0
  {
  }

  /** Every multiple of the cadence is a learning step. */
  lemma CadenceOnMultiples(k: nat, updateEveryNSteps: int)
    requires updateEveryNSteps > 0
    ensures RightAmountOfStepsTaken(k * updateEveryNSteps, updateEveryNSteps)
  {
    CadenceRepeats(0, k, updateEveryNSteps);
  }

  /** Off the cadence the gate is closed whatever the memory holds. */
  lemma ClosedOffCadence(stepNumber: int, updateEveryNSteps: int, memoryLength: nat, batchSize: nat)
    requires updateEveryNSteps > 0 && stepNumber % updateEveryNSteps != 0
    ensures !TimeToLearn(stepNumber, updateEveryNSteps, memoryLength, batchSize)
  {
  }

  /** A memory holding exactly one batch (or less) keeps the gate closed. */
  lemma ClosedWithoutSpareExperience(stepNumber: int, updateEveryNSteps: int, memoryLength: nat, batchSize: nat)
    requires updateEveryNSteps > 0 && memoryLength <= batchSize
    ensures !TimeToLearn(stepNumber, updateEveryNSteps, memoryLength, batchSize)
  {
  }

  /** On the cadence, a memory holding more than one batch opens the gate. */
  lemma OpenOnCadenceWithSpareExperience(stepNumber: int, updateEveryNSteps: int, memoryLength: nat, batchSize: nat)
    requires updateEveryNSteps > 0 && stepNumber % updateEveryNSteps == 0 && memoryLength > batchSize
    ensures TimeToLearn(stepNumber, updateEveryNSteps, memoryLength, batchSize)
  {
  }

  /** When the gate is open the memory can supply a whole batch without
      replacement, so sampling never runs short. */
  lemma OpenGateAllowsSampling(stepNumber: int, updateEveryNSteps: int, memoryLength: nat, batchSize: nat)
    requires updateEveryNSteps > 0 && TimeToLearn(stepNumber, updateEveryNSteps, memoryLength, batchSize)
    ensures memoryLength >= batchSize + 1
    ensures stepNumber % updateEveryNSteps == 0
  {
  }
}
