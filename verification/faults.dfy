/** The exceptions the agent loop can raise, as data. */
module Faults {

  /** Which `assert` statement of the agent loop failed. */
  datatype Check =
    | ResultsNotDrained   // TRAIN: results queue not empty after draining `num_agents` items
    | UpdateTwice         // UPDATE: previous state was already UPDATE
    | ResultsPending      // TERMINATE: results queue not empty
    | WeightsPending      // TERMINATE: weights queue not empty
    | PathsPending        // TERMINATE: paths queue not empty

  datatype Fault =
    | AssertionFailed(check: Check)
    | ValueError          // a state value that is none of the four states
    | IndexError          // the first return of an empty path
    | ZeroDivisionError   // dividing the timestep budget by zero agents
}
