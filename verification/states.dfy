/** The agent's four phases and the autonomous transition table. */
module AgentStates {
  import opened Wrappers

  datatype State = Rollout | Train | Terminate | Update

  /** The phases an autonomous worker cycles through, in order. */
  const Cycle: seq<State> := [Rollout, Train, Update]

  /**
   * The autonomous transition of `get_state_transition`. Its `if/elif` chain has no branch
   * for TERMINATE, so that input falls through and yields `None`.
   */
  function AutoTransition(prev: Option<State>): (next: Option<State>)
    ensures next.None? <==> prev == Some(Terminate)
    ensures next != Some(Terminate)
    ensures next == Some(Rollout) <==> prev == None || prev == Some(Update)
    ensures next == Some(Train) <==> prev == Some(Rollout)
    ensures next == Some(Update) <==> prev == Some(Train)
  {
    match prev
    case None => Some(Rollout)
    case Some(Rollout) => Some(Train)
    case Some(Train) => Some(Update)
    case Some(Update) => Some(Rollout)
    case Some(Terminate) => None
  }

  /** The state after `n` autonomous transitions from "no previous state". */
  function AutoIterate(n: nat): Option<State>
  {
    if n == 0 then None else AutoTransition(AutoIterate(n - 1))
  }

  /**
   * The autonomous schedule is periodic with period 3 after the first step:
   * the (n+1)-th phase is `Cycle[n % 3]`.
   */
  lemma {:induction false} AutoSchedule(n: nat)
    ensures AutoIterate(n + 1) == Some(Cycle[n % 3])
  {
    if n > 0 {
      AutoSchedule(n - 1);
    }
  }

  /** An autonomous worker never enters UPDATE twice in a row and never terminates. */
  lemma {:induction false} AutoNeverRepeatsUpdate(n: nat)
    ensures AutoIterate(n + 1) != Some(Terminate)
    ensures AutoIterate(n + 1) == Some(Update) ==> AutoIterate(n + 2) != Some(Update)
  {
    AutoSchedule(n);
    AutoSchedule(n + 1);
  }
}
