# Policy-gradient agent control loop, modelled in Dafny

This project models the single-worker control logic of the `Agent` process in
`hw2/agent.py`: a worker of a pool that runs the phases ROLLOUT (collect
episodes), TRAIN (aggregate every worker's result and train), UPDATE (load
published weights) and TERMINATE, either driven by commands a supervisor puts
on a shared state queue or autonomously by a fixed transition table. It also
models `_compute_q_values`, the per-path discounted-return computation.

Files and modules:

- `wrappers.dfy` (`Wrappers`): `Option` (Python's `None`) and `Result`.
- `faults.dfy` (`Faults`): the exceptions the loop raises, as data: each failing
  `assert`, `ValueError`, `IndexError`, `ZeroDivisionError`.
- `states.dfy` (`AgentStates`): `Agent.States` and the autonomous transition
  table of `get_state_transition`.
- `qvalues.dfy` (`QValues`): `_compute_q_values` over exact reals, checked
  against the recursive return `G(r, i) = r[i] + gamma * G(r, i + 1)`.
- `agent_loop.dfy` (`AgentLoop`): the worker record, the queues as sequences,
  one function per branch of `run`, and `Step`, one iteration of the loop.
- `agent_properties.dfy` (`AgentProperties`): runs of many steps, the
  autonomous schedule and sync counter over whole runs, and a driven cycle.

Modelling choices:

- The results, weights, paths and state queues are sequences (front = next
  `get`). The number of `task_done` calls on the state queue is the counter
  `acks`.
- Observations, actions, weights and the paths item are type parameters: the
  model never looks inside them.
- What the simulator and the network produce during a step (the result item
  and paths item of a rollout, the training function) comes in as a
  `PhaseIO` parameter.
- A `get` on an empty queue and the ROLLOUT busy-wait on a non-empty state
  queue become the outcome `Blocked`: the step cannot finish unless another
  process acts.
- A failing `assert` or the `ValueError` become the outcome `Crashed(fault)`.
  Breaking out of the loop after TERMINATE is `Stopped`.
- The state queue can carry any Python value, so a command is either one of
  the four states or `Unrecognized`. The autonomous table has no branch for
  TERMINATE and returns `None`, which also lands in the `ValueError` branch.
  That is only reachable from a worker whose previous state is TERMINATE.
- The reverse scan of `_compute_q_values` appends and then reverses. The model
  prepends, which gives the same list.

## Model

| member | source | states |
|---|---|---|
| AgentStates.AutoTransition | hw2/agent.py:230-237 | None goes to ROLLOUT, ROLLOUT to TRAIN, TRAIN to UPDATE, UPDATE to ROLLOUT; TERMINATE has no branch and yields None; TERMINATE is never produced |
| AgentStates.AutoSchedule | hw2/agent.py:230-237 | starting from no previous state, the (n+1)-th autonomous phase is ROLLOUT, TRAIN, UPDATE repeated, so the schedule has period 3 |
| AgentStates.AutoNeverRepeatsUpdate | hw2/agent.py:230-237 | the autonomous schedule never yields TERMINATE and never yields UPDATE twice in a row |
| AgentLoop.NewWorker | hw2/agent.py:49-83 | a worker starts with no previous state, sync counter 1 and the given agent count and mode; zero agents raises ZeroDivisionError |
| AgentLoop.NextCommand | hw2/agent.py:224-237 | driven: the head of the state queue is taken, and nothing while that queue is empty; autonomous: the queues are untouched and the next state follows the transition table, or is unrecognized after TERMINATE |
| AgentLoop.Aggregate | hw2/agent.py:286-297 | each field of the consolidated batch is the concatenation of that field of every drained result, in arrival order |
| AgentLoop.RolloutStep | hw2/agent.py:268-279 | ROLLOUT appends exactly one result and one paths item, cannot finish while the state queue is non-empty, acks once and leaves the weights queue alone |
| AgentLoop.SyncTick | hw2/agent.py:307-315 | the counter stays in 1..EPOCHES_PER_SYNC; it publishes exactly when the counter has reached 5, then resets to 1, and counts up otherwise |
| AgentLoop.TrainStep | hw2/agent.py:281-323 | TRAIN blocks with fewer than num_agents results and fails its assertion with more; otherwise it empties the results queue and trains on their aggregate; autonomous: one weights item exactly when the counter says so, no ack; driven: num_agents copies of the weights, one ack, counter unchanged |
| AgentLoop.UpdateStep | hw2/agent.py:325-342 | UPDATE fails its assertion right after UPDATE; otherwise it pops exactly the front weights item and loads it, acks once and leaves the results, paths and state queues alone |
| AgentLoop.TerminateStep | hw2/agent.py:344-351 | TERMINATE ends the loop exactly when the results, weights and paths queues are empty, naming the first non-empty one otherwise; it acks once |
| AgentLoop.Step | hw2/agent.py:260-355 | one loop iteration keeps the worker valid (agents >= 1, counter in range); there is no UPDATE right after UPDATE; stopping leaves the data queues empty; ValueError exactly for an unrecognized state; autonomous steps follow the table and never stop; acks are one per step except autonomous TRAIN |
| AgentProperties.Run | hw2/agent.py:263-355 | a worker stays valid over any number of loop iterations, and its agent count and mode never change |
| AgentProperties.StoppedIsFinal | hw2/agent.py:344-351 | after the loop has broken out at TERMINATE, no later iteration changes anything |
| AgentProperties.SyncClosedForm | hw2/agent.py:307-315 | from counter c, k autonomous trains publish (c-1+k)/5 times and leave the counter at (c-1+k) mod 5 + 1: one publication per five trains |
| AgentProperties.AutonomousRun | hw2/agent.py:260-355 | a fresh autonomous worker, for as long as it keeps running, follows the table, never stops, has counter equal to its number of trains (one per three steps) folded by the sync rule, and acks every step but TRAIN |
| AgentProperties.Drive | hw2/agent.py:227-228 | a worker fed one command per iteration stays valid |
| AgentProperties.DrivenCycle | hw2/agent.py:268-342 | one driven ROLLOUT, TRAIN, UPDATE cycle of a lone worker loads exactly the weights its TRAIN produced from its own result, acks three times and leaves only its paths item queued |
| AgentProperties.DrivenTerminate | hw2/agent.py:344-351 | after that cycle TERMINATE fails while the paths item is still queued and stops cleanly with a fourth ack once it has been taken |
| AgentProperties.LoneAutonomousCycle | hw2/agent.py:307-342 | a lone autonomous worker on idle queues blocks at its first UPDATE exactly when its first TRAIN does not publish (counter below 5); with the counter at 5 it loads its own freshly trained weights |
| QValues.RewardToGoScan | hw2/agent.py:361-369 | the reverse scan that adds each reward to gamma times the running return yields, at every step t, the discounted return G(r, t) |
| QValues.Segment | hw2/agent.py:362-374 | a path's segment has the path's length; with reward-to-go entry t is G(r, t); without it every entry equals G(r, 0), and an empty path raises IndexError |
| QValues.QValues | hw2/agent.py:357-378 | the q values fail exactly when reward-to-go is off and some path is empty (with IndexError); otherwise their length is the sum of the path lengths |
| QValues.ComputeQValues | hw2/agent.py:357-378 | the per-path loop computes exactly the concatenated segments, with the same failure condition and total length |
| QValues.RecurrenceCharacterizesRewardsToGo | hw2/agent.py:365-369 | a sequence equals the reward-to-go returns if and only if q[last] = r[last] and q[t] = r[t] + gamma * q[t+1] |
| QValues.QValuesLayout | hw2/agent.py:361-376 | path k's segment occupies, in path order, the positions from the total length of paths 0..k-1 on; with reward-to-go that slice obeys q[last] = r[last], q[t] = r[t] + gamma * q[t+1]; without it every entry is path k's full return |
| QValues.ThreeRewardExample | hw2/agent.py:358-378 | rewards [r0, r1, r2] give [r0+g*r1+g^2*r2, r1+g*r2, r2], and three copies of the first value without reward-to-go |

## Left out

- The gym environment and episode simulation (`_simulate`, `_setup`): foreign calls whose episode lengths depend on the environment. A rollout's result item and paths item are inputs of the step.
- The TensorFlow model (`run_agent`, `predict_baseline`, `train_agent`, `train_baseline`, `load_weights`): opaque. Training is a function parameter, and loading is recorded as the worker's `local` weights. The baseline training side effect is not modelled.
- Baseline rescaling, advantage normalisation and the baseline targets (the `np.mean`/`np.std` statistics with the `1e-8` epsilon): floating-point statistics, so the result item a rollout publishes is an input.
- Floating point in `_compute_q_values`: returns are exact reals, so rounding is not modelled.
- The `multiprocessing` semantics: blocking `get` is the outcome `Blocked`, and there are no cross-process interleavings. The model has one worker; races between workers are out of scope.
- JoinableQueue bookkeeping: `acks` only counts `task_done` calls. The error for more `task_done` calls than items put is not modelled. An autonomous worker's ROLLOUT and UPDATE call `task_done` without having taken a command.
- The busy-wait's spinning and `time.sleep(0.1)`: timing only. The busy-wait's condition is kept as `Blocked`.
- Logging (`_agent_debug`, `logz`) and seeding: side effects only.
- AgentLoop.NewWorker: `num_agents` is a natural number. A negative Python count, which would make the TRAIN loop empty, is not modelled.
