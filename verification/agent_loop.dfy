/**
 * One worker's control loop (`Agent.run`) as a pure step function over
 * sequence-valued queues. Payloads the model does not look inside are type
 * parameters: `O` observations, `A` actions, `W` network weights and `P` the
 * item a rollout puts on the paths queue.
 */
module AgentLoop {
  import opened Wrappers
  import opened Faults
  import opened AgentStates

  /** `EPOCHES_PER_SYNC`: autonomous trains between two weight publications. */
  const EpochsPerSync: int := 5

  /** One worker's result item: its batch of per-timestep arrays. */
  datatype Batch<O, A> = Batch(
    observations: seq<O>,
    actions: seq<A>,
    advantages: seq<real>,
    normalizedQ: seq<real>,
    baselinePrediction: seq<real>)

  function EmptyBatch<O, A>(): Batch<O, A>
  {
    Batch([], [], [], [], [])
  }

  /** `extend` every field of `acc` by the same field of `b`. */
  function Extend<O, A>(acc: Batch<O, A>, b: Batch<O, A>): Batch<O, A>
  {
    Batch(acc.observations + b.observations, acc.actions + b.actions,
          acc.advantages + b.advantages, acc.normalizedQ + b.normalizedQ,
          acc.baselinePrediction + b.baselinePrediction)
  }

  /** Concatenation of a sequence of sequences, first to last. */
  function Flatten<T>(xss: seq<seq<T>>): seq<T>
  {
    if |xss| == 0 then [] else xss[0] + Flatten(xss[1..])
  }

  lemma {:induction false} FlattenSnoc<T>(xss: seq<seq<T>>, x: seq<T>)
    ensures Flatten(xss + [x]) == Flatten(xss) + x
  {
    if |xss| > 0 {
      assert (xss + [x])[1..] == xss[1..] + [x];
      FlattenSnoc(xss[1..], x);
    }
  }

  /** Each result's observations, in queue order. */
  function Observations<O, A>(rs: seq<Batch<O, A>>): (r: seq<seq<O>>)
    ensures |r| == |rs| && forall i :: 0 <= i < |rs| ==> r[i] == rs[i].observations
  {
    seq(|rs|, i requires 0 <= i < |rs| => rs[i].observations)
  }

  /** Each result's actions, in queue order. */
  function Actions<O, A>(rs: seq<Batch<O, A>>): (r: seq<seq<A>>)
    ensures |r| == |rs| && forall i :: 0 <= i < |rs| ==> r[i] == rs[i].actions
  {
    seq(|rs|, i requires 0 <= i < |rs| => rs[i].actions)
  }

  /** Each result's advantages, in queue order. */
  function Advantages<O, A>(rs: seq<Batch<O, A>>): (r: seq<seq<real>>)
    ensures |r| == |rs| && forall i :: 0 <= i < |rs| ==> r[i] == rs[i].advantages
  {
    seq(|rs|, i requires 0 <= i < |rs| => rs[i].advantages)
  }

  /** Each result's normalized q values, in queue order. */
  function NormalizedQs<O, A>(rs: seq<Batch<O, A>>): (r: seq<seq<real>>)
    ensures |r| == |rs| && forall i :: 0 <= i < |rs| ==> r[i] == rs[i].normalizedQ
  {
    seq(|rs|, i requires 0 <= i < |rs| => rs[i].normalizedQ)
  }

  /** Each result's baseline predictions, in queue order. */
  function BaselinePredictions<O, A>(rs: seq<Batch<O, A>>): (r: seq<seq<real>>)
    ensures |r| == |rs| && forall i :: 0 <= i < |rs| ==> r[i] == rs[i].baselinePrediction
  {
    seq(|rs|, i requires 0 <= i < |rs| => rs[i].baselinePrediction)
  }

  /**
   * The TRAIN loop's consolidation of the drained results: each field is the
   * concatenation of that field of every result, in arrival order.
   */
  function Aggregate<O, A>(rs: seq<Batch<O, A>>): (b: Batch<O, A>)
    ensures b.observations == Flatten(Observations(rs))
    ensures b.actions == Flatten(Actions(rs))
    ensures b.advantages == Flatten(Advantages(rs))
    ensures b.normalizedQ == Flatten(NormalizedQs(rs))
    ensures b.baselinePrediction == Flatten(BaselinePredictions(rs))
  {
    if |rs| == 0 then EmptyBatch()
    else
      var n := |rs| - 1;
      var front := rs[..n];
      assert Observations(rs) == Observations(front) + [rs[n].observations];
      assert Actions(rs) == Actions(front) + [rs[n].actions];
      assert Advantages(rs) == Advantages(front) + [rs[n].advantages];
      assert NormalizedQs(rs) == NormalizedQs(front) + [rs[n].normalizedQ];
      assert BaselinePredictions(rs) == BaselinePredictions(front) + [rs[n].baselinePrediction];
      FlattenSnoc(Observations(front), rs[n].observations);
      FlattenSnoc(Actions(front), rs[n].actions);
      FlattenSnoc(Advantages(front), rs[n].advantages);
      FlattenSnoc(NormalizedQs(front), rs[n].normalizedQ);
      FlattenSnoc(BaselinePredictions(front), rs[n].baselinePrediction);
      Extend(Aggregate(front), rs[n])
  }

  /** A value taken from the command queue: one of the four states, or anything else. */
  datatype Command = Phase(state: State) | Unrecognized

  /** The worker's own record. `local` is the weights its network holds, if known. */
  datatype Worker<W> = Worker(
    prev: Option<State>,
    epochSinceLastSync: int,
    asyncTransitions: bool,
    numAgents: nat,
    local: Option<W>)

  /** What holds of a worker that is still looping. */
  predicate Valid<W>(w: Worker<W>)
  {
    && w.numAgents >= 1
    && 1 <= w.epochSinceLastSync <= EpochsPerSync
    && w.prev != Some(Terminate)
  }

  /** The constructor: dividing the per-batch timestep budget among no agents raises. */
  function NewWorker<W>(numAgents: nat, asyncTransitions: bool): (r: Result<Worker<W>, Fault>)
    ensures r.Failure? <==> numAgents == 0
    ensures r.Failure? ==> r.error == ZeroDivisionError
    ensures r.Success? ==> Valid(r.value) && r.value.prev == None && r.value.local == None
    ensures r.Success? ==> r.value.epochSinceLastSync == 1
    ensures r.Success? ==> r.value.numAgents == numAgents && r.value.asyncTransitions == asyncTransitions
  {
    if numAgents == 0 then Failure(ZeroDivisionError)
    else Success(Worker(None, 1, asyncTransitions, numAgents, None))
  }

  /** The shared queues, plus the number of `task_done` calls on the command queue. */
  datatype Queues<O, A, W, P> = Queues(
    results: seq<Batch<O, A>>,
    weights: seq<W>,
    paths: seq<P>,
    commands: seq<Command>,
    acks: nat)

  /**
   * What the opaque collaborators produce during one step: the result item and
   * paths item a rollout publishes, and the network's training function.
   */
  datatype PhaseIO<!O, !A, W, P> = PhaseIO(batch: Batch<O, A>, pathsItem: P, train: Batch<O, A> -> W)

  /**
   * The outcome of one loop iteration: the loop goes on, it broke out after
   * TERMINATE, it cannot finish without another process (a `get` on an empty
   * queue or the busy-wait on a non-empty command queue), or it raised.
   */
  datatype Outcome<O, A, W, P> =
    | Running(worker: Worker<W>, queues: Queues<O, A, W, P>)
    | Stopped(worker: Worker<W>, queues: Queues<O, A, W, P>)
    | Blocked
    | Crashed(fault: Fault)

  /**
   * `get_state_transition`: the head of the command queue when driven from
   * outside (none while that queue is empty), the transition table otherwise.
   */
  function NextCommand<O, A, W, P>(w: Worker<W>, q: Queues<O, A, W, P>): (r: Option<(Command, Queues<O, A, W, P>)>)
    ensures !w.asyncTransitions ==> (r.None? <==> |q.commands| == 0)
    ensures !w.asyncTransitions && r.Some? ==>
      r.value.0 == q.commands[0] && r.value.1 == q.(commands := q.commands[1..])
    ensures w.asyncTransitions ==> r.Some? && r.value.1 == q
    ensures w.asyncTransitions ==> (r.value.0 == Unrecognized <==> w.prev == Some(Terminate))
    ensures w.asyncTransitions && r.value.0.Phase? ==> AutoTransition(w.prev) == Some(r.value.0.state)
  {
    if !w.asyncTransitions then
      if |q.commands| == 0 then None else Some((q.commands[0], q.(commands := q.commands[1..])))
    else
      match AutoTransition(w.prev)
      case None => Some((Unrecognized, q))
      case Some(s) => Some((Phase(s), q))
  }

  /** ROLLOUT: publish one result and one paths item, wait for the command queue to drain, ack. */
  function RolloutStep<O, A, W, P>(w: Worker<W>, q: Queues<O, A, W, P>, io: PhaseIO<O, A, W, P>)
    : (r: Outcome<O, A, W, P>)
    ensures r.Blocked? <==> |q.commands| > 0
    ensures r.Running? || r.Blocked?
    ensures r.Running? ==> r.worker == w.(prev := Some(Rollout))
    ensures r.Running? ==> r.queues.results == q.results + [io.batch]
    ensures r.Running? ==> r.queues.paths == q.paths + [io.pathsItem]
    ensures r.Running? ==> r.queues.weights == q.weights && r.queues.commands == [] && r.queues.acks == q.acks + 1
  {
    if |q.commands| > 0 then Blocked
    else
      Running(w.(prev := Some(Rollout)),
              q.(results := q.results + [io.batch], paths := q.paths + [io.pathsItem], acks := q.acks + 1))
  }

  /** The autonomous sync counter: publish and reset at `EpochsPerSync`, count up otherwise. */
  function SyncTick(c: int): (r: (int, bool))
    ensures 1 <= c <= EpochsPerSync ==> 1 <= r.0 <= EpochsPerSync
    ensures r.1 <==> c >= EpochsPerSync
    ensures r.1 ==> r.0 == 1
    ensures !r.1 ==> r.0 == c + 1
  {
    if c >= EpochsPerSync then (1, true) else (c + 1, false)
  }

  /** `n` copies of `x`. */
  function Repeat<T>(x: T, n: nat): (r: seq<T>)
    ensures |r| == n && forall i :: 0 <= i < n ==> r[i] == x
  {
    seq(n, _ => x)
  }

  /**
   * TRAIN: drain exactly `numAgents` results, train on their aggregate, then
   * publish the new weights, every `EpochsPerSync` trains when autonomous, or
   * once per agent with an ack when driven.
   */
  function TrainStep<O, A, W, P>(w: Worker<W>, q: Queues<O, A, W, P>, io: PhaseIO<O, A, W, P>)
    : (r: Outcome<O, A, W, P>)
    ensures r.Blocked? <==> |q.results| < w.numAgents
    ensures r.Crashed? <==> |q.results| > w.numAgents
    ensures r.Crashed? ==> r.fault == AssertionFailed(ResultsNotDrained)
    ensures !r.Stopped?
    ensures r.Running? ==>
      var trained := io.train(Aggregate(q.results));
      && r.queues.results == []
      && r.worker.prev == Some(Train)
      && r.worker.local == Some(trained)
      && r.worker.numAgents == w.numAgents && r.worker.asyncTransitions == w.asyncTransitions
      && r.queues.paths == q.paths && r.queues.commands == q.commands
      && (w.asyncTransitions ==>
            && r.queues.acks == q.acks
            && (r.worker.epochSinceLastSync, |r.queues.weights| > |q.weights|) == SyncTick(w.epochSinceLastSync)
            && r.queues.weights == q.weights + (if w.epochSinceLastSync >= EpochsPerSync then [trained] else []))
      && (!w.asyncTransitions ==>
            && r.queues.acks == q.acks + 1
            && r.worker.epochSinceLastSync == w.epochSinceLastSync
            && r.queues.weights == q.weights + Repeat(trained, w.numAgents))
  {
    if |q.results| < w.numAgents then Blocked
    else if |q.results| > w.numAgents then Crashed(AssertionFailed(ResultsNotDrained))
    else
      var weights := io.train(Aggregate(q.results[..w.numAgents]));
      assert q.results[..w.numAgents] == q.results;
      var trained := w.(prev := Some(Train), local := Some(weights));
      var drained := q.(results := q.results[w.numAgents..]);
      if w.asyncTransitions then
        var (counter, publish) := SyncTick(w.epochSinceLastSync);
        Running(trained.(epochSinceLastSync := counter),
                if publish then drained.(weights := drained.weights + [weights]) else drained)
      else
        Running(trained, drained.(weights := drained.weights + Repeat(weights, w.numAgents), acks := drained.acks + 1))
  }

  /** UPDATE: refuse a second UPDATE in a row, load one weights item, ack. */
  function UpdateStep<O, A, W, P>(w: Worker<W>, q: Queues<O, A, W, P>): (r: Outcome<O, A, W, P>)
    ensures r.Crashed? <==> w.prev == Some(Update)
    ensures r.Crashed? ==> r.fault == AssertionFailed(UpdateTwice)
    ensures r.Blocked? <==> w.prev != Some(Update) && |q.weights| == 0
    ensures !r.Stopped?
    ensures r.Running? ==>
      && r.worker.prev == Some(Update) && r.worker.local.Some?
      && q.weights == [r.worker.local.value] + r.queues.weights
      && r.worker.epochSinceLastSync == w.epochSinceLastSync
      && r.worker.numAgents == w.numAgents && r.worker.asyncTransitions == w.asyncTransitions
      && r.queues.results == q.results && r.queues.paths == q.paths && r.queues.commands == q.commands
      && r.queues.acks == q.acks + 1
  {
    if w.prev == Some(Update) then Crashed(AssertionFailed(UpdateTwice))
    else if |q.weights| == 0 then Blocked
    else Running(w.(prev := Some(Update), local := Some(q.weights[0])),
                 q.(weights := q.weights[1..], acks := q.acks + 1))
  }

  /** TERMINATE: ack, insist that the data queues are empty, and leave the loop. */
  function TerminateStep<O, A, W, P>(w: Worker<W>, q: Queues<O, A, W, P>): (r: Outcome<O, A, W, P>)
    ensures r.Stopped? <==> q.results == [] && q.weights == [] && q.paths == []
    ensures r.Stopped? || r.Crashed?
    ensures r.Crashed? ==> r.fault.AssertionFailed?
    ensures r.Crashed? && r.fault.check == ResultsPending <==> |q.results| > 0
    ensures r.Crashed? && r.fault.check == WeightsPending <==> |q.results| == 0 && |q.weights| > 0
    ensures r.Crashed? && r.fault.check == PathsPending <==>
      |q.results| == 0 && |q.weights| == 0 && |q.paths| > 0
    ensures r.Stopped? ==> r.worker == w.(prev := Some(Terminate)) && r.queues == q.(acks := q.acks + 1)
  {
    if |q.results| > 0 then Crashed(AssertionFailed(ResultsPending))
    else if |q.weights| > 0 then Crashed(AssertionFailed(WeightsPending))
    else if |q.paths| > 0 then Crashed(AssertionFailed(PathsPending))
    else Stopped(w.(prev := Some(Terminate)), q.(acks := q.acks + 1))
  }

  /** One iteration of `run`: pick the next state, then run its branch. */
  function Step<O, A, W, P>(w: Worker<W>, q: Queues<O, A, W, P>, io: PhaseIO<O, A, W, P>): (r: Outcome<O, A, W, P>)
    ensures Valid(w) && r.Running? ==> Valid(r.worker)
    ensures r.Running? ==> r.worker.prev != Some(Terminate)
    ensures r.Running? || r.Stopped? ==>
      r.worker.numAgents == w.numAgents && r.worker.asyncTransitions == w.asyncTransitions
    ensures r.Running? && r.worker.prev == Some(Update) ==> w.prev != Some(Update)
    ensures r.Stopped? ==>
      r.worker.prev == Some(Terminate) && r.queues.results == [] && r.queues.weights == [] && r.queues.paths == []
    ensures r == Crashed(ValueError) <==>
      if w.asyncTransitions then w.prev == Some(Terminate) else |q.commands| > 0 && q.commands[0] == Unrecognized
    ensures w.asyncTransitions ==> !r.Stopped?
    ensures w.asyncTransitions && r.Running? ==> r.worker.prev == AutoTransition(w.prev)
    ensures w.asyncTransitions && r.Running? ==>
      r.worker.epochSinceLastSync
        == if r.worker.prev == Some(Train) then SyncTick(w.epochSinceLastSync).0 else w.epochSinceLastSync
    ensures !w.asyncTransitions && (r.Running? || r.Stopped?) ==>
      |q.commands| > 0 && r.worker.prev == Some(q.commands[0].state)
    ensures r.Running? || r.Stopped? ==>
      r.queues.acks == q.acks + (if w.asyncTransitions && r.worker.prev == Some(Train) then 0 else 1)
  {
    match NextCommand(w, q)
    case None => Blocked
    case Some((cmd, q1)) =>
      match cmd
      case Unrecognized => Crashed(ValueError)
      case Phase(Rollout) => RolloutStep(w, q1, io)
      case Phase(Train) => TrainStep(w, q1, io)
      case Phase(Update) => UpdateStep(w, q1)
      case Phase(Terminate) => TerminateStep(w, q1)
  }
}
