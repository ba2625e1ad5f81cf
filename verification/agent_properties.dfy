/** Properties of runs of the agent loop: sequences of `Step`s. */
module AgentProperties {
  import opened Wrappers
  import opened Faults
  import opened AgentStates
  import opened AgentLoop

  /**
   * The loop run for one iteration per element of `ios`, stopping at the first
   * iteration that does not keep the loop going.
   */
  function Run<O, A, W, P>(w: Worker<W>, q: Queues<O, A, W, P>, ios: seq<PhaseIO<O, A, W, P>>)
    : (r: Outcome<O, A, W, P>)
    ensures Valid(w) && r.Running? ==> Valid(r.worker)
    ensures r.Running? || r.Stopped? ==>
      r.worker.numAgents == w.numAgents && r.worker.asyncTransitions == w.asyncTransitions
    ensures |ios| == 0 ==> r == Running(w, q)
    decreases |ios|
  {
    if |ios| == 0 then Running(w, q)
    else
      match Run(w, q, ios[..|ios| - 1])
      case Running(w1, q1) => Step(w1, q1, ios[|ios| - 1])
      case other => other
  }

  /** Once the loop has broken out after TERMINATE, no further iteration changes anything. */
  lemma {:induction false} StoppedIsFinal<O, A, W, P>(
    w: Worker<W>, q: Queues<O, A, W, P>, ios: seq<PhaseIO<O, A, W, P>>, more: seq<PhaseIO<O, A, W, P>>)
    requires Run(w, q, ios).Stopped?
    ensures Run(w, q, ios + more) == Run(w, q, ios)
    decreases |more|
  {
    if |more| == 0 {
      assert ios + more == ios;
    } else {
      var n := |more| - 1;
      assert (ios + more)[..|ios + more| - 1] == ios + more[..n];
      StoppedIsFinal(w, q, ios, more[..n]);
    }
  }

  /** The sync counter after `k` autonomous trains starting from `c`. */
  function SyncAfter(c: int, k: nat): int
  {
    if k == 0 then c else SyncTick(SyncAfter(c, k - 1)).0
  }

  /** The number of weight publications over `k` autonomous trains starting from `c`. */
  function PublishesAfter(c: int, k: nat): nat
  {
    if k == 0 then 0
    else PublishesAfter(c, k - 1) + (if SyncTick(SyncAfter(c, k - 1)).1 then 1 else 0)
  }

  /**
   * From a counter in range, `k` trains publish once per `EpochsPerSync`
   * trains and leave the counter at the number of trains since the last
   * publication, plus one.
   */
  lemma {:induction false} SyncClosedForm(c: int, k: nat)
    requires 1 <= c <= EpochsPerSync
    ensures SyncAfter(c, k) == (c - 1 + k) % EpochsPerSync + 1
    ensures PublishesAfter(c, k) == (c - 1 + k) / EpochsPerSync
  {
    if k > 0 {
      SyncClosedForm(c, k - 1);
    }
  }

  /**
   * An autonomous worker started fresh follows the cycle ROLLOUT, TRAIN,
   * UPDATE; it never stops; its counter reflects the trains so far
   * (one per three steps), and it acks every step except the TRAINs.
   */
  lemma {:induction false} AutonomousRun<O, A, W, P>(
    w: Worker<W>, q: Queues<O, A, W, P>, ios: seq<PhaseIO<O, A, W, P>>)
    requires Valid(w) && w.asyncTransitions && w.prev == None && w.epochSinceLastSync == 1
    ensures !Run(w, q, ios).Stopped?
    ensures Run(w, q, ios).Running? ==>
      && Run(w, q, ios).worker.prev == AutoIterate(|ios|)
      && Run(w, q, ios).worker.epochSinceLastSync == SyncAfter(1, (|ios| + 1) / 3)
      && Run(w, q, ios).queues.acks == q.acks + |ios| - (|ios| + 1) / 3
    decreases |ios|
  {
    var n := |ios|;
    if n > 0 {
      var front := ios[..n - 1];
      AutonomousRun(w, q, front);
      var prior := Run(w, q, front);
      if prior.Running? {
        var r := Step(prior.worker, prior.queues, ios[n - 1]);
        assert Run(w, q, ios) == r;
        AutonomousTick(prior.worker, prior.queues, ios[n - 1], n - 1);
        var m := n / 3;
        if r.Running? {
          if (n + 1) / 3 > m {
            assert (n + 1) / 3 == m + 1;
            assert SyncAfter(1, m + 1) == SyncTick(SyncAfter(1, m)).0;
          } else {
            assert (n + 1) / 3 == m;
          }
        }
      }
    }
  }

  /** The inductive step of `AutonomousRun`: one more step after `k` steps on the cycle. */
  lemma AutonomousTick<O, A, W, P>(w: Worker<W>, q: Queues<O, A, W, P>, io: PhaseIO<O, A, W, P>, k: nat)
    requires Valid(w) && w.asyncTransitions && w.prev == AutoIterate(k)
    ensures !Step(w, q, io).Stopped?
    ensures Step(w, q, io).Running? ==>
      && Step(w, q, io).worker.prev == AutoIterate(k + 1)
      && Step(w, q, io).worker.epochSinceLastSync
         == (if (k + 2) / 3 > (k + 1) / 3 then SyncTick(w.epochSinceLastSync).0 else w.epochSinceLastSync)
      && Step(w, q, io).queues.acks == q.acks + 1 - ((k + 2) / 3 - (k + 1) / 3)
  {
    AutoSchedule(k);
    var r := Step(w, q, io);
    if r.Running? {
      if k % 3 == 1 {
        assert r.worker.prev == Some(Train);
        assert (k + 2) / 3 == (k + 1) / 3 + 1;
      } else {
        assert r.worker.prev != Some(Train);
        assert (k + 2) / 3 == (k + 1) / 3;
      }
    }
  }

  /**
   * The loop driven from outside: before each iteration the supervisor puts
   * one command on the (otherwise empty) command queue.
   */
  function Drive<O, A, W, P>(
    w: Worker<W>, q: Queues<O, A, W, P>, cmds: seq<Command>, ios: seq<PhaseIO<O, A, W, P>>)
    : (r: Outcome<O, A, W, P>)
    requires |cmds| == |ios|
    ensures Valid(w) && r.Running? ==> Valid(r.worker)
    decreases |ios|
  {
    if |ios| == 0 then Running(w, q)
    else
      var n := |ios| - 1;
      match Drive(w, q, cmds[..n], ios[..n])
      case Running(w1, q1) => Step(w1, q1.(commands := q1.commands + [cmds[n]]), ios[n])
      case other => other
  }

  /**
   * One driven ROLLOUT, TRAIN, UPDATE cycle of a single fresh worker: the
   * weights it loads are the ones its TRAIN produced from its own rollout,
   * three commands are acked, and only the paths item is left behind.
   */
  lemma DrivenCycle<O, A, W, P>(batch: Batch<O, A>, pathsItem: P, train: Batch<O, A> -> W)
    ensures NewWorker<W>(1, false) == Success(Worker(None, 1, false, 1, None))
    ensures
      var io := PhaseIO(batch, pathsItem, train);
      Drive(Worker(None, 1, false, 1, None), Queues([], [], [], [], 0),
            [Phase(Rollout), Phase(Train), Phase(Update)], [io, io, io])
      == Running(Worker(Some(Update), 1, false, 1, Some(train(batch))), Queues([], [], [pathsItem], [], 3))
  {
    var w := Worker(None, 1, false, 1, None);
    var io := PhaseIO(batch, pathsItem, train);
    var q0: Queues<O, A, W, P> := Queues([], [], [], [], 0);
    var cmds := [Phase(Rollout), Phase(Train), Phase(Update)];
    var ios := [io, io, io];
    var trained := train(batch);
    var w1 := Worker(Some(Rollout), 1, false, 1, None);
    var q1 := Queues([batch], [], [pathsItem], [], 1);
    var w2 := Worker(Some(Train), 1, false, 1, Some(trained));
    var q2 := Queues([], [trained], [pathsItem], [], 2);
    assert Drive(w, q0, cmds[..1], ios[..1]) == Running(w1, q1) by {
      assert cmds[..1][..0] == [] && ios[..1][..0] == [];
      assert Drive(w, q0, cmds[..1][..0], ios[..1][..0]) == Running(w, q0);
      assert q0.commands + [Phase(Rollout)] == [Phase(Rollout)];
      DrivenRollout(batch, pathsItem, train);
    }
    assert Drive(w, q0, cmds[..2], ios[..2]) == Running(w2, q2) by {
      assert cmds[..2][..1] == cmds[..1] && ios[..2][..1] == ios[..1];
      assert q1.commands + [Phase(Train)] == [Phase(Train)];
      DrivenTrain(batch, pathsItem, train);
    }
    assert cmds[..2] == cmds[..|cmds| - 1] && ios[..2] == ios[..|ios| - 1];
    assert q2.commands + [Phase(Update)] == [Phase(Update)];
    DrivenUpdate(batch, pathsItem, train);
  }

  /** The ROLLOUT of `DrivenCycle`: one result and one paths item published, one ack. */
  lemma DrivenRollout<O, A, W, P>(batch: Batch<O, A>, pathsItem: P, train: Batch<O, A> -> W)
    ensures Step(Worker(None, 1, false, 1, None), Queues([], [], [], [Phase(Rollout)], 0),
                 PhaseIO(batch, pathsItem, train))
         == Running(Worker(Some(Rollout), 1, false, 1, None), Queues([batch], [], [pathsItem], [], 1))
  {
  }

  /** The TRAIN of `DrivenCycle`: the one result drained, trained on, and its weights published once. */
  lemma DrivenTrain<O, A, W, P>(batch: Batch<O, A>, pathsItem: P, train: Batch<O, A> -> W)
    ensures Step(Worker(Some(Rollout), 1, false, 1, None), Queues([batch], [], [pathsItem], [Phase(Train)], 1),
                 PhaseIO(batch, pathsItem, train))
         == Running(Worker(Some(Train), 1, false, 1, Some(train(batch))),
                    Queues([], [train(batch)], [pathsItem], [], 2))
  {
    assert Aggregate([batch]) == batch by {
      assert [batch][..0] == [];
      assert Extend(EmptyBatch(), batch) == batch;
    }
    assert Repeat(train(batch), 1) == [train(batch)];
  }

  /** The UPDATE of `DrivenCycle`: the published weights loaded, one ack. */
  lemma DrivenUpdate<O, A, W, P>(batch: Batch<O, A>, pathsItem: P, train: Batch<O, A> -> W)
    ensures Step(Worker(Some(Train), 1, false, 1, Some(train(batch))),
                 Queues([], [train(batch)], [pathsItem], [Phase(Update)], 2), PhaseIO(batch, pathsItem, train))
         == Running(Worker(Some(Update), 1, false, 1, Some(train(batch))), Queues([], [], [pathsItem], [], 3))
  {
  }

  /**
   * TERMINATE after `DrivenCycle`: it fails while the paths item is still
   * queued and ends the loop cleanly once the item has been taken.
   */
  lemma DrivenTerminate<O, A, W, P>(batch: Batch<O, A>, pathsItem: P, train: Batch<O, A> -> W)
    ensures
      var w := Worker(Some(Update), 1, false, 1, Some(train(batch)));
      var io := PhaseIO(batch, pathsItem, train);
      && Step(w, Queues([], [], [pathsItem], [Phase(Terminate)], 3), io) == Crashed(AssertionFailed(PathsPending))
      && Step(w, Queues([], [], [], [Phase(Terminate)], 3), io)
         == Stopped(w.(prev := Some(Terminate)), Queues([], [], [], [], 4))
  {
  }

  /**
   * A lone autonomous worker on otherwise idle queues: its first UPDATE waits
   * on the weights queue unless its first TRAIN publishes, which it does
   * only when the counter has already reached `EpochsPerSync`. With the
   * initial counter of 1 the third iteration therefore blocks until another
   * process puts weights on the queue.
   */
  lemma LoneAutonomousCycle<O, A, W, P>(c: int, batch: Batch<O, A>, pathsItem: P, train: Batch<O, A> -> W)
    requires 1 <= c <= EpochsPerSync
    ensures
      var io := PhaseIO(batch, pathsItem, train);
      var r := Run(Worker(None, c, true, 1, None), Queues([], [], [], [], 0), [io, io, io]);
      && (r.Blocked? <==> c < EpochsPerSync)
      && (c == EpochsPerSync ==>
            r == Running(Worker(Some(Update), 1, true, 1, Some(train(batch))), Queues([], [], [pathsItem], [], 2)))
  {
    var w := Worker(None, c, true, 1, None);
    var io := PhaseIO(batch, pathsItem, train);
    var q0: Queues<O, A, W, P> := Queues([], [], [], [], 0);
    var ios := [io, io, io];
    var w1 := Worker(Some(Rollout), c, true, 1, None);
    var q1 := Queues([batch], [], [pathsItem], [], 1);
    assert Run(w, q0, ios[..1]) == Running(w1, q1) by {
      assert ios[..1][..0] == [];
      AutonomousRollout(c, batch, pathsItem, train);
    }
    var w2 := Worker(Some(Train), SyncTick(c).0, true, 1, Some(train(batch)));
    var q2 := Queues([], if c >= EpochsPerSync then [train(batch)] else [], [pathsItem], [], 1);
    assert Run(w, q0, ios[..2]) == Running(w2, q2) by {
      assert ios[..2][..1] == ios[..1];
      AutonomousTrain(c, batch, pathsItem, train);
    }
    assert ios[..2] == ios[..|ios| - 1];
    assert Run(w, q0, ios) == Step(w2, q2, io);
  }

  /** The ROLLOUT of `LoneAutonomousCycle`. */
  lemma AutonomousRollout<O, A, W, P>(c: int, batch: Batch<O, A>, pathsItem: P, train: Batch<O, A> -> W)
    ensures Step(Worker(None, c, true, 1, None), Queues([], [], [], [], 0), PhaseIO(batch, pathsItem, train))
         == Running(Worker(Some(Rollout), c, true, 1, None), Queues([batch], [], [pathsItem], [], 1))
  {
  }

  /** The TRAIN of `LoneAutonomousCycle`: the weights are published only when the counter has run out. */
  lemma AutonomousTrain<O, A, W, P>(c: int, batch: Batch<O, A>, pathsItem: P, train: Batch<O, A> -> W)
    ensures Step(Worker(Some(Rollout), c, true, 1, None), Queues([batch], [], [pathsItem], [], 1),
                 PhaseIO(batch, pathsItem, train))
         == Running(Worker(Some(Train), SyncTick(c).0, true, 1, Some(train(batch))),
                    Queues([], if c >= EpochsPerSync then [train(batch)] else [], [pathsItem], [], 1))
  {
    assert Aggregate([batch]) == batch by {
      assert [batch][..0] == [];
      assert Extend(EmptyBatch(), batch) == batch;
    }
  }
}
