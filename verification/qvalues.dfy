/**
 * Discounted returns per path (`_compute_q_values`), over exact reals.
 * A path is represented by its reward sequence.
 */
module QValues {
  import opened Wrappers
  import opened Faults

  /** The discounted return from step `i` on: G(r, i) = r[i] + gamma * G(r, i + 1), G(r, |r|) = 0. */
  function Return(gamma: real, r: seq<real>, i: nat): real
    requires i <= |r|
    decreases |r| - i
  {
    if i == |r| then 0.0 else r[i] + gamma * Return(gamma, r, i + 1)
  }

  /** The reward-to-go sequence of one path: the return from every step. */
  function RewardsToGo(gamma: real, r: seq<real>): seq<real>
  {
    seq(|r|, i requires 0 <= i < |r| => Return(gamma, r, i))
  }

  /** The q values one path contributes, or the error an empty path raises without reward-to-go. */
  function Segment(gamma: real, r: seq<real>, rewardToGo: bool): (s: Result<seq<real>, Fault>)
    ensures s.Failure? <==> !rewardToGo && |r| == 0
    ensures s.Success? ==> |s.value| == |r|
    ensures s.Success? && |r| > 0 ==> s.value[0] == Return(gamma, r, 0)
    ensures rewardToGo ==> s.Success? && forall t :: 0 <= t < |r| ==> s.value[t] == Return(gamma, r, t)
    ensures !rewardToGo && s.Success? ==> forall t :: 0 <= t < |r| ==> s.value[t] == s.value[0]
  {
    if rewardToGo then Success(RewardsToGo(gamma, r))
    else if |r| == 0 then Failure(IndexError)
    else Success(seq(|r|, _ => Return(gamma, r, 0)))
  }

  /** Total number of rewards over all paths. */
  function TotalLength(paths: seq<seq<real>>): nat
  {
    if |paths| == 0 then 0 else TotalLength(paths[..|paths| - 1]) + |paths[|paths| - 1]|
  }

  /** Does some path have no rewards? */
  predicate HasEmptyPath(paths: seq<seq<real>>)
  {
    exists k :: 0 <= k < |paths| && |paths[k]| == 0
  }

  /** The q values of all paths: their segments concatenated in path order. */
  function QValues(gamma: real, paths: seq<seq<real>>, rewardToGo: bool): (r: Result<seq<real>, Fault>)
    ensures r.Failure? <==> !rewardToGo && HasEmptyPath(paths)
    ensures r.Failure? ==> r.error == IndexError
    ensures r.Success? ==> |r.value| == TotalLength(paths)
    decreases |paths|
  {
    EmptyPathSplit(paths);
    if |paths| == 0 then Success([])
    else
      match QValues(gamma, paths[..|paths| - 1], rewardToGo)
      case Failure(e) => Failure(e)
      case Success(front) =>
        match Segment(gamma, paths[|paths| - 1], rewardToGo)
        case Failure(e) => Failure(e)
        case Success(seg) => Success(front + seg)
  }

  /**
   * The reverse scan of one path: the running return becomes the reward plus
   * gamma times the running return, over the rewards
   * from last to first. `_compute_q_values` appends and then reverses the list;
   * prepending gives the same sequence.
   */
  method RewardToGoScan(gamma: real, rewards: seq<real>) returns (qs: seq<real>)
    ensures |qs| == |rewards|
    ensures forall t :: 0 <= t < |rewards| ==> qs[t] == Return(gamma, rewards, t)
  {
    var q := 0.0;
    qs := [];
    var i := |rewards|;
    while i > 0
      invariant 0 <= i <= |rewards|
      invariant q == Return(gamma, rewards, i)
      invariant |qs| == |rewards| - i
      invariant forall t :: 0 <= t < |qs| ==> qs[t] == Return(gamma, rewards, i + t)
    {
      i := i - 1;
      q := rewards[i] + q * gamma;
      qs := [q] + qs;
    }
  }

  /** `_compute_q_values`: the per-path loop, raising `IndexError` on an empty path without reward-to-go. */
  method ComputeQValues(gamma: real, paths: seq<seq<real>>, rewardToGo: bool)
    returns (r: Result<seq<real>, Fault>)
    ensures r == QValues(gamma, paths, rewardToGo)
    ensures r.Failure? <==> !rewardToGo && HasEmptyPath(paths)
    ensures r.Failure? ==> r.error == IndexError
    ensures r.Success? ==> |r.value| == TotalLength(paths)
  {
    var qn: seq<real> := [];
    var k := 0;
    while k < |paths|
      invariant 0 <= k <= |paths|
      invariant QValues(gamma, paths[..k], rewardToGo) == Success(qn)
      invariant |qn| == TotalLength(paths[..k])
      invariant rewardToGo || !HasEmptyPath(paths[..k])
    {
      var path := paths[k];
      var qTrajectory := RewardToGoScan(gamma, path);
      assert qTrajectory == RewardsToGo(gamma, path);
      if !rewardToGo {
        if |qTrajectory| == 0 {
          assert |paths[..k + 1][k]| == 0;
          assert HasEmptyPath(paths) by { assert |paths[k]| == 0; }
          return Failure(IndexError);
        }
        qTrajectory := seq(|qTrajectory|, _ => qTrajectory[0]);
      }
      assert paths[..k + 1][..k] == paths[..k];
      qn := qn + qTrajectory;
      k := k + 1;
    }
    assert paths[..k] == paths;
    r := Success(qn);
  }

  /** A path sequence has an empty path iff its front or its last path does. */
  lemma EmptyPathSplit(paths: seq<seq<real>>)
    ensures |paths| > 0 ==>
      (HasEmptyPath(paths) <==> HasEmptyPath(paths[..|paths| - 1]) || |paths[|paths| - 1]| == 0)
  {
    if |paths| > 0 && HasEmptyPath(paths) {
      var k :| 0 <= k < |paths| && |paths[k]| == 0;
      if k < |paths| - 1 {
        assert |paths[..|paths| - 1][k]| == 0;
      }
    }
  }

  /** `q` obeys the reward-to-go recurrence: q[last] = r[last], q[t] = r[t] + gamma * q[t + 1]. */
  predicate SatisfiesRecurrence(gamma: real, r: seq<real>, q: seq<real>)
  {
    && |q| == |r|
    && (|r| > 0 ==> q[|r| - 1] == r[|r| - 1])
    && forall t :: 0 <= t < |r| - 1 ==> q[t] == r[t] + gamma * q[t + 1]
  }

  /** The reward-to-go sequence is exactly the one sequence that obeys the recurrence. */
  lemma {:induction false} RecurrenceCharacterizesRewardsToGo(gamma: real, r: seq<real>, q: seq<real>)
    ensures SatisfiesRecurrence(gamma, r, q) <==> q == RewardsToGo(gamma, r)
  {
    if q == RewardsToGo(gamma, r) {
      assert |r| > 0 ==> Return(gamma, r, |r|) == 0.0;
    }
    if SatisfiesRecurrence(gamma, r, q) {
      forall t | 0 <= t < |r|
        ensures q[t] == Return(gamma, r, t)
      {
        RecurrenceSuffix(gamma, r, q, t);
      }
    }
  }

  /** Downward induction behind `RecurrenceCharacterizesRewardsToGo`. */
  lemma {:induction false} RecurrenceSuffix(gamma: real, r: seq<real>, q: seq<real>, t: nat)
    requires SatisfiesRecurrence(gamma, r, q)
    requires t < |r|
    ensures q[t] == Return(gamma, r, t)
    decreases |r| - t
  {
    if t < |r| - 1 {
      RecurrenceSuffix(gamma, r, q, t + 1);
    } else {
      assert Return(gamma, r, t + 1) == 0.0;
    }
  }

  /** Where path `k`'s segment starts in the concatenated q values. */
  function Offset(paths: seq<seq<real>>, k: nat): nat
    requires k <= |paths|
  {
    TotalLength(paths[..k])
  }

  /** Each path's segment sits, in path order, at its offset in the concatenated q values. */
  lemma {:induction false} QValuesLayout(gamma: real, paths: seq<seq<real>>, rewardToGo: bool, k: nat)
    requires QValues(gamma, paths, rewardToGo).Success?
    requires k < |paths|
    ensures Offset(paths, k) + |paths[k]| <= TotalLength(paths)
    ensures Segment(gamma, paths[k], rewardToGo).Success?
    ensures QValues(gamma, paths, rewardToGo).value[Offset(paths, k)..Offset(paths, k) + |paths[k]|]
         == Segment(gamma, paths[k], rewardToGo).value
    ensures rewardToGo ==> SatisfiesRecurrence(gamma, paths[k],
      QValues(gamma, paths, rewardToGo).value[Offset(paths, k)..Offset(paths, k) + |paths[k]|])
    ensures !rewardToGo ==> forall t :: Offset(paths, k) <= t < Offset(paths, k) + |paths[k]| ==>
      QValues(gamma, paths, rewardToGo).value[t] == Return(gamma, paths[k], 0)
    decreases |paths|
  {
    QValuesSegmentAt(gamma, paths, rewardToGo, k);
    if rewardToGo {
      RecurrenceCharacterizesRewardsToGo(gamma, paths[k], Segment(gamma, paths[k], rewardToGo).value);
    } else {
      var seg := Segment(gamma, paths[k], rewardToGo).value;
      var all := QValues(gamma, paths, rewardToGo).value;
      forall t | Offset(paths, k) <= t < Offset(paths, k) + |paths[k]|
        ensures all[t] == Return(gamma, paths[k], 0)
      {
        assert all[t] == all[Offset(paths, k)..Offset(paths, k) + |paths[k]|][t - Offset(paths, k)];
      }
    }
  }

  /** The position part of `QValuesLayout`, by induction on the number of paths. */
  lemma {:induction false} QValuesSegmentAt(gamma: real, paths: seq<seq<real>>, rewardToGo: bool, k: nat)
    requires QValues(gamma, paths, rewardToGo).Success?
    requires k < |paths|
    ensures Offset(paths, k) + |paths[k]| <= TotalLength(paths)
    ensures Segment(gamma, paths[k], rewardToGo).Success?
    ensures QValues(gamma, paths, rewardToGo).value[Offset(paths, k)..Offset(paths, k) + |paths[k]|]
         == Segment(gamma, paths[k], rewardToGo).value
    decreases |paths|
  {
    var n := |paths| - 1;
    var front := paths[..n];
    var all := QValues(gamma, paths, rewardToGo).value;
    var pre := QValues(gamma, front, rewardToGo).value;
    assert all == pre + Segment(gamma, paths[n], rewardToGo).value;
    if k < n {
      assert front[k] == paths[k];
      assert front[..k] == paths[..k];
      QValuesSegmentAt(gamma, front, rewardToGo, k);
      assert all[Offset(paths, k)..Offset(paths, k) + |paths[k]|]
          == pre[Offset(front, k)..Offset(front, k) + |front[k]|];
    } else {
      assert paths[..k] == front;
    }
  }

  /** Three rewards r0, r1, r2 with discount g: the returns written out. */
  lemma ThreeRewardExample(g: real, r0: real, r1: real, r2: real)
    ensures QValues(g, [[r0, r1, r2]], true) == Success([r0 + g * r1 + g * g * r2, r1 + g * r2, r2])
    ensures QValues(g, [[r0, r1, r2]], false)
         == Success([r0 + g * r1 + g * g * r2, r0 + g * r1 + g * g * r2, r0 + g * r1 + g * g * r2])
  {
    var r := [r0, r1, r2];
    assert Return(g, r, 3) == 0.0;
    assert Return(g, r, 2) == r2;
    assert Return(g, r, 1) == r1 + g * r2;
    assert Return(g, r, 0) == r0 + g * r1 + g * g * r2;
    var paths := [r];
    assert paths[..0] == [];
    assert RewardsToGo(g, r) == [Return(g, r, 0), Return(g, r, 1), Return(g, r, 2)];
    assert QValues(g, paths, true) == Success([] + RewardsToGo(g, r));
    assert [] + RewardsToGo(g, r) == [r0 + g * r1 + g * g * r2, r1 + g * r2, r2];
    var full := seq(3, _ => Return(g, r, 0));
    assert full == [Return(g, r, 0), Return(g, r, 0), Return(g, r, 0)];
    assert QValues(g, paths, false) == Success([] + full);
    assert [] + full == [r0 + g * r1 + g * g * r2, r0 + g * r1 + g * g * r2, r0 + g * r1 + g * g * r2];
  }
}
