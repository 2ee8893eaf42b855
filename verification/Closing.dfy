/** From the drain on, the close protocol can always be completed: also when the
    poller is anywhere in its loop. */
module Closing {
  import opened Circular
  import opened RingArithmetic
  import opened IocbPool
  import opened AioRing
  import opened Machine
  import opened Invariant
  import opened CloserSteps
  import opened Runs
  import opened Guarantees
  import opened Extensions
  import opened Sentinel

  // ----- What the completion of a close may rely on -----

  /** A step in which the kernel fails nothing: it interrupts no wait, it ends
      none before it has what was asked for, it accepts the sentinel; and
      nobody moves the switch. */
  ghost predicate Plain(s: State, a: Action) {
    match a
    case Poll(poll) => !poll.KernelFail? && (poll == KernelReap(0) && s.poller.Waiting? ==> s.poller.min <= 0)
    case Close(close) => !close.RejectSentinel?
    case SetForce(_) => false
    case _ => true
  }

  /** The second run continues the first, by plain steps only. */
  ghost predicate Continues(states: seq<State>, acts: seq<Action>, states': seq<State>, acts': seq<Action>) {
    && |states| == |acts| + 1 && IsRun(states', acts')
    && states <= states' && acts <= acts'
    && forall k :: |acts| <= k < |acts'| ==> PlainAt(states', acts', k)
  }

  ghost predicate PlainAt(states: seq<State>, acts: seq<Action>, k: nat) {
    k < |acts| && k < |states| && Plain(states[k], acts[k])
  }

  ghost predicate Finishes(states: seq<State>, acts: seq<Action>, states': seq<State>, acts': seq<Action>) {
    Continues(states, acts, states', acts') && |states'| > |acts'| && states'[|acts'|].closer.Destroyed?
  }

  /** One plain step. */
  lemma Step(states: seq<State>, acts: seq<Action>, a: Action) returns (states': seq<State>, acts': seq<Action>)
    requires IsRun(states, acts) && Ready(states[|acts|], a) && Plain(states[|acts|], a)
    ensures Safe(states[|acts|], a)
    ensures Continues(states, acts, states', acts') && IsRun(states', acts')
    ensures |states'| == |acts'| + 1 && states'[|acts'|] == Apply(states[|acts|], a) && Inv(states'[|acts'|])
  {
    hide IsRun, Inv, Ready, Safe, Apply, Plain;
    RunLength(states, acts);
    states', acts' := Extend(states, acts, a);
    assert states'[|acts|] == states[|acts|];
  }

  lemma Continued(s0: seq<State>, a0: seq<Action>, s1: seq<State>, a1: seq<Action>, s2: seq<State>, a2: seq<Action>)
    requires Continues(s0, a0, s1, a1) && Finishes(s1, a1, s2, a2)
    ensures Finishes(s0, a0, s2, a2)
  {
    hide IsRun, Plain;
    forall k | |a0| <= k < |a2| ensures PlainAt(s2, a2, k) {
      if k < |a1| {
        assert PlainAt(s1, a1, k);
        assert s2[k] == s1[k] && a2[k] == a1[k];
      }
    }
  }

  /** A step, and the way on from where it leads. */
  lemma Chained(s0: seq<State>, a0: seq<Action>, s1: seq<State>, a1: seq<Action>, s2: seq<State>, a2: seq<Action>,
      s3: seq<State>, a3: seq<Action>)
    requires Continues(s0, a0, s1, a1) && Continues(s1, a1, s2, a2) && Finishes(s2, a2, s3, a3)
    ensures Finishes(s0, a0, s3, a3)
  {
    hide Continues;
    Continued(s1, a1, s2, a2, s3, a3);
    Continued(s0, a0, s1, a1, s3, a3);
  }

  // ----- From the sentinel on, poller gone -----

  lemma CloseStep(states: seq<State>, acts: seq<Action>, a: CloseAction)
    returns (states': seq<State>, acts': seq<Action>)
    requires IsRun(states, acts) && Ready(states[|acts|], Close(a)) && !a.RejectSentinel?
    ensures CloseReady(states[|acts|], a) && CloseSafe(states[|acts|], a)
    ensures Continues(states, acts, states', acts') && IsRun(states', acts')
    ensures |states'| == |acts'| + 1 && states'[|acts'|] == CloseApply(states[|acts|], a) && Inv(states'[|acts'|])
  {
    hide IsRun, Inv, CloseReady, CloseSafe, CloseApply, Orderly;
    states', acts' := Step(states, acts, Close(a));
  }

  lemma FromIdle(states: seq<State>, acts: seq<Action>) returns (states': seq<State>, acts': seq<Action>)
    requires IsRun(states, acts) && states[|acts|].closer.Sent? && states[|acts|].poller == Idle
    ensures Finishes(states, acts, states', acts')
  {
    hide IsRun, Inv, CloseSafe, Put, RingInv, Queue, Continues, Finishes, DescribeAll, InBlocks;
    var s1, a1 := CloseStep(states, acts, Join);
    RingStays(s1[|a1|]);
    var s2, a2 := CloseStep(s1, a1, Sweep(0));
    var s3, a3 := FromSwept(s2, a2);
    Chained(states, acts, s1, a1, s2, a2, s3, a3);
    states', acts' := s3, a3;
  }

  lemma FromSwept(states: seq<State>, acts: seq<Action>) returns (states': seq<State>, acts': seq<Action>)
    requires IsRun(states, acts) && states[|acts|].closer.Swept?
    ensures Finishes(states, acts, states', acts')
  {
    hide IsRun, Inv, CloseSafe, Continues;
    var s1, a1 := CloseStep(states, acts, ReleaseQueue);
    states', acts' := CloseStep(s1, a1, Destroy);
    RunLength(states', acts');
    assert Finishes(s1, a1, states', acts');
    hide Finishes;
    Continued(states, acts, s1, a1, states', acts');
  }

  lemma RingStays(s: State)
    requires Inv(s) && !Released(s.closer)
    ensures RingInv(s.ring)
  {
    var own :| InvAt(s, own);
    hide Inv, FinalInv;
  }

  // ----- The poller, driven to its end -----

  lemma PollStep(states: seq<State>, acts: seq<Action>, a: PollAction) returns (states': seq<State>, acts': seq<Action>)
    requires IsRun(states, acts) && PollReady(states[|acts|], a) && Plain(states[|acts|], Poll(a)) && !a.Start?
    ensures |states| == |acts| + 1 && PollSafe(states[|acts|], a)
    ensures Continues(states, acts, states', acts') && IsRun(states', acts')
    ensures |states'| == |acts'| + 1 && states'[|acts'|] == PollApply(states[|acts|], a)
    ensures Inv(states[|acts|]) && Inv(states'[|acts'|]) && SentinelDue(states'[|acts'|])
  {
    hide IsRun, Inv, PollReady, PollSafe, PollApply, Plain, SentinelDue;
    RunLength(states, acts);
    RunKeepsInv(states, acts, |acts|);
    states', acts' := Step(states, acts, Poll(a));
    RunKeepsDue(states', acts', |acts'|);
  }

  /** The poller goes on, and the sentinel is complete. */
  ghost predicate Awaited(s: State) {
    && Inv(s) && SentinelDue(s)
    && s.closer.Sent? && PollerGoesOn(s) && s.closer.x !in s.inflight
  }

  /** Then the ring holds it unless the batch in hand does. */
  lemma RingHasSentinel(s: State)
    requires Awaited(s) && !s.poller.Handling?
    ensures s.cfg.blocking && s.cfg.queueSize > 0
    ensures RingInv(s.ring) && |Queue(s.ring)| > 0
    ensures s.poller.Calling? || s.poller.GotHead? || s.poller.Waiting? ==>
      s.poller.min == 1 && s.poller.max == s.cfg.queueSize
    ensures s.poller.GotHead? ==> s.poller.head == s.ring.head
    ensures s.poller.Copying? ==> s.poller.available > 0
  {
    OnItsWay(s);
    PollerAtWork(s);
    hide Inv, SentinelDue, InTransit, Outstanding, Queue, RingInv;
  }

  lemma PollerAtWork(s: State)
    requires Inv(s) && s.closer.Sent? && PollerGoesOn(s)
    ensures s.cfg.blocking && s.cfg.queueSize > 0
    ensures s.poller.Calling? || s.poller.GotHead? || s.poller.Waiting? ==>
      s.poller.min == 1 && s.poller.max == s.cfg.queueSize
    ensures RingInv(s.ring)
    ensures s.poller.GotHead? ==> s.poller.head == s.ring.head
    ensures s.poller.Copying? ==> s.poller.available > 0
  {
    var own :| InvAt(s, own);
    hide Inv, FinalInv, Placed, Backed, ShapePart, DataPart, RefPart, OncePart, QueuePart, PlainPart, PermitPart,
      BatchPart, LogPart,
      DrainPart, PoolPart, Queue, RingInv;
  }

  lemma FromStopping(states: seq<State>, acts: seq<Action>) returns (states': seq<State>, acts': seq<Action>)
    requires IsRun(states, acts) && states[|acts|].closer.Sent? && states[|acts|].poller == Stopping
    ensures Finishes(states, acts, states', acts')
  {
    hide IsRun, Inv, Continues, Finishes, SentinelDue;
    var s1, a1 := PollStep(states, acts, Unlock);
    states', acts' := FromIdle(s1, a1);
    Continued(states, acts, s1, a1, states', acts');
  }

  lemma FromEvent(states: seq<State>, acts: seq<Action>) returns (states': seq<State>, acts': seq<Action>)
    requires IsRun(states, acts) && states[|acts|].closer.Sent?
    requires var p := states[|acts|].poller; p.Handling? && p.stage == Top && p.i < |p.evts|
    ensures Finishes(states, acts, states', acts')
  {
    hide IsRun, Inv, Continues, Finishes, SentinelDue, InBlocks;
    var s1, a1 := PollStep(states, acts, EventStep);
    StopsAt(states[|acts|]);
    EventKeepsCloser(states[|acts|]);
    hide HandleStep;
    states', acts' := FromStopping(s1, a1);
    Continued(states, acts, s1, a1, states', acts');
  }

  lemma FromWaiting(states: seq<State>, acts: seq<Action>) returns (states': seq<State>, acts': seq<Action>)
    requires IsRun(states, acts) && Awaited(states[|acts|]) && states[|acts|].poller.Waiting?
    ensures Finishes(states, acts, states', acts')
  {
    RingHasSentinel(states[|acts|]);
    hide IsRun, Inv, Continues, Finishes, SentinelDue, RingInv, Queue, InBlocks, DescribeAll;
    var s1, a1 := PollStep(states, acts, KernelReap(1));
    states', acts' := FromEvent(s1, a1);
    Continued(states, acts, s1, a1, states', acts');
  }

  lemma {:induction false} FromCopying(states: seq<State>, acts: seq<Action>)
    returns (states': seq<State>, acts': seq<Action>)
    requires IsRun(states, acts) && Awaited(states[|acts|]) && states[|acts|].poller.Copying?
    ensures Finishes(states, acts, states', acts')
    decreases states[|acts|].poller.available - |states[|acts|].poller.copied|
  {
    RingHasSentinel(states[|acts|]);
    hide IsRun, Inv, Continues, Finishes, SentinelDue, RingInv, Queue, InBlocks, DescribeAll, NextHead;
    if |states[|acts|].poller.copied| < states[|acts|].poller.available {
      var s1, a1 := PollStep(states, acts, CopySlot);
      states', acts' := FromCopying(s1, a1);
      Continued(states, acts, s1, a1, states', acts');
    } else {
      var s1, a1 := PollStep(states, acts, Publish);
      states', acts' := FromEvent(s1, a1);
      Continued(states, acts, s1, a1, states', acts');
    }
  }

  lemma FromGotHead(states: seq<State>, acts: seq<Action>) returns (states': seq<State>, acts': seq<Action>)
    requires IsRun(states, acts) && Awaited(states[|acts|]) && states[|acts|].poller.GotHead?
    ensures Finishes(states, acts, states', acts')
  {
    hide IsRun, Inv, Continues, Finishes, SentinelDue, AfterTail, Reap;
    RunLength(states, acts);
    RingHasSentinel(states[|acts|]);
    TailHasSentinel(states[|acts|]);
    var s1, a1 := PollStep(states, acts, ReadTail);
    hide PollReady, PollSafe, PollApply;
    if s1[|a1|].poller.Waiting? {
      states', acts' := FromWaiting(s1, a1);
    } else {
      states', acts' := FromCopying(s1, a1);
    }
    Continued(states, acts, s1, a1, states', acts');
  }

  lemma TailHasSentinel(s: State)
    requires Awaited(s) && s.poller.GotHead?
    ensures var p := AfterTail(s, s.poller.min, s.poller.max, s.poller.head); p.Waiting? || p.Copying?
  {
    RingHasSentinel(s);
    AvailableAt(s.ring.head, s.ring.tail, |s.ring.slots|);
    hide Inv, SentinelDue, NeedMod, Available;
  }

  lemma FromCalling(states: seq<State>, acts: seq<Action>) returns (states': seq<State>, acts': seq<Action>)
    requires IsRun(states, acts) && Awaited(states[|acts|]) && states[|acts|].poller.Calling?
    ensures Finishes(states, acts, states', acts')
  {
    hide IsRun, Inv, Continues, Finishes, SentinelDue;
    var s1, a1 := PollStep(states, acts, ReadHead);
    if s1[|a1|].poller.Waiting? {
      states', acts' := FromWaiting(s1, a1);
    } else {
      states', acts' := FromGotHead(s1, a1);
    }
    Continued(states, acts, s1, a1, states', acts');
  }

  lemma FromBatchEnd(states: seq<State>, acts: seq<Action>) returns (states': seq<State>, acts': seq<Action>)
    requires IsRun(states, acts) && Awaited(states[|acts|])
    requires var p := states[|acts|].poller; p.Handling? && p.stage == Top && p.i >= |p.evts|
    ensures Finishes(states, acts, states', acts')
  {
    PollerAtWork(states[|acts|]);
    hide IsRun, Inv, Continues, Finishes, SentinelDue;
    var s1, a1 := QuietStep(states, acts);
    states', acts' := FromCalling(s1, a1);
    Continued(states, acts, s1, a1, states', acts');
  }

  lemma FromHandling(states: seq<State>, acts: seq<Action>) returns (states': seq<State>, acts': seq<Action>)
    requires IsRun(states, acts) && Awaited(states[|acts|]) && states[|acts|].poller.Handling?
    ensures Finishes(states, acts, states', acts')
  {
    StageAfterDrain(states[|acts|]);
    hide IsRun, Inv, Continues, Finishes, SentinelDue;
    var p := states[|acts|].poller;
    if p.stage.Unref? {
      LastUnref(states[|acts|]);
      var s1, a1 := QuietStep(states, acts);
      states', acts' := FromBatchEnd(s1, a1);
      Continued(states, acts, s1, a1, states', acts');
    } else if p.i < |p.evts| {
      states', acts' := FromEvent(states, acts);
    } else {
      states', acts' := FromBatchEnd(states, acts);
    }
  }

  /** The end of a batch, or of the delivery before it. */
  lemma QuietEvent(s: State)
    requires PollReady(s, EventStep) && PollSafe(s, EventStep)
    requires s.poller.stage.Unref? || (s.poller.stage == Top && s.poller.i >= |s.poller.evts|)
    ensures var s' := HandleStep(s);
      && s'.closer == s.closer && s'.inflight == s.inflight && s'.cfg == s.cfg
      && s'.poller == if s.poller.stage.Unref? then s.poller.(i := s.poller.i + 1, stage := Top)
                      else if s.cfg.blocking then Calling(1, s.cfg.queueSize) else Returning(|s.poller.evts|)
  {
    hide InBlocks;
  }

  lemma QuietStep(states: seq<State>, acts: seq<Action>) returns (states': seq<State>, acts': seq<Action>)
    requires IsRun(states, acts)
    requires var p := states[|acts|].poller; p.Handling? && (p.stage.Unref? || (p.stage == Top && p.i >= |p.evts|))
    ensures Continues(states, acts, states', acts') && IsRun(states', acts') && |states'| == |acts'| + 1
    ensures var s, s' := states[|acts|], states'[|acts'|];
      && Inv(s') && SentinelDue(s')
      && s'.closer == s.closer && s'.inflight == s.inflight && s'.cfg == s.cfg
      && s'.poller == if s.poller.stage.Unref? then s.poller.(i := s.poller.i + 1, stage := Top)
                      else if s.cfg.blocking then Calling(1, s.cfg.queueSize) else Returning(|s.poller.evts|)
  {
    hide IsRun, Inv, Continues, SentinelDue, PollSafe, HandleStep;
    states', acts' := PollStep(states, acts, EventStep);
    QuietEvent(states[|acts|]);
  }

  lemma LastUnref(s: State)
    requires Inv(s) && !Draining(s.closer) && s.poller.Handling? && s.poller.stage.Unref?
    ensures s.poller.i + 1 == |s.poller.evts|
  {
    HandlingMeansOpen(s);
    var own :| InvAt(s, own);
    hide Inv, FinalInv, Placed, Backed, ShapePart, DataPart, RefPart, OncePart, QueuePart, PlainPart, PermitPart,
      BatchPart, LogPart,
      ClosePart, PoolPart, Queue, RingInv;
  }

  lemma FromAwaited(states: seq<State>, acts: seq<Action>) returns (states': seq<State>, acts': seq<Action>)
    requires IsRun(states, acts) && Awaited(states[|acts|])
    ensures Finishes(states, acts, states', acts')
  {
    var s := states[|acts|];
    match s.poller
    case Calling(_, _) => states', acts' := FromCalling(states, acts);
    case GotHead(_, _, _) => states', acts' := FromGotHead(states, acts);
    case Copying(_, _, _, _) => states', acts' := FromCopying(states, acts);
    case Waiting(_, _) => states', acts' := FromWaiting(states, acts);
    case Handling(_, _, _, _) => states', acts' := FromHandling(states, acts);
    case Returning(_) => NotReturning(s);
  }

  lemma NotReturning(s: State)
    requires Inv(s) && s.closer.Sent?
    ensures !s.poller.Returning?
  {
    var own :| InvAt(s, own);
    hide Inv, FinalInv, Placed, Backed, ShapePart, DataPart, RefPart, OncePart, QueuePart, PlainPart, PermitPart,
      BatchPart, LogPart,
      ClosePart, PoolPart, Queue, RingInv;
  }

  lemma FromSent(states: seq<State>, acts: seq<Action>) returns (states': seq<State>, acts': seq<Action>)
    requires IsRun(states, acts) && states[|acts|].closer.Sent?
    ensures Finishes(states, acts, states', acts')
  {
    var s := states[|acts|];
    hide IsRun, Inv, Continues, Finishes, SentinelDue;
    RunLength(states, acts);
    RunKeepsInv(states, acts, |acts|);
    RunKeepsDue(states, acts, |acts|);
    if s.poller == Idle {
      states', acts' := FromIdle(states, acts);
    } else if s.poller == Stopping {
      states', acts' := FromStopping(states, acts);
    } else if s.closer.x in s.inflight {
      hide CompleteSafe, Describe, Append;
      var s1, a1 := Step(states, acts, Complete(s.closer.x, 0));
      RunKeepsDue(s1, a1, |a1|);
      states', acts' := FromAwaited(s1, a1);
      Continued(states, acts, s1, a1, states', acts');
    } else {
      states', acts' := FromAwaited(states, acts);
    }
  }

  /** Wherever the poller is when the sentinel has been submitted, the run can
      be continued by plain steps to the destruction. */
  lemma SentCanFinish(states: seq<State>, acts: seq<Action>)
    requires IsRun(states, acts) && states[|acts|].closer.Sent?
    ensures exists states', acts' :: Finishes(states, acts, states', acts')
  {
    hide IsRun, Finishes;
    var s1, a1 := FromSent(states, acts);
  }

  // ----- Up to the drain -----

  lemma Grows(states: seq<State>, acts: seq<Action>, states': seq<State>, acts': seq<Action>)
    requires Continues(states, acts, states', acts')
    ensures |states| > 0 && states <= states' && acts <= acts'
  {
    hide IsRun;
  }

  /** With all permits home the close can drain them, and moves nothing else. */
  lemma DrainNow(states: seq<State>, acts: seq<Action>) returns (states': seq<State>, acts': seq<Action>)
    requires IsRun(states, acts)
    requires var s := states[|acts|]; s.closer == Open && s.cfg.useSemaphore && s.n.permits >= s.cfg.queueSize
    ensures IsRun(states', acts') && states <= states' && acts <= acts' && |states'| == |acts'| + 1
    ensures var s, s' := states[|acts|], states'[|acts'|];
      s'.closer == Drained && s'.cfg == s.cfg && s'.poller == s.poller && s'.subs == s.subs
  {
    hide IsRun, Inv, CloseSafe, Continues;
    var s1, a1 := CloseStep(states, acts, Begin);
    Grows(states, acts, s1, a1);
    states', acts' := CloseStep(s1, a1, Drain);
    Grows(s1, a1, states', acts');
  }

  // ----- From the drain on -----

  /** The poll cannot return before somebody completes something. */
  predicate MustWait(p: Poller) {
    (p.Calling? || p.GotHead? || p.Waiting?) && p.min > 0
  }

  /** What `DrainedIsQuiet` says about a poller that is still at work. */
  lemma DrainedPoller(s: State)
    requires Inv(s) && s.closer == Drained
    ensures s.closed && s.cfg.useSemaphore && s.n.permits == 0 && s.inflight == {}
    ensures RingInv(s.ring) && Queue(s.ring) == []
    ensures forall t :: t in s.subs ==> AtRest(s.subs[t])
    ensures !s.poller.Copying?
    ensures s.poller.GotHead? ==> s.poller.head == s.ring.head
    ensures !s.cfg.blocking && s.poller.Handling? ==> s.poller.stage == Top && s.poller.i >= |s.poller.evts|
    ensures !s.cfg.blocking ==> !s.poller.Stopping?
  {
    var own :| InvAt(s, own);
    DrainedIsQuiet(s, own);
    hide Inv, FinalInv, Placed, Backed, ShapePart, DataPart, RefPart, OncePart, QueuePart, PlainPart, PermitPart,
      BatchPart, LogPart,
      DrainPart, PoolPart, PoolInv, Permutation, Window;
  }

  lemma AlwaysSpace(s: State)
    requires Inv(s)
    ensures s.closer != NoSpace
  {
    if !Released(s.closer) {
      var own :| InvAt(s, own);
      hide Placed, Backed, ShapePart, DataPart, RefPart, OncePart, QueuePart, PlainPart, PermitPart, BatchPart,
        LogPart, PollerPart,
        DrainPart, PoolPart, SizePart, FinalInv, Inv;
    }
  }

  lemma FromDrained(states: seq<State>, acts: seq<Action>) returns (states': seq<State>, acts': seq<Action>)
    requires IsRun(states, acts) && states[|acts|].closer == Drained
    requires states[|acts|].cfg.blocking || states[|acts|].poller == Idle
    ensures Finishes(states, acts, states', acts')
  {
    hide IsRun, Inv, Continues, Finishes, CloseSafe, Get;
    var s1, a1 := CloseStep(states, acts, ObtainSentinel);
    AlwaysSpace(s1[|a1|]);
    var s2, a2 := FromTook(s1, a1);
    Continued(states, acts, s1, a1, s2, a2);
    states', acts' := s2, a2;
  }

  lemma FromTook(states: seq<State>, acts: seq<Action>) returns (states': seq<State>, acts': seq<Action>)
    requires IsRun(states, acts) && states[|acts|].closer.Took?
    ensures Finishes(states, acts, states', acts')
  {
    hide IsRun, Inv, Continues, Finishes, CloseSafe;
    var s1, a1 := CloseStep(states, acts, ReadySentinel);
    var s2, a2 := CloseStep(s1, a1, AcceptSentinel);
    states', acts' := FromSent(s2, a2);
    Chained(states, acts, s1, a1, s2, a2, states', acts');
  }

  /** One step of an array poll that has nothing to wait for brings it closer to
      its return; `Rank` counts the steps. */
  function Rank(p: Poller): (r: nat) {
    match p
    case Calling(_, _) => 5
    case GotHead(_, _, _) => 4
    case Waiting(_, _) => 3
    case Handling(_, _, _, _) => 2
    case Returning(_) => 1
    case _ => 0
  }

  /** The poll is one step nearer to its return, and the close where it was. */
  ghost predicate Nearer(s: State, s': State) {
    s'.closer == Drained && s'.cfg == s.cfg && !MustWait(s'.poller) && Rank(s'.poller) < Rank(s.poller)
  }

  lemma DrainedPollStep(states: seq<State>, acts: seq<Action>) returns (states': seq<State>, acts': seq<Action>)
    requires IsRun(states, acts)
    requires var s := states[|acts|]; s.closer == Drained && !s.cfg.blocking && s.poller != Idle && !MustWait(s.poller)
    ensures Continues(states, acts, states', acts') && IsRun(states', acts') && |states'| == |acts'| + 1
    ensures Nearer(states[|acts|], states'[|acts'|])
  {
    hide IsRun, Inv, Continues, SentinelDue, PollReady, PollSafe, PollApply, Plain, RingInv, Queue, NextPoll, Nearer;
    RunLength(states, acts);
    RunKeepsInv(states, acts, |acts|);
    var s := states[|acts|];
    DrainedPoller(s);
    if s.poller.Handling? {
      states', acts' := QuietStep(states, acts);
      BatchOver(s, states'[|acts'|]);
    } else {
      NextIsReady(s);
      states', acts' := PollStep(states, acts, NextPoll(s));
      RankFalls(s, NextPoll(s));
    }
  }

  lemma BatchOver(s: State, s': State)
    requires s.closer == Drained && s.poller.Handling?
    requires s'.closer == s.closer && s'.cfg == s.cfg && s'.poller.Returning?
    ensures Nearer(s, s')
  {
  }

  lemma NextIsReady(s: State)
    requires !MustWait(s.poller) && RingInv(s.ring) && !s.poller.Copying? && !s.poller.Handling?
    requires s.poller != Idle && !s.poller.Stopping?
    ensures PollReady(s, NextPoll(s)) && Plain(s, Poll(NextPoll(s))) && !NextPoll(s).Start?
    ensures s.poller.Calling? || s.poller.GotHead? || s.poller.Waiting? || s.poller.Returning?
  {
    hide Queue, RingInv;
  }

  function NextPoll(s: State): (a: PollAction) {
    match s.poller
    case Calling(_, _) => ReadHead
    case GotHead(_, _, _) => ReadTail
    case Waiting(_, _) => KernelReap(0)
    case _ => ReleaseAll
  }

  lemma RankFalls(s: State, a: PollAction)
    requires s.closer == Drained && !MustWait(s.poller) && RingInv(s.ring) && Queue(s.ring) == []
    requires s.poller.Calling? || s.poller.GotHead? || s.poller.Waiting? || s.poller.Returning?
    requires s.poller.GotHead? ==> s.poller.head == s.ring.head
    requires a == NextPoll(s) && PollReady(s, a) && PollSafe(s, a)
    ensures Nearer(s, PollApply(s, a))
  {
    hide Reap, AfterTail, HandleStep, Queue, DescribeAll;
    if a == ReadTail {
      EmptyTail(s);
      ReapEffect(s, s.ring.head, []);
    }
    if a == KernelReap(0) {
      ReapEffect(s, Slot(s.ring.head, 0, |s.ring.slots|), Queue(s.ring)[..0]);
    }
  }

  lemma ReapEffect(s: State, head: nat, evts: seq<Event>)
    requires InBlocks(s.n.blocks, evts)
    ensures var s' := Reap(s, head, evts);
      s'.closer == s.closer && s'.cfg == s.cfg && s'.poller == Handling(evts, 0, -1, Top)
  {
    hide DescribeAll;
  }

  lemma EmptyTail(s: State)
    requires s.poller.GotHead? && RingInv(s.ring) && Queue(s.ring) == [] && s.poller.head == s.ring.head
    ensures AfterTail(s, s.poller.min, s.poller.max, s.poller.head)
         == if s.poller.min <= 0 then Handling([], 0, -1, Top) else Waiting(s.poller.min, s.poller.max)
  {
    AvailableAt(s.ring.head, s.ring.tail, |s.ring.slots|);
    hide NeedMod, Available, Window;
  }

  lemma {:induction false} FromDrainedArray(states: seq<State>, acts: seq<Action>)
    returns (states': seq<State>, acts': seq<Action>)
    requires IsRun(states, acts)
    requires var s := states[|acts|]; s.closer == Drained && !s.cfg.blocking && !MustWait(s.poller)
    ensures Finishes(states, acts, states', acts')
    decreases Rank(states[|acts|].poller)
  {
    hide IsRun, Continues, Finishes;
    RunLength(states, acts);
    if states[|acts|].poller == Idle {
      states', acts' := FromDrained(states, acts);
    } else {
      var s1, a1 := DrainedPollStep(states, acts);
      states', acts' := FromDrainedArray(s1, a1);
      Continued(states, acts, s1, a1, states', acts');
    }
  }

  /** A drained close, and an array poll that waits for events that nobody can
      produce any more: there is no submitter left, and the sentinel is not
      sent before the poll returns. */
  ghost predicate Stuck(s: State) {
    Inv(s) && HeldBack(s)
  }

  ghost predicate HeldBack(s: State) {
    s.closer == Drained && !s.cfg.blocking && MustWait(s.poller)
  }

  lemma StaysStuck(s: State, a: Action)
    requires Stuck(s) && Ready(s, a) && Safe(s, a) && Plain(s, a)
    ensures Stuck(Apply(s, a))
  {
    hide Inv, HeldBack, Ready, Safe, Apply, Plain;
    StepKeepsInv(s, a);
    StaysHeldBack(s, a);
  }

  lemma StaysHeldBack(s: State, a: Action)
    requires Inv(s) && HeldBack(s) && Ready(s, a) && Safe(s, a) && Plain(s, a)
    ensures HeldBack(Apply(s, a))
  {
    DrainedPoller(s);
    hide Inv, Queue, RingInv, SubApply, PollApply, CompleteApply, CloseApply, SubReady, PollReady, CloseReady;
    hide CompleteSafe, PollSafe, CloseSafe, SubSafe;
    match a
    case Sub(t, sub) => SubHeldBack(s, t, sub);
    case Complete(_, _) =>
    case Poll(poll) => PollStaysStuck(s, poll);
    case Close(close) => CloseHeldBack(s, close);
    case SetForce(_) =>
  }

  lemma SubHeldBack(s: State, t: Tid, a: SubAction)
    requires s.closed && s.cfg.useSemaphore && s.n.permits == 0
    requires forall u :: u in s.subs ==> AtRest(s.subs[u])
    ensures !SubReady(s, t, a)
  {
    assert t in s.subs ==> AtRest(s.subs[t]);
  }

  lemma CloseHeldBack(s: State, a: CloseAction)
    requires s.closer == Drained && !s.cfg.blocking && !s.poller.Idle?
    ensures !(CloseReady(s, a) && Orderly(s, Close(a)))
  {
    hide RingInv, Queue;
  }

  lemma PollStaysStuck(s: State, a: PollAction)
    requires s.closer == Drained && !s.cfg.blocking && MustWait(s.poller) && RingInv(s.ring) && Queue(s.ring) == []
    requires s.poller.GotHead? ==> s.poller.head == s.ring.head
    requires PollReady(s, a) && PollSafe(s, a) && Plain(s, Poll(a))
    ensures var s' := PollApply(s, a); s'.closer == Drained && !s'.cfg.blocking && MustWait(s'.poller)
  {
    hide Reap, AfterTail, HandleStep, DescribeAll, InBlocks, Queue, NextHead;
    if a == ReadTail { EmptyTail(s); }
  }

  lemma {:induction false} StuckForever(states: seq<State>, acts: seq<Action>, j: nat, k: nat)
    requires IsRun(states, acts) && j <= k <= |acts| && Stuck(states[j])
    requires forall i :: j <= i < k ==> PlainAt(states, acts, i)
    ensures Stuck(states[k])
  {
    hide IsRun, Inv, Ready, Safe, Apply, Plain, Stuck;
    if j < k {
      StuckForever(states, acts, j, k - 1);
      StepOf(states, acts, k - 1);
      assert PlainAt(states, acts, k - 1);
      StaysStuck(states[k - 1], acts[k - 1]);
    }
  }

  /** After a successful drain the close can be completed by plain steps if and
      only if no array poll is waiting for at least one event: with the blocked
      poller always, wherever it is. */
  lemma DrainedCanFinish(states: seq<State>, acts: seq<Action>)
    requires IsRun(states, acts) && states[|acts|].closer == Drained
    ensures (exists states': seq<State>, acts': seq<Action> :: Finishes(states, acts, states', acts'))
       <==> states[|acts|].cfg.blocking || !MustWait(states[|acts|].poller)
  {
    RunLength(states, acts);
    RunKeepsInv(states, acts, |acts|);
    hide IsRun, Inv;
    if states[|acts|].cfg.blocking {
      hide Finishes;
      var s1, a1 := FromDrained(states, acts);
    } else if !MustWait(states[|acts|].poller) {
      hide Finishes;
      var s1, a1 := FromDrainedArray(states, acts);
    } else {
      forall s1: seq<State>, a1: seq<Action> | Continues(states, acts, s1, a1) ensures !Finishes(states, acts, s1, a1) {
        NeverFinishes(states, acts, s1, a1);
      }
    }
  }

  lemma NeverFinishes(states: seq<State>, acts: seq<Action>, states': seq<State>, acts': seq<Action>)
    requires Continues(states, acts, states', acts') && Stuck(states[|acts|])
    ensures !Finishes(states, acts, states', acts')
  {
    hide IsRun, Plain, Inv;
    assert states'[|acts|] == states[|acts|];
    RunLength(states', acts');
    StuckForever(states', acts', |acts|, |acts'|);
  }

  /** From any moment of any run with all permits home, under the same condition. */
  lemma CloseCanFinish(states: seq<State>, acts: seq<Action>)
    requires IsRun(states, acts)
    requires var s := states[|acts|];
      && (s.closer == Open || s.closer == Closing)
      && s.cfg.useSemaphore && s.n.permits >= s.cfg.queueSize && (s.cfg.blocking || !MustWait(s.poller))
    ensures exists states': seq<State>, acts': seq<Action> :: Finishes(states, acts, states', acts')
  {
    hide IsRun, Inv, Continues, CloseSafe;
    RunLength(states, acts);
    var s1, a1 := FromClosing(states, acts);
    hide Finishes;
  }

  lemma FromClosing(states: seq<State>, acts: seq<Action>) returns (states': seq<State>, acts': seq<Action>)
    requires IsRun(states, acts)
    requires var s := states[|acts|];
      && (s.closer == Open || s.closer == Closing)
      && s.cfg.useSemaphore && s.n.permits >= s.cfg.queueSize && (s.cfg.blocking || !MustWait(s.poller))
    ensures Finishes(states, acts, states', acts')
    decreases if states[|acts|].closer == Open then 1 else 0
  {
    hide IsRun, Inv, Continues, Finishes, CloseSafe;
    RunLength(states, acts);
    if states[|acts|].closer == Open {
      var s1, a1 := CloseStep(states, acts, Begin);
      states', acts' := FromClosing(s1, a1);
      Continued(states, acts, s1, a1, states', acts');
    } else {
      var s1, a1 := CloseStep(states, acts, Drain);
      if s1[|a1|].cfg.blocking {
        states', acts' := FromDrained(s1, a1);
      } else {
        states', acts' := FromDrainedArray(s1, a1);
      }
      Continued(states, acts, s1, a1, states', acts');
    }
  }
}
