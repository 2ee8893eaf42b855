/** The dumb write that stops the poller. */
module Sentinel {
  import opened Options
  import opened RingArithmetic
  import opened IocbPool
  import opened AioRing
  import opened Trace
  import opened Machine
  import opened Invariant
  import opened EventSteps
  import opened Runs
  import opened Guarantees

  ghost predicate PollerGoesOn(s: State) {
    !s.poller.Idle? && !s.poller.Stopping?
  }

  /** While the poller goes on after the sentinel was sent, the sentinel is the
      one block outstanding. */
  ghost predicate SentinelDue(s: State) {
    s.closer.Sent? && PollerGoesOn(s) ==> s.n.pool.used == 1
  }

  lemma NoSubmissions(s: State, t: Tid, a: SubAction)
    requires Inv(s) && !Draining(s.closer)
    ensures !SubReady(s, t, a)
  {
    DrainedOthers(s);
    ClosedWithPermitsGone(s);
    hide Inv, PlainPart;
    assert t in s.subs ==> AtRest(s.subs[t]);
  }

  lemma ClosedWithPermitsGone(s: State)
    requires Inv(s) && !Draining(s.closer)
    ensures s.closed && s.cfg.useSemaphore && s.n.permits == 0
  {
    if !Released(s.closer) {
      var own :| InvAt(s, own);
      hide Inv, FinalInv, Placed, Backed, ShapePart, DataPart, RefPart, OncePart, QueuePart, PlainPart, PermitPart,
        BatchPart, LogPart, PoolPart, PollerPart, Queue, RingInv;
    } else {
      hide InvAt, ShapePart, Permutation, RefsOnce, LogOf, PlainPart, Indexed, Flatten;
    }
  }

  /** Past the drain no event is being delivered. */
  lemma StageAfterDrain(s: State)
    requires Inv(s) && !Draining(s.closer) && s.poller.Handling?
    ensures s.poller.stage.Top? || s.poller.stage.Unref?
  {
    assert !Released(s.closer);
    var own :| InvAt(s, own);
    hide Inv, FinalInv, Placed, Backed, ShapePart, DataPart, RefPart, OncePart, QueuePart, PlainPart, PermitPart,
      BatchPart, LogPart, PoolPart, PollerPart, Queue, RingInv;
  }

  lemma SentInUse(s: State)
    requires Inv(s) && s.closer.Readied?
    ensures s.n.pool.used == 1
  {
    var own :| InvAt(s, own);
    hide Inv, FinalInv, Placed, Backed, ShapePart, DataPart, RefPart, OncePart, QueuePart, PlainPart, PermitPart,
      BatchPart, LogPart, PollerPart, Queue, RingInv, Free, Partition, Permutation;
    assert own.Keys == {s.closer.x};
  }

  lemma PollKeepsDue(s: State, a: PollAction)
    requires Inv(s) && s.closer.Sent? && SentinelDue(s) && PollReady(s, a) && PollSafe(s, a) && Orderly(s, Poll(a))
    ensures SentinelDue(PollApply(s, a))
  {
    ClosedWithPermitsGone(s);
    if a.EventStep? {
      StageAfterDrain(s);
      hide Inv;
      EventKeepsDue(s);
    } else {
      hide Inv, HandleStep, DescribeAll, Queue, RingInv, Available, NeedMod, NextHead;
    }
  }

  lemma EventKeepsDue(s: State)
    requires s.closer.Sent? && SentinelDue(s) && PollReady(s, EventStep) && PollSafe(s, EventStep)
    requires s.poller.stage.Top? || s.poller.stage.Unref?
    ensures SentinelDue(HandleStep(s))
  {
    hide Put, InBlocks;
  }

  lemma CloseKeepsDue(s: State, a: CloseAction)
    requires Inv(s) && CloseReady(s, a) && CloseSafe(s, a)
    ensures SentinelDue(CloseApply(s, a))
  {
    if a.AcceptSentinel? { SentInUse(s); }
    hide Inv, Queue, RingInv, Get, Put, DescribeAll;
  }

  lemma StepKeepsDue(s: State, a: Action)
    requires Inv(s) && SentinelDue(s) && Ready(s, a) && Safe(s, a)
    ensures SentinelDue(Apply(s, a))
  {
    hide Inv, SubReady, SubSafe, SubApply, PollReady, PollSafe, PollApply, CloseReady, CloseSafe, CloseApply;
    match a
    case Sub(t, sub) => SubKeepsDue(s, t, sub);
    case Complete(_, _) =>
    case Poll(poll) => if s.closer.Sent? { PollKeepsDue(s, poll); } else { PollKeepsCloser(s, poll); }
    case Close(close) => CloseKeepsDue(s, close);
    case SetForce(_) =>
  }

  lemma SubKeepsDue(s: State, t: Tid, a: SubAction)
    requires Inv(s) && SubReady(s, t, a) && SubSafe(s, t, a)
    ensures SentinelDue(SubApply(s, t, a))
  {
    if !Draining(s.closer) { NoSubmissions(s, t, a); }
    hide Inv, SubReady, Get, Put;
  }

  lemma PollKeepsCloser(s: State, a: PollAction)
    requires PollReady(s, a) && PollSafe(s, a)
    ensures PollApply(s, a).closer == s.closer
  {
    hide HandleStep, Queue, RingInv, DescribeAll, InBlocks;
    if a.EventStep? { EventKeepsCloser(s); }
  }

  lemma {:induction false} RunKeepsDue(states: seq<State>, acts: seq<Action>, k: nat)
    requires IsRun(states, acts) && k <= |acts|
    ensures SentinelDue(states[k])
  {
    hide Inv, Ready, Safe, Apply, StepAt;
    if k > 0 {
      hide IsRun, SentinelDue;
      RunKeepsDue(states, acts, k - 1);
      StepOf(states, acts, k - 1);
      StepKeepsDue(states[k - 1], acts[k - 1]);
    }
  }

  /** The dumb write does its job: in every state of every run in which it has
      been submitted and the poller has not left its loop, it is still on its
      way to the poller: in the kernel, in the ring or in the batch in hand;
      and nothing else is.  The poller never waits for an event that nobody
      can produce. */
  lemma SentinelOnItsWay(states: seq<State>, acts: seq<Action>, k: nat)
    requires IsRun(states, acts) && k <= |acts| && states[k].closer.Sent? && PollerGoesOn(states[k])
    ensures var s := states[k];
      && RingInv(s.ring)
      && InTransit(s, s.closer.x)
      && (forall i :: Outstanding(s, i) ==> i == s.closer.x)
      && (s.closer.x in s.inflight || HasBlock(Queue(s.ring), s.closer.x) || HasBlock(Unclaimed(s.poller), s.closer.x))
  {
    RunKeepsInv(states, acts, k);
    RunKeepsDue(states, acts, k);
    hide IsRun;
    OnItsWay(states[k]);
  }

  lemma OnItsWay(s: State)
    requires Inv(s) && SentinelDue(s) && s.closer.Sent? && PollerGoesOn(s)
    ensures RingInv(s.ring) && InTransit(s, s.closer.x)
    ensures forall i :: Outstanding(s, i) ==> i == s.closer.x
    ensures s.closer.x in s.inflight || HasBlock(Queue(s.ring), s.closer.x) || HasBlock(Unclaimed(s.poller), s.closer.x)
  {
    DrainedOthers(s);
    SentinelIsOut(s);
    if s.poller.Handling? { StageAfterDrain(s); }
    hide Inv, Queue, RingInv, SentinelDue;
    assert forall t :: t in s.subs ==> SubHeld(s.subs[t]) == None;
  }

  lemma SentinelIsOut(s: State)
    requires Inv(s) && SentinelDue(s) && s.closer.Sent? && PollerGoesOn(s)
    ensures RingInv(s.ring) && Outstanding(s, s.closer.x)
  {
    DrainedOthers(s);
    var own :| InvAt(s, own);
    hide Inv, InvAt, Outstanding, Queue;
    var x := SoleOwned(s, own);
    OutstandingIsOwned(s, own, x);
  }

  lemma SoleOwned(s: State, own: Owners) returns (x: Iocb)
    requires InvAt(s, own) && s.n.pool.used == 1
    ensures x in own
  {
    assert |own.Keys| == 1;
    x :| x in own.Keys;
  }

  /** Past the drain the poller reaps at most one event more.  It is the
      sentinel, it is its whole batch, it ends the loop, and it was the last
      block outstanding. */
  lemma SentinelEndsTheLoop(states: seq<State>, acts: seq<Action>, k: nat)
    requires IsRun(states, acts) && k < |acts| && acts[k] == Poll(EventStep) && !Draining(states[k].closer)
    requires states[k].poller.Handling? && states[k].poller.stage == Top && states[k].poller.i < |states[k].poller.evts|
    ensures |states[k].poller.evts| == 1 && SentinelOf(states[k].closer) == Some(states[k].poller.evts[0].obj)
    ensures states[k + 1].poller == Stopping && states[k + 1].n.pool.used == 0
    ensures states[k + 1].n.log == states[k].n.log && states[k + 1].n.live == states[k].n.live
  {
    StepOf(states, acts, k);
    hide IsRun;
    StopsAt(states[k]);
  }

  lemma StopsAt(s: State)
    requires Inv(s) && PollReady(s, EventStep) && PollSafe(s, EventStep) && !Draining(s.closer)
    requires s.poller.stage == Top && s.poller.i < |s.poller.evts|
    ensures |s.poller.evts| == 1 && SentinelOf(s.closer) == Some(s.poller.evts[0].obj)
    ensures var s' := HandleStep(s);
      && s'.poller == Stopping && s'.n.pool.used == 0
      && s'.n.log == s.n.log && s'.n.live == s.n.live
  {
    SentinelInHand(s);
    hide Inv, HandleStep, PollReady, PollSafe, Draining, SentinelOf;
    DumbEvent(s);
  }

  /** An event still to be handled after the drain is the sentinel. */
  lemma SentinelInHand(s: State)
    requires Inv(s) && !Draining(s.closer)
    requires s.poller.Handling? && s.poller.stage == Top && s.poller.i < |s.poller.evts|
    ensures var p := s.poller;
      && |p.evts| == 1 && p.i == 0 && SentinelOf(s.closer) == Some(p.evts[0].obj)
      && p.evts[0].obj in s.n.blocks && s.n.blocks[p.evts[0].obj].fd == s.cfg.dumbFd
      && s.cfg.blocking && s.n.pool.used == 1
  {
    HandlingMeansOpen(s);
    var own :| InvAt(s, own);
    hide Inv, FinalInv, InvAt;
    LoneEvent(s, own);
    UsedIsOwned(s, own);
    hide Draining, SentinelOf;
  }

  /** What the loop does with an event on the dumb file. */
  lemma DumbEvent(s: State)
    requires PollReady(s, EventStep) && PollSafe(s, EventStep)
    requires s.poller.stage == Top && s.poller.i < |s.poller.evts| && s.cfg.blocking
    requires s.n.blocks[s.poller.evts[s.poller.i].obj].fd == s.cfg.dumbFd
    ensures var s' := HandleStep(s);
      && s'.poller == Stopping && s'.n.pool.used == s.n.pool.used - 1
      && s'.n.log == s.n.log && s'.n.live == s.n.live
  {
  }

  lemma UsedIsOwned(s: State, own: Owners)
    requires InvAt(s, own)
    ensures s.n.pool.used == |own.Keys|
  {
    hide Placed, Backed, ShapePart, DataPart, RefPart, OncePart, QueuePart, PlainPart, PermitPart, BatchPart, LogPart,
      PollerPart, ClosePart, DrainPart, Queue, RingInv, Free, Partition;
  }
}
