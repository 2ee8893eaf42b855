/** The invariant holds in every state of every run. */
module Runs {
  import opened Circular
  import opened Options
  import opened RingArithmetic
  import opened IocbPool
  import opened AioRing
  import opened Trace
  import opened Machine
  import opened Invariant
  import opened SubmitterSteps
  import opened KernelSteps
  import opened PollerSteps
  import opened EventSteps
  import opened CloserSteps

  lemma InitHolds(s: State)
    requires Init(s)
    ensures InvAt(s, map[])
  {
    hide PoolPart, Queue, RingInv, Placed, Backed, PermitPart, QueuePart, LogPart, Window, NoDup, Elements;
    InitPool(s);
    InitQuiet(s);
    InitHistory(s);
    var own: Owners := map[];
    assert own.Keys == {};
    assert SentinelOf(s.closer) == None && CloserHeld(s.closer) == None && Claimed(s.poller) == None &&
      Unclaimed(s.poller) == [];
  }

  lemma InitHistory(s: State)
    requires Init(s)
    ensures QueuePart(s.n.blocks, [], s.batches, s.completed)
    ensures LogPart(s.cfg, s.poller, s.batches, s.n.log)
    ensures PermitPart(s.cfg, s.n.permits, Admissions(s.subs), 0, 0, 0, Open)
  {
    hide Queue, RingInv;
    assert Admitteds(s.subs) == {};
    assert Flatten([]) == [];
    assert LogOf(s.cfg, []) == [];
  }

  lemma InitPool(s: State)
    requires Init(s)
    ensures PoolPart(s.cfg, s.n.pool, s.n.blocks.Keys, {})
  {
    WindowFull(s.n.pool.slots, 0);
    assert Free(s.n.pool) == s.n.pool.slots;
  }

  lemma InitQuiet(s: State)
    requires Init(s)
    ensures Queue(s.ring) == []
    ensures Placed(map[], s.subs, s.inflight, [], [], None, None)
    ensures Backed(map[], s.subs, s.inflight, [], [], None, None)
  {
  }

  lemma PollerKeeps(s: State, own: Owners, a: PollAction) returns (own': Owners)
    requires InvAt(s, own) && PollReady(s, a) && PollSafe(s, a) && Orderly(s, Poll(a))
    ensures InvAt(PollApply(s, a), own')
  {
    hide InvAt;
    own' := own;
    match a
    case Start(min, max) => StartKeeps(s, own, min, max);
    case ReadHead => ReadHeadKeeps(s, own);
    case ReadTail => own' := ReadTailKeeps(s, own);
    case CopySlot => CopySlotKeeps(s, own);
    case Publish => own' := PublishKeepsInv(s, own);
    case KernelReap(count) => own' := KernelReapKeeps(s, own, count);
    case KernelFail(interrupted) => KernelFailKeeps(s, own, interrupted);
    case EventStep => own' := EventKeeps(s, own);
    case ReleaseAll => ReleaseAllKeeps(s, own);
    case Unlock => UnlockKeeps(s, own);
  }

  lemma ForceKeeps(s: State, own: Owners, value: bool)
    requires InvAt(s, own)
    ensures InvAt(Apply(s, SetForce(value)), own)
  {
    hide PoolPart, Placed, Backed, ShapePart, DataPart, RefPart, OncePart, QueuePart, PlainPart, PollerPart,
      BatchPart, LogPart, PermitPart, ClosePart, DrainPart;
  }

  lemma StepKeepsInvAt(s: State, own: Owners, a: Action) returns (own': Owners)
    requires InvAt(s, own) && Ready(s, a) && Safe(s, a) && a != Close(ReleaseQueue) && a != Close(Destroy)
    ensures InvAt(Apply(s, a), own')
  {
    hide InvAt, SubApply, CompleteApply, PollApply, CloseApply;
    own' := own;
    match a
    case Sub(t, sub) => own' := SubmitterKeeps(s, own, t, sub);
    case Complete(i, res) => own' := CompleteKeeps(s, own, i, res);
    case Poll(poll) => own' := PollerKeeps(s, own, poll);
    case Close(close) => own' := CloserKeeps(s, own, close);
    case SetForce(value) => ForceKeeps(s, own, value);
  }

  /** Once the queue is released, only the destruction and the static switch remain. */
  lemma FinalActions(s: State, a: Action)
    requires FinalInv(s) && Released(s.closer) && Ready(s, a)
    ensures a.SetForce? || (a == Close(Destroy) && s.closer.Quiesced?)
  {
    hide LogOf, Flatten, Permutation, PlainPart, RefsOnce, ShapePart;
    assert a.Sub? && a.t in s.subs ==> AtRest(s.subs[a.t]);
  }

  lemma FinalKeeps(s: State, a: Action)
    requires FinalInv(s) && Released(s.closer) && Ready(s, a) && Safe(s, a)
    ensures FinalInv(Apply(s, a)) && Released(Apply(s, a).closer)
  {
    FinalActions(s, a);
    hide LogOf, Flatten, Permutation, PlainPart, RefsOnce, ShapePart;
  }

  lemma ReleasedOnlyByRelease(s: State, a: Action)
    requires Ready(s, a) && Safe(s, a) && !Released(s.closer) && Released(Apply(s, a).closer)
    ensures a == Close(ReleaseQueue)
  {
    hide HandleStep, Reap, Queue, RingInv, Get, Put, DescribeAll, InBlocks;
    if a == Poll(EventStep) { EventKeepsCloser(s); }
    if a.Poll? && (a.poll.ReadTail? || a.poll.Publish? || a.poll.KernelReap?) { ReapKeepsCloser(s, a.poll); }
  }

  lemma ReapKeepsCloser(s: State, a: PollAction)
    requires PollReady(s, a) && PollSafe(s, a) && (a.ReadTail? || a.Publish? || a.KernelReap?)
    ensures PollApply(s, a).closer == s.closer
  {
    hide HandleStep, Queue, RingInv, DescribeAll, InBlocks;
  }

  lemma EventKeepsCloser(s: State)
    requires PollReady(s, EventStep) && PollSafe(s, EventStep)
    ensures HandleStep(s).closer == s.closer
  {
    hide Put, I32, Queue, RingInv;
  }

  lemma DestroyComesLast(s: State)
    requires Ready(s, Close(Destroy))
    ensures Released(s.closer)
  {
  }

  lemma InvIntro(s: State, own: Owners)
    requires InvAt(s, own) && !Released(s.closer)
    ensures Inv(s)
  {
    hide InvAt, FinalInv;
  }

  lemma FinalIntro(s: State)
    requires FinalInv(s) && Released(s.closer)
    ensures Inv(s)
  {
    hide InvAt, FinalInv;
  }

  lemma OpenStepKeepsInv(s: State, own: Owners, a: Action)
    requires InvAt(s, own) && !Released(s.closer) && Ready(s, a) && Safe(s, a) && a != Close(ReleaseQueue)
    ensures Inv(Apply(s, a))
  {
    hide InvAt, FinalInv, Inv, Ready, Safe, Apply, Released;
    if a == Close(Destroy) { DestroyComesLast(s); }
    if Released(Apply(s, a).closer) { ReleasedOnlyByRelease(s, a); }
    var own' := StepKeepsInvAt(s, own, a);
    InvIntro(Apply(s, a), own');
  }

  /** One step of anybody keeps the invariant. */
  lemma StepKeepsInv(s: State, a: Action)
    requires Inv(s) && Ready(s, a) && Safe(s, a)
    ensures Inv(Apply(s, a))
  {
    hide InvAt, FinalInv, Ready, Safe, Apply, Released;
    if Released(s.closer) {
      FinalKeeps(s, a);
      FinalIntro(Apply(s, a));
    } else {
      var own :| InvAt(s, own);
      hide Inv;
      if a == Close(ReleaseQueue) {
        QueueReleased(s, own);
        FinalIntro(Apply(s, a));
      } else {
        OpenStepKeepsInv(s, own, a);
      }
    }
  }

  lemma QueueReleased(s: State, own: Owners)
    requires InvAt(s, own) && Ready(s, Close(ReleaseQueue)) && Safe(s, Close(ReleaseQueue))
    ensures FinalInv(Apply(s, Close(ReleaseQueue))) && Released(Apply(s, Close(ReleaseQueue)).closer)
  {
    hide InvAt, FinalInv;
    ReleaseQueueKeeps(s, own);
  }

  /** In every state of every run the invariant holds. */
  lemma {:induction false} RunKeepsInv(states: seq<State>, acts: seq<Action>, k: nat)
    requires IsRun(states, acts) && k <= |acts|
    ensures Inv(states[k])
  {
    if k == 0 {
      InitHolds(states[0]);
      hide InvAt;
    } else {
      RunKeepsInv(states, acts, k - 1);
      assert StepAt(states, acts, k - 1);
      hide Inv;
      StepKeepsInv(states[k - 1], acts[k - 1]);
    }
  }

  // ----- Memory safety -----

  lemma SubmitterIsSafe(s: State, own: Owners, t: Tid, a: SubAction)
    requires InvAt(s, own) && SubReady(s, t, a)
    ensures SubSafe(s, t, a)
  {
    hide Placed, Backed, DataPart, RefPart, OncePart, QueuePart, PlainPart, PollerPart, BatchPart, LogPart,
      PermitPart, DrainPart;
    if SubHeld(s.subs[t]).Some? {
      HeldFacts(s, own, t);
    }
  }

  lemma CloserIsSafe(s: State, own: Owners, a: CloseAction)
    requires InvAt(s, own) && CloseReady(s, a)
    ensures CloseSafe(s, a)
  {
    hide Placed, Backed, ShapePart, DataPart, RefPart, OncePart, QueuePart, PlainPart, PollerPart, BatchPart, LogPart,
      PermitPart, DrainPart, ClosePart, Queue;
    if a.ReadySentinel? { SentinelHeld(s, own); }
    if a.Sweep? { JoinedQueue(s, own); }
  }

  lemma ReadyIsSafe(s: State, a: Action)
    requires Inv(s) && Ready(s, a)
    ensures Safe(s, a)
  {
    if Released(s.closer) {
      FinalActions(s, a);
    } else {
      var own :| InvAt(s, own);
      hide InvAt, SubReady, CompleteReady, PollReady, CloseReady, SubSafe, CompleteSafe, PollSafe, CloseSafe;
      match a
      case Sub(t, sub) => SubmitterIsSafe(s, own, t, sub);
      case Complete(i, _) => RingHasRoom(s, own, i);
      case Poll(poll) => PollerIsSafe(s, own, poll);
      case Close(close) => CloserIsSafe(s, own, close);
      case SetForce(_) =>
    }
  }

  /** No run ever reaches an access out of bounds: of the ring, of the buffer
      of `queueSize` events, of the pool or of the blocks.  In particular the
      kernel always finds a free slot for a completion. */
  lemma MemorySafety(states: seq<State>, acts: seq<Action>, k: nat, a: Action)
    requires IsRun(states, acts) && k <= |acts| && Ready(states[k], a)
    ensures Safe(states[k], a)
  {
    RunKeepsInv(states, acts, k);
    ReadyIsSafe(states[k], a);
  }
}
