/** The steps of `ringio_get_events` inside the poller keep the invariant. */
module PollerSteps {
  import opened Circular
  import opened RingArithmetic
  import opened IocbPool
  import opened AioRing
  import opened Lifecycle
  import opened Trace
  import opened Machine
  import opened Invariant
  import opened KernelSteps

  /** A step outside a batch that moves nothing but the poller. */
  lemma PollerMoves(s: State, own: Owners, p: Poller)
    requires InvAt(s, own) && !s.poller.Handling? && !p.Handling?
    requires PollerPart(s.cfg, s.ring, p)
    requires PendingRelease(s.cfg, p) == PendingRelease(s.cfg, s.poller)
    requires ClosePart(s.cfg, s.closed, p, s.closer) && (!Draining(s.closer) ==> !p.Returning?)
    ensures InvAt(s.(poller := p), own)
  {
    hide Placed, Backed, ShapePart, DataPart, RefPart, OncePart, QueuePart, PlainPart, PollerPart, PoolPart, Queue,
      RingInv, LogOf, Permutation;
  }

  /** While the poller runs, the close it may meet has not joined it. */
  lemma RunningPoller(s: State, own: Owners)
    requires InvAt(s, own) && !s.poller.Idle?
    ensures s.cfg.blocking || Draining(s.closer)
    ensures !(s.closer.Joined? || s.closer.Swept? || s.closer.Quiesced? || s.closer.Destroyed?) && !s.closer.NoSpace?
    ensures s.closed <==> !s.closer.Open?
    ensures !s.closer.Open? && !s.closer.Closing? ==> s.cfg.useSemaphore
  {
  }

  lemma StartKeeps(s: State, own: Owners, min: int, max: int)
    requires InvAt(s, own) && PollReady(s, Start(min, max)) && PollSafe(s, Start(min, max))
    requires s.cfg.blocking || Draining(s.closer)
    ensures InvAt(PollApply(s, Start(min, max)), own)
  {
    hide Placed, Backed, ShapePart, DataPart, RefPart, OncePart, QueuePart, PlainPart, PoolPart, BatchPart, LogPart,
      PermitPart, DrainPart, Queue, RingInv;
    PollerMoves(s, own, Calling(min, max));
  }

  lemma ReadHeadKeeps(s: State, own: Owners)
    requires InvAt(s, own) && PollReady(s, ReadHead) && PollSafe(s, ReadHead)
    ensures InvAt(PollApply(s, ReadHead), own)
  {
    hide Placed, Backed, ShapePart, DataPart, RefPart, OncePart, QueuePart, PlainPart, PoolPart, BatchPart, LogPart,
      PermitPart, DrainPart, Queue, RingInv;
    RunningPoller(s, own);
    PollerMoves(s, own, PollApply(s, ReadHead).poller);
  }

  lemma ReadTailKeeps(s: State, own: Owners) returns (own': Owners)
    requires InvAt(s, own) && PollReady(s, ReadTail) && PollSafe(s, ReadTail)
    ensures InvAt(PollApply(s, ReadTail), own')
  {
    hide Placed, Backed, ShapePart, DataPart, RefPart, OncePart, QueuePart, PlainPart, PoolPart, BatchPart, LogPart,
      PermitPart, DrainPart;
    RunningPoller(s, own);
    var p := s.poller;
    AvailableAt(s.ring.head, s.ring.tail, |s.ring.slots|);
    hide Available, NeedMod;
    own' := own;
    var next := AfterTail(s, p.min, p.max, p.head);
    if next.Handling? {
      own' := ReapKeeps(s, own, s.ring.head, 0);
      assert Queue(s.ring)[..0] == [];
    } else {
      assert next.Copying? ==> Queue(s.ring)[..0] == [];
      PollerMoves(s, own, next);
    }
  }

  lemma CopySlotKeeps(s: State, own: Owners)
    requires InvAt(s, own) && PollReady(s, CopySlot) && PollSafe(s, CopySlot)
    ensures InvAt(PollApply(s, CopySlot), own)
  {
    hide Placed, Backed, ShapePart, DataPart, RefPart, OncePart, QueuePart, PlainPart, PoolPart, BatchPart, LogPart,
      PermitPart, DrainPart;
    RunningPoller(s, own);
    var p := s.poller;
    CopyOneMore(s.cfg, s.ring, p);
    hide NextHead, PollerPart;
    PollerMoves(s, own, PollApply(s, CopySlot).poller);
  }

  /** The next slot read is the next event of the queue. */
  lemma CopyOneMore(cfg: Config, ring: Ring, p: Poller)
    requires RingInv(ring) && p.Copying? && PollerPart(cfg, ring, p) && |p.copied| < p.available
    ensures p.head < |ring.slots|
    ensures PollerPart(cfg, ring, p.(copied := p.copied + [ring.slots[p.head]],
      head := NextHead(p.head, p.needMod, |ring.slots|)))
  {
    NextHeadAt(ring.head, |p.copied|, p.available, |ring.slots|);
    assert ring.slots[p.head] == Queue(ring)[|p.copied|];
    hide NextHead, NeedMod, Queue;
    assert p.copied + [Queue(ring)[|p.copied|]] == Queue(ring)[..|p.copied| + 1];
  }

  lemma PublishKeepsInv(s: State, own: Owners) returns (own': Owners)
    requires InvAt(s, own) && PollReady(s, Publish) && PollSafe(s, Publish)
    ensures InvAt(PollApply(s, Publish), own')
    ensures PollApply(s, Publish).poller.evts == Queue(s.ring)[..s.poller.available]
  {
    hide Placed, Backed, ShapePart, DataPart, RefPart, OncePart, QueuePart, PlainPart, PoolPart, BatchPart, LogPart,
      PermitPart, DrainPart, Queue, RingInv;
    own' := ReapKeeps(s, own, s.poller.head, |s.poller.copied|);
  }

  lemma KernelReapKeeps(s: State, own: Owners, count: nat) returns (own': Owners)
    requires InvAt(s, own) && PollReady(s, KernelReap(count)) && PollSafe(s, KernelReap(count))
    ensures InvAt(PollApply(s, KernelReap(count)), own')
  {
    hide Placed, Backed, ShapePart, DataPart, RefPart, OncePart, QueuePart, PlainPart, PoolPart, BatchPart, LogPart,
      PermitPart, DrainPart, Queue;
    own' := ReapKeeps(s, own, Slot(s.ring.head, count, |s.ring.slots|), count);
  }

  lemma KernelFailKeeps(s: State, own: Owners, interrupted: bool)
    requires InvAt(s, own) && PollReady(s, KernelFail(interrupted)) && PollSafe(s, KernelFail(interrupted))
    ensures InvAt(PollApply(s, KernelFail(interrupted)), own)
  {
    hide Placed, Backed, ShapePart, DataPart, RefPart, OncePart, QueuePart, PlainPart, PoolPart, BatchPart, LogPart,
      PermitPart, DrainPart, Queue, RingInv;
    RunningPoller(s, own);
    PollerMoves(s, own, PollApply(s, KernelFail(interrupted)).poller);
  }

  lemma UnlockKeeps(s: State, own: Owners)
    requires InvAt(s, own) && PollReady(s, Unlock) && PollSafe(s, Unlock)
    ensures InvAt(PollApply(s, Unlock), own)
  {
    hide Placed, Backed, ShapePart, DataPart, RefPart, OncePart, QueuePart, PlainPart, PoolPart, BatchPart, LogPart,
      PermitPart, DrainPart, Queue, RingInv;
    RunningPoller(s, own);
    PollerMoves(s, own, Idle);
  }

  lemma ReleaseAllKeeps(s: State, own: Owners)
    requires InvAt(s, own) && PollReady(s, ReleaseAll) && PollSafe(s, ReleaseAll)
    ensures InvAt(PollApply(s, ReleaseAll), own)
  {
    hide Placed, Backed, ShapePart, DataPart, RefPart, OncePart, QueuePart, PlainPart, PoolPart, Queue, RingInv,
      LogOf, Admissions, Permutation;
  }

  /** Every access of the poller is in bounds. */
  lemma PollerIsSafe(s: State, own: Owners, a: PollAction)
    requires InvAt(s, own) && PollReady(s, a)
    ensures PollSafe(s, a)
  {
    hide Placed, Backed, ShapePart, DataPart, RefPart, OncePart, PlainPart, LogPart, PermitPart, DrainPart, Queue,
      Flatten;
    QueueBounded(s, own);
    if a.CopySlot? {
      CopyOneMore(s.cfg, s.ring, s.poller);
    }
  }
}
