/** Every step of `close` and `deleteContext` keeps the invariant. */
module CloserSteps {
  import opened Options
  import opened IocbPool
  import opened AioRing
  import opened Lifecycle
  import opened Trace
  import opened Machine
  import opened Invariant
  import opened Frames
  import opened KernelSteps
  import opened EventSteps

  lemma BeginKeeps(s: State, own: Owners)
    requires InvAt(s, own) && CloseReady(s, Begin) && CloseSafe(s, Begin)
    ensures InvAt(CloseApply(s, Begin), own)
  {
    hide Placed, Backed, ShapePart, DataPart, RefPart, OncePart, QueuePart, PlainPart, PoolPart, PollerPart,
      BatchPart, LogPart, Queue, RingInv, Admissions;
  }

  lemma DrainKeeps(s: State, own: Owners)
    requires InvAt(s, own) && CloseReady(s, Drain) && CloseSafe(s, Drain)
    ensures InvAt(CloseApply(s, Drain), own)
  {
    hide Placed, Backed, ShapePart, DataPart, RefPart, OncePart, QueuePart, PlainPart, PoolPart, PollerPart,
      BatchPart, LogPart, Queue, RingInv, Admissions;
  }

  /** With every permit drained nobody holds, owes or awaits anything. */
  lemma DrainedIsQuiet(s: State, own: Owners)
    requires InvAt(s, own) && s.closer == Drained
    ensures own.Keys == {} && s.n.pool.used == 0 && s.n.permits == 0 && s.failed == 0
    ensures forall t :: t in s.subs ==> AtRest(s.subs[t])
    ensures s.inflight == {} && Queue(s.ring) == []
    ensures s.poller.Returning? ==> !s.cfg.blocking && s.poller.returned == 0
    ensures s.poller.Handling? ==>
      LoneSentinel(s.poller) && s.poller.i + (if s.poller.stage.Top? then 0 else 1) == |s.poller.evts|
    ensures Permutation(s.n.pool.slots, s.n.blocks.Keys)
    ensures PoolInv(s.n.pool, s.n.blocks.Keys, {})
  {
    DrainedCounts(s, own);
    hide Backed, ShapePart, DataPart, RefPart, OncePart, QueuePart, PlainPart, LogPart, PermitPart, Queue, RingInv,
      Admissions;
    AllFreeIsPermutation(s.n.pool, s.n.blocks.Keys);
    forall t | t in s.subs ensures AtRest(s.subs[t]) {
      assert SubPlaced(own, t, s.subs[t]);
      assert t !in Admitteds(s.subs);
    }
    ListedBound(own, Queue(s.ring), InRing, []);
    ListedBound(own, Unclaimed(s.poller), InBatch(false), []);
  }

  lemma DrainedCounts(s: State, own: Owners)
    requires InvAt(s, own) && s.closer == Drained
    ensures own.Keys == {} && s.n.pool.used == 0 && s.n.permits == 0 && s.failed == 0
    ensures Admitteds(s.subs) == {} && PendingRelease(s.cfg, s.poller) == 0
  {
    hide Placed, Backed, ShapePart, DataPart, RefPart, OncePart, QueuePart, PlainPart, PollerPart, BatchPart, LogPart,
      Queue, RingInv;
  }

  lemma ObtainSentinelKeeps(s: State, own: Owners) returns (own': Owners)
    requires InvAt(s, own) && CloseReady(s, ObtainSentinel) && CloseSafe(s, ObtainSentinel)
    requires s.cfg.blocking || s.poller.Idle?
    ensures InvAt(CloseApply(s, ObtainSentinel), own')
    ensures CloseApply(s, ObtainSentinel).closer.Took?
  {
    hide Placed, Backed, ShapePart, DataPart, RefPart, OncePart, QueuePart, PlainPart, PollerPart, BatchPart, LogPart,
      PermitPart, Queue, RingInv, Admissions, Permutation;
    DrainedIsQuiet(s, own);
    var x := SentinelBlock(s.cfg, s.n.pool, s.n.blocks.Keys);
    hide PoolInv, PoolPart, Get;
    own' := map[x := WithCloser(false)];
    assert own'.Keys == {} + {x};
    TakenPlaces(own, s.subs, Claimed(s.poller), Unclaimed(s.poller), s.inflight, Queue(s.ring), CloserHeld(s.closer),
      x);
    TakenCargo(s, own, own', x);
    TakenPermits(s, x);
  }

  /** The block `deleteContext` gets from the full pool. */
  lemma SentinelBlock(cfg: Config, p: Pool, all: set<Iocb>) returns (x: Iocb)
    requires PoolPart(cfg, p, all, {}) && |p.slots| > 0
    ensures Get(p).1 == Some(x) && x in all
    ensures var q := Get(p).0;
      && PoolPart(cfg, q, all, {x}) && q.used == p.used + 1
      && q.slots == p.slots && q.put < |q.slots| && q.slots[q.put] == x
  {
    GetKeeps(p, all, {});
    SoleBlockKeepsArray(p, all);
    x := Get(p).1.value;
    assert {} + {x} == {x};
    hide Partition;
  }

  lemma TakenPlaces(own: Owners, subs: map<Tid, Submitter>, claimed: Option<Iocb>, unclaimed: seq<Event>,
      inflight: set<Iocb>,
                    queue: seq<Event>, held: Option<Held>, x: Iocb)
    requires own.Keys == {} && Placed(own, subs, inflight, queue, unclaimed, claimed, held)
    ensures var own' := map[x := WithCloser(false)];
      && Placed(own', subs, inflight, queue, unclaimed, claimed, Some(Held(x, false)))
      && Backed(own', subs, inflight, queue, unclaimed, claimed, Some(Held(x, false)))
  {
    forall t | t in subs ensures SubPlaced(map[x := WithCloser(false)], t, subs[t]) {
      assert SubPlaced(own, t, subs[t]);
    }
  }

  lemma TakenCargo(s: State, own: Owners, own': Owners, x: Iocb)
    requires InvAt(s, own) && own.Keys == {} && own' == map[x := WithCloser(false)] && x in s.n.blocks
    ensures DataPart(s.cfg, s.n.blocks, own', Some(x))
    ensures RefPart(s.n.blocks, own', PollerRef(s.poller), s.n.live, s.nextRef)
    ensures OncePart(s.n.blocks, own', s.completed, s.nextRef)
  {
    hide Placed, Backed, ShapePart, DataPart, RefPart, OncePart, QueuePart, PlainPart, PollerPart, BatchPart, LogPart,
      PermitPart, Queue, RingInv, Admissions, Permutation, DataFits;
    FewerCargo(s.cfg, s.n.blocks, own, s.n.blocks, own', SentinelOf(s.closer), s.nextRef, s.completed);
    DataNone(s.cfg, s.n.blocks, own', Some(x));
    RefSame(s.n.blocks, own, s.n.blocks, own', PollerRef(s.poller), s.n.live, s.nextRef, s.nextRef);
  }

  lemma DataNone(cfg: Config, blocks: map<Iocb, Block>, own: Owners, sentinel: Option<Iocb>)
    requires own.Keys <= blocks.Keys && forall i :: !Carries(own, i)
    ensures DataPart(cfg, blocks, own, sentinel)
  {
    assert forall i :: i in own && Carrying(own[i]) ==> Carries(own, i);
  }

  lemma TakenPermits(s: State, x: Iocb)
    ensures PermitPart(s.cfg, s.n.permits, Admissions(s.subs), s.n.pool.used + 1, PendingRelease(s.cfg, s.poller),
      s.failed, Took(x))
  {
  }

  // ----- From the sentinel's block to the destruction -----

  /** The closer's own block changes stage, or goes to the kernel. */
  lemma CloserMovesPlaces(own: Owners, subs: map<Tid, Submitter>, inflight: set<Iocb>, queue: seq<Event>,
                          unclaimed: seq<Event>, claimed: Option<Iocb>, x: Iocb, before: bool, after: bool)
    requires Placed(own, subs, inflight, queue, unclaimed, claimed, Some(Held(x, before)))
    requires Backed(own, subs, inflight, queue, unclaimed, claimed, Some(Held(x, before)))
    ensures x in own && own[x] == WithCloser(before)
    ensures Placed(own[x := WithCloser(after)], subs, inflight, queue, unclaimed, claimed, Some(Held(x, after)))
    ensures Backed(own[x := WithCloser(after)], subs, inflight, queue, unclaimed, claimed, Some(Held(x, after)))
    ensures Placed(own[x := InKernel], subs, inflight + {x}, queue, unclaimed, claimed, None)
    ensures Backed(own[x := InKernel], subs, inflight + {x}, queue, unclaimed, claimed, None)
    ensures Placed(own - {x}, subs, inflight, queue, unclaimed, claimed, None)
    ensures Backed(own - {x}, subs, inflight, queue, unclaimed, claimed, None)
  {
    hide HasBlock;
    forall u | u in subs ensures SubPlaced(own[x := WithCloser(after)], u, subs[u]) &&
      SubPlaced(own[x := InKernel], u, subs[u]) && SubPlaced(own - {x}, u, subs[u]) {
      assert SubPlaced(own, u, subs[u]);
    }
    forall j | j in own && j != x ensures
        && BackedAt(j, own[j], subs, inflight, queue, unclaimed, claimed, Some(Held(x, after)))
        && BackedAt(j, own[j], subs, inflight + {x}, queue, unclaimed, claimed, None)
        && BackedAt(j, own[j], subs, inflight, queue, unclaimed, claimed, None) {
      assert BackedAt(j, own[j], subs, inflight, queue, unclaimed, claimed, Some(Held(x, before)));
    }
  }

  /** What holds once the closer has the sentinel's block in hand. */
  lemma SentinelHeld(s: State, own: Owners)
    requires InvAt(s, own) && CloserHeld(s.closer).Some?
    ensures var h := CloserHeld(s.closer).value;
      && h.iocb in own && own[h.iocb] == WithCloser(h.armed) && own.Keys == {h.iocb} && own.Keys <= s.n.blocks.Keys
      && SentinelOf(s.closer) == Some(h.iocb)
    ensures Listed(own, Queue(s.ring), InRing) && Listed(own, Unclaimed(s.poller), InBatch(false))
    ensures forall u :: u in s.subs ==> SubPlaced(own, u, s.subs[u])
  {
    hide Backed, ShapePart, RefPart, OncePart, QueuePart, PlainPart, PollerPart, BatchPart, LogPart, PermitPart,
      Queue, RingInv, Admissions, Permutation, DataFits, PoolInv, Listed;
  }

  lemma ReadySentinelKeeps(s: State, own: Owners) returns (own': Owners)
    requires InvAt(s, own) && CloseReady(s, ReadySentinel) && CloseSafe(s, ReadySentinel)
    ensures InvAt(CloseApply(s, ReadySentinel), own')
  {
    hide Placed, Backed, ShapePart, DataPart, RefPart, OncePart, QueuePart, PlainPart, PollerPart, PoolPart,
      BatchPart, LogPart, PermitPart, DrainPart, ClosePart, Queue, RingInv, Admissions;
    SentinelHeld(s, own);
    var x, b := s.closer.x, Block(s.cfg.dumbFd, Sentinel);
    var blocks := s.n.blocks[x := b];
    own' := own[x := WithCloser(true)];
    OwnedKeys(own, x, WithCloser(true));
    assert blocks.Keys == s.n.blocks.Keys;
    CloserMovesPlaces(own, s.subs, s.inflight, Queue(s.ring), Unclaimed(s.poller), Claimed(s.poller), x, false, true);
    EventsFrame(s.cfg, s.n.blocks, own, x, b, Queue(s.ring), s.poller, s.batches, s.completed);
    ShapeElsewhere(s.cfg, s.n.blocks, own, s.subs, x, b);
    hide Listed;
    DataArmed(s.cfg, s.n.blocks, own, blocks, own', x, Some(x));
    OnceArmed(s.n.blocks, own, blocks, own', x, s.completed, s.nextRef, s.nextRef);
    assert forall j :: j != x ==> (Carries(own', j) <==> Carries(own, j));
    RefSkipped(s.n.blocks, own, blocks, own', x, PollerRef(s.poller), s.n.live, s.nextRef, s.nextRef);
    SameClose(s, own, Readied(x), blocks.Keys);
  }

  /** The parts about the close itself, for a closer that keeps its block. */
  lemma SameClose(s: State, own: Owners, c: Closer, all: set<Iocb>)
    requires InvAt(s, own) && CloserHeld(s.closer).Some? && SentinelOf(c) == SentinelOf(s.closer) &&
      all == s.n.blocks.Keys
    requires c.Took? || c.Readied? || c.Unsent? || c.Sent?
    ensures DrainPart(s.n.permits, s.subs, own.Keys, s.poller, s.n.pool, all, s.failed, c)
    ensures ClosePart(s.cfg, s.closed, s.poller, c)
    ensures PermitPart(s.cfg, s.n.permits, Admissions(s.subs), s.n.pool.used, PendingRelease(s.cfg, s.poller),
      s.failed, c)
  {
    hide Placed, Backed, ShapePart, RefPart, OncePart, QueuePart, PlainPart, PollerPart, BatchPart, LogPart, Queue,
      RingInv, Admissions, Permutation, DataFits, PoolInv;
  }

  lemma AcceptSentinelKeeps(s: State, own: Owners) returns (own': Owners)
    requires InvAt(s, own) && CloseReady(s, AcceptSentinel) && CloseSafe(s, AcceptSentinel)
    ensures InvAt(CloseApply(s, AcceptSentinel), own')
  {
    hide Placed, Backed, ShapePart, DataPart, RefPart, OncePart, QueuePart, PlainPart, PollerPart, PoolPart,
      BatchPart, LogPart, PermitPart, DrainPart, ClosePart, Queue, RingInv, Admissions;
    hide Listed;
    SentinelHeld(s, own);
    var x := s.closer.x;
    own' := own[x := InKernel];
    OwnedKeys(own, x, InKernel);
    CloserMovesPlaces(own, s.subs, s.inflight, Queue(s.ring), Unclaimed(s.poller), Claimed(s.poller), x, true, true);
    CargoAt(s.n.blocks, own, s.n.blocks, own', x);
    hide SameCargo;
    CargoFrame(s.cfg, s.n.blocks, own, s.n.blocks, own', Some(x), PollerRef(s.poller), s.n.live, s.nextRef,
      s.completed);
    SameClose(s, own, Sent(x), s.n.blocks.Keys);
  }

  lemma RejectSentinelKeeps(s: State, own: Owners)
    requires InvAt(s, own) && CloseReady(s, RejectSentinel) && CloseSafe(s, RejectSentinel)
    ensures InvAt(CloseApply(s, RejectSentinel), own)
  {
    hide Placed, Backed, ShapePart, DataPart, RefPart, OncePart, QueuePart, PlainPart, PollerPart, PoolPart,
      BatchPart, LogPart, PermitPart, DrainPart, ClosePart, Queue, RingInv, Admissions;
    hide Listed;
    SentinelHeld(s, own);
    SameClose(s, own, Unsent(s.closer.x), s.n.blocks.Keys);
  }

  /** A sentinel that the kernel refuses goes back to the pool, which is whole again. */
  lemma ReturnSentinelKeeps(s: State, own: Owners) returns (own': Owners)
    requires InvAt(s, own) && CloseReady(s, ReturnSentinel) && CloseSafe(s, ReturnSentinel)
    ensures InvAt(CloseApply(s, ReturnSentinel), own')
  {
    hide Placed, Backed, ShapePart, DataPart, RefPart, OncePart, QueuePart, PlainPart, PollerPart, PoolPart,
      BatchPart, LogPart, PermitPart, DrainPart, ClosePart, Queue, RingInv, Admissions;
    hide Listed;
    SentinelHeld(s, own);
    var x := s.closer.x;
    own' := own - {x};
    assert own'.Keys == own.Keys - {x} == {};
    CloserMovesPlaces(own, s.subs, s.inflight, Queue(s.ring), Unclaimed(s.poller), Claimed(s.poller), x, true, true);
    FewerCargo(s.cfg, s.n.blocks, own, s.n.blocks, own', Some(x), s.nextRef, s.completed);
    DataNone(s.cfg, s.n.blocks, own', None);
    RefUncarried(s.n.blocks, own, own', x, PollerRef(s.poller), s.n.live, s.nextRef) by {
      SentinelData(s, own);
    }
    GaveUpParts(s, own, x);
  }

  lemma SentinelData(s: State, own: Owners)
    requires InvAt(s, own) && CloserHeld(s.closer).Some? && CloserHeld(s.closer).value.armed
    ensures s.n.blocks[CloserHeld(s.closer).value.iocb].data == Sentinel
  {
    hide Backed, ShapePart, RefPart, OncePart, QueuePart, PlainPart, PollerPart, BatchPart, LogPart, PermitPart,
      DrainPart, Queue, RingInv, Admissions, PoolInv, Listed;
  }

  lemma GaveUpParts(s: State, own: Owners, x: Iocb)
    requires InvAt(s, own) && s.closer == Unsent(x) && own.Keys == {x}
    ensures Indexed(s.n.pool)
    ensures var pool := Put(s.n.pool, x);
      && PoolPart(s.cfg, pool, s.n.blocks.Keys, {})
      && DrainPart(s.n.permits, s.subs, {}, s.poller, pool, s.n.blocks.Keys, s.failed, GaveUp)
      && ClosePart(s.cfg, s.closed, s.poller, GaveUp)
      && PermitPart(s.cfg, s.n.permits, Admissions(s.subs), pool.used, PendingRelease(s.cfg, s.poller), s.failed,
        GaveUp)
  {
    hide Placed, Backed, ShapePart, DataPart, RefPart, OncePart, QueuePart, PlainPart, PollerPart, BatchPart, LogPart,
      Queue, RingInv, Admissions, PoolInv, Permutation;
    PoolIndexed(s.n.pool, s.n.blocks.Keys, own.Keys);
    PutKeeps(s.n.pool, s.n.blocks.Keys, own.Keys, x);
    assert own.Keys - {x} == {};
    assert s.n.pool.slots[s.n.pool.put := x] == s.n.pool.slots;
  }

  lemma JoinKeeps(s: State, own: Owners)
    requires InvAt(s, own) && CloseReady(s, Join) && CloseSafe(s, Join)
    ensures InvAt(CloseApply(s, Join), own)
  {
    hide Placed, Backed, ShapePart, DataPart, RefPart, OncePart, QueuePart, PlainPart, PoolPart, PollerPart,
      BatchPart, LogPart, Queue, RingInv, Admissions, Permutation;
  }

  lemma SweepNoneKeeps(s: State, own: Owners)
    requires InvAt(s, own) && CloseReady(s, Sweep(0)) && CloseSafe(s, Sweep(0))
    ensures InvAt(CloseApply(s, Sweep(0)), own)
  {
    hide Placed, Backed, ShapePart, DataPart, RefPart, OncePart, QueuePart, PlainPart, PoolPart, PollerPart,
      BatchPart, LogPart, Queue, RingInv, Admissions, Permutation;
  }

  /** After the join, a completion still in the ring is the sentinel's. */
  lemma JoinedQueue(s: State, own: Owners)
    requires InvAt(s, own) && (s.closer.Joined? || s.closer.Swept?)
    ensures |Queue(s.ring)| <= 1
    ensures forall i :: i in own ==> SentinelOf(s.closer) == Some(i)
    ensures Queue(s.ring) != [] ==>
      var x := Queue(s.ring)[0].obj;
      && own.Keys == {x} && own[x] == InRing && s.closer.x == x
      && x in s.n.blocks && s.n.blocks[x] == Block(s.cfg.dumbFd, Sentinel)
    ensures s.poller == Idle && InBlocks(s.n.blocks, Queue(s.ring))
  {
    hide Backed, ShapePart, RefPart, OncePart, PlainPart, PollerPart, BatchPart, LogPart, PermitPart, Queue, RingInv,
      Admissions, Permutation, PoolInv, Flatten;
    LoneBlock(own, Queue(s.ring), InRing, SentinelOf(s.closer));
    if Queue(s.ring) != [] {
      var x := Queue(s.ring)[0].obj;
      assert x in own && own[x] == InRing;
    }
  }

  lemma SweptPlaces(s: State, own: Owners)
    requires InvAt(s, own) && s.closer.Joined? && |Queue(s.ring)| == 1
    ensures var x := Queue(s.ring)[0].obj;
      && Placed(own - {x}, s.subs, s.inflight, Queue(s.ring)[1..], [], None, None)
      && Backed(own - {x}, s.subs, s.inflight, Queue(s.ring)[1..], [], None, None)
  {
    JoinedQueue(s, own);
    hide ShapePart, DataPart, RefPart, OncePart, QueuePart, PlainPart, PollerPart, PoolPart, BatchPart, LogPart,
      PermitPart, DrainPart, ClosePart, Queue, RingInv, Admissions;
    BetweenBatches(s, own);
    hide Placed, Backed;
    var queue := Queue(s.ring);
    var x := queue[0].obj;
    var own1 := ReapedOwners(own, queue[..1]);
    ReapMovesPlaces(own, s.subs, s.inflight, queue, 1, None);
    ClaimMovesPlaces(own1, s.subs, s.inflight, queue[1..], queue[..1], None);
    var own2 := own1[x := InBatch(true)];
    assert queue[..1][1..] == [];
    PutMovesPlaces(own2, s.subs, s.inflight, queue[1..], [], x, None);
    assert own2 - {x} == own - {x};
  }

  lemma SweptLog(s: State, own: Owners)
    requires InvAt(s, own) && s.closer.Joined? && |Queue(s.ring)| == 1
    requires InBlocks(s.n.blocks, Queue(s.ring)[..1])
    ensures var batches := s.batches + [DescribeAll(s.n.blocks, Queue(s.ring)[..1])];
      && LogPart(s.cfg, Idle, batches, s.n.log + [Reaped])
      && BatchPart(s.cfg, s.n.blocks, Idle, batches)
      && PlainPart(batches)
      && QueuePart(s.n.blocks, Queue(s.ring)[1..], batches, s.completed)
  {
    hide Placed, Backed, ShapePart, DataPart, RefPart, OncePart, QueuePart, PlainPart, PollerPart, PoolPart,
      BatchPart, LogPart, PermitPart, DrainPart, ClosePart, Queue, RingInv, Admissions, LogOf;
    JoinedQueue(s, own);
    BetweenBatches(s, own);
    var evts := Queue(s.ring)[..1];
    var cs := DescribeAll(s.n.blocks, evts);
    var batches := s.batches + [cs];
    ReapLog(s.cfg, s.batches, cs, s.n.log, evts);
    SentinelLog(s.cfg, Handling(evts, 0, -1, Top), batches, s.n.log + [Reaped]);
    BatchEndLog(s.cfg, Idle, batches, s.n.log + [Reaped]);
    BatchNotHandling(s.cfg, s.n.blocks, Idle, batches);
    ReapedBatchIsPlain(s, own, 1);
    QueueReaped(s.n.blocks, Queue(s.ring), 1, s.batches, s.completed);
  }

  lemma SweepOneKeeps(s: State, own: Owners) returns (own': Owners)
    requires InvAt(s, own) && CloseReady(s, Sweep(1)) && CloseSafe(s, Sweep(1))
    ensures InvAt(CloseApply(s, Sweep(1)), own')
  {
    hide Placed, Backed, ShapePart, DataPart, RefPart, OncePart, QueuePart, PlainPart, PollerPart, PoolPart,
      BatchPart, LogPart, PermitPart, DrainPart, ClosePart, Queue, Admissions, LogOf;
    JoinedQueue(s, own);
    var x := Queue(s.ring)[0].obj;
    own' := own - {x};
    PublishKeeps(s.ring, 1);
    hide RingInv;
    SweptPlaces(s, own);
    SweptLog(s, own);
    SentinelReturned(s, own, x);
    SweptClose(s, x, Put(s.n.pool, x));
  }

  lemma SweptClose(s: State, x: Iocb, pool: Pool)
    requires s.closer == Joined(x) && s.poller == Idle && ClosePart(s.cfg, s.closed, Idle, s.closer) && RingInv(s.ring)
    requires DrainPart(s.n.permits, s.subs, {}, Idle, pool, s.n.blocks.Keys, s.failed, s.closer)
    ensures DrainPart(s.n.permits, s.subs, {}, Idle, pool, s.n.blocks.Keys, s.failed, Swept(x))
    ensures ClosePart(s.cfg, s.closed, Idle, Swept(x))
    ensures PermitPart(s.cfg, s.n.permits, Admissions(s.subs), pool.used, 0, s.failed, Swept(x))
    ensures forall r :: RingInv(r) ==> PollerPart(s.cfg, r, Idle)
  {
    hide Permutation;
  }

  // ----- The destruction -----

  lemma ReleaseQueueKeeps(s: State, own: Owners)
    requires InvAt(s, own) && CloseReady(s, ReleaseQueue) && CloseSafe(s, ReleaseQueue)
    ensures FinalInv(CloseApply(s, ReleaseQueue))
  {
    JoinedQueue(s, own);
    NothingLive(s, own);
    BetweenBatches(s, own);
    var rest := DescribeAll(s.n.blocks, Queue(s.ring));
    assert AllSentinel(rest);
    QueueTail(s, own);
    hide Placed, Backed, ShapePart, DataPart, RefPart, QueuePart, PollerPart, PoolPart, BatchPart, LogPart,
      PermitPart, Queue, RingInv, Admissions, LogOf, Permutation, RefsOnce, Flatten;
  }

  lemma QueueTail(s: State, own: Owners)
    requires InvAt(s, own)
    ensures InBlocks(s.n.blocks, Queue(s.ring))
    ensures s.completed == Flatten(s.batches) + DescribeAll(s.n.blocks, Queue(s.ring))
  {
    hide Placed, Backed, ShapePart, DataPart, RefPart, OncePart, PollerPart, PoolPart, BatchPart, LogPart, PermitPart,
      ClosePart, DrainPart, Queue, RingInv, Admissions, LogOf, Flatten;
  }

  /** With nothing out but the sentinel, every reference has been deleted. */
  lemma NothingLive(s: State, own: Owners)
    requires InvAt(s, own) && !s.poller.Handling? && forall i :: i in own ==> SentinelOf(s.closer) == Some(i)
    ensures s.n.live == {}
  {
    hide Placed, Backed, ShapePart, OncePart, QueuePart, PlainPart, PollerPart, PoolPart, BatchPart, LogPart,
      PermitPart, ClosePart, DrainPart, Queue, RingInv, Admissions, LogOf;
    forall i, r ensures !CarriesRef(s.n.blocks, own, i, r) {
      assert i in own && Carrying(own[i]) ==> DataFits(s.cfg, s.n.blocks[i], SentinelOf(s.closer) == Some(i));
    }
  }

  lemma CloserKeeps(s: State, own: Owners, a: CloseAction) returns (own': Owners)
    requires InvAt(s, own) && CloseReady(s, a) && CloseSafe(s, a) && Orderly(s, Close(a)) && a != ReleaseQueue &&
      a != Destroy
    ensures InvAt(CloseApply(s, a), own')
  {
    hide InvAt;
    own' := own;
    match a
    case Begin => BeginKeeps(s, own);
    case Drain => DrainKeeps(s, own);
    case ObtainSentinel => own' := ObtainSentinelKeeps(s, own);
    case ReadySentinel => own' := ReadySentinelKeeps(s, own);
    case AcceptSentinel => own' := AcceptSentinelKeeps(s, own);
    case RejectSentinel => RejectSentinelKeeps(s, own);
    case ReturnSentinel => own' := ReturnSentinelKeeps(s, own);
    case Join => JoinKeeps(s, own);
    case Sweep(count) =>
      if count == 0 {
        SweepNoneKeeps(s, own);
      } else {
        own' := SweepOneKeeps(s, own);
      }
  }
}
