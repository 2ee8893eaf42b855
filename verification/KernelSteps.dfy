/** A completion by the kernel, and a reap by either reaping thread, keep the
    invariant; and the ring never fills. */
module KernelSteps {
  import opened Circular
  import opened Options
  import opened IocbPool
  import opened AioRing
  import opened Lifecycle
  import opened Trace
  import opened Machine
  import opened Invariant
  import opened Frames

  ghost function Objs(q: seq<Event>): (objs: seq<Iocb>)
    ensures |objs| == |q| && forall k :: 0 <= k < |q| ==> objs[k] == q[k].obj
  {
    seq(|q|, k requires 0 <= k < |q| => q[k].obj)
  }

  /** Distinct outstanding blocks are at most as many as the pool has given out. */
  lemma ListedBound(own: Owners, q: seq<Event>, place: Place, more: seq<Iocb>)
    requires Listed(own, q, place) && |more| <= 1
    requires more != [] ==> more[0] in own && own[more[0]] != place
    ensures |q| + |more| <= |own.Keys|
  {
    var objs := Objs(q) + more;
    assert NoDup(objs);
    assert Elements(objs) <= own.Keys;
    NoDupBound(objs, own.Keys);
  }

  /** Unreaped completions and one more still leave a slot free. */
  lemma RingHasRoom(s: State, own: Owners, i: Iocb)
    requires InvAt(s, own) && CompleteReady(s, i)
    ensures CompleteSafe(s, i)
  {
    hide Backed, ShapePart, DataFits, RefPart, OncePart, QueuePart, PlainPart, PollerPart, BatchPart, LogPart,
      PermitPart, DrainPart, Listed, RingInv;
    ListedBound(own, Queue(s.ring), InRing, [i]);
  }

  lemma QueueBounded(s: State, own: Owners)
    requires InvAt(s, own)
    ensures |Queue(s.ring)| <= s.n.pool.used <= s.cfg.queueSize
  {
    hide Backed, ShapePart, DataFits, RefPart, OncePart, QueuePart, PlainPart, PollerPart, BatchPart, LogPart,
      PermitPart, DrainPart, Listed, RingInv;
    ListedBound(own, Queue(s.ring), InRing, []);
  }

  lemma CompleteMovesPlaces(own: Owners, subs: map<Tid, Submitter>, i: Iocb, inflight: set<Iocb>, e: Event,
                            queue: seq<Event>, unclaimed: seq<Event>, claimed: Option<Iocb>, held: Option<Held>)
    requires i in inflight && e.obj == i
    requires Placed(own, subs, inflight, queue, unclaimed, claimed, held)
    requires Backed(own, subs, inflight, queue, unclaimed, claimed, held)
    ensures var own' := own[i := InRing];
      && Placed(own', subs, inflight - {i}, queue + [e], unclaimed, claimed, held)
      && Backed(own', subs, inflight - {i}, queue + [e], unclaimed, claimed, held)
  {
    var own' := own[i := InRing];
    forall u | u in subs ensures SubPlaced(own', u, subs[u]) {
      assert SubPlaced(own, u, subs[u]);
    }
    forall j | j in own' ensures BackedAt(j, own'[j], subs, inflight - {i}, queue + [e], unclaimed, claimed, held) {
      assert BackedAt(j, own[j], subs, inflight, queue, unclaimed, claimed, held);
      if j == i {
        assert (queue + [e])[|queue|].obj == i;
      } else if own[j].InRing? {
        var k :| 0 <= k < |queue| && queue[k].obj == j;
        assert (queue + [e])[k].obj == j;
      }
    }
  }

  /** The completion of a pending operation is the first with its reference. */
  lemma OnceCompleted(blocks: map<Iocb, Block>, own: Owners, own': Owners, i: Iocb, completed: seq<Completion>,
      c: Completion,
                      pref: Option<Ref>, live: set<Ref>, nextRef: Ref)
    requires OncePart(blocks, own, completed, nextRef) && RefPart(blocks, own, pref, live, nextRef)
    requires i in own && Uncompleted(own[i]) && i in blocks && c.data == blocks[i].data
    requires own' == own[i := InRing]
    ensures OncePart(blocks, own', completed + [c], nextRef)
  {
    assert c.data.Callback? ==> CarriesRef(blocks, own, i, c.data.ref);
    assert c.data.Callback? ==> AwaitsCompletion(blocks, own, i, c.data);
    forall j, k | 0 <= k < |completed + [c]| ensures !AwaitsCompletion(blocks, own', j, (completed + [c])[k].data) {
      if k < |completed| {
        assert !AwaitsCompletion(blocks, own, j, completed[k].data);
      } else if AwaitsCompletion(blocks, own', j, c.data) {
        assert CarriesRef(blocks, own, j, c.data.ref);
      }
    }
  }

  lemma QueueCompleted(blocks: map<Iocb, Block>, queue: seq<Event>, e: Event, batches: seq<seq<Completion>>,
      completed: seq<Completion>)
    requires QueuePart(blocks, queue, batches, completed) && e.obj in blocks
    ensures QueuePart(blocks, queue + [e], batches, completed + [Describe(blocks, e)])
  {
    hide Flatten;
    assert DescribeAll(blocks, queue + [e]) == DescribeAll(blocks, queue) + [Describe(blocks, e)];
  }

  lemma CompleteKeeps(s: State, own: Owners, i: Iocb, res: int) returns (own': Owners)
    requires InvAt(s, own) && CompleteReady(s, i) && CompleteSafe(s, i)
    ensures InvAt(CompleteApply(s, i, res), own')
  {
    own' := own[i := InRing];
    var e := Event(i, res);
    assert i in own && own[i] == InKernel;
    OwnedKeys(own, i, InRing);
    AppendKeeps(s.ring, e);
    PollerSeesAppend(s.cfg, s.ring, s.poller, e);
    hide Placed, Backed, ShapePart, DataFits, DataPart, RefPart, OncePart, QueuePart, PlainPart, PollerPart,
      BatchPart, LogPart, PermitPart, DrainPart, PoolInv, RingInv, Queue;
    CompleteMovesPlaces(own, s.subs, i, s.inflight, e, Queue(s.ring), Unclaimed(s.poller), Claimed(s.poller),
      CloserHeld(s.closer));
    QueueCompleted(s.n.blocks, Queue(s.ring), e, s.batches, s.completed);
    OnceCompleted(s.n.blocks, own, own', i, s.completed, Describe(s.n.blocks, e), PollerRef(s.poller), s.n.live,
      s.nextRef);
    CompleteCargo(s, own, i);
  }

  lemma CompleteCargo(s: State, own: Owners, i: Iocb)
    requires InvAt(s, own) && i in own && own[i] == InKernel
    ensures DataPart(s.cfg, s.n.blocks, own[i := InRing], SentinelOf(s.closer))
    ensures RefPart(s.n.blocks, own[i := InRing], PollerRef(s.poller), s.n.live, s.nextRef)
  {
    hide Placed, Backed, ShapePart, DataFits, RefPart, OncePart, QueuePart, PlainPart, PollerPart, BatchPart, LogPart,
      PermitPart, DrainPart, PoolInv;
    var own' := own[i := InRing];
    OwnedKeys(own, i, InRing);
    CargoAt(s.n.blocks, own, s.n.blocks, own', i);
    hide SameCargo;
    CargoFrame(s.cfg, s.n.blocks, own, s.n.blocks, own', SentinelOf(s.closer), PollerRef(s.poller), s.n.live,
      s.nextRef, s.completed);
  }

  /** An append leaves everything the poller has read valid. */
  lemma PollerSeesAppend(cfg: Config, ring: Ring, p: Poller, e: Event)
    requires RingInv(ring) && |Queue(ring)| + 1 < |ring.slots| && PollerPart(cfg, ring, p)
    ensures RingInv(Append(ring, e)) && PollerPart(cfg, Append(ring, e), p)
  {
    AppendKeeps(ring, e);
    hide Queue, RingInv;
    if p.Copying? {
      assert Queue(ring) == Queue(Append(ring, e))[..|Queue(ring)|];
    }
  }

  // ----- Reaping -----

  /** The owners after the batch `evts` leaves the ring. */
  ghost function ReapedOwners(own: Owners, evts: seq<Event>): (own': Owners)
    ensures own'.Keys == own.Keys
  {
    map i | i in own :: if HasBlock(evts, i) then InBatch(false) else own[i]
  }

  lemma StillQueued(queue: seq<Event>, n: nat, i: Iocb)
    requires n <= |queue| && HasBlock(queue, i) && !HasBlock(queue[..n], i)
    ensures HasBlock(queue[n..], i)
  {
    var k :| 0 <= k < |queue| && queue[k].obj == i;
    assert forall j :: 0 <= j < n ==> queue[..n][j] == queue[j];
    assert k >= n ==> queue[n..][k - n].obj == i;
  }

  lemma ReapMovesPlaces(own: Owners, subs: map<Tid, Submitter>, inflight: set<Iocb>, queue: seq<Event>, n: nat,
      held: Option<Held>)
    requires n <= |queue|
    requires Placed(own, subs, inflight, queue, [], None, held)
    requires Backed(own, subs, inflight, queue, [], None, held)
    ensures var own' := ReapedOwners(own, queue[..n]);
      && Placed(own', subs, inflight, queue[n..], queue[..n], None, held)
      && Backed(own', subs, inflight, queue[n..], queue[..n], None, held)
  {
    var evts, rest := queue[..n], queue[n..];
    var own' := ReapedOwners(own, evts);
    assert forall i :: HasBlock(evts, i) ==> i in own && own[i] == InRing;
    forall u | u in subs ensures SubPlaced(own', u, subs[u]) {
      assert SubPlaced(own, u, subs[u]);
    }
    forall k | 0 <= k < n ensures HasBlock(evts, queue[k].obj) {
      assert evts[k] == queue[k];
    }
    forall k | 0 <= k < |rest| ensures rest[k].obj in own' && own'[rest[k].obj] == InRing {
      assert rest[k] == queue[n + k];
    }
    forall i | i in own' ensures BackedAt(i, own'[i], subs, inflight, rest, evts, None, held) {
      assert BackedAt(i, own[i], subs, inflight, queue, [], None, held);
      if own[i].InRing? && !HasBlock(evts, i) { StillQueued(queue, n, i); }
      hide HasBlock;
    }
  }

  lemma ReapCargo(blocks: map<Iocb, Block>, own: Owners, queue: seq<Event>, n: nat)
    requires Listed(own, queue, InRing) && n <= |queue| && own.Keys <= blocks.Keys
    ensures SameCargo(blocks, own, blocks, ReapedOwners(own, queue[..n]))
  {
    var evts := queue[..n];
    assert forall i :: HasBlock(evts, i) ==> i in own && own[i] == InRing;
  }

  lemma QueueReaped(blocks: map<Iocb, Block>, queue: seq<Event>, n: nat, batches: seq<seq<Completion>>,
      completed: seq<Completion>)
    requires QueuePart(blocks, queue, batches, completed) && n <= |queue|
    ensures InBlocks(blocks, queue[..n])
    ensures QueuePart(blocks, queue[n..], batches + [DescribeAll(blocks, queue[..n])], completed)
  {
    hide Flatten;
    var cs := DescribeAll(blocks, queue[..n]);
    FlattenSnoc(batches, cs);
    assert DescribeAll(blocks, queue) == cs + DescribeAll(blocks, queue[n..]);
    assert Flatten(batches) + (cs + DescribeAll(blocks, queue[n..]))
        == (Flatten(batches) + cs) + DescribeAll(blocks, queue[n..]);
  }

  lemma FlattenSnoc(batches: seq<seq<Completion>>, cs: seq<Completion>)
    ensures Flatten(batches + [cs]) == Flatten(batches) + cs
  {
    AddBatch(Config(0, 0, false, false, false, false), batches, cs);
  }

  /** With the sentinel out, nothing else is, so a batch holds at most it. */
  lemma LoneBlock(own: Owners, q: seq<Event>, place: Place, x: Option<Iocb>)
    requires Listed(own, q, place) && forall i :: i in own ==> x == Some(i)
    ensures |q| <= 1 && (q != [] ==> x == Some(q[0].obj))
  {
    ListedBound(own, q, place, []);
    SubsetCard(own.Keys, if x.Some? then {x.value} else {});
  }

  lemma ReapedBatchIsPlain(s: State, own: Owners, n: nat)
    requires InvAt(s, own) && n <= |Queue(s.ring)| && InBlocks(s.n.blocks, Queue(s.ring)[..n])
    ensures PlainPart(s.batches + [DescribeAll(s.n.blocks, Queue(s.ring)[..n])])
    ensures !Draining(s.closer) ==> |Queue(s.ring)| <= 1
  {
    hide Backed, ShapePart, RefPart, OncePart, QueuePart, PollerPart, BatchPart, LogPart, PermitPart, PoolInv,
      RingInv, Queue;
    var queue := Queue(s.ring);
    var cs := DescribeAll(s.n.blocks, queue[..n]);
    if !Draining(s.closer) {
      LoneBlock(own, queue, InRing, SentinelOf(s.closer));
    }
    forall k | 0 <= k < |cs| ensures DataFits(s.cfg, s.n.blocks[queue[k].obj],
      SentinelOf(s.closer) == Some(queue[k].obj)) {
      assert queue[k].obj in own && Carrying(own[queue[k].obj]);
    }
    assert PlainBatch(cs);
  }

  lemma ReapLog(cfg: Config, batches: seq<seq<Completion>>, cs: seq<Completion>, log: seq<Entry>, evts: seq<Event>)
    requires log == LogOf(cfg, batches)
    ensures LogPart(cfg, Handling(evts, 0, -1, Top), batches + [cs], log + [Reaped])
  {
    hide LogOf;
    assert (batches + [cs])[..|batches + [cs]| - 1] == batches;
    assert log + [Reaped] == LogOf(cfg, batches) + [Reaped] + [] + [];
  }

  lemma ReapKeeps(s: State, own: Owners, head: nat, n: nat) returns (own': Owners)
    requires InvAt(s, own) && (s.poller.GotHead? || s.poller.Copying? || s.poller.Waiting?)
    requires n <= |Queue(s.ring)| && head == Slot(s.ring.head, n, |s.ring.slots|)
    requires InBlocks(s.n.blocks, Queue(s.ring)[..n])
    ensures InvAt(Reap(s, head, Queue(s.ring)[..n]), own')
  {
    hide Placed, Backed, ShapePart, DataFits, DataPart, RefPart, OncePart, QueuePart, PlainPart, PollerPart,
      BatchPart, LogPart, PermitPart,
      DrainPart, ClosePart, PoolInv, RingInv, Queue, LogOf, Flatten;
    var queue := Queue(s.ring);
    var evts := queue[..n];
    own' := ReapedOwners(own, evts);
    PublishKeeps(s.ring, n);
    ReapedBatchIsPlain(s, own, n);
    BetweenBatches(s, own);
    ReapMovesPlaces(own, s.subs, s.inflight, queue, n, CloserHeld(s.closer));
    QueueReaped(s.n.blocks, queue, n, s.batches, s.completed);
    ReapLog(s.cfg, s.batches, DescribeAll(s.n.blocks, evts), s.n.log, evts);
    ReapedCargo(s, own, n);
    ReapedBatch(s, own, evts, s.ring.(head := head));
    assert From(evts, 0) == evts;
  }

  lemma BetweenBatches(s: State, own: Owners)
    requires InvAt(s, own) && !s.poller.Handling?
    ensures Placed(own, s.subs, s.inflight, Queue(s.ring), [], None, CloserHeld(s.closer))
    ensures Backed(own, s.subs, s.inflight, Queue(s.ring), [], None, CloserHeld(s.closer))
    ensures s.n.log == LogOf(s.cfg, s.batches)
  {
    hide Placed, Backed, LogOf;
  }

  lemma ReapedBatch(s: State, own: Owners, evts: seq<Event>, ring: Ring)
    requires InvAt(s, own) && (s.poller.GotHead? || s.poller.Copying? || s.poller.Waiting?)
    requires InBlocks(s.n.blocks, evts) && (!Draining(s.closer) ==> |evts| <= 1) && RingInv(ring)
    ensures var p, batches := Handling(evts, 0, -1, Top), s.batches + [DescribeAll(s.n.blocks, evts)];
      && BatchPart(s.cfg, s.n.blocks, p, batches)
      && PollerPart(s.cfg, ring, p)
      && PermitPart(s.cfg, s.n.permits, Admissions(s.subs), s.n.pool.used, PendingRelease(s.cfg, p), s.failed, s.closer)
      && ClosePart(s.cfg, s.closed, p, s.closer)
      && DrainPart(s.n.permits, s.subs, own.Keys, p, s.n.pool, s.n.blocks.Keys, s.failed, s.closer)
  {
    hide Placed, Backed, ShapePart, DataFits, DataPart, RefPart, OncePart, QueuePart, PlainPart, LogPart, PoolInv,
      Queue, LogOf, Flatten, Admissions;
  }

  lemma ReapedCargo(s: State, own: Owners, n: nat)
    requires InvAt(s, own) && n <= |Queue(s.ring)|
    ensures var own' := ReapedOwners(own, Queue(s.ring)[..n]);
      && DataPart(s.cfg, s.n.blocks, own', SentinelOf(s.closer))
      && RefPart(s.n.blocks, own', PollerRef(s.poller), s.n.live, s.nextRef)
      && OncePart(s.n.blocks, own', s.completed, s.nextRef)
  {
    hide Backed, ShapePart, DataFits, RefPart, OncePart, QueuePart, PlainPart, PollerPart, BatchPart, LogPart,
      PermitPart, DrainPart, PoolInv, Listed;
    var own' := ReapedOwners(own, Queue(s.ring)[..n]);
    ReapCargo(s.n.blocks, own, Queue(s.ring), n);
    hide SameCargo;
    CargoFrame(s.cfg, s.n.blocks, own, s.n.blocks, own', SentinelOf(s.closer), PollerRef(s.poller), s.n.live,
      s.nextRef, s.completed);
  }
}
