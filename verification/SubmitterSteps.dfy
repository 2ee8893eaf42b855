/** Every step of a submitting thread keeps the invariant. */
module SubmitterSteps {
  import opened Options
  import opened IocbPool
  import opened AioRing
  import opened Lifecycle
  import opened Machine
  import opened Invariant
  import opened Frames

  /** The owners after submitter `t` moves from `before` to `after`. */
  ghost function Moved(own: Owners, t: Tid, before: Submitter, after: Submitter): (own': Owners) {
    match SubHeld(after)
    case Some(h) => own[h.iocb := WithSub(t, h.armed)]
    case None => if SubHeld(before).Some? then own - {SubHeld(before).value.iocb} else own
  }

  lemma SubMovesPlaces(own: Owners, subs: map<Tid, Submitter>, t: Tid, sub: Submitter, inflight: set<Iocb>,
                       queue: seq<Event>, unclaimed: seq<Event>, claimed: Option<Iocb>, held: Option<Held>)
    requires t in subs
    requires Placed(own, subs, inflight, queue, unclaimed, claimed, held)
    requires Backed(own, subs, inflight, queue, unclaimed, claimed, held)
    requires SubHeld(sub).Some? ==>
      if SubHeld(subs[t]).Some? then SubHeld(sub).value.iocb == SubHeld(subs[t]).value.iocb
      else SubHeld(sub).value.iocb !in own
    ensures var own' := Moved(own, t, subs[t], sub);
      && Placed(own', subs[t := sub], inflight, queue, unclaimed, claimed, held)
      && Backed(own', subs[t := sub], inflight, queue, unclaimed, claimed, held)
  {
    hide HasBlock;
    var own', subs' := Moved(own, t, subs[t], sub), subs[t := sub];
    assert SubPlaced(own, t, subs[t]);
    forall u | u in subs' ensures SubPlaced(own', u, subs'[u]) {
      if u != t {
        assert SubPlaced(own, u, subs[u]);
      }
    }
    forall i | i in own' ensures BackedAt(i, own'[i], subs', inflight, queue, unclaimed, claimed, held) {
      assert i in own ==> BackedAt(i, own[i], subs, inflight, queue, unclaimed, claimed, held);
    }
  }

  lemma AcceptMovesPlaces(own: Owners, subs: map<Tid, Submitter>, t: Tid, i: Iocb, inflight: set<Iocb>,
                          queue: seq<Event>, unclaimed: seq<Event>, claimed: Option<Iocb>, held: Option<Held>)
    requires t in subs && subs[t] == Armed(i)
    requires Placed(own, subs, inflight, queue, unclaimed, claimed, held)
    requires Backed(own, subs, inflight, queue, unclaimed, claimed, held)
    ensures var own' := own[i := InKernel];
      && Placed(own', subs[t := Outside], inflight + {i}, queue, unclaimed, claimed, held)
      && Backed(own', subs[t := Outside], inflight + {i}, queue, unclaimed, claimed, held)
  {
    hide HasBlock;
    var own', subs' := own[i := InKernel], subs[t := Outside];
    assert SubPlaced(own, t, subs[t]);
    forall u | u in subs' ensures SubPlaced(own', u, subs'[u]) {
      assert SubPlaced(own, u, subs[u]);
    }
    forall j | j in own' ensures BackedAt(j, own'[j], subs', inflight + {i}, queue, unclaimed, claimed, held) {
      assert j in own && BackedAt(j, own[j], subs, inflight, queue, unclaimed, claimed, held);
    }
  }

  /** The parts a submitter can change, put together. */
  lemma Assemble(s: State, own: Owners, t: Tid, sub: Submitter, s': State)
    requires InvAt(s, own) && t in s.subs && Draining(s.closer)
    requires SubHeld(sub).Some? ==>
      if SubHeld(s.subs[t]).Some? then SubHeld(sub).value.iocb == SubHeld(s.subs[t]).value.iocb
      else SubHeld(sub).value.iocb !in own
    requires s' == s.(subs := s.subs[t := sub], n := s'.n, nextRef := s'.nextRef, failed := s'.failed) &&
      s'.n.log == s.n.log
    requires var own' := Moved(own, t, s.subs[t], sub);
      && PoolPart(s.cfg, s'.n.pool, s'.n.blocks.Keys, own'.Keys)
      && ShapePart(s.cfg, s'.n.blocks, s'.subs)
      && DataPart(s.cfg, s'.n.blocks, own', SentinelOf(s.closer))
      && RefPart(s'.n.blocks, own', PollerRef(s.poller), s'.n.live, s'.nextRef)
      && OncePart(s'.n.blocks, own', s.completed, s'.nextRef)
      && QueuePart(s'.n.blocks, Queue(s.ring), s.batches, s.completed)
      && BatchPart(s.cfg, s'.n.blocks, s.poller, s.batches)
    requires s.cfg.useSemaphore ==>
      && s'.n.permits >= 0
      && s'.n.permits + (if sub.Admitted? then 1 else 0) + s'.n.pool.used + s'.failed
      == s.n.permits + (if s.subs[t].Admitted? then 1 else 0) + s.n.pool.used + s.failed
    ensures InvAt(s', Moved(own, t, s.subs[t], sub))
  {
    hide PoolPart, Placed, Backed, ShapePart, DataPart, RefPart, OncePart, QueuePart, PlainPart, PollerPart,
      BatchPart, LogPart, Admissions;
    AdmissionsMove(s.subs, t, sub);
    SubMovesPlaces(own, s.subs, t, sub, s.inflight, Queue(s.ring), Unclaimed(s.poller), Claimed(s.poller),
      CloserHeld(s.closer));
  }

  // ----- Steps that touch no block -----

  lemma CheckKeeps(s: State, own: Owners, t: Tid, fd: int)
    requires InvAt(s, own) && SubReady(s, t, Check(fd)) && SubSafe(s, t, Check(fd))
    ensures InvAt(SubApply(s, t, Check(fd)), own)
  {
    hide PoolPart, Placed, Backed, ShapePart, DataPart, RefPart, OncePart, QueuePart, PlainPart, PollerPart,
      BatchPart, LogPart, PermitPart, DrainPart;
    ShapeMove(s.cfg, s.n.blocks, s.subs, t, Checked(fd));
    PermitNonNegative(s, own);
    Assemble(s, own, t, Checked(fd), SubApply(s, t, Check(fd)));
  }

  lemma PermitNonNegative(s: State, own: Owners)
    requires InvAt(s, own)
    ensures s.cfg.useSemaphore && Draining(s.closer) ==> s.n.permits >= 0
    ensures !Draining(s.closer) ==> s.n.permits == 0
  {
  }

  lemma AcquireKeeps(s: State, own: Owners, t: Tid)
    requires InvAt(s, own) && SubReady(s, t, Acquire) && SubSafe(s, t, Acquire)
    ensures InvAt(SubApply(s, t, Acquire), own)
  {
    var sub := Admitted(s.subs[t].fd);
    assert SubShape(s.cfg, s.n.blocks, s.subs[t]);
    hide PoolPart, Placed, Backed, ShapePart, DataPart, RefPart, OncePart, QueuePart, PlainPart, PollerPart,
      BatchPart, LogPart, PermitPart, DrainPart;
    ShapeMove(s.cfg, s.n.blocks, s.subs, t, sub);
    PermitNonNegative(s, own);
    Assemble(s, own, t, sub, SubApply(s, t, Acquire));
  }

  lemma RejectKeeps(s: State, own: Owners, t: Tid)
    requires InvAt(s, own) && SubReady(s, t, Reject) && SubSafe(s, t, Reject)
    ensures InvAt(SubApply(s, t, Reject), own)
  {
    var sub := Rejected(s.subs[t].iocb);
    assert SubPlaced(own, t, s.subs[t]);
    assert Moved(own, t, s.subs[t], sub) == own;
    hide PoolPart, Placed, Backed, ShapePart, DataPart, RefPart, OncePart, QueuePart, PlainPart, PollerPart,
      BatchPart, LogPart, PermitPart, DrainPart;
    ShapeMove(s.cfg, s.n.blocks, s.subs, t, sub);
    PermitNonNegative(s, own);
    BusyMeansDraining(s, own, t);
    Assemble(s, own, t, sub, SubApply(s, t, Reject));
  }

  // ----- Steps that take, fill and return a block -----

  /** The permit that an admitted thread holds is a block it will find. */
  lemma AdmittedFindsBlock(s: State, own: Owners, t: Tid)
    requires InvAt(s, own) && t in s.subs && s.subs[t].Admitted? && s.cfg.useSemaphore
    ensures s.n.pool.used < |s.n.pool.slots|
  {
    hide Placed, Backed, ShapePart, DataPart, RefPart, OncePart, QueuePart, PlainPart, PollerPart, BatchPart, LogPart,
      PoolInv;
    assert t in Admitteds(s.subs);
    assert Admissions(s.subs) > 0;
  }

  lemma ObtainKeeps(s: State, own: Owners, t: Tid) returns (own': Owners)
    requires InvAt(s, own) && SubReady(s, t, Obtain) && SubSafe(s, t, Obtain)
    ensures InvAt(SubApply(s, t, Obtain), own')
  {
    var me := s.subs[t];
    assert SubShape(s.cfg, s.n.blocks, me);
    BusyMeansDraining(s, own, t);
    PermitNonNegative(s, own);
    GetKeeps(s.n.pool, s.n.blocks.Keys, own.Keys);
    if s.cfg.useSemaphore { AdmittedFindsBlock(s, own, t); }
    hide Placed, Backed, ShapePart, DataPart, RefPart, OncePart, QueuePart, PlainPart, PollerPart, BatchPart, LogPart,
      PermitPart, DrainPart, PoolInv;
    var (pool, r) := Get(s.n.pool);
    if r.Some? {
      own' := ObtainGranted(s, own, t, pool, r.value);
    } else {
      own' := own;
      ShapeMove(s.cfg, s.n.blocks, s.subs, t, Refused);
      Assemble(s, own, t, Refused, SubApply(s, t, Obtain));
    }
  }

  lemma ObtainGranted(s: State, own: Owners, t: Tid, pool: Pool, i: Iocb) returns (own': Owners)
    requires InvAt(s, own) && SubReady(s, t, Obtain) && SubSafe(s, t, Obtain)
    requires Draining(s.closer) && (s.cfg.useSemaphore ==> s.n.permits >= 0)
    requires Get(s.n.pool) == (pool, Some(i)) && i !in own && i in s.n.blocks
    requires PoolInv(pool, s.n.blocks.Keys, own.Keys + {i}) && pool.used == s.n.pool.used + 1
    requires RealFd(s.cfg, s.subs[t].fd)
    ensures InvAt(SubApply(s, t, Obtain), own')
  {
    hide Placed, Backed, ShapePart, DataFits, RefPart, OncePart, QueuePart, PlainPart, PollerPart, BatchPart, LogPart,
      PermitPart, DrainPart, PoolInv;
    var sub := Obtained(s.subs[t].fd, i);
    own' := Moved(own, t, s.subs[t], sub);
    assert own'.Keys == own.Keys + {i};
    CargoAt(s.n.blocks, own, s.n.blocks, own', i);
    hide SameCargo;
    CargoFrame(s.cfg, s.n.blocks, own, s.n.blocks, own', SentinelOf(s.closer), PollerRef(s.poller), s.n.live,
      s.nextRef, s.completed);
    hide DataPart;
    ShapeMove(s.cfg, s.n.blocks, s.subs, t, sub);
    Assemble(s, own, t, sub, SubApply(s, t, Obtain));
  }

  lemma HeldFacts(s: State, own: Owners, t: Tid)
    requires InvAt(s, own) && t in s.subs && SubHeld(s.subs[t]).Some?
    ensures var h := SubHeld(s.subs[t]).value;
      h.iocb in own && own[h.iocb] == WithSub(t, h.armed) && h.iocb in s.n.blocks
    ensures SubShape(s.cfg, s.n.blocks, s.subs[t]) && SubPlaced(own, t, s.subs[t])
    ensures forall u :: u in s.subs ==> SubPlaced(own, u, s.subs[u])
    ensures Listed(own, Queue(s.ring), InRing) && Listed(own, Unclaimed(s.poller), InBatch(false))
    ensures Draining(s.closer) && (s.cfg.useSemaphore ==> s.n.permits >= 0)
    ensures own.Keys <= s.n.blocks.Keys
  {
    hide Backed, ShapePart, RefPart, OncePart, QueuePart, PlainPart, PollerPart, BatchPart, LogPart, PermitPart,
      PoolInv;
    assert SubPlaced(own, t, s.subs[t]);
    BusyMeansDraining(s, own, t);
    PermitNonNegative(s, own);
    ShapeAt(s.cfg, s.n.blocks, s.subs, t);
  }

  lemma ShapeAt(cfg: Config, blocks: map<Iocb, Block>, subs: map<Tid, Submitter>, t: Tid)
    requires ShapePart(cfg, blocks, subs) && t in subs
    ensures SubShape(cfg, blocks, subs[t])
  {
  }

  lemma PrepareKeeps(s: State, own: Owners, t: Tid)
    requires InvAt(s, own) && SubReady(s, t, Prepare) && SubSafe(s, t, Prepare)
    ensures InvAt(SubApply(s, t, Prepare), own)
  {
    hide Placed, Backed, ShapePart, DataFits, DataPart, RefPart, OncePart, QueuePart, PlainPart, PollerPart,
      BatchPart, LogPart, PermitPart, DrainPart, PoolInv;
    HeldFacts(s, own, t);
    var me := s.subs[t];
    var b, sub := Block(me.fd, Null), Prepared(me.iocb);
    var blocks := s.n.blocks[me.iocb := b];
    assert Moved(own, t, me, sub) == own;
    assert blocks.Keys == s.n.blocks.Keys;
    CargoAt(s.n.blocks, own, blocks, own, me.iocb);
    EventsFrame(s.cfg, s.n.blocks, own, me.iocb, b, Queue(s.ring), s.poller, s.batches, s.completed);
    ShapeFill(s.cfg, s.n.blocks, own, s.subs, t, me.iocb, b, sub);
    hide SameCargo, Listed;
    CargoFrame(s.cfg, s.n.blocks, own, blocks, own, SentinelOf(s.closer), PollerRef(s.poller), s.n.live, s.nextRef,
      s.completed);
    Assemble(s, own, t, sub, SubApply(s, t, Prepare));
  }

  lemma ArmKeeps(s: State, own: Owners, t: Tid, isNull: bool) returns (own': Owners)
    requires InvAt(s, own) && SubReady(s, t, Arm(isNull)) && SubSafe(s, t, Arm(isNull))
    ensures InvAt(SubApply(s, t, Arm(isNull)), own')
  {
    hide Placed, Backed, ShapePart, DataPart, RefPart, OncePart, QueuePart, PlainPart, PollerPart, BatchPart, LogPart,
      PermitPart, DrainPart, PoolInv;
    HeldFacts(s, own, t);
    var i := s.subs[t].iocb;
    var data := if isNull then Null else Callback(s.nextRef);
    var b, sub := s.n.blocks[i].(data := data), Armed(i);
    var blocks := s.n.blocks[i := b];
    own' := Moved(own, t, s.subs[t], sub);
    assert own'.Keys == own.Keys && blocks.Keys == s.n.blocks.Keys;
    EventsFrame(s.cfg, s.n.blocks, own, i, b, Queue(s.ring), s.poller, s.batches, s.completed);
    ShapeFill(s.cfg, s.n.blocks, own, s.subs, t, i, b, sub);
    hide Listed;
    NoSentinelYet(s, own);
    DataArmed(s.cfg, s.n.blocks, own, blocks, own', i, None);
    OnceArmed(s.n.blocks, own, blocks, own', i, s.completed, s.nextRef, s.nextRef + 1);
    assert forall j :: j != i ==> (Carries(own', j) <==> Carries(own, j));
    if isNull {
      RefSkipped(s.n.blocks, own, blocks, own', i, PollerRef(s.poller), s.n.live, s.nextRef, s.nextRef + 1);
    } else {
      RefStored(s.n.blocks, own, blocks, own', i, PollerRef(s.poller), s.n.live, s.nextRef);
    }
    Assemble(s, own, t, sub, SubApply(s, t, Arm(isNull)));
  }

  lemma NoSentinelYet(s: State, own: Owners)
    requires InvAt(s, own) && Draining(s.closer)
    ensures SentinelOf(s.closer) == None
  {
  }

  lemma DisarmKeeps(s: State, own: Owners, t: Tid) returns (own': Owners)
    requires InvAt(s, own) && SubReady(s, t, Disarm) && SubSafe(s, t, Disarm)
    ensures InvAt(SubApply(s, t, Disarm), own')
  {
    hide Placed, Backed, ShapePart, DataPart, RefPart, OncePart, QueuePart, PlainPart, PollerPart, BatchPart, LogPart,
      PermitPart, DrainPart, PoolInv;
    HeldFacts(s, own, t);
    hide Listed;
    var i := s.subs[t].iocb;
    var data, sub := s.n.blocks[i].data, Unarmed(i);
    own' := Moved(own, t, s.subs[t], sub);
    OwnedKeys(own, i, WithSub(t, false));
    assert forall j :: j != i ==> (Carries(own', j) <==> Carries(own, j));
    FewerCargo(s.cfg, s.n.blocks, own, s.n.blocks, own', SentinelOf(s.closer), s.nextRef, s.completed);
    if data.Callback? {
      assert CarriesRef(s.n.blocks, own, i, data.ref);
      RefDropped(s.n.blocks, own, own', i, data.ref, PollerRef(s.poller), s.n.live, s.nextRef);
    } else {
      RefUncarried(s.n.blocks, own, own', i, PollerRef(s.poller), s.n.live, s.nextRef);
    }
    ShapeMove(s.cfg, s.n.blocks, s.subs, t, sub);
    Assemble(s, own, t, sub, SubApply(s, t, Disarm));
  }

  lemma GiveBackKeeps(s: State, own: Owners, t: Tid) returns (own': Owners)
    requires InvAt(s, own) && SubReady(s, t, GiveBack) && SubSafe(s, t, GiveBack)
    ensures InvAt(SubApply(s, t, GiveBack), own')
  {
    hide Placed, Backed, ShapePart, DataPart, RefPart, OncePart, QueuePart, PlainPart, PollerPart, BatchPart, LogPart,
      PermitPart, DrainPart, PoolInv;
    HeldFacts(s, own, t);
    hide Listed;
    var i := s.subs[t].iocb;
    own' := Moved(own, t, s.subs[t], Outside);
    assert own' == own - {i} && own'.Keys == own.Keys - {i};
    PutKeeps(s.n.pool, s.n.blocks.Keys, own.Keys, i);
    CargoAt(s.n.blocks, own, s.n.blocks, own', i);
    hide SameCargo;
    CargoFrame(s.cfg, s.n.blocks, own, s.n.blocks, own', SentinelOf(s.closer), PollerRef(s.poller), s.n.live,
      s.nextRef, s.completed);
    ShapeMove(s.cfg, s.n.blocks, s.subs, t, Outside);
    Assemble(s, own, t, Outside, SubApply(s, t, GiveBack));
  }

  lemma AcceptKeeps(s: State, own: Owners, t: Tid) returns (own': Owners)
    requires InvAt(s, own) && SubReady(s, t, Accept) && SubSafe(s, t, Accept)
    ensures InvAt(SubApply(s, t, Accept), own')
  {
    hide Placed, Backed, ShapePart, DataPart, RefPart, OncePart, QueuePart, PlainPart, PollerPart, BatchPart, LogPart,
      DrainPart, PoolInv, Admissions;
    HeldFacts(s, own, t);
    hide Listed;
    var i := s.subs[t].iocb;
    own' := own[i := InKernel];
    OwnedKeys(own, i, InKernel);
    CargoAt(s.n.blocks, own, s.n.blocks, own', i);
    hide SameCargo;
    CargoFrame(s.cfg, s.n.blocks, own, s.n.blocks, own', SentinelOf(s.closer), PollerRef(s.poller), s.n.live,
      s.nextRef, s.completed);
    ShapeMove(s.cfg, s.n.blocks, s.subs, t, Outside);
    AdmissionsMove(s.subs, t, Outside);
    AcceptMovesPlaces(own, s.subs, t, i, s.inflight, Queue(s.ring), Unclaimed(s.poller), Claimed(s.poller),
      CloserHeld(s.closer));
    NoDrainYet(s, own, s.subs[t := Outside], own'.Keys);
  }

  lemma NoDrainYet(s: State, own: Owners, subs: map<Tid, Submitter>, out: set<Iocb>)
    requires InvAt(s, own) && Draining(s.closer)
    ensures DrainPart(s.n.permits, subs, out, s.poller, s.n.pool, s.n.blocks.Keys, s.failed, s.closer)
  {
  }

  /** Whatever a submitting thread does next, the invariant survives. */
  lemma SubmitterKeeps(s: State, own: Owners, t: Tid, a: SubAction) returns (own': Owners)
    requires InvAt(s, own) && SubReady(s, t, a) && SubSafe(s, t, a)
    ensures InvAt(SubApply(s, t, a), own')
  {
    own' := own;
    hide InvAt;
    match a
    case Check(fd) => CheckKeeps(s, own, t, fd);
    case Acquire => AcquireKeeps(s, own, t);
    case Obtain => own' := ObtainKeeps(s, own, t);
    case Prepare => PrepareKeeps(s, own, t);
    case Arm(isNull) => own' := ArmKeeps(s, own, t, isNull);
    case Accept => own' := AcceptKeeps(s, own, t);
    case Reject => RejectKeeps(s, own, t);
    case Disarm => own' := DisarmKeeps(s, own, t);
    case GiveBack => own' := GiveBackKeeps(s, own, t);
  }
}
