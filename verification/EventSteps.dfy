/** The steps on one reaped event keep the invariant. */
module EventSteps {
  import opened Options
  import opened Sequences
  import opened RingArithmetic
  import opened IocbPool
  import opened AioRing
  import opened Lifecycle
  import opened Trace
  import opened Machine
  import opened Invariant
  import opened Frames

  // ----- The log -----

  lemma LogGrows(cfg: Config, p: Poller, p': Poller, batches: seq<seq<Completion>>, log: seq<Entry>, extra: seq<Entry>)
    requires p.Handling? && p'.Handling? && p'.i == p.i && LogPart(cfg, p, batches, log)
    requires p.i < |batches[|batches| - 1]|
    requires var cs := batches[|batches| - 1];
      StageLog(cfg, cs, p.i, p'.stage) == StageLog(cfg, cs, p.i, p.stage) + extra
    ensures LogPart(cfg, p', batches, log + extra)
  {
    hide LogOf, LogPrefix;
    var init, cs := batches[..|batches| - 1], batches[|batches| - 1];
    Assoc(LogOf(cfg, init) + [Reaped] + LogPrefix(cfg, cs, p.i), StageLog(cfg, cs, p.i, p.stage), extra);
  }

  lemma LogNext(cfg: Config, p: Poller, p': Poller, batches: seq<seq<Completion>>, log: seq<Entry>)
    requires p.Handling? && p'.Handling? && p'.i == p.i + 1 && p'.stage == Top && LogPart(cfg, p, batches, log)
    requires p.i < |batches[|batches| - 1]|
    requires var cs := batches[|batches| - 1];
      StageLog(cfg, cs, p.i, p.stage) == EventLog(cfg, Prev(cfg, cs, p.i), p.i, cs[p.i])
    ensures LogPart(cfg, p', batches, log)
  {
    hide LogOf, EventLog;
    var init, cs := batches[..|batches| - 1], batches[|batches| - 1];
    var a, b, c := LogOf(cfg, init) + [Reaped], LogPrefix(cfg, cs, p.i), StageLog(cfg, cs, p.i, p.stage);
    Assoc(a, b, c);
    assert LogPrefix(cfg, cs, p.i + 1) == b + c;
    assert a + (b + c) + [] == a + (b + c);
  }

  lemma LogEnds(cfg: Config, p: Poller, batches: seq<seq<Completion>>, log: seq<Entry>)
    requires p.Handling? && LogPart(cfg, p, batches, log) && p.stage == Top && p.i == |batches[|batches| - 1]|
    ensures log == LogOf(cfg, batches)
  {
    hide LogOf, LogPrefix;
    var init, cs := batches[..|batches| - 1], batches[|batches| - 1];
    assert batches == init + [cs];
    AddBatch(cfg, init, cs);
    Assoc(LogOf(cfg, init), [Reaped], LogPrefix(cfg, cs, |cs|));
    var a := LogOf(cfg, init) + [Reaped] + LogPrefix(cfg, cs, |cs|);
    assert a + [] == a;
  }

  // ----- Steps that only write the log or move the stage -----

  lemma StageMoves(s: State, own: Owners, p: Poller, log: seq<Entry>)
    requires InvAt(s, own) && s.poller.Handling? && p.Handling? && Draining(s.closer)
    requires Unclaimed(p) == Unclaimed(s.poller) && Claimed(p) == Claimed(s.poller) &&
      PollerRef(p) == PollerRef(s.poller)
    requires PendingRelease(s.cfg, p) == PendingRelease(s.cfg, s.poller)
    requires PollerPart(s.cfg, s.ring, p)
    requires BatchPart(s.cfg, s.n.blocks, p, s.batches)
    requires LogPart(s.cfg, p, s.batches, log)
    ensures InvAt(s.(n := s.n.(log := log), poller := p), own)
  {
    hide Placed, Backed, ShapePart, DataPart, RefPart, OncePart, QueuePart, PlainPart, PollerPart, PoolPart,
      BatchPart, LogPart, Queue, RingInv, Admissions, Unclaimed, Claimed, PollerRef, PendingRelease;
  }

  /** In the middle of an event the drain has not succeeded. */
  lemma MidEventMeansDraining(s: State, own: Owners)
    requires InvAt(s, own) && s.poller.Handling? && !s.poller.stage.Top? && !s.poller.stage.Unref?
    ensures Draining(s.closer)
  {
  }

  /** What the invariant says about the event in hand. */
  lemma CurrentEvent(s: State, own: Owners)
    requires InvAt(s, own) && s.poller.Handling? && s.poller.i < |s.poller.evts|
    ensures var p := s.poller; s.batches != [] && var cs := s.batches[|s.batches| - 1];
      && |cs| == |p.evts|
      && InBlocks(s.n.blocks, p.evts)
      && own.Keys <= s.n.blocks.Keys
      && (p.stage != Top ==> StageData(p.stage, cs[p.i]) && cs[p.i].res == p.evts[p.i].res)
      && (p.stage != Top ==> StageFits(s.cfg, p.stage))
      && (FirstUnclaimed(p.i, p.stage) == p.i ==>
            && cs[p.i] == Describe(s.n.blocks, p.evts[p.i])
            && p.evts[p.i].obj in own && own[p.evts[p.i].obj] == InBatch(false)
            && DataFits(s.cfg, s.n.blocks[p.evts[p.i].obj], SentinelOf(s.closer) == Some(p.evts[p.i].obj)))
  {
    hide Backed, ShapePart, RefPart, OncePart, QueuePart, PlainPart, PermitPart, DrainPart, PoolInv, Queue, RingInv,
      LogOf, LogPrefix, Prev;
    var p := s.poller;
    assert FirstUnclaimed(p.i, p.stage) == p.i ==> Unclaimed(p)[0] == p.evts[p.i];
    assert p.evts[p.i].obj in own ==> own[p.evts[p.i].obj] == InBatch(false) ==> Carrying(own[p.evts[p.i].obj]);
  }

  lemma NoSentinel(s: State, own: Owners)
    requires InvAt(s, own) && Draining(s.closer)
    ensures SentinelOf(s.closer) == None
  {
  }

  lemma BatchMoves(cfg: Config, blocks: map<Iocb, Block>, p: Poller, p': Poller, batches: seq<seq<Completion>>)
    requires p.Handling? && p'.Handling? && p'.evts == p.evts && p'.i == p.i < |p.evts| && p'.stage != Top
    requires BatchPart(cfg, blocks, p, batches)
    requires FirstUnclaimed(p.i, p.stage) <= FirstUnclaimed(p.i, p'.stage)
    requires var cs := batches[|batches| - 1];
      && StageData(p'.stage, cs[p.i])
      && cs[p.i].res == p.evts[p.i].res
      && p'.last == Prev(cfg, cs, if p'.stage.Sync? || p'.stage.ArrayReport? then p.i else p.i + 1)
    ensures BatchPart(cfg, blocks, p', batches)
  {
  }

  /** `lastFile` is the descriptor the previous event was synced for. */
  lemma LastFile(s: State, own: Owners)
    requires InvAt(s, own) && s.poller.Handling? && s.poller.i < |s.poller.evts|
    ensures var p, cs := s.poller, s.batches[|s.batches| - 1];
      p.last == Prev(s.cfg, cs, if p.stage.Top? || p.stage.Sync? || p.stage.ArrayReport? then p.i else p.i + 1)
  {
    hide Placed, Backed, ShapePart, DataPart, RefPart, OncePart, QueuePart, PlainPart, PoolPart, LogPart, PermitPart,
      DrainPart, ClosePart, StageData, DescribeAll, Queue, RingInv, LogOf, LogPrefix, Flatten, DataFits;
  }

  /** From one stage of an event to the next, writing `extra`. */
  lemma StageAdvances(s: State, own: Owners, p': Poller, extra: seq<Entry>)
    requires InvAt(s, own) && s.poller.Handling? && s.poller.i < |s.poller.evts| && Draining(s.closer)
    requires p'.Handling? && p' == s.poller.(stage := p'.stage, last := p'.last) && p'.stage != Top &&
      StageFits(s.cfg, p'.stage)
    requires FirstUnclaimed(p'.i, p'.stage) == FirstUnclaimed(p'.i, s.poller.stage)
    requires Claimed(p') == Claimed(s.poller) && PollerRef(p') == PollerRef(s.poller)
    requires PendingRelease(s.cfg, p') == PendingRelease(s.cfg, s.poller)
    requires s.batches != [] && var cs := s.batches[|s.batches| - 1];
      && |cs| == |s.poller.evts|
      && cs[p'.i].res == p'.evts[p'.i].res
      && StageData(p'.stage, cs[p'.i])
      && p'.last == Prev(s.cfg, cs, if p'.stage.Sync? || p'.stage.ArrayReport? then p'.i else p'.i + 1)
      && StageLog(s.cfg, cs, p'.i, p'.stage) == StageLog(s.cfg, cs, p'.i, s.poller.stage) + extra
    ensures InvAt(s.(n := s.n.(log := s.n.log + extra), poller := p'), own)
  {
    hide Placed, Backed, ShapePart, DataPart, RefPart, OncePart, QueuePart, PlainPart, PoolPart, BatchPart, LogPart,
      PermitPart, DrainPart, ClosePart, Queue, RingInv, StageLog, StageData, Prev;
    BatchMoves(s.cfg, s.n.blocks, s.poller, p', s.batches);
    LogGrows(s.cfg, s.poller, p', s.batches, s.n.log, extra);
    hide FirstUnclaimed, Claimed, PollerRef, PendingRelease;
    StageMoves(s, own, p', s.n.log + extra);
  }

  lemma TopKeeps(s: State, own: Owners)
    requires InvAt(s, own) && PollReady(s, EventStep) && PollSafe(s, EventStep)
    requires s.poller.stage == Top && s.poller.i < |s.poller.evts| && Draining(s.closer)
    ensures InvAt(PollApply(s, EventStep), own)
  {
    hide Placed, Backed, ShapePart, DataPart, RefPart, OncePart, QueuePart, PlainPart, PoolPart, PollerPart,
      BatchPart, LogPart, PermitPart, DrainPart, ClosePart, Queue, RingInv;
    CurrentEvent(s, own);
    LastFile(s, own);
    NoSentinel(s, own);
    var p' := s.poller.(stage := if s.cfg.blocking then Sync else ArrayReport);
    assert s.n.log + [] == s.n.log;
    assert StageLog(s.cfg, s.batches[|s.batches| - 1], p'.i, p'.stage) == [] + [];
    StageAdvances(s, own, p', []);
  }

  lemma SyncKeeps(s: State, own: Owners)
    requires InvAt(s, own) && PollReady(s, EventStep) && PollSafe(s, EventStep) && s.poller.stage == Sync
    ensures InvAt(PollApply(s, EventStep), own)
  {
    hide Placed, Backed, ShapePart, DataPart, RefPart, OncePart, QueuePart, PlainPart, PoolPart, PollerPart,
      BatchPart, LogPart, PermitPart, DrainPart, ClosePart, Queue, RingInv;
    CurrentEvent(s, own);
    LastFile(s, own);
    MidEventMeansDraining(s, own);
    var p, cs := s.poller, s.batches[|s.batches| - 1];
    var (n, last) := SyncStep(s.cfg, s.n, p.last, p.evts[p.i]);
    var extra := SyncPart(s.cfg, p.last, cs[p.i].fd);
    assert [] + extra == extra;
    assert n == s.n.(log := s.n.log + extra);
    StageAdvances(s, own, p.(last := last, stage := Report), extra);
  }

  lemma ReportLog(cfg: Config, cs: seq<Completion>, i: nat)
    requires i < |cs|
    ensures cfg.blocking ==> StageLog(cfg, cs, i, Claim) == StageLog(cfg, cs, i, Report) + ErrorPart(cs[i])
    ensures !cfg.blocking ==> StageLog(cfg, cs, i, ArrayStore) == StageLog(cfg, cs, i, ArrayReport) + ErrorPart(cs[i])
    ensures !cfg.blocking ==> Prev(cfg, cs, i) == Prev(cfg, cs, i + 1)
  {
  }

  lemma ReportKeeps(s: State, own: Owners)
    requires InvAt(s, own) && PollReady(s, EventStep) && PollSafe(s, EventStep)
    requires s.poller.stage == Report || s.poller.stage == ArrayReport
    ensures InvAt(PollApply(s, EventStep), own)
  {
    hide Placed, Backed, ShapePart, DataPart, RefPart, OncePart, QueuePart, PlainPart, PoolPart, PollerPart,
      BatchPart, LogPart, PermitPart, DrainPart, ClosePart, Queue, RingInv;
    hide I32, StageLog, Prev;
    CurrentEvent(s, own);
    LastFile(s, own);
    MidEventMeansDraining(s, own);
    var p, cs := s.poller, s.batches[|s.batches| - 1];
    ReportLog(s.cfg, cs, p.i);
    var extra := ErrorPart(cs[p.i]);
    assert ReportStep(s.n, p.evts[p.i]) == s.n.(log := s.n.log + extra) by {
      assert s.n.log + [] == s.n.log;
    }
    hide ErrorPart;
    StageAdvances(s, own, p.(stage := if p.stage == Report then Claim else ArrayStore), extra);
  }

  lemma FinishLog(cfg: Config, cs: seq<Completion>, i: nat, ref: Ref)
    requires i < |cs| && cs[i].data == Callback(ref)
    ensures cfg.blocking ==> StageLog(cfg, cs, i, Release(ref)) == StageLog(cfg, cs, i, Notify(ref)) + [Done(ref)]
    ensures !cfg.blocking ==>
      StageLog(cfg, cs, i, ArrayUnref(ref)) == StageLog(cfg, cs, i, ArrayStore) + [Stored(i, ref)]
  {
    hide I32;
  }

  lemma NotifyKeeps(s: State, own: Owners, ref: Ref)
    requires InvAt(s, own) && PollReady(s, EventStep) && PollSafe(s, EventStep) && s.poller.stage == Notify(ref)
    ensures InvAt(PollApply(s, EventStep), own)
  {
    hide Placed, Backed, ShapePart, DataPart, RefPart, OncePart, QueuePart, PlainPart, PoolPart, PollerPart,
      BatchPart, LogPart, PermitPart, DrainPart, ClosePart, Queue, RingInv;
    hide StageLog, Prev;
    CurrentEvent(s, own);
    LastFile(s, own);
    MidEventMeansDraining(s, own);
    FinishLog(s.cfg, s.batches[|s.batches| - 1], s.poller.i, ref);
    StageAdvances(s, own, s.poller.(stage := Release(ref)), [Done(ref)]);
  }

  lemma StoreKeeps(s: State, own: Owners)
    requires InvAt(s, own) && PollReady(s, EventStep) && PollSafe(s, EventStep) && s.poller.stage == ArrayStore
    requires s.n.blocks[s.poller.evts[s.poller.i].obj].data.Callback?
    ensures InvAt(PollApply(s, EventStep), own)
  {
    hide Placed, Backed, ShapePart, DataPart, RefPart, OncePart, QueuePart, PlainPart, PoolPart, PollerPart,
      BatchPart, LogPart, PermitPart, DrainPart, ClosePart, Queue, RingInv;
    hide StageLog, Prev;
    CurrentEvent(s, own);
    LastFile(s, own);
    MidEventMeansDraining(s, own);
    var p := s.poller;
    var ref := s.n.blocks[p.evts[p.i].obj].data.ref;
    FinishLog(s.cfg, s.batches[|s.batches| - 1], p.i, ref);
    StageAdvances(s, own, p.(stage := ArrayUnref(ref)), [Stored(p.i, ref)]);
  }

  // ----- The claim of the data, and the return of the block -----

  lemma ClaimMovesPlaces(own: Owners, subs: map<Tid, Submitter>, inflight: set<Iocb>, queue: seq<Event>,
      unclaimed: seq<Event>, held: Option<Held>)
    requires unclaimed != []
    requires Placed(own, subs, inflight, queue, unclaimed, None, held)
    requires Backed(own, subs, inflight, queue, unclaimed, None, held)
    ensures var i := unclaimed[0].obj; var own' := own[i := InBatch(true)];
      && Placed(own', subs, inflight, queue, unclaimed[1..], Some(i), held)
      && Backed(own', subs, inflight, queue, unclaimed[1..], Some(i), held)
  {
    var i, rest := unclaimed[0].obj, unclaimed[1..];
    var own' := own[i := InBatch(true)];
    forall u | u in subs ensures SubPlaced(own', u, subs[u]) {
      assert SubPlaced(own, u, subs[u]);
    }
    forall j | j in own' ensures BackedAt(j, own'[j], subs, inflight, queue, rest, Some(i), held) {
      assert BackedAt(j, own[j], subs, inflight, queue, unclaimed, None, held);
      if j != i && own[j] == InBatch(false) {
        var k :| 0 <= k < |unclaimed| && unclaimed[k].obj == j;
        assert rest[k - 1].obj == j;
      }
    }
  }

  lemma PutMovesPlaces(own: Owners, subs: map<Tid, Submitter>, inflight: set<Iocb>, queue: seq<Event>,
      unclaimed: seq<Event>, i: Iocb, held: Option<Held>)
    requires Placed(own, subs, inflight, queue, unclaimed, Some(i), held)
    requires Backed(own, subs, inflight, queue, unclaimed, Some(i), held)
    ensures Placed(own - {i}, subs, inflight, queue, unclaimed, None, held)
    ensures Backed(own - {i}, subs, inflight, queue, unclaimed, None, held)
  {
    hide HasBlock;
    forall u | u in subs ensures SubPlaced(own - {i}, u, subs[u]) {
      assert SubPlaced(own, u, subs[u]);
    }
    forall j | j in own - {i} ensures BackedAt(j, (own - {i})[j], subs, inflight, queue, unclaimed, None, held) {
      assert BackedAt(j, own[j], subs, inflight, queue, unclaimed, Some(i), held);
    }
  }

  lemma RestOf(evts: seq<Event>, i: nat)
    requires i < |evts|
    ensures From(evts, i) != [] && From(evts, i)[0] == evts[i] && From(evts, i)[1..] == From(evts, i + 1)
  {
  }

  /** The facts about places that a claim needs. */
  lemma ClaimPlaces(s: State, own: Owners)
    requires InvAt(s, own) && s.poller.Handling? && s.poller.i < |s.poller.evts|
    requires FirstUnclaimed(s.poller.i, s.poller.stage) == s.poller.i
    ensures var p := s.poller; var i := p.evts[p.i].obj; var own' := own[i := InBatch(true)];
      && i in own && own[i] == InBatch(false) && own'.Keys == own.Keys
      && Placed(own', s.subs, s.inflight, Queue(s.ring), From(p.evts, p.i + 1), Some(i), CloserHeld(s.closer))
      && Backed(own', s.subs, s.inflight, Queue(s.ring), From(p.evts, p.i + 1), Some(i), CloserHeld(s.closer))
      && (forall u :: u in s.subs ==> SubPlaced(own', u, s.subs[u]))
      && Listed(own', Queue(s.ring), InRing) && Listed(own', From(p.evts, p.i + 1), InBatch(false))
  {
    hide Backed, ShapePart, DataPart, RefPart, OncePart, QueuePart, PlainPart, PoolPart, PollerPart, BatchPart,
      LogPart, PermitPart, ClosePart, Queue, RingInv;
    var p := s.poller;
    RestOf(p.evts, p.i);
    ClaimMovesPlaces(own, s.subs, s.inflight, Queue(s.ring), Unclaimed(p), CloserHeld(s.closer));
  }

  lemma ClaimKeeps(s: State, own: Owners) returns (own': Owners)
    requires InvAt(s, own) && PollReady(s, EventStep) && PollSafe(s, EventStep) && s.poller.stage == Claim
    ensures InvAt(PollApply(s, EventStep), own')
  {
    hide Placed, Backed, ShapePart, DataPart, RefPart, OncePart, QueuePart, PlainPart, PoolPart, PollerPart,
      BatchPart, LogPart, PermitPart, DrainPart, ClosePart, Queue, RingInv;
    hide StageLog, Prev, Listed;
    CurrentEvent(s, own);
    LastFile(s, own);
    MidEventMeansDraining(s, own);
    NoSentinel(s, own);
    ClaimPlaces(s, own);
    var p, cs := s.poller, s.batches[|s.batches| - 1];
    var i := p.evts[p.i].obj;
    own' := own[i := InBatch(true)];
    var data, b := s.n.blocks[i].data, s.n.blocks[i].(data := Null);
    var p' := p.(stage := PutBack(data));
    var blocks := s.n.blocks[i := b];
    assert blocks.Keys == s.n.blocks.Keys;
    BatchMoves(s.cfg, s.n.blocks, p, p', s.batches);
    EventsFrame(s.cfg, s.n.blocks, own', i, b, Queue(s.ring), p', s.batches, s.completed);
    ShapeElsewhere(s.cfg, s.n.blocks, own', s.subs, i, b);
    FewerCargo(s.cfg, s.n.blocks, own, blocks, own', None, s.nextRef, s.completed);
    RefClaimed(s.n.blocks, own, blocks, own', i, data.ref, s.n.live, s.nextRef);
    ClaimLog(s, own, p');
    DrainLater(s.n.permits, s.subs, own'.Keys, p', s.n.pool, blocks.Keys, s.failed, s.closer);
  }

  lemma ClaimLog(s: State, own: Owners, p': Poller)
    requires InvAt(s, own) && s.poller.Handling? && s.poller.i < |s.poller.evts| && p'.Handling?
    requires p' == s.poller.(stage := p'.stage) && StageFits(s.cfg, p'.stage)
    requires s.poller.stage == Claim && p'.stage.PutBack?
    ensures LogPart(s.cfg, p', s.batches, s.n.log)
    ensures PollerPart(s.cfg, s.ring, p')
    ensures ClosePart(s.cfg, s.closed, p', s.closer)
    ensures PermitPart(s.cfg, s.n.permits, Admissions(s.subs), s.n.pool.used, PendingRelease(s.cfg, p'), s.failed,
      s.closer)
  {
    hide Placed, Backed, ShapePart, DataPart, RefPart, OncePart, QueuePart, PlainPart, PoolPart, DrainPart, Queue,
      RingInv, LogOf, LogPrefix, SyncPart, ErrorPart, StageData;
  }

  /** `putIOCB` of the current event's block, in either mode. */
  lemma PutBackPlaces(s: State, own: Owners)
    requires InvAt(s, own) && Claimed(s.poller).Some?
    ensures var p := s.poller; var i := p.evts[p.i].obj;
      && i in own && own[i] == InBatch(true) && (own - {i}).Keys == own.Keys - {i}
      && Placed(own - {i}, s.subs, s.inflight, Queue(s.ring), From(p.evts, p.i + 1), None, CloserHeld(s.closer))
      && Backed(own - {i}, s.subs, s.inflight, Queue(s.ring), From(p.evts, p.i + 1), None, CloserHeld(s.closer))
      && PoolPart(s.cfg, Put(s.n.pool, i), s.n.blocks.Keys, own.Keys - {i})
      && Put(s.n.pool, i).used == s.n.pool.used - 1
      && DataPart(s.cfg, s.n.blocks, own - {i}, SentinelOf(s.closer))
      && RefPart(s.n.blocks, own - {i}, PollerRef(s.poller), s.n.live, s.nextRef)
      && OncePart(s.n.blocks, own - {i}, s.completed, s.nextRef)
  {
    hide Backed, ShapePart, DataFits, RefPart, OncePart, QueuePart, PlainPart, PollerPart, BatchPart, LogPart,
      PermitPart, DrainPart, ClosePart, Queue, RingInv, PoolInv, Listed;
    var p := s.poller;
    var i := p.evts[p.i].obj;
    assert i in own && own[i] == InBatch(true);
    PutMovesPlaces(own, s.subs, s.inflight, Queue(s.ring), From(p.evts, p.i + 1), i, CloserHeld(s.closer));
    PutKeeps(s.n.pool, s.n.blocks.Keys, own.Keys, i);
    hide Placed;
    CargoAt(s.n.blocks, own, s.n.blocks, own - {i}, i);
    hide SameCargo;
    CargoFrame(s.cfg, s.n.blocks, own, s.n.blocks, own - {i}, SentinelOf(s.closer), PollerRef(s.poller), s.n.live,
      s.nextRef, s.completed);
  }

  lemma PutBackKeeps(s: State, own: Owners) returns (own': Owners)
    requires InvAt(s, own) && PollReady(s, EventStep) && PollSafe(s, EventStep) && s.poller.stage.PutBack?
    ensures InvAt(PollApply(s, EventStep), own')
  {
    hide Placed, Backed, ShapePart, DataPart, RefPart, OncePart, QueuePart, PlainPart, PoolPart, PollerPart,
      BatchPart, LogPart, PermitPart, DrainPart, ClosePart, Queue, RingInv;
    hide StageLog, Prev, Listed;
    CurrentEvent(s, own);
    LastFile(s, own);
    MidEventMeansDraining(s, own);
    PutBackPlaces(s, own);
    var p := s.poller;
    own' := own - {p.evts[p.i].obj};
    var p' := p.(stage := Notify(p.stage.data.ref));
    BatchMoves(s.cfg, s.n.blocks, p, p', s.batches);
    PutBackLog(s, own, p');
    DrainLater(s.n.permits, s.subs, own'.Keys, p', Put(s.n.pool, p.evts[p.i].obj), s.n.blocks.Keys, s.failed, s.closer);
  }

  lemma PutBackLog(s: State, own: Owners, p': Poller)
    requires InvAt(s, own) && s.poller.Handling? && s.poller.i < |s.poller.evts| && s.poller.stage.PutBack?
    requires p'.Handling? && p'.stage.Notify? && p' == s.poller.(stage := p'.stage)
    ensures LogPart(s.cfg, p', s.batches, s.n.log)
    ensures PollerPart(s.cfg, s.ring, p')
    ensures ClosePart(s.cfg, s.closed, p', s.closer)
    ensures PermitPart(s.cfg, s.n.permits, Admissions(s.subs), s.n.pool.used - 1, PendingRelease(s.cfg, p'), s.failed,
      s.closer)
  {
    hide Placed, Backed, ShapePart, DataPart, RefPart, OncePart, QueuePart, PlainPart, PoolPart, DrainPart, Queue,
      RingInv, LogOf, LogPrefix, SyncPart, ErrorPart, StageData;
  }

  lemma ReleaseKeeps(s: State, own: Owners, ref: Ref)
    requires InvAt(s, own) && PollReady(s, EventStep) && PollSafe(s, EventStep) && s.poller.stage == Release(ref)
    ensures InvAt(PollApply(s, EventStep), own)
  {
    hide Placed, Backed, ShapePart, DataPart, RefPart, OncePart, QueuePart, PlainPart, PoolPart, PollerPart,
      BatchPart, LogPart, PermitPart, DrainPart, ClosePart, Queue, RingInv;
    hide StageLog, Prev, Listed;
    CurrentEvent(s, own);
    LastFile(s, own);
    MidEventMeansDraining(s, own);
    var p := s.poller;
    var p' := p.(stage := Unref(ref));
    BatchMoves(s.cfg, s.n.blocks, p, p', s.batches);
    ReleaseLog(s, own, p');
    var permits := ReleaseStep(s.cfg, s.n, 1).permits;
    DrainLater(permits, s.subs, own.Keys, p', s.n.pool, s.n.blocks.Keys, s.failed, s.closer);
  }

  lemma ReleaseLog(s: State, own: Owners, p': Poller)
    requires InvAt(s, own) && s.poller.Handling? && s.poller.i < |s.poller.evts| && s.poller.stage.Release?
    requires p' == s.poller.(stage := Unref(s.poller.stage.ref))
    ensures LogPart(s.cfg, p', s.batches, s.n.log)
    ensures PollerPart(s.cfg, s.ring, p')
    ensures ClosePart(s.cfg, s.closed, p', s.closer)
    ensures PermitPart(s.cfg, ReleaseStep(s.cfg, s.n, 1).permits, Admissions(s.subs), s.n.pool.used,
      PendingRelease(s.cfg, p'), s.failed, s.closer)
  {
    hide Placed, Backed, ShapePart, DataPart, RefPart, OncePart, QueuePart, PlainPart, PoolPart, DrainPart, Queue,
      RingInv, LogOf, LogPrefix, EventLog, StageData;
  }

  lemma UnrefKeeps(s: State, own: Owners, ref: Ref)
    requires InvAt(s, own) && PollReady(s, EventStep) && PollSafe(s, EventStep) && s.poller.stage == Unref(ref)
    ensures InvAt(PollApply(s, EventStep), own)
  {
    hide Placed, Backed, ShapePart, DataPart, RefPart, OncePart, QueuePart, PlainPart, PoolPart, PollerPart,
      BatchPart, LogPart, PermitPart, DrainPart, ClosePart, Queue, RingInv;
    hide StageLog, Prev, Listed;
    var p' := s.poller.(i := s.poller.i + 1, stage := Top);
    NextEvent(s, own, p');
    UnrefParts(s, own, ref, p');
  }

  /** `DeleteGlobalRef` of the poller's reference. */
  lemma UnrefParts(s: State, own: Owners, ref: Ref, p': Poller)
    requires InvAt(s, own) && s.poller.Handling? && s.poller.i < |s.poller.evts| && s.poller.stage == Unref(ref)
    requires p' == s.poller.(i := s.poller.i + 1, stage := Top)
    ensures RefPart(s.n.blocks, own, None, s.n.live - {ref}, s.nextRef)
    ensures PermitPart(s.cfg, s.n.permits, Admissions(s.subs), s.n.pool.used, PendingRelease(s.cfg, p'), s.failed,
      s.closer)
    ensures DrainPart(s.n.permits, s.subs, own.Keys, p', s.n.pool, s.n.blocks.Keys, s.failed, s.closer)
  {
    hide Placed, Backed, ShapePart, DataPart, OncePart, QueuePart, PlainPart, PoolPart, BatchPart, LogPart, ClosePart,
      Queue, RingInv, Permutation, Admissions, CarriesRef;
  }

  /** The loop counter moves on. */
  lemma NextEvent(s: State, own: Owners, p': Poller)
    requires InvAt(s, own) && s.poller.Handling? && s.poller.i < |s.poller.evts|
    requires s.poller.stage.Unref? || s.poller.stage.ArrayPut?
    requires p' == s.poller.(i := s.poller.i + 1, stage := Top)
    ensures LogPart(s.cfg, p', s.batches, s.n.log)
    ensures PollerPart(s.cfg, s.ring, p')
    ensures BatchPart(s.cfg, s.n.blocks, p', s.batches)
    ensures ClosePart(s.cfg, s.closed, p', s.closer)
    ensures Unclaimed(p') == From(s.poller.evts, s.poller.i + 1) == Unclaimed(s.poller) && Claimed(p') == None &&
      PollerRef(p') == None
  {
    hide Placed, Backed, ShapePart, DataPart, RefPart, OncePart, QueuePart, PlainPart, PoolPart, DrainPart,
      PermitPart, Queue, RingInv, LogPart, EventLog, StageData;
    LogNext(s.cfg, s.poller, p', s.batches, s.n.log);
  }

  // ----- The array mode -----

  /** The block of the current event stops carrying: its reference was just
      deleted, or it never had one. */
  lemma ArrayClaimKeeps(s: State, own: Owners) returns (own': Owners)
    requires InvAt(s, own) && PollReady(s, EventStep) && PollSafe(s, EventStep)
    requires s.poller.stage.ArrayUnref? || (s.poller.stage == ArrayStore &&
      !s.n.blocks[s.poller.evts[s.poller.i].obj].data.Callback?)
    ensures InvAt(PollApply(s, EventStep), own')
  {
    hide Placed, Backed, ShapePart, DataPart, RefPart, OncePart, QueuePart, PlainPart, PoolPart, PollerPart,
      BatchPart, LogPart, PermitPart, DrainPart, ClosePart, Queue, RingInv;
    hide StageLog, Prev, Listed;
    CurrentEvent(s, own);
    LastFile(s, own);
    MidEventMeansDraining(s, own);
    NoSentinel(s, own);
    ClaimPlaces(s, own);
    var p := s.poller;
    var i := p.evts[p.i].obj;
    own' := own[i := InBatch(true)];
    var p' := p.(stage := ArrayPut);
    BatchMoves(s.cfg, s.n.blocks, p, p', s.batches);
    FewerCargo(s.cfg, s.n.blocks, own, s.n.blocks, own', None, s.nextRef, s.completed);
    assert forall j :: j != i ==> (Carries(own', j) <==> Carries(own, j));
    if p.stage.ArrayUnref? {
      RefDropped(s.n.blocks, own, own', i, p.stage.ref, None, s.n.live, s.nextRef);
    } else {
      RefUncarried(s.n.blocks, own, own', i, None, s.n.live, s.nextRef);
    }
    ArrayClaimLog(s, own, p');
    DrainLater(s.n.permits, s.subs, own'.Keys, p', s.n.pool, s.n.blocks.Keys, s.failed, s.closer);
  }

  lemma ArrayClaimLog(s: State, own: Owners, p': Poller)
    requires InvAt(s, own) && s.poller.Handling? && s.poller.i < |s.poller.evts| && p' == s.poller.(stage := ArrayPut)
    requires s.poller.stage.ArrayUnref? || (s.poller.stage == ArrayStore && s.poller.evts[s.poller.i].obj in s.n.blocks
                                            && !s.n.blocks[s.poller.evts[s.poller.i].obj].data.Callback?)
    ensures LogPart(s.cfg, p', s.batches, s.n.log)
    ensures PollerPart(s.cfg, s.ring, p')
    ensures ClosePart(s.cfg, s.closed, p', s.closer)
    ensures PermitPart(s.cfg, s.n.permits, Admissions(s.subs), s.n.pool.used, PendingRelease(s.cfg, p'), s.failed,
      s.closer)
  {
    CurrentEvent(s, own);
    hide Placed, Backed, ShapePart, DataPart, RefPart, OncePart, QueuePart, PlainPart, PoolPart, DrainPart, BatchPart,
      Queue, RingInv, LogOf, LogPrefix, I32, Admissions;
    var cs := s.batches[|s.batches| - 1];
    hide StageLog;
    SameStageLog(s.cfg, cs, s.poller.i, s.poller.stage);
  }

  /** A callback that was stored, or none to store: either way the event is logged. */
  lemma SameStageLog(cfg: Config, cs: seq<Completion>, i: nat, stage: Stage)
    requires i < |cs| && !cfg.blocking && (stage.ArrayUnref? || (stage == ArrayStore && !cs[i].data.Callback?))
    ensures StageLog(cfg, cs, i, ArrayPut) == StageLog(cfg, cs, i, stage)
  {
    hide I32;
  }

  lemma ArrayPutKeeps(s: State, own: Owners) returns (own': Owners)
    requires InvAt(s, own) && PollReady(s, EventStep) && PollSafe(s, EventStep) && s.poller.stage == ArrayPut
    ensures InvAt(PollApply(s, EventStep), own')
  {
    hide Placed, Backed, ShapePart, DataPart, RefPart, OncePart, QueuePart, PlainPart, PoolPart, PollerPart,
      BatchPart, LogPart, PermitPart, DrainPart, ClosePart, Queue, RingInv;
    hide StageLog, Prev, Listed;
    MidEventMeansDraining(s, own);
    PutBackPlaces(s, own);
    var p := s.poller;
    var i := p.evts[p.i].obj;
    own' := own - {i};
    var p' := p.(i := p.i + 1, stage := Top);
    NextEvent(s, own, p');
    ArrayPutPermits(s, own, p');
    DrainLater(s.n.permits, s.subs, own'.Keys, p', Put(s.n.pool, i), s.n.blocks.Keys, s.failed, s.closer);
  }

  lemma ArrayPutPermits(s: State, own: Owners, p': Poller)
    requires InvAt(s, own) && s.poller.Handling? && s.poller.i < |s.poller.evts| && s.poller.stage == ArrayPut
    requires p' == s.poller.(i := s.poller.i + 1, stage := Top)
    ensures PermitPart(s.cfg, s.n.permits, Admissions(s.subs), s.n.pool.used - 1, PendingRelease(s.cfg, p'), s.failed,
      s.closer)
  {
    hide Placed, Backed, ShapePart, DataPart, RefPart, OncePart, QueuePart, PlainPart, PoolPart, DrainPart, BatchPart,
      LogPart, Queue, RingInv, Admissions;
  }

  // ----- The end of a batch -----

  lemma BatchEndKeeps(s: State, own: Owners)
    requires InvAt(s, own) && PollReady(s, EventStep) && PollSafe(s, EventStep)
    requires s.poller.stage == Top && s.poller.i == |s.poller.evts|
    ensures InvAt(PollApply(s, EventStep), own)
  {
    hide Placed, Backed, ShapePart, DataPart, RefPart, OncePart, QueuePart, PlainPart, PoolPart, LogPart, Queue,
      RingInv, LogOf, Permutation, Prev, StageData, Admissions;
    LogEnds(s.cfg, s.poller, s.batches, s.n.log);
    assert From(s.poller.evts, s.poller.i) == [];
    BatchEndLog(s.cfg, PollApply(s, EventStep).poller, s.batches, s.n.log);
    hide BatchPart;
    assert !PollApply(s, EventStep).poller.Handling?;
    BatchNotHandling(s.cfg, s.n.blocks, PollApply(s, EventStep).poller, s.batches);
  }

  lemma BatchEndLog(cfg: Config, p: Poller, batches: seq<seq<Completion>>, log: seq<Entry>)
    requires !p.Handling? && log == LogOf(cfg, batches)
    ensures LogPart(cfg, p, batches, log)
  {
  }

  lemma BatchNotHandling(cfg: Config, blocks: map<Iocb, Block>, p: Poller, batches: seq<seq<Completion>>)
    requires !p.Handling?
    ensures BatchPart(cfg, blocks, p, batches)
  {
  }

  // ----- The sentinel -----

  /** After the drain, an event still in the batch is the sentinel's and the
      batch is nothing else. */
  lemma LoneEvent(s: State, own: Owners)
    requires InvAt(s, own) && s.poller.Handling? && s.poller.stage == Top && s.poller.i < |s.poller.evts|
    requires !Draining(s.closer)
    ensures var p := s.poller; |p.evts| == 1 && p.i == 0 && var x := p.evts[0].obj;
      && own.Keys == {x} && SentinelOf(s.closer) == Some(x)
      && s.n.blocks[x] == Block(s.cfg.dumbFd, Sentinel)
      && s.cfg.blocking
      && s.batches[|s.batches| - 1] == [Completion(Sentinel, s.cfg.dumbFd, p.evts[0].res)]
      && s.n.pool.slots[s.n.pool.put] == x
  {
    CurrentEvent(s, own);
    hide Placed, Backed, ShapePart, DataPart, RefPart, OncePart, QueuePart, PlainPart, PoolInv, BatchPart, LogPart,
      PermitPart, Queue, RingInv, Permutation, LogOf;
    assert Indexed(s.n.pool) by { PoolIndexed(s.n.pool, s.n.blocks.Keys, own.Keys); }
  }

  lemma PoolIndexed(pool: Pool, all: set<Iocb>, out: set<Iocb>)
    requires PoolInv(pool, all, out)
    ensures Indexed(pool)
  {
  }

  lemma SentinelLog(cfg: Config, p: Poller, batches: seq<seq<Completion>>, log: seq<Entry>)
    requires p.Handling? && p.stage == Top && p.i == 0 && LogPart(cfg, p, batches, log)
    requires Unsynced(batches[|batches| - 1])
    ensures log == LogOf(cfg, batches)
  {
    hide LogOf;
    var init, cs := batches[..|batches| - 1], batches[|batches| - 1];
    assert batches == init + [cs];
    AddBatch(cfg, init, cs);
    assert LogPrefix(cfg, cs, 1) == LogPrefix(cfg, cs, 0) + EventLog(cfg, Prev(cfg, cs, 0), 0, cs[0]);
    assert LogPrefix(cfg, cs, 1) == [];
    hide LogPrefix;
    var a := LogOf(cfg, init) + [Reaped];
    assert a + [] + [] == a && [Reaped] + [] == [Reaped];
  }

  lemma TopSentinelKeeps(s: State, own: Owners) returns (own': Owners)
    requires InvAt(s, own) && PollReady(s, EventStep) && PollSafe(s, EventStep)
    requires s.poller.stage == Top && s.poller.i < |s.poller.evts| && !Draining(s.closer)
    ensures InvAt(PollApply(s, EventStep), own')
    ensures PollApply(s, EventStep).poller == Stopping
  {
    hide Placed, Backed, ShapePart, DataPart, RefPart, OncePart, QueuePart, PlainPart, PoolPart, PollerPart,
      BatchPart, LogPart, PermitPart, DrainPart, ClosePart, Queue, RingInv;
    hide Listed, LogOf;
    LoneEvent(s, own);
    ClaimPlaces(s, own);
    var x := s.poller.evts[0].obj;
    own' := own - {x};
    assert From(s.poller.evts, 1) == [];
    PutMovesPlaces(own[x := InBatch(true)], s.subs, s.inflight, Queue(s.ring), [], x, CloserHeld(s.closer));
    assert own[x := InBatch(true)] - {x} == own';
    SentinelReturned(s, own, x);
    SentinelReturnedLog(s, own);
    BatchNotHandling(s.cfg, s.n.blocks, Stopping, s.batches);
  }

  /** Putting the sentinel's block back restores the pool. */
  lemma SentinelReturned(s: State, own: Owners, x: Iocb)
    requires InvAt(s, own) && !Draining(s.closer) && own.Keys == {x} && SentinelOf(s.closer) == Some(x) &&
      x in s.n.blocks
    requires Carrying(own[x]) && !own[x].WithCloser? && PollerRef(s.poller) == None
    ensures Indexed(s.n.pool)
    ensures var own', pool := own - {x}, Put(s.n.pool, x);
      && own'.Keys == {}
      && PoolPart(s.cfg, pool, s.n.blocks.Keys, own'.Keys)
      && DataPart(s.cfg, s.n.blocks, own', SentinelOf(s.closer))
      && RefPart(s.n.blocks, own', None, s.n.live, s.nextRef)
      && OncePart(s.n.blocks, own', s.completed, s.nextRef)
      && DrainPart(s.n.permits, s.subs, own'.Keys, Stopping, pool, s.n.blocks.Keys, s.failed, s.closer)
      && DrainPart(s.n.permits, s.subs, own'.Keys, Idle, pool, s.n.blocks.Keys, s.failed, s.closer)
      && pool.slots == s.n.pool.slots
  {
    hide Backed, ShapePart, RefPart, OncePart, QueuePart, PlainPart, BatchPart, LogPart, PermitPart, Queue, RingInv,
      PoolInv, Listed;
    PoolIndexed(s.n.pool, s.n.blocks.Keys, own.Keys);
    PutKeeps(s.n.pool, s.n.blocks.Keys, own.Keys, x);
    var own' := own - {x};
    assert own.Keys - {x} == {} == own'.Keys;
    FewerCargo(s.cfg, s.n.blocks, own, s.n.blocks, own', SentinelOf(s.closer), s.nextRef, s.completed);
    RefUncarried(s.n.blocks, own, own', x, None, s.n.live, s.nextRef);
    assert s.n.pool.slots[s.n.pool.put := x] == s.n.pool.slots;
  }

  lemma SentinelReturnedLog(s: State, own: Owners)
    requires InvAt(s, own) && s.poller.Handling? && s.poller.stage == Top && s.poller.i < |s.poller.evts| &&
      !Draining(s.closer)
    ensures LogPart(s.cfg, Stopping, s.batches, s.n.log)
    ensures PollerPart(s.cfg, s.ring, Stopping)
    ensures ClosePart(s.cfg, s.closed, Stopping, s.closer)
    ensures PermitPart(s.cfg, s.n.permits, Admissions(s.subs), s.n.pool.used - 1, PendingRelease(s.cfg, Stopping),
      s.failed, s.closer)
  {
    hide Placed, Backed, ShapePart, DataPart, RefPart, OncePart, QueuePart, PlainPart, PoolPart, DrainPart, BatchPart,
      LogPart, Queue, RingInv, Admissions;
    LoneEvent(s, own);
    LogOfBatch(s, own);
    hide InvAt;
    SentinelLog(s.cfg, s.poller, s.batches, s.n.log);
    BatchEndLog(s.cfg, Stopping, s.batches, s.n.log);
  }

  lemma LogOfBatch(s: State, own: Owners)
    requires InvAt(s, own)
    ensures LogPart(s.cfg, s.poller, s.batches, s.n.log) && RingInv(s.ring) && s.closer != NoSpace
    ensures s.closed <==> !s.closer.Open?
    ensures !s.closer.Open? && !s.closer.Closing? ==> s.cfg.useSemaphore
    ensures s.closer.Joined? || s.closer.Swept? || s.closer.Quiesced? || s.closer.Destroyed? ==> s.poller.Idle?
  {
    hide Placed, Backed, ShapePart, DataPart, RefPart, OncePart, QueuePart, PlainPart, PoolPart, DrainPart, BatchPart,
      LogPart, PollerPart, PermitPart, Queue, RingInv, Admissions;
  }

  // ----- All of them -----

  lemma EventKeeps(s: State, own: Owners) returns (own': Owners)
    requires InvAt(s, own) && PollReady(s, EventStep) && PollSafe(s, EventStep)
    ensures InvAt(PollApply(s, EventStep), own')
  {
    hide InvAt;
    own' := own;
    match s.poller.stage
    case Top =>
      if s.poller.i == |s.poller.evts| {
        BatchEndKeeps(s, own);
      } else if Draining(s.closer) {
        TopKeeps(s, own);
      } else {
        own' := TopSentinelKeeps(s, own);
      }
    case Sync => SyncKeeps(s, own);
    case Report => ReportKeeps(s, own);
    case Claim => own' := ClaimKeeps(s, own);
    case PutBack(_) => own' := PutBackKeeps(s, own);
    case Notify(ref) => NotifyKeeps(s, own, ref);
    case Release(ref) => ReleaseKeeps(s, own, ref);
    case Unref(ref) => UnrefKeeps(s, own, ref);
    case ArrayReport => ReportKeeps(s, own);
    case ArrayStore =>
      if s.n.blocks[s.poller.evts[s.poller.i].obj].data.Callback? {
        StoreKeeps(s, own);
      } else {
        own' := ArrayClaimKeeps(s, own);
      }
    case ArrayUnref(_) => own' := ArrayClaimKeeps(s, own);
    case ArrayPut => own' := ArrayPutKeeps(s, own);
  }
}
