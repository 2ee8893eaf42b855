/** What the engine promises its callers, over whole runs and in every
    interleaving. */
module Guarantees {
  import opened Circular
  import opened Options
  import opened Sequences
  import opened RingArithmetic
  import opened IocbPool
  import opened AioRing
  import opened Lifecycle
  import opened Trace
  import opened Machine
  import opened Invariant
  import opened KernelSteps
  import opened EventSteps
  import opened CloserSteps
  import opened Runs

  // ----- Admission -----

  /** With the semaphore, permits never overstate the free blocks: whoever has
      acquired one finds a block, and nobody is ever told that there is not
      enough space in the queue. */
  lemma AdmissionIsSound(states: seq<State>, acts: seq<Action>, k: nat, t: Tid)
    requires IsRun(states, acts) && k <= |acts| && states[k].cfg.useSemaphore && t in states[k].subs
    ensures states[k].subs[t] != Refused
    ensures states[k].closer != NoSpace
    ensures states[k].subs[t].Admitted? ==> states[k].n.pool.used < states[k].cfg.queueSize
    ensures Draining(states[k].closer) ==> states[k].n.pool.used + states[k].n.permits <= states[k].cfg.queueSize
  {
    RunKeepsInv(states, acts, k);
    var s := states[k];
    if !Released(s.closer) {
      var own :| InvAt(s, own);
      AdmissionAt(s, own, t);
    } else {
      hide LogOf, Flatten, Permutation, PlainPart, RefsOnce;
      assert SubShape(s.cfg, s.n.blocks, s.subs[t]) && AtRest(s.subs[t]);
    }
  }

  lemma AdmissionAt(s: State, own: Owners, t: Tid)
    requires InvAt(s, own) && s.cfg.useSemaphore && t in s.subs
    ensures s.subs[t] != Refused && s.closer != NoSpace
    ensures s.subs[t].Admitted? ==> s.n.pool.used < s.cfg.queueSize
    ensures Draining(s.closer) ==> s.n.pool.used + s.n.permits <= s.cfg.queueSize
  {
    hide Placed, Backed, DataPart, RefPart, OncePart, QueuePart, PlainPart, PollerPart, BatchPart, LogPart, PoolInv,
      Queue, RingInv;
    assert SubShape(s.cfg, s.n.blocks, s.subs[t]);
    if s.subs[t].Admitted? {
      assert t in Admitteds(s.subs);
      assert Admissions(s.subs) > 0;
    }
  }

  /** With or without the semaphore: "Not enough space in libaio queue" is said
      exactly when every block of the pool is out, and then the call changed
      nothing. */
  lemma RefusalMeansFull(states: seq<State>, acts: seq<Action>, k: nat, t: Tid)
    requires IsRun(states, acts) && k < |acts| && acts[k] == Sub(t, Obtain)
    ensures |states| == |acts| + 1 && t in states[k].subs && t in states[k + 1].subs
    ensures states[k].n.pool.used <= states[k].cfg.queueSize
    ensures states[k + 1].subs[t] == Refused <==> states[k].n.pool.used == states[k].cfg.queueSize
    ensures states[k + 1].subs[t] == Refused ==>
      states[k + 1] == states[k].(subs := states[k].subs[t := Refused])
  {
    hide IsRun, Inv, Ready, Safe, Apply;
    StepOf(states, acts, k);
    FullPool(states[k], t);
  }

  lemma FullPool(s: State, t: Tid)
    requires Inv(s) && Ready(s, Sub(t, Obtain)) && Safe(s, Sub(t, Obtain))
    ensures var s' := Apply(s, Sub(t, Obtain));
      && t in s.subs && t in s'.subs
      && s.n.pool.used <= s.cfg.queueSize
      && (s'.subs[t] == Refused <==> s.n.pool.used == s.cfg.queueSize)
      && (s'.subs[t] == Refused ==> s' == s.(subs := s.subs[t := Refused]))
  {
    PoolSize(s, t);
    hide Inv;
  }

  lemma PoolSize(s: State, t: Tid)
    requires Inv(s) && t in s.subs && s.subs[t].Admitted?
    ensures s.n.pool.used <= s.cfg.queueSize == |s.n.pool.slots|
  {
    AdmittedMeansOpen(s, t);
    hide FinalInv;
    var own :| InvAt(s, own);
    hide Inv, Placed, Backed, ShapePart, DataPart, RefPart, OncePart, QueuePart, PlainPart, PermitPart, BatchPart,
      LogPart, PollerPart, DrainPart, ClosePart, Queue, RingInv, Window;
  }

  lemma AdmittedMeansOpen(s: State, t: Tid)
    requires Inv(s) && t in s.subs && s.subs[t].Admitted?
    ensures !Released(s.closer)
  {
    hide InvAt, ShapePart, Permutation, RefsOnce, LogOf, PlainPart, Flatten;
  }

  /** `tryAcquire(queueSize)` can succeed exactly when no thread is between its
      permit and its block, every block is back, every permit of a returned
      block is released, and no submission was ever refused by the kernel: a
      refused one returns its block but never its permit. */
  lemma DrainCondition(states: seq<State>, acts: seq<Action>, k: nat)
    requires IsRun(states, acts) && k <= |acts| && states[k].cfg.useSemaphore && states[k].closer == Closing
    ensures Ready(states[k], Close(Drain)) <==>
      && Admitteds(states[k].subs) == {}
      && states[k].n.pool.used == 0
      && PendingRelease(states[k].cfg, states[k].poller) == 0
      && states[k].failed == 0
  {
    RunKeepsInv(states, acts, k);
    hide IsRun;
    DrainConditionAt(states[k]);
  }

  lemma DrainConditionAt(s: State)
    requires Inv(s) && s.cfg.useSemaphore && s.closer == Closing
    ensures CloseReady(s, Drain) <==>
      && Admitteds(s.subs) == {}
      && s.n.pool.used == 0
      && PendingRelease(s.cfg, s.poller) == 0
      && s.failed == 0
  {
    var own :| InvAt(s, own);
    hide Placed, Backed, ShapePart, DataPart, RefPart, OncePart, QueuePart, PlainPart, PollerPart, BatchPart, LogPart,
      ClosePart, DrainPart, Queue, RingInv, PendingRelease, Inv;
  }

  // ----- Ring and buffer bounds -----

  /** Completions not reaped yet plus operations in the kernel never exceed the
      blocks in use, hence never `queueSize`, and the ring is larger. */
  lemma RingNeverFills(states: seq<State>, acts: seq<Action>, k: nat)
    requires IsRun(states, acts) && k <= |acts| && !Released(states[k].closer)
    ensures RingInv(states[k].ring)
    ensures var s := states[k];
      |Queue(s.ring)| + |s.inflight| <= s.n.pool.used <= s.cfg.queueSize < |s.ring.slots|
  {
    RunKeepsInv(states, acts, k);
    var s := states[k];
    var own :| InvAt(s, own);
    InUse(s, own);
  }

  lemma InUse(s: State, own: Owners)
    requires InvAt(s, own)
    ensures |Queue(s.ring)| + |s.inflight| <= s.n.pool.used <= s.cfg.queueSize < |s.ring.slots|
  {
    hide Backed, ShapePart, DataPart, RefPart, OncePart, QueuePart, PlainPart, PollerPart, BatchPart, LogPart,
      PermitPart, DrainPart, Queue, RingInv, Listed;
    UnreapedBound(own, Queue(s.ring), s.inflight);
  }

  lemma UnreapedBound(own: Owners, queue: seq<Event>, inflight: set<Iocb>)
    requires Listed(own, queue, InRing) && forall i :: i in inflight ==> i in own && own[i] == InKernel
    ensures |queue| + |inflight| <= |own.Keys|
  {
    var objs := Objs(queue);
    assert NoDup(objs);
    NoDupCard(objs);
    assert forall i :: i in Elements(objs) ==> i in own && own[i] == InRing;
    SubsetCard(Elements(objs) + inflight, own.Keys);
    assert |Elements(objs) + inflight| == |Elements(objs)| + |inflight|;
  }

  // ----- Ordered, exactly-once completion -----

  lemma StageLogPrefix(cfg: Config, cs: seq<Completion>, i: nat, stage: Stage)
    requires i < |cs| && stage != Top && StageData(stage, cs[i])
    ensures StageLog(cfg, cs, i, stage) <= EventLog(cfg, Prev(cfg, cs, i), i, cs[i])
  {
    hide SyncPart, ErrorPart, FinishPart;
  }

  lemma {:induction false} LogPrefixMonotone(cfg: Config, cs: seq<Completion>, i: nat, j: nat)
    requires i <= j <= |cs|
    ensures LogPrefix(cfg, cs, i) <= LogPrefix(cfg, cs, j)
  {
    hide LogPrefix, EventLog, Prev;
    if i < j {
      LogPrefixMonotone(cfg, cs, i, j - 1);
      NextPrefix(cfg, cs, j - 1);
    }
  }

  /** What is written of a batch is the beginning of its log. */
  lemma PartIsPrefix(cfg: Config, cs: seq<Completion>, i: nat, stage: Stage)
    requires i <= |cs| && (stage != Top ==> i < |cs| && StageData(stage, cs[i]))
    ensures LogPrefix(cfg, cs, i) + StageLog(cfg, cs, i, stage) <= LogPrefix(cfg, cs, |cs|)
  {
    hide LogPrefix, EventLog, Prev, StageData;
    if stage == Top {
      assert StageLog(cfg, cs, i, stage) == [];
      LogPrefixMonotone(cfg, cs, i, |cs|);
      assert LogPrefix(cfg, cs, i) + [] == LogPrefix(cfg, cs, i);
    } else {
      hide StageLog;
      NextPrefix(cfg, cs, i);
      StageLogPrefix(cfg, cs, i, stage);
      LogPrefixMonotone(cfg, cs, i + 1, |cs|);
      PrefixGrows(LogPrefix(cfg, cs, i), StageLog(cfg, cs, i, stage), EventLog(cfg, Prev(cfg, cs, i), i, cs[i]),
        LogPrefix(cfg, cs, |cs|));
    }
  }

  lemma PrefixGrows(b: seq<Entry>, c: seq<Entry>, e: seq<Entry>, full: seq<Entry>)
    requires c <= e && b + e <= full
    ensures b + c <= full
  {
    assert b + e == (b + c) + e[|c|..];
  }

  /** At any moment the log is the beginning of what the reaped batches require. */
  lemma LogIsPrefix(cfg: Config, blocks: map<Iocb, Block>, p: Poller, batches: seq<seq<Completion>>, log: seq<Entry>)
    requires LogPart(cfg, p, batches, log) && BatchPart(cfg, blocks, p, batches)
    ensures log <= LogOf(cfg, batches)
  {
    hide LogOf, StageLog, LogPrefix, EventLog, StageData, Prev;
    if p.Handling? {
      var init, cs := batches[..|batches| - 1], batches[|batches| - 1];
      assert batches == init + [cs];
      PartIsPrefix(cfg, cs, p.i, p.stage);
      AddBatch(cfg, init, cs);
      hide BatchPart, LogPart;
      PrefixChain(LogOf(cfg, init), LogPrefix(cfg, cs, p.i), StageLog(cfg, cs, p.i, p.stage), LogPrefix(cfg, cs, |cs|));
    }
  }

  lemma PrefixChain(a: seq<Entry>, b: seq<Entry>, c: seq<Entry>, full: seq<Entry>)
    requires b + c <= full
    ensures a + [Reaped] + b + c <= a + ([Reaped] + full)
  {
    assert a + [Reaped] + b + c == a + ([Reaped] + (b + c));
  }

  lemma LogOfState(s: State)
    requires Inv(s)
    ensures s.n.log <= LogOf(s.cfg, s.batches)
    ensures Flatten(s.batches) <= s.completed && RefsOnce(s.completed) && PlainPart(s.batches)
  {
    if !Released(s.closer) {
      var own :| InvAt(s, own);
      hide Placed, Backed, ShapePart, DataPart, RefPart, PlainPart, PollerPart, BatchPart, LogPart, PermitPart,
        DrainPart, PoolPart, Queue, RingInv, LogOf, Flatten, RefsOnce;
      LogIsPrefix(s.cfg, s.n.blocks, s.poller, s.batches, s.n.log);
    } else {
      hide LogOf, Flatten, RefsOnce, PlainPart, Permutation;
    }
  }

  /** The notifications of every run, in any mix of user-space reaps, system
      calls and interrupts, are a prefix of what the completed operations owe,
      in completion order: for each one `onError` exactly when its result is
      negative, then its end, and nobody is notified twice. */
  lemma CompletionsInOrder(states: seq<State>, acts: seq<Action>, k: nat)
    requires IsRun(states, acts) && k <= |acts|
    ensures Notes(states[k].n.log) <= OwedAll(states[k].completed)
    ensures (forall i :: 0 <= i < |states[k].completed| ==> FitsInt(states[k].completed[i])) ==>
      Notes(states[k].n.log) <= PlainOwedAll(states[k].completed)
    ensures states[k].n.log <= LogOf(states[k].cfg, states[k].batches)
    ensures Flatten(states[k].batches) <= states[k].completed
    ensures FinishedOnce(Notes(states[k].n.log))
  {
    RunKeepsInv(states, acts, k);
    var s := states[k];
    LogOfState(s);
    hide Inv, RefsOnce;
    FlatMapPrefix(NoteOf, s.n.log, LogOf(s.cfg, s.batches));
    LogNotes(s.cfg, s.batches);
    FlatMapPrefix(Owed, Flatten(s.batches), s.completed);
    OwedOnce(s.completed);
    if forall i :: 0 <= i < |s.completed| ==> FitsInt(s.completed[i]) {
      OwedIsPlain(s.completed);
    }
  }

  /** With `useFdatasync`, every `done` on a file comes after an fdatasync of
      that file that is later than the reap of its completion. */
  lemma DurableBeforeDone(states: seq<State>, acts: seq<Action>, k: nat)
    requires IsRun(states, acts) && k <= |acts| && states[k].cfg.blocking && states[k].cfg.useFdatasync
    ensures DoneIsDurable(states[k].n.log, states[k].completed)
  {
    RunKeepsInv(states, acts, k);
    var s := states[k];
    LogOfState(s);
    hide Inv, RefsOnce, PlainBatch, LogOf, Flatten;
    LogDurable(s.cfg, s.batches);
    DurablePrefix(s.n.log, LogOf(s.cfg, s.batches), Flatten(s.batches));
    var rest := s.completed[|Flatten(s.batches)|..];
    assert s.completed == Flatten(s.batches) + rest;
    forall j | 0 <= j < |s.n.log| && s.n.log[j].Done? ensures DurableAt(s.n.log, s.completed, j) {
      assert DurableAt(s.n.log, Flatten(s.batches), j);
      DurableMore(s.n.log, Flatten(s.batches), rest, j);
    }
  }

  // ----- Where blocks and references are -----

  /** Block `i` carries a submission: it is armed by its thread, in the kernel,
      unreaped, or reaped and not delivered. */
  ghost predicate InTransit(s: State, i: Iocb)
    requires RingInv(s.ring)
  {
    || (exists t :: t in s.subs && SubHeld(s.subs[t]) == Some(Held(i, true)))
    || i in s.inflight
    || HasBlock(Queue(s.ring), i)
    || HasBlock(Unclaimed(s.poller), i)
    || CloserHeld(s.closer) == Some(Held(i, true))
  }

  ghost predicate TransitRef(s: State, i: Iocb, r: Ref)
    requires RingInv(s.ring)
  {
    i in s.n.blocks && InTransit(s, i) && s.n.blocks[i].data == Callback(r)
  }

  lemma TransitIsCarrying(s: State, own: Owners, i: Iocb)
    requires InvAt(s, own)
    ensures InTransit(s, i) <==> i in own && Carrying(own[i])
  {
    hide ShapePart, DataPart, RefPart, OncePart, QueuePart, PlainPart, PollerPart, BatchPart, LogPart, PermitPart,
      DrainPart, ClosePart, PoolPart, Queue, RingInv, Unclaimed, Claimed;
    if InTransit(s, i) {
      if t :| t in s.subs && SubHeld(s.subs[t]) == Some(Held(i, true)) {
        assert SubPlaced(own, t, s.subs[t]);
      }
    }
    if i in own {
      assert BackedAt(i, own[i], s.subs, s.inflight, Queue(s.ring), Unclaimed(s.poller), Claimed(s.poller),
        CloserHeld(s.closer));
    }
  }

  /** A reference is live exactly while its submission is in transit or its
      callback is being delivered, and no two submissions share one. */
  lemma LiveReferences(states: seq<State>, acts: seq<Action>, k: nat, r: Ref)
    requires IsRun(states, acts) && k <= |acts| && !Released(states[k].closer)
    ensures RingInv(states[k].ring)
    ensures r in states[k].n.live <==>
      PollerRef(states[k].poller) == Some(r) || exists i :: TransitRef(states[k], i, r)
    ensures forall i, j :: TransitRef(states[k], i, r) && TransitRef(states[k], j, r) ==> i == j
  {
    RunKeepsInv(states, acts, k);
    var s := states[k];
    var own :| InvAt(s, own);
    hide Placed, Backed, ShapePart, DataPart, OncePart, QueuePart, PlainPart, PollerPart, BatchPart, LogPart,
      PermitPart, DrainPart, ClosePart, PoolPart, Queue, RingInv, Unclaimed, Claimed;
    forall i ensures CarriesRef(s.n.blocks, own, i, r) <==> TransitRef(s, i, r) {
      TransitIsCarrying(s, own, i);
    }
    hide InTransit;
  }

  /** When nothing is in transit and nothing is being delivered, no reference leaks. */
  lemma NoLeakAtRest(states: seq<State>, acts: seq<Action>, k: nat)
    requires IsRun(states, acts) && k <= |acts| && !Released(states[k].closer) && RingInv(states[k].ring)
    requires forall i :: !InTransit(states[k], i)
    requires PollerRef(states[k].poller) == None
    ensures states[k].n.live == {}
  {
    forall r ensures r !in states[k].n.live {
      LiveReferences(states, acts, k, r);
    }
  }

  /** Somebody holds block `i` outside the pool. */
  ghost predicate Outstanding(s: State, i: Iocb)
    requires RingInv(s.ring)
  {
    || InTransit(s, i)
    || (exists t :: t in s.subs && SubHeld(s.subs[t]) == Some(Held(i, false)))
    || Claimed(s.poller) == Some(i)
    || CloserHeld(s.closer) == Some(Held(i, false))
  }

  /** The actor at `place` holds block `i`. */
  ghost predicate HeldAt(s: State, i: Iocb, place: Place)
    requires RingInv(s.ring)
  {
    BackedAt(i, place, s.subs, s.inflight, Queue(s.ring), Unclaimed(s.poller), Claimed(s.poller), CloserHeld(s.closer))
  }

  /** Block `i` is listed at most once. */
  ghost predicate ListedOnce(q: seq<Event>, i: Iocb) {
    forall j, k :: 0 <= j < |q| && 0 <= k < |q| && q[j].obj == i && q[k].obj == i ==> j == k
  }

  /** Every block is free or held, never both, and held by one actor only: none
      is lost and none is handed out while somebody still uses it. */
  lemma BlocksConserved(states: seq<State>, acts: seq<Action>, k: nat, i: Iocb)
    requires IsRun(states, acts) && k <= |acts| && !Released(states[k].closer)
    ensures RingInv(states[k].ring) && Indexed(states[k].n.pool) &&
      0 <= states[k].n.pool.used <= states[k].cfg.queueSize == |states[k].n.pool.slots|
    ensures var s := states[k];
      && (i in s.n.blocks <==> i in Free(s.n.pool) || Outstanding(s, i))
      && !(i in Free(s.n.pool) && Outstanding(s, i))
      && (Outstanding(s, i) <==> exists place :: HeldAt(s, i, place))
      && (forall p, q :: HeldAt(s, i, p) && HeldAt(s, i, q) ==> p == q)
      && ListedOnce(Queue(s.ring), i) && ListedOnce(Unclaimed(s.poller), i)
  {
    RunKeepsInv(states, acts, k);
    var s := states[k];
    var own :| InvAt(s, own);
    OutstandingIsOwned(s, own, i);
    HeldByOwner(s, own, i);
    hide Placed, Backed, ShapePart, DataPart, RefPart, OncePart, QueuePart, PlainPart, PollerPart, BatchPart, LogPart,
      PermitPart, DrainPart, ClosePart, Queue, RingInv, Outstanding, Free;
    hide HeldAt, ListedOnce;
    if i in own {
      assert HeldAt(s, i, own[i]);
    }
  }

  /** The holder of a block is the one recorded for it, and no other. */
  lemma HeldByOwner(s: State, own: Owners, i: Iocb)
    requires InvAt(s, own)
    ensures forall p :: HeldAt(s, i, p) <==> i in own && own[i] == p
    ensures ListedOnce(Queue(s.ring), i) && ListedOnce(Unclaimed(s.poller), i)
  {
    hide ShapePart, DataPart, RefPart, OncePart, QueuePart, PlainPart, PollerPart, BatchPart, LogPart, PermitPart,
      DrainPart,
      ClosePart, PoolPart, Queue, RingInv, Unclaimed, Claimed;
    forall p | HeldAt(s, i, p) ensures i in own && own[i] == p {
      assert p.WithSub? ==> SubPlaced(own, p.t, s.subs[p.t]);
    }
    if i in own {
      assert HeldAt(s, i, own[i]);
    }
  }

  lemma OutstandingIsOwned(s: State, own: Owners, i: Iocb)
    requires InvAt(s, own)
    ensures Outstanding(s, i) <==> i in own
  {
    TransitIsCarrying(s, own, i);
    hide ShapePart, DataPart, RefPart, OncePart, QueuePart, PlainPart, PollerPart, BatchPart, LogPart, PermitPart,
      DrainPart, ClosePart, PoolPart, Queue, RingInv, Unclaimed, Claimed, InTransit;
    if t :| t in s.subs && SubHeld(s.subs[t]) == Some(Held(i, false)) {
      assert SubPlaced(own, t, s.subs[t]);
    }
    if i in own {
      assert BackedAt(i, own[i], s.subs, s.inflight, Queue(s.ring), Unclaimed(s.poller), Claimed(s.poller),
        CloserHeld(s.closer));
    }
  }

  // ----- The drained close -----

  /** Past the drain the log is complete for every reaped batch. */
  lemma LogCompleteAfterDrain(s: State, own: Owners)
    requires InvAt(s, own) && !Draining(s.closer)
    ensures s.n.log == LogOf(s.cfg, s.batches)
  {
    hide Placed, Backed, ShapePart, DataPart, RefPart, OncePart, QueuePart, PlainPart, PollerPart, PermitPart,
      PoolPart, Queue, RingInv, LogOf, LogPart, EventLog, Permutation, Prev;
    var p := s.poller;
    if p.Handling? && p.stage.Top? && p.i < |p.evts| {
      LoneEvent(s, own);
      SentinelLog(s.cfg, p, s.batches, s.n.log);
    } else {
      LogBetweenEvents(s, own);
    }
  }

  /** With no event left in the batch the log is complete. */
  lemma LogBetweenEvents(s: State, own: Owners)
    requires InvAt(s, own)
    requires s.poller.Handling? ==>
      LoneSentinel(s.poller) && s.poller.i + (if s.poller.stage.Top? then 0 else 1) == |s.poller.evts|
    ensures s.n.log == LogOf(s.cfg, s.batches)
  {
    hide Placed, Backed, ShapePart, DataPart, RefPart, OncePart, QueuePart, PlainPart, PollerPart, PermitPart,
      PoolPart, DrainPart, ClosePart, Queue, RingInv, LogOf, LogPart, EventLog, Prev;
    var p := s.poller;
    if !p.Handling? {
      BetweenBatches(s, own);
    } else if p.stage.Unref? {
      LogNext(s.cfg, p, p.(i := p.i + 1, stage := Top), s.batches, s.n.log);
      LogEnds(s.cfg, p.(i := p.i + 1, stage := Top), s.batches, s.n.log);
    } else {
      LogEnds(s.cfg, p, s.batches, s.n.log);
    }
  }

  /** At the drain itself everything completed has been reaped and logged. */
  lemma DrainedIsLogged(s: State)
    requires Inv(s) && s.closer == Drained
    ensures s.n.log == LogOf(s.cfg, s.batches) && s.completed == Flatten(s.batches)
  {
    var own :| InvAt(s, own);
    hide Inv, InvAt, FinalInv, LogOf, Flatten, Queue;
    DrainedIsQuiet(s, own);
    LogBetweenEvents(s, own);
    QueueTail(s, own);
    assert Flatten(s.batches) + [] == Flatten(s.batches);
  }

  lemma {:induction false} SentinelsOweNothing(cs: seq<Completion>)
    requires AllSentinel(cs)
    ensures OwedAll(cs) == []
  {
    if cs != [] {
      SentinelsOweNothing(cs[..|cs| - 1]);
      assert cs == cs[..|cs| - 1] + [cs[|cs| - 1]];
      FlatMapSnoc(Owed, cs[..|cs| - 1], cs[|cs| - 1]);
    }
  }

  /** What is still in the ring after the drain is only the sentinel. */
  lemma DrainedTail(s: State)
    requires Inv(s) && (s.closer == Drained || !Draining(s.closer))
    ensures s.n.log == LogOf(s.cfg, s.batches)
    ensures exists rest :: s.completed == Flatten(s.batches) + rest && AllSentinel(rest)
  {
    if s.closer == Drained {
      DrainedIsLogged(s);
      assert s.completed == Flatten(s.batches) + [] && AllSentinel([]);
    } else if !Released(s.closer) {
      var own :| InvAt(s, own);
      LogCompleteAfterDrain(s, own);
      QueueTail(s, own);
      var rest := DescribeAll(s.n.blocks, Queue(s.ring));
      assert AllSentinel(rest) by { DrainedQueue(s, own); }
      hide InvAt, LogOf, Flatten, DescribeAll, AllSentinel;
      assert s.completed == Flatten(s.batches) + rest && AllSentinel(rest);
    }
  }

  lemma DrainedQueue(s: State, own: Owners)
    requires InvAt(s, own) && !Draining(s.closer) && InBlocks(s.n.blocks, Queue(s.ring))
    ensures AllSentinel(DescribeAll(s.n.blocks, Queue(s.ring)))
  {
    hide Backed, ShapePart, RefPart, OncePart, QueuePart, PlainPart, PollerPart, PermitPart, BatchPart, LogPart,
      PoolInv, Queue, RingInv, Permutation;
    forall k | 0 <= k < |Queue(s.ring)| ensures s.n.blocks[Queue(s.ring)[k].obj].data == Sentinel {
      var i := Queue(s.ring)[k].obj;
      assert i in own && Carrying(own[i]);
      assert DataFits(s.cfg, s.n.blocks[i], SentinelOf(s.closer) == Some(i));
    }
  }

  /** A successful drain finds every block back: nothing is in the kernel, in
      the ring or in the poller's hands when the sentinel write is prepared. */
  lemma DrainMeansEmpty(states: seq<State>, acts: seq<Action>, k: nat)
    requires IsRun(states, acts) && k <= |acts| && states[k].closer == Drained
    ensures var s := states[k];
      && s.n.pool.used == 0 && s.n.permits == 0 && s.failed == 0
      && s.inflight == {} && RingInv(s.ring) && Queue(s.ring) == []
      && (forall i :: !Outstanding(s, i))
      && (forall t :: t in s.subs ==> AtRest(s.subs[t]))
  {
    RunKeepsInv(states, acts, k);
    var s := states[k];
    var own :| InvAt(s, own);
    DrainedIsQuiet(s, own);
    forall i ensures !Outstanding(s, i) {
      OutstandingIsOwned(s, own, i);
    }
    hide Placed, Backed, ShapePart, DataPart, RefPart, OncePart, QueuePart, PlainPart, PollerPart, PermitPart,
      BatchPart, LogPart, PoolInv, Queue, Outstanding, AtRest;
  }

  /** From the moment the sentinel's block is taken to the end of the run:
      every completion of a submission has been delivered in full, whatever the
      poller was doing when the last permit came back; nothing but the sentinel
      is outstanding; no thread is inside a submission; and a batch that holds
      the sentinel holds nothing else, so leaving the loop early drops nothing. */
  lemma DrainedCloseLosesNothing(states: seq<State>, acts: seq<Action>, k: nat)
    requires IsRun(states, acts) && k <= |acts| && (states[k].closer == Drained || !Draining(states[k].closer))
    ensures var s := states[k];
      && Notes(s.n.log) == OwedAll(s.completed)
      && (forall t :: t in s.subs ==> AtRest(s.subs[t]))
      && (forall b :: 0 <= b < |s.batches| ==> PlainBatch(s.batches[b]))
      && (!Released(s.closer) ==> RingInv(s.ring) && forall i: Iocb :: Outstanding(s, i) ==>
        SentinelOf(s.closer) == Some(i))
  {
    RunKeepsInv(states, acts, k);
    var s := states[k];
    DrainedTail(s);
    LogNotes(s.cfg, s.batches);
    var rest :| s.completed == Flatten(s.batches) + rest && AllSentinel(rest);
    SentinelsOweNothing(rest);
    FlatMapConcat(Owed, Flatten(s.batches), rest);
    assert OwedAll(s.completed) == OwedAll(Flatten(s.batches)) + [];
    DrainedOthers(s);
  }

  lemma DrainedOthers(s: State)
    requires Inv(s) && (s.closer == Drained || !Draining(s.closer))
    ensures forall t :: t in s.subs ==> AtRest(s.subs[t])
    ensures PlainPart(s.batches)
    ensures !Released(s.closer) ==> RingInv(s.ring) && forall i: Iocb :: Outstanding(s, i) ==>
      SentinelOf(s.closer) == Some(i)
  {
    if s.closer == Drained {
      var own :| InvAt(s, own);
      DrainedIsQuiet(s, own);
      forall i ensures !Outstanding(s, i) {
        OutstandingIsOwned(s, own, i);
      }
      hide Placed, Backed, ShapePart, DataPart, RefPart, OncePart, QueuePart, PollerPart, PermitPart, BatchPart,
        LogPart,
        PoolInv, Queue, Outstanding, Permutation, AtRest, PlainPart;
    } else if !Released(s.closer) {
      var own :| InvAt(s, own);
      forall i | Outstanding(s, i) ensures i in own {
        OutstandingIsOwned(s, own, i);
      }
      hide Placed, Backed, ShapePart, DataPart, RefPart, OncePart, QueuePart, PlainPart, PollerPart, PermitPart,
        BatchPart, LogPart, PoolInv, Queue, Outstanding, Permutation, RingInv;
    } else {
      hide PlainPart, LogOf, Flatten, Permutation, ShapePart;
    }
  }

  // ----- Destruction -----

  lemma SubmitterFrame(s: State, t: Tid, a: SubAction)
    requires SubReady(s, t, a) && SubSafe(s, t, a)
    ensures var s' := SubApply(s, t, a);
      s'.cfg == s.cfg && s'.ring == s.ring && s'.poller == s.poller && s'.n.blocks.Keys == s.n.blocks.Keys &&
        s'.n.forceSysCall == s.n.forceSysCall
  {
    hide Get, Put;
  }

  lemma CloserFrame(s: State, a: CloseAction)
    requires CloseReady(s, a) && CloseSafe(s, a)
    ensures var s' := CloseApply(s, a);
      s'.cfg == s.cfg && s'.poller == s.poller && s'.n.blocks.Keys == s.n.blocks.Keys &&
        s'.n.forceSysCall == s.n.forceSysCall
      && (!a.Sweep? ==> s'.ring == s.ring)
  {
    hide Get, Put, Queue, RingInv;
  }

  lemma PollerFrame(s: State, a: PollAction)
    requires PollReady(s, a) && PollSafe(s, a)
    ensures PollApply(s, a).cfg == s.cfg && PollApply(s, a).n.blocks.Keys == s.n.blocks.Keys
    ensures a.EventStep? || PollApply(s, a).n.forceSysCall == s.n.forceSysCall
    ensures a.Publish? || a.KernelReap? || PollApply(s, a).ring == s.ring
  {
    hide Queue, RingInv, Available, NeedMod, NextHead, HandleStep;
    if a.EventStep? { EventFrame(s); }
  }

  lemma EventFrame(s: State)
    requires PollReady(s, EventStep) && PollSafe(s, EventStep)
    ensures HandleStep(s).cfg == s.cfg && HandleStep(s).n.blocks.Keys == s.n.blocks.Keys && HandleStep(s).ring == s.ring
    ensures s.poller.stage != Claim ==> HandleStep(s).n.forceSysCall == s.n.forceSysCall
  {
    hide Put, I32, Queue, RingInv;
    var p := s.poller;
    if p.stage != Top {
      assert p.evts[p.i].obj in s.n.blocks;
    }
    hide InBlocks;
  }

  lemma StepKeepsBlocks(s: State, a: Action)
    requires Ready(s, a) && Safe(s, a)
    ensures Apply(s, a).n.blocks.Keys == s.n.blocks.Keys && Apply(s, a).cfg == s.cfg
  {
    hide SubApply, PollApply, CloseApply, SubReady, PollReady, CloseReady, SubSafe, PollSafe, CloseSafe, Queue, RingInv;
    match a
    case Sub(t, sub) => SubmitterFrame(s, t, sub);
    case Poll(poll) => PollerFrame(s, poll);
    case Close(close) => CloserFrame(s, close);
    case _ =>
  }

  lemma {:induction false} RunKeepsBlocks(states: seq<State>, acts: seq<Action>, k: nat)
    requires IsRun(states, acts) && k <= |acts|
    ensures states[k].n.blocks.Keys == Elements(states[0].n.pool.slots) && states[k].cfg == states[0].cfg
  {
    if k > 0 {
      RunKeepsBlocks(states, acts, k - 1);
      assert StepAt(states, acts, k - 1);
      hide Ready, Safe, Apply, Init;
      StepKeepsBlocks(states[k - 1], acts[k - 1]);
    }
  }

  /** Every run that reaches `iocb_destroy` frees each block that `newContext`
      allocated exactly once, whether the poller, the closer or nobody reaped
      the sentinel; no thread can take another step on the freed context, and
      no reference is left. */
  lemma ExactlyOnceDestruction(states: seq<State>, acts: seq<Action>, k: nat)
    requires IsRun(states, acts) && k <= |acts| && states[k].closer.Destroyed?
    ensures var s := states[k];
      && NoDup(s.closer.freed)
      && Elements(s.closer.freed) == Elements(states[0].n.pool.slots)
      && s.n.live == {}
      && (forall a :: Ready(s, a) ==> a.SetForce?)
  {
    RunKeepsInv(states, acts, k);
    RunKeepsBlocks(states, acts, k);
    var s := states[k];
    forall a | Ready(s, a) ensures a.SetForce? {
      FinalActions(s, a);
    }
    hide Ready, LogOf, Flatten, RefsOnce, PlainPart, ShapePart;
  }

  // ----- The user-space path over whole runs -----

  /** What the copying phase of the poller knows about the moment it read `tail`. */
  ghost predicate SnapshotHolds(then_: State, now: State)
    requires RingInv(then_.ring)
  {
    && RingInv(now.ring)
    && now.poller.Copying?
    && now.poller.available == |Queue(then_.ring)|
    && Queue(then_.ring) <= Queue(now.ring)
  }

  lemma SnapshotStep(then_: State, s: State, a: Action)
    requires Inv(s) && Ready(s, a) && Safe(s, a) && RingInv(then_.ring) && SnapshotHolds(then_, s)
    requires Apply(s, a).poller.Copying?
    ensures SnapshotHolds(then_, Apply(s, a))
  {
    hide Inv, SubApply, CloseApply, SubReady, CloseReady, SubSafe, CloseSafe, Queue, RingInv, NextHead, HandleStep,
      AfterTail;
    match a
    case Sub(t, sub) => SubmitterFrame(s, t, sub);
    case Complete(i, res) => AppendKeeps(s.ring, Event(i, res));
    case Poll(poll) =>
    case Close(close) =>
      CloserFrame(s, close);
      NoSweepWhileCopying(s, close);
    case SetForce(_) =>
  }

  lemma NoSweepWhileCopying(s: State, a: CloseAction)
    requires Inv(s) && s.poller.Copying? && CloseReady(s, a)
    ensures !a.Sweep?
  {
    hide LogOf, Flatten, Permutation, PlainPart, RefsOnce, ShapePart, Queue, RingInv, PoolPart, Placed, Backed,
      DataPart, RefPart, OncePart, QueuePart, PollerPart, BatchPart, LogPart, PermitPart, DrainPart;
  }

  /** Reading `tail` takes the snapshot. */
  lemma SnapshotTaken(s: State)
    requires Inv(s) && Ready(s, Poll(ReadTail)) && Safe(s, Poll(ReadTail)) && Apply(s, Poll(ReadTail)).poller.Copying?
    ensures RingInv(s.ring) && SnapshotHolds(s, Apply(s, Poll(ReadTail)))
  {
    HeadIsRead(s);
    TailEffect(s);
    hide Inv, Ready, Safe, Apply;
    AvailableAt(s.ring.head, s.ring.tail, |s.ring.slots|);
    hide Available;
  }

  lemma TailEffect(s: State)
    requires Ready(s, Poll(ReadTail)) && Safe(s, Poll(ReadTail)) && Apply(s, Poll(ReadTail)).poller.Copying?
    ensures s.poller.GotHead?
    ensures var s' := Apply(s, Poll(ReadTail));
      s'.ring == s.ring && s'.poller.available == Available(s.poller.head, s.ring.tail, |s.ring.slots|)
  {
    hide Available, NeedMod, DescribeAll;
  }

  lemma HeadIsRead(s: State)
    requires Inv(s) && s.poller.GotHead?
    ensures RingInv(s.ring) && s.poller.head == s.ring.head
  {
    assert !Released(s.closer);
    var own :| InvAt(s, own);
    hide Inv, FinalInv, Placed, Backed, ShapePart, DataPart, RefPart, OncePart, QueuePart, PlainPart, PermitPart,
      BatchPart, LogPart, PoolPart, DrainPart, ClosePart;
  }

  lemma StepOf(states: seq<State>, acts: seq<Action>, k: nat)
    requires IsRun(states, acts) && k < |acts|
    ensures |states| == |acts| + 1
    ensures Inv(states[k]) && Ready(states[k], acts[k]) && Safe(states[k], acts[k]) &&
      states[k + 1] == Apply(states[k], acts[k])
  {
    hide Inv, Ready, Safe, Apply, Init;
    RunKeepsInv(states, acts, k);
    assert StepAt(states, acts, k);
  }

  lemma {:induction false} SnapshotKept(states: seq<State>, acts: seq<Action>, j: nat, m: nat)
    requires IsRun(states, acts) && j < m <= |acts| && acts[j] == Poll(ReadTail)
    requires forall i :: j < i <= m ==> states[i].poller.Copying?
    ensures RingInv(states[j].ring) && SnapshotHolds(states[j], states[m])
  {
    hide Inv, SnapshotHolds, RingInv, Ready, Safe, Apply, Init, StepAt;
    StepOf(states, acts, m - 1);
    if m == j + 1 {
      SnapshotTaken(states[j]);
    } else {
      SnapshotKept(states, acts, j, m - 1);
      SnapshotStep(states[j], states[m - 1], acts[m - 1]);
    }
  }

  /** A reap served in user space, however the kernel's appends and the other
      threads' steps fall between its reads, copies and publication, returns
      exactly what the ring held when it read `tail`; what was appended since
      stays in the ring, in order. */
  lemma UserSpaceReapIsAtomic(states: seq<State>, acts: seq<Action>, j: nat, k: nat)
    requires IsRun(states, acts) && j < k < |acts| && acts[j] == Poll(ReadTail) && acts[k] == Poll(Publish)
    requires forall i :: j < i <= k ==> states[i].poller.Copying?
    ensures RingInv(states[j].ring) && RingInv(states[k].ring) && RingInv(states[k + 1].ring)
    ensures states[k + 1].poller == Handling(Queue(states[j].ring), 0, -1, Top)
    ensures Queue(states[k].ring) == Queue(states[j].ring) + Queue(states[k + 1].ring)
  {
    SnapshotKept(states, acts, j, k);
    assert StepAt(states, acts, k);
    RunKeepsInv(states, acts, k);
    PublishedBatch(states[j], states[k]);
  }

  lemma PublishedBatch(then_: State, s: State)
    requires Inv(s) && RingInv(then_.ring) && SnapshotHolds(then_, s) && Ready(s, Poll(Publish)) &&
      Safe(s, Poll(Publish))
    ensures var s' := Apply(s, Poll(Publish));
      && RingInv(s'.ring) && s'.poller == Handling(Queue(then_.ring), 0, -1, Top)
      && Queue(s.ring) == Queue(then_.ring) + Queue(s'.ring)
  {
    CopiedPrefix(s);
    PublishEffect(s);
    hide Inv, Queue, Ready, Safe, Apply, RingInv;
    PublishKeeps(s.ring, |s.poller.copied|);
    SplitAtPrefix(Queue(then_.ring), Queue(s.ring));
  }

  lemma PublishEffect(s: State)
    requires Ready(s, Poll(Publish)) && Safe(s, Poll(Publish))
    ensures var s' := Apply(s, Poll(Publish));
      && |s.poller.copied| >= s.poller.available
      && s'.ring == s.ring.(head := s.poller.head) && s'.poller == Handling(s.poller.copied, 0, -1, Top)
  {
    hide DescribeAll, HandleStep;
  }

  lemma SplitAtPrefix(a: seq<Event>, b: seq<Event>)
    requires a <= b
    ensures b[..|a|] == a && b == a + b[|a|..]
  {
  }

  lemma CopiedPrefix(s: State)
    requires Inv(s) && s.poller.Copying?
    ensures RingInv(s.ring) && |s.poller.copied| <= s.poller.available <= |Queue(s.ring)|
    ensures s.poller.copied == Queue(s.ring)[..|s.poller.copied|]
    ensures s.poller.head == Slot(s.ring.head, |s.poller.copied|, |s.ring.slots|)
  {
    hide LogOf, Flatten, Permutation, PlainPart, RefsOnce, ShapePart, Placed, Backed, DataPart, RefPart, OncePart,
      QueuePart, PermitPart, BatchPart, LogPart, PoolPart, DrainPart, ClosePart, Window, NeedMod;
  }

  // ----- The latch -----

  /** While the kernel replays no completion the poller never latches
      `forceSysCall`: only the static switch changes it. */
  lemma OnlyTheSwitchForces(states: seq<State>, acts: seq<Action>, k: nat)
    requires IsRun(states, acts) && k < |acts| && !acts[k].SetForce?
    ensures states[k + 1].n.forceSysCall == states[k].n.forceSysCall
  {
    assert StepAt(states, acts, k);
    RunKeepsInv(states, acts, k);
    NoLatch(states[k], acts[k]);
  }

  lemma NoLatch(s: State, a: Action)
    requires Inv(s) && Ready(s, a) && Safe(s, a) && !a.SetForce?
    ensures Apply(s, a).n.forceSysCall == s.n.forceSysCall
  {
    hide Inv, SubApply, PollApply, CloseApply, SubReady, CloseReady, SubSafe, PollSafe, CloseSafe, Queue, RingInv;
    match a
    case Sub(t, sub) => SubmitterFrame(s, t, sub);
    case Complete(_, _) =>
    case Poll(poll) =>
      PollerFrame(s, poll);
      if poll.EventStep? { ClaimFindsData(s); }
    case Close(close) => CloserFrame(s, close);
  }

  lemma ClaimFindsData(s: State)
    requires Inv(s) && PollReady(s, EventStep) && PollSafe(s, EventStep)
    ensures PollApply(s, EventStep).n.forceSysCall == s.n.forceSysCall
  {
    if s.poller.stage == Claim {
      ClaimHasData(s);
      hide Inv;
      ClaimOfData(s);
      hide HandleStep;
    } else {
      hide Inv;
      EventFrame(s);
      hide HandleStep;
    }
  }

  lemma ClaimOfData(s: State)
    requires PollReady(s, EventStep) && PollSafe(s, EventStep) && s.poller.stage == Claim
    requires s.n.blocks[s.poller.evts[s.poller.i].obj].data.Callback?
    ensures HandleStep(s).n.forceSysCall == s.n.forceSysCall
  {
  }

  lemma ClaimHasData(s: State)
    requires Inv(s) && s.poller.Handling? && s.poller.i < |s.poller.evts| && s.poller.stage == Claim
    ensures s.poller.evts[s.poller.i].obj in s.n.blocks
    ensures s.n.blocks[s.poller.evts[s.poller.i].obj].data.Callback?
  {
    hide InvAt, FinalInv, InBlocks, RingInv, Queue;
    HandlingMeansOpen(s);
    var own :| InvAt(s, own);
    CurrentHasData(s, own);
  }

  lemma HandlingMeansOpen(s: State)
    requires Inv(s) && s.poller.Handling?
    ensures !Released(s.closer)
  {
    hide InvAt, ShapePart, Permutation, RefsOnce, LogOf, PlainPart, Flatten;
  }

  lemma CurrentHasData(s: State, own: Owners)
    requires InvAt(s, own) && s.poller.Handling? && s.poller.i < |s.poller.evts| && s.poller.stage == Claim
    ensures s.poller.evts[s.poller.i].obj in s.n.blocks && s.n.blocks[s.poller.evts[s.poller.i].obj].data.Callback?
  {
    MidEventMeansDraining(s, own);
    NoSentinel(s, own);
    CurrentEvent(s, own);
    hide InvAt;
  }

  /** The poller is reading the ring itself. */
  ghost predicate ReadsRing(p: Poller) {
    p.GotHead? || p.Copying?
  }

  /** From the moment it is set, once the reap under way is done, no reap is
      served from the ring until the switch is turned off. */
  lemma {:induction false} ForcedReapsCallTheKernel(states: seq<State>, acts: seq<Action>, j: nat, k: nat)
    requires IsRun(states, acts) && j <= k <= |acts|
    requires states[j].n.forceSysCall && !ReadsRing(states[j].poller)
    requires forall i :: j <= i < k ==> acts[i] != SetForce(false)
    ensures states[k].n.forceSysCall && !ReadsRing(states[k].poller)
  {
    hide IsRun, Inv, Ready, Safe, Apply, ReadsRing;
    if j < k {
      ForcedReapsCallTheKernel(states, acts, j, k - 1);
      StepOf(states, acts, k - 1);
      StaysForced(states[k - 1], acts[k - 1]);
    }
  }

  lemma StaysForced(s: State, a: Action)
    requires Inv(s) && Ready(s, a) && Safe(s, a) && s.n.forceSysCall && !ReadsRing(s.poller) && a != SetForce(false)
    ensures Apply(s, a).n.forceSysCall && !ReadsRing(Apply(s, a).poller)
  {
    hide Inv, SubApply, CloseApply, SubReady, CloseReady, SubSafe, CloseSafe, Queue, RingInv, HandleStep, DescribeAll,
      InBlocks;
    if !a.SetForce? { NoLatch(s, a); }
    match a
    case Sub(t, sub) => SubmitterFrame(s, t, sub);
    case Complete(_, _) =>
    case Poll(poll) => if poll.EventStep? { EventLeavesRing(s); }
    case Close(close) => CloserFrame(s, close);
    case SetForce(_) =>
  }

  lemma EventLeavesRing(s: State)
    requires PollReady(s, EventStep) && PollSafe(s, EventStep)
    ensures !ReadsRing(HandleStep(s).poller)
  {
    hide Put, I32, Queue, RingInv;
  }
}
