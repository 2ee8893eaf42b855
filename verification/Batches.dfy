/** What handling one reaped batch amounts to, and how replayed completions are
    absorbed. */
module Batches {
  import opened Options
  import opened Sequences
  import opened RingArithmetic
  import opened IocbPool
  import opened AioRing
  import opened Lifecycle
  import opened Trace
  import opened Machine

  /** Distinct submissions on real files, each with its callback still attached. */
  ghost predicate Genuine(cfg: Config, blocks: map<Iocb, Block>, evts: seq<Event>) {
    && InBlocks(blocks, evts)
    && (forall j, k :: 0 <= j < k < |evts| ==> evts[j].obj != evts[k].obj)
    && (forall k :: 0 <= k < |evts| ==> blocks[evts[k].obj].fd != cfg.dumbFd && blocks[evts[k].obj].data.Callback?)
  }

  ghost function RefsOf(cs: seq<Completion>): (refs: set<Ref>) {
    set k | 0 <= k < |cs| && cs[k].data.Callback? :: cs[k].data.ref
  }

  lemma RefsOfSnoc(cs: seq<Completion>, i: nat)
    requires i < |cs|
    ensures RefsOf(cs[..i + 1]) == RefsOf(cs[..i]) + (if cs[i].data.Callback? then {cs[i].data.ref} else {})
  {
    var a, b := cs[..i], cs[..i + 1];
    forall r | r in RefsOf(a) ensures r in RefsOf(b) {
      var k :| 0 <= k < |a| && a[k].data.Callback? && a[k].data.ref == r;
      assert b[k] == a[k];
    }
    forall r | r in RefsOf(b) ensures r in RefsOf(a) || (cs[i].data.Callback? && r == cs[i].data.ref) {
      var k :| 0 <= k < |b| && b[k].data.Callback? && b[k].data.ref == r;
      assert k < i ==> a[k] == b[k];
    }
    if cs[i].data.Callback? {
      assert b[i] == cs[i];
    }
  }

  // ----- The blocked poller -----

  /** How far a batch has come: `n` is `start` after the first `i` events. */
  ghost predicate Progress(cfg: Config, start: Native, n: Native, last: int, evts: seq<Event>, i: nat)
    requires InBlocks(start.blocks, evts) && i <= |evts|
  {
    var cs := DescribeAll(start.blocks, evts);
    && Indexed(n.pool)
    && last == Prev(cfg, cs, i)
    && n.log == start.log + LogPrefix(cfg, cs, i)
    && n.pool.used == start.pool.used - i
    && n.permits == start.permits + (if cfg.useSemaphore then i else 0)
    && n.live == start.live - RefsOf(cs[..i])
    && n.forceSysCall == start.forceSysCall
    && n.blocks.Keys == start.blocks.Keys
    && (forall k :: i <= k < |evts| ==> n.blocks[evts[k].obj] == start.blocks[evts[k].obj])
  }

  lemma EventProgress(cfg: Config, start: Native, n: Native, last: int, evts: seq<Event>, i: nat)
    requires cfg.blocking && Genuine(cfg, start.blocks, evts) && i < |evts| && Progress(cfg, start, n, last, evts, i)
    ensures evts[i].obj in n.blocks
    ensures Progress(cfg, start, HandleEvent(cfg, n, last, evts[i]).0, HandleEvent(cfg, n, last, evts[i]).1, evts,
      i + 1)
  {
    hide I32, LogPrefix, RefsOf;
    var cs, e := DescribeAll(start.blocks, evts), evts[i];
    var c := cs[i];
    assert e.obj in start.blocks && c == Describe(start.blocks, e) && n.blocks[e.obj] == start.blocks[e.obj];
    RefsOfSnoc(cs, i);
    EventWrites(cfg, n, last, e, c, i);
    LogPrefixNext(cfg, start.log, cs, i);
  }

  /** One event of a blocked batch writes its `EventLog`. */
  lemma EventWrites(cfg: Config, n: Native, last: int, e: Event, c: Completion, i: nat)
    requires cfg.blocking && Indexed(n.pool) && e.obj in n.blocks && c == Describe(n.blocks, e) && c.data.Callback?
    requires cfg.useFdatasync || last == -1
    ensures var (n', last') := HandleEvent(cfg, n, last, e);
      && n'.log == n.log + EventLog(cfg, if cfg.useFdatasync then last else -1, i, c)
      && last' == (if cfg.useFdatasync then c.fd else -1)
      && n'.pool == Put(n.pool, e.obj)
      && n'.permits == n.permits + (if cfg.useSemaphore then 1 else 0)
      && n'.live == n.live - {c.data.ref}
      && n'.forceSysCall == n.forceSysCall
  {
    hide I32, Put;
    var s, r, f := SyncPart(cfg, last, c.fd), ErrorPart(c), FinishPart(cfg, i, c.data);
    assert n.log + (s + r + f) == ((n.log + s) + r) + f;
    assert n.log + [] == n.log && (n.log + s) + [] == n.log + s;
  }

  lemma LogPrefixNext(cfg: Config, log: seq<Entry>, cs: seq<Completion>, i: nat)
    requires i < |cs|
    ensures log + LogPrefix(cfg, cs, i + 1) == (log + LogPrefix(cfg, cs, i)) + EventLog(cfg, Prev(cfg, cs, i), i, cs[i])
  {
    NextPrefix(cfg, cs, i);
    Assoc(log, LogPrefix(cfg, cs, i), EventLog(cfg, Prev(cfg, cs, i), i, cs[i]));
  }

  /** A batch of genuine completions is handled to the end: it writes exactly
      the log that its completions require, returns one block and releases one
      permit for each, deletes exactly their references, and latches nothing. */
  lemma {:induction false} BlockedBatch(cfg: Config, start: Native, n: Native, last: int, evts: seq<Event>, i: nat)
    requires cfg.blocking && Genuine(cfg, start.blocks, evts) && i <= |evts| && Progress(cfg, start, n, last, evts, i)
    ensures Known(n, evts[i..])
    ensures var (n', running) := HandleBatch(cfg, n, last, evts[i..]);
      running && Progress(cfg, start, n', Prev(cfg, DescribeAll(start.blocks, evts), |evts|), evts, |evts|)
    decreases |evts| - i
  {
    hide LogPrefix, RefsOf;
    if i == |evts| {
      assert evts[i..] == [];
    } else {
      EventProgress(cfg, start, n, last, evts, i);
      var (n1, last1) := HandleEvent(cfg, n, last, evts[i]);
      assert evts[i..][0] == evts[i] && evts[i..][1..] == evts[i + 1..];
      assert Known(n, evts[i..]);
      BatchGoesOn(cfg, n, last, evts[i..]);
      hide Progress, HandleEvent, HandleBatch, Known;
      BlockedBatch(cfg, start, n1, last1, evts, i + 1);
    }
  }

  // ----- The array poll -----

  /** A batch handled by `poll(callbacks, min, max)` writes the log its
      completions require, returns as many blocks as `poll` then releases
      permits, and deletes exactly the references it stored. */
  lemma {:induction false} ArrayBatch(cfg: Config, n: Native, evts: seq<Event>, count: nat)
    requires !cfg.blocking && Known(n, evts) && InBlocks(n.blocks, evts) && count <= |evts|
    requires forall k :: 0 <= k < |evts| ==> !n.blocks[evts[k].obj].data.Sentinel?
    ensures ArrayProgress(cfg, n, PollBatch(n, evts, count), DescribeAll(n.blocks, evts), count)
  {
    var cs := DescribeAll(n.blocks, evts);
    if count == 0 {
      assert n.log + [] == n.log;
      assert RefsOf(cs[..0]) == {};
    } else {
      ArrayBatch(cfg, n, evts, count - 1);
      assert cs[count - 1] == Describe(n.blocks, evts[count - 1]);
      ArrayEventProgress(cfg, n, PollBatch(n, evts, count - 1), evts[count - 1], cs, count - 1);
      hide PollEvent, ArrayProgress;
    }
  }

  ghost predicate ArrayProgress(cfg: Config, n: Native, n': Native, cs: seq<Completion>, count: nat)
    requires count <= |cs|
  {
    && n'.log == n.log + LogPrefix(cfg, cs, count)
    && n'.pool.used == n.pool.used - count
    && n'.permits == n.permits && n'.forceSysCall == n.forceSysCall
    && n'.live == n.live - RefsOf(cs[..count])
  }

  lemma ArrayEventProgress(cfg: Config, start: Native, n: Native, e: Event, cs: seq<Completion>, i: nat)
    requires !cfg.blocking && Indexed(n.pool) && e.obj in n.blocks && i < |cs| && cs[i] == Describe(n.blocks, e) &&
      !cs[i].data.Sentinel?
    requires ArrayProgress(cfg, start, n, cs, i)
    ensures ArrayProgress(cfg, start, PollEvent(n, i, e), cs, i + 1)
  {
    hide RefsOf, I32, LogPrefix, PollEvent, EventLog, Prev;
    RefsOfSnoc(cs, i);
    ArrayWrites(cfg, n, e, cs[i], cs, i);
    LogPrefixNext(cfg, start.log, cs, i);
  }

  lemma ArrayWrites(cfg: Config, n: Native, e: Event, c: Completion, cs: seq<Completion>, i: nat)
    requires !cfg.blocking && Indexed(n.pool) && e.obj in n.blocks && c == Describe(n.blocks, e) && !c.data.Sentinel?
    requires i < |cs|
    ensures var n' := PollEvent(n, i, e);
      && n'.log == n.log + EventLog(cfg, Prev(cfg, cs, i), i, c)
      && n'.pool.used == n.pool.used - 1
      && n'.permits == n.permits && n'.forceSysCall == n.forceSysCall
      && n'.live == n.live - (if c.data.Callback? then {c.data.ref} else {})
  {
    hide I32;
    var s, r, f := SyncPart(cfg, Prev(cfg, cs, i), c.fd), ErrorPart(c), FinishPart(cfg, i, c.data);
    assert s == [];
    assert n.log + (s + r + f) == (n.log + r) + f;
    assert n.log + [] == n.log && (n.log + r) + [] == n.log + r;
  }

  // ----- Replayed completions -----

  /** What happens to the poller's state over time: events, the start of a new
      batch, and blocks that submitters, or the close, take and fill in between. */
  datatype Item = Arrive(e: Event) | NewBatch | Submitted(i: Iocb, fd: int, ref: Ref) | SentinelSent(i: Iocb)

  /** The event is on the dumb file. */
  ghost predicate Stops(cfg: Config, n: Native, item: Item) {
    item.Arrive? && item.e.obj in n.blocks && n.blocks[item.e.obj].fd == cfg.dumbFd
  }

  /** Events point to known blocks; what is filled is the block that the pool
      hands out. */
  ghost predicate LegalItem(cfg: Config, n: Native, item: Item) {
    && Indexed(n.pool)
    && match item
       case Arrive(e) => e.obj in n.blocks
       case NewBatch => true
       case Submitted(i, fd, _) => Get(n.pool).1 == Some(i) && i in n.blocks && fd != cfg.dumbFd
       case SentinelSent(i) => Get(n.pool).1 == Some(i) && i in n.blocks
  }

  ghost function PlayOne(cfg: Config, n: Native, last: int, item: Item): (r: (Native, int))
    requires LegalItem(cfg, n, item)
  {
    match item
    case Arrive(e) => if Stops(cfg, n, item) then (PutStep(n, e.obj), last) else HandleEvent(cfg, n, last, e)
    case NewBatch => (n.(log := n.log + [Reaped]), -1)
    case Submitted(i, fd, ref) =>
      (n.(pool := Get(n.pool).0, blocks := n.blocks[i := Block(fd, Callback(ref))], live := n.live + {ref},
          permits := n.permits - (if cfg.useSemaphore then 1 else 0)), last)
    case SentinelSent(i) =>
      (n.(pool := Get(n.pool).0, blocks := n.blocks[i := Block(cfg.dumbFd, Sentinel)]), last)
  }

  ghost predicate LegalPlay(cfg: Config, n: Native, last: int, items: seq<Item>)
    decreases |items|
  {
    items == [] ||
    (LegalItem(cfg, n, items[0]) &&
     (Stops(cfg, n, items[0]) ||
      var (n1, last1) := PlayOne(cfg, n, last, items[0]);
      LegalPlay(cfg, n1, last1, items[1..])))
  }

  /** The state after the stream, and whether the poller still runs. */
  ghost function Play(cfg: Config, n: Native, last: int, items: seq<Item>): (r: (Native, bool))
    requires LegalPlay(cfg, n, last, items)
    decreases |items|
  {
    if items == [] then (n, true)
    else
      var (n1, last1) := PlayOne(cfg, n, last, items[0]);
      if Stops(cfg, n, items[0]) then (n1, false) else Play(cfg, n1, last1, items[1..])
  }

  /** The stream without its replays: an event is a replay when its block has
      been retired and not filled again since.  Nothing after the sentinel
      reaches the poller. */
  ghost function Erase(cfg: Config, blocks: map<Iocb, Block>, items: seq<Item>): (kept: seq<Item>)
    ensures |kept| <= |items|
    decreases |items|
  {
    if items == [] then []
    else
      match items[0]
      case Arrive(e) =>
        if e.obj !in blocks || blocks[e.obj].fd == cfg.dumbFd then items
        else if blocks[e.obj].data == Null then Erase(cfg, blocks, items[1..])
        else [items[0]] + Erase(cfg, blocks[e.obj := blocks[e.obj].(data := Null)], items[1..])
      case NewBatch => [items[0]] + Erase(cfg, blocks, items[1..])
      case Submitted(i, fd, ref) => [items[0]] + Erase(cfg, blocks[i := Block(fd, Callback(ref))], items[1..])
      case SentinelSent(i) => [items[0]] + Erase(cfg, blocks[i := Block(cfg.dumbFd, Sentinel)], items[1..])
  }

  /** The blocks that still carry data. */
  ghost function PendingBlocks(blocks: map<Iocb, Block>): (s: set<Iocb>) {
    set i | i in blocks && blocks[i].data != Null
  }

  /** The calls of a log other than fdatasync. */
  function CallOf(e: Entry): (calls: seq<Entry>) {
    if e.Fdatasync? then [] else [e]
  }

  function Calls(log: seq<Entry>): (calls: seq<Entry>) {
    FlatMap(CallOf, log)
  }

  ghost predicate SameOutcome(a: Native, b: Native) {
    && a.pool == b.pool && a.blocks == b.blocks && a.permits == b.permits && a.live == b.live
    && Calls(a.log) == Calls(b.log)
  }

  lemma CallsAppend(log: seq<Entry>, e: Entry)
    ensures Calls(log + [e]) == Calls(log) + CallOf(e)
  {
    FlatMapSnoc(CallOf, log, e);
  }

  /** The sequence of log entries of one event other than fdatasync. */
  ghost function EventCalls(cfg: Config, n: Native, e: Event): (calls: seq<Entry>)
    requires e.obj in n.blocks
  {
    match n.blocks[e.obj].data
    case Callback(ref) => (if I32(e.res) < 0 then [OnError(ref, -I32(e.res))] else []) + [Done(ref)]
    case _ => []
  }

  lemma HandleCalls(cfg: Config, n: Native, last: int, e: Event)
    requires Indexed(n.pool) && e.obj in n.blocks
    ensures Calls(HandleEvent(cfg, n, last, e).0.log) == Calls(n.log) + EventCalls(cfg, n, e)
  {
    hide I32, FlatMap;
    var fd, data := n.blocks[e.obj].fd, n.blocks[e.obj].data;
    var n1 := SyncStep(cfg, n, last, e).0;
    CallsAppend(n.log, Fdatasync(fd));
    assert Calls(n1.log) == Calls(n.log);
    if data.Callback? {
      CallsAppend(n1.log, OnError(data.ref, -I32(e.res)));
      var n2 := ReportStep(n1, e);
      CallsAppend(n2.log, Done(data.ref));
      assert Calls(n2.log) == Calls(n.log) + (if I32(e.res) < 0 then [OnError(data.ref, -I32(e.res))] else []);
    }
  }

  lemma SameEvent(cfg: Config, a: Native, lastA: int, b: Native, lastB: int, e: Event)
    requires SameOutcome(a, b) && Indexed(a.pool) && e.obj in a.blocks
    ensures SameOutcome(HandleEvent(cfg, a, lastA, e).0, HandleEvent(cfg, b, lastB, e).0)
  {
    HandleCalls(cfg, a, lastA, e);
    HandleCalls(cfg, b, lastB, e);
    HandleState(cfg, a, lastA, e);
    HandleState(cfg, b, lastB, e);
    hide HandleEvent, Calls, I32, Put;
  }

  /** What one event leaves apart from the log and the latch. */
  lemma HandleState(cfg: Config, n: Native, last: int, e: Event)
    requires Indexed(n.pool) && e.obj in n.blocks
    ensures var n', data := HandleEvent(cfg, n, last, e).0, n.blocks[e.obj].data;
      && n'.pool == (if data == Null then n.pool else Put(n.pool, e.obj))
      && n'.blocks == n.blocks[e.obj := n.blocks[e.obj].(data := Null)]
      && n'.permits == n.permits + (if cfg.useSemaphore && data.Callback? then 1 else 0)
      && n'.live == (if data.Callback? then n.live - {data.ref} else n.live)
  {
    hide I32, Put;
  }

  /** The event neither stops the poller nor finds its data. */
  ghost predicate IsReplay(cfg: Config, n: Native, item: Item) {
    item.Arrive? && item.e.obj in n.blocks && n.blocks[item.e.obj].fd != cfg.dumbFd && n.blocks[item.e.obj].data == Null
  }

  /** Any item but a replay acts alike on both sides. */
  lemma SameStep(cfg: Config, a: Native, lastA: int, b: Native, lastB: int, item: Item)
    requires SameOutcome(a, b) && LegalItem(cfg, a, item)
    ensures LegalItem(cfg, b, item) && (Stops(cfg, a, item) <==> Stops(cfg, b, item))
    ensures SameOutcome(PlayOne(cfg, a, lastA, item).0, PlayOne(cfg, b, lastB, item).0)
  {
    hide FlatMap, I32, Put, Get, HandleEvent;
    match item
    case Arrive(e) =>
      if !Stops(cfg, a, item) {
        SameEvent(cfg, a, lastA, b, lastB, e);
      }
    case NewBatch =>
      CallsAppend(a.log, Reaped);
      CallsAppend(b.log, Reaped);
    case Submitted(_, _, _) =>
    case SentinelSent(_) =>
  }

  /** What an item does to the blocks and to the latch. */
  lemma BlocksAfter(cfg: Config, n: Native, last: int, item: Item)
    requires LegalItem(cfg, n, item) && !Stops(cfg, n, item)
    ensures var n' := PlayOne(cfg, n, last, item).0;
      && n'.blocks == (match item
           case Arrive(e) => n.blocks[e.obj := n.blocks[e.obj].(data := Null)]
           case NewBatch => n.blocks
           case Submitted(i, fd, ref) => n.blocks[i := Block(fd, Callback(ref))]
           case SentinelSent(i) => n.blocks[i := Block(cfg.dumbFd, Sentinel)])
      && n'.forceSysCall == (n.forceSysCall || IsReplay(cfg, n, item))
  {
    hide I32, Put, Get;
  }

  /** A replay changes nothing but the latch and, perhaps, one more fdatasync. */
  lemma ReplayIsAbsorbed(cfg: Config, n: Native, last: int, e: Event)
    requires Indexed(n.pool) && e.obj in n.blocks && e.obj !in PendingBlocks(n.blocks)
    ensures SameOutcome(HandleEvent(cfg, n, last, e).0, n) && HandleEvent(cfg, n, last, e).0.forceSysCall
  {
    HandleCalls(cfg, n, last, e);
    hide FlatMap, I32;
    assert n.blocks[e.obj := n.blocks[e.obj].(data := Null)] == n.blocks;
  }

  /** For any stream of events, batches and submissions, up to the sentinel, the
      poller ends with the pool, blocks, permits, live references and calls of
      the stream with its replays erased, up to fdatasyncs; and `forceSysCall`
      is latched exactly when there was a replay. */
  lemma {:induction false} ReplaysAreAbsorbed(cfg: Config, a: Native, lastA: int, b: Native, lastB: int,
      items: seq<Item>)
    requires LegalPlay(cfg, a, lastA, items) && SameOutcome(a, b)
    ensures LegalPlay(cfg, b, lastB, Erase(cfg, a.blocks, items))
    ensures Absorbed(cfg, a, lastA, b, lastB, items, Erase(cfg, a.blocks, items))
    decreases |items|
  {
    if items == [] {
      hide SameOutcome;
    } else if Stops(cfg, a, items[0]) {
      SameStep(cfg, a, lastA, b, lastB, items[0]);
      hide SameOutcome, HandleEvent;
    } else if IsReplay(cfg, a, items[0]) {
      ReplayCase(cfg, a, lastA, b, items);
      hide SameOutcome, PlayOne;
      var (a1, lastA1) := PlayOne(cfg, a, lastA, items[0]);
      ReplaysAreAbsorbed(cfg, a1, lastA1, b, lastB, items[1..]);
    } else {
      SameStep(cfg, a, lastA, b, lastB, items[0]);
      BlocksAfter(cfg, a, lastA, items[0]);
      BlocksAfter(cfg, b, lastB, items[0]);
      var (a1, lastA1) := PlayOne(cfg, a, lastA, items[0]);
      var (b1, lastB1) := PlayOne(cfg, b, lastB, items[0]);
      assert b.blocks == a.blocks;
      hide SameOutcome, PlayOne;
      ReplaysAreAbsorbed(cfg, a1, lastA1, b1, lastB1, items[1..]);
      KeptFirst(cfg, a, lastA, items);
    }
  }

  ghost predicate Absorbed(cfg: Config, a: Native, lastA: int, b: Native, lastB: int, items: seq<Item>, kept: seq<Item>)
    requires LegalPlay(cfg, a, lastA, items) && LegalPlay(cfg, b, lastB, kept)
  {
    var ((a', runningA), (b', runningB)) := (Play(cfg, a, lastA, items), Play(cfg, b, lastB, kept));
    && SameOutcome(a', b') && runningA == runningB
    && (a'.forceSysCall <==> a.forceSysCall || |kept| < |items|)
    && b'.forceSysCall == b.forceSysCall
  }

  lemma ReplayCase(cfg: Config, a: Native, lastA: int, b: Native, items: seq<Item>)
    requires items != [] && LegalItem(cfg, a, items[0]) && IsReplay(cfg, a, items[0]) && SameOutcome(a, b)
    ensures var a1 := PlayOne(cfg, a, lastA, items[0]).0;
      SameOutcome(a1, b) && a1.blocks == a.blocks && a1.forceSysCall
    ensures Erase(cfg, a.blocks, items) == Erase(cfg, a.blocks, items[1..])
  {
    ReplayIsAbsorbed(cfg, a, lastA, items[0].e);
    hide HandleEvent, Calls;
  }

  lemma KeptFirst(cfg: Config, a: Native, lastA: int, items: seq<Item>)
    requires items != [] && LegalItem(cfg, a, items[0]) && !Stops(cfg, a, items[0]) && !IsReplay(cfg, a, items[0])
    ensures var kept1 := Erase(cfg, PlayOne(cfg, a, lastA, items[0]).0.blocks, items[1..]);
      var kept := Erase(cfg, a.blocks, items);
      kept == [items[0]] + kept1 && kept[1..] == kept1
  {
    BlocksAfter(cfg, a, lastA, items[0]);
    hide PlayOne;
  }

  // ----- How long a replay is recognised -----

  /** The blocks that carry data are the ones out of the pool. */
  ghost predicate PlayInv(n: Native) {
    PoolInv(n.pool, n.blocks.Keys, PendingBlocks(n.blocks))
  }

  ghost predicate Fills(item: Item) {
    item.Submitted? || item.SentinelSent?
  }

  /** How many blocks the stream takes out of the pool. */
  ghost function Fillings(items: seq<Item>): (count: nat) {
    if items == [] then 0 else (if Fills(items[0]) then 1 else 0) + Fillings(items[1..])
  }

  ghost predicate NoEventOn(i: Iocb, items: seq<Item>) {
    forall k :: 0 <= k < |items| && items[k].Arrive? ==> items[k].e.obj != i
  }

  lemma PoolAfter(cfg: Config, n: Native, last: int, item: Item)
    requires LegalItem(cfg, n, item) && !Stops(cfg, n, item)
    ensures PlayOne(cfg, n, last, item).0.pool ==
      if Fills(item) then Get(n.pool).0
      else if item.Arrive? && item.e.obj in PendingBlocks(n.blocks) then Put(n.pool, item.e.obj) else n.pool
  {
    hide I32, Put, Get;
  }

  /** The free window over one item: a filling takes its first block, a genuine
      event adds its own at the end, a replay and a new batch leave it. */
  lemma ItemKeepsPool(cfg: Config, n: Native, last: int, item: Item)
    requires PlayInv(n) && LegalItem(cfg, n, item) && !Stops(cfg, n, item)
    ensures var n' := PlayOne(cfg, n, last, item).0;
      && PlayInv(n')
      && (Fills(item) ==> Free(n.pool) == [item.i] + Free(n'.pool))
      && (item.Arrive? && item.e.obj in PendingBlocks(n.blocks) ==> Free(n'.pool) == Free(n.pool) + [item.e.obj])
      && (item.NewBatch? || (item.Arrive? && item.e.obj !in PendingBlocks(n.blocks)) ==> n'.pool == n.pool)
  {
    var n' := PlayOne(cfg, n, last, item).0;
    BlocksAfter(cfg, n, last, item);
    PoolAfter(cfg, n, last, item);
    hide PlayOne, PoolInv, Put, Get;
    PendingAfter(n.blocks, item, n'.blocks);
    var all, out := n.blocks.Keys, PendingBlocks(n.blocks);
    if Fills(item) {
      GetKeeps(n.pool, all, out);
    } else if item.Arrive? && item.e.obj in out {
      PutKeeps(n.pool, all, out, item.e.obj);
    }
  }

  lemma PendingAfter(blocks: map<Iocb, Block>, item: Item, blocks': map<Iocb, Block>)
    requires item.Arrive? ==> item.e.obj in blocks && blocks' == blocks[item.e.obj := blocks[item.e.obj].(data := Null)]
    requires item.NewBatch? ==> blocks' == blocks
    requires Fills(item) ==> item.i in blocks && exists b: Block :: b.data != Null && blocks' == blocks[item.i := b]
    ensures blocks'.Keys == blocks.Keys
    ensures PendingBlocks(blocks') == match item
      case Arrive(e) => PendingBlocks(blocks) - {e.obj}
      case NewBatch => PendingBlocks(blocks)
      case _ => PendingBlocks(blocks) + {item.i}
    ensures item.Arrive? && item.e.obj !in PendingBlocks(blocks) ==> PendingBlocks(blocks') == PendingBlocks(blocks)
  {
  }

  /** The first item of a stream that the poller survives. */
  lemma PlayNext(cfg: Config, n: Native, last: int, items: seq<Item>)
    requires items != [] && LegalPlay(cfg, n, last, items) && Play(cfg, n, last, items).1
    ensures LegalItem(cfg, n, items[0]) && !Stops(cfg, n, items[0])
    ensures var (n1, last1) := PlayOne(cfg, n, last, items[0]);
      LegalPlay(cfg, n1, last1, items[1..]) && Play(cfg, n, last, items) == Play(cfg, n1, last1, items[1..])
  {
    hide PlayOne;
  }

  lemma FreeIsQuiet(n: Native, i: Iocb, f: nat)
    requires PlayInv(n) && f < |Free(n.pool)| && Free(n.pool)[f] == i
    ensures i !in PendingBlocks(n.blocks)
  {
    assert i in Free(n.pool);
    hide PendingBlocks, Free;
  }

  /** Where the block at place `f` of the free window is after one item. */
  lemma ItemMoves(cfg: Config, n: Native, last: int, item: Item, i: Iocb, f: nat)
    requires PlayInv(n) && LegalItem(cfg, n, item) && !Stops(cfg, n, item)
    requires f < |Free(n.pool)| && Free(n.pool)[f] == i
    ensures var n' := PlayOne(cfg, n, last, item).0;
      && PlayInv(n')
      && if Fills(item) && f == 0 then item.i == i
         else var f' := if Fills(item) then f - 1 else f; f' < |Free(n'.pool)| && Free(n'.pool)[f'] == i
  {
    ItemKeepsPool(cfg, n, last, item);
    hide PlayOne, PoolInv, PendingBlocks, Free;
  }

  /** A block with `f` free ones before it is filled by the (f+1)-st filling, and
      by no earlier one: until then every event on it is absorbed. */
  lemma {:induction false} FreeBlockWaits(cfg: Config, n: Native, last: int, items: seq<Item>, i: Iocb, f: nat)
    requires PlayInv(n) && LegalPlay(cfg, n, last, items) && Play(cfg, n, last, items).1
    requires f < |Free(n.pool)| && Free(n.pool)[f] == i && Fillings(items) <= f
    ensures PlayInv(Play(cfg, n, last, items).0)
    ensures var free := Free(Play(cfg, n, last, items).0.pool);
      f - Fillings(items) < |free| && free[f - Fillings(items)] == i
    ensures i !in PendingBlocks(Play(cfg, n, last, items).0.blocks)
    decreases |items|
  {
    hide PlayInv, PlayOne, PendingBlocks, Free, LegalItem, Stops;
    if items == [] {
      FreeIsQuiet(n, i, f);
    } else {
      PlayNext(cfg, n, last, items);
      hide Play, LegalPlay;
      var (n1, last1) := PlayOne(cfg, n, last, items[0]);
      ItemMoves(cfg, n, last, items[0], i, f);
      FreeBlockWaits(cfg, n1, last1, items[1..], i, if Fills(items[0]) then f - 1 else f);
    }
  }

  lemma {:induction false} StaysPending(cfg: Config, n: Native, last: int, items: seq<Item>, i: Iocb)
    requires LegalPlay(cfg, n, last, items) && Play(cfg, n, last, items).1
    requires i in PendingBlocks(n.blocks) && NoEventOn(i, items)
    ensures i in PendingBlocks(Play(cfg, n, last, items).0.blocks)
    decreases |items|
  {
    if items != [] {
      var (n1, last1) := PlayOne(cfg, n, last, items[0]);
      BlocksAfter(cfg, n, last, items[0]);
      hide PlayOne;
      assert i in PendingBlocks(n1.blocks);
      hide PendingBlocks;
      assert NoEventOn(i, items[1..]);
      StaysPending(cfg, n1, last1, items[1..], i);
    }
  }

  lemma {:induction false} FilledAfter(cfg: Config, n: Native, last: int, items: seq<Item>, i: Iocb, f: nat)
    requires PlayInv(n) && LegalPlay(cfg, n, last, items) && Play(cfg, n, last, items).1
    requires f < |Free(n.pool)| && Free(n.pool)[f] == i && Fillings(items) > f && NoEventOn(i, items)
    ensures i in PendingBlocks(Play(cfg, n, last, items).0.blocks)
    decreases |items|
  {
    PlayNext(cfg, n, last, items);
    hide PlayOne, PlayInv, Free, Play, LegalPlay, LegalItem, Stops;
    var (n1, last1) := PlayOne(cfg, n, last, items[0]);
    ItemMoves(cfg, n, last, items[0], i, f);
    assert NoEventOn(i, items[1..]);
    if Fills(items[0]) && f == 0 {
      BlocksAfter(cfg, n, last, items[0]);
      StaysPending(cfg, n1, last1, items[1..], i);
    } else {
      hide PendingBlocks;
      FilledAfter(cfg, n1, last1, items[1..], i, if Fills(items[0]) then f - 1 else f);
    }
  }

  /** The window is exact.  When the event of a pending block has been handled,
      a second event on that block is absorbed if and only if no more fillings
      came in between than there were free blocks at that time. */
  lemma ReplayWindow(cfg: Config, n: Native, last: int, e: Event, mid: seq<Item>)
    requires PlayInv(n) && e.obj in PendingBlocks(n.blocks) && n.blocks[e.obj].fd != cfg.dumbFd
    requires LegalPlay(cfg, n, last, [Arrive(e)] + mid) && Play(cfg, n, last, [Arrive(e)] + mid).1 &&
      NoEventOn(e.obj, mid)
    ensures e.obj !in PendingBlocks(Play(cfg, n, last, [Arrive(e)] + mid).0.blocks)
       <==> Fillings(mid) <= |n.pool.slots| - n.pool.used
  {
    var items := [Arrive(e)] + mid;
    assert items[0] == Arrive(e) && items[1..] == mid;
    var (n1, last1) := PlayOne(cfg, n, last, Arrive(e));
    ItemKeepsPool(cfg, n, last, Arrive(e));
    var f := |Free(n.pool)|;
    assert Free(n1.pool)[f] == e.obj;
    hide PlayOne, PlayInv, PendingBlocks;
    if Fillings(mid) <= f {
      FreeBlockWaits(cfg, n1, last1, mid, e.obj, f);
    } else {
      FilledAfter(cfg, n1, last1, mid, e.obj, f);
    }
  }

  /** Past the window the replay finishes a submission that the kernel has not
      completed: its callback is told the old result, and its own completion,
      whatever it is, is then taken for the duplicate. */
  lemma LateReplay(cfg: Config, n: Native, last: int, last': int, replay: Event, own: Event, ref: Ref)
    requires Indexed(n.pool) && replay.obj in n.blocks && n.blocks[replay.obj].data == Callback(ref) &&
      own.obj == replay.obj
    ensures var n1 := HandleEvent(cfg, n, last, replay).0;
      && Calls(n1.log)
         == Calls(n.log) + (if I32(replay.res) < 0 then [OnError(ref, -I32(replay.res))] else []) + [Done(ref)]
      && ref !in n1.live
      && Indexed(n1.pool) && own.obj in n1.blocks
      && SameOutcome(HandleEvent(cfg, n1, last', own).0, n1)
      && HandleEvent(cfg, n1, last', own).0.forceSysCall
  {
    HandleCalls(cfg, n, last, replay);
    var n1 := HandleEvent(cfg, n, last, replay).0;
    assert own.obj !in PendingBlocks(n1.blocks);
    ReplayIsAbsorbed(cfg, n1, last', own);
    Assoc(Calls(n.log), if I32(replay.res) < 0 then [OnError(ref, -I32(replay.res))] else [], [Done(ref)]);
    hide I32, Calls;
  }

  /** A completed callback, without fdatasync or error. */
  lemma PlainDone(cfg: Config, n: Native, last: int, e: Event, ref: Ref)
    requires Indexed(n.pool) && e.obj in n.blocks && n.blocks[e.obj].data == Callback(ref)
    requires !cfg.useFdatasync && I32(e.res) >= 0
    ensures var n' := HandleEvent(cfg, n, last, e).0;
      n'.log == n.log + [Done(ref)] && n'.pool == Put(n.pool, e.obj) &&
        n'.blocks == n.blocks[e.obj := n.blocks[e.obj].(data := Null)]
  {
    hide I32, Put;
  }

  /** It takes a pool of one block, one submission and one replay: the second
      callback is done before its operation is. */
  lemma LateReplayHappens(cfg: Config, fd: int, res: int)
    requires cfg.dumbFd != fd && !cfg.useFdatasync && I32(res) >= 0
    ensures var e := Event(0, res);
      var n := Native(Pool([0], 1, 0, 0), map[0 := Block(fd, Callback(0))], 0, {0}, false, []);
      var items := [Arrive(e), Submitted(0, fd, 1), Arrive(e)];
      && PlayInv(n) && LegalPlay(cfg, n, -1, items)
      && Play(cfg, n, -1, items).0.log == [Done(0), Done(1)]
  {
    var e := Event(0, res);
    var n := Native(Pool([0], 1, 0, 0), map[0 := Block(fd, Callback(0))], 0, {0}, false, []);
    assert PendingBlocks(n.blocks) == {0} && n.blocks.Keys == {0} && Free(n.pool) == [];
    assert PlayInv(n);
    hide I32, HandleEvent, PlayInv;
    PlainDone(cfg, n, -1, e, 0);
    var (n1, last1) := PlayOne(cfg, n, -1, Arrive(e));
    var (n2, last2) := PlayOne(cfg, n1, last1, Submitted(0, fd, 1));
    PlainDone(cfg, n2, last2, e, 1);
    var (n3, last3) := PlayOne(cfg, n2, last2, Arrive(e));
    assert n3.log == [Done(0), Done(1)];
    hide PlayOne;
    PlayThree(cfg, n, -1, Arrive(e), n1, last1, Submitted(0, fd, 1), n2, last2, Arrive(e));
  }

  lemma PlayThree(cfg: Config, n: Native, last: int, a: Item, n1: Native, last1: int, b: Item, n2: Native, last2: int,
      c: Item)
    requires LegalItem(cfg, n, a) && !Stops(cfg, n, a) && (n1, last1) == PlayOne(cfg, n, last, a)
    requires LegalItem(cfg, n1, b) && !Stops(cfg, n1, b) && (n2, last2) == PlayOne(cfg, n1, last1, b)
    requires LegalItem(cfg, n2, c) && !Stops(cfg, n2, c)
    ensures LegalPlay(cfg, n, last, [a, b, c]) && Play(cfg, n, last, [a, b, c]) == (PlayOne(cfg, n2, last2, c).0, true)
  {
    hide PlayOne, LegalItem, Stops;
    var (n3, last3) := PlayOne(cfg, n2, last2, c);
    assert [a, b, c][1..] == [b, c] && [b, c][1..] == [c] && [c][1..] == [];
    assert LegalPlay(cfg, n3, last3, []) && Play(cfg, n3, last3, []) == (n3, true);
    assert LegalPlay(cfg, n2, last2, [c]) && Play(cfg, n2, last2, [c]) == (n3, true);
    assert LegalPlay(cfg, n1, last1, [b, c]) && Play(cfg, n1, last1, [b, c]) == (n3, true);
  }
}
