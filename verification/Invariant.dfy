/** What holds between any two steps of any run. */
module Invariant {
  import opened Circular
  import opened Options
  import opened RingArithmetic
  import opened IocbPool
  import opened AioRing
  import opened Lifecycle
  import opened Trace
  import opened Machine

  // ----- Where an outstanding block is -----

  datatype Place =
    | WithSub(t: Tid, armed: bool)
    | InKernel
    | InRing
    | InBatch(claimed: bool)
    | WithCloser(armed: bool)

  /** The block's `data` still is what its submitter stored. */
  predicate Carrying(p: Place) {
    match p
    case WithSub(_, armed) => armed
    case InBatch(claimed) => !claimed
    case WithCloser(armed) => armed
    case _ => true
  }

  /** The kernel has not completed the block's operation. */
  predicate Uncompleted(p: Place) {
    p.InKernel? || (p.WithSub? && p.armed) || (p.WithCloser? && p.armed)
  }

  type Owners = map<Iocb, Place>

  datatype Held = Held(iocb: Iocb, armed: bool)

  function SubHeld(sub: Submitter): (h: Option<Held>) {
    match sub
    case Obtained(_, i) => Some(Held(i, false))
    case Prepared(i) => Some(Held(i, false))
    case Unarmed(i) => Some(Held(i, false))
    case Armed(i) => Some(Held(i, true))
    case Rejected(i) => Some(Held(i, true))
    case _ => None
  }

  function CloserHeld(c: Closer): (h: Option<Held>) {
    match c
    case Took(x) => Some(Held(x, false))
    case Readied(x) => Some(Held(x, true))
    case Unsent(x) => Some(Held(x, true))
    case _ => None
  }

  /** The block that carries the sentinel write, once one has been taken. */
  function SentinelOf(c: Closer): (x: Option<Iocb>) {
    match c
    case Took(x) => Some(x)
    case Readied(x) => Some(x)
    case Unsent(x) => Some(x)
    case Sent(x) => Some(x)
    case Joined(x) => Some(x)
    case Swept(x) => Some(x)
    case _ => None
  }

  /** The index of the first event of the batch whose block still carries its data. */
  function FirstUnclaimed(i: nat, stage: Stage): (k: nat) {
    match stage
    case PutBack(_) => i + 1
    case Notify(_) => i + 1
    case Release(_) => i + 1
    case Unref(_) => i + 1
    case ArrayPut => i + 1
    case _ => i
  }

  function From(evts: seq<Event>, k: nat): (rest: seq<Event>) {
    if k <= |evts| then evts[k..] else []
  }

  function Unclaimed(p: Poller): (rest: seq<Event>) {
    if p.Handling? then From(p.evts, FirstUnclaimed(p.i, p.stage)) else []
  }

  /** The block of the current event between the claim of its data and `putIOCB`. */
  function Claimed(p: Poller): (i: Option<Iocb>) {
    if p.Handling? && (p.stage.PutBack? || p.stage.ArrayPut?) && p.i < |p.evts| then Some(p.evts[p.i].obj) else None
  }

  /** The reference the poller has taken out of a block and not deleted yet. */
  function PollerRef(p: Poller): (r: Option<Ref>) {
    if !p.Handling? then None
    else
      match p.stage
      case PutBack(data) => if data.Callback? then Some(data.ref) else None
      case Notify(ref) => Some(ref)
      case Release(ref) => Some(ref)
      case Unref(ref) => Some(ref)
      case _ => None
  }

  /** Blocks back in the pool whose permits are still to be released. */
  function PendingRelease(cfg: Config, p: Poller): (count: nat) {
    match p
    case Handling(_, i, _, stage) => if !cfg.blocking then i else if stage.Notify? || stage.Release? then 1 else 0
    case Returning(returned) => returned
    case _ => 0
  }

  ghost function Admitteds(subs: map<Tid, Submitter>): (threads: set<Tid>) {
    set t | t in subs && subs[t].Admitted?
  }

  ghost function Admissions(subs: map<Tid, Submitter>): (count: nat) {
    |Admitteds(subs)|
  }

  ghost predicate Listed(own: Owners, q: seq<Event>, place: Place) {
    && (forall k :: 0 <= k < |q| ==> q[k].obj in own && own[q[k].obj] == place)
    && (forall j, k :: 0 <= j < k < |q| ==> q[j].obj != q[k].obj)
  }

  ghost predicate HasBlock(q: seq<Event>, i: Iocb) {
    exists k :: 0 <= k < |q| && q[k].obj == i
  }

  ghost predicate SubPlaced(own: Owners, t: Tid, sub: Submitter) {
    match SubHeld(sub)
    case None => true
    case Some(h) => h.iocb in own && own[h.iocb] == WithSub(t, h.armed)
  }

  /** Everything an actor holds is recorded as its. */
  ghost predicate Placed(own: Owners, subs: map<Tid, Submitter>, inflight: set<Iocb>, queue: seq<Event>,
                         unclaimed: seq<Event>, claimed: Option<Iocb>, held: Option<Held>) {
    && (forall t :: t in subs ==> SubPlaced(own, t, subs[t]))
    && (forall i :: i in inflight ==> i in own && own[i] == InKernel)
    && Listed(own, queue, InRing)
    && Listed(own, unclaimed, InBatch(false))
    && (claimed.Some? ==> claimed.value in own && own[claimed.value] == InBatch(true))
    && (held.Some? ==> held.value.iocb in own && own[held.value.iocb] == WithCloser(held.value.armed))
  }

  ghost predicate BackedAt(i: Iocb, place: Place, subs: map<Tid, Submitter>, inflight: set<Iocb>, queue: seq<Event>,
                           unclaimed: seq<Event>, claimed: Option<Iocb>, held: Option<Held>) {
    match place
    case WithSub(t, armed) => t in subs && SubHeld(subs[t]) == Some(Held(i, armed))
    case InKernel => i in inflight
    case InRing => HasBlock(queue, i)
    case InBatch(done) => if done then claimed == Some(i) else HasBlock(unclaimed, i)
    case WithCloser(armed) => held == Some(Held(i, armed))
  }

  /** Every outstanding block is held by exactly the actor recorded for it. */
  ghost predicate Backed(own: Owners, subs: map<Tid, Submitter>, inflight: set<Iocb>, queue: seq<Event>,
                         unclaimed: seq<Event>, claimed: Option<Iocb>, held: Option<Held>) {
    forall i :: i in own ==> BackedAt(i, own[i], subs, inflight, queue, unclaimed, claimed, held)
  }

  // ----- The parts of the invariant -----

  ghost predicate SizePart(cfg: Config, ring: Ring) {
    0 < cfg.queueSize < |ring.slots| && RingInv(ring)
  }

  ghost predicate PoolPart(cfg: Config, pool: Pool, all: set<Iocb>, out: set<Iocb>) {
    PoolInv(pool, all, out) && |pool.slots| == cfg.queueSize
  }

  predicate RealFd(cfg: Config, fd: int) {
    fd >= 0 && fd != cfg.dumbFd
  }

  ghost predicate SubShape(cfg: Config, blocks: map<Iocb, Block>, sub: Submitter) {
    match sub
    case Checked(fd) => RealFd(cfg, fd)
    case Admitted(fd) => RealFd(cfg, fd)
    case Obtained(fd, i) => RealFd(cfg, fd) && i in blocks
    case Prepared(i) => i in blocks && RealFd(cfg, blocks[i].fd)
    case Refused => !cfg.useSemaphore
    case _ => true
  }

  ghost predicate ShapePart(cfg: Config, blocks: map<Iocb, Block>, subs: map<Tid, Submitter>) {
    forall t :: t in subs ==> SubShape(cfg, blocks, subs[t])
  }

  ghost predicate DataFits(cfg: Config, b: Block, isSentinel: bool) {
    if isSentinel then b == Block(cfg.dumbFd, Sentinel)
    else RealFd(cfg, b.fd) && !b.data.Sentinel? && (cfg.blocking ==> b.data.Callback?)
  }

  /** Only the sentinel's block is on the dumb file. */
  ghost predicate DataPart(cfg: Config, blocks: map<Iocb, Block>, own: Owners, sentinel: Option<Iocb>) {
    && own.Keys <= blocks.Keys
    && forall i :: i in own && Carrying(own[i]) ==> DataFits(cfg, blocks[i], sentinel == Some(i))
  }

  ghost predicate CarriesRef(blocks: map<Iocb, Block>, own: Owners, i: Iocb, r: Ref) {
    i in own && Carrying(own[i]) && i in blocks && blocks[i].data == Callback(r)
  }

  /** The live references are one per carrying block, and the poller's. */
  ghost predicate RefPart(blocks: map<Iocb, Block>, own: Owners, pref: Option<Ref>, live: set<Ref>, nextRef: Ref) {
    && (forall i, r :: CarriesRef(blocks, own, i, r) ==> r in live && pref != Some(r))
    && (forall i, j, r :: CarriesRef(blocks, own, i, r) && CarriesRef(blocks, own, j, r) ==> i == j)
    && (pref.Some? ==> pref.value in live)
    && (forall r :: r in live ==> r < nextRef && (pref == Some(r) || exists i :: CarriesRef(blocks, own, i, r)))
  }

  ghost predicate AwaitsCompletion(blocks: map<Iocb, Block>, own: Owners, i: Iocb, data: Data) {
    i in own && Uncompleted(own[i]) && i in blocks && blocks[i].data == data && data.Callback?
  }

  /** No reference completes twice. */
  ghost predicate OncePart(blocks: map<Iocb, Block>, own: Owners, completed: seq<Completion>, nextRef: Ref) {
    && RefsOnce(completed)
    && (forall k :: 0 <= k < |completed| && completed[k].data.Callback? ==> completed[k].data.ref < nextRef)
    && (forall i, k :: 0 <= k < |completed| ==> !AwaitsCompletion(blocks, own, i, completed[k].data))
  }

  /** What was reaped, then what is queued, is what completed. */
  ghost predicate QueuePart(blocks: map<Iocb, Block>, queue: seq<Event>, batches: seq<seq<Completion>>,
      completed: seq<Completion>) {
    InBlocks(blocks, queue) && completed == Flatten(batches) + DescribeAll(blocks, queue)
  }

  /** A reaped batch is the sentinel alone, or has no sentinel. */
  ghost predicate PlainPart(batches: seq<seq<Completion>>) {
    forall b :: 0 <= b < |batches| ==> PlainBatch(batches[b])
  }

  ghost predicate CallFits(cfg: Config, min: int, max: int) {
    cfg.blocking ==> min == 1 && max == cfg.queueSize
  }

  predicate StageFits(cfg: Config, stage: Stage) {
    match stage
    case Top => true
    case ArrayReport => !cfg.blocking
    case ArrayStore => !cfg.blocking
    case ArrayUnref(_) => !cfg.blocking
    case ArrayPut => !cfg.blocking
    case _ => cfg.blocking
  }

  ghost predicate PollerPart(cfg: Config, ring: Ring, p: Poller)
    requires RingInv(ring)
  {
    match p
    case Calling(min, max) => CallFits(cfg, min, max)
    case GotHead(min, max, head) => CallFits(cfg, min, max) && head == ring.head
    case Waiting(min, max) => CallFits(cfg, min, max)
    case Copying(available, needMod, head, copied) =>
      && 0 < available && |copied| <= available <= |Queue(ring)|
      && copied == Queue(ring)[..|copied|]
      && needMod == NeedMod(ring.head, available, |ring.slots|)
      && head == Slot(ring.head, |copied|, |ring.slots|)
    case Handling(evts, i, _, stage) => i <= |evts| && (stage != Top ==> i < |evts|) && StageFits(cfg, stage)
    case Returning(_) => !cfg.blocking
    case Stopping => cfg.blocking
    case Idle => true
  }

  /** The reference or data that the stage holds is the current completion's. */
  ghost predicate StageData(stage: Stage, c: Completion) {
    match stage
    case Top => true
    case PutBack(data) => c.data == data && data.Callback?
    case Notify(ref) => c.data == Callback(ref)
    case Release(ref) => c.data == Callback(ref)
    case Unref(ref) => c.data == Callback(ref)
    case ArrayUnref(ref) => c.data == Callback(ref)
    case _ => !c.data.Sentinel?
  }

  /** The batch in hand describes the blocks that still carry their data. */
  ghost predicate BatchPart(cfg: Config, blocks: map<Iocb, Block>, p: Poller, batches: seq<seq<Completion>>) {
    p.Handling? ==>
      && batches != []
      && var cs := batches[|batches| - 1];
      && |cs| == |p.evts|
      && p.i <= |p.evts|
      && (p.stage != Top ==> p.i < |p.evts|)
      && InBlocks(blocks, p.evts)
      && (forall k :: FirstUnclaimed(p.i, p.stage) <= k < |p.evts| ==> cs[k] == Describe(blocks, p.evts[k]))
      && (p.stage != Top ==> StageData(p.stage, cs[p.i]) && cs[p.i].res == p.evts[p.i].res)
      && p.last == Prev(cfg, cs, if p.stage.Top? || p.stage.Sync? || p.stage.ArrayReport? then p.i else p.i + 1)
  }

  /** The part of the current event's log that is already written. */
  ghost function StageLog(cfg: Config, cs: seq<Completion>, i: nat, stage: Stage): (log: seq<Entry>)
    requires i <= |cs| && (stage != Top ==> i < |cs|)
  {
    match stage
    case Top => []
    case Sync => []
    case ArrayReport => []
    case Report => SyncPart(cfg, Prev(cfg, cs, i), cs[i].fd)
    case Release(_) => EventLog(cfg, Prev(cfg, cs, i), i, cs[i])
    case Unref(_) => EventLog(cfg, Prev(cfg, cs, i), i, cs[i])
    case ArrayUnref(_) => EventLog(cfg, Prev(cfg, cs, i), i, cs[i])
    case ArrayPut => EventLog(cfg, Prev(cfg, cs, i), i, cs[i])
    case _ => SyncPart(cfg, Prev(cfg, cs, i), cs[i].fd) + ErrorPart(cs[i])
  }

  /** The log is exactly what the reaped batches require, up to this step. */
  ghost predicate LogPart(cfg: Config, p: Poller, batches: seq<seq<Completion>>, log: seq<Entry>) {
    if p.Handling? then
      && batches != []
      && var init, cs := batches[..|batches| - 1], batches[|batches| - 1];
      && p.i <= |cs|
      && (p.stage != Top ==> p.i < |cs|)
      && log == LogOf(cfg, init) + [Reaped] + LogPrefix(cfg, cs, p.i) + StageLog(cfg, cs, p.i, p.stage)
    else
      log == LogOf(cfg, batches)
  }

  /** Until the sentinel is taken every permit is accounted for.  A submission
      that the kernel refused keeps its permit for ever. */
  ghost predicate PermitPart(cfg: Config, permits: int, admissions: nat, used: int, pending: nat, failed: nat,
      c: Closer) {
    cfg.useSemaphore && Draining(c) ==>
      && permits >= 0
      && permits + admissions + used + pending + failed + (if c.Drained? then cfg.queueSize else 0) == cfg.queueSize
  }

  ghost predicate ClosePart(cfg: Config, closed: bool, p: Poller, c: Closer) {
    && (closed <==> !c.Open?)
    && (!cfg.blocking && !Draining(c) ==> p.Idle?)
    && (!c.Open? && !c.Closing? ==> cfg.useSemaphore)
    && (c.Joined? || c.Swept? || c.Quiesced? || c.Destroyed? ==> p.Idle?)
    && !c.NoSpace?
  }

  predicate AtRest(sub: Submitter) {
    sub.Outside? || sub.Refused? || sub.Checked?
  }

  /** After the drain nothing is outstanding but the sentinel. */
  ghost predicate DrainPart(permits: int, subs: map<Tid, Submitter>, out: set<Iocb>, p: Poller, pool: Pool,
      all: set<Iocb>, failed: nat, c: Closer) {
    !Draining(c) ==>
      && permits == 0
      && failed == 0
      && (forall t :: t in subs ==> AtRest(subs[t]))
      && (forall i :: i in out ==> SentinelOf(c) == Some(i))
      && (CloserHeld(c).Some? ==> CloserHeld(c).value.iocb in out)
      && p.Returning? == false
      && (p.Handling? ==> LoneSentinel(p))
      && Permutation(pool.slots, all)
      && (forall i :: i in out && pool.put < |pool.slots| ==> pool.slots[pool.put] == i)
  }

  /** Whatever is left of the poller's batch is the sentinel, and it is the
      whole batch. */
  ghost predicate LoneSentinel(p: Poller)
    requires p.Handling?
  {
    && (p.stage.Top? || p.stage.Unref?)
    && (p.i < |p.evts| && p.stage.Top? ==> |p.evts| == 1)
    && (p.stage.Unref? ==> p.i + 1 == |p.evts|)
  }

  ghost predicate InvAt(s: State, own: Owners) {
    && SizePart(s.cfg, s.ring)
    && PoolPart(s.cfg, s.n.pool, s.n.blocks.Keys, own.Keys)
    && Placed(own, s.subs, s.inflight, Queue(s.ring), Unclaimed(s.poller), Claimed(s.poller), CloserHeld(s.closer))
    && Backed(own, s.subs, s.inflight, Queue(s.ring), Unclaimed(s.poller), Claimed(s.poller), CloserHeld(s.closer))
    && ShapePart(s.cfg, s.n.blocks, s.subs)
    && DataPart(s.cfg, s.n.blocks, own, SentinelOf(s.closer))
    && RefPart(s.n.blocks, own, PollerRef(s.poller), s.n.live, s.nextRef)
    && OncePart(s.n.blocks, own, s.completed, s.nextRef)
    && QueuePart(s.n.blocks, Queue(s.ring), s.batches, s.completed)
    && PlainPart(s.batches)
    && PollerPart(s.cfg, s.ring, s.poller)
    && BatchPart(s.cfg, s.n.blocks, s.poller, s.batches)
    && LogPart(s.cfg, s.poller, s.batches, s.n.log)
    && PermitPart(s.cfg, s.n.permits, Admissions(s.subs), s.n.pool.used, PendingRelease(s.cfg, s.poller), s.failed,
      s.closer)
    && ClosePart(s.cfg, s.closed, s.poller, s.closer)
    && DrainPart(s.n.permits, s.subs, own.Keys, s.poller, s.n.pool, s.n.blocks.Keys, s.failed, s.closer)
  }

  /** From `io_queue_release` on: everybody is done and everything delivered. */
  ghost predicate FinalInv(s: State) {
    && SizePart(s.cfg, s.ring)
    && s.n.permits == 0 && s.closed && s.cfg.useSemaphore
    && ShapePart(s.cfg, s.n.blocks, s.subs)
    && (forall t :: t in s.subs ==> AtRest(s.subs[t]))
    && s.poller.Idle?
    && s.inflight == {} && s.n.live == {}
    && Permutation(s.n.pool.slots, s.n.blocks.Keys)
    && RefsOnce(s.completed)
    && s.n.log == LogOf(s.cfg, s.batches)
    && PlainPart(s.batches)
    && s.failed == 0
    && Indexed(s.n.pool)
    && (exists rest :: s.completed == Flatten(s.batches) + rest && AllSentinel(rest))
    && (s.closer.Destroyed? ==> Permutation(s.closer.freed, s.n.blocks.Keys))
  }

  ghost predicate AllSentinel(cs: seq<Completion>) {
    forall k :: 0 <= k < |cs| ==> cs[k].data.Sentinel?
  }

  predicate Released(c: Closer) {
    c.Quiesced? || c.Destroyed?
  }

  ghost predicate Inv(s: State) {
    if Released(s.closer) then FinalInv(s) else exists own :: InvAt(s, own)
  }
}
