/** What one reaped event does: the bodies of the two polling loops, cut into
    the steps other threads can run between, and the calls they make. */
module Lifecycle {
  import opened RingArithmetic
  import opened IocbPool
  import opened AioRing

  /** A JNI global reference. */
  type Ref = nat

  /** `iocb->data`: NULL, `(void *) -1`, or a global reference to a callback. */
  datatype Data = Null | Sentinel | Callback(ref: Ref)

  /** The two fields of a control block that the library itself reads. */
  datatype Block = Block(fd: int, data: Data)

  datatype Config = Config(
    queueSize: nat, dumbFd: int, usableRing: bool,
    useSemaphore: bool, useFdatasync: bool, blocking: bool)

  /** A call that leaves the library, or the return of one reap. */
  datatype Entry =
    | Reaped
    | Fdatasync(fd: int)
    | OnError(ref: Ref, errno: int)
    | Done(ref: Ref)
    | Stored(index: nat, ref: Ref)

  /** The state that event handling reads and writes. */
  datatype Native = Native(
    pool: Pool, blocks: map<Iocb, Block>, permits: int,
    live: set<Ref>, forceSysCall: bool, log: seq<Entry>)

  // ----- The steps of one event -----

  /** `if (useFdatasync && lastFile != iocbp->aio_fildes) ...` */
  function SyncStep(cfg: Config, n: Native, last: int, e: Event): (r: (Native, int))
    requires e.obj in n.blocks
  {
    var fd := n.blocks[e.obj].fd;
    if cfg.useFdatasync && last != fd then (n.(log := n.log + [Fdatasync(fd)]), fd) else (n, last)
  }

  /** `onError`, when the result is negative and a callback is attached. */
  function ReportStep(n: Native, e: Event): (r: Native)
    requires e.obj in n.blocks
  {
    var data := n.blocks[e.obj].data;
    if I32(e.res) < 0 && data.Callback? then n.(log := n.log + [OnError(data.ref, -I32(e.res))]) else n
  }

  /** `obj = iocbp->data; iocbp->data = NULL;` */
  function TakeStep(n: Native, e: Event): (r: (Native, Data))
    requires e.obj in n.blocks
  {
    (n.(blocks := n.blocks[e.obj := n.blocks[e.obj].(data := Null)]), n.blocks[e.obj].data)
  }

  function PutStep(n: Native, i: Iocb): (r: Native)
    requires Indexed(n.pool)
  {
    n.(pool := Put(n.pool, i))
  }

  function NotifyStep(n: Native, ref: Ref): (r: Native) {
    n.(log := n.log + [Done(ref)])
  }

  function ReleaseStep(cfg: Config, n: Native, count: nat): (r: Native) {
    if cfg.useSemaphore then n.(permits := n.permits + count) else n
  }

  function UnrefStep(n: Native, ref: Ref): (r: Native) {
    n.(live := n.live - {ref})
  }

  function StoreStep(n: Native, index: nat, ref: Ref): (r: Native) {
    n.(log := n.log + [Stored(index, ref)])
  }

  function LatchStep(n: Native): (r: Native) {
    n.(forceSysCall := true)
  }

  // ----- One whole event, and one whole batch -----

  /** Every reaped event points to a known block. */
  ghost predicate Known(n: Native, evts: seq<Event>) {
    && Indexed(n.pool)
    && forall k :: 0 <= k < |evts| ==> evts[k].obj in n.blocks
  }

  /** The body of the loop of `blockedPoll` below the sentinel check. */
  function HandleEvent(cfg: Config, n: Native, last: int, e: Event): (r: (Native, int))
    requires Indexed(n.pool) && e.obj in n.blocks
    ensures r.0.blocks == n.blocks[e.obj := n.blocks[e.obj].(data := Null)] && Indexed(r.0.pool)
  {
    var (n1, last1) := SyncStep(cfg, n, last, e);
    var (n2, data) := TakeStep(ReportStep(n1, e), e);
    match data
    case Null => (LatchStep(n2), last1)
    case Callback(ref) => (UnrefStep(ReleaseStep(cfg, NotifyStep(PutStep(n2, e.obj), ref), 1), ref), last1)
    case Sentinel => (PutStep(n2, e.obj), last1)  // the check on the descriptor comes first
  }

  /** The loop over one reaped batch; the sentinel ends it and the poller. */
  function HandleBatch(cfg: Config, n: Native, last: int, evts: seq<Event>): (r: (Native, bool))
    requires Known(n, evts)
    decreases |evts|
  {
    if evts == [] then (n, true)
    else if n.blocks[evts[0].obj].fd == cfg.dumbFd then (PutStep(n, evts[0].obj), false)
    else
      var (n1, last1) := HandleEvent(cfg, n, last, evts[0]);
      HandleBatch(cfg, n1, last1, evts[1..])
  }

  lemma BatchStops(cfg: Config, n: Native, last: int, evts: seq<Event>)
    requires Known(n, evts) && evts != [] && n.blocks[evts[0].obj].fd == cfg.dumbFd
    ensures HandleBatch(cfg, n, last, evts) == (PutStep(n, evts[0].obj), false)
  {
  }

  lemma BatchGoesOn(cfg: Config, n: Native, last: int, evts: seq<Event>)
    requires Known(n, evts) && evts != [] && n.blocks[evts[0].obj].fd != cfg.dumbFd
    ensures var (n1, last1) := HandleEvent(cfg, n, last, evts[0]);
      Known(n1, evts[1..]) && HandleBatch(cfg, n, last, evts) == HandleBatch(cfg, n1, last1, evts[1..])
  {
  }

  /** The body of the loop of `poll(callbacks, min, max)`. */
  function PollEvent(n: Native, index: nat, e: Event): (r: Native)
    requires Indexed(n.pool) && e.obj in n.blocks
    ensures r.blocks == n.blocks && Indexed(r.pool)
  {
    var n1 := ReportStep(n, e);
    var data := n1.blocks[e.obj].data;
    var n2 := if data.Callback? then UnrefStep(StoreStep(n1, index, data.ref), data.ref) else n1;
    PutStep(n2, e.obj)
  }

  function PollBatch(n: Native, evts: seq<Event>, count: nat): (r: Native)
    requires Known(n, evts) && count <= |evts|
    ensures r.blocks == n.blocks && Indexed(r.pool)
  {
    if count == 0 then n else PollEvent(PollBatch(n, evts, count - 1), count - 1, evts[count - 1])
  }
}
