/** The whole protocol as a step system: any number of submitting threads, the
    kernel, one poller and one closer, each advanced one shared access at a
    time, in any order. */
module Machine {
  import opened Circular
  import opened RingArithmetic
  import opened IocbPool
  import opened AioRing
  import opened Lifecycle
  import opened Trace

  type Tid = nat

  // ----- Program counters -----

  /** A thread inside `submitWrite` or `submitRead`. */
  datatype Submitter =
    | Outside
    | Checked(fd: int)              // `closed` was false
    | Admitted(fd: int)             // past `ioSpace.acquire()`
    | Refused                       // `getIOCB` returned NULL: "Not enough space in libaio queue"
    | Obtained(fd: int, iocb: Iocb) // `getIOCB` returned a block
    | Prepared(iocb: Iocb)          // past `io_prep_pwrite`
    | Armed(iocb: Iocb)             // `data` holds the global reference
    | Rejected(iocb: Iocb)          // `io_submit` failed
    | Unarmed(iocb: Iocb)           // past `DeleteGlobalRef`, before `putIOCB`

  /** Where the poller stands on event `i` of its batch. */
  datatype Stage =
    | Top
    | Sync | Report | Claim | PutBack(data: Data) | Notify(ref: Ref) | Release(ref: Ref) | Unref(ref: Ref)
    | ArrayReport | ArrayStore | ArrayUnref(ref: Ref) | ArrayPut

  /** The thread in `blockedPoll`, or the one in `poll(callbacks, min, max)`. */
  datatype Poller =
    | Idle
    | Calling(min: int, max: int)               // entering `ringio_get_events`
    | GotHead(min: int, max: int, head: nat)    // `ring->head` read
    | Copying(available: int, needMod: bool, head: nat, copied: seq<Event>)
    | Waiting(min: int, max: int)               // inside `io_getevents`
    | Handling(evts: seq<Event>, i: nat, last: int, stage: Stage)
    | Returning(returned: nat)                  // array poll done, permits not released yet
    | Stopping                                  // loop left, `pollLock` still held

  /** The thread in `close`. */
  datatype Closer =
    | Open
    | Closing                 // `closed` is set
    | Drained                 // `tryAcquire(queueSize)` succeeded
    | NoSpace                 // `deleteContext` found no block
    | Took(x: Iocb)           // the sentinel's block
    | Readied(x: Iocb)        // prepared on the dumb file, `data` is -1
    | Unsent(x: Iocb)         // `io_submit` of the sentinel failed
    | GaveUp                  // block returned, exception thrown, nothing destroyed
    | Sent(x: Iocb)
    | Joined(x: Iocb)         // `pollLock` taken and released
    | Swept(x: Iocb)          // own reap done
    | Quiesced(x: Iocb)       // past `io_queue_release`
    | Destroyed(freed: seq<Iocb>)

  datatype State = State(
    cfg: Config,
    n: Native,
    ring: Ring,
    inflight: set<Iocb>,         // accepted by the kernel, not completed
    closed: bool,
    subs: map<Tid, Submitter>,
    poller: Poller,
    closer: Closer,
    nextRef: Ref,                // references are never reused
    // history
    failed: nat,                          // submissions the kernel refused
    completed: seq<Completion>,           // everything the kernel completed
    batches: seq<seq<Completion>>)        // everything reaped, reap by reap

  // ----- Actions -----

  datatype SubAction =
    | Check(fd: int) | Acquire | Obtain | Prepare | Arm(isNull: bool) | Accept | Reject | Disarm | GiveBack

  datatype PollAction =
    | Start(min: int, max: int) | ReadHead | ReadTail | CopySlot | Publish
    | KernelReap(count: nat) | KernelFail(interrupted: bool)
    | EventStep | ReleaseAll | Unlock

  datatype CloseAction =
    | Begin | Drain | ObtainSentinel | ReadySentinel | AcceptSentinel | RejectSentinel | ReturnSentinel
    | Join | Sweep(count: nat) | ReleaseQueue | Destroy

  datatype Action =
    | Sub(t: Tid, sub: SubAction)
    | Complete(i: Iocb, res: int)
    | Poll(poll: PollAction)
    | Close(close: CloseAction)
    | SetForce(value: bool)

  // ----- Small pieces -----

  function Describe(blocks: map<Iocb, Block>, e: Event): (c: Completion)
    requires e.obj in blocks
  {
    Completion(blocks[e.obj].data, blocks[e.obj].fd, e.res)
  }

  ghost predicate InBlocks(blocks: map<Iocb, Block>, q: seq<Event>) {
    forall k :: 0 <= k < |q| ==> q[k].obj in blocks
  }

  function DescribeAll(blocks: map<Iocb, Block>, q: seq<Event>): (cs: seq<Completion>)
    requires InBlocks(blocks, q)
    ensures |cs| == |q|
  {
    seq(|q|, k requires 0 <= k < |q| => Describe(blocks, q[k]))
  }

  // ----- Submitters -----

  ghost predicate SubReady(s: State, t: Tid, a: SubAction) {
    t in s.subs &&
    match a
    case Check(fd) => (s.subs[t].Outside? || s.subs[t].Refused?) && !s.closed && fd >= 0 && fd != s.cfg.dumbFd
    case Acquire => s.subs[t].Checked? && (s.cfg.useSemaphore ==> s.n.permits > 0)
    case Obtain => s.subs[t].Admitted?
    case Prepare => s.subs[t].Obtained?
    case Arm(isNull) => s.subs[t].Prepared? && (isNull ==> !s.cfg.blocking)
    case Accept => s.subs[t].Armed?
    case Reject => s.subs[t].Armed?
    case Disarm => s.subs[t].Rejected?
    case GiveBack => s.subs[t].Unarmed?
  }

  ghost predicate SubSafe(s: State, t: Tid, a: SubAction)
    requires SubReady(s, t, a)
  {
    && Indexed(s.n.pool)
    && (a.Prepare? || a.Arm? || a.Disarm? ==> s.subs[t].iocb in s.n.blocks)
  }

  ghost function SubApply(s: State, t: Tid, a: SubAction): (s': State)
    requires SubReady(s, t, a) && SubSafe(s, t, a)
  {
    var me := s.subs[t];
    match a
    case Check(fd) => s.(subs := s.subs[t := Checked(fd)])
    case Acquire =>
      var n := if s.cfg.useSemaphore then s.n.(permits := s.n.permits - 1) else s.n;
      s.(n := n, subs := s.subs[t := Admitted(me.fd)])
    case Obtain =>
      var (pool, r) := Get(s.n.pool);
      s.(n := s.n.(pool := pool), subs := s.subs[t := if r.Some? then Obtained(me.fd, r.value) else Refused])
    case Prepare =>
      s.(n := s.n.(blocks := s.n.blocks[me.iocb := Block(me.fd, Null)]), subs := s.subs[t := Prepared(me.iocb)])
    case Arm(isNull) =>
      var data := if isNull then Null else Callback(s.nextRef);
      var n := s.n.(blocks := s.n.blocks[me.iocb := s.n.blocks[me.iocb].(data := data)],
                    live := if isNull then s.n.live else s.n.live + {s.nextRef});
      s.(n := n, nextRef := s.nextRef + 1, subs := s.subs[t := Armed(me.iocb)])
    case Accept => s.(inflight := s.inflight + {me.iocb}, subs := s.subs[t := Outside])
    case Reject => s.(subs := s.subs[t := Rejected(me.iocb)])
    case Disarm =>
      var data := s.n.blocks[me.iocb].data;
      s.(n := if data.Callback? then UnrefStep(s.n, data.ref) else s.n, subs := s.subs[t := Unarmed(me.iocb)])
    case GiveBack =>
      s.(n := PutStep(s.n, me.iocb), failed := s.failed + 1, subs := s.subs[t := Outside])
  }

  // ----- The kernel -----

  ghost predicate CompleteReady(s: State, i: Iocb) {
    i in s.inflight
  }

  /** The kernel keeps one slot of the ring free. */
  ghost predicate CompleteSafe(s: State, i: Iocb) {
    i in s.n.blocks && RingInv(s.ring) && |Queue(s.ring)| + 1 < |s.ring.slots|
  }

  ghost function CompleteApply(s: State, i: Iocb, res: int): (s': State)
    requires CompleteReady(s, i) && CompleteSafe(s, i)
  {
    s.(inflight := s.inflight - {i}, ring := Append(s.ring, Event(i, res)),
       completed := s.completed + [Describe(s.n.blocks, Event(i, res))])
  }

  // ----- The poller -----

  ghost predicate PollReady(s: State, a: PollAction) {
    var p := s.poller;
    match a
    case Start(min, max) => p.Idle? && (s.cfg.blocking ==> !s.closed && min == 1 && max == s.cfg.queueSize)
    case ReadHead => p.Calling?
    case ReadTail => p.GotHead?
    case CopySlot => p.Copying? && |p.copied| < p.available
    case Publish => p.Copying? && |p.copied| >= p.available
    case KernelReap(count) => p.Waiting? && RingInv(s.ring) && count <= |Queue(s.ring)| &&
      (count == 0 || count <= p.max)
    case KernelFail(_) => p.Waiting?
    case EventStep => p.Handling?
    case ReleaseAll => p.Returning?
    case Unlock => p.Stopping?
  }

  /** Every access stays inside the ring, the buffer of `queueSize` events, the
      pool array and allocated blocks. */
  ghost predicate PollSafe(s: State, a: PollAction)
    requires PollReady(s, a)
  {
    var p := s.poller;
    match a
    case CopySlot => p.head < |s.ring.slots| && |p.copied| < s.cfg.queueSize
    case Publish => |p.copied| <= s.cfg.queueSize && InBlocks(s.n.blocks, p.copied)
    case KernelReap(count) => count <= s.cfg.queueSize && InBlocks(s.n.blocks, Queue(s.ring)[..count])
    case EventStep =>
      && Indexed(s.n.pool)
      && p.i <= |p.evts|
      && (p.stage != Top ==> p.i < |p.evts|)
      && InBlocks(s.n.blocks, p.evts)
    case _ => |s.ring.slots| > 0
  }

  /** `ringio_get_events` after both indices are read. */
  ghost function AfterTail(s: State, min: int, max: int, head: nat): (p: Poller)
  {
    var nr := |s.ring.slots|;
    var available := Available(head, s.ring.tail, nr);
    if available >= min then
      if available == 0 then Handling([], 0, -1, Top)
      else if available >= max then Waiting(min, max)
      else Copying(available, NeedMod(head, available, nr), head, [])
    else Waiting(min, max)
  }

  /** A reap that returns `evts`: the head moves, the batch is recorded. */
  ghost function Reap(s: State, head: nat, evts: seq<Event>): (s': State)
    requires InBlocks(s.n.blocks, evts)
  {
    s.(ring := s.ring.(head := head), n := s.n.(log := s.n.log + [Reaped]),
       batches := s.batches + [DescribeAll(s.n.blocks, evts)],
       poller := Handling(evts, 0, -1, Top))
  }

  ghost function PollApply(s: State, a: PollAction): (s': State)
    requires PollReady(s, a) && PollSafe(s, a)
  {
    var p := s.poller;
    match a
    case Start(min, max) => s.(poller := Calling(min, max))
    case ReadHead =>
      s.(poller := if s.n.forceSysCall || !s.cfg.usableRing then Waiting(p.min, p.max) else GotHead(p.min, p.max,
        s.ring.head))
    case ReadTail =>
      var next := AfterTail(s, p.min, p.max, p.head);
      if next.Handling? then Reap(s, s.ring.head, []) else s.(poller := next)
    case CopySlot =>
      s.(poller := p.(copied := p.copied + [s.ring.slots[p.head]], head := NextHead(p.head, p.needMod, |s.ring.slots|)))
    case Publish => Reap(s, p.head, p.copied)
    case KernelReap(count) => Reap(s, Slot(s.ring.head, count, |s.ring.slots|), Queue(s.ring)[..count])
    case KernelFail(interrupted) =>
      s.(poller := if !s.cfg.blocking then Idle else if interrupted then Calling(1, s.cfg.queueSize) else Stopping)
    case EventStep => HandleStep(s)
    case ReleaseAll => s.(n := ReleaseStep(s.cfg, s.n, p.returned), poller := Idle)
    case Unlock => s.(poller := Idle)
  }

  /** One step on the current event, or the end of the batch. */
  ghost function HandleStep(s: State): (s': State)
    requires s.poller.Handling? && PollSafe(s, EventStep)
  {
    var p := s.poller;
    var next := p.(i := p.i + 1, stage := Top);
    match p.stage
    case Top =>
      if p.i == |p.evts| then
        s.(poller := if s.cfg.blocking then Calling(1, s.cfg.queueSize) else Returning(|p.evts|))
      else if !s.cfg.blocking then s.(poller := p.(stage := ArrayReport))
      else if s.n.blocks[p.evts[p.i].obj].fd == s.cfg.dumbFd then
        s.(n := PutStep(s.n, p.evts[p.i].obj), poller := Stopping)
      else s.(poller := p.(stage := Sync))
    case Sync =>
      var (n, last) := SyncStep(s.cfg, s.n, p.last, p.evts[p.i]);
      s.(n := n, poller := p.(last := last, stage := Report))
    case Report => s.(n := ReportStep(s.n, p.evts[p.i]), poller := p.(stage := Claim))
    case Claim =>
      var (n, data) := TakeStep(s.n, p.evts[p.i]);
      if data.Null? then s.(n := LatchStep(n), poller := next)
      else s.(n := n, poller := p.(stage := PutBack(data)))
    case PutBack(data) =>
      s.(n := PutStep(s.n, p.evts[p.i].obj), poller := if data.Callback? then p.(stage := Notify(data.ref)) else next)
    case Notify(ref) => s.(n := NotifyStep(s.n, ref), poller := p.(stage := Release(ref)))
    case Release(ref) => s.(n := ReleaseStep(s.cfg, s.n, 1), poller := p.(stage := Unref(ref)))
    case Unref(ref) => s.(n := UnrefStep(s.n, ref), poller := next)
    case ArrayReport => s.(n := ReportStep(s.n, p.evts[p.i]), poller := p.(stage := ArrayStore))
    case ArrayStore =>
      var data := s.n.blocks[p.evts[p.i].obj].data;
      if data.Callback? then s.(n := StoreStep(s.n, p.i, data.ref), poller := p.(stage := ArrayUnref(data.ref)))
      else s.(poller := p.(stage := ArrayPut))
    case ArrayUnref(ref) => s.(n := UnrefStep(s.n, ref), poller := p.(stage := ArrayPut))
    case ArrayPut => s.(n := PutStep(s.n, p.evts[p.i].obj), poller := next)
  }

  // ----- The closer -----

  ghost predicate CloseReady(s: State, a: CloseAction) {
    var c := s.closer;
    match a
    case Begin => c.Open?
    case Drain => c.Closing? && s.cfg.useSemaphore && s.n.permits >= s.cfg.queueSize
    case ObtainSentinel => c.Drained?
    case ReadySentinel => c.Took?
    case AcceptSentinel => c.Readied?
    case RejectSentinel => c.Readied?
    case ReturnSentinel => c.Unsent?
    case Join => c.Sent? && (s.cfg.blocking ==> s.poller.Idle?)
    case Sweep(count) => c.Joined? && RingInv(s.ring) && count <= |Queue(s.ring)| && count <= 1
    case ReleaseQueue => c.Swept?
    case Destroy => c.Quiesced?
  }

  ghost predicate CloseSafe(s: State, a: CloseAction)
    requires CloseReady(s, a)
  {
    && Indexed(s.n.pool)
    && (a.ReadySentinel? ==> s.closer.x in s.n.blocks)
    && (a.Sweep? ==> a.count <= s.cfg.queueSize && InBlocks(s.n.blocks, Queue(s.ring)[..a.count]))
  }

  ghost function CloseApply(s: State, a: CloseAction): (s': State)
    requires CloseReady(s, a) && CloseSafe(s, a)
  {
    var c := s.closer;
    match a
    case Begin => s.(closed := true, closer := Closing)
    case Drain => s.(n := s.n.(permits := s.n.permits - s.cfg.queueSize), closer := Drained)
    case ObtainSentinel =>
      var (pool, r) := Get(s.n.pool);
      s.(n := s.n.(pool := pool), closer := if r.Some? then Took(r.value) else NoSpace)
    case ReadySentinel =>
      s.(n := s.n.(blocks := s.n.blocks[c.x := Block(s.cfg.dumbFd, Sentinel)]), closer := Readied(c.x))
    case AcceptSentinel => s.(inflight := s.inflight + {c.x}, closer := Sent(c.x))
    case RejectSentinel => s.(closer := Unsent(c.x))
    case ReturnSentinel => s.(n := PutStep(s.n, c.x), closer := GaveUp)
    case Join => s.(closer := Joined(c.x))
    case Sweep(count) =>
      if count == 0 then s.(closer := Swept(c.x))
      else
        var e := Queue(s.ring)[0];
        s.(ring := s.ring.(head := Slot(s.ring.head, 1, |s.ring.slots|)),
           n := PutStep(s.n.(log := s.n.log + [Reaped]), e.obj),
           batches := s.batches + [DescribeAll(s.n.blocks, Queue(s.ring)[..1])],
           closer := Swept(c.x))
    case ReleaseQueue => s.(inflight := {}, closer := Quiesced(c.x))
    case Destroy => s.(closer := Destroyed(s.n.pool.slots))
  }

  // ----- Steps and runs -----

  /** `deleteContext` has not begun. */
  predicate Draining(c: Closer) {
    c.Open? || c.Closing? || c.Drained?
  }

  /** What the program owes that the code does not enforce: array polls take no
      lock and do not look at `closed`, so the caller keeps them out of
      `deleteContext`. */
  ghost predicate Orderly(s: State, a: Action) {
    !s.cfg.blocking ==>
      && (a.Poll? && a.poll.Start? ==> Draining(s.closer))
      && (a == Close(ObtainSentinel) ==> s.poller.Idle?)
  }

  /** What the code itself waits for. */
  ghost predicate Enabled(s: State, a: Action) {
    match a
    case Sub(t, sub) => SubReady(s, t, sub)
    case Complete(i, _) => CompleteReady(s, i)
    case Poll(poll) => PollReady(s, poll)
    case Close(close) => CloseReady(s, close)
    case SetForce(_) => true
  }

  ghost predicate Ready(s: State, a: Action) {
    Orderly(s, a) && Enabled(s, a)
  }

  ghost predicate Safe(s: State, a: Action)
    requires Ready(s, a)
  {
    match a
    case Sub(t, sub) => SubSafe(s, t, sub)
    case Complete(i, _) => CompleteSafe(s, i)
    case Poll(poll) => PollSafe(s, poll)
    case Close(close) => CloseSafe(s, close)
    case SetForce(_) => true
  }

  ghost function Apply(s: State, a: Action): (s': State)
    requires Ready(s, a) && Safe(s, a)
  {
    match a
    case Sub(t, sub) => SubApply(s, t, sub)
    case Complete(i, res) => CompleteApply(s, i, res)
    case Poll(poll) => PollApply(s, poll)
    case Close(close) => CloseApply(s, close)
    case SetForce(value) => s.(n := s.n.(forceSysCall := value))
  }

  /** A context fresh from `newContext`, before any thread uses it. */
  ghost predicate Init(s: State) {
    && 0 < s.cfg.queueSize < |s.ring.slots| <= TWO31
    && RingInv(s.ring) && s.ring.head == s.ring.tail
    && |s.n.pool.slots| == s.cfg.queueSize && NoDup(s.n.pool.slots)
    && s.n.pool.used == 0 && s.n.pool.put == 0 && s.n.pool.get == 0
    && s.n.blocks.Keys == Elements(s.n.pool.slots)
    && (s.cfg.useSemaphore ==> s.n.permits == s.cfg.queueSize)
    && s.n.live == {} && s.n.log == [] && s.inflight == {}
    && !s.closed && s.poller == Idle && s.closer == Open
    && (forall t :: t in s.subs ==> s.subs[t] == Outside)
    && s.failed == 0 && s.completed == [] && s.batches == []
  }

  /** `states[k + 1]` is `states[k]` after the action `acts[k]`. */
  ghost predicate IsRun(states: seq<State>, acts: seq<Action>) {
    && |states| == |acts| + 1
    && Init(states[0])
    && forall k :: 0 <= k < |acts| ==> StepAt(states, acts, k)
  }

  ghost predicate StepAt(states: seq<State>, acts: seq<Action>, k: nat)
    requires |states| == |acts| + 1 && k < |acts|
  {
    Ready(states[k], acts[k]) && Safe(states[k], acts[k]) && states[k + 1] == Apply(states[k], acts[k])
  }
}
