/** Who waits for what: in every reachable state the code lets every actor go on
    unless it waits for one of the few things it is meant to wait for, and the
    kernel may give any answer. */
module Progress {
  import opened IocbPool
  import opened AioRing
  import opened Trace
  import opened Machine
  import opened Invariant
  import opened Runs
  import opened Guarantees
  import opened Extensions

  datatype Actor = Thread(t: Tid) | ThePoller | TheCloser

  ghost predicate By(a: Action, actor: Actor) {
    match actor
    case Thread(t) => a.Sub? && a.t == t
    case ThePoller => a.Poll?
    case TheCloser => a.Close?
  }

  ghost predicate CanMove(s: State, actor: Actor) {
    exists a :: By(a, actor) && Ready(s, a)
  }

  /** Everything that a submitter waits for: a permit, or, to come in, an open context. */
  ghost predicate ThreadFree(s: State, t: Tid) {
    t in s.subs &&
    match s.subs[t]
    case Outside => !s.closed
    case Refused => !s.closed
    case Checked(_) => s.cfg.useSemaphore ==> s.n.permits > 0
    case _ => true
  }

  /** Everything that keeps a poll from starting. */
  ghost predicate PollerFree(s: State) {
    s.poller.Idle? ==> if s.cfg.blocking then !s.closed else Draining(s.closer)
  }

  /** The closer waits for every submission to end, and for the poller. */
  ghost predicate CloserFree(s: State) {
    match s.closer
    case Closing => s.cfg.useSemaphore && NothingPending(s)
    case Drained => s.cfg.blocking || s.poller.Idle?
    case Sent(_) => s.cfg.blocking ==> s.poller.Idle?
    case NoSpace => false
    case GaveUp => false
    case Destroyed(_) => false
    case _ => true
  }

  /** No thread is between its permit and its block, no block is out, no permit
      is still to be released, and the kernel never refused a submission. */
  ghost predicate NothingPending(s: State) {
    && Admitteds(s.subs) == {}
    && s.n.pool.used == 0
    && PendingRelease(s.cfg, s.poller) == 0
    && s.failed == 0
  }

  ghost predicate Free(s: State, actor: Actor) {
    match actor
    case Thread(t) => ThreadFree(s, t)
    case ThePoller => PollerFree(s)
    case TheCloser => CloserFree(s)
  }

  lemma ThreadMoves(s: State, t: Tid) returns (a: SubAction)
    ensures ThreadFree(s, t) ==> SubReady(s, t, a)
    ensures forall b :: SubReady(s, t, b) ==> ThreadFree(s, t)
  {
    a := Acquire;
    if t in s.subs {
      match s.subs[t]
      case Outside => a := Check(if s.cfg.dumbFd == 0 then 1 else 0);
      case Refused => a := Check(if s.cfg.dumbFd == 0 then 1 else 0);
      case Checked(_) =>
      case Admitted(_) => a := Obtain;
      case Obtained(_, _) => a := Prepare;
      case Prepared(_) => a := Arm(false);
      case Armed(_) => a := Accept;
      case Rejected(_) => a := Disarm;
      case Unarmed(_) => a := GiveBack;
    }
  }

  lemma PollerMoves(s: State) returns (a: PollAction)
    ensures PollerFree(s) ==> PollReady(s, a) && Orderly(s, Poll(a))
    ensures forall b :: PollReady(s, b) && Orderly(s, Poll(b)) ==> PollerFree(s)
  {
    match s.poller
    case Idle => a := Start(1, s.cfg.queueSize);
    case Calling(_, _) => a := ReadHead;
    case GotHead(_, _, _) => a := ReadTail;
    case Copying(available, _, _, copied) => a := if |copied| < available then CopySlot else Publish;
    case Waiting(_, _) => a := KernelFail(true);
    case Handling(_, _, _, _) => a := EventStep;
    case Returning(_) => a := ReleaseAll;
    case Stopping => a := Unlock;
  }

  lemma CloserMoves(s: State) returns (a: CloseAction)
    requires s.closer == Closing ==> (CloseReady(s, Drain) <==> s.cfg.useSemaphore && NothingPending(s))
    requires s.closer.Joined? ==> RingInv(s.ring)
    ensures CloserFree(s) ==> CloseReady(s, a) && Orderly(s, Close(a))
    ensures forall b :: CloseReady(s, b) && Orderly(s, Close(b)) ==> CloserFree(s)
  {
    hide NothingPending, Queue, RingInv;
    match s.closer
    case Open => a := Begin;
    case Closing => a := Drain;
    case Drained => a := ObtainSentinel;
    case Took(_) => a := ReadySentinel;
    case Readied(_) => a := AcceptSentinel;
    case Unsent(_) => a := ReturnSentinel;
    case Sent(_) => a := Join;
    case Joined(_) => a := Sweep(0);
    case Swept(_) => a := ReleaseQueue;
    case Quiesced(_) => a := Destroy;
    case _ => a := Begin;
  }

  lemma JoinedRing(s: State)
    requires Inv(s) && s.closer.Joined?
    ensures RingInv(s.ring)
  {
    hide LogOf, Flatten, Permutation, PlainPart, RefsOnce, ShapePart, PoolPart, Placed, Backed, DataPart, RefPart,
      OncePart, QueuePart, PollerPart, BatchPart, LogPart, PermitPart, DrainPart, ClosePart, Queue;
  }

  lemma ThreadCanMove(s: State, t: Tid)
    ensures CanMove(s, Thread(t)) <==> ThreadFree(s, t)
  {
    var a := ThreadMoves(s, t);
    hide SubReady, PollReady, CloseReady, ThreadFree;
    assert By(Sub(t, a), Thread(t)) && (Ready(s, Sub(t, a)) <==> SubReady(s, t, a));
  }

  lemma PollerCanMove(s: State)
    ensures CanMove(s, ThePoller) <==> PollerFree(s)
  {
    var a := PollerMoves(s);
    hide SubReady, PollReady, CloseReady, PollerFree, Orderly;
    assert By(Poll(a), ThePoller) && (Ready(s, Poll(a)) <==> PollReady(s, a) && Orderly(s, Poll(a)));
  }

  lemma CloserCanMove(s: State)
    requires s.closer == Closing ==> (CloseReady(s, Drain) <==> s.cfg.useSemaphore && NothingPending(s))
    requires s.closer.Joined? ==> RingInv(s.ring)
    ensures CanMove(s, TheCloser) <==> CloserFree(s)
  {
    var a := CloserMoves(s);
    hide SubReady, PollReady, CloseReady, CloserFree, Orderly;
    assert By(Close(a), TheCloser) && (Ready(s, Close(a)) <==> CloseReady(s, a) && Orderly(s, Close(a)));
  }

  lemma DrainWaits(s: State)
    requires Inv(s) && s.closer == Closing
    ensures CloseReady(s, Drain) <==> s.cfg.useSemaphore && NothingPending(s)
  {
    if s.cfg.useSemaphore { DrainConditionAt(s); }
    hide Inv;
  }

  /** In every reachable state an actor of the code can take a step if and only if
      it does not wait for: a permit or an open context (a submitter), its turn
      (a poller), the return of everything, the poll inside or `pollLock` (the
      closer).  Nobody ever waits for anything else. */
  lemma NobodyElseWaits(states: seq<State>, acts: seq<Action>, k: nat, actor: Actor)
    requires IsRun(states, acts) && k <= |acts|
    ensures CanMove(states[k], actor) <==> Free(states[k], actor)
  {
    RunKeepsInv(states, acts, k);
    hide IsRun, Inv, CanMove, ThreadFree, PollerFree, CloserFree, CloseReady;
    var s := states[k];
    match actor
    case Thread(t) => ThreadCanMove(s, t);
    case ThePoller => PollerCanMove(s);
    case TheCloser =>
      if s.closer == Closing { DrainWaits(s); }
      if s.closer.Joined? { JoinedRing(s); }
      CloserCanMove(s);
  }

  // ----- The answers of the kernel -----

  /** What the kernel may do: accept or refuse a submission, complete what it
      accepted with any result, fail a waiting call, or serve it. */
  ghost predicate KernelMay(s: State, a: Action) {
    match a
    case Sub(t, sub) => t in s.subs && s.subs[t].Armed? && (sub == Accept || sub == Reject)
    case Complete(i, _) => i in s.inflight
    case Poll(poll) =>
      && s.poller.Waiting?
      && (poll.KernelFail? || (poll.KernelReap? && MayServe(s, poll.count, s.poller.max)))
    case Close(close) =>
      || (s.closer.Readied? && (close == AcceptSentinel || close == RejectSentinel))
      || (s.closer.Joined? && close.Sweep? && MayServe(s, close.count, 1))
    case SetForce(_) => false
  }

  ghost predicate MayServe(s: State, count: nat, max: int) {
    RingInv(s.ring) && count <= |Queue(s.ring)| && (count == 0 || count <= max)
  }

  /** Every run goes on with every answer that the kernel may give. */
  lemma KernelChoosesFreely(states: seq<State>, acts: seq<Action>, a: Action)
    returns (states': seq<State>, acts': seq<Action>)
    requires IsRun(states, acts) && KernelMay(states[|acts|], a)
    ensures Ready(states[|acts|], a) && Safe(states[|acts|], a)
    ensures IsRun(states', acts') && states <= states' && acts' == acts + [a]
  {
    MayIsReady(states[|acts|], a);
    hide Ready, Safe, Apply, Inv, KernelMay, IsRun;
    states', acts' := Extend(states, acts, a);
  }

  lemma MayIsReady(s: State, a: Action)
    requires KernelMay(s, a)
    ensures Ready(s, a)
  {
    hide Queue, RingInv;
  }
}
