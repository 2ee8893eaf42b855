/** From a submission to its completion: the descriptor and the callback that a
    thread hands in are the ones that the poller later syncs and notifies. */
module Origins {
  import opened Circular
  import opened Options
  import opened RingArithmetic
  import opened IocbPool
  import opened AioRing
  import opened Lifecycle
  import opened Trace
  import opened Machine
  import opened Invariant
  import opened Runs
  import opened Guarantees

  // ----- From the check to the arming -----

  /** If thread `t` is inside a submission it is one on file `fd`. */
  ghost predicate SubmitsOn(s: State, t: Tid, fd: int) {
    t in s.subs &&
    match s.subs[t]
    case Checked(f) => f == fd
    case Admitted(f) => f == fd
    case Obtained(f, _) => f == fd
    case Prepared(i) => i in s.n.blocks && s.n.blocks[i].fd == fd
    case _ => true
  }

  ghost predicate IsCheck(a: Action, t: Tid) {
    a.Sub? && a.t == t && a.sub.Check?
  }

  /** Nobody else holds the block that a thread holds. */
  lemma OwnBlock(s: State, t: Tid)
    requires Inv(s) && t in s.subs && SubHeld(s.subs[t]).Some?
    ensures var i := SubHeld(s.subs[t]).value.iocb;
      && i in s.n.blocks
      && (forall u :: u in s.subs && u != t && SubHeld(s.subs[u]).Some? ==> SubHeld(s.subs[u]).value.iocb != i)
      && (CloserHeld(s.closer).Some? ==> CloserHeld(s.closer).value.iocb != i)
  {
    NotReleased(s, t);
    var own :| InvAt(s, own);
    hide Inv, FinalInv, Backed, ShapePart, RefPart, OncePart, QueuePart, PlainPart, PermitPart, BatchPart, LogPart,
      PollerPart, PoolPart, ClosePart, DrainPart, Queue, RingInv, Listed, DataFits;
    assert SubPlaced(own, t, s.subs[t]);
    forall u | u in s.subs && u != t && SubHeld(s.subs[u]).Some?
      ensures SubHeld(s.subs[u]).value.iocb != SubHeld(s.subs[t]).value.iocb
    {
      assert SubPlaced(own, u, s.subs[u]);
    }
  }

  /** The files of the blocks after a step: only a preparation, of a submission
      or of the sentinel, writes one. */
  lemma PollKeepsFiles(s: State, a: PollAction)
    requires PollReady(s, a) && PollSafe(s, a)
    ensures var s' := PollApply(s, a);
      && s'.subs == s.subs && s'.n.blocks.Keys == s.n.blocks.Keys
      && forall i :: i in s.n.blocks ==> s'.n.blocks[i].fd == s.n.blocks[i].fd
  {
    hide Queue, RingInv, DescribeAll, InBlocks, AfterTail, NextHead;
    if a.EventStep? {
      EventKeepsFiles(s);
      hide HandleStep;
    } else {
      hide HandleStep;
    }
  }

  lemma EventKeepsFiles(s: State)
    requires PollReady(s, EventStep) && PollSafe(s, EventStep)
    ensures var s' := HandleStep(s);
      && s'.subs == s.subs && s'.n.blocks.Keys == s.n.blocks.Keys
      && forall i :: i in s.n.blocks ==> s'.n.blocks[i].fd == s.n.blocks[i].fd
  {
    hide Put, I32, Queue, RingInv;
  }

  lemma CloseKeepsFiles(s: State, a: CloseAction)
    requires CloseReady(s, a) && CloseSafe(s, a)
    ensures var s' := CloseApply(s, a);
      && s'.subs == s.subs && s'.n.blocks.Keys == s.n.blocks.Keys
      && forall i :: i in s.n.blocks && CloserHeld(s.closer) != Some(Held(i, false)) ==> s'.n.blocks[i] == s.n.blocks[i]
  {
    hide Queue, RingInv, DescribeAll, InBlocks, Get, Put;
  }

  lemma OwnStep(s: State, t: Tid, fd: int, a: SubAction)
    requires SubReady(s, t, a) && SubSafe(s, t, a) && SubmitsOn(s, t, fd) && !a.Check?
    ensures SubmitsOn(SubApply(s, t, a), t, fd)
  {
    hide Get, Put;
  }

  /** A submitter's step changes at most the block that the thread holds. */
  lemma SubTouches(s: State, u: Tid, a: SubAction)
    requires SubReady(s, u, a) && SubSafe(s, u, a)
    ensures var s' := SubApply(s, u, a);
      && (forall t :: t in s.subs && t != u ==> t in s'.subs && s'.subs[t] == s.subs[t])
      && s.n.blocks.Keys <= s'.n.blocks.Keys
      && forall i | i in s.n.blocks && s'.n.blocks[i] != s.n.blocks[i] ::
        SubHeld(s.subs[u]).Some? && SubHeld(s.subs[u]).value.iocb == i
  {
    hide Get, Put, Indexed;
  }

  lemma OtherStep(s: State, t: Tid, fd: int, u: Tid, a: SubAction)
    requires Inv(s) && SubReady(s, u, a) && SubSafe(s, u, a) && SubmitsOn(s, t, fd) && u != t
    ensures SubmitsOn(SubApply(s, u, a), t, fd)
  {
    if s.subs[t].Prepared? { OwnBlock(s, t); }
    hide Inv;
    SubTouches(s, u, a);
    assert u in s.subs;
    hide SubReady, SubSafe, SubApply;
  }

  lemma StaysOn(s: State, t: Tid, fd: int, a: Action)
    requires Inv(s) && Ready(s, a) && Safe(s, a) && SubmitsOn(s, t, fd) && !IsCheck(a, t)
    ensures SubmitsOn(Apply(s, a), t, fd)
  {
    hide Inv, SubReady, SubSafe, SubApply, PollReady, PollSafe, PollApply, CloseReady, CloseSafe, CloseApply;
    if SubHeld(s.subs[t]).Some? { OwnBlock(s, t); }
    match a
    case Sub(u, sub) => if u == t { OwnStep(s, t, fd, sub); } else { OtherStep(s, t, fd, u, sub); }
    case Complete(_, _) =>
    case Poll(poll) => PollKeepsFiles(s, poll);
    case Close(close) => CloseKeepsFiles(s, close);
    case SetForce(_) =>
  }

  lemma {:induction false} CheckedFile(states: seq<State>, acts: seq<Action>, j: nat, k: nat, t: Tid, fd: int)
    requires IsRun(states, acts) && j < k <= |acts| && acts[j] == Sub(t, Check(fd))
    requires forall m :: j < m < k ==> !IsCheck(acts[m], t)
    ensures SubmitsOn(states[k], t, fd)
  {
    hide IsRun, Inv, Safe;
    StepOf(states, acts, k - 1);
    if k == j + 1 {
      hide SubSafe;
    } else {
      CheckedFile(states, acts, j, k - 1, t, fd);
      hide Ready, Apply, SubmitsOn;
      StaysOn(states[k - 1], t, fd, acts[k - 1]);
    }
  }

  // ----- From the arming to the completion -----

  /** Whoever carries reference `r` does so for file `fd`. */
  ghost predicate FileOf(s: State, r: Ref, fd: int) {
    && RingInv(s.ring)
    && r < s.nextRef
    && (forall i :: TransitRef(s, i, r) ==> s.n.blocks[i].fd == fd)
    && (forall k :: 0 <= k < |s.completed| && s.completed[k].data == Callback(r) ==> s.completed[k].fd == fd)
  }

  /** No carrier of `r` appears and no file of one changes. */
  ghost predicate SameCarriers(s: State, s': State, r: Ref)
    requires RingInv(s.ring) && RingInv(s'.ring)
  {
    forall i :: TransitRef(s', i, r) ==> TransitRef(s, i, r) && s'.n.blocks[i].fd == s.n.blocks[i].fd
  }

  lemma SubCarriers(s: State, t: Tid, a: SubAction, r: Ref)
    requires Inv(s) && SubReady(s, t, a) && SubSafe(s, t, a) && RingInv(s.ring) && r < s.nextRef
    ensures var s' := SubApply(s, t, a);
      && s'.ring == s.ring && s'.completed == s.completed && s'.nextRef >= s.nextRef
      && SameCarriers(s, s', r)
  {
    hide Inv, Queue, RingInv, Get, Put, HasBlock, Unclaimed;
    var s' := SubApply(s, t, a);
    forall i | TransitRef(s', i, r) ensures TransitRef(s, i, r) && s'.n.blocks[i].fd == s.n.blocks[i].fd {
      if u :| u in s'.subs && SubHeld(s'.subs[u]) == Some(Held(i, true)) {
        assert u != t ==> s.subs[u] == s'.subs[u];
      }
    }
  }

  lemma CompleteCarriers(s: State, i: Iocb, res: int, r: Ref)
    requires CompleteReady(s, i) && CompleteSafe(s, i)
    ensures var s' := CompleteApply(s, i, res);
      && RingInv(s'.ring) && s'.completed == s.completed + [Describe(s.n.blocks, Event(i, res))]
      && s'.nextRef == s.nextRef && InTransit(s, i) && SameCarriers(s, s', r)
  {
    var s' := CompleteApply(s, i, res);
    AppendKeeps(s.ring, Event(i, res));
    hide Queue, RingInv, Append;
    forall j | TransitRef(s', j, r) ensures TransitRef(s, j, r) {
      if HasBlock(Queue(s'.ring), j) && j != i {
        var k :| 0 <= k < |Queue(s'.ring)| && Queue(s'.ring)[k].obj == j;
        assert Queue(s.ring)[k].obj == j;
      }
    }
  }

  lemma QuietCarriers(s: State, s': State, r: Ref)
    requires RingInv(s.ring) && s'.ring == s.ring && s'.subs == s.subs && s'.inflight == s.inflight
    requires s'.closer == s.closer && s'.n.blocks.Keys == s.n.blocks.Keys
    requires forall i :: i in s'.n.blocks && s'.n.blocks[i].data == Callback(r) ==> s'.n.blocks[i] == s.n.blocks[i]
    requires forall i | i in s'.n.blocks && s'.n.blocks[i].data == Callback(r) ::
      HasBlock(Unclaimed(s'.poller), i) ==> HasBlock(Unclaimed(s.poller), i)
    ensures SameCarriers(s, s', r)
  {
    hide Queue, HasBlock, Unclaimed;
  }

  /** One step on an event takes blocks off the batch, and data out of blocks. */
  lemma EventCarriers(s: State, r: Ref)
    requires PollReady(s, EventStep) && PollSafe(s, EventStep) && RingInv(s.ring)
    ensures var s' := HandleStep(s);
      && s'.ring == s.ring && s'.completed == s.completed && s'.nextRef == s.nextRef && SameCarriers(s, s', r)
  {
    EventFields(s);
    EventKeepsFiles(s);
    EventBlocks(s, r);
    EventShrinks(s);
    hide HandleStep;
    QuietCarriers(s, HandleStep(s), r);
  }

  lemma EventFields(s: State)
    requires PollReady(s, EventStep) && PollSafe(s, EventStep)
    ensures var s' := HandleStep(s);
      && s'.ring == s.ring && s'.inflight == s.inflight && s'.closer == s.closer
      && s'.completed == s.completed && s'.nextRef == s.nextRef && s'.closed == s.closed
  {
    hide SyncStep, ReportStep, TakeStep, LatchStep, PutStep, NotifyStep, ReleaseStep, UnrefStep, StoreStep, InBlocks;
  }

  lemma EventBlocks(s: State, r: Ref)
    requires PollReady(s, EventStep) && PollSafe(s, EventStep)
    ensures var blocks := HandleStep(s).n.blocks;
      forall i | i in blocks && blocks[i].data == Callback(r) :: i in s.n.blocks && blocks[i] == s.n.blocks[i]
  {
    hide Put, I32, Queue, RingInv;
    if s.poller.stage != Claim {
      assert HandleStep(s).n.blocks == s.n.blocks;
    }
  }

  lemma EventShrinks(s: State)
    requires PollReady(s, EventStep) && PollSafe(s, EventStep)
    ensures forall i :: HasBlock(Unclaimed(HandleStep(s).poller), i) ==> HasBlock(Unclaimed(s.poller), i)
  {
    EventGoesOn(s);
    hide PollSafe, HandleStep, FirstUnclaimed;
    var p, p' := s.poller, HandleStep(s).poller;
    if p'.Handling? {
      LaterIsFewer(p.evts, FirstUnclaimed(p.i, p.stage), FirstUnclaimed(p'.i, p'.stage));
    }
  }

  lemma EventGoesOn(s: State)
    requires PollReady(s, EventStep) && PollSafe(s, EventStep)
    ensures s.poller.Handling?
    ensures var p, p' := s.poller, HandleStep(s).poller;
      p'.Handling? ==> p'.evts == p.evts && FirstUnclaimed(p.i, p.stage) <= FirstUnclaimed(p'.i, p'.stage)
  {
    hide SyncStep, ReportStep, TakeStep, LatchStep, PutStep, NotifyStep, ReleaseStep, UnrefStep, StoreStep, InBlocks;
  }

  lemma LaterIsFewer(evts: seq<Event>, f: nat, f': nat)
    requires f <= f'
    ensures forall i :: HasBlock(From(evts, f'), i) ==> HasBlock(From(evts, f), i)
  {
    forall i | HasBlock(From(evts, f'), i) ensures HasBlock(From(evts, f), i) {
      var k :| 0 <= k < |From(evts, f')| && From(evts, f')[k].obj == i;
      assert From(evts, f)[k + f' - f].obj == i;
    }
  }

  /** A reap takes its events off the ring. */
  lemma ReapCarriers(s: State, head: nat, count: nat, r: Ref)
    requires RingInv(s.ring) && count <= |Queue(s.ring)| && head == Slot(s.ring.head, count, |s.ring.slots|)
    requires InBlocks(s.n.blocks, Queue(s.ring)[..count]) && Unclaimed(s.poller) == []
    ensures var s' := Reap(s, head, Queue(s.ring)[..count]);
      && RingInv(s'.ring) && s'.completed == s.completed && s'.nextRef == s.nextRef && SameCarriers(s, s', r)
  {
    var s' := Reap(s, head, Queue(s.ring)[..count]);
    PublishKeeps(s.ring, count);
    hide RingInv, DescribeAll;
    var q := Queue(s.ring);
    hide Queue;
    forall i | HasBlock(q[..count], i) || HasBlock(q[count..], i) ensures HasBlock(q, i) {
      if HasBlock(q[..count], i) {
        var k :| 0 <= k < count && q[..count][k].obj == i;
        assert q[k].obj == i;
      } else {
        var k :| 0 <= k < |q[count..]| && q[count..][k].obj == i;
        assert q[k + count].obj == i;
      }
    }
    assert From(q[..count], 0) == q[..count];
    hide HasBlock;
  }

  lemma PollCarriers(s: State, a: PollAction, r: Ref)
    requires Inv(s) && PollReady(s, a) && PollSafe(s, a) && RingInv(s.ring)
    ensures var s' := PollApply(s, a);
      && RingInv(s'.ring) && s'.completed == s.completed && s'.nextRef == s.nextRef && SameCarriers(s, s', r)
  {
    hide Inv, HandleStep, Reap, DescribeAll, NextHead, SameCarriers;
    var s' := PollApply(s, a);
    match a
    case EventStep => EventCarriers(s, r);
    case KernelReap(count) => ReapCarriers(s, Slot(s.ring.head, count, |s.ring.slots|), count, r);
    case Publish =>
      CopiedPrefix(s);
      ReapCarriers(s, s.poller.head, |s.poller.copied|, r);
    case ReadTail =>
      if AfterTail(s, s.poller.min, s.poller.max, s.poller.head).Handling? {
        assert Queue(s.ring)[..0] == [] && Slot(s.ring.head, 0, |s.ring.slots|) == s.ring.head;
        ReapCarriers(s, s.ring.head, 0, r);
      } else {
        QuietCarriers(s, s', r);
      }
    case _ => QuietCarriers(s, s', r);
  }

  lemma CloseCarriers(s: State, a: CloseAction, r: Ref)
    requires Inv(s) && CloseReady(s, a) && CloseSafe(s, a) && RingInv(s.ring)
    ensures var s' := CloseApply(s, a);
      && RingInv(s'.ring) && s'.completed == s.completed && s'.nextRef == s.nextRef && SameCarriers(s, s', r)
  {
    hide Inv, Get, Put, DescribeAll, Unclaimed;
    if a == Sweep(1) {
      PublishKeeps(s.ring, 1);
      SweepCarriers(s, r);
    } else {
      hide Queue, RingInv, HasBlock;
    }
  }

  lemma SweepCarriers(s: State, r: Ref)
    requires CloseReady(s, Sweep(1)) && CloseSafe(s, Sweep(1)) && RingInv(s.ring)
    requires var s' := CloseApply(s, Sweep(1)); RingInv(s'.ring) && Queue(s'.ring) == Queue(s.ring)[1..]
    ensures SameCarriers(s, CloseApply(s, Sweep(1)), r)
  {
    hide Get, Put, DescribeAll, Unclaimed, Queue, RingInv;
    var q := Queue(s.ring);
    forall i | HasBlock(q[1..], i) ensures HasBlock(q, i) {
      var k :| 0 <= k < |q[1..]| && q[1..][k].obj == i;
      assert q[k + 1].obj == i;
    }
    hide HasBlock;
  }

  lemma FileKept(s: State, r: Ref, fd: int, a: Action)
    requires Inv(s) && Ready(s, a) && Safe(s, a) && FileOf(s, r, fd)
    ensures FileOf(Apply(s, a), r, fd)
  {
    hide Inv, TransitRef, RingInv, SubReady, SubSafe, SubApply, PollReady, PollSafe, PollApply, CloseReady, CloseSafe,
      CloseApply, CompleteApply;
    match a
    case Sub(t, sub) => SubCarriers(s, t, sub, r);
    case Complete(i, res) =>
      CompleteCarriers(s, i, res, r);
      CompletedFile(s, i, res, r, fd);
    case Poll(poll) => PollCarriers(s, poll, r);
    case Close(close) => CloseCarriers(s, close, r);
    case SetForce(_) => QuietCarriers(s, Apply(s, a), r);
  }

  lemma CompletedFile(s: State, i: Iocb, res: int, r: Ref, fd: int)
    requires FileOf(s, r, fd) && InTransit(s, i) && i in s.n.blocks
    ensures var c := Describe(s.n.blocks, Event(i, res)); c.data == Callback(r) ==> c.fd == fd
  {
    assert s.n.blocks[i].data == Callback(r) ==> TransitRef(s, i, r);
    hide InTransit;
  }

  lemma {:induction false} FileStays(states: seq<State>, acts: seq<Action>, j: nat, k: nat, r: Ref, fd: int)
    requires IsRun(states, acts) && j <= k <= |acts| && FileOf(states[j], r, fd)
    ensures FileOf(states[k], r, fd)
  {
    hide IsRun, Inv, Ready, Safe, Apply, FileOf;
    if j < k {
      FileStays(states, acts, j, k - 1, r, fd);
      StepOf(states, acts, k - 1);
      FileKept(states[k - 1], r, fd, acts[k - 1]);
    }
  }

  /** Arming gives the block a reference that nobody has seen. */
  lemma ArmedBlock(s: State, t: Tid, fd: int)
    requires SubReady(s, t, Arm(false)) && SubSafe(s, t, Arm(false)) && SubmitsOn(s, t, fd)
    ensures s.subs[t].Prepared?
    ensures HoldsBlock(SubApply(s, t, Arm(false)), s.subs[t].iocb, Block(fd, Callback(s.nextRef)))
    ensures s.nextRef in SubApply(s, t, Arm(false)).n.live
  {
  }

  lemma ArmedCarriers(s: State, t: Tid, i: Iocb)
    requires SubReady(s, t, Arm(false)) && SubSafe(s, t, Arm(false)) && RingInv(s.ring)
    requires i != s.subs[t].iocb
    ensures TransitRef(SubApply(s, t, Arm(false)), i, s.nextRef) ==> TransitRef(s, i, s.nextRef)
  {
    hide Queue, RingInv, HasBlock, Unclaimed, Get, Put;
    var s' := SubApply(s, t, Arm(false));
    assert s'.subs[t] == Armed(s.subs[t].iocb);
    if u :| u in s'.subs && SubHeld(s'.subs[u]) == Some(Held(i, true)) {
      assert u != t && s.subs[u] == s'.subs[u];
    }
  }

  lemma ArmedFile(s: State, t: Tid, fd: int)
    requires Inv(s) && SubReady(s, t, Arm(false)) && SubSafe(s, t, Arm(false)) && SubmitsOn(s, t, fd)
    ensures s.nextRef !in s.n.live && FileOf(SubApply(s, t, Arm(false)), s.nextRef, fd)
  {
    NotReleased(s, t);
    var own :| InvAt(s, own);
    hide Inv, InvAt;
    NobodyCarriesNext(s, own);
    ArmedBlock(s, t, fd);
    hide SubSafe, Queue, RingInv;
    var s' := SubApply(s, t, Arm(false));
    forall i | TransitRef(s', i, s.nextRef) ensures s'.n.blocks[i].fd == fd {
      if i != s.subs[t].iocb { ArmedCarriers(s, t, i); }
    }
    hide TransitRef;
  }

  lemma NotReleased(s: State, t: Tid)
    requires Inv(s) && t in s.subs && SubHeld(s.subs[t]).Some?
    ensures !Released(s.closer)
  {
    hide InvAt, Permutation, RefsOnce, LogOf, PlainPart, Flatten, ShapePart;
  }

  lemma NobodyCarriesNext(s: State, own: Owners)
    requires InvAt(s, own)
    ensures RingInv(s.ring) && s.nextRef !in s.n.live
    ensures forall i :: !TransitRef(s, i, s.nextRef)
    ensures forall k :: 0 <= k < |s.completed| ==> s.completed[k].data != Callback(s.nextRef)
  {
    forall i ensures !TransitRef(s, i, s.nextRef) {
      TransitIsCarrying(s, own, i);
      hide Placed, Backed, ShapePart, DataPart, QueuePart, PlainPart, PermitPart, BatchPart, LogPart, PollerPart,
        PoolPart, ClosePart, DrainPart, Queue, RingInv, InTransit, RefsOnce;
      assert TransitRef(s, i, s.nextRef) ==> CarriesRef(s.n.blocks, own, i, s.nextRef);
    }
    hide Placed, Backed, ShapePart, DataPart, QueuePart, PlainPart, PermitPart, BatchPart, LogPart, PollerPart,
      PoolPart, ClosePart, DrainPart, Queue, RingInv, InTransit, RefsOnce;
  }

  ghost predicate HoldsBlock(s: State, i: Iocb, b: Block) {
    i in s.n.blocks && s.n.blocks[i] == b
  }

  /** A thread that passed the check with file `fd` and arms its block, with
      either polling mode, attaches a fresh live reference to its callback; and
      every completion that ever carries this reference is of file `fd`. */
  lemma SubmittedFile(states: seq<State>, acts: seq<Action>, j: nat, k: nat, m: nat, t: Tid, fd: int)
    requires IsRun(states, acts) && j < k < m <= |acts|
    requires acts[j] == Sub(t, Check(fd)) && acts[k] == Sub(t, Arm(false))
    requires forall x :: j < x < k ==> !IsCheck(acts[x], t)
    ensures var ref := states[k].nextRef;
      && ref !in states[k].n.live && ref in states[k + 1].n.live
      && t in states[k].subs && states[k].subs[t].Prepared?
      && HoldsBlock(states[k + 1], states[k].subs[t].iocb, Block(fd, Callback(ref)))
      && forall x | 0 <= x < |states[m].completed| && states[m].completed[x].data == Callback(ref) ::
        states[m].completed[x].fd == fd
  {
    hide IsRun, Inv, Ready, Safe, Apply, SubmitsOn, RingInv, TransitRef, HoldsBlock;
    CheckedFile(states, acts, j, k, t, fd);
    StepOf(states, acts, k);
    Arming(states[k], t, fd);
    FileStays(states, acts, k + 1, m, states[k].nextRef, fd);
  }

  lemma Arming(s: State, t: Tid, fd: int)
    requires Inv(s) && Ready(s, Sub(t, Arm(false))) && Safe(s, Sub(t, Arm(false))) && SubmitsOn(s, t, fd)
    ensures t in s.subs && s.subs[t].Prepared?
    ensures var s' := Apply(s, Sub(t, Arm(false)));
      && s.nextRef !in s.n.live && s.nextRef in s'.n.live
      && HoldsBlock(s', s.subs[t].iocb, Block(fd, Callback(s.nextRef)))
      && FileOf(s', s.nextRef, fd)
  {
    hide Inv, SubmitsOn, SubSafe, SubApply, HoldsBlock, FileOf;
    ArmedBlock(s, t, fd);
    ArmedFile(s, t, fd);
  }

  /** So with `useFdatasync` its `done` comes after an fdatasync of the file that
      the thread submitted on, later than the reap of its completion. */
  lemma DurableOnItsFile(states: seq<State>, acts: seq<Action>, j: nat, k: nat, m: nat, t: Tid, fd: int, x: nat)
    requires IsRun(states, acts) && j < k < m <= |acts|
    requires acts[j] == Sub(t, Check(fd)) && acts[k] == Sub(t, Arm(false))
    requires forall y :: j < y < k ==> !IsCheck(acts[y], t)
    requires states[m].cfg.blocking && states[m].cfg.useFdatasync
    requires x < |states[m].n.log| && states[m].n.log[x] == Done(states[k].nextRef)
    ensures SyncedSince(states[m].n.log, x, fd)
  {
    SubmittedFile(states, acts, j, k, m, t, fd);
    DurableBeforeDone(states, acts, m);
    var log, cs := states[m].n.log, states[m].completed;
    hide IsRun, SyncedSince;
    assert DurableAt(log, cs, x);
    var y :| 0 <= y < |cs| && cs[y].data == Callback(log[x].ref) && SyncedSince(log, x, cs[y].fd);
  }

  // ----- From the completion back to the submission -----

  predicate Inside(sub: Submitter) {
    !sub.Outside? && !sub.Refused?
  }

  /** `h` is the check that let thread `t` in, and it has not checked again since. */
  ghost predicate LetIn(states: seq<State>, acts: seq<Action>, h: nat, k: nat, t: Tid, fd: int)
    requires |states| == |acts| + 1 && k <= |acts|
  {
    && h < k
    && acts[h] == Sub(t, Check(fd)) && !states[h].closed && fd >= 0 && fd != states[h].cfg.dumbFd
    && forall x :: h < x < k ==> !IsCheck(acts[x], t)
  }

  lemma StartOf(states: seq<State>, acts: seq<Action>)
    requires IsRun(states, acts)
    ensures |states| == |acts| + 1
    ensures states[0].n.live == {} && states[0].completed == []
    ensures forall t :: t in states[0].subs ==> states[0].subs[t].Outside?
  {
    hide StepAt, RingInv, Elements, NoDup;
  }

  lemma EntersByCheck(s: State, t: Tid, a: Action)
    requires Ready(s, a) && Safe(s, a) && t in Apply(s, a).subs && Inside(Apply(s, a).subs[t])
    ensures t in s.subs
    ensures if Inside(s.subs[t]) then !IsCheck(a, t)
      else IsCheck(a, t) && a.sub.fd >= 0 && a.sub.fd != s.cfg.dumbFd && !s.closed
  {
    hide PollReady, PollSafe, PollApply, CloseReady, CloseSafe, CloseApply, Get, Put, Queue, RingInv;
    match a
    case Poll(poll) => PollKeepsFiles(s, poll);
    case Close(close) => CloseKeepsFiles(s, close);
    case _ =>
  }

  lemma {:induction false} LastCheck(states: seq<State>, acts: seq<Action>, k: nat, t: Tid) returns (h: nat, fd: int)
    requires IsRun(states, acts) && k <= |acts| && t in states[k].subs && Inside(states[k].subs[t])
    ensures LetIn(states, acts, h, k, t, fd)
  {
    hide IsRun, Inv, Ready, Safe, Apply;
    if k == 0 {
      StartOf(states, acts);
    } else {
      StepOf(states, acts, k - 1);
      var s, a := states[k - 1], acts[k - 1];
      EntersByCheck(s, t, a);
      if Inside(s.subs[t]) {
        h, fd := LastCheck(states, acts, k - 1, t);
      } else {
        h, fd := k - 1, a.sub.fd;
      }
    }
  }

  lemma LiveByArming(s: State, a: Action, r: Ref)
    requires Ready(s, a) && Safe(s, a) && r in Apply(s, a).n.live && r !in s.n.live
    ensures a.Sub? && a.sub == Arm(false) && r == s.nextRef
  {
    hide SubReady, SubSafe, SubApply, PollReady, PollSafe, PollApply, CloseReady, CloseSafe, CloseApply, Queue, RingInv;
    match a
    case Sub(t, sub) => SubLive(s, t, sub);
    case Poll(poll) => PollLive(s, poll);
    case Close(close) => CloseCompletes(s, close);
    case _ =>
  }

  lemma SubLive(s: State, t: Tid, a: SubAction)
    requires SubReady(s, t, a) && SubSafe(s, t, a)
    ensures SubApply(s, t, a).n.live <= s.n.live + (if a == Arm(false) then {s.nextRef} else {})
  {
    hide Get, Put, Indexed;
  }

  lemma PollLive(s: State, a: PollAction)
    requires PollReady(s, a) && PollSafe(s, a)
    ensures PollApply(s, a).n.live <= s.n.live
  {
    hide HandleStep, DescribeAll, InBlocks, Queue, RingInv, NextHead;
    if a.EventStep? { EventLive(s); }
  }

  lemma EventLive(s: State)
    requires PollReady(s, EventStep) && PollSafe(s, EventStep)
    ensures HandleStep(s).n.live <= s.n.live
  {
    hide Put, I32, InBlocks, Indexed;
  }

  lemma {:induction false} ArmingOf(states: seq<State>, acts: seq<Action>, k: nat, r: Ref) returns (j: nat, t: Tid)
    requires IsRun(states, acts) && k <= |acts| && r in states[k].n.live
    ensures j < k && acts[j] == Sub(t, Arm(false)) && states[j].nextRef == r
  {
    hide IsRun, Inv, Ready, Safe, Apply;
    if k == 0 {
      StartOf(states, acts);
    } else {
      StepOf(states, acts, k - 1);
      if r in states[k - 1].n.live {
        j, t := ArmingOf(states, acts, k - 1, r);
      } else {
        LiveByArming(states[k - 1], acts[k - 1], r);
        j, t := k - 1, acts[k - 1].t;
      }
    }
  }

  lemma OnlyTheKernelCompletes(s: State, a: Action)
    requires Inv(s) && Ready(s, a) && Safe(s, a) && Apply(s, a).completed != s.completed
    ensures a.Complete? && a.i in s.inflight && a.i in s.n.blocks
    ensures Apply(s, a).completed == s.completed + [Describe(s.n.blocks, Event(a.i, a.res))]
  {
    hide Inv, PollReady, PollSafe, PollApply, CloseReady, CloseSafe, CloseApply, Get, Put, Queue, RingInv;
    match a
    case Poll(poll) => PollCompletes(s, poll);
    case Close(close) => CloseCompletes(s, close);
    case _ =>
  }

  lemma PollCompletes(s: State, a: PollAction)
    requires PollReady(s, a) && PollSafe(s, a)
    ensures PollApply(s, a).completed == s.completed
  {
    hide HandleStep, DescribeAll, InBlocks, Queue, RingInv, NextHead;
    if a.EventStep? { EventFields(s); }
  }

  lemma CloseCompletes(s: State, a: CloseAction)
    requires CloseReady(s, a) && CloseSafe(s, a)
    ensures CloseApply(s, a).completed == s.completed && CloseApply(s, a).n.live == s.n.live
  {
    hide DescribeAll, InBlocks, Queue, RingInv, Get, Put;
  }

  /** Step `m` is the kernel's completion of what became entry `x`. */
  ghost predicate CompletedBy(states: seq<State>, acts: seq<Action>, m: nat, c: Completion)
    requires m < |acts| && m < |states|
  {
    && acts[m].Complete?
    && acts[m].i in states[m].inflight && acts[m].i in states[m].n.blocks
    && c == Describe(states[m].n.blocks, Event(acts[m].i, acts[m].res))
  }

  lemma {:induction false} CompletionOf(states: seq<State>, acts: seq<Action>, k: nat, x: nat) returns (m: nat)
    requires IsRun(states, acts) && k <= |acts| && x < |states[k].completed|
    ensures m < k && |states[m].completed| == x && CompletedBy(states, acts, m, states[k].completed[x])
    ensures acts[m].Complete? && acts[m].res == states[k].completed[x].res
  {
    hide IsRun, Inv, Ready, Safe, Apply;
    if k == 0 {
      StartOf(states, acts);
    } else {
      StepOf(states, acts, k - 1);
      var s, a := states[k - 1], acts[k - 1];
      if states[k].completed != s.completed { OnlyTheKernelCompletes(s, a); }
      if x < |s.completed| {
        m := CompletionOf(states, acts, k - 1, x);
      } else {
        m := k - 1;
      }
    }
  }

  lemma CompletedIsLive(states: seq<State>, acts: seq<Action>, m: nat, c: Completion)
    requires IsRun(states, acts) && m < |acts| && CompletedBy(states, acts, m, c) && c.data.Callback?
    ensures c.data.ref in states[m].n.live
  {
    var s, i := states[m], acts[m].i;
    RunKeepsInv(states, acts, m);
    NotReleasedInKernel(s, i);
    LiveReferences(states, acts, m, c.data.ref);
    assert TransitRef(s, i, c.data.ref);
  }

  lemma NotReleasedInKernel(s: State, i: Iocb)
    requires Inv(s) && i in s.inflight
    ensures !Released(s.closer)
  {
    hide InvAt, Permutation, RefsOnce, LogOf, PlainPart, Flatten, ShapePart;
  }

  lemma ArmsInside(states: seq<State>, acts: seq<Action>, j: nat, t: Tid)
    requires IsRun(states, acts) && j < |acts| && acts[j] == Sub(t, Arm(false))
    ensures t in states[j].subs && Inside(states[j].subs[t])
  {
    hide IsRun, Inv, Ready, Safe, Apply;
    StepOf(states, acts, j);
    ArmingInside(states[j], t);
  }

  lemma ArmingInside(s: State, t: Tid)
    requires Ready(s, Sub(t, Arm(false)))
    ensures t in s.subs && Inside(s.subs[t])
  {
    hide PollReady, CloseReady;
  }

  /** Every completion that carries a callback goes back to one submission: step
      `m` is the kernel's, with the result that is reported; step `j` is the
      arming with that very reference; step `h` is the last check of the same
      thread, taken while the context was open, and it names the file. */
  lemma CompletionHasOrigin(states: seq<State>, acts: seq<Action>, k: nat, x: nat)
      returns (h: nat, j: nat, m: nat, t: Tid)
    requires IsRun(states, acts) && k <= |acts| && x < |states[k].completed| && states[k].completed[x].data.Callback?
    ensures j < m < k && LetIn(states, acts, h, j, t, states[k].completed[x].fd)
    ensures acts[j] == Sub(t, Arm(false)) && Callback(states[j].nextRef) == states[k].completed[x].data
    ensures acts[m].Complete? && acts[m].res == states[k].completed[x].res && |states[m].completed| == x
  {
    hide IsRun, Inv, Describe;
    StartOf(states, acts);
    var c := states[k].completed[x];
    m := CompletionOf(states, acts, k, x);
    CompletedIsLive(states, acts, m, c);
    j, t := ArmingOf(states, acts, m, c.data.ref);
    ArmsInside(states, acts, j, t);
    hide CompletedBy;
    var fd: int;
    h, fd := LastCheck(states, acts, j, t);
    SubmittedFile(states, acts, h, j, k, t, fd);
  }

  /** Once `closed` is set nobody is let in: whoever still completes an
      operation had checked before. */
  lemma {:induction false} ClosedAdmitsNobody(states: seq<State>, acts: seq<Action>, b: nat, k: nat)
    requires IsRun(states, acts) && b < k <= |acts| && acts[b] == Close(Begin)
    ensures states[k].closed
    ensures k < |acts| ==> !(acts[k].Sub? && acts[k].sub.Check?)
  {
    hide IsRun, Inv, Ready, Safe, Apply;
    StepOf(states, acts, k - 1);
    if k < |acts| { StepOf(states, acts, k); }
    if k > b + 1 { ClosedAdmitsNobody(states, acts, b, k - 1); }
    ClosedStays(states[k - 1], acts[k - 1]);
    if k < |acts| { ClosedShutsOut(states[k], acts[k]); }
  }

  lemma ClosedShutsOut(s: State, a: Action)
    requires Ready(s, a) && s.closed
    ensures !(a.Sub? && a.sub.Check?)
  {
    hide PollReady, CloseReady;
  }

  lemma ClosedStays(s: State, a: Action)
    requires Ready(s, a) && Safe(s, a) && (s.closed || a == Close(Begin))
    ensures Apply(s, a).closed
  {
    hide Get, Put, Queue, RingInv, HandleStep, DescribeAll, InBlocks, NextHead;
    if a == Poll(EventStep) { EventFields(s); }
  }

  // ----- Callbacks and their references -----

  /** The callback that a log entry is a call of, or hands to the program. */
  function Callee(e: Entry): (r: Option<Ref>) {
    match e
    case OnError(ref, _) => Some(ref)
    case Done(ref) => Some(ref)
    case Stored(_, ref) => Some(ref)
    case _ => None
  }

  ghost predicate HasLiveCallee(s: State, e: Entry) {
    Callee(e).Some? ==> Callee(e).value in s.n.live
  }

  /** What is added to the log refers to references that are live before and after. */
  ghost predicate CallsLive(s: State, s': State) {
    && s.n.log <= s'.n.log
    && forall x :: |s.n.log| <= x < |s'.n.log| ==> HasLiveCallee(s, s'.n.log[x]) && HasLiveCallee(s', s'.n.log[x])
  }

  /** The poller has `r` in hand at this stage. */
  ghost predicate InHand(s: State, r: Ref) {
    && s.poller.Handling? && s.poller.i < |s.poller.evts|
    && match s.poller.stage
       case Notify(ref) => ref == r
       case Report => Carries(s, r)
       case ArrayReport => Carries(s, r)
       case ArrayStore => Carries(s, r)
       case _ => false
  }

  ghost predicate Carries(s: State, r: Ref)
    requires s.poller.Handling? && s.poller.i < |s.poller.evts|
  {
    var i := s.poller.evts[s.poller.i].obj;
    i in s.n.blocks && s.n.blocks[i].data == Callback(r)
  }

  ghost predicate LogGrows(s: State, s': State) {
    s'.n.log == s.n.log || exists e :: s'.n.log == s.n.log + [e] && LogStep(s, s', e)
  }

  ghost predicate LogStep(s: State, s': State, e: Entry) {
    Callee(e).Some? ==> InHand(s, Callee(e).value) && s'.n.live == s.n.live
  }

  lemma EventLogs(s: State)
    requires PollReady(s, EventStep) && PollSafe(s, EventStep)
    ensures LogGrows(s, HandleStep(s))
  {
    hide Put, I32, Queue, RingInv;
    var s' := HandleStep(s);
    if s'.n.log != s.n.log {
      var e := s'.n.log[|s.n.log|];
      assert s'.n.log == s.n.log + [e] && LogStep(s, s', e);
    }
  }

  lemma ReapLogs(s: State, s': State)
    requires s'.n.log == s.n.log + [Reaped]
    ensures LogGrows(s, s')
  {
    assert LogStep(s, s', Reaped);
  }

  lemma PollLogs(s: State, a: PollAction)
    requires PollReady(s, a) && PollSafe(s, a)
    ensures LogGrows(s, PollApply(s, a))
  {
    hide HandleStep, DescribeAll, InBlocks, Queue, RingInv, NextHead, LogStep;
    var s' := PollApply(s, a);
    if a.EventStep? {
      EventLogs(s);
    } else if s'.n.log != s.n.log {
      ReapLogs(s, s');
    }
  }

  lemma CloseLogs(s: State, a: CloseAction)
    requires CloseReady(s, a) && CloseSafe(s, a)
    ensures LogGrows(s, CloseApply(s, a))
  {
    hide DescribeAll, InBlocks, Queue, RingInv, Get, Put, LogStep;
    if a == Sweep(1) { ReapLogs(s, CloseApply(s, a)); }
  }

  lemma SubLogs(s: State, t: Tid, a: SubAction)
    requires SubReady(s, t, a) && SubSafe(s, t, a)
    ensures SubApply(s, t, a).n.log == s.n.log
  {
    hide Get, Put, Indexed;
  }

  lemma StepLogs(s: State, a: Action)
    requires Ready(s, a) && Safe(s, a)
    ensures LogGrows(s, Apply(s, a))
  {
    hide SubReady, SubSafe, SubApply, PollReady, PollSafe, PollApply, CloseReady, CloseSafe, CloseApply, Queue, RingInv,
      LogStep;
    match a
    case Sub(t, sub) => SubLogs(s, t, sub);
    case Poll(poll) => PollLogs(s, poll);
    case Close(close) => CloseLogs(s, close);
    case _ =>
  }

  lemma CarriedInTransit(s: State, r: Ref)
    requires RingInv(s.ring) && InHand(s, r) && !s.poller.stage.Notify?
    ensures TransitRef(s, s.poller.evts[s.poller.i].obj, r)
  {
    hide Queue, RingInv;
    var p := s.poller;
    assert From(p.evts, p.i)[0] == p.evts[p.i];
    assert HasBlock(Unclaimed(p), p.evts[p.i].obj);
  }

  /** Every callback that the poller calls, or stores for the program, has a
      live reference: no step deletes it before the last use. */
  lemma CallbacksAreLive(states: seq<State>, acts: seq<Action>, k: nat)
    requires IsRun(states, acts) && k < |acts|
    ensures |states| == |acts| + 1 && CallsLive(states[k], states[k + 1])
  {
    hide IsRun, Inv, Ready, Safe, Apply, InHand, RingInv, TransitRef;
    StepOf(states, acts, k);
    var s, s' := states[k], states[k + 1];
    StepLogs(s, acts[k]);
    if s'.n.log != s.n.log {
      var e :| s'.n.log == s.n.log + [e] && LogStep(s, s', e);
      if Callee(e).Some? { CalleeIsLive(states, acts, k, Callee(e).value); }
    }
  }

  lemma CalleeIsLive(states: seq<State>, acts: seq<Action>, k: nat, r: Ref)
    requires IsRun(states, acts) && k < |acts| && InHand(states[k], r)
    ensures r in states[k].n.live
  {
    hide IsRun, Inv, RingInv, TransitRef;
    StartOf(states, acts);
    RunKeepsInv(states, acts, k);
    HandlingMeansOpen(states[k]);
    LiveReferences(states, acts, k, r);
    if !states[k].poller.stage.Notify? { CarriedInTransit(states[k], r); }
  }
}
