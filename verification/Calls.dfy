/** One call of `ringio_get_events` from its entry to its return, and the loop
    of `blockedPoll` around it. */
module Calls {
  import opened RingArithmetic
  import opened IocbPool
  import opened AioRing
  import opened Trace
  import opened Machine
  import opened Invariant
  import opened Guarantees

  // ----- One call -----

  predicate InCall(p: Poller) {
    p.Calling? || p.GotHead? || p.Copying? || p.Waiting?
  }

  /** What the call has looked at so far: `force` and the head at step `a`, the
      tail at step `b`. */
  datatype Looks = Entered | Looked(a: nat) | Read(a: nat, b: nat)

  /** At step `a` the call takes the ring. */
  ghost predicate MayRead(s: State) {
    !s.n.forceSysCall && s.cfg.usableRing
  }

  /** What the ring holds at step `b` can be served without a system call. */
  ghost predicate Serves(s: State, min: int, max: int)
    requires RingInv(s.ring)
  {
    var seen := |Queue(s.ring)|;
    min <= seen && (seen == 0 || seen < max)
  }

  ghost predicate SawHead(states: seq<State>, acts: seq<Action>, i: nat, a: nat, k: nat)
    requires |states| == |acts| + 1 && k <= |acts|
  {
    i <= a < k && acts[a] == Poll(ReadHead)
  }

  ghost predicate SawTail(states: seq<State>, acts: seq<Action>, i: nat, a: nat, b: nat, k: nat)
    requires |states| == |acts| + 1 && k <= |acts|
  {
    SawHead(states, acts, i, a, k) && a < b < k && acts[b] == Poll(ReadTail) && MayRead(states[a]) &&
      RingInv(states[b].ring)
  }

  /** Where a call for `min` to `max` events stands, given its looks. */
  ghost predicate Stands(states: seq<State>, acts: seq<Action>, i: nat, k: nat, min: int, max: int, l: Looks)
    requires |states| == |acts| + 1 && k <= |acts|
  {
    var p := states[k].poller;
    match l
    case Entered => p == Calling(min, max)
    case Looked(a) =>
      SawHead(states, acts, i, a, k) &&
      if MayRead(states[a]) then p.GotHead? && p.min == min && p.max == max else p == Waiting(min, max)
    case Read(a, b) =>
      SawTail(states, acts, i, a, b, k) &&
      if Serves(states[b], min, max) then
        0 < |Queue(states[b].ring)| < max && SnapshotHolds(states[b], states[k])
      else p == Waiting(min, max)
  }

  ghost predicate NoFailure(acts: seq<Action>, i: nat, k: nat)
    requires k <= |acts|
  {
    forall x :: i <= x < k ==> !(acts[x].Poll? && acts[x].poll.KernelFail?)
  }

  /** Everybody else leaves the poller alone. */
  lemma OthersLeavePoller(s: State, a: Action)
    requires Ready(s, a) && Safe(s, a) && !a.Poll?
    ensures Apply(s, a).poller == s.poller
  {
    hide SubApply, CloseApply, SubReady, CloseReady, SubSafe, CloseSafe, Queue, RingInv;
    match a
    case Sub(t, sub) => SubmitterFrame(s, t, sub);
    case Close(close) => CloserFrame(s, close);
    case _ =>
  }

  lemma HeadEffect(s: State, a: PollAction)
    requires s.poller.Calling? && PollReady(s, a) && PollSafe(s, a)
    ensures a == ReadHead
    ensures PollApply(s, a).poller ==
      if MayRead(s) then GotHead(s.poller.min, s.poller.max, s.ring.head) else Waiting(s.poller.min, s.poller.max)
  {
  }

  lemma TailRead(s: State, a: PollAction)
    requires Inv(s) && s.poller.GotHead? && PollReady(s, a) && PollSafe(s, a)
    ensures a == ReadTail && RingInv(s.ring)
    ensures var s', seen := PollApply(s, a), |Queue(s.ring)|;
      if !Serves(s, s.poller.min, s.poller.max) then s'.poller == Waiting(s.poller.min, s.poller.max)
      else if seen == 0 then s'.poller == Handling([], 0, -1, Top) && s'.ring == s.ring
      else s'.poller.Copying? && SnapshotHolds(s, s')
  {
    HeadIsRead(s);
    hide Inv;
    AvailableAt(s.ring.head, s.ring.tail, |s.ring.slots|);
    hide Available, NeedMod, DescribeAll;
  }

  lemma CopyEffect(s: State, a: PollAction)
    requires s.poller.Copying? && PollReady(s, a) && PollSafe(s, a)
    ensures a == CopySlot || a == Publish
    ensures a == CopySlot ==> PollApply(s, a).poller.Copying?
    ensures a == Publish ==> PollApply(s, a).poller.Handling?
  {
    hide NextHead, DescribeAll;
  }

  /** `io_getevents` hands over the oldest events, at most `max`. */
  ghost predicate KernelServes(s: State, s': State, count: nat, max: int) {
    && RingInv(s.ring) && count <= |Queue(s.ring)| && (count == 0 || count <= max)
    && s'.poller == Handling(Queue(s.ring)[..count], 0, -1, Top)
  }

  lemma WaitEffect(s: State, a: PollAction)
    requires s.poller.Waiting? && PollReady(s, a) && PollSafe(s, a)
    ensures a.KernelFail? || a.KernelReap?
    ensures a.KernelFail? ==> !PollApply(s, a).poller.Handling?
    ensures a.KernelReap? ==> KernelServes(s, PollApply(s, a), a.count, s.poller.max)
  {
    hide DescribeAll;
  }

  /** One step inside the call. */
  lemma CallStep(states: seq<State>, acts: seq<Action>, i: nat, k: nat, min: int, max: int, l: Looks)
      returns (l': Looks)
    requires |states| == |acts| + 1 && i <= k < |acts| && Stands(states, acts, i, k, min, max, l)
    requires Inv(states[k]) && Ready(states[k], acts[k]) && Safe(states[k], acts[k])
    requires states[k + 1] == Apply(states[k], acts[k])
    requires InCall(states[k + 1].poller) && NoFailure(acts, k, k + 1)
    ensures Stands(states, acts, i, k + 1, min, max, l')
  {
    hide Inv, SubApply, CompleteApply, PollApply, CloseApply, SubReady, PollReady, CloseReady, SubSafe, CompleteSafe,
      PollSafe, CloseSafe, Queue, RingInv, MayRead;
    var s, a := states[k], acts[k];
    l' := l;
    if !a.Poll? {
      OthersLeavePoller(s, a);
      if l.Read? && Serves(states[l.b], min, max) { SnapshotStep(states[l.b], s, a); }
    } else if s.poller.Calling? {
      HeadEffect(s, a.poll);
      l' := Looked(k);
    } else if s.poller.GotHead? {
      TailRead(s, a.poll);
      l' := Read(l.a, k);
    } else if s.poller.Copying? {
      CopyEffect(s, a.poll);
      SnapshotStep(states[l.b], s, a);
    } else {
      WaitEffect(s, a.poll);
    }
  }

  lemma {:induction false} CallStands(states: seq<State>, acts: seq<Action>, i: nat, k: nat, min: int, max: int)
      returns (l: Looks)
    requires IsRun(states, acts) && i <= k <= |acts| && states[i].poller == Calling(min, max)
    requires forall x :: i <= x <= k ==> InCall(states[x].poller)
    requires NoFailure(acts, i, k)
    ensures |states| == |acts| + 1 && Stands(states, acts, i, k, min, max, l)
  {
    hide IsRun, Inv, Ready, Safe, Apply, Stands;
    if k == i {
      l := Entered;
      CallEnters(states, acts, i, min, max);
    } else {
      StepOf(states, acts, k - 1);
      l := CallStands(states, acts, i, k - 1, min, max);
      l := CallStep(states, acts, i, k - 1, min, max, l);
    }
  }

  lemma CallEnters(states: seq<State>, acts: seq<Action>, i: nat, min: int, max: int)
    requires IsRun(states, acts) && i <= |acts| && states[i].poller == Calling(min, max)
    ensures |states| == |acts| + 1 && Stands(states, acts, i, i, min, max, Entered)
  {
    hide Init, StepAt;
  }

  /** Step `k` ends the call: in user space, with everything the ring held when
      its tail was read; or by the kernel, with the oldest it chooses. */
  ghost predicate Served(states: seq<State>, acts: seq<Action>, i: nat, k: nat, min: int, max: int, l: Looks)
    requires |states| == |acts| + 1 && k < |acts| && states[k + 1].poller.Handling?
  {
    var evts := states[k + 1].poller.evts;
    match l
    case Entered => false
    case Looked(a) => SawHead(states, acts, i, a, k) && !MayRead(states[a]) && ByKernel(states, acts, k, max)
    case Read(a, b) =>
      SawTail(states, acts, i, a, b, k + 1) &&
      if Serves(states[b], min, max) then !KernelReaps(acts[k]) && evts == Queue(states[b].ring)
      else ByKernel(states, acts, k, max)
  }

  predicate KernelReaps(a: Action) {
    a.Poll? && a.poll.KernelReap?
  }

  ghost predicate ByKernel(states: seq<State>, acts: seq<Action>, k: nat, max: int)
    requires |states| == |acts| + 1 && k < |acts|
  {
    KernelReaps(acts[k]) && KernelServes(states[k], states[k + 1], acts[k].poll.count, max)
  }

  lemma CallEnd(states: seq<State>, acts: seq<Action>, i: nat, k: nat, min: int, max: int, l: Looks)
      returns (l': Looks)
    requires |states| == |acts| + 1 && i <= k < |acts| && Stands(states, acts, i, k, min, max, l)
    requires Inv(states[k]) && Ready(states[k], acts[k]) && Safe(states[k], acts[k])
    requires states[k + 1] == Apply(states[k], acts[k]) && states[k + 1].poller.Handling?
    ensures Served(states, acts, i, k, min, max, l')
  {
    hide Inv, SubApply, CompleteApply, PollApply, CloseApply, SubReady, PollReady, CloseReady, SubSafe, CompleteSafe,
      PollSafe, CloseSafe, Queue, RingInv, MayRead;
    var s, a := states[k], acts[k];
    l' := l;
    if !a.Poll? {
      OthersLeavePoller(s, a);
    } else if s.poller.Calling? {
      HeadEffect(s, a.poll);
    } else if s.poller.GotHead? {
      TailRead(s, a.poll);
      l' := Read(l.a, k);
    } else if s.poller.Copying? {
      CopyEffect(s, a.poll);
      PublishedBatch(states[l.b], s);
    } else {
      WaitEffect(s, a.poll);
    }
  }

  /** Every call for `min` to `max` events that returns a batch, whatever the
      other threads and the kernel do meanwhile: it is served in user space if
      and only if, when it read `head`, the ring was usable and not forced off,
      and what it saw at its read of `tail` was at least `min` and either
      nothing or less than `max`; then the batch is exactly what it saw.
      Otherwise the kernel serves it, and in no case is a nonempty batch larger
      than `max`. */
  lemma CallIsServed(states: seq<State>, acts: seq<Action>, i: nat, k: nat, min: int, max: int) returns (l: Looks)
    requires IsRun(states, acts) && i <= k < |acts| && states[i].poller == Calling(min, max)
    requires forall x :: i <= x <= k ==> InCall(states[x].poller)
    requires NoFailure(acts, i, k)
    requires states[k + 1].poller.Handling?
    ensures |states| == |acts| + 1 && Served(states, acts, i, k, min, max, l)
    ensures states[k + 1].poller.evts == [] || |states[k + 1].poller.evts| <= max
  {
    hide IsRun, Inv, Ready, Safe, Apply, Stands, MayRead, RingInv, Queue, SnapshotHolds;
    l := CallStands(states, acts, i, k, min, max);
    StepOf(states, acts, k);
    l := CallEnd(states, acts, i, k, min, max, l);
  }

  /** So it is for the poll that a program starts with `min` and `max`. */
  lemma PollIsServed(states: seq<State>, acts: seq<Action>, j: nat, k: nat, min: int, max: int) returns (l: Looks)
    requires IsRun(states, acts) && j < k < |acts| && acts[j] == Poll(Start(min, max))
    requires forall x :: j < x <= k ==> InCall(states[x].poller)
    requires NoFailure(acts, j + 1, k)
    requires states[k + 1].poller.Handling?
    ensures |states| == |acts| + 1 && Served(states, acts, j + 1, k, min, max, l)
    ensures states[k + 1].poller.evts == [] || |states[k + 1].poller.evts| <= max
  {
    hide IsRun, Inv, Ready, Safe, Apply, Served;
    StepOf(states, acts, j);
    StartEffect(states[j], min, max);
    l := CallIsServed(states, acts, j + 1, k, min, max);
  }

  lemma StartEffect(s: State, min: int, max: int)
    requires Ready(s, Poll(Start(min, max))) && Safe(s, Poll(Start(min, max)))
    ensures Apply(s, Poll(Start(min, max))) == s.(poller := Calling(min, max))
  {
  }

  // ----- The loop of `blockedPoll` -----

  ghost predicate OnDumbFile(s: State) {
    && s.poller.Handling? && s.poller.stage.Top? && s.poller.i < |s.poller.evts|
    && s.poller.evts[s.poller.i].obj in s.n.blocks
    && s.n.blocks[s.poller.evts[s.poller.i].obj].fd == s.cfg.dumbFd
  }

  /** What ends the loop: an error of the kernel other than an interrupt, or an
      event on the dumb file. */
  ghost predicate Stops(s: State, a: Action) {
    a == Poll(KernelFail(false)) || (a == Poll(EventStep) && OnDumbFile(s))
  }

  predicate Looping(p: Poller) {
    !p.Idle? && !p.Stopping? && !p.Returning?
  }

  predicate Starts(a: Action) {
    a.Poll? && a.poll.Start?
  }

  /** A call of the loop asks for one event at least and `queueSize` at most. */
  lemma LoopingPart(s: State)
    requires Inv(s) && s.cfg.blocking
    ensures !s.poller.Returning?
    ensures s.poller.Calling? || s.poller.GotHead? || s.poller.Waiting? ==>
      s.poller.min == 1 && s.poller.max == s.cfg.queueSize
  {
    if !Released(s.closer) {
      hide Inv, FinalInv;
      var own :| InvAt(s, own);
      hide Placed, Backed, ShapePart, DataPart, RefPart, OncePart, QueuePart, PlainPart, PermitPart, LogPart, PoolPart,
        DrainPart, ClosePart, Queue, RingInv;
    } else {
      hide InvAt, LogOf, Flatten, Permutation, ShapePart, PlainPart, RefsOnce;
    }
  }

  lemma LoopEvent(s: State)
    requires s.cfg.blocking && PollReady(s, EventStep) && PollSafe(s, EventStep)
    ensures if OnDumbFile(s) then HandleStep(s).poller == Stopping
      else HandleStep(s).poller.Handling? || HandleStep(s).poller == Calling(1, s.cfg.queueSize)
  {
    hide Put, I32, Queue, RingInv;
  }

  lemma LoopPoll(s: State, a: PollAction)
    requires s.cfg.blocking && PollReady(s, a) && PollSafe(s, a) && !a.Start? && !s.poller.Returning?
    ensures Looping(s.poller) ==>
      var p := PollApply(s, a).poller; if Stops(s, Poll(a)) then p == Stopping else Looping(p)
    ensures !Looping(s.poller) ==> a == Unlock && PollApply(s, a) == s.(poller := Idle)
  {
    hide DescribeAll, NextHead, Available, NeedMod, Queue, RingInv, HandleStep, InBlocks;
    if a.EventStep? { LoopEvent(s); }
  }

  ghost predicate NoStop(states: seq<State>, acts: seq<Action>, j: nat, k: nat)
    requires k <= |acts| < |states|
  {
    forall x :: j < x < k ==> !Stops(states[x], acts[x])
  }

  lemma LoopStep(s: State, a: Action)
    requires Inv(s) && s.cfg.blocking && Ready(s, a) && Safe(s, a) && !Starts(a)
    ensures var p := Apply(s, a).poller;
      if Looping(s.poller) then (if Stops(s, a) then p == Stopping else Looping(p)) else !Looping(p) && !Stops(s, a)
    ensures !Looping(s.poller) && a.Poll? ==> a == Poll(Unlock) && Apply(s, a) == s.(poller := Idle)
  {
    LoopingPart(s);
    hide Inv, PollSafe, PollApply, SubReady, SubSafe, SubApply, CloseReady, CloseSafe, CloseApply;
    if a.Poll? {
      LoopPoll(s, a.poll);
    } else {
      OthersLeavePoller(s, a);
    }
  }

  lemma {:induction false} LoopStands(states: seq<State>, acts: seq<Action>, j: nat, k: nat)
    requires IsRun(states, acts) && j < k <= |acts| && Starts(acts[j]) && states[j].cfg.blocking
    requires forall x :: j < x < k ==> !Starts(acts[x])
    ensures |states| == |acts| + 1 && states[k].cfg == states[j].cfg
    ensures Looping(states[k].poller) <==> NoStop(states, acts, j, k)
  {
    hide IsRun, Inv, Ready, Safe, Apply, Stops;
    StepOf(states, acts, k - 1);
    RunKeepsBlocks(states, acts, j);
    RunKeepsBlocks(states, acts, k);
    if k == j + 1 {
      StartLoops(states[j], acts[j]);
    } else {
      RunKeepsBlocks(states, acts, k - 1);
      LoopStands(states, acts, j, k - 1);
      LoopStep(states[k - 1], acts[k - 1]);
      assert NoStop(states, acts, j, k) <==>
        NoStop(states, acts, j, k - 1) && !Stops(states[k - 1], acts[k - 1]);
    }
  }

  lemma StartLoops(s: State, a: Action)
    requires Ready(s, a) && Safe(s, a) && Starts(a)
    ensures Looping(Apply(s, a).poller)
  {
    StartEffect(s, a.poll.min, a.poll.max);
    hide Ready, Safe, Apply;
  }

  /** A failing `io_getevents` changes nothing but where the poller stands. */
  lemma FailEffect(s: State, interrupted: bool)
    requires Inv(s) && Ready(s, Poll(KernelFail(interrupted))) && Safe(s, Poll(KernelFail(interrupted)))
    ensures s.poller.Waiting?
    ensures Apply(s, Poll(KernelFail(interrupted))) == s.(poller :=
      if !s.cfg.blocking then Idle
      else if interrupted then Calling(s.poller.min, s.poller.max)
      else Stopping)
  {
    if s.cfg.blocking { LoopingPart(s); }
    hide Inv, Queue, RingInv;
  }

  /** The loop of the blocked poller in any run, from its start to step `k`: it
      goes on exactly as long as no event on the dumb file is met and no call
      fails with anything but an interrupt.  Each of its calls asks for one
      event at least and `queueSize` at most; an interrupt repeats the call with
      the same bounds and changes nothing else; and once the loop has stopped
      the poller does nothing more than release `pollLock`. */
  lemma BlockedLoop(states: seq<State>, acts: seq<Action>, j: nat, k: nat)
    requires IsRun(states, acts) && j < k < |acts| && Starts(acts[j]) && states[j].cfg.blocking
    requires forall x :: j < x <= k ==> !Starts(acts[x])
    ensures |states| == |acts| + 1
    ensures Looping(states[k].poller) <==> NoStop(states, acts, j, k)
    ensures !Looping(states[k].poller) && acts[k].Poll? ==>
      acts[k] == Poll(Unlock) && states[k + 1] == states[k].(poller := Idle)
    ensures Stops(states[k], acts[k]) ==> states[k + 1].poller == Stopping
    ensures var p := states[k].poller; p.Calling? || p.GotHead? || p.Waiting? ==>
      p.min == 1 && p.max == states[k].cfg.queueSize
    ensures acts[k] == Poll(KernelFail(true)) ==>
      states[k].poller == Waiting(1, states[k].cfg.queueSize) &&
      states[k + 1] == states[k].(poller := Calling(1, states[k].cfg.queueSize))
    ensures acts[k] == Poll(KernelFail(false)) ==> states[k + 1] == states[k].(poller := Stopping)
  {
    hide IsRun, Inv, Ready, Safe, Apply, Stops, Looping, NoStop;
    LoopStands(states, acts, j, k);
    StepOf(states, acts, k);
    LoopStep(states[k], acts[k]);
    LoopingPart(states[k]);
    if acts[k].Poll? && acts[k].poll.KernelFail? { FailEffect(states[k], acts[k].poll.interrupted); }
  }

  // ----- The end of a batch -----

  lemma EventKeepsBatch(s: State)
    requires PollReady(s, EventStep) && PollSafe(s, EventStep)
    ensures var p, p' := s.poller, HandleStep(s).poller;
      if p'.Handling? then p'.evts == p.evts
      else if OnDumbFile(s) && s.cfg.blocking then p' == Stopping
      else p.i == |p.evts| && p' == if s.cfg.blocking then Calling(1, s.cfg.queueSize) else Returning(|p.evts|)
  {
    hide Put, I32, Queue, RingInv;
  }

  lemma BatchStep(s: State, a: Action)
    requires Ready(s, a) && Safe(s, a) && s.poller.Handling?
    ensures var p, p' := s.poller, Apply(s, a).poller;
      if p'.Handling? then p'.evts == p.evts
      else if OnDumbFile(s) && s.cfg.blocking then p' == Stopping
      else p.i == |p.evts| && p' == if s.cfg.blocking then Calling(1, s.cfg.queueSize) else Returning(|p.evts|)
  {
    hide SubReady, SubSafe, SubApply, CloseReady, CloseSafe, CloseApply, PollSafe, HandleStep;
    if a.Poll? {
      EventKeepsBatch(s);
    } else {
      OthersLeavePoller(s, a);
    }
  }

  /** The poller leaves a batch only at its end, or for the event on the dumb
      file; an array poll then returns the number of events that it reaped. */
  lemma {:induction false} BatchIsFinished(states: seq<State>, acts: seq<Action>, i: nat, k: nat)
    requires IsRun(states, acts) && i <= k < |acts|
    requires forall x :: i <= x <= k ==> states[x].poller.Handling?
    ensures |states| == |acts| + 1 && states[k].poller.evts == states[i].poller.evts
    ensures var evts, p, p' := states[i].poller.evts, states[k].poller, states[k + 1].poller;
      if p'.Handling? then p'.evts == evts
      else if OnDumbFile(states[k]) && states[k].cfg.blocking then p' == Stopping
      else p.i == |evts| && p' == if states[k].cfg.blocking then Calling(1, states[k].cfg.queueSize) else
        Returning(|evts|)
  {
    hide IsRun, Inv, Ready, Safe, Apply, OnDumbFile;
    if i < k { BatchIsFinished(states, acts, i, k - 1); }
    StepOf(states, acts, k);
    BatchStep(states[k], acts[k]);
  }

  /** And `ioSpace.release` gives back that many permits; a poll whose
      `io_getevents` fails gives back none. */
  lemma ArrayPollReturns(states: seq<State>, acts: seq<Action>, k: nat)
    requires IsRun(states, acts) && k < |acts| && !states[k].cfg.blocking
    ensures |states| == |acts| + 1
    ensures acts[k] == Poll(ReleaseAll) ==>
      var s := states[k];
      && s.poller.Returning?
      && states[k + 1] == s.(poller := Idle,
        n := s.n.(permits := if s.cfg.useSemaphore then s.n.permits + s.poller.returned else s.n.permits))
    ensures acts[k].Poll? && acts[k].poll.KernelFail? ==> states[k + 1] == states[k].(poller := Idle)
  {
    hide IsRun, Inv, Ready, Safe, Apply;
    StepOf(states, acts, k);
    if acts[k].Poll? && acts[k].poll.KernelFail? { FailEffect(states[k], acts[k].poll.interrupted); }
    if acts[k] == Poll(ReleaseAll) { ReturnEffect(states[k]); }
  }

  lemma ReturnEffect(s: State)
    requires Ready(s, Poll(ReleaseAll)) && Safe(s, Poll(ReleaseAll))
    ensures s.poller.Returning?
    ensures Apply(s, Poll(ReleaseAll)) == s.(poller := Idle,
      n := s.n.(permits := if s.cfg.useSemaphore then s.n.permits + s.poller.returned else s.n.permits))
  {
  }
}
