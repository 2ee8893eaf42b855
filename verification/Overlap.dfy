/** What `Machine.Orderly` is worth.  `poll` with an array takes no lock and does
    not look at `closed`, so only its callers keep it out of `deleteContext`.
    Here the actors do what the code lets them do: exactly the steps that
    `Orderly` forbids lead to a poll inside a freed context. */
module Overlap {
  import opened IocbPool
  import opened AioRing
  import opened Trace
  import opened Machine
  import opened Invariant
  import opened CloserSteps
  import opened Runs
  import opened Extensions
  import opened Sentinel
  import opened Closing

  // ----- Runs of the code as it is -----

  ghost predicate RawStep(s: State, a: Action, s': State) {
    match a
    case Sub(t, sub) => SubReady(s, t, sub) && SubSafe(s, t, sub) && s' == SubApply(s, t, sub)
    case Complete(i, res) => CompleteReady(s, i) && CompleteSafe(s, i) && s' == CompleteApply(s, i, res)
    case Poll(poll) => PollReady(s, poll) && PollSafe(s, poll) && s' == PollApply(s, poll)
    case Close(close) => CloseReady(s, close) && CloseSafe(s, close) && s' == CloseApply(s, close)
    case SetForce(value) => s' == s.(n := s.n.(forceSysCall := value))
  }

  ghost predicate IsRawRun(path: seq<State>, acts: seq<Action>) {
    |path| == |acts| + 1 && forall k :: 0 <= k < |acts| ==> RawStep(path[k], acts[k], path[k + 1])
  }

  /** The context is gone, and a poll under way takes its next step in it. */
  ghost predicate UsesFreed(s: State) {
    s.closer.Destroyed? && exists a: PollAction :: PollReady(s, a) && !a.Start?
  }

  /** From here the code can get there. */
  ghost predicate Fatal(s: State) {
    exists path: seq<State>, acts: seq<Action> :: IsRawRun(path, acts) && path[0] == s && UsesFreed(path[|acts|])
  }

  lemma PollUnderWay(s: State)
    ensures (exists a: PollAction :: PollReady(s, a) && !a.Start?) <==> s.poller != Idle
  {
    if s.poller != Idle {
      assert PollReady(s, NextOf(s.poller)) && !NextOf(s.poller).Start?;
    }
  }

  function NextOf(p: Poller): (a: PollAction) {
    match p
    case Idle => Unlock
    case Calling(_, _) => ReadHead
    case GotHead(_, _, _) => ReadTail
    case Copying(available, _, _, copied) => if |copied| < available then CopySlot else Publish
    case Waiting(_, _) => KernelFail(false)
    case Handling(_, _, _, _) => EventStep
    case Returning(_) => ReleaseAll
    case Stopping => Unlock
  }

  // ----- Nothing holds the close back -----

  /** `deleteContext` has its block and will reach its end, unless the sentinel
      is refused. */
  function NextClose(c: Closer): (a: CloseAction) {
    match c
    case Took(_) => ReadySentinel
    case Readied(_) => AcceptSentinel
    case Sent(_) => Join
    case Joined(_) => Sweep(0)
    case Swept(_) => ReleaseQueue
    case _ => Destroy
  }

  function StepsLeft(c: Closer): (n: nat) {
    match c
    case Took(_) => 6
    case Readied(_) => 5
    case Sent(_) => 4
    case Joined(_) => 3
    case Swept(_) => 2
    case Quiesced(_) => 1
    case _ => 0
  }

  ghost predicate Deleting(s: State) {
    && (StepsLeft(s.closer) > 0 || s.closer.Destroyed?)
    && (s.closer.Took? ==> s.closer.x in s.n.blocks)
    && !s.cfg.blocking && Indexed(s.n.pool) && RingInv(s.ring)
  }

  lemma DeleteGoesOn(s: State)
    requires Deleting(s) && !s.closer.Destroyed?
    ensures var a := NextClose(s.closer);
      && CloseReady(s, a) && CloseSafe(s, a)
      && var s' := CloseApply(s, a);
         Deleting(s') && StepsLeft(s'.closer) < StepsLeft(s.closer) && s'.poller == s.poller
  {
    hide Queue, DescribeAll;
    assert InBlocks(s.n.blocks, Queue(s.ring)[..0]);
    hide RingInv, Indexed;
  }

  lemma {:induction false} DeleteAlone(s: State) returns (path: seq<State>, acts: seq<Action>)
    requires Deleting(s)
    ensures IsRawRun(path, acts) && path[0] == s
    ensures path[|acts|].closer.Destroyed? && path[|acts|].poller == s.poller
    decreases StepsLeft(s.closer)
  {
    if s.closer.Destroyed? {
      path, acts := [s], [];
    } else {
      DeleteGoesOn(s);
      hide Deleting, StepsLeft, CloseReady, CloseSafe, CloseApply;
      var a := NextClose(s.closer);
      path, acts := DeleteAlone(CloseApply(s, a));
      Prepend(s, Close(a), path, acts);
      path, acts := [s] + path, [Close(a)] + acts;
    }
  }

  lemma Prepend(s: State, a: Action, path: seq<State>, acts: seq<Action>)
    requires IsRawRun(path, acts) && RawStep(s, a, path[0])
    ensures IsRawRun([s] + path, [a] + acts)
  {
    hide RawStep;
    var path', acts' := [s] + path, [a] + acts;
    forall k | 0 <= k < |acts'| ensures RawStep(path'[k], acts'[k], path'[k + 1]) {
      if k > 0 {
        assert RawStep(path[k - 1], acts[k - 1], path[k]);
      }
    }
  }

  /** A poll inside while `deleteContext` runs: nothing stops the close. */
  lemma PollInsideIsFatal(s: State)
    requires Deleting(s) && s.poller != Idle
    ensures Fatal(s)
  {
    var path, acts := DeleteAlone(s);
    PollUnderWay(path[|acts|]);
    hide IsRawRun, PollReady;
  }

  // ----- Where a refused sentinel ends -----

  predicate Refusing(c: Closer) {
    c.Unsent? || c.GaveUp?
  }

  lemma RefusingStays(s: State, a: Action, s': State)
    requires RawStep(s, a, s') && Refusing(s.closer)
    ensures Refusing(s'.closer)
  {
    hide PollReady, PollSafe, PollApply, SubReady, SubSafe, SubApply;
    match a
    case Sub(t, sub) => SubKeepsCloser(s, t, sub);
    case Complete(_, _) =>
    case Poll(poll) => PollKeepsCloser(s, poll);
    case Close(close) => RefusingCloses(s, close);
    case SetForce(_) =>
  }

  lemma RefusingCloses(s: State, a: CloseAction)
    requires CloseReady(s, a) && CloseSafe(s, a) && Refusing(s.closer)
    ensures Refusing(CloseApply(s, a).closer)
  {
    hide Queue, RingInv, Put;
  }

  lemma SubKeepsCloser(s: State, t: Tid, a: SubAction)
    requires SubReady(s, t, a) && SubSafe(s, t, a)
    ensures SubApply(s, t, a).closer == s.closer
  {
    hide Get, Put;
  }

  lemma {:induction false} RefusingForever(path: seq<State>, acts: seq<Action>, k: nat)
    requires IsRawRun(path, acts) && k <= |acts| && Refusing(path[0].closer)
    ensures Refusing(path[k].closer)
  {
    hide RawStep;
    if k > 0 {
      RefusingForever(path, acts, k - 1);
      RefusingStays(path[k - 1], acts[k - 1], path[k]);
    }
  }

  lemma RefusingIsHarmless(s: State)
    requires Refusing(s.closer)
    ensures !Fatal(s)
  {
    hide RawStep, PollReady;
    forall path: seq<State>, acts: seq<Action> | IsRawRun(path, acts) && path[0] == s
      ensures !UsesFreed(path[|acts|])
    {
      RefusingForever(path, acts, |acts|);
    }
  }

  // ----- The exact condition -----

  /** The two steps that `Orderly` forbids, at any state that an orderly run
      reaches: `deleteContext` beginning with a poll inside, and a poll starting
      later.  The code lets them happen; and from then on it can let a poll loose
      in a freed context, unless the kernel has already refused the sentinel. */
  lemma TrespassIsFatal(states: seq<State>, acts: seq<Action>, a: Action)
    requires IsRun(states, acts) && Enabled(states[|acts|], a) && !Orderly(states[|acts|], a)
    ensures exists s' :: RawStep(states[|acts|], a, s')
    ensures forall s' :: RawStep(states[|acts|], a, s') ==> (Fatal(s') <==> !Refusing(s'.closer))
  {
    var s := states[|acts|];
    assert |states| == |acts| + 1 by { RunLength(states, acts); }
    RunKeepsInv(states, acts, |acts|);
    hide IsRun, Inv, Fatal;
    if a == Close(ObtainSentinel) {
      BeginsTooSoon(s);
      assert RawStep(s, a, CloseApply(s, ObtainSentinel));
    } else {
      assert a.Poll? && a.poll.Start?;
      StartsTooLate(s, a.poll.min, a.poll.max);
      assert RawStep(s, a, PollApply(s, a.poll));
    }
  }

  /** `deleteContext` begins while a poll is inside. */
  lemma BeginsTooSoon(s: State)
    requires Inv(s) && s.closer == Drained && !s.cfg.blocking && s.poller != Idle
    ensures CloseReady(s, ObtainSentinel) && CloseSafe(s, ObtainSentinel)
    ensures var s' := CloseApply(s, ObtainSentinel); Fatal(s') && !Refusing(s'.closer)
  {
    DrainedPoller(s);
    FullPool(s);
    hide Inv, Queue, Get, AtRest, RingInv, Indexed, Fatal;
    PollInsideIsFatal(CloseApply(s, ObtainSentinel));
  }

  lemma FullPool(s: State)
    requires Inv(s) && s.closer == Drained
    ensures Indexed(s.n.pool) && Indexed(Get(s.n.pool).0)
    ensures Get(s.n.pool).1.Some? && Get(s.n.pool).1.value in s.n.blocks
  {
    var own :| InvAt(s, own);
    DrainedIsQuiet(s, own);
    assert s.cfg.queueSize == |s.n.pool.slots| > 0;
    hide Inv, InvAt, FinalInv;
    var x := SentinelBlock(s.cfg, s.n.pool, s.n.blocks.Keys);
  }

  /** A poll starts after `deleteContext` began. */
  lemma StartsTooLate(s: State, min: int, max: int)
    requires Inv(s) && !Draining(s.closer) && !s.cfg.blocking && s.poller == Idle
    ensures PollReady(s, Start(min, max)) && PollSafe(s, Start(min, max))
    ensures var s' := PollApply(s, Start(min, max)); s'.closer == s.closer && (Fatal(s') <==> !Refusing(s'.closer))
  {
    PastTheDrain(s);
    hide Inv, Fatal, RingInv, Indexed;
    var s' := s.(poller := Calling(min, max));
    assert PollApply(s, Start(min, max)) == s';
    if Refusing(s.closer) {
      RefusingIsHarmless(s');
    } else {
      PollInsideIsFatal(s');
    }
  }

  lemma PastTheDrain(s: State)
    requires Inv(s) && !Draining(s.closer)
    ensures Indexed(s.n.pool) && RingInv(s.ring)
    ensures s.closer != NoSpace
    ensures s.closer.Took? ==> s.closer.x in s.n.blocks
  {
    if !Released(s.closer) {
      var own :| InvAt(s, own);
      if s.closer.Took? { SentinelHeld(s, own); }
      hide Inv, FinalInv, Placed, Backed, ShapePart, DataPart, RefPart, OncePart, QueuePart, PlainPart, PermitPart,
        BatchPart, LogPart, PollerPart, DrainPart, Queue, Free, Partition;
    } else {
      hide InvAt, ShapePart, Permutation, RefsOnce, LogOf, PlainPart, Flatten;
    }
  }

  /** And conversely: while every step is orderly no poll ever is in a freed
      context.  So what a caller has to keep is exactly `Orderly`. */
  lemma OrderlyIsSafe(path: seq<State>, acts: seq<Action>, k: nat)
    requires IsRawRun(path, acts) && Init(path[0]) && k <= |acts|
    requires forall j :: 0 <= j < |acts| ==> Orderly(path[j], acts[j])
    ensures !UsesFreed(path[k])
  {
    hide IsRun, RawStep, Init, Orderly, PollReady, Inv;
    OrderlyIsRun(path, acts);
    RunKeepsInv(path, acts, k);
    PollUnderWay(path[k]);
    if path[k].closer.Destroyed? {
      DestroyedIsIdle(path[k]);
    }
  }

  lemma OrderlyIsRun(path: seq<State>, acts: seq<Action>)
    requires IsRawRun(path, acts) && Init(path[0])
    requires forall j :: 0 <= j < |acts| ==> Orderly(path[j], acts[j])
    ensures IsRun(path, acts)
  {
    hide Init;
    forall j | 0 <= j < |acts| ensures StepAt(path, acts, j) {
      OrderlyStep(path[j], acts[j], path[j + 1]);
      hide RawStep;
    }
  }

  lemma OrderlyStep(s: State, a: Action, s': State)
    requires RawStep(s, a, s') && Orderly(s, a)
    ensures Ready(s, a) && Safe(s, a) && s' == Apply(s, a)
  {
    hide SubReady, SubSafe, SubApply, CompleteReady, CompleteSafe, CompleteApply;
    hide PollReady, PollSafe, PollApply, CloseReady, CloseSafe, CloseApply, Orderly;
  }

  lemma DestroyedIsIdle(s: State)
    requires Inv(s) && s.closer.Destroyed?
    ensures s.poller == Idle
  {
    hide InvAt, ShapePart, Permutation, RefsOnce, LogOf, PlainPart, Flatten;
  }

  // ----- Both happen -----

  /** From the start of any context with array polls: a poll that waits for an
      event while the drain succeeds, and the close that begins all the same. */
  lemma BeginningTooSoonHappens(s: State)
    requires Init(s) && !s.cfg.blocking && s.cfg.useSemaphore
    ensures exists states: seq<State>, acts: seq<Action> ::
      && IsRun(states, acts) && states[0] == s
      && states[|acts|].closer == Drained && MustWait(states[|acts|].poller)
      && Enabled(states[|acts|], Close(ObtainSentinel)) && !Orderly(states[|acts|], Close(ObtainSentinel))
  {
    assert IsRun([s], []);
    hide IsRun, Inv, Init, PollSafe, RingInv;
    var s1, a1 := Extend([s], [], Poll(Start(1, 1)));
    assert s1[|a1|].closer == Open && s1[|a1|].poller == Calling(1, 1);
    hide Ready, Apply, CloseReady;
    var s2, a2 := DrainNow(s1, a1);
    StillEnabled(s2[|a2|]);
  }

  lemma StillEnabled(s: State)
    requires s.closer == Drained && !s.cfg.blocking && s.poller != Idle
    ensures Enabled(s, Close(ObtainSentinel)) && !Orderly(s, Close(ObtainSentinel))
  {
  }

  /** And a close that begins with nobody inside, and a poll that starts then. */
  lemma StartingTooLateHappens(s: State, min: int, max: int)
    requires Init(s) && !s.cfg.blocking && s.cfg.useSemaphore
    ensures exists states: seq<State>, acts: seq<Action> ::
      && IsRun(states, acts) && states[0] == s
      && states[|acts|].closer.Took? && states[|acts|].poller == Idle
      && Enabled(states[|acts|], Poll(Start(min, max))) && !Orderly(states[|acts|], Poll(Start(min, max)))
  {
    assert IsRun([s], []);
    hide IsRun, Inv, Init, CloseSafe, Get, Continues;
    var s2, a2 := DrainNow([s], []);
    hide CloseReady;
    var s3, a3 := TakeSentinel(s2, a2);
  }

  lemma TakeSentinel(states: seq<State>, acts: seq<Action>) returns (states': seq<State>, acts': seq<Action>)
    requires IsRun(states, acts) && states[|acts|].closer == Drained && states[|acts|].poller == Idle
    ensures IsRun(states', acts') && states <= states' && |states'| == |acts'| + 1
    ensures states'[|acts'|].closer.Took? && states'[|acts'|].poller == Idle &&
      states'[|acts'|].cfg == states[|acts|].cfg
  {
    hide IsRun, Inv, CloseSafe, Get, Continues;
    states', acts' := CloseStep(states, acts, ObtainSentinel);
    AlwaysSpace(states'[|acts'|]);
    Grows(states, acts, states', acts');
  }
}
