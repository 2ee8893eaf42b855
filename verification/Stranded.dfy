/** A submission that reaches `acquire()` too late is never served. */
module Stranded {
  import opened RingArithmetic
  import opened IocbPool
  import opened AioRing
  import opened Trace
  import opened Machine
  import opened Invariant
  import opened Runs
  import opened Guarantees
  import opened Extensions
  import opened Sentinel
  import opened Refusal
  import opened Closing

  /** The drain has succeeded. */
  predicate HasDrained(c: Closer) {
    c.Drained? || !Draining(c)
  }

  lemma NobodySubmits(s: State, t: Tid, a: SubAction)
    requires Inv(s) && HasDrained(s.closer)
    ensures !SubReady(s, t, a)
  {
    if s.closer.Drained? {
      DrainedPoller(s);
      SubHeldBack(s, t, a);
    } else {
      NoSubmissions(s, t, a);
    }
  }

  lemma CloseGoesForward(s: State, a: CloseAction)
    requires CloseReady(s, a) && CloseSafe(s, a) && HasDrained(s.closer)
    ensures CloseApply(s, a).subs == s.subs && HasDrained(CloseApply(s, a).closer)
  {
    hide Queue, RingInv, Get, Put, DescribeAll, InBlocks;
  }

  lemma PollKeepsSubs(s: State, a: PollAction)
    requires PollReady(s, a) && PollSafe(s, a)
    ensures PollApply(s, a).subs == s.subs
  {
    hide Queue, RingInv, Put, DescribeAll, InBlocks, I32, Available, NeedMod, NextHead;
  }

  lemma StepKeepsSubs(s: State, a: Action)
    requires Inv(s) && Ready(s, a) && Safe(s, a) && HasDrained(s.closer)
    ensures Apply(s, a).subs == s.subs && HasDrained(Apply(s, a).closer)
  {
    hide Inv, SubReady, SubSafe, SubApply, PollReady, PollSafe, PollApply, CloseReady, CloseSafe, CloseApply;
    match a
    case Sub(t, sub) => NobodySubmits(s, t, sub);
    case Complete(_, _) =>
    case Poll(poll) =>
      PollKeepsSubs(s, poll);
      PollKeepsCloser(s, poll);
    case Close(close) => CloseGoesForward(s, close);
    case SetForce(_) =>
  }

  lemma {:induction false} RunKeepsSubs(states: seq<State>, acts: seq<Action>, j: nat, k: nat)
    requires IsRun(states, acts) && j <= k <= |acts| && HasDrained(states[j].closer)
    ensures states[k].subs == states[j].subs && HasDrained(states[k].closer)
  {
    hide IsRun, Inv, Ready, Safe, Apply;
    if j < k {
      RunKeepsSubs(states, acts, j, k - 1);
      StepOf(states, acts, k - 1);
      StepKeepsSubs(states[k - 1], acts[k - 1]);
    }
  }

  /** From the drain on no submitter takes a step, for the rest of the run: the
      permits that would wake it are never released again.  The threads that
      stay in `acquire()` for ever are exactly those that had passed the check
      of `closed` and had no permit yet; all others are outside. */
  lemma LateSubmittersWait(states: seq<State>, acts: seq<Action>, j: nat, k: nat, t: Tid)
    requires IsRun(states, acts) && j <= k <= |acts| && HasDrained(states[j].closer) && t in states[j].subs
    ensures states[k].subs == states[j].subs
    ensures forall a :: !SubReady(states[k], t, a)
    ensures states[k].subs[t].Checked? || states[k].subs[t] == Outside
  {
    RunKeepsSubs(states, acts, j, k);
    StepInv(states, acts, k);
    hide IsRun, Inv, SubReady;
    forall a ensures !SubReady(states[k], t, a) {
      NobodySubmits(states[k], t, a);
    }
    RestingPlaces(states[k], t);
  }

  lemma StepInv(states: seq<State>, acts: seq<Action>, k: nat)
    requires IsRun(states, acts) && k <= |acts|
    ensures Inv(states[k])
  {
    hide IsRun, Inv;
    RunKeepsInv(states, acts, k);
  }

  lemma RestingPlaces(s: State, t: Tid)
    requires Inv(s) && HasDrained(s.closer) && t in s.subs
    ensures s.subs[t].Checked? || s.subs[t] == Outside
  {
    DrainedOthers(s);
    NobodyRefused(s, t);
    hide Inv, PlainPart;
    assert AtRest(s.subs[t]);
  }

  lemma NobodyRefused(s: State, t: Tid)
    requires Inv(s) && HasDrained(s.closer) && t in s.subs
    ensures s.subs[t] != Refused
  {
    if s.closer.Drained? { DrainedPoller(s); } else { ClosedWithPermitsGone(s); }
    if !Released(s.closer) {
      var own :| InvAt(s, own);
      hide Inv, FinalInv, Placed, Backed, DataPart, RefPart, OncePart, QueuePart, PlainPart, PermitPart, BatchPart,
        LogPart, PoolPart, PollerPart, ClosePart, DrainPart, Queue, RingInv;
      assert SubShape(s.cfg, s.n.blocks, s.subs[t]);
    } else {
      hide InvAt, Permutation, RefsOnce, LogOf, PlainPart, Flatten;
      assert SubShape(s.cfg, s.n.blocks, s.subs[t]);
    }
  }

  /** It happens in every context: a thread passes the check just before the
      close, and the drain takes every permit. */
  lemma LateSubmitterHappens(states: seq<State>, acts: seq<Action>, t: Tid, fd: int)
    requires IsRun(states, acts)
    requires var s := states[|acts|];
      && s.closer == Open && !s.closed && s.cfg.useSemaphore && s.n.permits >= s.cfg.queueSize
      && t in s.subs && s.subs[t] == Outside && RealFd(s.cfg, fd)
    ensures exists states': seq<State>, acts': seq<Action> ::
      && IsRun(states', acts') && states <= states' && acts <= acts'
      && states'[|acts'|].closer == Drained
      && t in states'[|acts'|].subs && states'[|acts'|].subs[t] == Checked(fd)
  {
    RunLength(states, acts);
    hide IsRun;
    var s1, a1 := SubStep(states, acts, t, Check(fd));
    hide SubReady, SubSafe, SubApply;
    var s2, a2 := DrainNow(s1, a1);
  }
}
