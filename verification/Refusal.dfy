/** A submission that the kernel refuses strands its permit. */
module Refusal {
  import opened RingArithmetic
  import opened IocbPool
  import opened AioRing
  import opened Machine
  import opened Invariant
  import opened Guarantees
  import opened Extensions

  lemma FailedGrows(s: State, a: Action)
    requires Ready(s, a) && Safe(s, a)
    ensures Apply(s, a).failed >= s.failed
  {
    hide HandleStep, Queue, RingInv, DescribeAll, InBlocks, Get, Put, AfterTail;
    if a == Poll(EventStep) { EventKeepsFailed(s); }
  }

  lemma EventKeepsFailed(s: State)
    requires PollReady(s, EventStep) && PollSafe(s, EventStep)
    ensures HandleStep(s).failed == s.failed
  {
    hide Put, I32, Queue, RingInv;
  }

  /** Once the kernel has refused one submission, `tryAcquire(queueSize)` can
      never succeed again, whatever else happens: every close from then on
      times out. */
  lemma {:induction false} RefusalForbidsDrain(states: seq<State>, acts: seq<Action>, j: nat, k: nat)
    requires IsRun(states, acts) && j <= k <= |acts| && states[j].failed > 0
    ensures states[k].failed > 0 && !Ready(states[k], Close(Drain))
  {
    hide Inv, Safe, Apply;
    if j < k {
      RefusalForbidsDrain(states, acts, j, k - 1);
      StepOf(states, acts, k - 1);
      FailedGrows(states[k - 1], acts[k - 1]);
    }
    hide IsRun;
    if Ready(states[k], Close(Drain)) {
      DrainCondition(states, acts, k);
    }
  }

  lemma SubStep(states: seq<State>, acts: seq<Action>, t: Tid, a: SubAction)
    returns (states': seq<State>, acts': seq<Action>)
    requires IsRun(states, acts) && SubReady(states[|acts|], t, a)
    ensures SubSafe(states[|acts|], t, a)
    ensures IsRun(states', acts') && states <= states' && acts <= acts'
    ensures |states'| == |acts'| + 1 && states'[|acts'|] == SubApply(states[|acts|], t, a)
  {
    hide SubReady, SubSafe, SubApply, IsRun, Inv;
    states', acts' := Extend(states, acts, Sub(t, a));
  }

  /** And that can happen to any context in use: whenever a thread finds a
      permit, a refusal leads to a moment where every block it took is back and
      yet the drain is lost for good. */
  lemma RefusalStrandsPermit(states: seq<State>, acts: seq<Action>, t: Tid, fd: int)
    requires IsRun(states, acts)
    requires var s := states[|acts|];
      t in s.subs && s.subs[t] == Outside && !s.closed && s.cfg.useSemaphore && s.n.permits > 0 && RealFd(s.cfg, fd)
    ensures exists states': seq<State>, acts': seq<Action> ::
      && IsRun(states', acts') && states <= states' && acts <= acts'
      && states'[|acts'|].n.pool.used == states[|acts|].n.pool.used
      && states'[|acts'|].failed > 0
  {
    hide IsRun, Inv, SubSafe, Put, RingInv, Queue;
    var s0, a0 := SubStep(states, acts, t, Check(fd));
    var s1, a1 := SubStep(s0, a0, t, Acquire);
    var s2, a2 := SubStep(s1, a1, t, Obtain);
    AdmissionIsSound(s2, a2, |a2|, t);
    hide SubReady, SubApply;
    var s3, a3 := RefusedFrom(s2, a2, t);
  }

  lemma RefusedFrom(states: seq<State>, acts: seq<Action>, t: Tid) returns (states': seq<State>, acts': seq<Action>)
    requires IsRun(states, acts) && t in states[|acts|].subs && states[|acts|].subs[t].Obtained?
    ensures IsRun(states', acts') && states <= states' && acts <= acts'
    ensures states'[|acts'|].n.pool.used == states[|acts|].n.pool.used - 1
    ensures states'[|acts'|].failed > 0
  {
    hide IsRun, Inv, SubSafe, RingInv, Queue, Get;
    var s3, a3 := SubStep(states, acts, t, Prepare);
    var s4, a4 := SubStep(s3, a3, t, Arm(false));
    var s5, a5 := SubStep(s4, a4, t, Reject);
    var s6, a6 := SubStep(s5, a5, t, Disarm);
    states', acts' := SubStep(s6, a6, t, GiveBack);
  }
}
