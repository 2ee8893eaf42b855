/** Making runs longer. */
module Extensions {
  import opened Machine
  import opened Invariant
  import opened Runs

  lemma RunLength(states: seq<State>, acts: seq<Action>)
    requires IsRun(states, acts)
    ensures |states| == |acts| + 1
  {
  }

  /** A run grows by any action that is ready: memory safety says it is safe. */
  lemma Extend(states: seq<State>, acts: seq<Action>, a: Action) returns (states': seq<State>, acts': seq<Action>)
    requires IsRun(states, acts) && Ready(states[|acts|], a)
    ensures Safe(states[|acts|], a)
    ensures IsRun(states', acts') && states <= states' && acts' == acts + [a]
    ensures |states'| == |acts'| + 1 && states'[|acts'|] == Apply(states[|acts|], a) && Inv(states'[|acts'|])
  {
    hide Inv, Ready, Safe, Apply, Init;
    MemorySafety(states, acts, |acts|, a);
    states', acts' := states + [Apply(states[|acts|], a)], acts + [a];
    forall k | 0 <= k < |acts'| ensures StepAt(states', acts', k) {
      if k < |acts| {
        assert StepAt(states, acts, k);
        assert states'[k] == states[k] && states'[k + 1] == states[k + 1] && acts'[k] == acts[k];
      }
    }
    assert states'[0] == states[0];
    RunKeepsInv(states', acts', |acts'|);
  }
}
