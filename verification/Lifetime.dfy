/** From `newContext` to the end of `deleteContext`: what the process owns. */
module Lifetime {
  import opened Circular
  import opened Options
  import opened IocbPool
  import opened AioRing
  import opened Machine
  import opened Guarantees
  import opened ContextHeap

  /** At the end of every run the loop of `iocb_destroy` frees what
      `newContext` allocated for the pool, each block once, and nothing else. */
  lemma DestructionRestoresHeap(states: seq<State>, acts: seq<Action>, k: nat, heap: set<Iocb>)
    requires IsRun(states, acts) && k <= |acts| && states[k].closer.Destroyed?
    requires heap !! Elements(states[0].n.pool.slots)
    ensures FreeAll(heap + Elements(states[0].n.pool.slots), states[k].closer.freed) == Some(heap)
  {
    ExactlyOnceDestruction(states, acts, k);
    hide IsRun;
    FreeAllExactly(heap + Elements(states[0].n.pool.slots), states[k].closer.freed);
  }

  /** The whole life of a context: opened by `NewContext`, used in any run that
      starts with the pool it made and ends in the destruction, and deleted with
      the array as that run left it.  The process is back where it was: every
      heap block, the queue and the reference to the Java object included. */
  method DeleteAfterRun(process: Process, theControl: Control, ghost states: seq<State>, ghost acts: seq<Action>,
                        ghost heap0: set<Addr>, ghost queues0: set<nat>, ghost refs0: nat)
    requires process.Valid() && process.Opened(theControl, heap0, queues0, refs0)
    requires IsRun(states, acts) && states[|acts|].closer.Destroyed?
    requires Elements(states[0].n.pool.slots) == theControl.blocks
    requires theControl.iocb[..] == states[|acts|].closer.freed
    modifies process
    ensures process.Valid()
    ensures process.heap == heap0 && process.queues == queues0 && process.thisRefs == refs0
  {
    ExactlyOnceDestruction(states, acts, |acts|);
    hide IsRun;
    process.Delete(theControl);
  }

  /** The state of the step system for a context fresh from `NewContext`, with a
      ring of its own and threads that have not called yet. */
  ghost function FreshState(cfg: Lifecycle.Config, pool: Pool, blocks: map<Iocb, Lifecycle.Block>, ring: Ring,
      threads: set<Tid>,
      nextRef: Lifecycle.Ref, force: bool): (s: State)
  {
    State(cfg, Lifecycle.Native(pool, blocks, if cfg.useSemaphore then cfg.queueSize else 0, {}, force, []), ring, {},
      false,
      map t | t in threads :: Outside, Idle, Open, nextRef, 0, [], [])
  }

  /** It is a state that runs start from, for any contents of the blocks and any
      empty ring that is large enough. */
  lemma NewContextStarts(cfg: Lifecycle.Config, c: Control, blocks: map<Iocb, Lifecycle.Block>, ring: Ring,
      threads: set<Tid>,
      nextRef: Lifecycle.Ref, force: bool)
    requires PoolInv(c.PoolOf(), c.blocks, {}) && c.iocbPut == 0 && c.iocbGet == 0 && c.queueSize == c.iocb.Length
    requires cfg.queueSize == c.queueSize && blocks.Keys == c.blocks
    requires RingInv(ring) && ring.head == ring.tail && c.queueSize < |ring.slots|
    ensures Init(FreshState(cfg, c.PoolOf(), blocks, ring, threads, nextRef, force))
  {
    AllFreeIsPermutation(c.PoolOf(), c.blocks);
  }
}
