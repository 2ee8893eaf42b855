/** Which memory a context owns: `newContext` with every way it can fail, and
    the destruction at the end of `deleteContext`. */
module ContextHeap {
  import opened Circular
  import opened Options
  import opened IocbPool

  /** A heap address; zero is NULL. */
  type Addr = nat

  const NULL: Addr := 0

  /** The step at which `newContext` gave up. */
  datatype Failure =
    | ControlBlock | Queue | Array | Block(i: nat) | PoolLock | PollLock | Events
    | Buffer    // `NewDirectByteBuffer` returned NULL

  /** The place of a step in `newContext` for `n` blocks. */
  function Order(f: Failure, n: nat): (k: nat) {
    match f
    case ControlBlock => 0
    case Queue => 1
    case Array => 2
    case Block(i) => 3 + i
    case PoolLock => 3 + n
    case PollLock => 4 + n
    case Events => 5 + n
    case Buffer => 6 + n
  }

  /** `fails` are the steps that would fail if they were reached; a queue of a
      size that is not positive always does. */
  ghost predicate Fails(queueSize: int, fails: set<Failure>, f: Failure) {
    && (f.Block? ==> f.i < queueSize)
    && (f in fails || (f == Queue && queueSize <= 0))
  }

  ghost predicate SomeFails(queueSize: int, fails: set<Failure>) {
    exists f :: Fails(queueSize, fails, f)
  }

  /** No step before place `k` fails. */
  ghost predicate FineBefore(queueSize: int, fails: set<Failure>, k: nat) {
    forall f :: Fails(queueSize, fails, f) ==> Order(f, if queueSize > 0 then queueSize else 0) >= k
  }

  /** `failed` is the first step that fails, if any does. */
  ghost predicate IsFirstFailure(queueSize: int, fails: set<Failure>, failed: Option<Failure>) {
    if failed.Some? then
      && Fails(queueSize, fails, failed.value)
      && FineBefore(queueSize, fails, Order(failed.value, if queueSize > 0 then queueSize else 0))
    else
      forall f :: !Fails(queueSize, fails, f)
  }

  // ----- What freeing a list of pointers does -----

  /** `free` on every element in turn; None when an element is not allocated at
      that moment, that is, freed twice or never allocated. */
  ghost function FreeAll(heap: set<Addr>, ps: seq<Addr>): (left: Option<set<Addr>>) {
    if ps == [] then Some(heap)
    else
      match FreeAll(heap, ps[..|ps| - 1])
      case None => None
      case Some(rest) => if ps[|ps| - 1] in rest then Some(rest - {ps[|ps| - 1]}) else None
  }

  /** Freeing a list is correct exactly when it lists allocated blocks without
      repetition, and then it frees exactly those. */
  lemma {:induction false} FreeAllExactly(heap: set<Addr>, ps: seq<Addr>)
    ensures FreeAll(heap, ps).Some? <==> NoDup(ps) && Elements(ps) <= heap
    ensures FreeAll(heap, ps).Some? ==> FreeAll(heap, ps).value == heap - Elements(ps)
  {
    if ps != [] {
      var init, p := ps[..|ps| - 1], ps[|ps| - 1];
      FreeAllExactly(heap, init);
      assert ps == init + [p];
      assert Elements(ps) == Elements(init) + {p};
      assert NoDup(ps) <==> NoDup(init) && p !in Elements(init);
    }
  }

  // ----- The context and the process -----

  /** `struct io_control`, as far as ownership goes. */
  class Control {
    const self: Addr            // the heap block the structure itself is in
    var ioContext: nat
    var pointers: Addr          // the heap block that `iocb` points to
    var iocb: array<Addr>       // what that block holds
    var events: Addr
    var queueSize: nat
    var iocbPut: nat
    var iocbGet: nat
    var used: int
    ghost var blocks: set<Addr> // the blocks that `newContext` allocated

    /** Fresh from `malloc`: `ioContext` is whatever the memory held. */
    constructor (self: Addr, garbage: nat)
      ensures this.self == self && ioContext == garbage && fresh(iocb)
    {
      this.self := self;
      ioContext, pointers, events, queueSize := garbage, NULL, NULL, 0;
      iocbPut, iocbGet, used := 0, 0, 0;
      iocb := new Addr[0];
      blocks := {};
    }

    ghost function PoolOf(): (p: Pool)
      reads this, iocb
    {
      Pool(iocb[..], used, iocbPut, iocbGet)
    }

    ghost function PoolBlocks(): (owned: set<Addr>)
      reads this`blocks, this`pointers
    {
      blocks + {self, pointers}
    }

    /** The heap blocks the context owns. */
    ghost function Footprint(): (owned: set<Addr>)
      reads this
    {
      PoolBlocks() + {events}
    }

    ghost predicate Separate()
      reads this
    {
      && self != pointers && self != events && pointers != events
      && self !in blocks && pointers !in blocks && events !in blocks
      && NULL !in Footprint()
    }
  }

  lemma DisjointSizes<T>(before: set<T>, blocks: seq<T>, a: T, b: T, c: T)
    requires NoDup(blocks) && a != b && a != c && b != c && a !in blocks && b !in blocks && c !in blocks
    requires (Elements(blocks) + {a, b} + {c}) !! before
    ensures |before + (Elements(blocks) + {a, b} + {c})| == |before| + |blocks| + 3
  {
    NoDupCard(blocks);
    assert Elements(blocks) + {a, b} + {c} == Elements(blocks) + {a, b, c};
    assert |Elements(blocks) + {a, b, c}| == |blocks| + 3;
    assert |before + (Elements(blocks) + {a, b, c})| == |before| + |Elements(blocks) + {a, b, c}|;
  }

  /** One step on: it was the first to fail, or the next one's turn has come. */
  lemma StepPassed(queueSize: int, fails: set<Failure>, f: Failure)
    requires f.Block? ==> f.i < queueSize
    requires FineBefore(queueSize, fails, Order(f, if queueSize > 0 then queueSize else 0))
    ensures Fails(queueSize, fails, f) <==> f in fails || (f == Queue && queueSize <= 0)
    ensures Fails(queueSize, fails, f) ==> IsFirstFailure(queueSize, fails, Some(f))
    ensures !Fails(queueSize, fails, f) ==>
      FineBefore(queueSize, fails, Order(f, if queueSize > 0 then queueSize else 0) + 1)
    ensures !Fails(queueSize, fails, f) && f == Buffer ==> IsFirstFailure(queueSize, fails, None)
    ensures !Fails(queueSize, fails, f) && f == Buffer ==> !SomeFails(queueSize, fails)
    ensures Fails(queueSize, fails, f) ==> SomeFails(queueSize, fails)
  {
  }

  lemma LatePassed(n: nat, fails: set<Failure>, f: Failure)
    requires n > 0 && (f == PoolLock || f == PollLock || f == Events || f == Buffer)
    requires FineBefore(n, fails, Order(f, n))
    ensures f in fails ==> IsFirstFailure(n, fails, Some(f)) && SomeFails(n, fails)
    ensures f !in fails ==> FineBefore(n, fails, Order(f, n) + 1)
    ensures f == Buffer && f !in fails ==> IsFirstFailure(n, fails, None) && !SomeFails(n, fails)
  {
    StepPassed(n, fails, f);
    hide FineBefore, Fails, SomeFails, IsFirstFailure;
  }

  class Process {
    var heap: set<Addr>
    var queues: set<nat>        // io contexts open in the kernel
    var thisRefs: nat           // global references that contexts keep to their Java objects

    ghost predicate Valid()
      reads this
    {
      NULL !in heap && 0 !in queues
    }

    constructor ()
      ensures Valid()
    {
      heap, queues, thisRefs := {}, {}, 0;
    }

    /** The process owns the pool of `c` over and above what it owned before. */
    ghost predicate Holds(c: Control, heap0: set<Addr>, queues0: set<nat>)
      reads this`heap, this`queues, c`ioContext, c`pointers, c`iocb, c`queueSize, c`blocks, c.iocb
    {
      HoldsIn(c, heap, queues, heap0, queues0)
    }

    /** The process owns the context `c` over and above what it owned before. */
    ghost predicate Opened(c: Control, heap0: set<Addr>, queues0: set<nat>, refs0: nat)
      reads this, c
    {
      && c.queueSize == c.iocb.Length
      && c.Separate()
      && c.Footprint() !! heap0 && heap == heap0 + c.Footprint()
      && c.ioContext !in queues0 && queues == queues0 + {c.ioContext}
      && thisRefs == refs0 + 1
    }

    static ghost predicate HoldsIn(c: Control, heap: set<Addr>, queues: set<nat>, heap0: set<Addr>, queues0: set<nat>)
      reads c`ioContext, c`pointers, c`iocb, c`queueSize, c`blocks, c.iocb
    {
      && c.queueSize == c.iocb.Length
      && NoDup(c.iocb[..]) && c.blocks == Elements(c.iocb[..])
      && c.self != c.pointers && c.self !in c.blocks && c.pointers !in c.blocks
      && c.PoolBlocks() !! heap0 && heap == heap0 + c.PoolBlocks()
      && c.ioContext !in queues0 && queues == queues0 + {c.ioContext}
    }

    // ----- The calls it makes -----

    /** Any number but zero that is not among `used`. */
    method Unused(used: set<nat>) returns (p: nat)
      ensures p != 0 && p !in used
    {
      p := *;
      if p == 0 || p in used {
        p := 1;
        ghost var seen: set<nat> := {};
        while p in used
          invariant p != 0 && seen <= used && forall x :: x in seen ==> x < p
          decreases |used| - |seen|
        {
          seen := seen + {p};
          SubsetCard(seen, used);
          p := p + 1;
        }
      }
    }

    /** An address not in use, or NULL when the allocation fails. */
    method Malloc(ok: bool) returns (p: Addr)
      modifies this`heap
      ensures p != NULL <==> ok
      ensures p == NULL ==> heap == old(heap)
      ensures p != NULL ==> p !in old(heap) && heap == old(heap) + {p}
    {
      p := NULL;
      if ok {
        p := Unused(heap);
        heap := heap + {p};
      }
    }

    /** `pthread_mutex_init`: zero, or an error number. */
    method MutexInit(ok: bool) returns (res: int)
      ensures res == 0 <==> ok
    {
      res := *;
      if ok {
        res := 0;
      } else if res == 0 {
        res := 11;
      }
    }

    /** Only an allocated block may be freed. */
    method Free(p: Addr)
      requires p in heap
      modifies this`heap
      ensures heap == old(heap) - {p}
    {
      heap := heap - {p};
    }

    /** `io_queue_init`: it refuses a size that is not positive before it writes
        the handle; for a positive size it clears the handle first. */
    method IoQueueInit(queueSize: int, handle: nat, ok: bool) returns (res: int, ioContext: nat)
      modifies this`queues
      ensures res == 0 <==> queueSize > 0 && ok
      ensures queueSize <= 0 ==> ioContext == handle
      ensures res != 0 ==> queues == old(queues) && (queueSize > 0 ==> ioContext == 0)
      ensures res == 0 ==> ioContext != 0 && ioContext !in old(queues) && queues == old(queues) + {ioContext}
    {
      if queueSize <= 0 {
        return -1, handle;
      }
      if !ok {
        return -1, 0;
      }
      ioContext := Unused(queues);
      queues := queues + {ioContext};
      res := 0;
    }

    method IoQueueRelease(ioContext: nat)
      modifies this`queues
      ensures queues == old(queues) - {ioContext}
    {
      queues := queues - {ioContext};
    }

    // ----- Destruction of the pool -----

    /** `iocb_destroy_members`. */
    method DestroyMembers(theControl: Control, upperBound: nat)
      requires upperBound <= theControl.iocb.Length
      requires NoDup(theControl.iocb[..upperBound]) && Elements(theControl.iocb[..upperBound]) <= heap
      modifies this`heap
      ensures Some(heap) == FreeAll(old(heap), theControl.iocb[..upperBound])
    {
      FreeAllExactly(heap, theControl.iocb[..upperBound]);
      for i := 0 to upperBound
        invariant Some(heap) == FreeAll(old(heap), theControl.iocb[..i])
      {
        ghost var next := theControl.iocb[..i + 1];
        assert next[..i] == theControl.iocb[..i];
        PrefixFits(old(heap), theControl.iocb[..upperBound], i + 1);
        assert theControl.iocb[..upperBound][..i + 1] == next;
        FreeAllExactly(old(heap), next);
        Free(theControl.iocb[i]);
      }
    }

    /** `iocb_destroy_bounded`. */
    method DestroyBounded(theControl: Control, upperBound: nat)
      requires upperBound <= theControl.iocb.Length
      requires NoDup(theControl.iocb[..upperBound]) && Elements(theControl.iocb[..upperBound]) <= heap
      requires theControl.pointers in heap - Elements(theControl.iocb[..upperBound])
      modifies this`heap
      ensures heap == old(heap) - Elements(theControl.iocb[..upperBound]) - {theControl.pointers}
    {
      FreeAllExactly(heap, theControl.iocb[..upperBound]);
      DestroyMembers(theControl, upperBound);
      Free(theControl.pointers);
    }

    /** `iocb_destroy`. */
    method Destroy(theControl: Control)
      requires theControl.queueSize == theControl.iocb.Length
      requires NoDup(theControl.iocb[..]) && Elements(theControl.iocb[..]) <= heap
      requires theControl.pointers in heap - Elements(theControl.iocb[..])
      modifies this`heap
      ensures heap == old(heap) - Elements(theControl.iocb[..]) - {theControl.pointers}
    {
      assert theControl.iocb[..theControl.queueSize] == theControl.iocb[..];
      DestroyBounded(theControl, theControl.queueSize);
    }

    // ----- newContext -----

    /** The loop that fills the pool.  On failure the blocks already there have
        been freed again, with the array itself. */
    method AllocateBlocks(theControl: Control, fails: set<Failure>) returns (failed: Option<Failure>)
      requires Valid() && theControl.pointers in heap
      requires theControl.iocb.Length > 0 && FineBefore(theControl.iocb.Length, fails, 3)
      modifies this`heap, theControl.iocb
      ensures Valid()
      ensures failed.Some? ==>
        IsFirstFailure(theControl.iocb.Length, fails, failed) && SomeFails(theControl.iocb.Length, fails)
      ensures failed == None ==> FineBefore(theControl.iocb.Length, fails, 3 + theControl.iocb.Length)
      ensures failed.Some? ==> failed.value.Block? && heap == old(heap) - {theControl.pointers}
      ensures failed == None ==>
        && NoDup(theControl.iocb[..])
        && Elements(theControl.iocb[..]) !! old(heap)
        && heap == old(heap) + Elements(theControl.iocb[..])
    {
      for i := 0 to theControl.iocb.Length
        invariant Valid()
        invariant NoDup(theControl.iocb[..i]) && Elements(theControl.iocb[..i]) !! old(heap)
        invariant heap == old(heap) + Elements(theControl.iocb[..i])
        invariant FineBefore(theControl.iocb.Length, fails, 3 + i)
      {
        ghost var before := theControl.iocb[..i];
        var p := Malloc(Block(i) !in fails);
        StepPassed(theControl.iocb.Length, fails, Block(i));
        theControl.iocb[i] := p;
        assert theControl.iocb[..i] == before;
        if p == NULL {
          DestroyBounded(theControl, i);
          return Some(Block(i));
        }
        assert theControl.iocb[..i + 1] == before + [p];
        assert Elements(before + [p]) == Elements(before) + {p};
      }
      assert theControl.iocb[..theControl.iocb.Length] == theControl.iocb[..];
      failed := None;
    }

    /** The first part of `newContext`: the structure, the queue, the array and
        the blocks. */
    method AllocatePool(queueSize: int, garbage: nat, fails: set<Failure>)
      returns (r: Control?, failed: Option<Failure>)
      requires Valid()
      modifies this`heap, this`queues
      ensures Valid()
      ensures r == null <==> failed.Some?
      ensures failed.Some? ==> IsFirstFailure(queueSize, fails, failed) && SomeFails(queueSize, fails)
      ensures failed == None ==> queueSize > 0 && FineBefore(queueSize, fails, 3 + queueSize)
      ensures failed.Some? ==> heap == old(heap)
      ensures failed.Some? ==> queues == if queueSize <= 0 &&
        failed == Some(Queue) then old(queues) - {garbage} else old(queues)
      ensures failed.Some? ==>
        !failed.value.PoolLock? && !failed.value.PollLock? && !failed.value.Events? && !failed.value.Buffer?
      ensures queueSize <= 0 ==> failed == Some(ControlBlock) || failed == Some(Queue)
      ensures r != null ==>
        fresh(r) && fresh(r.iocb) && r.queueSize == queueSize && Holds(r, old(heap), old(queues))
    {
      assert FineBefore(queueSize, fails, 0);
      hide FineBefore, IsFirstFailure, Fails, SomeFails;
      var address := Malloc(ControlBlock !in fails);
      StepPassed(queueSize, fails, ControlBlock);
      if address == NULL {
        return null, Some(ControlBlock);
      }
      var theControl := new Control(address, garbage);

      var res, ioContext := IoQueueInit(queueSize, theControl.ioContext, Queue !in fails);
      StepPassed(queueSize, fails, Queue);
      theControl.ioContext := ioContext;
      if res != 0 {
        IoQueueRelease(ioContext);
        Free(address);
        return null, Some(Queue);
      }

      theControl.pointers := Malloc(Array !in fails);
      StepPassed(queueSize, fails, Array);
      if theControl.pointers == NULL {
        IoQueueRelease(ioContext);
        Free(address);
        return null, Some(Array);
      }
      theControl.iocb := new Addr[queueSize];

      var stopped := AllocateBlocks(theControl, fails);
      if stopped.Some? {
        IoQueueRelease(ioContext);
        Free(address);
        return null, stopped;
      }
      theControl.queueSize := queueSize;
      theControl.blocks := Elements(theControl.iocb[..]);
      r, failed := theControl, None;
    }

    /** What `newContext` does when a later step fails. */
    method Abandon(theControl: Control, ghost heap0: set<Addr>, ghost queues0: set<nat>)
      requires Holds(theControl, heap0, queues0)
      modifies this`heap, this`queues
      ensures heap == heap0 && queues == queues0
    {
      Destroy(theControl);
      IoQueueRelease(theControl.ioContext);
      Free(theControl.self);
    }

    /** The two locks of the context. */
    method InitLocks(theControl: Control, fails: set<Failure>, ghost heap0: set<Addr>, ghost queues0: set<nat>)
      returns (failed: Option<Failure>)
      requires Holds(theControl, heap0, queues0) && theControl.queueSize > 0
      requires FineBefore(theControl.queueSize, fails, 3 + theControl.queueSize)
      modifies this`heap, this`queues
      ensures failed.Some? ==>
        && IsFirstFailure(theControl.queueSize, fails, failed) && SomeFails(theControl.queueSize, fails)
        && (failed.value.PoolLock? || failed.value.PollLock?) && heap == heap0 && queues == queues0
      ensures failed == None ==>
        && FineBefore(theControl.queueSize, fails, 5 + theControl.queueSize)
        && heap == old(heap) && queues == old(queues)
    {
      hide HoldsIn, FineBefore, Fails, SomeFails, IsFirstFailure;
      var queueSize := theControl.queueSize;
      var res := MutexInit(PoolLock !in fails);
      LatePassed(queueSize, fails, PoolLock);
      if res != 0 {
        Abandon(theControl, heap0, queues0);
        return Some(PoolLock);
      }

      res := MutexInit(PollLock !in fails);
      LatePassed(queueSize, fails, PollLock);
      if res != 0 {
        Abandon(theControl, heap0, queues0);
        return Some(PollLock);
      }
      failed := None;
    }

    /** The rest of `newContext`: the locks, the event buffer and the Java buffer. */
    method Complete(theControl: Control, fails: set<Failure>, ghost heap0: set<Addr>, ghost queues0: set<nat>)
      returns (failed: Option<Failure>)
      requires Valid() && NULL !in heap0 && 0 !in queues0
      requires Holds(theControl, heap0, queues0) && theControl.queueSize > 0
      requires FineBefore(theControl.queueSize, fails, 3 + theControl.queueSize)
      modifies this, theControl`events, theControl`iocbPut, theControl`iocbGet, theControl`used
      ensures Valid()
      ensures IsFirstFailure(theControl.queueSize, fails, failed)
      ensures failed.Some? <==> SomeFails(theControl.queueSize, fails)
      ensures failed.Some? && failed != Some(Buffer) ==> heap == heap0 && queues == queues0 && thisRefs == old(thisRefs)
      ensures failed.Some? ==> failed != Some(ControlBlock) && failed != Some(Queue)
      ensures failed == Some(Buffer) || failed == None ==>
        && theControl.iocbPut == 0 && theControl.iocbGet == 0 && theControl.used == 0
        && PoolInv(theControl.PoolOf(), theControl.blocks, {})
        && Opened(theControl, heap0, queues0, old(thisRefs))
        && |heap| == |heap0| + theControl.queueSize + 3 && |queues| == |queues0| + 1
    {
      hide HoldsIn, PoolInv, Control.Footprint, Control.PoolBlocks, Control.Separate;
      hide FineBefore, Fails, SomeFails, IsFirstFailure;
      failed := InitLocks(theControl, fails, heap0, queues0);
      if failed.Some? {
        return;
      }
      var queueSize := theControl.queueSize;
      ghost var before := heap;
      theControl.events := Malloc(Events !in fails);
      LatePassed(queueSize, fails, Events);
      if theControl.events == NULL {
        Abandon(theControl, heap0, queues0);
        return Some(Events);
      }

      theControl.iocbPut, theControl.iocbGet, theControl.used := 0, 0, 0;
      thisRefs := thisRefs + 1;
      Built(theControl, heap0, queues0, before);

      LatePassed(queueSize, fails, Buffer);
      if Buffer in fails {
        return Some(Buffer);
      }
      failed := None;
    }

    /** `newContext`: any set of steps may be bound to fail.  It returns NULL if
        and only if one of them is, and gives up at the first.  Then it has freed,
        once each, exactly the blocks it had allocated, if and only if it was
        not the final `NewDirectByteBuffer` that failed: then the whole context
        stays behind, and nobody can name it.  For a size that is not positive
        it releases the handle that `malloc` left in the structure, `garbage`:
        the other contexts keep their queues if and only if that names none of
        them.  Otherwise the pool is full, with distinct blocks. */
    method NewContext(queueSize: int, garbage: nat, fails: set<Failure>) returns (r: Control?, failed: Option<Failure>)
      requires Valid()
      modifies this
      ensures Valid()
      ensures r == null <==> SomeFails(queueSize, fails)
      ensures r == null <==> failed.Some?
      ensures IsFirstFailure(queueSize, fails, failed)
      ensures failed.Some? && failed != Some(Buffer) ==> heap == old(heap) && thisRefs == old(thisRefs)
      ensures failed.Some? && failed != Some(Buffer) ==>
        queues == if queueSize <= 0 && failed == Some(Queue) then old(queues) - {garbage} else old(queues)
      ensures failed.Some? && failed != Some(Buffer) ==>
        (queues == old(queues) <==> queueSize > 0 || failed == Some(ControlBlock) || garbage !in old(queues))
      ensures failed == Some(Buffer) ==>
        |heap| == |old(heap)| + queueSize + 3 && |queues| == |old(queues)| + 1 && thisRefs == old(thisRefs) + 1
      ensures queueSize <= 0 ==> failed == Some(ControlBlock) || failed == Some(Queue)
      ensures r != null ==>
        && fresh(r) && fresh(r.iocb) && r.queueSize == queueSize
        && PoolInv(r.PoolOf(), r.blocks, {}) && r.iocbPut == 0 && r.iocbGet == 0
        && Opened(r, old(heap), old(queues), old(thisRefs))
    {
      hide HoldsIn, PoolInv, Control.Footprint, Control.PoolBlocks, Control.Separate;
      hide FineBefore, Fails, SomeFails;
      var theControl;
      theControl, failed := AllocatePool(queueSize, garbage, fails);
      hide IsFirstFailure;
      if theControl == null {
        return null, failed;
      }

      failed := Complete(theControl, fails, old(heap), old(queues));
      if failed.Some? {
        return null, failed;
      }
      r := theControl;
    }

    lemma Built(c: Control, heap0: set<Addr>, queues0: set<nat>, before: set<Addr>)
      requires c.events !in before && c.events != NULL && heap == before + {c.events} && Valid()
      requires HoldsIn(c, before, queues, heap0, queues0) && c.queueSize > 0
      requires c.iocbPut == 0 && c.iocbGet == 0 && c.used == 0
      ensures PoolInv(c.PoolOf(), c.blocks, {}) && c.Separate()
      ensures c.queueSize == c.iocb.Length
      ensures c.Footprint() !! heap0 && heap == heap0 + c.Footprint()
      ensures c.ioContext !in queues0 && queues == queues0 + {c.ioContext}
      ensures |heap| == |heap0| + c.queueSize + 3 && |queues| == |queues0| + 1
    {
      FullPool(c.iocb[..]);
      DisjointSizes(heap0, c.iocb[..], c.self, c.pointers, c.events);
    }

    /** The end of `deleteContext`, from `io_queue_release` on.  What it needs
        is that the array lists the context's blocks once each. */
    method Delete(theControl: Control)
      requires Valid()
      requires theControl.queueSize == theControl.iocb.Length
      requires NoDup(theControl.iocb[..]) && Elements(theControl.iocb[..]) == theControl.blocks
      requires theControl.Separate() && theControl.Footprint() <= heap && thisRefs > 0
      modifies this
      ensures Valid()
      ensures heap == old(heap) - theControl.Footprint()
      ensures queues == old(queues) - {theControl.ioContext}
      ensures thisRefs == old(thisRefs) - 1
    {
      IoQueueRelease(theControl.ioContext);
      Destroy(theControl);
      thisRefs := thisRefs - 1;
      Free(theControl.events);
      Free(theControl.self);
    }
  }

  lemma PrefixFits(heap: set<Addr>, ps: seq<Addr>, i: nat)
    requires NoDup(ps) && Elements(ps) <= heap && i <= |ps|
    ensures NoDup(ps[..i]) && Elements(ps[..i]) <= heap
  {
    assert forall x :: x in ps[..i] ==> x in ps;
  }

  lemma FullPool(ps: seq<Addr>)
    requires ps != [] && NoDup(ps)
    ensures PoolInv(Pool(ps, 0, 0, 0), Elements(ps), {})
  {
    assert Free(Pool(ps, 0, 0, 0)) == ps;
  }
}
