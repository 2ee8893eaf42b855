/** `struct io_control` and the Java object around it, as one object updated in
    place.  The methods here are the code of the library run without
    interference; each is proved to compute the functions that the step system
    uses for the same steps. */
module IoControl {
  import opened Circular
  import opened Options
  import opened RingArithmetic
  import opened IocbPool
  import opened AioRing
  import opened Lifecycle

  /** How a call of `submitWrite` or `submitRead` ends. */
  datatype Submission =
    | ContextClosed             // IOException: the context is closed
    | AwaitingPermit            // the thread stays in `acquire()`
    | NoSpace                   // IOException: not enough space in the queue
    | Refused(errno: int)       // IOException: error while submitting
    | Accepted(iocb: Iocb)

  class IoControl {
    const cfg: Config
    const iocb: array<Iocb>
    const events: array<Event>
    var used: int
    var iocbPut: nat
    var iocbGet: nat
    var blocks: map<Iocb, Block>
    var permits: int
    var closed: bool
    var live: set<Ref>
    var nextRef: Ref
    var forceSysCall: bool
    var log: seq<Entry>

    ghost function Abs(): (n: Native)
      reads this, iocb
    {
      Native(Pool(iocb[..], used, iocbPut, iocbGet), blocks, permits, live, forceSysCall, log)
    }

    ghost predicate Valid()
      reads this, iocb
    {
      && iocb.Length == cfg.queueSize
      && events.Length == cfg.queueSize
      && Indexed(Abs().pool)
      && Elements(iocb[..]) <= blocks.Keys
      && (forall r :: r in live ==> r < nextRef)
    }

    constructor (cfg: Config, slots: seq<Iocb>)
      requires 0 < cfg.queueSize == |slots| && NoDup(slots)
      ensures Valid() && this.cfg == cfg && fresh(iocb) && fresh(events)
      ensures Abs() ==
        Native(Pool(slots, 0, 0, 0), blocks, if cfg.useSemaphore then cfg.queueSize else 0, {}, false, [])
      ensures blocks.Keys == Elements(slots) && !closed
      ensures PoolInv(Abs().pool, blocks.Keys, {})
    {
      this.cfg := cfg;
      iocb := new Iocb[|slots|](i requires 0 <= i < |slots| => slots[i]);
      events := new Event[cfg.queueSize](_ => Event(0, 0));
      used, iocbPut, iocbGet := 0, 0, 0;
      blocks := map i | i in slots :: Block(-1, Null);
      permits := if cfg.useSemaphore then cfg.queueSize else 0;
      closed := false;
      live, nextRef := {}, 0;
      forceSysCall := false;
      log := [];
      new;
      assert iocb[..] == slots;
      assert Free(Abs().pool) == slots;
    }

    /** `getIOCB`. */
    method GetIOCB() returns (r: Option<Iocb>)
      requires Valid()
      modifies this`used, this`iocbGet
      ensures Valid()
      ensures (Abs().pool, r) == Get(old(Abs().pool))
    {
      r := None;
      if used < cfg.queueSize {
        used := used + 1;
        r := Some(iocb[iocbGet]);
        iocbGet := iocbGet + 1;
        if iocbGet >= cfg.queueSize {
          iocbGet := 0;
        }
      }
    }

    /** `putIOCB`. */
    method PutIOCB(back: Iocb)
      requires Valid() && back in blocks
      modifies this`used, this`iocbPut, iocb
      ensures Valid()
      ensures Abs() == PutStep(old(Abs()), back)
    {
      used := used - 1;
      iocb[iocbPut] := back;
      iocbPut := iocbPut + 1;
      if iocbPut >= cfg.queueSize {
        iocbPut := 0;
      }
      assert iocb[..] == old(iocb[..])[old(iocbPut) := back];
    }

    /** `submit`: a refusal deletes the reference and returns the block. */
    method Submit(i: Iocb, result: int) returns (accepted: bool)
      requires Valid() && i in blocks
      modifies this`used, this`iocbPut, this`live, iocb
      ensures Valid()
      ensures accepted <==> result >= 0
      ensures accepted ==> Abs() == old(Abs())
      ensures !accepted ==>
        Abs() == PutStep(if blocks[i].data.Callback? then UnrefStep(old(Abs()), blocks[i].data.ref) else old(Abs()), i)
    {
      if result < 0 {
        if blocks[i].data.Callback? {
          live := live - {blocks[i].data.ref};
        }
        PutIOCB(i);
        return false;
      }
      return true;
    }

    /** The native `submitWrite` or `submitRead`; the kernel's answer is a
        parameter.  A call that the kernel does not accept keeps no block and no
        reference. */
    method NativeSubmit(fd: int, isNull: bool, result: int) returns (r: Submission)
      requires Valid()
      modifies this`used, this`iocbPut, this`iocbGet, this`blocks, this`live, this`nextRef, iocb
      ensures Valid() && blocks.Keys == old(blocks.Keys)
      ensures r.NoSpace? || r.Refused? || r.Accepted?
      ensures r.NoSpace? <==> old(used) >= cfg.queueSize
      ensures r.Accepted? || r.Refused? ==> (r.Accepted? <==> result >= 0)
      ensures r.NoSpace? ==> Abs() == old(Abs())
      ensures r.Refused? ==>
        && live == old(live) && r.errno == -result > 0 && Get(old(Abs().pool)).1.Some?
        && Abs().pool == Put(Get(old(Abs().pool)).0, Get(old(Abs().pool)).1.value)
        && blocks == old(blocks)[Get(old(Abs().pool)).1.value :=
          Block(fd, if isNull then Null else Callback(old(nextRef)))]
      ensures r.Accepted? ==>
        && Get(old(Abs().pool)) == (Abs().pool, Some(r.iocb))
        && blocks == old(blocks)[r.iocb := Block(fd, if isNull then Null else Callback(old(nextRef)))]
        && live == (if isNull then old(live) else old(live) + {old(nextRef)})
        && old(nextRef) !in old(live)
    {
      var got := GetIOCB();
      if got.None? {
        return NoSpace;
      }
      var i := got.value;
      assert i in Elements(iocb[..]);
      blocks := blocks[i := Block(fd, Null)];
      if !isNull {
        live := live + {nextRef};
        blocks := blocks[i := Block(fd, Callback(nextRef))];
      }
      nextRef := nextRef + 1;
      var accepted := Submit(i, result);
      return if accepted then Accepted(i) else Refused(-result);
    }

    /** `LibaioContext.submitWrite`: the permit is kept by a success, and also by
        a refusal. */
    method SubmitRequest(fd: int, isNull: bool, result: int) returns (r: Submission)
      requires Valid()
      modifies this`permits, this`used, this`iocbPut, this`iocbGet, this`blocks, this`live, this`nextRef, iocb
      ensures Valid() && blocks.Keys == old(blocks.Keys)
      ensures r.ContextClosed? <==> closed
      ensures r.AwaitingPermit? <==> !closed && cfg.useSemaphore && old(permits) <= 0
      ensures r.NoSpace? ==> old(used) >= cfg.queueSize
      ensures r.ContextClosed? || r.AwaitingPermit? ==> Abs() == old(Abs())
      ensures r.NoSpace? || r.Refused? || r.Accepted? ==> permits == old(permits) - (if cfg.useSemaphore then 1 else 0)
      ensures r.Accepted? ==> result >= 0 && Get(old(Abs().pool)) == (Abs().pool, Some(r.iocb))
      ensures r.Accepted? ==>
        blocks == old(blocks)[r.iocb := Block(fd, if isNull then Null else Callback(old(nextRef)))]
      ensures r.Accepted? ==> live == (if isNull then old(live) else old(live) + {old(nextRef)})
      ensures r.Refused? ==>
        && live == old(live) && r.errno == -result > 0 && Get(old(Abs().pool)).1.Some?
        && Abs().pool == Put(Get(old(Abs().pool)).0, Get(old(Abs().pool)).1.value)
        && blocks == old(blocks)[Get(old(Abs().pool)).1.value :=
          Block(fd, if isNull then Null else Callback(old(nextRef)))]
      ensures r.NoSpace? ==> live == old(live) && blocks == old(blocks) && Abs().pool == old(Abs().pool)
    {
      if closed {
        return ContextClosed;
      }
      if cfg.useSemaphore {
        if permits <= 0 {
          return AwaitingPermit;
        }
        permits := permits - 1;
      }
      r := NativeSubmit(fd, isNull, result);
    }

    /** The private `done` of `LibaioContext`, after the callback returned. */
    method Done(ref: Ref)
      modifies this`permits, this`log
      ensures Abs() == ReleaseStep(cfg, NotifyStep(old(Abs()), ref), 1)
    {
      log := log + [Entry.Done(ref)];
      if cfg.useSemaphore {
        permits := permits + 1;
      }
    }

    /** The body of the loop of `blockedPoll` for an event that is not the sentinel. */
    method HandleOne(last: int, e: Event) returns (last': int)
      requires Valid() && e.obj in blocks
      modifies this`used, this`iocbPut, this`blocks, this`permits, this`live, this`forceSysCall, this`log, iocb
      ensures Valid() && blocks.Keys == old(blocks.Keys)
      ensures (Abs(), last') == HandleEvent(cfg, old(Abs()), last, e)
    {
      last' := last;
      var fd := blocks[e.obj].fd;
      if cfg.useFdatasync && last' != fd {
        last' := fd;
        log := log + [Fdatasync(fd)];
      }
      var eventResult := I32(e.res);
      if eventResult < 0 {
        if blocks[e.obj].data.Callback? {
          log := log + [OnError(blocks[e.obj].data.ref, -eventResult)];
        }
      }
      Deliver(e);
    }

    /** The callback is taken out of the block before the block goes back. */
    method Deliver(e: Event)
      requires Valid() && e.obj in blocks
      modifies this`used, this`iocbPut, this`blocks, this`permits, this`live, this`forceSysCall, this`log, iocb
      ensures Valid() && blocks == old(blocks)[e.obj := old(blocks)[e.obj].(data := Null)]
      ensures var (n, data) := TakeStep(old(Abs()), e);
        Abs() == match data
          case Null => LatchStep(n)
          case Callback(ref) => UnrefStep(ReleaseStep(cfg, NotifyStep(PutStep(n, e.obj), ref), 1), ref)
          case Sentinel => PutStep(n, e.obj)
    {
      var obj := blocks[e.obj].data;
      blocks := blocks[e.obj := blocks[e.obj].(data := Null)];
      match obj {
        case Null =>
          forceSysCall := true;
        case Callback(ref) =>
          PutIOCB(e.obj);
          Done(ref);
          live := live - {ref};
        case Sentinel =>
          PutIOCB(e.obj);
      }
    }

    /** The loop of `blockedPoll` over the `result` events just reaped; false
        when the sentinel arrived and the poller must stop. */
    method BlockedPollBatch(result: nat) returns (running: bool)
      requires Valid() && result <= events.Length
      requires Known(Abs(), events[..result])
      modifies this`used, this`iocbPut, this`blocks, this`permits, this`live, this`forceSysCall, this`log, iocb
      ensures Valid() && blocks.Keys == old(blocks.Keys)
      ensures (Abs(), running) == HandleBatch(cfg, old(Abs()), -1, events[..result])
    {
      var lastFile := -1;
      running := true;
      var i := 0;
      ghost var start, evts := Abs(), events[..result];
      while i < result
        invariant i <= result && running && Valid() && blocks.Keys == old(blocks.Keys)
        invariant HandleBatch(cfg, start, -1, evts) == HandleBatch(cfg, Abs(), lastFile, evts[i..])
      {
        var e := events[i];
        assert evts[i..][0] == e && evts[i..][1..] == evts[i + 1..];
        if blocks[e.obj].fd == cfg.dumbFd {
          PutIOCB(e.obj);
          running := false;
          return;
        }
        lastFile := HandleOne(lastFile, e);
        i := i + 1;
      }
      assert evts[i..] == [];
    }

    /** The loop of `poll(callbacks, min, max)` over the `result` events just
        reaped: each callback goes to the index of its event. */
    method PollEvents(result: nat, callbacks: array<Option<Ref>>)
      requires Valid() && result <= events.Length && result <= callbacks.Length
      requires Known(Abs(), events[..result])
      modifies this`used, this`iocbPut, this`live, this`log, iocb, callbacks
      ensures Valid() && blocks == old(blocks)
      ensures Abs() == PollBatch(old(Abs()), events[..result], result)
      ensures forall k :: 0 <= k < callbacks.Length ==>
        callbacks[k] == if k < result &&
          blocks[events[k].obj].data.Callback? then Some(blocks[events[k].obj].data.ref) else old(callbacks[k])
    {
      ghost var start, evts := Abs(), events[..result];
      for i := 0 to result
        invariant Valid() && blocks == old(blocks)
        invariant Abs() == PollBatch(start, evts, i)
        invariant forall k :: 0 <= k < callbacks.Length ==>
          callbacks[k] == if k < i &&
            blocks[events[k].obj].data.Callback? then Some(blocks[events[k].obj].data.ref) else old(callbacks[k])
      {
        assert events[i] == evts[i];
        PollOne(i, events[i], callbacks);
      }
    }

    method PollOne(i: nat, e: Event, callbacks: array<Option<Ref>>)
      requires Valid() && e.obj in blocks && i < callbacks.Length
      modifies this`used, this`iocbPut, this`live, this`log, iocb, callbacks
      ensures Valid() && Abs() == PollEvent(old(Abs()), i, e)
      ensures forall k :: 0 <= k < callbacks.Length ==>
        callbacks[k] == if k == i &&
          blocks[e.obj].data.Callback? then Some(blocks[e.obj].data.ref) else old(callbacks[k])
    {
      var eventResult := I32(e.res);
      if eventResult < 0 {
        if blocks[e.obj].data.Callback? {
          log := log + [OnError(blocks[e.obj].data.ref, -eventResult)];
        }
      }
      if blocks[e.obj].data.Callback? {
        callbacks[i] := Some(blocks[e.obj].data.ref);
        log := log + [Stored(i, blocks[e.obj].data.ref)];
        live := live - {blocks[e.obj].data.ref};
      }
      PutIOCB(e.obj);
    }

    /** `LibaioContext.poll(callbacks, min, max)` from the return of its reap on:
        as many permits are released as events were handled, and a result that
        is zero or negative changes nothing. */
    method Poll(result: int, callbacks: array<Option<Ref>>) returns (released: int)
      requires Valid() && result <= events.Length && result <= callbacks.Length
      requires result >= 0 ==> Known(Abs(), events[..result])
      modifies this`used, this`iocbPut, this`live, this`log, this`permits, iocb, callbacks
      ensures Valid() && released == result && blocks == old(blocks)
      ensures result <= 0 ==> Abs() == old(Abs()) && callbacks[..] == old(callbacks[..])
      ensures result > 0 ==> Abs() == ReleaseStep(cfg, PollBatch(old(Abs()), events[..result], result), result)
      ensures forall k :: 0 <= k < callbacks.Length ==>
        callbacks[k] == if k < result &&
          blocks[events[k].obj].data.Callback? then Some(blocks[events[k].obj].data.ref) else old(callbacks[k])
    {
      released := result;
      if result > 0 {
        PollEvents(result, callbacks);
        if cfg.useSemaphore {
          permits := permits + result;
        }
      }
    }
  }
}
