/** The completion ring that the kernel fills and user space reaps. */
module AioRing {
  import opened Circular
  import opened RingArithmetic
  import opened IocbPool

  datatype Event = Event(obj: Iocb, res: int)

  /** The shared part of `struct aio_ring`; `nr` is `|slots|`. */
  datatype Ring = Ring(head: nat, tail: nat, slots: seq<Event>)

  ghost predicate RingInv(r: Ring) {
    && 0 < |r.slots| <= TWO31
    && r.head < |r.slots|
    && r.tail < |r.slots|
  }

  /** The completions not reaped yet, oldest first. */
  ghost function Queue(r: Ring): (q: seq<Event>)
    requires RingInv(r)
    ensures |q| == Distance(r.head, r.tail, |r.slots|) < |r.slots|
  {
    Window(r.slots, r.head, Distance(r.head, r.tail, |r.slots|))
  }

  /** The kernel's producer: it writes the slot at `tail`, then moves `tail`. */
  function Append(r: Ring, e: Event): (r': Ring)
    requires r.tail < |r.slots|
  {
    r.(slots := r.slots[r.tail := e], tail := Advance(r.tail, |r.slots|))
  }

  lemma AppendKeeps(r: Ring, e: Event)
    requires RingInv(r) && |Queue(r)| + 1 < |r.slots|
    ensures RingInv(Append(r, e)) && Queue(Append(r, e)) == Queue(r) + [e]
  {
    assert r.tail == Slot(r.head, |Queue(r)|, |r.slots|);
    WindowPush(r.slots, r.head, |Queue(r)|, e);
  }

  /** Publishing the head `count` places on removes exactly the `count` oldest. */
  lemma PublishKeeps(r: Ring, count: nat)
    requires RingInv(r) && count <= |Queue(r)|
    ensures var r' := r.(head := Slot(r.head, count, |r.slots|));
            RingInv(r') && Queue(r') == Queue(r)[count..]
  {
    WindowSplit(r.slots, r.head, |Queue(r)|, count);
  }

  /** Which way a call of `ringio_get_events` was served. */
  datatype Path = UserSpace | SysCall

  /** One `io_context_t`, shared with a kernel that appends concurrently.
      `produced` is everything the kernel ever completed; the first `reaped` of
      those have been given to the program. */
  class CompletionRing {
    const nr: nat
    const queueSize: nat
    const ioEvents: array<Event>
    const usable: bool
    var head: nat
    var tail: nat
    ghost var produced: seq<Event>
    ghost var reaped: nat

    ghost function Abs(): (r: Ring)
      reads this, ioEvents
    {
      Ring(head, tail, ioEvents[..])
    }

    /** At most `queueSize` completions are ever unreaped, because the pool has
        no more blocks than that to submit, and the ring is larger. */
    ghost predicate Valid()
      reads this, ioEvents
    {
      && ioEvents.Length == nr
      && queueSize < nr
      && RingInv(Abs())
      && |Queue(Abs())| <= queueSize
      && reaped <= |produced|
      && produced[reaped..] == Queue(Abs())
    }

    constructor (nr: nat, queueSize: nat, usable: bool, e: Event)
      requires queueSize < nr <= TWO31
      ensures Valid() && this.nr == nr && this.queueSize == queueSize && this.usable == usable
      ensures produced == [] && reaped == 0 && fresh(ioEvents)
    {
      this.nr, this.queueSize, this.usable := nr, queueSize, usable;
      ioEvents := new Event[nr](_ => e);
      head, tail := 0, 0;
      produced, reaped := [], 0;
    }

    /** One completion by the kernel, which keeps a slot free and, by the pool
        bound, never has more than `queueSize` operations completed. */
    method Complete(e: Event)
      requires Valid() && |Queue(Abs())| < queueSize
      modifies this`tail, this`produced, ioEvents
      ensures Valid() && produced == old(produced) + [e] && Queue(Abs()) == old(Queue(Abs())) + [e]
    {
      AppendKeeps(Abs(), e);
      ioEvents[tail] := e;
      tail := Advance(tail, nr);
      produced := produced + [e];
      assert Abs() == Append(old(Abs()), e);
    }

    /** Any number of completions, at any moment another thread runs. */
    method Interfere()
      requires Valid()
      modifies this`tail, this`produced, ioEvents
      ensures Valid() && old(produced) <= produced && old(Queue(Abs())) <= Queue(Abs())
    {
      var steps: int := *;
      for i := 0 to if steps < 0 then 0 else steps
        invariant Valid() && old(produced) <= produced && old(Queue(Abs())) <= Queue(Abs())
      {
        if (if tail >= head then tail - head else tail + nr - head) < queueSize {
          var e: Event := *;
          Complete(e);
        }
      }
    }

    /** The kernel's `io_getevents`: it may wait, and then either fails and
        takes nothing, or moves at most `max` of the oldest completions into
        `events`.  `answer` is what it is going to return: an error number, or
        a count that it must be able to serve. */
    method IoGetEvents(max: int, events: array<Event>, answer: int) returns (result: int)
      requires Valid() && events != ioEvents && queueSize <= events.Length
      modifies this, ioEvents, events
      ensures Valid() && old(produced) <= produced
      ensures result < 0 ==> reaped == old(reaped)
      ensures result >= 0 ==> Delivered(old(reaped), result, events)
      ensures forall k :: 0 <= k < events.Length && result <= k ==> events[k] == old(events[k])
      ensures result > 0 ==> result <= max
      ensures Answered(answer, max, |old(Queue(Abs()))|, result)
    {
      Interfere();
      var available := if tail >= head then tail - head else tail + nr - head;
      if answer < 0 {
        return answer;
      }
      if answer > available || (answer > 0 && answer > max) {
        return -1;
      }
      TakeOldest(answer, events);
      result := answer;
    }

    /** The result is the kernel's answer, unless that counts more than there is. */
    static predicate Answered(answer: int, max: int, queued: nat, result: int) {
      && (result == answer || (answer > 0 && result < 0))
      && (answer <= 0 || (answer <= max && answer <= queued) ==> result == answer)
    }

    method TakeOldest(count: nat, events: array<Event>)
      requires Valid() && events != ioEvents && count <= |Queue(Abs())| && count <= events.Length
      modifies this`head, this`reaped, events
      ensures Valid()
      ensures Delivered(old(reaped), count, events)
      ensures forall k :: count <= k < events.Length ==> events[k] == old(events[k])
    {
      ghost var queue := Queue(Abs());
      for i := 0 to count
        modifies events
        invariant CopiedTo(events, queue, i)
        invariant forall k :: i <= k < events.Length ==> events[k] == old(events[k])
      {
        events[i] := ioEvents[Slot(head, i, nr)];
      }
      PublishKeeps(Abs(), count);
      head := Slot(head, count, nr);
      reaped := reaped + count;
    }

    /** `count` completions were delivered: the oldest unreaped ones, in order. */
    ghost predicate Delivered(from: nat, count: nat, events: array<Event>)
      reads this, events
    {
      && reaped == from + count <= |produced|
      && count <= events.Length
      && forall k :: 0 <= k < count ==> events[k] == produced[from + k]
    }

    ghost predicate CopiedTo(events: array<Event>, queue: seq<Event>, count: nat)
      reads events
    {
      && count <= events.Length
      && count <= |queue|
      && forall k :: 0 <= k < count ==> events[k] == queue[k]
    }

    method CopyOne(i: nat, localHead: nat, events: array<Event>)
      requires Valid() && events != ioEvents
      requires i < |Queue(Abs())| && i < events.Length && localHead == Slot(head, i, nr)
      modifies this`tail, this`produced, ioEvents, events
      ensures Valid() && old(produced) <= produced && old(Queue(Abs())) <= Queue(Abs())
      ensures events[i] == old(Queue(Abs()))[i]
      ensures forall k :: 0 <= k < events.Length && k != i ==> events[k] == old(events[k])
    {
      Interfere();
      events[i] := ioEvents[localHead];
    }

    /** The copying loop of the user-space path.  The kernel keeps appending
        while it runs; no slot it reads is overwritten, because the head that
        frees them has not been published. */
    method CopyOut(start: nat, available: nat, events: array<Event>) returns (localHead: nat)
      requires Valid() && events != ioEvents
      requires start == head && 0 < available <= |Queue(Abs())| && available <= events.Length
      modifies this`tail, this`produced, ioEvents, events
      ensures Valid() && old(produced) <= produced && old(Queue(Abs())) <= Queue(Abs())
      ensures localHead == Slot(head, available, nr)
      ensures CopiedTo(events, old(Queue(Abs())), available)
      ensures forall k :: available <= k < events.Length ==> events[k] == old(events[k])
    {
      ghost var snapshot := Queue(Abs());
      localHead := start;
      var needMod := NeedMod(localHead, available, nr);
      for i := 0 to available
        invariant Valid() && snapshot <= Queue(Abs()) && old(produced) <= produced
        invariant localHead == Slot(head, i, nr)
        invariant CopiedTo(events, snapshot, i)
        invariant forall k :: i <= k < events.Length ==> events[k] == old(events[k])
      {
        CopyOne(i, localHead, events);
        NextHeadAt(head, i, available, nr);
        localHead := NextHead(localHead, needMod, nr);
      }
    }

    method CopyAndPublish(start: nat, available: nat, events: array<Event>)
      requires Valid() && events != ioEvents
      requires start == head && 0 < available <= |Queue(Abs())| && available <= events.Length
      modifies this, ioEvents, events
      ensures Valid() && old(produced) <= produced
      ensures Delivered(old(reaped), available, events)
      ensures forall k :: available <= k < events.Length ==> events[k] == old(events[k])
    {
      var localHead := CopyOut(start, available, events);
      Interfere();
      PublishKeeps(Abs(), available);
      head := localHead;
      reaped := reaped + available;
    }

    /** `ringio_get_events`.  Completions may arrive between any two accesses to
        the shared ring.  Whatever path serves the call, it takes the oldest
        unreaped completions, in order, and no other.  `seen` is how many there
        were at its read of `tail`: it decides the path, and on the user-space
        path it is what the call takes, whatever arrives later. */
    method RingioGetEvents(forceSysCall: bool, minNr: int, max: int, zeroTimeout: bool, events: array<Event>,
        answer: int)
      returns (result: int, path: Path, ghost seen: nat)
      requires Valid() && events != ioEvents && queueSize <= events.Length
      modifies this, ioEvents, events
      ensures Valid() && old(produced) <= produced
      ensures result < 0 ==> reaped == old(reaped)
      ensures result >= 0 ==> Delivered(old(reaped), result, events)
      ensures forall k :: 0 <= k < events.Length && result <= k ==> events[k] == old(events[k])
      ensures result > 0 ==> result <= max
      ensures |old(Queue(Abs()))| <= seen && old(reaped) + seen <= |produced|
      ensures path == UserSpace <==>
        !forceSysCall && usable && (zeroTimeout || minNr <= seen) && (seen == 0 || seen < max)
      ensures path == UserSpace ==> result == seen
      ensures path == SysCall ==> Answered(answer, max, |old(Queue(Abs()))|, result)
    {
      path, seen := SysCall, |Queue(Abs())|;
      if !forceSysCall && usable {
        var localHead := head;
        Interfere();
        var localTail := tail;
        seen := |Queue(Abs())|;
        AvailableAt(localHead, localTail, nr);
        var available := Available(localHead, localTail, nr);
        if available >= minNr || zeroTimeout {
          if available == 0 {
            result, path := 0, UserSpace;
            return;
          }
          if available >= max {
            result := IoGetEvents(max, events, answer);
            return;
          }
          CopyAndPublish(localHead, available, events);
          result, path := available, UserSpace;
          return;
        }
      }
      result := IoGetEvents(max, events, answer);
    }
  }
}
