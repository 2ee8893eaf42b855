/** The cache of callback objects: a bounded first-in first-out queue in a
    circular array that starts empty.  It drops what does not fit and yields
    null when there is nothing. */
module CallbackCache {
  import opened Circular
  import opened Options
  import opened Sequences

  class CallbackCache<T> {
    const pool: array<Option<T>>    // None is Java's null
    const size: nat
    var put: nat
    var get: nat
    var available: nat

    /** The `available` slots from `get` on hold callbacks, the others null. */
    ghost predicate Valid()
      reads this, pool
    {
      && pool.Length == size
      && available <= size
      && (size == 0 ==> put == 0 && get == 0)
      && (size > 0 ==>
            && get < size
            && put == Slot(get, available, size)
            && (forall k :: 0 <= k < size ==> (pool[Slot(get, k, size)].Some? <==> k < available)))
    }

    /** The cached callbacks, oldest first. */
    ghost function Contents(): (q: seq<T>)
      requires Valid()
      reads this, pool
      ensures |q| == available <= size
    {
      seq(available, k requires 0 <= k < available && Valid() reads this, pool => pool[Slot(get, k, size)].value)
    }

    constructor (size: nat)
      ensures Valid() && this.size == size && Contents() == [] && fresh(pool)
    {
      this.size := size;
      pool := new Option<T>[size](_ => None);
      put, get, available := 0, 0, 0;
    }

    /** `get()`; `threw` is the NullPointerException for a slot that should
        hold a callback and does not. */
    method Get() returns (r: Option<T>, threw: bool)
      requires Valid()
      modifies this`get, this`available, pool
      ensures Valid() && !threw
      ensures (Contents(), r) == Fetch(old(Contents()))
    {
      r, threw := None, false;
      if available > 0 {
        ghost var before := Contents();
        assert Slot(get, 0, size) == get;
        r := pool[get];
        pool[get] := None;
        if r == None {
          return None, true;
        }
        available := available - 1;
        get := get + 1;
        if get >= size {
          get := 0;
        }
        assert forall k :: 0 <= k < size ==>
          Slot(get, k, size) == if k + 1 < size then Slot(old(get), k + 1, size) else old(get);
        assert Contents() == before[1..];
      }
    }

    /** `put(callback)`: null for null, the cache itself otherwise. */
    method Put(callback: Option<T>) returns (r: CallbackCache?<T>)
      requires Valid()
      modifies this`put, this`available, pool
      ensures Valid()
      ensures r == if callback.Some? then this else null
      ensures Contents() == Offer(old(Contents()), size, callback)
    {
      if callback == None {
        return null;
      }
      if available < size {
        ghost var before := Contents();
        available := available + 1;
        pool[put] := callback;
        put := put + 1;
        if put >= size {
          put := 0;
        }
        assert Contents() == before + [callback.value];
      }
      r := this;
    }
  }

  function Fetch<T>(q: seq<T>): (r: (seq<T>, Option<T>)) {
    if q == [] then (q, None) else (q[1..], Some(q[0]))
  }

  function Offer<T>(q: seq<T>, size: nat, callback: Option<T>): (r: seq<T>) {
    if callback.Some? && |q| < size then q + [callback.value] else q
  }

  // ----- Runs -----

  datatype Op<T> = DoGet | DoPut(callback: Option<T>)

  function Step<T>(q: seq<T>, size: nat, op: Op<T>): (q': seq<T>) {
    if op.DoGet? then Fetch(q).0 else Offer(q, size, op.callback)
  }

  function Run<T>(q: seq<T>, size: nat, ops: seq<Op<T>>): (q': seq<T>)
    decreases |ops|
  {
    if ops == [] then q else Run(Step(q, size, ops[0]), size, ops[1..])
  }

  ghost function GotBy<T>(q: seq<T>, op: Op<T>): (got: seq<T>) {
    if op.DoGet? && q != [] then [q[0]] else []
  }

  ghost function KeptBy<T>(q: seq<T>, size: nat, op: Op<T>): (kept: seq<T>) {
    if op.DoPut? && op.callback.Some? && |q| < size then [op.callback.value] else []
  }

  /** What the gets returned, in order. */
  ghost function Got<T>(q: seq<T>, size: nat, ops: seq<Op<T>>): (got: seq<T>)
    decreases |ops|
  {
    if ops == [] then [] else GotBy(q, ops[0]) + Got(Step(q, size, ops[0]), size, ops[1..])
  }

  /** What the puts stored, in order: those that found room. */
  ghost function Kept<T>(q: seq<T>, size: nat, ops: seq<Op<T>>): (kept: seq<T>)
    decreases |ops|
  {
    if ops == [] then [] else KeptBy(q, size, ops[0]) + Kept(Step(q, size, ops[0]), size, ops[1..])
  }

  /** First in, first out, over every run: nothing is duplicated, reordered or
      invented, and nothing is lost except what was put into a full cache. */
  lemma {:induction false} RunIsFifo<T>(q: seq<T>, size: nat, ops: seq<Op<T>>)
    requires |q| <= size
    ensures |Run(q, size, ops)| <= size
    ensures Got(q, size, ops) + Run(q, size, ops) == q + Kept(q, size, ops)
    decreases |ops|
  {
    if ops == [] {
      assert Got(q, size, ops) + q == q + Kept(q, size, ops);
    } else {
      var op := ops[0];
      var q1 := Step(q, size, op);
      assert GotBy(q, op) + q1 == q + KeptBy(q, size, op);
      hide Step, GotBy, KeptBy;
      RunIsFifo(q1, size, ops[1..]);
      Chain(GotBy(q, op), Got(q1, size, ops[1..]), Run(q, size, ops), q1, q, KeptBy(q, size, op),
        Kept(q1, size, ops[1..]));
    }
  }

  /** `put(get())` once, and `rounds` times. */
  function Round<T>(q: seq<T>, size: nat): (q': seq<T>) {
    var (rest, callback) := Fetch(q);
    Offer(rest, size, callback)
  }

  function Recycle<T>(q: seq<T>, size: nat, rounds: nat): (q': seq<T>) {
    if rounds == 0 then q else Round(Recycle(q, size, rounds - 1), size)
  }

  function Rotation<T>(q: seq<T>, r: nat): (w: seq<T>)
    requires r <= |q|
  {
    q[r..] + q[..r]
  }

  function Turn(rounds: nat, n: nat): (r: nat)
    requires n > 0
    ensures r < n
  {
    rounds % n
  }

  /** Taking a callback out and putting it back, any number of times, only
      rotates the cache. */
  lemma {:induction false} RecyclingRotates<T>(q: seq<T>, size: nat, rounds: nat)
    requires |q| <= size
    ensures Recycle(q, size, rounds) == if q == [] then [] else Rotation(q, Turn(rounds, |q|))
  {
    hide Rotation, Turn;
    if rounds == 0 {
      NoRotation(q);
    } else {
      RecyclingRotates(q, size, rounds - 1);
      if q != [] {
        RoundRotates(q, size, rounds - 1);
        hide Round;
      }
    }
  }

  lemma NoRotation<T>(q: seq<T>)
    ensures q != [] ==> Rotation(q, Turn(0, |q|)) == q
  {
  }

  /** The same callbacks, as often each, stay in it. */
  lemma RecyclingKeeps<T>(q: seq<T>, size: nat, rounds: nat)
    requires |q| <= size
    ensures multiset(Recycle(q, size, rounds)) == multiset(q)
  {
    RecyclingRotates(q, size, rounds);
    hide Recycle, Rotation;
    if q != [] {
      RotationKeeps(q, Turn(rounds, |q|));
    }
  }

  lemma RoundRotates<T>(q: seq<T>, size: nat, k: nat)
    requires 0 < |q| <= size
    ensures Round(Rotation(q, Turn(k, |q|)), size) == Rotation(q, Turn(k + 1, |q|))
  {
    NextRemainder(k, |q|);
    RoundAt(q, size, k % |q|);
  }

  lemma RoundAt<T>(q: seq<T>, size: nat, r: nat)
    requires r < |q| <= size
    ensures Round(Rotation(q, r), size) == Rotation(q, if r + 1 < |q| then r + 1 else 0)
  {
  }

  lemma RotationKeeps<T>(q: seq<T>, r: nat)
    requires r <= |q|
    ensures multiset(Rotation(q, r)) == multiset(q)
  {
    assert q == q[..r] + q[r..];
  }

  lemma NextRemainder(k: nat, n: nat)
    requires n > 0
    ensures (k + 1) % n == if k % n + 1 < n then k % n + 1 else 0
  {
    var d, m := k / n, k % n;
    if m + 1 < n {
      RemainderOf(d, m + 1, n);
    } else {
      RemainderOf(d + 1, 0, n);
    }
    assert d * n + m + 1 == k + 1;
    assert (d + 1) * n == d * n + n;
  }

  lemma RemainderOf(d: nat, m: nat, n: nat)
    requires m < n
    ensures (d * n + m) % n == m
  {
    var x := d * n + m;
    var e := x / n - d;
    assert x == (x / n) * n + x % n;
    assert m - x % n == e * n by {
      assert (x / n) * n == d * n + e * n;
    }
    assert e > 0 ==> e * n >= n;
    assert e < 0 ==> e * n <= 0 - n;
  }
}
