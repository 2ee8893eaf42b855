/** The reusable pool of control blocks: a circular array that starts full, is
    read at `get`, written at `put`, and keeps stale pointers in the slots it
    has handed out. */
module IocbPool {
  import opened Circular
  import opened Options
  import opened Sequences

  /** The address of a control block. */
  type Iocb = nat

  /** The pool fields of `struct io_control`; `queueSize` is `|slots|`. */
  datatype Pool = Pool(slots: seq<Iocb>, used: int, put: nat, get: nat)

  predicate Indexed(p: Pool) {
    && p.put < |p.slots|
    && p.get < |p.slots|
  }

  /** The body of `getIOCB`. */
  function Get(p: Pool): (r: (Pool, Option<Iocb>))
    requires Indexed(p)
  {
    if p.used < |p.slots| then
      (p.(used := p.used + 1, get := Advance(p.get, |p.slots|)), Some(p.slots[p.get]))
    else
      (p, None)
  }

  /** The body of `putIOCB`. */
  function Put(p: Pool, back: Iocb): (q: Pool)
    requires Indexed(p)
  {
    p.(used := p.used - 1, slots := p.slots[p.put := back], put := Advance(p.put, |p.slots|))
  }

  /** The blocks that can still be handed out, in the order they will be. */
  ghost function Free(p: Pool): (free: seq<Iocb>)
    requires Indexed(p) && 0 <= p.used <= |p.slots|
  {
    Window(p.slots, p.get, |p.slots| - p.used)
  }

  /** The free window and the outstanding blocks partition the blocks that
      `newContext` allocated. */
  ghost predicate PoolInv(p: Pool, all: set<Iocb>, out: set<Iocb>) {
    && Indexed(p)
    && 0 <= p.used <= |p.slots|
    && p.get == Slot(p.put, p.used, |p.slots|)
    && Partition(Free(p), out, all)
    && |out| == p.used
  }

  ghost predicate Partition(free: seq<Iocb>, out: set<Iocb>, all: set<Iocb>) {
    && NoDup(free)
    && (forall x :: x in free ==> x !in out)
    && (forall x :: x in all <==> x in free || x in out)
  }

  lemma PartitionPop(free: seq<Iocb>, out: set<Iocb>, all: set<Iocb>)
    requires Partition(free, out, all) && free != []
    ensures free[0] in all - out
    ensures Partition(free[1..], out + {free[0]}, all)
  {
    assert free == [free[0]] + free[1..];
  }

  lemma PartitionPush(free: seq<Iocb>, out: set<Iocb>, all: set<Iocb>, back: Iocb)
    requires Partition(free, out, all) && back in out
    ensures Partition(free + [back], out - {back}, all)
  {
    assert forall k :: 0 <= k < |free| ==> free[k] in free;
  }

  lemma GetKeeps(p: Pool, all: set<Iocb>, out: set<Iocb>)
    requires PoolInv(p, all, out)
    ensures Get(p).1 == None <==> out == all
    ensures Get(p).1 == None ==> Get(p).0 == p
    ensures Get(p).1.Some? ==>
      var (q, i) := (Get(p).0, Get(p).1.value);
      i in all - out && PoolInv(q, all, out + {i}) && [i] + Free(q) == Free(p)
  {
    if p.used < |p.slots| {
      WindowPop(p.slots, p.get, |p.slots| - p.used);
      PartitionPop(Free(p), out, all);
      assert Free(Get(p).0) == Free(p)[1..];
    } else {
      assert Free(p) == [];
      assert out == all;
    }
  }

  lemma PutKeeps(p: Pool, all: set<Iocb>, out: set<Iocb>, back: Iocb)
    requires PoolInv(p, all, out) && back in out
    ensures PoolInv(Put(p, back), all, out - {back})
    ensures Free(Put(p, back)) == Free(p) + [back]
  {
    var n := |p.slots|;
    assert out == (out - {back}) + {back};
    assert p.put == Slot(p.get, n - p.used, n);
    WindowPush(p.slots, p.get, n - p.used, back);
    PartitionPush(Free(p), out, all, back);
  }

  // ----- Runs of gets and out-of-order puts -----

  datatype Op = Take | Return(back: Iocb)

  /** The pool together with the blocks its callers hold. */
  datatype Holding = Holding(pool: Pool, out: set<Iocb>)

  function Step(h: Holding, op: Op): (h': Holding)
    requires Indexed(h.pool)
    ensures Indexed(h'.pool)
  {
    match op
    case Take =>
      var (q, r) := Get(h.pool);
      Holding(q, if r.Some? then h.out + {r.value} else h.out)
    case Return(back) =>
      Holding(Put(h.pool, back), h.out - {back})
  }

  function Run(h: Holding, ops: seq<Op>): (h': Holding)
    requires Indexed(h.pool)
    ensures Indexed(h'.pool)
    decreases |ops|
  {
    if ops == [] then h else Run(Step(h, ops[0]), ops[1..])
  }

  /** Callers return only blocks they hold. */
  ghost predicate Legal(h: Holding, ops: seq<Op>)
    requires Indexed(h.pool)
    decreases |ops|
  {
    ops == [] || ((ops[0].Return? ==> ops[0].back in h.out) && Legal(Step(h, ops[0]), ops[1..]))
  }

  ghost function GrantOf(h: Holding, op: Op): (g: seq<Iocb>)
    requires Indexed(h.pool)
  {
    if op.Take? && Get(h.pool).1.Some? then [Get(h.pool).1.value] else []
  }

  ghost function ReturnOf(op: Op): (r: seq<Iocb>) {
    if op.Return? then [op.back] else []
  }

  /** The blocks that successful gets hand out, in order. */
  ghost function Granted(h: Holding, ops: seq<Op>): (g: seq<Iocb>)
    requires Indexed(h.pool)
    decreases |ops|
  {
    if ops == [] then [] else GrantOf(h, ops[0]) + Granted(Step(h, ops[0]), ops[1..])
  }

  ghost function Returned(ops: seq<Op>): (r: seq<Iocb>) {
    if ops == [] then [] else ReturnOf(ops[0]) + Returned(ops[1..])
  }

  lemma StepKeeps(h: Holding, all: set<Iocb>, op: Op)
    requires PoolInv(h.pool, all, h.out) && (op.Return? ==> op.back in h.out)
    ensures PoolInv(Step(h, op).pool, all, Step(h, op).out)
    ensures GrantOf(h, op) + Free(Step(h, op).pool) == Free(h.pool) + ReturnOf(op)
  {
    match op
    case Take => GetKeeps(h.pool, all, h.out);
    case Return(back) => PutKeeps(h.pool, all, h.out, back);
  }

  /** Conservation over every run: the pool invariant is kept, a get fails
      only when every block is outstanding and otherwise hands out a block
      nobody holds, and the pool behaves as one first-in first-out queue: what
      was granted followed by what is free is what was free at the start
      followed by what was returned. */
  lemma {:induction false} RunKeeps(h: Holding, all: set<Iocb>, ops: seq<Op>)
    requires PoolInv(h.pool, all, h.out) && Legal(h, ops)
    ensures var h' := Run(h, ops);
            && PoolInv(h'.pool, all, h'.out)
            && (Get(h'.pool).1 == None <==> h'.out == all)
            && (Get(h'.pool).1.Some? ==> Get(h'.pool).1.value in all - h'.out)
            && Granted(h, ops) + Free(h'.pool) == Free(h.pool) + Returned(ops)
    decreases |ops|
  {
    if ops == [] {
      GetKeeps(h.pool, all, h.out);
      assert Granted(h, ops) + Free(h.pool) == Free(h.pool) + Returned(ops);
    } else {
      var h1 := Step(h, ops[0]);
      StepKeeps(h, all, ops[0]);
      RunKeeps(h1, all, ops[1..]);
      Chain(GrantOf(h, ops[0]), Granted(h1, ops[1..]), Free(Run(h, ops).pool),
            Free(h1.pool), Free(h.pool), ReturnOf(ops[0]), Returned(ops[1..]));
    }
  }

  /** A block put back while `f` others are free is the `f+1`-st block handed
      out from then on, and not an earlier one, whatever is put in between. */
  lemma ReuseDistance(h: Holding, all: set<Iocb>, back: Iocb, ops: seq<Op>)
    requires PoolInv(h.pool, all, h.out) && back in h.out
    requires Legal(Step(h, Return(back)), ops)
    ensures var g := Granted(Step(h, Return(back)), ops);
            var f := |h.pool.slots| - h.pool.used;
            && (f < |g| ==> g[f] == back)
            && (forall k :: 0 <= k < f && k < |g| ==> g[k] != back)
  {
    var h1 := Step(h, Return(back));
    PutKeeps(h.pool, all, h.out, back);
    RunKeeps(h1, all, ops);
    var g, end := Granted(h1, ops), Free(Run(h1, ops).pool);
    var f := |h.pool.slots| - h.pool.used;
    forall k | 0 <= k <= f && k < |g| ensures g[k] == Free(h1.pool)[k] {
      assert g[k] == (g + end)[k];
    }
  }

  // ----- What the destructor relies on -----

  /** With nothing outstanding the array lists every block exactly once. */
  lemma AllFreeIsPermutation(p: Pool, all: set<Iocb>)
    requires PoolInv(p, all, {})
    ensures NoDup(p.slots) && Elements(p.slots) == all
  {
    WindowFull(p.slots, p.get);
  }

  /** Taking one block from a full pool leaves its pointer in the very slot the
      next put writes, so the array is the same before, during and after. */
  lemma SoleBlockKeepsArray(p: Pool, all: set<Iocb>)
    requires PoolInv(p, all, {})
    ensures Get(p).1.Some?
    ensures var (q, r) := Get(p); q.slots == p.slots && q.slots[q.put] == r.value && Put(q, r.value).slots == p.slots
  {
  }

  // ----- When the array is a permutation of the blocks -----

  ghost predicate Permutation(slots: seq<Iocb>, all: set<Iocb>) {
    NoDup(slots) && Elements(slots) == all
  }

  /** The slots that have been handed out: they still hold pointers. */
  ghost function Stale(p: Pool): (stale: seq<Iocb>)
    requires Indexed(p) && 0 <= p.used <= |p.slots|
  {
    Window(p.slots, p.put, p.used)
  }

  /** The array, read from where the next block will be put. */
  ghost function FromPut(p: Pool): (w: seq<Iocb>)
    requires Indexed(p)
  {
    Window(p.slots, p.put, |p.slots|)
  }

  lemma StaleThenFree(p: Pool)
    requires Indexed(p) && 0 <= p.used <= |p.slots| && p.get == Slot(p.put, p.used, |p.slots|)
    ensures FromPut(p) == Stale(p) + Free(p)
  {
    if p.used < |p.slots| {
      WindowSplit(p.slots, p.put, |p.slots|, p.used);
    }
  }

  /** The array lists every block exactly once if and only if the stale pointers
      name exactly the blocks that are out. */
  lemma PermutationCondition(p: Pool, all: set<Iocb>, out: set<Iocb>)
    requires PoolInv(p, all, out)
    ensures Permutation(p.slots, all) <==> Elements(Stale(p)) == out
  {
    StaleThenFree(p);
    WindowFull(p.slots, p.put);
    var w, f := Stale(p), Free(p);
    assert Elements(p.slots) == Elements(w) + Elements(f);
    NoDupCard(f);
    assert all == Elements(f) + out;
    assert |all| == |p.slots|;
    ElementsCard(p.slots);
    hide PoolInv, Window, Indexed;
    if Permutation(p.slots, all) {
      assert forall x :: x in out ==> x in Elements(w);
      ElementsCard(w);
      SubsetCard(out, Elements(w));
    }
  }

  lemma StepShifts(h: Holding, op: Op)
    requires Indexed(h.pool)
    ensures var r := ReturnOf(op); FromPut(Step(h, op).pool) == (FromPut(h.pool) + r)[|r|..]
  {
    hide Get;
    if op.Take? {
      assert FromPut(Step(h, op).pool) == FromPut(h.pool) by { TakeKeepsArray(h); }
    }
  }

  lemma TakeKeepsArray(h: Holding)
    requires Indexed(h.pool)
    ensures Step(h, Take).pool.slots == h.pool.slots && Step(h, Take).pool.put == h.pool.put
  {
  }

  /** Over a run the array holds the last blocks put into it, in order. */
  lemma {:induction false} RunShifts(h: Holding, ops: seq<Op>)
    requires Indexed(h.pool)
    ensures var r := Returned(ops); FromPut(Run(h, ops).pool) == (FromPut(h.pool) + r)[|r|..]
    decreases |ops|
  {
    if ops == [] {
      assert (FromPut(h.pool) + [])[0..] == FromPut(h.pool);
    } else {
      StepShifts(h, ops[0]);
      RunShifts(Step(h, ops[0]), ops[1..]);
      hide FromPut, Step;
      ShiftTwice(FromPut(h.pool), ReturnOf(ops[0]), Returned(ops[1..]));
    }
  }

  lemma ShiftTwice(w: seq<Iocb>, r: seq<Iocb>, r': seq<Iocb>)
    ensures ((w + r)[|r|..] + r')[|r'|..] == (w + (r + r'))[|r + r'|..]
  {
  }

  lemma StepAccounts(h: Holding, all: set<Iocb>, op: Op)
    requires PoolInv(h.pool, all, h.out) && (op.Return? ==> op.back in h.out)
    ensures multiset(GrantOf(h, op)) + multiset(h.out) == multiset(Step(h, op).out) + multiset(ReturnOf(op))
  {
    GetKeeps(h.pool, all, h.out);
    hide PoolInv, Put;
  }

  /** What was granted and not returned is what is out. */
  lemma {:induction false} RunAccounts(h: Holding, all: set<Iocb>, ops: seq<Op>)
    requires PoolInv(h.pool, all, h.out) && Legal(h, ops)
    ensures multiset(Granted(h, ops)) + multiset(h.out) == multiset(Run(h, ops).out) + multiset(Returned(ops))
    decreases |ops|
  {
    if ops != [] {
      var h1 := Step(h, ops[0]);
      StepKeeps(h, all, ops[0]);
      StepAccounts(h, all, ops[0]);
      RunAccounts(h1, all, ops[1..]);
      hide PoolInv, Step, GrantOf, ReturnOf;
      ChainAccounts(GrantOf(h, ops[0]), Granted(h1, ops[1..]), h.out, h1.out, Run(h, ops).out, ReturnOf(ops[0]),
        Returned(ops[1..]));
    }
  }

  lemma ChainAccounts(g: seq<Iocb>, g': seq<Iocb>, start: set<Iocb>, mid: set<Iocb>, end: set<Iocb>, r: seq<Iocb>,
      r': seq<Iocb>)
    requires multiset(g) + multiset(start) == multiset(mid) + multiset(r)
    requires multiset(g') + multiset(mid) == multiset(end) + multiset(r')
    ensures multiset(g + g') + multiset(start) == multiset(end) + multiset(r + r')
  {
    var G, G', S, M, E, R, R' := multiset(g), multiset(g'), multiset(start), multiset(mid), multiset(end),
      multiset(r), multiset(r');
    assert multiset(g + g') == G + G' && multiset(r + r') == R + R';
    assert (G + G') + S == (G + S) + G' == (M + R) + G' == (G' + M) + R == (E + R') + R;
  }

  /** From a full pool on: the array lists every block once if and only if the
      blocks returned so far are the first as many that were granted, in
      whatever order. */
  lemma PermutationHistory(h: Holding, all: set<Iocb>, ops: seq<Op>)
    requires PoolInv(h.pool, all, {}) && h.out == {} && Legal(h, ops)
    ensures |Returned(ops)| <= |Granted(h, ops)|
    ensures Permutation(Run(h, ops).pool.slots, all)
       <==> multiset(Granted(h, ops)[..|Returned(ops)|]) == multiset(Returned(ops))
  {
    var h', g, r := Run(h, ops), Granted(h, ops), Returned(ops);
    RunKeeps(h, all, ops);
    RunAccounts(h, all, ops);
    RunShifts(h, ops);
    StaleThenFree(h.pool);
    StaleThenFree(h'.pool);
    PermutationCondition(h'.pool, all, h'.out);
    var w := Stale(h'.pool);
    assert |w| == |h'.out|;
    assert FromPut(h.pool) == Free(h.pool);
    hide *;
    Balance(g, r, h'.out);
    StaleIsGranted(g, Free(h'.pool), Free(h.pool), r, w);
    HistoryOf(g, r, w, h'.out);
  }

  lemma Balance(g: seq<Iocb>, r: seq<Iocb>, out: set<Iocb>)
    requires multiset(g) == multiset(out) + multiset(r)
    ensures |g| == |out| + |r|
  {
    assert |multiset(g)| == |multiset(out) + multiset(r)|;
  }

  lemma StaleIsGranted(g: seq<Iocb>, free: seq<Iocb>, start: seq<Iocb>, r: seq<Iocb>, w: seq<Iocb>)
    requires g + free == start + r && |r| <= |g| && |w| == |g| - |r|
    requires w + free == (start + r)[|r|..]
    ensures g[|r|..] == w
  {
    assert (g + free)[|r|..] == g[|r|..] + free;
    assert w == (w + free)[..|w|] && g[|r|..] == (g[|r|..] + free)[..|w|];
  }

  lemma HistoryOf(g: seq<Iocb>, r: seq<Iocb>, w: seq<Iocb>, out: set<Iocb>)
    requires |r| <= |g| && g[|r|..] == w && |w| == |out| && multiset(g) == multiset(out) + multiset(r)
    ensures Elements(w) == out <==> multiset(g[..|r|]) == multiset(r)
  {
    SameElements(w, out);
    assert g == g[..|r|] + w;
    var first, R, W, O := multiset(g[..|r|]), multiset(r), multiset(w), multiset(out);
    assert first + W == O + R;
    hide Elements;
    if first == R {
      assert W == (first + W) - first == (O + R) - R == O;
    }
    if W == O {
      assert first == (first + W) - W == (O + R) - O == R;
    }
  }

  lemma SameElements(w: seq<Iocb>, out: set<Iocb>)
    requires |w| == |out|
    ensures Elements(w) == out <==> multiset(w) == multiset(out)
  {
    ElementsCard(w);
    assert forall x :: x in multiset(w) <==> x in Elements(w);
    assert forall x :: x in multiset(out) <==> x in out;
    if multiset(w) == multiset(out) {
      assert forall x :: x in Elements(w) <==> x in out;
    }
  }

  /** That is special to a full pool: after two gets and one out-of-order put
      the array lists one block twice and another not at all. */
  lemma StaleSlotsCanRepeat(a: Iocb, b: Iocb)
    requires a != b
    ensures var h := Holding(Pool([a, b], 0, 0, 0), {});
            var h' := Run(h, [Take, Take, Return(b)]);
            && PoolInv(h.pool, {a, b}, {})
            && Legal(h, [Take, Take, Return(b)])
            && h'.out == {a} && h'.pool.slots == [b, b]
  {
    var h := Holding(Pool([a, b], 0, 0, 0), {});
    assert Free(h.pool) == [a, b];
    var h1 := Step(h, Take);
    var h2 := Step(h1, Take);
    var h3 := Step(h2, Return(b));
    assert h2.out == {a, b};
    assert h3.out == {a};
    var ops := [Take, Take, Return(b)];
    assert ops[1..] == [Take, Return(b)];
    assert [Take, Return(b)][1..] == [Return(b)];
    assert [Return(b)][1..] == [];
    assert Run(h3, []) == h3 && Legal(h3, []);
    assert Run(h2, [Return(b)]) == h3 && Legal(h2, [Return(b)]);
    assert Run(h1, [Take, Return(b)]) == h3 && Legal(h1, [Take, Return(b)]);
  }
}
