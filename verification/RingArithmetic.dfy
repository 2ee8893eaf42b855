/** The 32-bit arithmetic of the user-space reaper.  C's `unsigned` and `int`
    are integers reduced modulo 2^32; every reduction the code performs is
    written out. */
module RingArithmetic {
  import opened Circular

  const TWO31: int := 0x8000_0000
  const TWO32: int := 0x1_0000_0000

  /** Conversion to `unsigned`. */
  function U32(x: int): (u: nat) {
    x % TWO32
  }

  /** Conversion to `int`, two's complement. */
  function I32(x: int): (i: int) {
    var u := U32(x);
    if u < TWO31 then u else u - TWO32
  }

  /** The conversion is exact: the result is the one `int` that differs from the
      argument by a multiple of 2^32, so a number that fits is unchanged and
      keeps its sign. */
  lemma ConversionIsExact(x: int)
    ensures 0 <= U32(x) < TWO32 && (x - U32(x)) % TWO32 == 0
    ensures -TWO31 <= I32(x) < TWO31 && (x - I32(x)) % TWO32 == 0
    ensures -TWO31 <= x < TWO31 ==> I32(x) == x
  {
    assert x == (x / TWO32) * TWO32 + x % TWO32;
    assert (x - U32(x)) == (x / TWO32) * TWO32;
    assert U32(x) >= TWO31 ==> x - I32(x) == (x / TWO32 + 1) * TWO32;
  }

  /** `int available = tail - head; if (available < 0) available += ring_nr;` */
  function Available(head: nat, tail: nat, nr: nat): (available: int) {
    var available := I32(U32(tail - head));
    if available < 0 then I32(U32(U32(available) + nr)) else available
  }

  /** How many entries lie between the two indices of a ring of `nr` slots. */
  function Distance(head: nat, tail: nat, nr: nat): (d: nat)
    requires head < nr && tail < nr
  {
    if tail >= head then tail - head else tail + nr - head
  }

  ghost predicate AvailableIsExact(nr: nat) {
    forall head: nat, tail: nat :: head < nr && tail < nr ==> Available(head, tail, nr) == Distance(head, tail, nr)
  }

  /** The wrapped subtraction, the cast and the conditional correction compute
      the number of unread entries for every pair of indices if and only if
      the ring has at most 2^31 slots. */
  lemma AvailableExactness(nr: nat)
    requires 0 < nr < TWO32
    ensures AvailableIsExact(nr) <==> nr <= TWO31
  {
    if nr > TWO31 {
      assert Available(0, TWO31, nr) == nr - TWO31;
      assert Distance(0, TWO31, nr) == TWO31;
    } else {
      forall head: nat, tail: nat | head < nr && tail < nr
        ensures Available(head, tail, nr) == Distance(head, tail, nr)
      {
        AvailableAt(head, tail, nr);
      }
    }
  }

  lemma AvailableAt(head: nat, tail: nat, nr: nat)
    requires head < nr <= TWO31 && tail < nr
    ensures Available(head, tail, nr) == Distance(head, tail, nr)
  {
    if tail < head {
      assert U32(tail - head) == tail - head + TWO32;
    }
  }

  /** `((head + available_nr) >= ring_nr) ? 1 : 0` */
  function NeedMod(head: nat, count: int, nr: nat): (b: bool) {
    U32(head + count) >= nr
  }

  /** One iteration's update of the local head. */
  function NextHead(head: nat, needMod: bool, nr: nat): (h: nat)
    requires nr > 0
  {
    if needMod then U32(head + 1) % nr else U32(head + 1)
  }

  /** The local head after `k` iterations of the copying loop. */
  function Walk(head: nat, k: nat, needMod: bool, nr: nat): (h: nat)
    requires nr > 0
  {
    if k == 0 then head else NextHead(Walk(head, k - 1, needMod, nr), needMod, nr)
  }

  /** The loop that drops the modulo whenever it can visits the same slots, and
      ends on the same head, as the loop that always reduces: including the
      batch that ends exactly at the last slot. */
  lemma {:induction false} WalkIsCircular(head: nat, k: nat, count: nat, nr: nat)
    requires head < nr <= TWO31 && k <= count < nr
    ensures Walk(head, k, NeedMod(head, count, nr), nr) == Slot(head, k, nr)
    ensures Walk(head, k, true, nr) == Slot(head, k, nr)
    ensures Slot(head, k, nr) == (head + k) % nr
  {
    if k > 0 {
      WalkIsCircular(head, k - 1, count, nr);
      NextHeadAt(head, k - 1, count, nr);
    }
    ModOnce(head + k, nr);
  }

  /** One step of the walk, from any place before the end of the batch. */
  lemma NextHeadAt(head: nat, k: nat, count: nat, nr: nat)
    requires head < nr <= TWO31 && k < count < nr
    ensures NextHead(Slot(head, k, nr), NeedMod(head, count, nr), nr) == Slot(head, k + 1, nr)
    ensures NextHead(Slot(head, k, nr), true, nr) == Slot(head, k + 1, nr)
  {
    ModOnce(Slot(head, k, nr) + 1, nr);
  }

  lemma ModOnce(x: nat, n: nat)
    requires 0 < n && x < 2 * n
    ensures x % n == if x < n then x else x - n
  {
    if x >= n {
      assert x == 1 * n + (x - n);
    }
  }
}
