/** Positions and windows of a circular array.  The ring of completions, the
    pool of control blocks and the callback cache are all windows of one. */
module Circular {

  /** The index after `i`, with the wrap written as in `if (++i >= n) i = 0`. */
  function Advance(i: nat, n: nat): (j: nat)
    requires i < n
  {
    if i + 1 >= n then 0 else i + 1
  }

  /** The index `k` places after `start`. */
  function Slot(start: nat, k: nat, n: nat): (j: nat)
    requires start < n && k <= n
  {
    if start + k < n then start + k else start + k - n
  }

  /** The `len` elements that start at index `start`, in circular order. */
  function Window<T>(slots: seq<T>, start: nat, len: nat): (w: seq<T>)
    requires start < |slots| && len <= |slots|
    ensures |w| == len
  {
    seq(len, k requires 0 <= k < len => slots[Slot(start, k, |slots|)])
  }

  ghost predicate NoDup<T>(s: seq<T>) {
    forall i, j :: 0 <= i < j < |s| ==> s[i] != s[j]
  }

  ghost function Elements<T>(s: seq<T>): set<T> {
    set x | x in s
  }

  lemma WindowPop<T>(slots: seq<T>, start: nat, len: nat)
    requires start < |slots| && 0 < len <= |slots|
    ensures Window(slots, Advance(start, |slots|), len - 1) == Window(slots, start, len)[1..]
  {
  }

  lemma WindowSplit<T>(slots: seq<T>, start: nat, len: nat, k: nat)
    requires start < |slots| && k <= len <= |slots| && k < |slots|
    ensures Window(slots, start, k) == Window(slots, start, len)[..k]
    ensures Window(slots, Slot(start, k, |slots|), len - k) == Window(slots, start, len)[k..]
  {
  }

  lemma WindowPush<T>(slots: seq<T>, start: nat, len: nat, x: T)
    requires start < |slots| && len < |slots|
    ensures Window(slots[Slot(start, len, |slots|) := x], start, len + 1) == Window(slots, start, len) + [x]
  {
  }

  /** A window of full length is the whole array, rotated. */
  lemma WindowFull<T>(slots: seq<T>, start: nat)
    requires start < |slots|
    ensures Window(slots, start, |slots|) == slots[start..] + slots[..start]
    ensures NoDup(Window(slots, start, |slots|)) ==> NoDup(slots)
    ensures Elements(Window(slots, start, |slots|)) == Elements(slots)
  {
    var w := Window(slots, start, |slots|);
    assert w == slots[start..] + slots[..start];
    assert slots == slots[..start] + slots[start..];
    if NoDup(w) {
      forall i, j | 0 <= i < j < |slots| ensures slots[i] != slots[j] {
        var i' := if i >= start then i - start else i + |slots| - start;
        var j' := if j >= start then j - start else j + |slots| - start;
        assert w[i'] == slots[i] && w[j'] == slots[j];
      }
    }
  }

  lemma {:induction false} NoDupCard<T>(s: seq<T>)
    requires NoDup(s)
    ensures |Elements(s)| == |s|
  {
    if s != [] {
      var t := s[..|s| - 1];
      NoDupCard(t);
      assert Elements(s) == Elements(t) + {s[|s| - 1]};
    }
  }

  lemma {:induction false} ElementsCard<T>(s: seq<T>)
    ensures |Elements(s)| <= |s|
    ensures |Elements(s)| == |s| ==> NoDup(s) && multiset(s) == multiset(Elements(s))
  {
    if s != [] {
      var t, x := s[..|s| - 1], s[|s| - 1];
      ElementsCard(t);
      assert s == t + [x];
      assert Elements(s) == Elements(t) + {x};
      assert x in t ==> Elements(s) == Elements(t);
    }
  }

  /** A duplicate-free listing inside a finite set is no longer than the set. */
  lemma NoDupBound<T>(s: seq<T>, all: set<T>)
    requires NoDup(s) && Elements(s) <= all
    ensures |s| <= |all|
  {
    NoDupCard(s);
    SubsetCard(Elements(s), all);
  }

  lemma SubsetCard<T>(a: set<T>, b: set<T>)
    requires a <= b
    ensures |a| <= |b|
    ensures |a| == |b| ==> a == b
  {
    assert b == a + (b - a);
    assert |b| == |a| + |b - a|;
  }
}
