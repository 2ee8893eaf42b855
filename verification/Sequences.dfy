/** Mapping a sequence to the concatenation of its elements' images. */
module Sequences {

  function FlatMap<T, U>(f: T -> seq<U>, s: seq<T>): (r: seq<U>) {
    if s == [] then [] else FlatMap(f, s[..|s| - 1]) + f(s[|s| - 1])
  }

  lemma Assoc<U>(x: seq<U>, y: seq<U>, z: seq<U>)
    ensures (x + y) + z == x + (y + z)
  {
  }

  /** Two steps of a first-in first-out queue in a row: in each, what went out
      followed by what is left is what was there followed by what came in. */
  lemma Chain<U>(out: seq<U>, out': seq<U>, end: seq<U>, mid: seq<U>, start: seq<U>, in_: seq<U>, in': seq<U>)
    requires out + mid == start + in_ && out' + end == mid + in'
    ensures (out + out') + end == start + (in_ + in')
  {
    Assoc(out, out', end);
    Assoc(out, mid, in');
    Assoc(start, in_, in');
  }

  lemma TakeSnoc<U>(s: seq<U>, i: nat)
    requires 0 < i <= |s|
    ensures s[..i] == s[..i - 1] + [s[i - 1]]
  {
  }

  lemma FlatMapSnoc<T, U>(f: T -> seq<U>, s: seq<T>, t: T)
    ensures FlatMap(f, s + [t]) == FlatMap(f, s) + f(t)
  {
    assert (s + [t])[..|s + [t]| - 1] == s;
  }

  lemma FlatMapSingle<T, U>(f: T -> seq<U>, t: T)
    ensures FlatMap(f, [t]) == f(t)
  {
    assert [t][..0] == [];
    assert FlatMap(f, [t]) == FlatMap(f, []) + f(t);
  }

  lemma {:induction false} FlatMapConcat<T, U>(f: T -> seq<U>, a: seq<T>, b: seq<T>)
    ensures FlatMap(f, a + b) == FlatMap(f, a) + FlatMap(f, b)
  {
    if b == [] {
      assert a + b == a;
    } else {
      var b', t := b[..|b| - 1], b[|b| - 1];
      FlatMapConcat(f, a, b');
      assert a + b == (a + b') + [t];
      FlatMapSnoc(f, a + b', t);
      Assoc(FlatMap(f, a), FlatMap(f, b'), f(t));
    }
  }

  lemma FlatMapPrefix<T, U>(f: T -> seq<U>, a: seq<T>, b: seq<T>)
    requires a <= b
    ensures FlatMap(f, a) <= FlatMap(f, b)
  {
    FlatMapConcat(f, a, b[|a|..]);
    assert b == a + b[|a|..];
  }

  /** Every element of the image comes from an element of the sequence. */
  lemma {:induction false} FlatMapFrom<T, U>(f: T -> seq<U>, s: seq<T>, u: U)
    requires u in FlatMap(f, s)
    ensures exists i :: 0 <= i < |s| && u in f(s[i])
  {
    var init := s[..|s| - 1];
    if u in FlatMap(f, init) {
      FlatMapFrom(f, init, u);
      var i :| 0 <= i < |init| && u in f(init[i]);
      assert s[i] == init[i];
    } else {
      assert u in f(s[|s| - 1]);
    }
  }
}
