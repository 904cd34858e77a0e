/** Sequence helpers shared by the batching and the strategy traces: Python slicing, flattening and mapping. */
module Seqs {

  function Min(a: int, b: int): int { if a <= b then a else b }

  /** Python's `s[lo:hi]` for `0 <= lo <= hi`: both bounds are clamped to the length. */
  function Slice<T>(s: seq<T>, lo: nat, hi: nat): (r: seq<T>)
    requires lo <= hi
    ensures |r| == Min(hi, |s|) - Min(lo, |s|)
    ensures forall j :: 0 <= j < |r| ==> r[j] == s[lo + j]
  {
    s[Min(lo, |s|)..Min(hi, |s|)]
  }

  /** The elements of all inner sequences, one after another. */
  function Flatten<T>(xss: seq<seq<T>>): seq<T>
    decreases |xss|
  {
    if xss == [] then [] else xss[0] + Flatten(xss[1..])
  }

  /** `f` applied to every element, in order (a Python list comprehension). */
  function MapSeq<T, U>(xs: seq<T>, f: T -> U): (r: seq<U>)
    ensures |r| == |xs|
    ensures forall j :: 0 <= j < |xs| ==> r[j] == f(xs[j])
  {
    seq(|xs|, j requires 0 <= j < |xs| => f(xs[j]))
  }

  /** The blocks of the first n + 1 items are those of the first n, then item n's. */
  lemma BlocksSnoc<T, U>(xs: seq<T>, n: nat, block: T -> seq<U>)
    requires n < |xs|
    ensures Flatten(MapSeq(xs[..n + 1], block)) ==
      Flatten(MapSeq(xs[..n], block)) + block(xs[n])
  {
    assert xs[..n + 1] == xs[..n] + [xs[n]];
    assert MapSeq(xs[..n + 1], block) == MapSeq(xs[..n], block) + [block(xs[n])];
    FlattenSnoc(MapSeq(xs[..n], block), block(xs[n]));
  }

  /** Flattening after appending one block appends that block. */
  lemma FlattenSnoc<T>(xss: seq<seq<T>>, x: seq<T>)
    ensures Flatten(xss + [x]) == Flatten(xss) + x
    decreases |xss|
  {
    if xss == [] {
      assert [x][1..] == [];
    } else {
      assert (xss + [x])[1..] == xss[1..] + [x];
      FlattenSnoc(xss[1..], x);
    }
  }
}
