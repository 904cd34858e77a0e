/** Splitting a list into the batches of at most ten that the venue accepts per call. */
module Chunking {

  import opened Seqs

  /** The venue's per-call batch limit, the step of `range(0, len(items), 10)`. */
  const BatchSize: nat := 10

  /** The number of iterations of `range(0, n, 10)`: the ceiling of n / 10. */
  function ChunkCount(n: nat): nat
  {
    (n + BatchSize - 1) / BatchSize
  }

  /** The loop `for i in range(0, n, 10)` runs its iteration t (offset 10t) exactly when t < ceil(n/10). */
  lemma ChunkCountStep(n: nat, t: nat)
    ensures BatchSize * t < n <==> t < ChunkCount(n)
  {
  }

  /**
   * The chunks `xs[0:10], xs[10:20], ...`: there are ceil(|xs|/10) of them, none is empty or
   * longer than ten, and together, in order, they are exactly `xs`.
   */
  function Chunks<T>(xs: seq<T>): (r: seq<seq<T>>)
    ensures |r| == ChunkCount(|xs|)
    ensures forall k :: 0 <= k < |r| ==> 0 < |r[k]| <= BatchSize
    ensures Flatten(r) == xs
    decreases |xs|
  {
    if xs == [] then []
    else if |xs| <= BatchSize then
      assert Flatten([xs]) == xs + Flatten([]);
      [xs]
    else
      var rest := Chunks(xs[BatchSize..]);
      var r := [xs[..BatchSize]] + rest;
      assert r[1..] == rest;
      assert Flatten(r) == xs[..BatchSize] + Flatten(rest);
      r
  }

  /**
   * The k-th chunk is the slice the k-th loop iteration takes, `xs[10k : 10k+10]`, and it
   * starts inside `xs`.
   */
  lemma {:induction false} ChunkAt<T>(xs: seq<T>, k: nat)
    requires k < |Chunks(xs)|
    ensures BatchSize * k < |xs|
    ensures Chunks(xs)[k] == Slice(xs, BatchSize * k, BatchSize * k + BatchSize)
    decreases k
  {
    if k > 0 {
      var tail := xs[BatchSize..];
      assert Chunks(xs)[k] == Chunks(tail)[k - 1];
      ChunkAt(tail, k - 1);
      assert Slice(tail, BatchSize * (k - 1), BatchSize * k) == Slice(xs, BatchSize * k, BatchSize * k + BatchSize);
    }
  }

  /** Item p is submitted exactly where the loop puts it: at position p % 10 of chunk p / 10. */
  lemma ItemPlacement<T>(xs: seq<T>, p: nat)
    requires p < |xs|
    ensures p / BatchSize < |Chunks(xs)|
    ensures p % BatchSize < |Chunks(xs)[p / BatchSize]|
    ensures Chunks(xs)[p / BatchSize][p % BatchSize] == xs[p]
  {
    var k := p / BatchSize;
    ChunkAt(xs, k);
  }

  /** Stringifying item by item and then flattening the chunks is stringifying the whole list. */
  lemma {:induction false} FlattenMapChunks<T, U>(xss: seq<seq<T>>, f: T -> U)
    ensures Flatten(MapSeq(xss, (c: seq<T>) => MapSeq(c, f))) == MapSeq(Flatten(xss), f)
    decreases |xss|
  {
    if xss != [] {
      var g := (c: seq<T>) => MapSeq(c, f);
      FlattenMapChunks(xss[1..], f);
      assert MapSeq(xss, g)[1..] == MapSeq(xss[1..], g);
      assert MapSeq(xss[0] + Flatten(xss[1..]), f) == MapSeq(xss[0], f) + MapSeq(Flatten(xss[1..]), f);
    }
  }
}
