/** The batching arithmetic shared by both trainers: the number of whole
    subsamples in a data set, and the slicing of src/train.rs that cuts the
    data set into them. */
module Subsampling {
  import opened Outcomes

  /** `len / subsample_size`, which panics when the subsample size is zero:
      the number of whole subsamples, any partial one at the end dropped. */
  function Iterations(len: nat, subsampleSize: nat): (r: Result<nat>)
    ensures r.Err? <==> subsampleSize == 0
    ensures r.Err? ==> r.panic == DivideByZero
    ensures r.Ok? ==> r.value * subsampleSize <= len < (r.value + 1) * subsampleSize
  {
    if subsampleSize == 0 then Err(DivideByZero)
    else
      var q := len / subsampleSize;
      assert len == q * subsampleSize + len % subsampleSize;
      Ok(q)
  }

  /** The whole subsamples never take more than the data set has, and what
      they leave over is the remainder, fewer than one subsample. */
  lemma LeftOver(len: nat, subsampleSize: nat)
    requires subsampleSize > 0
    ensures Iterations(len, subsampleSize).value * subsampleSize <= len
    ensures len - Iterations(len, subsampleSize).value * subsampleSize == len % subsampleSize < subsampleSize
  {
    var q := Iterations(len, subsampleSize).value;
    assert len == q * subsampleSize + len % subsampleSize;
  }

  /** Every subsample before the last whole one ends inside the data set. */
  lemma ChunkInBounds(len: nat, subsampleSize: nat, x: nat)
    requires subsampleSize > 0 && x < len / subsampleSize
    ensures (x + 1) * subsampleSize <= len
  {
    var q := len / subsampleSize;
    assert len == q * subsampleSize + len % subsampleSize;
    assert x + 1 <= q;
    MultiplyMonotone(x + 1, q, subsampleSize);
  }

  lemma {:induction false} MultiplyMonotone(a: nat, b: nat, c: nat)
    requires a <= b
    ensures a * c <= b * c
  {
    if a < b {
      MultiplyMonotone(a, b - 1, c);
      assert (b - 1) * c + c == b * c;
    }
  }

  /** Subsample `x`: `dataset[x * s .. (x + 1) * s]`. */
  function Chunk<T>(dataset: seq<T>, subsampleSize: nat, x: nat): (c: seq<T>)
    requires (x + 1) * subsampleSize <= |dataset|
    ensures |c| == subsampleSize
    ensures forall i :: 0 <= i < subsampleSize ==> c[i] == dataset[x * subsampleSize + i]
  {
    dataset[x * subsampleSize..(x + 1) * subsampleSize]
  }

  /** `(0..iterations).map(|x| Vec::from(&dataset[x * s..(x + 1) * s]))`,
      for a non-zero subsample size. */
  function Chunks<T>(dataset: seq<T>, subsampleSize: nat): (r: seq<seq<T>>)
    requires subsampleSize > 0
    ensures |r| == |dataset| / subsampleSize
    ensures forall x :: 0 <= x < |r| ==> |r[x]| == subsampleSize
  {
    seq(|dataset| / subsampleSize, x requires 0 <= x < |dataset| / subsampleSize =>
      ChunkInBounds(|dataset|, subsampleSize, x);
      Chunk(dataset, subsampleSize, x))
  }

  /** The subsamples laid end to end. */
  function Flatten<T>(chunks: seq<seq<T>>): seq<T>
  {
    if |chunks| == 0 then [] else Flatten(chunks[..|chunks| - 1]) + chunks[|chunks| - 1]
  }

  /** The first `k` subsamples, laid end to end, are the first `k * s` items. */
  lemma {:induction false} ChunksCoverPrefix<T>(dataset: seq<T>, subsampleSize: nat, k: nat)
    requires subsampleSize > 0 && k <= |dataset| / subsampleSize
    ensures k * subsampleSize <= |dataset|
    ensures Flatten(Chunks(dataset, subsampleSize)[..k]) == dataset[..k * subsampleSize]
  {
    var chunks := Chunks(dataset, subsampleSize);
    if k == 0 {
      assert chunks[..0] == [];
    } else {
      ChunksCoverPrefix(dataset, subsampleSize, k - 1);
      ChunkInBounds(|dataset|, subsampleSize, k - 1);
      assert chunks[..k][..k - 1] == chunks[..k - 1];
      assert chunks[k - 1] == dataset[(k - 1) * subsampleSize..k * subsampleSize];
      assert (k - 1) * subsampleSize + subsampleSize == k * subsampleSize;
      assert dataset[..k * subsampleSize]
          == dataset[..(k - 1) * subsampleSize] + dataset[(k - 1) * subsampleSize..k * subsampleSize];
    }
  }

  /** The subsamples are consecutive, disjoint slices whose concatenation is
      the data set cut to `iterations * s` items; the last `|dataset| % s`
      items are in none of them. */
  lemma ChunksConcatenate<T>(dataset: seq<T>, subsampleSize: nat)
    requires subsampleSize > 0
    ensures var whole := Iterations(|dataset|, subsampleSize).value * subsampleSize;
      && Flatten(Chunks(dataset, subsampleSize)) == dataset[..whole]
      && |dataset| - whole == |dataset| % subsampleSize
  {
    var chunks := Chunks(dataset, subsampleSize);
    ChunksCoverPrefix(dataset, subsampleSize, |chunks|);
    assert chunks[..|chunks|] == chunks;
    LeftOver(|dataset|, subsampleSize);
  }
}
