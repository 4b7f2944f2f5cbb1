/** The trainer of src/train.rs, written against the `Network` of src/lib.rs
    and a data source read through `iter()`, so a plain sequence of
    input-output pairs here. `train_inner` cuts the data set into whole
    subsamples and walks them, but the per-sample `map` it builds in each
    pass is lazy and never consumed, and the method then ends in `todo!()`:
    it never changes the network and never returns normally. */
module ChunkedTrainer {
  import opened Outcomes
  import CheckedVector
  import Network
  import Subsampling

  type Pair = (CheckedVector.Vector, CheckedVector.Vector)

  /** `StochasticGradientDescent` of src/train.rs; `new` is its constructor. */
  datatype StochasticGradientDescent = StochasticGradientDescent(eta: real, subsampleSize: nat)

  /** `train_inner`: the subsamples it walks, in order, and how it ends:
      the division panics for a zero subsample size; otherwise every whole
      subsample is visited and `todo!()` panics. */
  method TrainInner(trainer: StochasticGradientDescent, net: Network.Network, dataset: seq<Pair>)
    returns (visited: seq<seq<Pair>>, r: Result<()>)
    ensures trainer.subsampleSize == 0 ==> r == Err(DivideByZero) && visited == []
    ensures trainer.subsampleSize > 0 ==>
      r == Err(NotImplemented) && visited == Subsampling.Chunks(dataset, trainer.subsampleSize)
  {
    visited := [];
    var s := trainer.subsampleSize;
    var iterations := Subsampling.Iterations(|dataset|, s);
    if iterations.Err? {
      return visited, Err(iterations.panic);
    }
    for x := 0 to iterations.value
      invariant visited == Subsampling.Chunks(dataset, s)[..x]
    {
      Subsampling.ChunkInBounds(|dataset|, s, x);
      var subsample := dataset[x * s..(x + 1) * s];
      visited := visited + [subsample];
    }
    r := Err(NotImplemented);
  }

  /** `Trainer::train`: delegates to `train_inner`, so it too never returns
      normally. */
  method Train(trainer: StochasticGradientDescent, net: Network.Network, dataset: seq<Pair>)
    returns (r: Result<()>)
    ensures r.Err?
    ensures r.panic == if trainer.subsampleSize == 0 then DivideByZero else NotImplemented
  {
    var _, result := TrainInner(trainer, net, dataset);
    r := result;
  }
}
