# neuralnet in Dafny

A model of the core of `neuralnet`, a small feedforward neural network
written in Rust. It covers:

- its two vector snapshots;
- the sigmoid activation;
- network construction;
- backpropagation and the batch loops of the two stochastic-gradient-descent
  trainers;
- the byte-level decoding of the MNIST IDX files.

All of the network's arithmetic is `f64`. The model uses `real`, so what it
proves is the shape and index discipline around that arithmetic, plus the
integer and byte codecs. It does not prove numerical accuracy.

How the model represents the Rust code:

- **Panics.** Every Rust panic is a value: operations return
  `Outcomes.Result<T>`, either `Ok(value)` or `Err(panic)`. The `Panic` kind
  names the cause: a dimension mismatch, a failed `assert_eq!`, an index out
  of bounds, an integer subtraction or multiplication overflowing, a
  division by zero, or `todo!()`.
- **Integer overflow** follows a debug build: it panics. For example, the
  `u32` pixel count in `MNISTImageReader::new` panics at or above 2^32.
- **The exponential.** `E.powf(x)` is not computable over reals. It is a
  parameter `exp` of type `Sigmoid.ExpFn`, which is any function with only
  positive values. The one fact that needs `exp(0) == 1` takes it as a
  precondition.
- **Two vector snapshots.**
  - `CheckedVector` is `src/vector/mod.rs`, the crate's `Vector`. Add, sub
    and dot all panic on a length mismatch. The by-value, `&` and `&mut` dot
    impls share one body, so they are one function.
  - `UncheckedVector` is `src/vector/vector.rs`. Add and sub panic, but
    `dot` never checks: `zip` stops at the shorter operand.
  - The borrowed and owned forms of add and of sub have identical bodies, so
    each is one function.
  - Backpropagation uses `inner_ref`, which only `vector.rs` has, so `Sgd`
    builds on `UncheckedVector`. `Network::new` and the IDX readers build on
    `CheckedVector`.
- **Backpropagation.** `Sgd.Backpropagate` follows `backpropagate` step by
  step:
  - the forward loop (`Sgd.ForwardPass`);
  - the output step (`Sgd.OutputStep`);
  - the backward loop (`Sgd.BackwardPass`), one pass at a time
    (`Sgd.HiddenStep`);
  - the final reversal.

  `backpropagate` is generic over the network's activation function `A` and
  calls only its `derivative`. `Sgd.Net` carries that derivative as a
  function field. The two `assert_eq!`s compare the derivative's own length,
  and so does the model. The lemmas about intended shapes require the
  derivative to keep lengths (`Sgd.KeepsLength`). The sigmoid's derivative
  does (`Sgd.SigmoidKeepsLength`).

  Three collaborators are not in the modelled files: `Network::feed_layer`,
  `Dot::dot` and `Scale::scale`. `feed_layer` is a function field of
  `Sgd.Net`. Its shape assumption is the predicate `Sgd.FeedLayerShaped`:
  both parts for layer `k` have `configuration[k]` entries. `dot` is a
  parameter. `Scale` is defined as the assumed `scale(v, x)[i] == v[i] * x`.

  The model does what the code does, including where that departs from the
  textbook algorithm:
  - A hidden delta dots each ROW of `weight_matrix[len - layer]` with the
    next delta.
  - A hidden layer's weight gradient scales the activation of that same
    layer, `activations[len - (layer + 1)]`. The output layer's gradient
    scales the activation of the layer before it.

  `Sgd.GradientShapes` states the resulting row widths.
  `Sgd.RunsOnIntendedTables` shows a consequence of the `assert_eq!`s: on
  tables of the shapes `Network::new` intends, backpropagation runs only when
  every layer past the input has the same width. The `assert_eq!` at
  src/train/sgd.rs:86 compares the output delta, one entry per output unit,
  with the activation of the layer before the output. So, with three or
  more layers whose last two differ in width, a target of the output width
  gets past the `sub` at :74 and the `assert_eq!` at :75 and always panics
  at :86. A target of another width panics earlier, in the `sub`. With two
  layers, the layer before the output is the input, so the panic at :86
  happens for inputs of the configured input width. `Sgd.MnistShapePanics`
  states this for the MNIST shape `[784, 30, 10]`: every input and target
  panics, because for every input the output activation has 10 entries and
  the hidden one 30.
  The fix the authors intended is not evident from the code. Removing that
  assertion leaves the hidden-step `assert_eq!` at :102, which needs equal
  widths for another reason: rows of `weight_matrix` are dotted where the
  textbook algorithm uses columns. The model therefore keeps the code as
  written.
- **Data sources.** The `DataSource` iterator of `src/source/mod.rs` is the
  class `Source.DataSource`: a list of items and a cursor. `len` counts the
  items not yet taken, and `next` returns `None` at the end.
  - `Sgd.Train` pulls and backpropagates every item of every whole batch and
    discards the results. Because `len` is exactly the number of items left,
    the `next().unwrap()` at src/train/sgd.rs:36 always finds an item, so
    this `unwrap` cannot panic. `Sgd.TrainBatch` proves that branch dead.
  - The trainer of `src/train.rs` (`ChunkedTrainer`) reads its data set as a
    plain sequence. `ChunkedTrainer.TrainInner` cuts it into
    `Subsampling.Chunks` and then always panics in `todo!()`.
  - The network is a value in both trainers, and neither returns one, so
    neither changes it.

## Model

| member | source | states |
|---|---|---|
| RealSums.SumProductsCommutes | src/vector/mod.rs:104-109 | the sum of entrywise products is the same with the operands swapped |
| RealSums.SumProductsPrefix | src/vector/vector.rs:96-104 | the sum over the first `n` positions depends only on the first `n` entries of each operand |
| RealSums.SumProductsOfZeros | src/vector/mod.rs:104-109 | a sum of products with an all-zero left operand is zero |
| CheckedVector.Len | src/vector/mod.rs:190-192 | `len` is the number of scalars that `into` hands back |
| CheckedVector.Into | src/vector/mod.rs:201-205 | `into` gives up the scalars and nothing else: rewrapping them gives the same vector |
| CheckedVector.From | src/vector/mod.rs:195-199 | wrapping keeps the scalars: `into(from(s)) == s` and `len(from(s)) == \|s\|` |
| CheckedVector.New | src/vector/mod.rs:184-188 | `new(n)` has length `n` and every entry `0.0` |
| CheckedVector.Add | src/vector/mod.rs:13-45 | panics exactly when the lengths differ; otherwise the result has the same length and `r[i] == a[i] + b[i]` |
| CheckedVector.Sub | src/vector/mod.rs:47-79 | panics exactly when the lengths differ; otherwise the result has the same length and `r[i] == a[i] - b[i]` |
| CheckedVector.Dot | src/vector/mod.rs:81-181 | every dot impl panics exactly when the lengths differ |
| CheckedVector.SubUndoesAdd | src/vector/mod.rs:13-79 | for equal lengths, add succeeds and `sub(add(a, b), b) == a` |
| CheckedVector.DotCommutes | src/vector/mod.rs:104-111 | `a * b == b * a`, including the panic when the lengths differ |
| CheckedVector.DotWithNew | src/vector/mod.rs:184-188 | the dot product with `new(len(v))`, on either side, is `0.0` |
| CheckedVector.DotUnfolds | src/vector/mod.rs:104-111 | for equal non-zero lengths, the dot product is that of the prefixes plus `a[n-1] * b[n-1]`: the sum over all positions |
| CheckedVector.DotEmpty | src/vector/mod.rs:104-111 | the dot product of two empty vectors is `0.0` (the empty sum) |
| UncheckedVector.Len | src/vector/vector.rs:11-13 | `len` is the number of scalars that `into` hands back |
| UncheckedVector.Into | src/vector/vector.rs:128-132 | `into` gives up the scalars and nothing else: rewrapping them gives the same vector |
| UncheckedVector.InnerRef | src/vector/vector.rs:11-18 | `len(v) == \|inner_ref(v)\|` |
| UncheckedVector.From | src/vector/vector.rs:118-137 | wrapping keeps the scalars: `into(from(s)) == s`, `inner_ref(from(s)) == s` and `len(from(s)) == \|s\|` |
| UncheckedVector.Add | src/vector/vector.rs:26-58 | both forms panic exactly when the lengths differ; otherwise same length and `r[i] == a[i] + b[i]` |
| UncheckedVector.Sub | src/vector/vector.rs:60-92 | both forms panic exactly when the lengths differ; otherwise same length and `r[i] == a[i] - b[i]` |
| UncheckedVector.SubUndoesAdd | src/vector/vector.rs:26-92 | for equal lengths, `sub(add(a, b), b) == a` |
| UncheckedVector.Dot | src/vector/vector.rs:96-104 | `dot` with an empty vector, on either side and whatever the other's length, is `0.0` |
| UncheckedVector.DotCommutes | src/vector/vector.rs:96-104 | `dot` is commutative for every pair, including unequal lengths |
| UncheckedVector.DotTruncates | src/vector/vector.rs:96-104 | `dot` ignores the longer operand's entries past the shorter's length: it equals the dot product of both cut to `min(\|a\|, \|b\|)` |
| UncheckedVector.DotUnfolds | src/vector/vector.rs:96-104 | for equal non-zero lengths, `dot` is the prefixes' `dot` plus the product of the last entries |
| Sigmoid.Logistic | src/activation/sigmoid.rs:16 | with a positive exponential, `1 / (1 + exp(-x))` lies strictly between 0 and 1 |
| Sigmoid.Activation | src/activation/sigmoid.rs:11-20 | preserves length, and every entry lies strictly in (0, 1) |
| Sigmoid.Derivative | src/activation/sigmoid.rs:22-31 | preserves length, and entry `i` is `s * (1 - s)` for `s` the activation of the raw input's entry `i` |
| Sigmoid.ActivationAt | src/activation/sigmoid.rs:14-17 | `activation(z)[i] == 1 / (1 + exp(-z[i]))` |
| Sigmoid.SlopeBounds | src/activation/sigmoid.rs:27 | for `0 < s < 1`, `0 < s * (1 - s) <= 1/4` |
| Sigmoid.DerivativeBounds | src/activation/sigmoid.rs:22-31 | every derivative entry lies in (0, 1/4] |
| Sigmoid.ActivationOfZeros | src/activation/sigmoid.rs:11-31 | with `exp(0) == 1`, a zero vector activates to all `0.5` and its derivative is all `0.25` |
| Network.Get | src/lib.rs:13-19 | every variant yields a closure whose values lie strictly in (0, 1) |
| Network.GetAgreesWithActivation | src/lib.rs:13-19 | the closure `get` returns agrees, entry by entry, with the sigmoid activation of a vector |
| Network.NewAsWritten | src/lib.rs:30-56 | as written, `new` panics with an index out of bounds exactly when the configuration is non-empty; the empty configuration gives empty tables |
| Network.New | src/lib.rs:30-56 | as intended: one zero bias row of `configuration[i]` entries per layer, layer `i` holding `configuration[i]` zero weight rows of length `configuration[0]`, the configuration stored unchanged, and the activation function from `get` |
| Network.NewDiscrepancy | src/lib.rs:32-44 | for `[2, 3, 1]`: the code as written panics, the intended tables have the commented shapes |
| Idx.AccumulateStep | src/util/idx.rs:13-15 | one loop iteration ORs the next byte, shifted to its place, into the accumulator |
| Idx.AccumulatedValue | src/util/idx.rs:12-15 | the four placed bytes occupy disjoint bits, so their OR is the big-endian sum `b0*2^24 + b1*2^16 + b2*2^8 + b3` (below 2^32) |
| Idx.U8ToU32 | src/util/idx.rs:11-18 | reads only the first four bytes: `res == b[0]*2^24 + b[1]*2^16 + b[2]*2^8 + b[3]` |
| Idx.DecodeEncode | src/util/idx.rs:11-18 | decoding the four-byte most-significant-first encoding of any `u32` gives it back |
| Idx.EncodeDecode | src/util/idx.rs:11-18 | re-encoding the word four bytes decode to gives those bytes back |
| Idx.LabelReaderHeader | src/util/idx.rs:33-34 | `dimens == buf[3]` and `num_items` is the big-endian number at bytes 4..8 |
| Idx.MulU32 | src/util/idx.rs:86 | `u32` multiplication succeeds exactly when the product is below 2^32, and then it is the product; otherwise it panics |
| Idx.ImageReaderHeader | src/util/idx.rs:77-86 | items, rows and columns are the big-endian numbers at bytes 4, 8 and 12; `n_pixels` is `cols * rows`, a panic if that reaches 2^32 |
| Idx.ReadNextLabel | src/util/idx.rs:43-53 | nothing read gives `None`; otherwise it succeeds exactly for labels 1 to 10, with a length-10 one-hot at `label - 1`; label 0 underflows and a label above 10 is out of range |
| Idx.ReadNextLabelIntended | src/util/idx.rs:49-50 | corrected: succeeds exactly for labels 0 to 9, with the one-hot at the label's own index |
| Idx.LabelZeroDiscrepancy | src/util/idx.rs:49-50 | the digit 0 panics as written and is encoded at index 0 as intended |
| Idx.ReadNextImage | src/util/idx.rs:90-101 | with `read` delivering at most the buffer's `n_pixels` bytes: nothing read gives `None`; otherwise `n_pixels` reals, pixel `i` being exactly the byte `buf[i]` as a number |
| Idx.ImagePixelsRoundTrip | src/util/idx.rs:96-99 | every pixel is a whole number (equal to its own floor) from 0 to 255, and its floor is its byte, in order |
| Sgd.ForwardPass | src/train/sgd.rs:52-61 | `\|activations\| == \|configuration\|` (1 for an empty one), `\|zs\| == \|activations\| - 1`, `activations[0]` is the input and each later entry and each `zs` entry is the matching part of `feed_layer` on the activation before it |
| Sgd.ForwardShapes | src/train/sgd.rs:57-61 | under the `feed_layer` shape assumption, activation and pre-activation `k` have `configuration[k]` entries |
| Sgd.ZipProductsEntries | src/train/sgd.rs:76-80 | entry `i` of the zipped products is `x[i] * y[i]` |
| Sgd.OutputDeltaEntries | src/train/sgd.rs:71-82 | the output delta has the output layer's length and `d[i] == (a_L[i] - target[i]) * derivative(z_L)[i]` |
| Sgd.DotRows | src/train/sgd.rs:100 | one dot product per ROW of the weight table, each with the previous delta |
| Sgd.HiddenDeltaEntries | src/train/sgd.rs:96-111 | a hidden delta has one entry per row of `weight_matrix[len - layer]` and `delta[j] == derivative(z)[j] * dot(W[j], prev_delta)` |
| Sgd.Scale | src/train/sgd.rs:89 | `scale` keeps the vector's length; `Sgd.ScaleEntries` gives entry `i` as `v[i] * x` |
| Sgd.ScaledRows | src/train/sgd.rs:113-123 | one row per delta entry, row `j` the activation scaled by `delta[j]` |
| Sgd.GradientEntries | src/train/sgd.rs:83-91 | a weight gradient has `\|delta\|` rows, each as long as the activation, with entry `i` of row `j` equal to `activation[i] * delta[j]` |
| Sgd.Reverse | src/train/sgd.rs:126-127 | the reversal has the same length and entry `i` is entry `len - 1 - i` |
| Sgd.ReversedGradients | src/train/sgd.rs:126-129 | read back in forward order, every hidden entry of the reverse-built lists is the delta computed from the next layer's and its gradient |
| Sgd.SigmoidKeepsLength | src/activation/sigmoid.rs:22-31 | the sigmoid's `derivative`, the one the crate provides, returns a vector of its input's length |
| Sgd.OutputStep | src/train/sgd.rs:63-91 | succeeds exactly when `a_L`, the target and the derivative of `z_L` agree in length (`sub` and the `assert_eq!` at :75) and `a_L` matches the second-last activation (:86); a length mismatch with the target is a dimension panic; on success it returns the output delta and its gradient rows |
| Sgd.HiddenStep | src/train/sgd.rs:93-124 | succeeds exactly when the table exists (the subtraction) and has one row per derivative entry (:102); then it returns the hidden delta and its gradient rows, scaling that same layer's activation |
| Sgd.BackwardPass | src/train/sgd.rs:93-124 | returns exactly when every hidden step runs; then each list has one entry per layer past the input, still in reverse order, starting with the output step's, and every later entry is the hidden delta computed from the entry before it, with its gradient |
| Sgd.Backpropagate | src/train/sgd.rs:45-130 | returns exactly when `Sgd.Runs` holds, and panics otherwise: fewer than two layers underflow, and a target of the wrong length is a dimension panic; on success both lists have `\|configuration\| - 1` entries in forward order, the last the output delta and its gradient, every earlier one the hidden delta computed from the next and its gradient |
| Sgd.HiddenStepOnIntendedTables | src/train/sgd.rs:97-102 | on the tables `Network::new` intends, with a derivative that keeps lengths, the hidden step for nabla index `l` runs exactly when layers `l + 1` and `l + 2` have the same width |
| Sgd.RunsOnIntendedTables | src/train/sgd.rs:71-111 | on the tables `Network::new` intends, with a derivative that keeps lengths, backpropagation runs exactly when the target has the output width and every layer past the input has one width (two layers: the input's width too) |
| Sgd.MnistShapePanics | src/train/sgd.rs:72-90 | on the intended tables, a `[784, 30, 10]` network panics in `backpropagate` for every input and target; for every input the output activation has 10 entries and the hidden one 30, so a target of the output width reaches the `assert_eq!` at :86 and fails there |
| Sgd.GradientShapes | src/train/sgd.rs:83-123 | `nabla_bias[l]` and the row count of `nabla_weight[l]` are the width of layer `l + 1`; for three or more layers, output gradient rows have the width of the layer before the output; hidden gradient rows have the width of layer `l + 1` |
| Sgd.TwoLayerGradientShapes | src/train/sgd.rs:83-90 | with two layers, the output gradient's rows are as long as the input, and a run forces that length to be the output width |
| Sgd.TrainBatch | src/train/sgd.rs:36-40 | pulls and backpropagates `s` items in turn: it returns exactly when all of them run, having consumed exactly those; on a panic the item just taken is the first that does not run |
| Sgd.Train | src/train/sgd.rs:24-43 | panics on a zero subsample size without reading; otherwise it returns exactly when all of the first `(len / s) * s` remaining items run, having consumed exactly those; on a panic the item just taken is the first that does not run |
| Source.DataSource.constructor | src/source/mod.rs:1-4 | a fresh source positioned before its first item |
| Source.DataSource.Len | src/source/mod.rs:3 | `len` is the number of items not yet taken, and it is 0 exactly when the items have run out |
| Source.DataSource.Next | src/source/mod.rs:1-4 | yields the item at the cursor and advances, or `None` with nothing changed once the items run out |
| Subsampling.Iterations | src/train.rs:28 | panics exactly when the subsample size is zero; otherwise it is the quotient `q` with `q * s <= len < (q + 1) * s` |
| Subsampling.LeftOver | src/train.rs:28 | the whole subsamples take at most `len` items and leave `len % s < s` over |
| Subsampling.ChunkInBounds | src/train.rs:31-33 | the slice for every `x < iterations` ends inside the data set |
| Subsampling.Chunk | src/train.rs:32 | chunk `x` has length `s` and entry `i` is `dataset[x * s + i]` |
| Subsampling.Chunks | src/train.rs:31-33 | `len / s` chunks, each of length `s` |
| Subsampling.ChunksCoverPrefix | src/train.rs:31-33 | the first `k` chunks, concatenated, are the first `k * s` items |
| Subsampling.ChunksConcatenate | src/train.rs:27-33 | the chunks are consecutive and disjoint, their concatenation is the `iterations * s` prefix, and the last `len % s` items are dropped |
| ChunkedTrainer.TrainInner | src/train.rs:23-55 | a zero subsample size panics in the division; otherwise every chunk is visited in order and the method ends in the `todo!()` panic |
| ChunkedTrainer.Train | src/train.rs:62-66 | delegates to `train_inner`, so it always panics: division by zero or `todo!()` |

## Left out

- The SIMD paths of `src/vector/mod.rs`, which go through the `faster` crate, and the disabled `f32` alternates of `src/vector/vector.rs`. Only the scalar `f64` path is modelled.
- IEEE `f64` rounding, NaN and infinities. Reals stand in for `f64`, and `E.powf` is the positive-valued parameter `exp`.
- `Sigmoid::init` builds a field-less struct and carries no behaviour. The `StochasticGradientDescent::new` constructors of both trainers are the datatype constructors.
- File I/O in `src/util/idx.rs`: opening the files and reading from them. Each operation takes the bytes a read delivered. As written, each read buffer comes from `Vec::with_capacity(k)`, whose length is 0, so the slice `&mut buf[0..k]` handed to `read` is out of bounds and panics before anything is read (src/util/idx.rs:24, :45, :68, :92). This is the same `with_capacity` defect as in `Network::new` (see Findings). The model takes the intended `k`-byte buffers and does not model this panic. `MNISTIDXTrainingData::next` is `todo!()` and is not part of this model.
- Idx.U8ToU32: requires at least four bytes instead of modelling the index panic on a shorter slice, because every caller passes a four-byte slice.
- Idx.LabelReaderHeader: requires exactly the 8 header bytes, and Idx.ImageReaderHeader exactly 16. How much a read delivers is file I/O.
- `Network::feed_layer`, `Dot::dot`, `Scale::scale` and the fields of `Network<A>` are not part of this model. `feed_layer` is a function field of `Sgd.Net`. Its shape assumption is stated as `Sgd.FeedLayerShaped`, and the lemmas that need it require it. `dot` is a parameter. `Scale` is defined by its assumed contract.
- Panics inside `feed_layer`, `dot` and `scale`: all three are total in the model, so it assumes they never panic, although a real `feed_layer` or `dot` would fail on mismatched dimensions. `FeedLayerShaped` even fixes the result lengths for an input of any length. So `Sgd.Backpropagate`'s "succeeds exactly when `Sgd.Runs`", the right-to-left direction of `Sgd.RunsOnIntendedTables`, and the "returns exactly when" of `Sgd.Train` and `Sgd.TrainBatch` hold relative to that assumption. The panics counted there are only those of the modelled code: the `sub`, the `usize` subtractions and the `assert_eq!`s.
- Batch averaging and the weight update. No modelled file applies the gradients, and `Sgd.Train` discards them as the code does.
- The per-sample `map` in `train_inner` is lazy and never consumed, so its body (including `feed_layer`) never runs and is not modelled. The unused `StochasticGradientDescent::backpropagate` of `src/train.rs` is `todo!()` and is never called.
- The trait-only files `src/train/mod.rs`, `src/activation/mod.rs` and `src/source.rs` are not modelled. `ActivationFunction` enters `Sgd` only through the `derivative` field of `Sgd.Net`. `src/source/mod.rs` enters only as the concrete `Source.DataSource`.
- Mutation of the network through `&mut`. No modelled code writes it, and passing it as a value makes that evident rather than proved about references.
- Concurrency: there is none in the code.

## Findings

| source | as written | input that shows it | evidently intended | confidence | as-written member | corrected member |
|---|---|---|---|---|---|---|
| src/lib.rs:32-44 | both tables come from `Vec::with_capacity`, which has length 0, and are then filled by indexed assignment, so `bias_matrix[0] = ...` is out of bounds | configuration `[2, 3, 1]` | tables of the shapes the comments at :36 and :43 describe, built by pushing | not executed | Network.NewAsWritten (Network.NewDiscrepancy) | Network.New |
| src/util/idx.rs:50 | the one-hot index is `label - 1`, which underflows for the digit 0 that every MNIST label file contains | label byte `0` | the 1.0 at the label's own index, for labels 0 to 9 | not executed | Idx.ReadNextLabel (Idx.LabelZeroDiscrepancy) | Idx.ReadNextLabelIntended |
