/** The stochastic-gradient-descent trainer of src/train/sgd.rs: the batch
    loop `Trainer::train` and `backpropagate`. Vectors are those of
    src/vector/vector.rs. Three collaborators are not part of this model and
    enter as values: `Network::feed_layer` (a function field of `Net`), the
    `Dot` trait (a parameter `dot`) and the `Scale` trait (`Scale` below,
    assumed to multiply every entry by the factor). The network's activation
    function `A` is generic and enters through its derivative, a field of
    `Net`. */
module Sgd {
  import opened Outcomes
  import opened UncheckedVector
  import Sigmoid
  import Source
  import Subsampling

  /** `StochasticGradientDescent`; `StochasticGradientDescent::new` is its constructor. */
  datatype StochasticGradientDescent = StochasticGradientDescent(eta: real, subsampleSize: nat)

  /** An activation function's derivative that keeps a vector's length. */
  ghost predicate KeepsLength(derivative: Vector -> Vector)
  {
    forall v :: Len(derivative(v)) == Len(v)
  }

  /** The derivative of the sigmoid of src/activation/sigmoid.rs, the one
      activation function the crate provides, keeps lengths. */
  lemma SigmoidKeepsLength(exp: Sigmoid.ExpFn)
    ensures KeepsLength(v => Sigmoid.Derivative(exp, v))
  {
  }

  /** The parts of `Network<A>` that `backpropagate` reads. */
  datatype Net = Net(
    configuration: seq<nat>,
    weightMatrix: seq<seq<Vector>>,
    derivative: Vector -> Vector,
    feedLayer: (Vector, nat) -> (Vector, Vector))

  /** `Scale::scale`, as assumed: every entry multiplied by `x`. */
  function Scale(v: Vector, x: real): (r: Vector)
    ensures Len(r) == Len(v)
  {
    From(seq(Len(v), i requires 0 <= i < Len(v) => v.inner[i] * x))
  }

  /** Entry `i` of the scaled vector is `v[i] * x`. Stated apart from
      `Scale`, so that proofs about shapes do not see the products. */
  lemma ScaleEntries(v: Vector, x: real)
    ensures forall i :: 0 <= i < Len(v) ==> Scale(v, x).inner[i] == v.inner[i] * x
  {
  }

  /** The stated assumption on the unseen `Network::feed_layer`: for every
      layer `k` past the input it returns a pre-activation and an activation
      of `configuration[k]` entries each. */
  ghost predicate FeedLayerShaped(net: Net)
  {
    forall a: Vector, k: nat :: 1 <= k < |net.configuration| ==>
      Len(net.feedLayer(a, k).0) == net.configuration[k] && Len(net.feedLayer(a, k).1) == net.configuration[k]
  }

  /** `activations[k]` of the forward pass: the input, then the activation
      part of `feed_layer` applied to the previous one. */
  function ForwardActivation(net: Net, input: Vector, k: nat): Vector
  {
    if k == 0 then input else net.feedLayer(ForwardActivation(net, input, k - 1), k).1
  }

  /** `zs[k - 1]` of the forward pass: the pre-activation of layer `k`. */
  function ForwardZ(net: Net, input: Vector, k: nat): Vector
    requires k >= 1
  {
    net.feedLayer(ForwardActivation(net, input, k - 1), k).0
  }

  /** The forward loop of `backpropagate` (lines 52-61): pushes every
      pre-activation and activation; `1..len` is empty for fewer than two
      layers. */
  method ForwardPass(net: Net, input: Vector) returns (zs: seq<Vector>, activations: seq<Vector>)
    ensures |activations| == if |net.configuration| == 0 then 1 else |net.configuration|
    ensures |zs| == |activations| - 1
    ensures forall k {:trigger activations[k]} :: 0 <= k < |activations| ==> activations[k] == ForwardActivation(net, input, k)
    ensures forall k {:trigger zs[k]} :: 0 <= k < |zs| ==> zs[k] == ForwardZ(net, input, k + 1)
  {
    zs := [];
    activations := [input];
    var layer := 1;
    while layer < |net.configuration|
      invariant 1 <= layer && (layer <= |net.configuration| || layer == 1)
      invariant |activations| == layer && |zs| == layer - 1
      invariant forall k {:trigger activations[k]} :: 0 <= k < layer ==> activations[k] == ForwardActivation(net, input, k)
      invariant forall k {:trigger zs[k]} :: 0 <= k < layer - 1 ==> zs[k] == ForwardZ(net, input, k + 1)
    {
      var step := net.feedLayer(activations[|activations| - 1], layer);
      assert step.0 == ForwardZ(net, input, layer) && step.1 == ForwardActivation(net, input, layer);
      zs := zs + [step.0];
      activations := activations + [step.1];
      layer := layer + 1;
    }
  }

  /** Under the shape assumption, every retained vector past the input has
      its layer's width. */
  lemma {:induction false} ForwardShapes(net: Net, input: Vector, k: nat)
    requires FeedLayerShaped(net)
    requires 1 <= k < |net.configuration|
    ensures Len(ForwardActivation(net, input, k)) == net.configuration[k]
    ensures Len(ForwardZ(net, input, k)) == net.configuration[k]
  {
    var step := net.feedLayer(ForwardActivation(net, input, k - 1), k);
    assert Len(step.0) == net.configuration[k] && Len(step.1) == net.configuration[k];
  }

  /** The weight table the hidden step for nabla index `l` reads:
      `weight_matrix[weight_matrix.len() - layer]` with `layer = n - 2 - l`. */
  function WeightsRead(net: Net, l: nat): seq<Vector>
    requires l + 2 < |net.configuration| && |net.configuration| - 2 - l <= |net.weightMatrix|
  {
    net.weightMatrix[|net.weightMatrix| - (|net.configuration| - 2 - l)]
  }

  /** The hidden step for nabla index `l` passes its subtraction and its
      `assert_eq!` (line 102): the table it reads exists and has one row per
      entry of the layer's derivative. */
  predicate HiddenStepRuns(net: Net, input: Vector, l: nat)
    requires l + 2 < |net.configuration|
  {
    && |net.configuration| - 2 - l <= |net.weightMatrix|
    && Len(net.derivative(ForwardZ(net, input, l + 1))) == |WeightsRead(net, l)|
  }

  /** Exactly the configurations and pairs for which `backpropagate` returns. */
  predicate Runs(net: Net, input: Vector, output: Vector)
  {
    var n := |net.configuration|;
    && n >= 2
    && Len(ForwardActivation(net, input, n - 1)) == Len(output)
    && Len(net.derivative(ForwardZ(net, input, n - 1))) == Len(ForwardActivation(net, input, n - 1))
    && Len(ForwardActivation(net, input, n - 1)) == Len(ForwardActivation(net, input, n - 2))
    && forall l :: 0 <= l < n - 2 ==> HiddenStepRuns(net, input, l)
  }

  /** `xs.iter().zip(ys.iter()).map(|(x, y)| x * y).collect()`, used once
      both lengths have been asserted equal. */
  function ZipProducts(xs: seq<real>, ys: seq<real>): (r: seq<real>)
    requires |xs| == |ys|
    ensures |r| == |xs|
  {
    seq(|xs|, i requires 0 <= i < |xs| => xs[i] * ys[i])
  }

  /** Entry `i` of the zipped products is `xs[i] * ys[i]`. */
  lemma ZipProductsEntries(xs: seq<real>, ys: seq<real>)
    requires |xs| == |ys|
    ensures forall i :: 0 <= i < |xs| ==> ZipProducts(xs, ys)[i] == xs[i] * ys[i]
  {
  }

  /** The output error: the entrywise product of `a_L - target` with the
      derivative of `z_L`, all three of one length. */
  predicate OutputDeltaAt(net: Net, input: Vector, output: Vector, delta: Vector)
    requires |net.configuration| >= 2
  {
    var n := |net.configuration|;
    var aL, zL := ForwardActivation(net, input, n - 1), ForwardZ(net, input, n - 1);
    && Len(aL) == Len(output) == Len(net.derivative(zL))
    && delta == From(ZipProducts(Into(Sub(aL, output).value), Into(net.derivative(zL))))
  }

  /** Entry by entry, the output error is `(a_L[i] - target[i]) * derivative(z_L)[i]`. */
  lemma OutputDeltaEntries(net: Net, input: Vector, output: Vector, delta: Vector)
    requires |net.configuration| >= 2 && OutputDeltaAt(net, input, output, delta)
    ensures var n := |net.configuration|;
      var aL, zL := ForwardActivation(net, input, n - 1), ForwardZ(net, input, n - 1);
      && Len(delta) == Len(aL)
      && forall i :: 0 <= i < Len(delta) ==>
           delta.inner[i] == (aL.inner[i] - output.inner[i]) * net.derivative(zL).inner[i]
  {
    var n := |net.configuration|;
    var zL := ForwardZ(net, input, n - 1);
    OutputErrorEntries(ForwardActivation(net, input, n - 1), output, net.derivative(zL), delta);
  }

  /** The output error on plain vectors: `(a[i] - target[i]) * d[i]`. */
  lemma OutputErrorEntries(a: Vector, target: Vector, d: Vector, delta: Vector)
    requires Len(a) == Len(target) == Len(d)
    requires delta == From(ZipProducts(Into(Sub(a, target).value), Into(d)))
    ensures Len(delta) == Len(a)
    ensures forall i :: 0 <= i < Len(delta) ==> delta.inner[i] == (a.inner[i] - target.inner[i]) * d.inner[i]
  {
    var diff := Sub(a, target).value;
    ZipProductsEntries(Into(diff), Into(d));
    forall i | 0 <= i < Len(delta)
      ensures delta.inner[i] == (a.inner[i] - target.inner[i]) * d.inner[i]
    {
      assert delta.inner[i] == diff.inner[i] * d.inner[i];
      MultiplyEqual(diff.inner[i], a.inner[i] - target.inner[i], d.inner[i]);
    }
  }

  lemma MultiplyEqual(x: real, x': real, y: real)
    requires x == x'
    ensures x * y == x' * y
  {
  }

  /** `weights.iter().map(|x| x.dot(prev_delta)).collect()`: one dot
      product per row of the table. */
  function DotRows(dot: (Vector, Vector) -> real, rows: seq<Vector>, next: Vector): (r: seq<real>)
    ensures |r| == |rows|
    ensures forall j :: 0 <= j < |rows| ==> r[j] == dot(rows[j], next)
  {
    seq(|rows|, j requires 0 <= j < |rows| => dot(rows[j], next))
  }

  /** A hidden delta: the entrywise product of the derivative of the layer's
      pre-activation with the dot products of the ROWS of the table read and
      the next layer's delta. */
  predicate HiddenDeltaAt(net: Net, dot: (Vector, Vector) -> real, input: Vector, l: nat, delta: Vector, next: Vector)
    requires l + 2 < |net.configuration| && HiddenStepRuns(net, input, l)
  {
    delta == From(ZipProducts(Into(net.derivative(ForwardZ(net, input, l + 1))),
                              DotRows(dot, WeightsRead(net, l), next)))
  }

  /** Entry by entry, a hidden delta is `derivative(z)[j] * dot(w[j], next)`,
      one entry per row of the table read. */
  lemma HiddenDeltaEntries(net: Net, dot: (Vector, Vector) -> real, input: Vector, l: nat, delta: Vector, next: Vector)
    requires l + 2 < |net.configuration| && HiddenStepRuns(net, input, l)
    requires HiddenDeltaAt(net, dot, input, l, delta, next)
    ensures Len(delta) == |WeightsRead(net, l)|
    ensures forall j :: 0 <= j < Len(delta) ==>
      delta.inner[j] == net.derivative(ForwardZ(net, input, l + 1)).inner[j] * dot(WeightsRead(net, l)[j], next)
  {
    var d, rows := net.derivative(ForwardZ(net, input, l + 1)), WeightsRead(net, l);
    assert delta == From(ZipProducts(Into(d), DotRows(dot, rows, next)));
    HiddenErrorEntries(d, dot, rows, next, delta);
  }

  /** A hidden delta on plain vectors: `d[j] * dot(rows[j], next)`. */
  lemma HiddenErrorEntries(d: Vector, dot: (Vector, Vector) -> real, rows: seq<Vector>, next: Vector, delta: Vector)
    requires Len(d) == |rows|
    requires delta == From(ZipProducts(Into(d), DotRows(dot, rows, next)))
    ensures Len(delta) == |rows|
    ensures forall j :: 0 <= j < |rows| ==> delta.inner[j] == d.inner[j] * dot(rows[j], next)
  {
    var w := DotRows(dot, rows, next);
    ZipProductsEntries(Into(d), w);
    forall j | 0 <= j < |rows|
      ensures delta.inner[j] == d.inner[j] * dot(rows[j], next)
    {
      assert delta.inner[j] == d.inner[j] * w[j];
      MultiplyEqual(w[j], dot(rows[j], next), d.inner[j]);
    }
  }


  /** `delta.iter().map(|x| activation.scale(*x)).collect()`. */
  function ScaledRows(activation: Vector, delta: Vector): (r: seq<Vector>)
    ensures |r| == Len(delta)
    ensures forall j :: 0 <= j < |r| ==> r[j] == Scale(activation, delta.inner[j])
  {
    seq(Len(delta), j requires 0 <= j < Len(delta) => Scale(activation, delta.inner[j]))
  }

  /** A weight gradient: the activation scaled by each delta entry in turn. */
  predicate GradientRows(rows: seq<Vector>, activation: Vector, delta: Vector)
  {
    rows == ScaledRows(activation, delta)
  }

  /** Entry by entry, a weight gradient has one row per delta entry, and
      entry `i` of row `j` is `activation[i] * delta[j]`. */
  lemma GradientEntries(rows: seq<Vector>, activation: Vector, delta: Vector)
    requires GradientRows(rows, activation, delta)
    ensures |rows| == Len(delta)
    ensures forall j :: 0 <= j < |rows| ==> Len(rows[j]) == Len(activation)
    ensures forall j, i :: 0 <= j < |rows| && 0 <= i < Len(activation) ==>
      rows[j].inner[i] == activation.inner[i] * delta.inner[j]
  {
    forall j | 0 <= j < |rows|
      ensures Len(rows[j]) == Len(activation)
      ensures forall i :: 0 <= i < Len(activation) ==> rows[j].inner[i] == activation.inner[i] * delta.inner[j]
    {
      ScaleEntries(activation, delta.inner[j]);
    }
  }

  /** `rev_nabla_*.into_iter().rev().collect()`. */
  function Reverse<T>(s: seq<T>): (r: seq<T>)
    ensures |r| == |s|
    ensures forall i :: 0 <= i < |s| ==> r[i] == s[|s| - 1 - i]
  {
    seq(|s|, i requires 0 <= i < |s| => s[|s| - 1 - i])
  }

  /** Entry `m >= 1` of the reverse-built lists: the hidden delta of nabla
      index `l = n - 2 - m`, computed from bias entry `m - 1`, and its weight
      gradient, built from activation `l + 1`. */
  predicate BackwardStepAt(net: Net, dot: (Vector, Vector) -> real, input: Vector,
                           revBias: seq<Vector>, revWeight: seq<seq<Vector>>, m: nat)
    requires 1 <= m < |revBias| == |revWeight| <= |net.configuration| - 1
  {
    var l := |net.configuration| - 2 - m;
    && HiddenStepRuns(net, input, l)
    && HiddenDeltaAt(net, dot, input, l, revBias[m], revBias[m - 1])
    && GradientRows(revWeight[m], ForwardActivation(net, input, l + 1), revBias[m])
  }

  /** The reverse-built lists of `backpropagate`, read back in forward
      layer order: entry `m` of the reversed lists is entry `n - 2 - m` of
      the results. */
  lemma ReversedGradients(net: Net, dot: (Vector, Vector) -> real, input: Vector,
                          revBias: seq<Vector>, revWeight: seq<seq<Vector>>)
    requires |net.configuration| >= 2
    requires |revBias| == |net.configuration| - 1 && |revWeight| == |net.configuration| - 1
    requires forall m :: 1 <= m < |revBias| ==> BackwardStepAt(net, dot, input, revBias, revWeight, m)
    ensures forall l :: 0 <= l < |net.configuration| - 2 ==> HiddenStepRuns(net, input, l)
    ensures var nablaBias, nablaWeight := Reverse(revBias), Reverse(revWeight);
      forall l :: 0 <= l < |net.configuration| - 2 ==>
        && HiddenDeltaAt(net, dot, input, l, nablaBias[l], nablaBias[l + 1])
        && GradientRows(nablaWeight[l], ForwardActivation(net, input, l + 1), nablaBias[l])
  {
    var n := |net.configuration|;
    var nablaBias, nablaWeight := Reverse(revBias), Reverse(revWeight);
    forall l | 0 <= l < n - 2
      ensures HiddenStepRuns(net, input, l)
      ensures HiddenDeltaAt(net, dot, input, l, nablaBias[l], nablaBias[l + 1])
      ensures GradientRows(nablaWeight[l], ForwardActivation(net, input, l + 1), nablaBias[l])
    {
      var m := n - 2 - l;
      assert BackwardStepAt(net, dot, input, revBias, revWeight, m);
      assert n - 2 - m == l;
      assert GradientRows(revWeight[m], ForwardActivation(net, input, l + 1), revBias[m]);
      assert nablaBias[l] == revBias[m] && nablaBias[l + 1] == revBias[m - 1];
      assert nablaWeight[l] == revWeight[m];
    }
  }

  /** What `ForwardPass` leaves behind, for a network of at least two layers. */
  predicate Forwarded(net: Net, input: Vector, zs: seq<Vector>, activations: seq<Vector>)
  {
    && |net.configuration| >= 2
    && |activations| == |net.configuration| && |zs| == |activations| - 1
    && (forall k {:trigger activations[k]} :: 0 <= k < |activations| ==> activations[k] == ForwardActivation(net, input, k))
    && (forall k {:trigger zs[k]} :: 0 <= k < |zs| ==> zs[k] == ForwardZ(net, input, k + 1))
  }

  /** The output step of `backpropagate` (lines 63-91): the output error
      `delta` and the output weight gradient built row by row from the
      second last activation. */
  method OutputStep(net: Net, input: Vector, output: Vector, zs: seq<Vector>, activations: seq<Vector>)
    returns (r: Result<(Vector, seq<Vector>)>)
    requires Forwarded(net, input, zs, activations)
    ensures var n := |net.configuration|;
      r.Ok? <==>
        && Len(ForwardActivation(net, input, n - 1)) == Len(output)
        && Len(net.derivative(ForwardZ(net, input, n - 1))) == Len(ForwardActivation(net, input, n - 1))
        && Len(ForwardActivation(net, input, n - 1)) == Len(ForwardActivation(net, input, n - 2))
    ensures Len(ForwardActivation(net, input, |net.configuration| - 1)) != Len(output) ==> r == Err(DimensionMismatch)
    ensures r.Err? ==> r.panic in {DimensionMismatch, AssertEqFailed}
    ensures r.Ok? ==>
      && OutputDeltaAt(net, input, output, r.value.0)
      && GradientRows(r.value.1, ForwardActivation(net, input, |net.configuration| - 2), r.value.0)
  {
    var n := |net.configuration|;
    assert zs[|zs| - 1] == ForwardZ(net, input, n - 1);
    assert activations[|activations| - 1] == ForwardActivation(net, input, n - 1);
    assert activations[|activations| - 2] == ForwardActivation(net, input, n - 2);
    var deriv := net.derivative(zs[|zs| - 1]);
    var diffOrPanic := Sub(activations[|activations| - 1], output);
    if diffOrPanic.Err? {
      return Err(diffOrPanic.panic);
    }
    var diff := diffOrPanic.value;
    if Len(deriv) != Len(diff) {
      return Err(AssertEqFailed);
    }
    var delta := From(ZipProducts(Into(diff), Into(deriv)));
    var previous := activations[|activations| - 2];
    if Len(delta) != Len(previous) {
      return Err(AssertEqFailed);
    }
    var nablaWs: seq<Vector> := [];
    for j := 0 to Len(delta)
      invariant nablaWs == ScaledRows(previous, delta)[..j]
    {
      nablaWs := nablaWs + [Scale(previous, delta.inner[j])];
    }
    r := Ok((delta, nablaWs));
  }

  /** One pass of the backward loop of `backpropagate` (lines 93-124) for
      `layer` counted back from the output, that is nabla index
      `n - 2 - layer`: the hidden delta from the table
      `weight_matrix[len - layer]` and the delta after it, then its weight
      gradient built from `activations[len - (layer + 1)]`. */
  method HiddenStep(net: Net, dot: (Vector, Vector) -> real, input: Vector,
                    zs: seq<Vector>, activations: seq<Vector>, layer: nat, prevDelta: Vector)
    returns (r: Result<(Vector, seq<Vector>)>)
    requires Forwarded(net, input, zs, activations)
    requires 1 <= layer < |net.configuration| - 1
    ensures var l := |net.configuration| - 2 - layer;
      r.Ok? <==> HiddenStepRuns(net, input, l)
    ensures r.Err? ==> r.panic in {SubtractOverflow, AssertEqFailed}
    ensures var l := |net.configuration| - 2 - layer;
      r.Ok? ==>
        && HiddenStepRuns(net, input, l)
        && HiddenDeltaAt(net, dot, input, l, r.value.0, prevDelta)
        && GradientRows(r.value.1, ForwardActivation(net, input, l + 1), r.value.0)
  {
    var n := |net.configuration|;
    assert zs[|zs| - (layer + 1)] == ForwardZ(net, input, n - 1 - layer);
    assert activations[|activations| - (layer + 1)] == ForwardActivation(net, input, n - 1 - layer);
    var sigmoidPrime := net.derivative(zs[|zs| - (layer + 1)]);
    if |net.weightMatrix| < layer {
      return Err(SubtractOverflow);
    }
    var weights := net.weightMatrix[|net.weightMatrix| - layer];
    assert weights == WeightsRead(net, n - 2 - layer);
    var dotProd := DotRows(dot, weights, prevDelta);
    if Len(sigmoidPrime) != |dotProd| {
      return Err(AssertEqFailed);
    }
    var nablaB := From(ZipProducts(InnerRef(sigmoidPrime), dotProd));
    assert (n - 2 - layer) + 1 == n - 1 - layer;
    var activation := activations[|activations| - (layer + 1)];
    var nablaW := ScaledRows(activation, nablaB);
    r := Ok((nablaB, nablaW));
  }

  /** `backpropagate`: on success, `nabla_bias` and `nabla_weight` in forward
      layer order, one entry per layer past the input. The last bias entry is
      the output error; every other is a hidden delta computed from the one
      after it; every weight gradient scales an activation by the delta's
      entries: `activations[L - 1]` for the output layer, but, for a hidden
      layer, the activation of that same layer. */
  method Backpropagate(net: Net, dot: (Vector, Vector) -> real, input: Vector, output: Vector)
    returns (r: Result<(seq<Vector>, seq<seq<Vector>>)>)
    ensures r.Ok? <==> Runs(net, input, output)
    ensures |net.configuration| < 2 ==> r == Err(SubtractOverflow)
    ensures |net.configuration| >= 2 && Len(ForwardActivation(net, input, |net.configuration| - 1)) != Len(output)
      ==> r == Err(DimensionMismatch)
    ensures r.Err? ==> r.panic in {SubtractOverflow, DimensionMismatch, AssertEqFailed}
    ensures r.Ok? ==>
      var n := |net.configuration|;
      var nablaBias, nablaWeight := r.value.0, r.value.1;
      && |nablaBias| == n - 1 && |nablaWeight| == n - 1
      && OutputDeltaAt(net, input, output, nablaBias[n - 2])
      && GradientRows(nablaWeight[n - 2], ForwardActivation(net, input, n - 2), nablaBias[n - 2])
      && forall l :: 0 <= l < n - 2 ==>
           && HiddenDeltaAt(net, dot, input, l, nablaBias[l], nablaBias[l + 1])
           && GradientRows(nablaWeight[l], ForwardActivation(net, input, l + 1), nablaBias[l])
  {
    var zs, activations := ForwardPass(net, input);
    if |zs| == 0 {
      return Err(SubtractOverflow);
    }
    assert Forwarded(net, input, zs, activations);

    var outputOrPanic := OutputStep(net, input, output, zs, activations);
    if outputOrPanic.Err? {
      return Err(outputOrPanic.panic);
    }
    var delta, nablaWs := outputOrPanic.value.0, outputOrPanic.value.1;
    var stepsOrPanic := BackwardPass(net, dot, input, zs, activations, delta, nablaWs);
    if stepsOrPanic.Err? {
      return Err(stepsOrPanic.panic);
    }
    var revNablaBias, revNablaWeight := stepsOrPanic.value.0, stepsOrPanic.value.1;
    ReversedGradients(net, dot, input, revNablaBias, revNablaWeight);
    r := Ok((Reverse(revNablaBias), Reverse(revNablaWeight)));
  }

  /** The backward loop of `backpropagate` (lines 93-128), which starts from
      the output error and its gradient and appends one hidden step per
      layer: it returns exactly when every hidden step runs, and then the
      lists, still in reverse layer order, hold one entry per layer past the
      input, each hidden entry computed from the one before it. */
  method BackwardPass(net: Net, dot: (Vector, Vector) -> real, input: Vector,
                      zs: seq<Vector>, activations: seq<Vector>, delta: Vector, nablaWs: seq<Vector>)
    returns (r: Result<(seq<Vector>, seq<seq<Vector>>)>)
    requires Forwarded(net, input, zs, activations)
    ensures r.Ok? <==> forall l :: 0 <= l < |net.configuration| - 2 ==> HiddenStepRuns(net, input, l)
    ensures r.Err? ==> r.panic in {SubtractOverflow, AssertEqFailed}
    ensures r.Ok? ==>
      var revBias, revWeight := r.value.0, r.value.1;
      && |revBias| == |net.configuration| - 1 && |revWeight| == |revBias|
      && revBias[0] == delta && revWeight[0] == nablaWs
      && forall m :: 1 <= m < |revBias| ==> BackwardStepAt(net, dot, input, revBias, revWeight, m)
  {
    var n := |net.configuration|;
    var revNablaBias := [delta];
    var revNablaWeight := [nablaWs];
    for layer := 1 to n - 1
      invariant |revNablaBias| == layer && |revNablaWeight| == layer
      invariant revNablaBias[0] == delta && revNablaWeight[0] == nablaWs
      invariant forall m :: 1 <= m < layer ==> BackwardStepAt(net, dot, input, revNablaBias, revNablaWeight, m)
    {
      var stepOrPanic := HiddenStep(net, dot, input, zs, activations, layer, revNablaBias[|revNablaBias| - 1]);
      if stepOrPanic.Err? {
        assert !HiddenStepRuns(net, input, n - 2 - layer);
        return Err(stepOrPanic.panic);
      }
      BackwardStepsExtend(net, dot, input, revNablaBias, revNablaWeight, stepOrPanic.value.0, stepOrPanic.value.1);
      revNablaBias := revNablaBias + [stepOrPanic.value.0];
      revNablaWeight := revNablaWeight + [stepOrPanic.value.1];
      assert BackwardStepAt(net, dot, input, revNablaBias, revNablaWeight, layer);
    }
    StepsRun(net, dot, input, revNablaBias, revNablaWeight);
    r := Ok((revNablaBias, revNablaWeight));
  }

  /** A step recorded for every hidden layer means every hidden step runs. */
  lemma StepsRun(net: Net, dot: (Vector, Vector) -> real, input: Vector,
                 revBias: seq<Vector>, revWeight: seq<seq<Vector>>)
    requires |revBias| == |revWeight| == |net.configuration| - 1
    requires forall m :: 1 <= m < |revBias| ==> BackwardStepAt(net, dot, input, revBias, revWeight, m)
    ensures forall l :: 0 <= l < |net.configuration| - 2 ==> HiddenStepRuns(net, input, l)
  {
    forall l | 0 <= l < |net.configuration| - 2
      ensures HiddenStepRuns(net, input, l)
    {
      assert BackwardStepAt(net, dot, input, revBias, revWeight, |net.configuration| - 2 - l);
    }
  }

  /** Appending a step to the reverse-built lists keeps the steps already
      there. */
  lemma BackwardStepsExtend(net: Net, dot: (Vector, Vector) -> real, input: Vector,
                            revBias: seq<Vector>, revWeight: seq<seq<Vector>>, delta: Vector, rows: seq<Vector>)
    requires 1 <= |revBias| == |revWeight| < |net.configuration| - 1
    requires forall m :: 1 <= m < |revBias| ==> BackwardStepAt(net, dot, input, revBias, revWeight, m)
    ensures forall m :: 1 <= m < |revBias| ==>
      BackwardStepAt(net, dot, input, revBias + [delta], revWeight + [rows], m)
  {
    forall m | 1 <= m < |revBias|
      ensures BackwardStepAt(net, dot, input, revBias + [delta], revWeight + [rows], m)
    {
      assert BackwardStepAt(net, dot, input, revBias, revWeight, m);
      assert (revBias + [delta])[m] == revBias[m] && (revBias + [delta])[m - 1] == revBias[m - 1];
      assert (revWeight + [rows])[m] == revWeight[m];
    }
  }

  /** On tables of the shapes `Network::new` intends (one table per layer,
      table `i` with `configuration[i]` rows), the two `assert_eq!`s leave
      `backpropagate` running only when every layer past the input has the
      same width: the hidden step compares layer `l + 1`'s width with the row
      count of table `l + 2`. */
  lemma {:induction false} RunsOnIntendedTables(net: Net, input: Vector, output: Vector)
    requires FeedLayerShaped(net)
    requires KeepsLength(net.derivative)
    requires |net.weightMatrix| == |net.configuration|
    requires forall i :: 0 <= i < |net.weightMatrix| ==> |net.weightMatrix[i]| == net.configuration[i]
    ensures var c, n := net.configuration, |net.configuration|;
      Runs(net, input, output) <==>
        && n >= 2
        && Len(output) == c[n - 1]
        && (n == 2 ==> Len(input) == c[1])
        && forall k :: 1 <= k < n ==> c[k] == c[1]
  {
    var c, n := net.configuration, |net.configuration|;
    if n >= 2 {
      ForwardShapes(net, input, n - 1);
      if n >= 3 {
        ForwardShapes(net, input, n - 2);
      }
      forall l | 0 <= l < n - 2
        ensures HiddenStepRuns(net, input, l) <==> c[l + 1] == c[l + 2]
      {
        HiddenStepOnIntendedTables(net, input, l);
      }
      if Runs(net, input, output) {
        var k := 1;
        while k < n
          invariant 1 <= k <= n
          invariant forall i :: 1 <= i < k ==> c[i] == c[1]
        {
          if k >= 2 {
            assert HiddenStepRuns(net, input, k - 2);
          }
          k := k + 1;
        }
      }
      if Len(output) == c[n - 1] && (n == 2 ==> Len(input) == c[1]) && forall k :: 1 <= k < n ==> c[k] == c[1] {
        forall l | 0 <= l < n - 2
          ensures HiddenStepRuns(net, input, l)
        {
          assert c[l + 1] == c[1] == c[l + 2];
        }
      }
    }
  }

  /** On those tables the hidden step for nabla index `l` runs exactly when
      layers `l + 1` and `l + 2` have the same width. */
  lemma HiddenStepOnIntendedTables(net: Net, input: Vector, l: nat)
    requires FeedLayerShaped(net)
    requires KeepsLength(net.derivative)
    requires |net.weightMatrix| == |net.configuration|
    requires forall i :: 0 <= i < |net.weightMatrix| ==> |net.weightMatrix[i]| == net.configuration[i]
    requires l + 2 < |net.configuration|
    ensures HiddenStepRuns(net, input, l) <==> net.configuration[l + 1] == net.configuration[l + 2]
  {
    ForwardShapes(net, input, l + 1);
    assert WeightsRead(net, l) == net.weightMatrix[l + 2];
  }

  /** A network shaped like the usual MNIST one, 784 inputs, 30 hidden
      units and 10 outputs, never gets through `backpropagate` on the
      intended tables, whatever the input and target. Whatever the input,
      the output activation has 10 entries and the hidden one 30, so a
      target of the output width passes the `sub` and the first
      `assert_eq!` and the output gradient's `assert_eq!` then compares a
      10-entry delta with the 30-entry hidden activation. */
  lemma MnistShapePanics(net: Net, input: Vector, output: Vector)
    requires FeedLayerShaped(net)
    requires KeepsLength(net.derivative)
    requires net.configuration == [784, 30, 10]
    requires |net.weightMatrix| == 3
    requires forall i :: 0 <= i < 3 ==> |net.weightMatrix[i]| == net.configuration[i]
    ensures !Runs(net, input, output)
    ensures Len(ForwardActivation(net, input, 2)) == 10 && Len(ForwardActivation(net, input, 1)) == 30
  {
    ForwardShapes(net, input, 2);
    ForwardShapes(net, input, 1);
    RunsOnIntendedTables(net, input, output);
    assert net.configuration[2] != net.configuration[1];
  }

  /** The shapes of what `backpropagate` returns: `nabla_bias[l]` and the
      row count of `nabla_weight[l]` are the width of layer `l + 1`, and the
      output gradient's rows have the width of the layer before the output,
      but a hidden gradient's rows have the width of layer `l + 1` itself,
      since they scale that layer's own activation. */
  lemma GradientShapes(net: Net, dot: (Vector, Vector) -> real, input: Vector, output: Vector,
                       nablaBias: seq<Vector>, nablaWeight: seq<seq<Vector>>)
    requires FeedLayerShaped(net)
    requires KeepsLength(net.derivative)
    requires Runs(net, input, output)
    requires |nablaBias| == |net.configuration| - 1 && |nablaWeight| == |net.configuration| - 1
    requires OutputDeltaAt(net, input, output, nablaBias[|net.configuration| - 2])
    requires GradientRows(nablaWeight[|net.configuration| - 2], ForwardActivation(net, input, |net.configuration| - 2),
                          nablaBias[|net.configuration| - 2])
    requires forall l :: 0 <= l < |net.configuration| - 2 ==>
      && HiddenDeltaAt(net, dot, input, l, nablaBias[l], nablaBias[l + 1])
      && GradientRows(nablaWeight[l], ForwardActivation(net, input, l + 1), nablaBias[l])
    ensures var c := net.configuration;
      forall l :: 0 <= l < |c| - 1 ==> Len(nablaBias[l]) == c[l + 1] && |nablaWeight[l]| == c[l + 1]
    ensures var c, n := net.configuration, |net.configuration|;
      n >= 3 ==> forall row :: row in nablaWeight[n - 2] ==> Len(row) == c[n - 2]
    ensures var c := net.configuration;
      forall l, j :: 0 <= l < |c| - 2 && 0 <= j < |nablaWeight[l]| ==> Len(nablaWeight[l][j]) == c[l + 1]
  {
    var c, n := net.configuration, |net.configuration|;
    ForwardShapes(net, input, n - 1);
    if n >= 3 {
      ForwardShapes(net, input, n - 2);
    }
    forall l | 0 <= l < n - 2
      ensures Len(nablaBias[l]) == c[l + 1] && |nablaWeight[l]| == c[l + 1]
      ensures forall j :: 0 <= j < |nablaWeight[l]| ==> Len(nablaWeight[l][j]) == c[l + 1]
    {
      ForwardShapes(net, input, l + 1);
      HiddenDeltaEntries(net, dot, input, l, nablaBias[l], nablaBias[l + 1]);
    }
  }

  /** With only two layers, the layer before the output is the input, so
      the one weight gradient's rows are as long as the input, which a run
      forces to be the output width. */
  lemma TwoLayerGradientShapes(net: Net, input: Vector, output: Vector, nablaBias: seq<Vector>, nablaWeight: seq<seq<Vector>>)
    requires FeedLayerShaped(net)
    requires |net.configuration| == 2
    requires Runs(net, input, output)
    requires |nablaBias| == 1 && |nablaWeight| == 1
    requires GradientRows(nablaWeight[0], ForwardActivation(net, input, 0), nablaBias[0])
    ensures Len(input) == net.configuration[1]
    ensures forall row :: row in nablaWeight[0] ==> Len(row) == Len(input)
  {
    ForwardShapes(net, input, 1);
    forall row | row in nablaWeight[0]
      ensures Len(row) == Len(input)
    {
      var j :| 0 <= j < |nablaWeight[0]| && nablaWeight[0][j] == row;
    }
  }

  /** The `count` items from position `from` all pass through `backpropagate`. */
  predicate AllRun(net: Net, items: seq<(Vector, Vector)>, from: nat, count: nat)
  {
    from + count <= |items| && forall j :: from <= j < from + count ==> Runs(net, items[j].0, items[j].1)
  }

  /** `Trainer::train`: `len / subsample_size` batches, each pulling
      `subsample_size` items with `next().unwrap()` and backpropagating each
      as it is pulled; the results are dropped and the network is only read.
      It returns once every batch is done, or panics at the first item
      `backpropagate` panics on, that item already taken. */
  method Train(trainer: StochasticGradientDescent, net: Net, dot: (Vector, Vector) -> real,
               data: Source.DataSource<(Vector, Vector)>)
    returns (r: Result<()>)
    requires data.Valid()
    modifies data
    ensures data.Valid() && data.items == old(data.items)
    ensures trainer.subsampleSize == 0 ==> r == Err(DivideByZero) && data.cursor == old(data.cursor)
    ensures var s := trainer.subsampleSize;
      s > 0 ==>
        var consumed := Subsampling.Iterations(old(data.Len()), s).value * s;
        && (r.Ok? <==> AllRun(net, data.items, old(data.cursor), consumed))
        && (r.Ok? ==> data.cursor == old(data.cursor) + consumed)
        && (r.Err? ==>
              && old(data.cursor) < data.cursor <= old(data.cursor) + consumed
              && AllRun(net, data.items, old(data.cursor), data.cursor - 1 - old(data.cursor))
              && !Runs(net, data.items[data.cursor - 1].0, data.items[data.cursor - 1].1))
    ensures r.Err? ==> r.panic in {DivideByZero, SubtractOverflow, DimensionMismatch, AssertEqFailed}
  {
    var s := trainer.subsampleSize;
    var numDataTotal := data.Len();
    var nSubsamples := Subsampling.Iterations(numDataTotal, s);
    if nSubsamples.Err? {
      return Err(nSubsamples.panic);
    }
    ghost var start := data.cursor;
    for i := 0 to nSubsamples.value
      invariant data.Valid() && data.items == old(data.items)
      invariant data.cursor == start + i * s
      invariant AllRun(net, data.items, start, i * s)
    {
      Subsampling.MultiplyMonotone(i + 1, nSubsamples.value, s);
      assert i * s + s == (i + 1) * s;
      var batch := TrainBatch(net, dot, data, s);
      if batch.Err? {
        return Err(batch.panic);
      }
    }
    r := Ok(());
  }

  /** One batch of `Trainer::train`: `s` items pulled with `next().unwrap()`
      and backpropagated in turn, stopping at the first panic. */
  method TrainBatch(net: Net, dot: (Vector, Vector) -> real, data: Source.DataSource<(Vector, Vector)>, s: nat)
    returns (r: Result<()>)
    requires data.Valid() && s <= data.Len()
    modifies data
    ensures data.Valid() && data.items == old(data.items)
    ensures r.Ok? <==> AllRun(net, data.items, old(data.cursor), s)
    ensures r.Ok? ==> data.cursor == old(data.cursor) + s
    ensures r.Err? ==>
      && old(data.cursor) < data.cursor <= old(data.cursor) + s
      && AllRun(net, data.items, old(data.cursor), data.cursor - 1 - old(data.cursor))
      && !Runs(net, data.items[data.cursor - 1].0, data.items[data.cursor - 1].1)
    ensures r.Err? ==> r.panic in {SubtractOverflow, DimensionMismatch, AssertEqFailed}
  {
    for j := 0 to s
      invariant data.Valid() && data.items == old(data.items)
      invariant data.cursor == old(data.cursor) + j
      invariant AllRun(net, data.items, old(data.cursor), j)
    {
      var next := data.Next();
      if next.None? {
        assert false;
      }
      var result := Backpropagate(net, dot, next.value.0, next.value.1);
      if result.Err? {
        return Err(result.panic);
      }
    }
    r := Ok(());
  }
}
