/** The `Network` of src/lib.rs: the closed set of activation functions and
    the construction of the zero-filled bias and weight tables. It is built
    on the `Vector` of src/vector/mod.rs, whose `Vector::new` it calls. */
module Network {
  import opened Outcomes
  import CheckedVector
  import Sigmoid
  import UncheckedVector

  /** `ActivationFunc`: one variant so far. */
  datatype ActivationFunc = Sigmoid

  /** `ActivationFunc::get`: whatever the variant, the wildcard arm returns
      the logistic closure `x -> 1 / (1 + E.powf(-x))`. */
  function Get(f: ActivationFunc, exp: Sigmoid.ExpFn): (g: real -> real)
    ensures forall x :: 0.0 < g(x) < 1.0
  {
    match f
    case _ => (x: real) => Sigmoid.Logistic(exp, x)
  }

  /** The closure `get` returns computes, on every entry, what the vector
      activation of src/activation/sigmoid.rs computes. */
  lemma GetAgreesWithActivation(f: ActivationFunc, exp: Sigmoid.ExpFn, z: seq<real>)
    ensures forall i :: 0 <= i < |z| ==>
      Get(f, exp)(z[i]) == Sigmoid.Activation(exp, UncheckedVector.From(z)).inner[i]
  {
  }

  datatype Network = Network(
    activationFunction: real -> real,
    biasMatrix: seq<seq<real>>,
    configuration: seq<nat>,
    weightMatrix: seq<seq<CheckedVector.Vector>>)

  /** The shapes the comments of `Network::new` describe, filled with zeros:
      one bias row per configuration entry, row `i` holding `configuration[i]`
      biases; layer `i` holding `configuration[i]` weight rows, each of the
      input width `configuration[0]` whatever the layer. */
  predicate ZeroInitialised(net: Network)
  {
    var c := net.configuration;
    && |net.biasMatrix| == |c|
    && (forall i :: 0 <= i < |c| ==> |net.biasMatrix[i]| == c[i])
    && (forall i, k :: 0 <= i < |c| && 0 <= k < |net.biasMatrix[i]| ==> net.biasMatrix[i][k] == 0.0)
    && |net.weightMatrix| == |c|
    && (forall i :: 0 <= i < |c| ==> |net.weightMatrix[i]| == c[i])
    && (forall i, j :: 0 <= i < |c| && 0 <= j < |net.weightMatrix[i]| ==>
          net.weightMatrix[i][j] == CheckedVector.New(c[0]))
  }

  /** `Network::new` as written: both tables come from `Vec::with_capacity`,
      which has length 0, so the very first indexed assignment
      `bias_matrix[0] = ...` is out of bounds. Only the empty configuration,
      for which no loop runs, yields a network. */
  function NewAsWritten(configuration: seq<nat>, f: ActivationFunc, exp: Sigmoid.ExpFn): (r: Result<Network>)
    ensures r.Ok? <==> configuration == []
    ensures r.Err? ==> r.panic == IndexOutOfBounds
    ensures r.Ok? ==> ZeroInitialised(r.value) && r.value.configuration == configuration
  {
    if 0 < |configuration| then Err(IndexOutOfBounds)
    else Ok(Network(Get(f, exp), [], configuration, []))
  }

  /** `Network::new` as its comments intend: the same loops, each growing
      its table instead of assigning past its end. */
  method New(configuration: seq<nat>, f: ActivationFunc, exp: Sigmoid.ExpFn) returns (net: Network)
    ensures ZeroInitialised(net)
    ensures net.configuration == configuration
    ensures net.activationFunction == Get(f, exp)
  {
    var nLayers := |configuration|;
    var biasMatrix: seq<seq<real>> := [];
    for i := 0 to nLayers
      invariant |biasMatrix| == i
      invariant forall k :: 0 <= k < i ==> |biasMatrix[k]| == configuration[k]
      invariant forall k, m :: 0 <= k < i && 0 <= m < |biasMatrix[k]| ==> biasMatrix[k][m] == 0.0
    {
      biasMatrix := biasMatrix + [seq(configuration[i], _ => 0.0)];
    }

    var weightMatrix: seq<seq<CheckedVector.Vector>> := [];
    for i := 0 to nLayers
      invariant |weightMatrix| == i
      invariant forall k :: 0 <= k < i ==> |weightMatrix[k]| == configuration[k]
      invariant forall k, j :: 0 <= k < i && 0 <= j < |weightMatrix[k]| ==>
        weightMatrix[k][j] == CheckedVector.New(configuration[0])
    {
      var layer: seq<CheckedVector.Vector> := [];
      for j := 0 to configuration[i]
        invariant |layer| == j
        invariant forall m :: 0 <= m < j ==> layer[m] == CheckedVector.New(configuration[0])
      {
        layer := layer + [CheckedVector.New(configuration[0])];
      }
      weightMatrix := weightMatrix + [layer];
    }

    net := Network(Get(f, exp), biasMatrix, configuration, weightMatrix);
  }

  /** Concretely, for the configuration [2, 3, 1]: the code as written
      panics, while the intended construction yields three bias rows of
      lengths 2, 3 and 1. */
  method NewDiscrepancy(exp: Sigmoid.ExpFn) returns (net: Network)
    ensures NewAsWritten([2, 3, 1], ActivationFunc.Sigmoid, exp) == Err(IndexOutOfBounds)
    ensures |net.biasMatrix| == 3 && |net.biasMatrix[1]| == 3
    ensures |net.weightMatrix| == 3 && |net.weightMatrix[2]| == 1 && CheckedVector.Len(net.weightMatrix[2][0]) == 2
  {
    net := New([2, 3, 1], ActivationFunc.Sigmoid, exp);
  }
}
