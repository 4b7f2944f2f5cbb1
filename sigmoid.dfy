/** The logistic activation of src/activation/sigmoid.rs, over reals.
    `std::f64::consts::E.powf(x)` is outside the model: every function here
    takes the exponential as a parameter `exp`, of which nothing is known but
    that its values are positive. The one fact that needs more, the output
    0.5 at zero, assumes `exp(0.0) == 1.0` explicitly. */
module Sigmoid {
  import opened UncheckedVector

  /** Stand-in for `x -> E.powf(x)`: any function with positive values. */
  type ExpFn = f: real -> real | forall x :: f(x) > 0.0 witness (x: real) => 1.0

  /** `1.0 / (1.0 + E.powf(-x))` for one scalar. */
  function Logistic(exp: ExpFn, x: real): (s: real)
    ensures 0.0 < s < 1.0
  {
    assert exp(-x) > 0.0;
    1.0 / (1.0 + exp(-x))
  }

  /** `Sigmoid::activation`: the logistic function applied to every entry. */
  function Activation(exp: ExpFn, input: Vector): (r: Vector)
    ensures Len(r) == Len(input)
    ensures forall i :: 0 <= i < Len(input) ==> 0.0 < r.inner[i] < 1.0
  {
    From(seq(Len(input), i requires 0 <= i < Len(input) => Logistic(exp, InnerRef(input)[i])))
  }

  /** The slope of the logistic curve expressed through its value `s`. */
  function Slope(s: real): real
  {
    s * (1.0 - s)
  }

  /** `Sigmoid::derivative`: takes the raw pre-activation, recomputes the
      activation `s` and maps each entry to `s * (1 - s)`. */
  function Derivative(exp: ExpFn, input: Vector): (r: Vector)
    ensures Len(r) == Len(input)
    ensures forall i :: 0 <= i < Len(input) ==>
      r.inner[i] == Slope(Activation(exp, input).inner[i])
  {
    var sigmoidOutput := InnerRef(Activation(exp, input));
    From(seq(|sigmoidOutput|, i requires 0 <= i < |sigmoidOutput| =>
      Slope(sigmoidOutput[i])))
  }

  /** Each activation entry is the logistic function of the entry it came from. */
  lemma ActivationAt(exp: ExpFn, input: Vector, i: nat)
    requires i < Len(input)
    ensures Activation(exp, input).inner[i] == 1.0 / (1.0 + exp(-input.inner[i]))
  {
  }

  /** s(1 - s) = 1/4 - (s - 1/2)^2, positive for 0 < s < 1. */
  lemma SlopeBounds(s: real)
    requires 0.0 < s < 1.0
    ensures 0.0 < Slope(s) <= 0.25
  {
    assert Slope(s) == 0.25 - (s - 0.5) * (s - 0.5);
    assert 0.0 < 1.0 - s;
  }

  /** The derivative lies in (0, 1/4]: s(1 - s) = 1/4 - (s - 1/2)^2 with 0 < s < 1. */
  lemma DerivativeBounds(exp: ExpFn, input: Vector)
    ensures forall i :: 0 <= i < Len(input) ==>
      0.0 < Derivative(exp, input).inner[i] <= 0.25
  {
    forall i | 0 <= i < Len(input)
      ensures 0.0 < Derivative(exp, input).inner[i] <= 0.25
    {
      SlopeBounds(Activation(exp, input).inner[i]);
    }
  }

  /** With `exp(0) == 1`, a zero pre-activation activates to 0.5 everywhere,
      and the derivative there is 0.25. */
  lemma ActivationOfZeros(exp: ExpFn, n: nat)
    requires exp(0.0) == 1.0
    ensures Activation(exp, From(seq(n, _ => 0.0))) == From(seq(n, _ => 0.5))
    ensures Derivative(exp, From(seq(n, _ => 0.0))) == From(seq(n, _ => 0.25))
  {
    var z := From(seq(n, _ => 0.0));
    assert Logistic(exp, 0.0) == 0.5 by {
      assert -0.0 == 0.0;
    }
    assert Slope(0.5) == 0.25;
    var a := Activation(exp, z);
    assert forall i :: 0 <= i < n ==> a.inner[i] == Logistic(exp, 0.0);
    assert a.inner == seq(n, _ => 0.5);
    var d := Derivative(exp, z);
    assert forall i :: 0 <= i < n ==> d.inner[i] == Slope(0.5);
    assert d.inner == seq(n, _ => 0.25);
  }
}
