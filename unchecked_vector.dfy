/** The `Vector` of src/vector/vector.rs (the `f64` build; the disabled
    `f32` alternates are not modelled). Add and sub panic on a length
    mismatch, but `dot` never checks lengths: `zip` stops at the shorter
    operand and the extra entries of the longer one are ignored. The borrowed
    (`&Vector`) and owned (`Vector`) forms of add and of sub share one body,
    so each is one function here. */
module UncheckedVector {
  import opened Outcomes
  import RealSums

  datatype Vector = Vector(inner: seq<real>)

  /** `Vector::len`. */
  function Len(v: Vector): (n: nat)
    ensures n == |Into(v)|
  {
    |v.inner|
  }

  /** `Vector::inner_ref`: the wrapped scalars. */
  function InnerRef(v: Vector): (s: seq<real>)
    ensures |s| == Len(v)
  {
    v.inner
  }

  /** `Into<Vec<f64>>`. */
  function Into(v: Vector): (s: seq<real>)
    ensures Vector(s) == v
  {
    v.inner
  }

  /** `From<Vec<f64>>`. */
  function From(s: seq<real>): (v: Vector)
    ensures Into(v) == s
    ensures Len(v) == |s| && InnerRef(v) == s
  {
    Vector(s)
  }

  /** `impl Add for &Vector` and `impl Add for Vector`. */
  function Add(a: Vector, b: Vector): (r: Result<Vector>)
    ensures r.Err? <==> Len(a) != Len(b)
    ensures r.Err? ==> r.panic == DimensionMismatch
    ensures r.Ok? ==> Len(r.value) == Len(a)
    ensures r.Ok? ==> forall i :: 0 <= i < Len(a) ==> r.value.inner[i] == a.inner[i] + b.inner[i]
  {
    if Len(a) != Len(b) then Err(DimensionMismatch)
    else Ok(Vector(seq(|a.inner|, i requires 0 <= i < |a.inner| => a.inner[i] + b.inner[i])))
  }

  /** `impl Sub for &Vector` and `impl Sub for Vector`. */
  function Sub(a: Vector, b: Vector): (r: Result<Vector>)
    ensures r.Err? <==> Len(a) != Len(b)
    ensures r.Err? ==> r.panic == DimensionMismatch
    ensures r.Ok? ==> Len(r.value) == Len(a)
    ensures r.Ok? ==> forall i :: 0 <= i < Len(a) ==> r.value.inner[i] == a.inner[i] - b.inner[i]
  {
    if Len(a) != Len(b) then Err(DimensionMismatch)
    else Ok(Vector(seq(|a.inner|, i requires 0 <= i < |a.inner| => a.inner[i] - b.inner[i])))
  }

  /** `Vector::dot`: no length check and no panic; `zip` with an empty
      operand, on either side, yields the empty sum. */
  function Dot(a: Vector, b: Vector): (r: real)
    ensures Len(a) == 0 || Len(b) == 0 ==> r == 0.0
  {
    RealSums.SumProducts(a.inner, b.inner, if Len(a) <= Len(b) then Len(a) else Len(b))
  }

  /** Over reals, subtracting what was added restores the left operand. */
  lemma {:induction false} SubUndoesAdd(a: Vector, b: Vector)
    requires Len(a) == Len(b)
    ensures Add(a, b).Ok?
    ensures Sub(Add(a, b).value, b) == Ok(a)
  {
    var d := Sub(Add(a, b).value, b).value;
    assert d.inner == a.inner;
  }

  /** Commutative for every pair of vectors, of equal length or not. */
  lemma DotCommutes(a: Vector, b: Vector)
    ensures Dot(a, b) == Dot(b, a)
  {
    RealSums.SumProductsCommutes(a.inner, b.inner, if Len(a) <= Len(b) then Len(a) else Len(b));
  }

  /** The entries of the longer vector past the shorter one's length do not
      take part: the dot product equals that of the two vectors cut to the
      shorter length. */
  lemma DotTruncates(a: Vector, b: Vector)
    ensures var n := if Len(a) <= Len(b) then Len(a) else Len(b);
      Dot(a, b) == Dot(From(a.inner[..n]), From(b.inner[..n]))
  {
    var n := if Len(a) <= Len(b) then Len(a) else Len(b);
    RealSums.SumProductsPrefix(a.inner, b.inner, a.inner[..n], b.inner[..n], n);
  }

  /** Peeling off the last position when both vectors have the same length. */
  lemma {:induction false} DotUnfolds(a: Vector, b: Vector)
    requires Len(a) == Len(b) && Len(a) > 0
    ensures var n := Len(a) - 1;
      Dot(a, b) == Dot(From(a.inner[..n]), From(b.inner[..n])) + a.inner[n] * b.inner[n]
  {
    var n := Len(a) - 1;
    RealSums.SumProductsPrefix(a.inner, b.inner, a.inner[..n], b.inner[..n], n);
  }
}
