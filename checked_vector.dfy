/** The `Vector` of src/vector/mod.rs, on its scalar (non-SIMD) path: a
    wrapper around a sequence of reals whose add, sub and dot all panic when
    the two operands have different lengths. Rust's ownership is invisible to
    a value model, so the three `Mul` impls (by value, `&`, `&mut`), which
    share one body, are one function `Dot` here. */
module CheckedVector {
  import opened Outcomes
  import RealSums

  datatype Vector = Vector(inner: seq<real>)

  /** `Vector::len`. */
  function Len(v: Vector): (n: nat)
    ensures n == |Into(v)|
  {
    |v.inner|
  }

  /** `Into<Vec<f64>>`: unwraps the scalars. */
  function Into(v: Vector): (s: seq<real>)
    ensures Vector(s) == v
  {
    v.inner
  }

  /** `From<Vec<f64>>`: wraps the scalars as they are. */
  function From(s: seq<real>): (v: Vector)
    ensures Into(v) == s
    ensures Len(v) == |s|
  {
    Vector(s)
  }

  /** `Vector::new`: `[0.0].repeat(length)`. */
  function New(length: nat): (v: Vector)
    ensures Len(v) == length
    ensures forall i :: 0 <= i < length ==> v.inner[i] == 0.0
  {
    Vector(seq(length, _ => 0.0))
  }

  /** `impl Add for Vector`. */
  function Add(a: Vector, b: Vector): (r: Result<Vector>)
    ensures r.Err? <==> Len(a) != Len(b)
    ensures r.Err? ==> r.panic == DimensionMismatch
    ensures r.Ok? ==> Len(r.value) == Len(a)
    ensures r.Ok? ==> forall i :: 0 <= i < Len(a) ==> r.value.inner[i] == a.inner[i] + b.inner[i]
  {
    if |a.inner| != |b.inner| then Err(DimensionMismatch)
    else Ok(Vector(seq(|a.inner|, i requires 0 <= i < |a.inner| => a.inner[i] + b.inner[i])))
  }

  /** `impl Sub for Vector`. */
  function Sub(a: Vector, b: Vector): (r: Result<Vector>)
    ensures r.Err? <==> Len(a) != Len(b)
    ensures r.Err? ==> r.panic == DimensionMismatch
    ensures r.Ok? ==> Len(r.value) == Len(a)
    ensures r.Ok? ==> forall i :: 0 <= i < Len(a) ==> r.value.inner[i] == a.inner[i] - b.inner[i]
  {
    if |a.inner| != |b.inner| then Err(DimensionMismatch)
    else Ok(Vector(seq(|a.inner|, i requires 0 <= i < |a.inner| => a.inner[i] - b.inner[i])))
  }

  /** `impl Mul for Vector` (and for `&Vector`, `&mut Vector`): the dot product. */
  function Dot(a: Vector, b: Vector): (r: Result<real>)
    ensures r.Err? <==> Len(a) != Len(b)
    ensures r.Err? ==> r.panic == DimensionMismatch
  {
    if |a.inner| != |b.inner| then Err(DimensionMismatch)
    else Ok(RealSums.SumProducts(a.inner, b.inner, |a.inner|))
  }

  /** Over reals, subtracting what was added restores the left operand. */
  lemma {:induction false} SubUndoesAdd(a: Vector, b: Vector)
    requires Len(a) == Len(b)
    ensures Add(a, b).Ok?
    ensures Sub(Add(a, b).value, b) == Ok(a)
  {
    var s := Add(a, b).value;
    var d := Sub(s, b).value;
    assert forall i :: 0 <= i < Len(a) ==> d.inner[i] == a.inner[i];
    assert d.inner == a.inner;
  }

  lemma DotCommutes(a: Vector, b: Vector)
    ensures Dot(a, b) == Dot(b, a)
  {
    if Len(a) == Len(b) {
      RealSums.SumProductsCommutes(a.inner, b.inner, Len(a));
    }
  }

  /** The dot product with a zero vector of matching length is zero. */
  lemma DotWithNew(v: Vector)
    ensures Dot(New(Len(v)), v) == Ok(0.0)
    ensures Dot(v, New(Len(v))) == Ok(0.0)
  {
    RealSums.SumProductsOfZeros(New(Len(v)).inner, v.inner, Len(v));
    DotCommutes(New(Len(v)), v);
  }

  /** Peeling off the last position: the dot product is the dot product of
      the shorter prefixes plus the product of the last two entries. */
  lemma {:induction false} DotUnfolds(a: Vector, b: Vector)
    requires Len(a) == Len(b) && Len(a) > 0
    ensures var n := Len(a) - 1;
      Dot(a, b).Ok? && Dot(a, b).value == Dot(From(a.inner[..n]), From(b.inner[..n])).value + a.inner[n] * b.inner[n]
  {
    var n := Len(a) - 1;
    RealSums.SumProductsPrefix(a.inner, b.inner, a.inner[..n], b.inner[..n], n);
  }

  /** The dot product of two empty vectors is zero. */
  lemma DotEmpty()
    ensures Dot(From([]), From([])) == Ok(0.0)
  {
  }
}
