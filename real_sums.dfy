/** Sums of elementwise products over reals, accumulated the way Rust's
    `a.iter().zip(b.iter()).map(|(a, b)| a * b).sum()` accumulates them:
    a left fold starting from zero. */
module RealSums {

  /** The left fold of the first `n` products. */
  function SumProducts(a: seq<real>, b: seq<real>, n: nat): real
    requires n <= |a| && n <= |b|
  {
    if n == 0 then 0.0 else SumProducts(a, b, n - 1) + a[n - 1] * b[n - 1]
  }

  lemma {:induction false} SumProductsCommutes(a: seq<real>, b: seq<real>, n: nat)
    requires n <= |a| && n <= |b|
    ensures SumProducts(a, b, n) == SumProducts(b, a, n)
  {
    if n > 0 {
      SumProductsCommutes(a, b, n - 1);
    }
  }

  /** Only the first `n` entries of either side take part. */
  lemma {:induction false} SumProductsPrefix(a: seq<real>, b: seq<real>, a': seq<real>, b': seq<real>, n: nat)
    requires n <= |a| && n <= |b| && n <= |a'| && n <= |b'|
    requires a[..n] == a'[..n] && b[..n] == b'[..n]
    ensures SumProducts(a, b, n) == SumProducts(a', b', n)
  {
    if n > 0 {
      assert a[..n - 1] == a[..n][..n - 1] && a'[..n - 1] == a'[..n][..n - 1];
      assert b[..n - 1] == b[..n][..n - 1] && b'[..n - 1] == b'[..n][..n - 1];
      assert a[n - 1] == a[..n][n - 1] && a'[n - 1] == a'[..n][n - 1];
      assert b[n - 1] == b[..n][n - 1] && b'[n - 1] == b'[..n][n - 1];
      SumProductsPrefix(a, b, a', b', n - 1);
    }
  }

  /** A factor that is zero in every position makes the sum zero. */
  lemma {:induction false} SumProductsOfZeros(a: seq<real>, b: seq<real>, n: nat)
    requires n <= |a| && n <= |b|
    requires forall i :: 0 <= i < n ==> a[i] == 0.0
    ensures SumProducts(a, b, n) == 0.0
  {
    if n > 0 {
      SumProductsOfZeros(a, b, n - 1);
    }
  }
}
