/**
 * Dense real matrices and vectors, as the filter uses them: a vector is a
 * sequence of reals and a matrix a sequence of equally long rows. The
 * operations mirror the matrix expressions of the filter (products,
 * transposes, sums, differences, identity) and the lemmas give the algebra
 * the filter's covariance arguments need.
 */
module Matrices {

  type Vector = seq<real>
  type Matrix = seq<seq<real>>

  /** `m` has exactly `rows` rows of `cols` entries each. */
  predicate IsMatrix(m: Matrix, rows: nat, cols: nat) {
    |m| == rows && forall i :: 0 <= i < rows ==> |m[i]| == cols
  }

  /** Number of columns, read off the first row. */
  function Cols(m: Matrix): nat {
    if |m| == 0 then 0 else |m[0]|
  }

  /** A square matrix equal to its own transpose, entry by entry. */
  predicate Symmetric(m: Matrix) {
    IsMatrix(m, |m|, |m|) &&
    forall i, j :: 0 <= i < |m| && 0 <= j < |m| ==> m[i][j] == m[j][i]
  }

  function ZeroVector(n: nat): Vector {
    seq(n, _ => 0.0)
  }

  function ZeroMatrix(rows: nat, cols: nat): (z: Matrix)
    ensures IsMatrix(z, rows, cols)
  {
    seq(rows, _ => ZeroVector(cols))
  }

  function Identity(n: nat): (e: Matrix)
    ensures IsMatrix(e, n, n)
  {
    seq(n, i => seq(n, j => if i == j then 1.0 else 0.0))
  }

  function VecAdd(u: Vector, v: Vector): (w: Vector)
    requires |u| == |v|
    ensures |w| == |u|
  {
    seq(|u|, i requires 0 <= i < |u| => u[i] + v[i])
  }

  function VecSub(u: Vector, v: Vector): (w: Vector)
    requires |u| == |v|
    ensures |w| == |u|
  {
    seq(|u|, i requires 0 <= i < |u| => u[i] - v[i])
  }

  function VecScale(c: real, u: Vector): (w: Vector)
    ensures |w| == |u|
  {
    seq(|u|, i requires 0 <= i < |u| => c * u[i])
  }

  /** Inner product of two vectors of the same length. */
  function Dot(u: Vector, v: Vector): real
    requires |u| == |v|
  {
    if |u| == 0 then 0.0 else u[0] * v[0] + Dot(u[1..], v[1..])
  }

  /** Column `j` of `m`. */
  function Column(m: Matrix, j: nat): (c: Vector)
    requires forall i :: 0 <= i < |m| ==> j < |m[i]|
    ensures |c| == |m|
  {
    seq(|m|, i requires 0 <= i < |m| => m[i][j])
  }

  function Transpose(m: Matrix): (t: Matrix)
    requires IsMatrix(m, |m|, Cols(m))
    ensures IsMatrix(t, Cols(m), |m|)
  {
    seq(Cols(m), j requires 0 <= j < Cols(m) => Column(m, j))
  }

  /** Matrix times column vector. */
  function MatVec(a: Matrix, v: Vector): (w: Vector)
    requires IsMatrix(a, |a|, |v|)
    ensures |w| == |a|
  {
    seq(|a|, i requires 0 <= i < |a| => Dot(a[i], v))
  }

  /** Row vector `v` times a matrix `b` with `cols` columns. */
  function VecMat(v: Vector, b: Matrix, cols: nat): (w: Vector)
    requires IsMatrix(b, |v|, cols)
    ensures |w| == cols
  {
    seq(cols, j requires 0 <= j < cols => Dot(v, Column(b, j)))
  }

  function MatMul(a: Matrix, b: Matrix): (c: Matrix)
    requires IsMatrix(a, |a|, |b|) && IsMatrix(b, |b|, Cols(b))
    ensures IsMatrix(c, |a|, Cols(b))
  {
    seq(|a|, i requires 0 <= i < |a| => VecMat(a[i], b, Cols(b)))
  }

  function MatAdd(a: Matrix, b: Matrix): (c: Matrix)
    requires IsMatrix(a, |a|, Cols(a)) && IsMatrix(b, |a|, Cols(a))
    ensures IsMatrix(c, |a|, Cols(a))
  {
    seq(|a|, i requires 0 <= i < |a| => VecAdd(a[i], b[i]))
  }

  function MatSub(a: Matrix, b: Matrix): (c: Matrix)
    requires IsMatrix(a, |a|, Cols(a)) && IsMatrix(b, |a|, Cols(a))
    ensures IsMatrix(c, |a|, Cols(a))
  {
    seq(|a|, i requires 0 <= i < |a| => VecSub(a[i], b[i]))
  }

  // ---------------------------------------------------------------------
  // Inner products
  // ---------------------------------------------------------------------

  lemma {:induction false} DotCommutes(u: Vector, v: Vector)
    requires |u| == |v|
    ensures Dot(u, v) == Dot(v, u)
  {
    if |u| > 0 {
      DotCommutes(u[1..], v[1..]);
    }
  }

  lemma {:induction false} DotZeroLeft(u: Vector, v: Vector)
    requires |u| == |v|
    requires forall i :: 0 <= i < |u| ==> u[i] == 0.0
    ensures Dot(u, v) == 0.0
  {
    if |u| > 0 {
      DotZeroLeft(u[1..], v[1..]);
    }
  }

  lemma {:induction false} DotZeroRight(u: Vector, v: Vector)
    requires |u| == |v|
    requires forall i :: 0 <= i < |v| ==> v[i] == 0.0
    ensures Dot(u, v) == 0.0
  {
    if |u| > 0 {
      DotZeroRight(u[1..], v[1..]);
    }
  }

  lemma {:induction false} DotAddLeft(u: Vector, w: Vector, v: Vector)
    requires |u| == |w| == |v|
    ensures Dot(VecAdd(u, w), v) == Dot(u, v) + Dot(w, v)
  {
    if |u| > 0 {
      assert VecAdd(u, w)[1..] == VecAdd(u[1..], w[1..]);
      DotAddLeft(u[1..], w[1..], v[1..]);
    }
  }

  lemma {:induction false} DotSubLeft(u: Vector, w: Vector, v: Vector)
    requires |u| == |w| == |v|
    ensures Dot(VecSub(u, w), v) == Dot(u, v) - Dot(w, v)
  {
    if |u| > 0 {
      assert VecSub(u, w)[1..] == VecSub(u[1..], w[1..]);
      DotSubLeft(u[1..], w[1..], v[1..]);
    }
  }

  lemma {:induction false} DotScaleLeft(c: real, u: Vector, v: Vector)
    requires |u| == |v|
    ensures Dot(VecScale(c, u), v) == c * Dot(u, v)
  {
    if |u| > 0 {
      forall i | 0 <= i < |u| - 1
        ensures VecScale(c, u)[1..][i] == VecScale(c, u[1..])[i]
      {
        assert u[1..][i] == u[i + 1];
      }
      assert VecScale(c, u)[1..] == VecScale(c, u[1..]);
      DotScaleLeft(c, u[1..], v[1..]);
    }
  }

  /** The inner product with a unit vector picks out one entry. */
  lemma {:induction false} DotUnitLeft(e: Vector, v: Vector, k: nat)
    requires |e| == |v| && k < |e|
    requires forall i :: 0 <= i < |e| ==> e[i] == if i == k then 1.0 else 0.0
    ensures Dot(e, v) == v[k]
  {
    if k == 0 {
      DotZeroLeft(e[1..], v[1..]);
    } else {
      DotUnitLeft(e[1..], v[1..], k - 1);
    }
  }

  /** The bilinear form a·B·c, evaluated either way round. */
  lemma {:induction false} Bilinear(a: Vector, b: Matrix, c: Vector)
    requires IsMatrix(b, |a|, |c|)
    ensures Dot(VecMat(a, b, |c|), c) == Dot(a, MatVec(b, c))
  {
    if |a| == 0 {
      DotZeroLeft(VecMat(a, b, |c|), c);
    } else {
      var a', b' := a[1..], b[1..];
      forall k | 0 <= k < |c|
        ensures VecMat(a, b, |c|)[k] == VecAdd(VecScale(a[0], b[0]), VecMat(a', b', |c|))[k]
      {
        assert Column(b, k)[1..] == Column(b', k);
      }
      assert VecMat(a, b, |c|) == VecAdd(VecScale(a[0], b[0]), VecMat(a', b', |c|));
      DotAddLeft(VecScale(a[0], b[0]), VecMat(a', b', |c|), c);
      DotScaleLeft(a[0], b[0], c);
      Bilinear(a', b', c);
      assert MatVec(b, c)[1..] == MatVec(b', c);
    }
  }

  // ---------------------------------------------------------------------
  // Matrix algebra
  // ---------------------------------------------------------------------

  /** Two matrices of one shape that agree entry by entry are equal. */
  lemma MatrixEquality(a: Matrix, b: Matrix, rows: nat, cols: nat)
    requires IsMatrix(a, rows, cols) && IsMatrix(b, rows, cols)
    requires forall i, j :: 0 <= i < rows && 0 <= j < cols ==> a[i][j] == b[i][j]
    ensures a == b
  {
    forall i | 0 <= i < rows
      ensures a[i] == b[i]
    {
      assert forall j :: 0 <= j < cols ==> a[i][j] == b[i][j];
    }
  }

  lemma MatMulAssociative(a: Matrix, b: Matrix, c: Matrix)
    requires 0 < |a| && 0 < |b| && 0 < |c| && 0 < Cols(c)
    requires IsMatrix(a, |a|, |b|) && IsMatrix(b, |b|, |c|) && IsMatrix(c, |c|, Cols(c))
    ensures MatMul(MatMul(a, b), c) == MatMul(a, MatMul(b, c))
  {
    var ab, bc := MatMul(a, b), MatMul(b, c);
    forall i, j | 0 <= i < |a| && 0 <= j < Cols(c)
      ensures MatMul(ab, c)[i][j] == MatMul(a, bc)[i][j]
    {
      var col := Column(c, j);
      assert Column(bc, j) == MatVec(b, col);
      assert ab[i] == VecMat(a[i], b, |c|);
      Bilinear(a[i], b, col);
    }
    MatrixEquality(MatMul(ab, c), MatMul(a, bc), |a|, Cols(c));
  }

  lemma TransposeOfProduct(a: Matrix, b: Matrix)
    requires 0 < |a| && 0 < |b| && 0 < Cols(b)
    requires IsMatrix(a, |a|, |b|) && IsMatrix(b, |b|, Cols(b))
    ensures Transpose(MatMul(a, b)) == MatMul(Transpose(b), Transpose(a))
  {
    var ab, tb, ta := MatMul(a, b), Transpose(b), Transpose(a);
    forall i, j | 0 <= i < Cols(b) && 0 <= j < |a|
      ensures Transpose(ab)[i][j] == MatMul(tb, ta)[i][j]
    {
      assert Column(ta, j) == a[j];
      DotCommutes(a[j], Column(b, i));
    }
    MatrixEquality(Transpose(ab), MatMul(tb, ta), Cols(b), |a|);
  }

  lemma TransposeInvolution(m: Matrix)
    requires 0 < |m| && 0 < Cols(m) && IsMatrix(m, |m|, Cols(m))
    ensures Transpose(Transpose(m)) == m
  {
    MatrixEquality(Transpose(Transpose(m)), m, |m|, Cols(m));
  }

  lemma SymmetricIffSelfTranspose(m: Matrix)
    requires 0 < |m| && IsMatrix(m, |m|, |m|)
    ensures Symmetric(m) <==> Transpose(m) == m
  {
    if Symmetric(m) {
      MatrixEquality(Transpose(m), m, |m|, |m|);
    }
    if Transpose(m) == m {
      forall i, j | 0 <= i < |m| && 0 <= j < |m|
        ensures m[i][j] == m[j][i]
      {
        assert Transpose(m)[j][i] == m[i][j];
      }
    }
  }

  /** A·P·Aᵀ is symmetric whenever P is: the shape of both covariance steps. */
  lemma CongruenceSymmetric(a: Matrix, p: Matrix)
    requires 0 < |a| && 0 < |p| && IsMatrix(a, |a|, |p|) && Symmetric(p)
    ensures Symmetric(MatMul(MatMul(a, p), Transpose(a)))
  {
    var at := Transpose(a);
    var ap := MatMul(a, p);
    var apa := MatMul(ap, at);
    TransposeOfProduct(ap, at);
    TransposeInvolution(a);
    TransposeOfProduct(a, p);
    SymmetricIffSelfTranspose(p);
    MatMulAssociative(a, p, at);
    assert Transpose(apa) == apa;
    SymmetricIffSelfTranspose(apa);
  }

  lemma SymmetricAdd(a: Matrix, b: Matrix)
    requires Symmetric(a) && Symmetric(b) && |a| == |b|
    ensures Symmetric(MatAdd(a, b))
  {
  }

  lemma SymmetricSub(a: Matrix, b: Matrix)
    requires Symmetric(a) && Symmetric(b) && |a| == |b|
    ensures Symmetric(MatSub(a, b))
  {
  }

  lemma IdentityTimes(m: Matrix)
    requires 0 < |m| && IsMatrix(m, |m|, Cols(m))
    ensures MatMul(Identity(|m|), m) == m
  {
    var e := Identity(|m|);
    forall i, j | 0 <= i < |m| && 0 <= j < Cols(m)
      ensures MatMul(e, m)[i][j] == m[i][j]
    {
      DotUnitLeft(e[i], Column(m, j), i);
    }
    MatrixEquality(MatMul(e, m), m, |m|, Cols(m));
  }

  lemma TimesIdentity(m: Matrix)
    requires 0 < |m| && 0 < Cols(m) && IsMatrix(m, |m|, Cols(m))
    ensures MatMul(m, Identity(Cols(m))) == m
  {
    var e := Identity(Cols(m));
    forall i, j | 0 <= i < |m| && 0 <= j < Cols(m)
      ensures MatMul(m, e)[i][j] == m[i][j]
    {
      DotCommutes(m[i], Column(e, j));
      DotUnitLeft(Column(e, j), m[i], j);
    }
    MatrixEquality(MatMul(m, e), m, |m|, Cols(m));
  }

  lemma IdentitySymmetric(n: nat)
    ensures Symmetric(Identity(n))
  {
  }

  lemma IdentityTimesVector(v: Vector)
    ensures MatVec(Identity(|v|), v) == v
  {
    var e := Identity(|v|);
    forall i | 0 <= i < |v|
      ensures MatVec(e, v)[i] == v[i]
    {
      DotUnitLeft(e[i], v, i);
    }
  }

  /** (A − B)·C = A·C − B·C. */
  lemma MatMulSubDistributes(a: Matrix, b: Matrix, c: Matrix)
    requires 0 < |a| && 0 < |c| && 0 < Cols(c)
    requires IsMatrix(a, |a|, |c|) && IsMatrix(b, |a|, |c|) && IsMatrix(c, |c|, Cols(c))
    ensures MatMul(MatSub(a, b), c) == MatSub(MatMul(a, c), MatMul(b, c))
  {
    var lhs, rhs := MatMul(MatSub(a, b), c), MatSub(MatMul(a, c), MatMul(b, c));
    forall i, j | 0 <= i < |a| && 0 <= j < Cols(c)
      ensures lhs[i][j] == rhs[i][j]
    {
      DotSubLeft(a[i], b[i], Column(c, j));
    }
    MatrixEquality(lhs, rhs, |a|, Cols(c));
  }

  lemma MatMulZeroVector(a: Matrix, n: nat)
    requires IsMatrix(a, |a|, n)
    ensures MatVec(a, ZeroVector(n)) == ZeroVector(|a|)
  {
    forall i | 0 <= i < |a|
      ensures MatVec(a, ZeroVector(n))[i] == 0.0
    {
      DotZeroRight(a[i], ZeroVector(n));
    }
  }
}
