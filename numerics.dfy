/**
 * The numeric library the filter calls but does not define: square root,
 * two-argument arc tangent, cosine, sine and the dense matrix inverse. They
 * are supplied as function values, so the model holds for every library
 * that has the stated properties, and the predicates below name the few
 * properties some of the lemmas rely on.
 */
module Numerics {
  import opened Matrices

  datatype MathLib = MathLib(
    sqrt: real -> real,
    atan2: (real, real) -> real,
    cos: real -> real,
    sin: real -> real,
    inverse: Matrix -> Matrix)

  /** Absolute value, as `fabs` computes it. */
  function Abs(r: real): (a: real)
    ensures 0.0 <= a && (a == r || a == -r)
  {
    if r < 0.0 then -r else r
  }

  /** `sqrt` returns the non-negative square root of a non-negative argument. */
  ghost predicate SqrtSound(sqrt: real -> real) {
    forall r :: 0.0 <= r ==> 0.0 <= sqrt(r) && sqrt(r) * sqrt(r) == r
  }

  /** `cos` and `sin` lie on the unit circle. */
  ghost predicate TrigSound(cos: real -> real, sin: real -> real) {
    forall t :: cos(t) * cos(t) + sin(t) * sin(t) == 1.0
  }

  /** The inverse of an n×n matrix is n×n. */
  ghost predicate InverseKeepsShape(inverse: Matrix -> Matrix) {
    forall s {:trigger inverse(s)} :: IsMatrix(s, |s|, |s|) ==> IsMatrix(inverse(s), |s|, |s|)
  }

  /** The inverse of a symmetric matrix is symmetric. */
  ghost predicate InverseKeepsSymmetry(inverse: Matrix -> Matrix) {
    forall s {:trigger inverse(s)} :: Symmetric(s) ==> Symmetric(inverse(s))
  }

  /** Two non-negative reals with equal squares are equal. */
  lemma SquareInjective(s: real, a: real)
    requires 0.0 <= s && 0.0 <= a && s * s == a * a
    ensures s == a
  {
    assert (s - a) * (s + a) == s * s - a * a;
    assert (s - a) * (s + a) == 0.0;
    if s + a != 0.0 {
      assert s - a == 0.0;
    }
  }

  /** A sum of two squares is non-negative. */
  lemma SquaresNonNegative(a: real, b: real)
    ensures 0.0 <= a * a + b * b
  {
    if a < 0.0 {
      assert a * a == (-a) * (-a);
    }
    if b < 0.0 {
      assert b * b == (-b) * (-b);
    }
  }

  lemma PositiveProduct(a: real, b: real)
    requires 0.0 < a && 0.0 < b
    ensures 0.0 < a * b
  {
  }

  /** For non-negative s and positive m: s < m exactly when s² < m². */
  lemma SquareBelow(s: real, m: real)
    requires 0.0 <= s && 0.0 < m
    ensures s < m <==> s * s < m * m
  {
    var d, t := m - s, m + s;
    assert m * m - s * s == d * t;
    if s < m {
      PositiveProduct(d, t);
    }
  }

  /** If rho is the non-negative square root of q, then |rho| < m exactly when q < m². */
  lemma SquareGuard(rho: real, q: real, m: real)
    requires 0.0 < m
    ensures 0.0 <= rho && rho * rho == q ==> (Abs(rho) < m <==> q < m * m)
  {
    if 0.0 <= rho && rho * rho == q {
      SquareBelow(rho, m);
    }
  }

  /** The square root of a square `q` = r·r is the absolute value of r. */
  lemma SqrtOfSquare(sqrt: real -> real, r: real, q: real)
    requires SqrtSound(sqrt) && q == r * r
    ensures sqrt(q) == Abs(r)
  {
    var a := Abs(r);
    assert a * a == r * r;
    SquareInjective(sqrt(q), a);
  }
}
