/**
 * The estimator core of the filter (kalman_filter.cpp): the state x, its
 * covariance P and the matrices F, H, R, Q, with the predict step and the
 * linear and nonlinear (radar) update steps. Each step is a method of the
 * class KalmanFilter that reassigns the fields, proved against a pure
 * function on an Estimate (x, P); the lemmas state what the source promises
 * of those functions.
 */
module Kalman {
  import opened Matrices
  import opened Numerics

  /** Dimension of the state (px, py, vx, vy). */
  const StateSize: nat := 4

  /** The constant the bearing loop steps by. */
  const PI: real := 3.14159265

  /** Predicted ranges whose absolute value is below this skip the radar update. */
  const MinRange: real := 0.0001

  /** The part of the filter state that the update steps change. */
  datatype Estimate = Estimate(x: Vector, P: Matrix)

  predicate IsEstimate(e: Estimate) {
    |e.x| == StateSize && IsMatrix(e.P, StateSize, StateSize)
  }

  // ---------------------------------------------------------------------
  // Predict: x ← F·x, P ← F·P·Fᵀ + Q
  // ---------------------------------------------------------------------

  function Predicted(e: Estimate, F: Matrix, Q: Matrix): (r: Estimate)
    requires IsEstimate(e)
    requires IsMatrix(F, StateSize, StateSize) && IsMatrix(Q, StateSize, StateSize)
    ensures IsEstimate(r)
  {
    Estimate(MatVec(F, e.x), MatAdd(MatMul(MatMul(F, e.P), Transpose(F)), Q))
  }

  /** A symmetric covariance stays symmetric under prediction with symmetric noise. */
  lemma PredictKeepsSymmetry(e: Estimate, F: Matrix, Q: Matrix)
    requires IsEstimate(e)
    requires IsMatrix(F, StateSize, StateSize) && IsMatrix(Q, StateSize, StateSize)
    ensures Symmetric(e.P) && Symmetric(Q) ==> Symmetric(Predicted(e, F, Q).P)
  {
    if Symmetric(e.P) && Symmetric(Q) {
      CongruenceSymmetric(F, e.P);
      SymmetricAdd(MatMul(MatMul(F, e.P), Transpose(F)), Q);
    }
  }

  /** With F = I and Q = 0 prediction changes neither x nor P. */
  lemma PredictWithIdentityIsNoOp(e: Estimate)
    requires IsEstimate(e)
    ensures Predicted(e, Identity(StateSize), ZeroMatrix(StateSize, StateSize)) == e
  {
    var id := Identity(StateSize);
    IdentityTimesVector(e.x);
    IdentitySymmetric(StateSize);
    SymmetricIffSelfTranspose(id);
    IdentityTimes(e.P);
    TimesIdentity(e.P);
    var r := Predicted(e, id, ZeroMatrix(StateSize, StateSize));
    MatrixEquality(r.P, e.P, StateSize, StateSize);
  }

  // ---------------------------------------------------------------------
  // The gain and covariance step shared by both updates
  // ---------------------------------------------------------------------

  /**
   * Folds the innovation y into the estimate: S = H·P·Hᵀ + R,
   * K = P·Hᵀ·S⁻¹, x ← x + K·y, P ← (I − K·H)·P.
   */
  function Correct(e: Estimate, H: Matrix, R: Matrix, y: Vector, inverse: Matrix -> Matrix): (r: Estimate)
    requires IsEstimate(e) && 0 < |y|
    requires IsMatrix(H, |y|, StateSize) && IsMatrix(R, |y|, |y|)
    requires InverseKeepsShape(inverse)
    ensures IsEstimate(r)
  {
    var ht := Transpose(H);
    var s := MatAdd(MatMul(MatMul(H, e.P), ht), R);
    var k := MatMul(MatMul(e.P, ht), inverse(s));
    Estimate(VecAdd(e.x, MatVec(k, y)), MatMul(MatSub(Identity(StateSize), MatMul(k, H)), e.P))
  }

  /** A zero innovation leaves the state vector as it was. */
  lemma ZeroInnovationKeepsState(e: Estimate, H: Matrix, R: Matrix, inverse: Matrix -> Matrix)
    requires IsEstimate(e) && 0 < |H|
    requires IsMatrix(H, |H|, StateSize) && IsMatrix(R, |H|, |H|)
    requires InverseKeepsShape(inverse)
    ensures Correct(e, H, R, ZeroVector(|H|), inverse).x == e.x
  {
    var ht := Transpose(H);
    var s := MatAdd(MatMul(MatMul(H, e.P), ht), R);
    var k := MatMul(MatMul(e.P, ht), inverse(s));
    MatMulZeroVector(k, |H|);
  }

  /**
   * The updated covariance is symmetric when P and R are and the inverse
   * maps symmetric matrices to symmetric matrices.
   */
  lemma CorrectKeepsSymmetry(e: Estimate, H: Matrix, R: Matrix, y: Vector, inverse: Matrix -> Matrix)
    requires IsEstimate(e) && 0 < |y|
    requires IsMatrix(H, |y|, StateSize) && IsMatrix(R, |y|, |y|)
    requires InverseKeepsShape(inverse) && InverseKeepsSymmetry(inverse)
    requires Symmetric(e.P) && Symmetric(R)
    ensures Symmetric(Correct(e, H, R, y, inverse).P)
  {
    var p := e.P;
    var ht := Transpose(H);
    var hph := MatMul(MatMul(H, p), ht);
    var s := MatAdd(hph, R);
    CongruenceSymmetric(H, p);
    SymmetricAdd(hph, R);
    var si := inverse(s);
    var g := MatMul(p, ht);
    var k := MatMul(g, si);
    var kh := MatMul(k, H);
    var id := Identity(StateSize);
    // (I − K·H)·P = P − K·H·P
    MatMulSubDistributes(id, kh, p);
    IdentityTimes(p);
    // K·H·P = (P·Hᵀ)·S⁻¹·(P·Hᵀ)ᵀ
    MatMulAssociative(k, H, p);
    TransposeOfProduct(p, ht);
    TransposeInvolution(H);
    SymmetricIffSelfTranspose(p);
    assert Transpose(g) == MatMul(H, p);
    CongruenceSymmetric(g, si);
    SymmetricSub(p, MatMul(kh, p));
  }

  // ---------------------------------------------------------------------
  // Linear update
  // ---------------------------------------------------------------------

  /** The linear update: innovation z − H·x, then the shared gain step. */
  function LinearUpdate(e: Estimate, H: Matrix, R: Matrix, z: Vector, inverse: Matrix -> Matrix): (r: Estimate)
    requires IsEstimate(e) && 0 < |z|
    requires IsMatrix(H, |z|, StateSize) && IsMatrix(R, |z|, |z|)
    requires InverseKeepsShape(inverse)
    ensures IsEstimate(r)
  {
    Correct(e, H, R, VecSub(z, MatVec(H, e.x)), inverse)
  }

  /** A measurement equal to H·x gives a zero innovation and leaves x unchanged. */
  lemma ConsistentMeasurementKeepsState(e: Estimate, H: Matrix, R: Matrix, inverse: Matrix -> Matrix)
    requires IsEstimate(e) && 0 < |H|
    requires IsMatrix(H, |H|, StateSize) && IsMatrix(R, |H|, |H|)
    requires InverseKeepsShape(inverse)
    ensures LinearUpdate(e, H, R, MatVec(H, e.x), inverse).x == e.x
  {
    var z := MatVec(H, e.x);
    assert VecSub(z, z) == ZeroVector(|H|);
    ZeroInnovationKeepsState(e, H, R, inverse);
  }

  /** Predicting and then updating with z = H·(F·x) ends at the predicted state F·x. */
  lemma PredictThenConsistentUpdate(e: Estimate, F: Matrix, Q: Matrix, H: Matrix, R: Matrix, inverse: Matrix -> Matrix)
    requires IsEstimate(e)
    requires IsMatrix(F, StateSize, StateSize) && IsMatrix(Q, StateSize, StateSize)
    requires 0 < |H| && IsMatrix(H, |H|, StateSize) && IsMatrix(R, |H|, |H|)
    requires InverseKeepsShape(inverse)
    ensures LinearUpdate(Predicted(e, F, Q), H, R, MatVec(H, MatVec(F, e.x)), inverse).x == MatVec(F, e.x)
  {
    ConsistentMeasurementKeepsState(Predicted(e, F, Q), H, R, inverse);
  }

  // ---------------------------------------------------------------------
  // Bearing normalisation: repeatedly add or subtract PI
  // ---------------------------------------------------------------------

  /** How many steps of PI the angle is outside [-PI, PI], at most. */
  function PiMeasure(phi: real): nat {
    if phi > PI then (phi / PI).Floor else if phi < -PI then (-phi / PI).Floor else 0
  }

  /** The bearing normalisation, as the loop computes it. */
  function WrapByPi(phi: real): (r: real)
    ensures -PI <= r <= PI
    ensures -PI <= phi <= PI ==> r == phi
    ensures PI < phi ==> 0.0 < r
    ensures phi < -PI ==> r < 0.0
    decreases PiMeasure(phi)
  {
    if phi > PI then WrapByPi(phi - PI)
    else if phi < -PI then WrapByPi(phi + PI)
    else phi
  }

  /** The signed number of PI steps the normalisation takes. */
  function PiSteps(phi: real): int
    decreases PiMeasure(phi)
  {
    if phi > PI then PiSteps(phi - PI) - 1
    else if phi < -PI then PiSteps(phi + PI) + 1
    else 0
  }

  /**
   * The normalised bearing differs from the residual by a whole number of
   * PI steps, all subtractions when it started above PI and all additions
   * when it started below -PI.
   */
  lemma {:induction false} WrapByPiIsPiShift(phi: real)
    ensures WrapByPi(phi) == phi + PiSteps(phi) as real * PI
    ensures PI < phi ==> PiSteps(phi) < 0
    ensures phi < -PI ==> 0 < PiSteps(phi)
    ensures -PI <= phi <= PI ==> PiSteps(phi) == 0
    decreases PiMeasure(phi)
  {
    if phi > PI {
      WrapByPiIsPiShift(phi - PI);
    } else if phi < -PI {
      WrapByPiIsPiShift(phi + PI);
    }
  }

  /**
   * A residual in (PI, 2·PI] comes back as phi − PI, half a turn away from
   * the angle phi − 2·PI it is equivalent to.
   */
  lemma WrapJustAbovePi(phi: real)
    requires PI < phi <= 2.0 * PI
    ensures WrapByPi(phi) == phi - PI
    ensures WrapByPi(phi) == (phi - 2.0 * PI) + PI
  {
  }

  /**
   * The loop of UpdateEKF that moves the bearing residual into [-PI, PI].
   * The ghost `steps` counts the iterations: from above PI every one of
   * them subtracts PI, from below -PI every one adds PI, and in range
   * there are none.
   */
  method NormalizeBearing(residual: real) returns (phi: real, ghost steps: nat)
    ensures phi == WrapByPi(residual)
    ensures -PI <= phi <= PI
    ensures PI < residual ==> 0.0 < phi && phi == residual - steps as real * PI
    ensures residual < -PI ==> phi < 0.0 && phi == residual + steps as real * PI
    ensures -PI <= residual <= PI ==> steps == 0 && phi == residual
  {
    phi := residual;
    steps := 0;
    while phi > PI || phi < -PI
      invariant WrapByPi(phi) == WrapByPi(residual)
      invariant PI < residual ==> 0.0 < phi && phi == residual - steps as real * PI
      invariant residual < -PI ==> phi < 0.0 && phi == residual + steps as real * PI
      invariant -PI <= residual <= PI ==> steps == 0 && phi == residual
      decreases PiMeasure(phi)
    {
      if phi > PI {
        phi := phi - PI;
      } else {
        phi := phi + PI;
      }
      steps := steps + 1;
    }
  }

  // ---------------------------------------------------------------------
  // Nonlinear (radar) update
  // ---------------------------------------------------------------------

  /** sqrt(px² + py²), the range the state predicts. */
  function PredictedRange(x: Vector, math: MathLib): (rho: real)
    requires |x| == StateSize
    ensures SqrtSound(math.sqrt) ==> 0.0 <= rho && rho * rho == x[0] * x[0] + x[1] * x[1]
  {
    SquaresNonNegative(x[0], x[1]);
    math.sqrt(x[0] * x[0] + x[1] * x[1])
  }

  /**
   * The guard of UpdateEKF: an object (practically) at the sensor origin.
   * With a sound sqrt it holds exactly when px² + py² < MinRange².
   */
  predicate RangeTooSmall(x: Vector, math: MathLib)
    requires |x| == StateSize
    ensures SqrtSound(math.sqrt) ==>
      (RangeTooSmall(x, math) <==> x[0] * x[0] + x[1] * x[1] < MinRange * MinRange)
  {
    var rho := PredictedRange(x, math);
    SquareGuard(rho, x[0] * x[0] + x[1] * x[1], MinRange);
    Abs(rho) < MinRange
  }

  /**
   * h(x) = (range, bearing, range rate) as the state predicts them. The
   * range rate is the projection of the velocity on the line of sight:
   * range · range rate = px·vx + py·vy.
   */
  function PredictedRadar(x: Vector, math: MathLib): (h: Vector)
    requires |x| == StateSize && !RangeTooSmall(x, math)
    ensures |h| == 3
    ensures h[0] == PredictedRange(x, math) && h[1] == math.atan2(x[1], x[0])
    ensures h[0] * h[2] == x[0] * x[2] + x[1] * x[3]
    ensures SqrtSound(math.sqrt) ==> MinRange <= h[0]
  {
    var rho := PredictedRange(x, math);
    [rho, math.atan2(x[1], x[0]), (x[0] * x[2] + x[1] * x[3]) / rho]
  }

  /**
   * The innovation z − h(x) with only its bearing replaced by the
   * normalised bearing.
   */
  function RadarInnovation(x: Vector, z: Vector, math: MathLib): (y: Vector)
    requires |x| == StateSize && |z| == 3 && !RangeTooSmall(x, math)
    ensures |y| == 3
    ensures y[0] == z[0] - PredictedRange(x, math)
    ensures y[2] == z[2] - PredictedRadar(x, math)[2]
    ensures -PI <= y[1] <= PI
    ensures var raw := z[1] - math.atan2(x[1], x[0]);
            y[1] == raw + PiSteps(raw) as real * PI
  {
    var raw := VecSub(z, PredictedRadar(x, math));
    WrapByPiIsPiShift(raw[1]);
    raw[1 := WrapByPi(raw[1])]
  }

  /** UpdateEKF: skip on a degenerate range, otherwise the shared gain step. */
  function EkfUpdate(e: Estimate, H: Matrix, R: Matrix, z: Vector, math: MathLib): (r: Estimate)
    requires IsEstimate(e) && |z| == 3
    requires IsMatrix(H, 3, StateSize) && IsMatrix(R, 3, 3)
    requires InverseKeepsShape(math.inverse)
    ensures IsEstimate(r)
  {
    if RangeTooSmall(e.x, math) then e
    else Correct(e, H, R, RadarInnovation(e.x, z, math), math.inverse)
  }

  /** A state at the sensor origin (px = py = 0) is never updated by a radar reading. */
  lemma OriginSkipsRadarUpdate(e: Estimate, H: Matrix, R: Matrix, z: Vector, math: MathLib)
    requires IsEstimate(e) && |z| == 3
    requires IsMatrix(H, 3, StateSize) && IsMatrix(R, 3, 3)
    requires InverseKeepsShape(math.inverse) && SqrtSound(math.sqrt)
    requires e.x[0] == 0.0 && e.x[1] == 0.0
    ensures EkfUpdate(e, H, R, z, math) == e
  {
  }

  lemma EkfUpdateKeepsSymmetry(e: Estimate, H: Matrix, R: Matrix, z: Vector, math: MathLib)
    requires IsEstimate(e) && |z| == 3
    requires IsMatrix(H, 3, StateSize) && IsMatrix(R, 3, 3)
    requires InverseKeepsShape(math.inverse) && InverseKeepsSymmetry(math.inverse)
    requires Symmetric(e.P) && Symmetric(R)
    ensures Symmetric(EkfUpdate(e, H, R, z, math).P)
  {
    if !RangeTooSmall(e.x, math) {
      CorrectKeepsSymmetry(e, H, R, RadarInnovation(e.x, z, math), math.inverse);
    }
  }

  // ---------------------------------------------------------------------
  // The filter object
  // ---------------------------------------------------------------------

  class KalmanFilter {
    var x: Vector
    var P: Matrix
    var F: Matrix
    var H: Matrix
    var R: Matrix
    var Q: Matrix

    /** Fixed state and process dimensions; H and R agree on the measurement size. */
    ghost predicate Valid()
      reads this
    {
      IsEstimate(Estimate(x, P)) &&
      IsMatrix(F, StateSize, StateSize) && IsMatrix(Q, StateSize, StateSize) &&
      IsMatrix(H, |H|, StateSize) && IsMatrix(R, |H|, |H|)
    }

    /** All matrices start empty, as default-constructed dense matrices do. */
    constructor ()
      ensures x == [] && P == [] && F == [] && H == [] && R == [] && Q == []
    {
      x, P, F, H, R, Q := [], [], [], [], [], [];
    }

    method Init(xIn: Vector, pIn: Matrix, fIn: Matrix, hIn: Matrix, rIn: Matrix, qIn: Matrix)
      modifies this
      ensures x == xIn && P == pIn && F == fIn && H == hIn && R == rIn && Q == qIn
    {
      x := xIn;
      P := pIn;
      F := fIn;
      H := hIn;
      R := rIn;
      Q := qIn;
    }

    method Predict()
      requires Valid()
      modifies this
      ensures Valid()
      ensures F == old(F) && H == old(H) && R == old(R) && Q == old(Q)
      ensures Estimate(x, P) == Predicted(Estimate(old(x), old(P)), F, Q)
    {
      x := MatVec(F, x);
      var ft := Transpose(F);
      P := MatAdd(MatMul(MatMul(F, P), ft), Q);
    }

    method Update(z: Vector, inverse: Matrix -> Matrix)
      requires Valid() && 0 < |H| && |z| == |H|
      requires InverseKeepsShape(inverse)
      modifies this
      ensures Valid()
      ensures F == old(F) && H == old(H) && R == old(R) && Q == old(Q)
      ensures Estimate(x, P) == LinearUpdate(Estimate(old(x), old(P)), H, R, z, inverse)
    {
      ghost var m := |H|;
      var y := VecSub(z, MatVec(H, x));
      var ht := Transpose(H);
      assert IsMatrix(ht, StateSize, m);
      var s := MatAdd(MatMul(MatMul(H, P), ht), R);
      assert IsMatrix(s, m, m);
      var si := inverse(s);
      var k := MatMul(MatMul(P, ht), si);
      assert IsMatrix(k, StateSize, m);
      x := VecAdd(x, MatVec(k, y));
      var id := Identity(|x|);
      P := MatMul(MatSub(id, MatMul(k, H)), P);
    }

    method UpdateEKF(z: Vector, math: MathLib)
      requires Valid() && |H| == 3 && |z| == 3
      requires InverseKeepsShape(math.inverse)
      modifies this
      ensures Valid()
      ensures F == old(F) && H == old(H) && R == old(R) && Q == old(Q)
      ensures Estimate(x, P) == EkfUpdate(Estimate(old(x), old(P)), H, R, z, math)
      ensures RangeTooSmall(old(x), math) ==> x == old(x) && P == old(P)
    {
      var rhoPred := PredictedRange(x, math);
      if Abs(rhoPred) < MinRange {
        return;
      }
      var xPred := PredictedRadar(x, math);
      var y := VecSub(z, xPred);
      var phi, _ := NormalizeBearing(y[1]);
      y := y[1 := phi];
      var ht := Transpose(H);
      var s := MatAdd(MatMul(MatMul(H, P), ht), R);
      var si := math.inverse(s);
      var k := MatMul(MatMul(P, ht), si);
      x := VecAdd(x, MatVec(k, y));
      var id := Identity(|x|);
      P := MatMul(MatSub(id, MatMul(k, H)), P);
    }
  }
}
