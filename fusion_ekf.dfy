/**
 * The fusion orchestrator (FusionEKF.cpp): owns the sensor-specific noise
 * and measurement matrices, seeds the state from the first measurement and
 * afterwards refreshes F and Q from the elapsed time, predicts, and routes
 * the reading to the radar or laser update of the Kalman filter it owns.
 */
module Fusion {
  import opened Matrices
  import opened Numerics
  import opened Kalman

  datatype SensorType = Laser | Radar

  /** One reading: the sensor, its raw values and a timestamp in microseconds. */
  datatype MeasurementPackage = MeasurementPackage(
    sensorType: SensorType,
    rawMeasurements: Vector,
    timestamp: int)

  /** Radar readings are (range, bearing, range rate); laser readings are (px, py). */
  predicate WellFormed(m: MeasurementPackage) {
    match m.sensorType
    case Radar => |m.rawMeasurements| == 3
    case Laser => |m.rawMeasurements| == 2
  }

  /** The Jacobian supplied by the tools is a 3×4 matrix for every state. */
  ghost predicate JacobianShape(calculateJacobian: Vector -> Matrix) {
    forall v {:trigger calculateJacobian(v)} :: |v| == StateSize ==> IsMatrix(calculateJacobian(v), 3, StateSize)
  }

  const LaserNoise: Matrix := [[0.0225, 0.0], [0.0, 0.0225]]

  const RadarNoise: Matrix := [[0.09, 0.0, 0.0], [0.0, 0.0009, 0.0], [0.0, 0.0, 0.09]]

  /** Startup covariance: position known to 1, velocity essentially unknown. */
  const StartCovariance: Matrix :=
    [[1.0, 0.0, 0.0, 0.0],
     [0.0, 1.0, 0.0, 0.0],
     [0.0, 0.0, 1000.0, 0.0],
     [0.0, 0.0, 0.0, 1000.0]]

  /** Startup transition: constant velocity over one second. */
  const StartTransition: Matrix :=
    [[1.0, 0.0, 1.0, 0.0],
     [0.0, 1.0, 0.0, 1.0],
     [0.0, 0.0, 1.0, 0.0],
     [0.0, 0.0, 0.0, 1.0]]

  /** The laser measures the position components of the state. */
  const LaserMeasurement: Matrix := [[1.0, 0.0, 0.0, 0.0], [0.0, 1.0, 0.0, 0.0]]

  const AccelerationNoise: real := 9.0

  const MicrosecondsPerSecond: real := 1000000.0

  /** Elapsed time in seconds between two microsecond timestamps. */
  function ElapsedSeconds(timestamp: int, previous: int): (dt: real)
    ensures dt * MicrosecondsPerSecond == (timestamp - previous) as real
  {
    (timestamp - previous) as real / MicrosecondsPerSecond
  }

  /** F with its two position-from-velocity couplings set to dt. */
  function WithTimeStep(F: Matrix, dt: real): (G: Matrix)
    requires IsMatrix(F, StateSize, StateSize)
    ensures IsMatrix(G, StateSize, StateSize)
    ensures forall i, j :: 0 <= i < StateSize && 0 <= j < StateSize ==>
      G[i][j] == if (i, j) == (0, 2) || (i, j) == (1, 3) then dt else F[i][j]
  {
    var f := F[0 := F[0][2 := dt]];
    f[1 := f[1][3 := dt]]
  }

  /**
   * The process noise Q for an elapsed time dt and acceleration noises ax, ay.
   * No time elapsed, or no acceleration noise, means no process noise.
   */
  function ProcessNoise(dt: real, ax: real, ay: real): (Q: Matrix)
    ensures IsMatrix(Q, StateSize, StateSize)
    ensures dt == 0.0 || (ax == 0.0 && ay == 0.0) ==>
      forall i, j :: 0 <= i < StateSize && 0 <= j < StateSize ==> Q[i][j] == 0.0
  {
    var dt2 := dt * dt;
    var dt3 := dt2 * dt;
    var dt4 := dt3 * dt;
    [[dt4 / 4.0 * ax, 0.0, dt3 / 2.0 * ax, 0.0],
     [0.0, dt4 / 4.0 * ay, 0.0, dt3 / 2.0 * ay],
     [dt3 / 2.0 * ax, 0.0, dt2 * ax, 0.0],
     [0.0, dt3 / 2.0 * ay, 0.0, dt2 * ay]]
  }

  /** How an acceleration held over dt moves the state: position by dt²/2, velocity by dt. */
  function AccelerationGain(dt: real): (G: Matrix)
    ensures IsMatrix(G, StateSize, 2)
  {
    [[dt * dt / 2.0, 0.0],
     [0.0, dt * dt / 2.0],
     [dt, 0.0],
     [0.0, dt]]
  }

  function AccelerationCovariance(ax: real, ay: real): (N: Matrix)
    ensures IsMatrix(N, 2, 2)
  {
    [[ax, 0.0], [0.0, ay]]
  }

  lemma Dot2(u: Vector, v: Vector)
    requires |u| == |v| == 2
    ensures Dot(u, v) == u[0] * v[0] + u[1] * v[1]
  {
    assert Dot(u[1..][1..], v[1..][1..]) == 0.0;
    assert Dot(u[1..], v[1..]) == u[1] * v[1];
  }

  lemma GainTimesCovariance(dt: real, ax: real, ay: real)
    ensures MatMul(AccelerationGain(dt), AccelerationCovariance(ax, ay)) ==
            [[dt * dt / 2.0 * ax, 0.0], [0.0, dt * dt / 2.0 * ay], [dt * ax, 0.0], [0.0, dt * ay]]
  {
    var g := AccelerationGain(dt);
    var n := AccelerationCovariance(ax, ay);
    var gn := MatMul(g, n);
    var expected := [[dt * dt / 2.0 * ax, 0.0], [0.0, dt * dt / 2.0 * ay], [dt * ax, 0.0], [0.0, dt * ay]];
    forall i, j | 0 <= i < StateSize && 0 <= j < 2
      ensures gn[i][j] == expected[i][j]
    {
      Dot2(g[i], Column(n, j));
    }
    MatrixEquality(gn, expected, StateSize, 2);
  }

  lemma GainTranspose(dt: real)
    ensures Transpose(AccelerationGain(dt)) == [[dt * dt / 2.0, 0.0, dt, 0.0], [0.0, dt * dt / 2.0, 0.0, dt]]
  {
    var h := dt * dt / 2.0;
    MatrixEquality(Transpose(AccelerationGain(dt)), [[h, 0.0, dt, 0.0], [0.0, h, 0.0, dt]], 2, StateSize);
  }

  /** The four products that make up Q's entries, for one acceleration variance a. */
  lemma NoiseProducts(dt: real, a: real)
    ensures (dt * dt / 2.0 * a) * (dt * dt / 2.0) == dt * dt * dt * dt / 4.0 * a
    ensures (dt * dt / 2.0 * a) * dt == dt * dt * dt / 2.0 * a
    ensures (dt * a) * (dt * dt / 2.0) == dt * dt * dt / 2.0 * a
    ensures (dt * a) * dt == dt * dt * a
  {
  }

  /** One row (a, b) of G·diag(ax, ay) times Gᵀ. */
  lemma RowTimesGainTranspose(a: real, b: real, dt: real)
    ensures VecMat([a, b], Transpose(AccelerationGain(dt)), StateSize) ==
            [a * (dt * dt / 2.0), b * (dt * dt / 2.0), a * dt, b * dt]
  {
    var gt := Transpose(AccelerationGain(dt));
    GainTranspose(dt);
    var r := VecMat([a, b], gt, StateSize);
    forall j | 0 <= j < StateSize
      ensures r[j] == [a * (dt * dt / 2.0), b * (dt * dt / 2.0), a * dt, b * dt][j]
    {
      Dot2([a, b], Column(gt, j));
    }
  }

  /**
   * Q is the covariance of a random acceleration with variances ax and ay
   * pushed through the state: Q = G·diag(ax, ay)·Gᵀ.
   */
  lemma ProcessNoiseFromAcceleration(dt: real, ax: real, ay: real)
    ensures ProcessNoise(dt, ax, ay) ==
            MatMul(MatMul(AccelerationGain(dt), AccelerationCovariance(ax, ay)), Transpose(AccelerationGain(dt)))
  {
    GainTimesCovariance(dt, ax, ay);
    var gn := MatMul(AccelerationGain(dt), AccelerationCovariance(ax, ay));
    var gt := Transpose(AccelerationGain(dt));
    RowTimesGainTranspose(dt * dt / 2.0 * ax, 0.0, dt);
    RowTimesGainTranspose(0.0, dt * dt / 2.0 * ay, dt);
    RowTimesGainTranspose(dt * ax, 0.0, dt);
    RowTimesGainTranspose(0.0, dt * ay, dt);
    NoiseProducts(dt, ax);
    NoiseProducts(dt, ay);
    var q := MatMul(gn, gt);
    GainTranspose(dt);
    assert gn == [[dt * dt / 2.0 * ax, 0.0], [0.0, dt * dt / 2.0 * ay], [dt * ax, 0.0], [0.0, dt * ay]];
    assert Cols(gt) == StateSize;
    assert q == [VecMat([dt * dt / 2.0 * ax, 0.0], gt, StateSize), VecMat([0.0, dt * dt / 2.0 * ay], gt, StateSize),
                 VecMat([dt * ax, 0.0], gt, StateSize), VecMat([0.0, dt * ay], gt, StateSize)];
    var pn := ProcessNoise(dt, ax, ay);
    // Entry by entry: the two sides are the same polynomials in dt, ax and ay.
    assert q[0][0] == pn[0][0] && q[0][1] == pn[0][1] && q[0][2] == pn[0][2] && q[0][3] == pn[0][3];
    assert q[1][0] == pn[1][0] && q[1][1] == pn[1][1] && q[1][2] == pn[1][2] && q[1][3] == pn[1][3];
    assert q[2][0] == pn[2][0] && q[2][1] == pn[2][1] && q[2][2] == pn[2][2] && q[2][3] == pn[2][3];
    assert q[3][0] == pn[3][0] && q[3][1] == pn[3][1] && q[3][2] == pn[3][2] && q[3][3] == pn[3][3];
    MatrixEquality(q, pn, StateSize, StateSize);
  }

  /** Q is symmetric, whatever dt and the noise parameters. */
  lemma ProcessNoiseSymmetric(dt: real, ax: real, ay: real)
    ensures Symmetric(ProcessNoise(dt, ax, ay))
  {
  }

  /**
   * The state at polar position (rho, phi) from the sensor, at rest: with
   * sound cos and sin it lies at distance |rho| from the origin.
   */
  function FromPolar(rho: real, phi: real, math: MathLib): (x: Vector)
    ensures |x| == StateSize && x[2] == 0.0 && x[3] == 0.0
    ensures TrigSound(math.cos, math.sin) ==> x[0] * x[0] + x[1] * x[1] == rho * rho
  {
    PolarRadius(rho, math.cos(phi), math.sin(phi));
    [rho * math.cos(phi), rho * math.sin(phi), 0.0, 0.0]
  }

  /** The state the first measurement seeds: its position, and zero velocity. */
  function InitialState(m: MeasurementPackage, math: MathLib): (x: Vector)
    requires WellFormed(m)
    ensures |x| == StateSize && x[2] == 0.0 && x[3] == 0.0
  {
    match m.sensorType
    case Radar => FromPolar(m.rawMeasurements[0], m.rawMeasurements[1], math)
    case Laser => [m.rawMeasurements[0], m.rawMeasurements[1], 0.0, 0.0]
  }

  /** Reading the laser model off a laser-seeded state gives back the reading. */
  lemma LaserInitialStateRoundTrip(m: MeasurementPackage, math: MathLib)
    requires WellFormed(m) && m.sensorType == Laser
    ensures MatVec(LaserMeasurement, InitialState(m, math)) == m.rawMeasurements
  {
    var x := InitialState(m, math);
    DotUnitLeft(LaserMeasurement[0], x, 0);
    DotUnitLeft(LaserMeasurement[1], x, 1);
  }

  /** A point at distance rho along a unit direction (c, s) has squared radius rho². */
  lemma PolarRadius(rho: real, c: real, s: real)
    ensures c * c + s * s == 1.0 ==> (rho * c) * (rho * c) + (rho * s) * (rho * s) == rho * rho
  {
    assert (rho * c) * (rho * c) + (rho * s) * (rho * s) == (rho * rho) * (c * c + s * s);
  }

  /** The predicted range of a state whose position is rho·(c, s) on the unit circle is |rho|. */
  lemma RangeOfPolarPosition(x: Vector, math: MathLib, rho: real, c: real, s: real)
    requires |x| == StateSize && x[0] == rho * c && x[1] == rho * s
    requires c * c + s * s == 1.0 && SqrtSound(math.sqrt)
    ensures PredictedRange(x, math) == Abs(rho)
  {
    PolarRadius(rho, c, s);
    SqrtOfSquare(math.sqrt, rho, x[0] * x[0] + x[1] * x[1]);
  }

  /**
   * The range the filter predicts from a radar-seeded state is the absolute
   * value of the range that was read.
   */
  lemma RadarInitialStateRange(m: MeasurementPackage, math: MathLib)
    requires WellFormed(m) && m.sensorType == Radar
    requires SqrtSound(math.sqrt) && TrigSound(math.cos, math.sin)
    ensures PredictedRange(InitialState(m, math), math) == Abs(m.rawMeasurements[0])
  {
    var phi := m.rawMeasurements[1];
    RangeOfPolarPosition(InitialState(m, math), math, m.rawMeasurements[0], math.cos(phi), math.sin(phi));
  }

  lemma StartMatricesSymmetric()
    ensures Symmetric(StartCovariance) && Symmetric(LaserNoise) && Symmetric(RadarNoise)
  {
  }

  class FusionEKF {
    var isInitialized: bool
    var previousTimestamp: int
    var rLaser: Matrix
    var rRadar: Matrix
    var hLaser: Matrix
    var hj: Matrix
    var noiseAx: real
    var noiseAy: real
    const ekf: KalmanFilter
    const math: MathLib
    const calculateJacobian: Vector -> Matrix

    /**
     * Fixed dimensions, symmetric noise matrices and a symmetric state
     * covariance, under a library whose inverse and Jacobian have the
     * right shapes.
     */
    ghost predicate Valid()
      reads this, ekf
    {
      ekf.Valid() && Symmetric(ekf.P) &&
      IsMatrix(rLaser, 2, 2) && Symmetric(rLaser) &&
      IsMatrix(rRadar, 3, 3) && Symmetric(rRadar) &&
      IsMatrix(hLaser, 2, StateSize) && IsMatrix(hj, 3, StateSize) &&
      InverseKeepsShape(math.inverse) && InverseKeepsSymmetry(math.inverse) &&
      JacobianShape(calculateJacobian)
    }

    /** What the constructor and Clear both establish. */
    ghost predicate AtStartup()
      reads this, ekf
    {
      !isInitialized && previousTimestamp == 0 &&
      ekf.P == StartCovariance && ekf.F == StartTransition
    }

    constructor (math: MathLib, calculateJacobian: Vector -> Matrix)
      requires InverseKeepsShape(math.inverse) && InverseKeepsSymmetry(math.inverse)
      requires JacobianShape(calculateJacobian)
      ensures Valid() && fresh(ekf) && AtStartup()
      ensures rLaser == LaserNoise && rRadar == RadarNoise
      ensures noiseAx == AccelerationNoise && noiseAy == AccelerationNoise
      ensures this.math == math && this.calculateJacobian == calculateJacobian
    {
      isInitialized := false;
      previousTimestamp := 0;
      rLaser := LaserNoise;
      rRadar := RadarNoise;
      hLaser := ZeroMatrix(2, StateSize);
      hj := ZeroMatrix(3, StateSize);
      StartMatricesSymmetric();
      var filter := new KalmanFilter();
      filter.x := ZeroVector(StateSize);
      filter.P := StartCovariance;
      filter.F := StartTransition;
      filter.Q := ZeroMatrix(StateSize, StateSize);
      ekf := filter;
      noiseAx := AccelerationNoise;
      noiseAy := AccelerationNoise;
      this.math := math;
      this.calculateJacobian := calculateJacobian;
    }

    /** Back to the startup state, keeping the sensor matrices and noise parameters. */
    method Clear()
      requires Valid()
      modifies this, ekf
      ensures Valid() && AtStartup()
      ensures ekf.x == ZeroVector(StateSize) && ekf.Q == ZeroMatrix(StateSize, StateSize)
      ensures ekf.H == old(ekf.H) && ekf.R == old(ekf.R)
      ensures rLaser == old(rLaser) && rRadar == old(rRadar) && hLaser == old(hLaser) && hj == old(hj)
      ensures noiseAx == old(noiseAx) && noiseAy == old(noiseAy)
    {
      StartMatricesSymmetric();
      ekf.x := [0.0, 0.0, 0.0, 0.0];
      ekf.P := StartCovariance;
      ekf.F := StartTransition;
      ekf.Q := ZeroMatrix(StateSize, StateSize);
      previousTimestamp := 0;
      isInitialized := false;
    }

    /** The first reading: seed the position from it, velocity at rest. */
    method Initialize(m: MeasurementPackage)
      requires Valid() && WellFormed(m)
      modifies this, ekf
      ensures Valid() && isInitialized && previousTimestamp == m.timestamp
      ensures ekf.x == InitialState(m, math)
      ensures ekf.P == old(ekf.P) && ekf.F == old(ekf.F) && ekf.Q == old(ekf.Q)
      ensures ekf.H == old(ekf.H) && ekf.R == old(ekf.R)
      ensures rLaser == old(rLaser) && rRadar == old(rRadar) && hLaser == old(hLaser) && hj == old(hj)
      ensures noiseAx == old(noiseAx) && noiseAy == old(noiseAy)
    {
      if m.sensorType == Radar {
        ekf.x := FromPolar(m.rawMeasurements[0], m.rawMeasurements[1], math);
      } else if m.sensorType == Laser {
        ekf.x := [m.rawMeasurements[0], m.rawMeasurements[1], 0.0, 0.0];
      }
      previousTimestamp := m.timestamp;
      isInitialized := true;
    }

    /** Set F and Q for the time elapsed since the previous reading, then predict. */
    method PredictTo(timestamp: int)
      requires Valid()
      modifies this, ekf
      ensures Valid() && previousTimestamp == timestamp
      ensures ekf.F == WithTimeStep(old(ekf.F), ElapsedSeconds(timestamp, old(previousTimestamp)))
      ensures ekf.Q == ProcessNoise(ElapsedSeconds(timestamp, old(previousTimestamp)), noiseAx, noiseAy)
      ensures Estimate(ekf.x, ekf.P) == Predicted(Estimate(old(ekf.x), old(ekf.P)), ekf.F, ekf.Q)
      ensures ekf.H == old(ekf.H) && ekf.R == old(ekf.R) && isInitialized == old(isInitialized)
      ensures rLaser == old(rLaser) && rRadar == old(rRadar) && hLaser == old(hLaser) && hj == old(hj)
      ensures noiseAx == old(noiseAx) && noiseAy == old(noiseAy)
    {
      var dt := ElapsedSeconds(timestamp, previousTimestamp);
      previousTimestamp := timestamp;
      ekf.F := ekf.F[0 := ekf.F[0][2 := dt]];
      ekf.F := ekf.F[1 := ekf.F[1][3 := dt]];
      ekf.Q := ProcessNoise(dt, noiseAx, noiseAy);
      ProcessNoiseSymmetric(dt, noiseAx, noiseAy);
      PredictKeepsSymmetry(Estimate(ekf.x, ekf.P), ekf.F, ekf.Q);
      ekf.Predict();
    }

    /** A radar reading: linearise h at the current state and run the extended update. */
    method UpdateRadar(z: Vector)
      requires Valid() && |z| == 3
      modifies this, ekf
      ensures Valid() && hj == calculateJacobian(old(ekf.x)) && ekf.H == hj && ekf.R == rRadar
      ensures Estimate(ekf.x, ekf.P) == EkfUpdate(Estimate(old(ekf.x), old(ekf.P)), hj, rRadar, z, math)
      ensures ekf.F == old(ekf.F) && ekf.Q == old(ekf.Q)
      ensures isInitialized == old(isInitialized) && previousTimestamp == old(previousTimestamp)
      ensures rLaser == old(rLaser) && rRadar == old(rRadar) && hLaser == old(hLaser)
      ensures noiseAx == old(noiseAx) && noiseAy == old(noiseAy)
    {
      hj := calculateJacobian(ekf.x);
      ekf.H := hj;
      ekf.R := rRadar;
      EkfUpdateKeepsSymmetry(Estimate(ekf.x, ekf.P), ekf.H, ekf.R, z, math);
      ekf.UpdateEKF(z, math);
    }

    /** A laser reading: the linear update with the position-only measurement matrix. */
    method UpdateLaser(z: Vector)
      requires Valid() && |z| == 2
      modifies this, ekf
      ensures Valid() && hLaser == LaserMeasurement && ekf.H == LaserMeasurement && ekf.R == rLaser
      ensures Estimate(ekf.x, ekf.P) == LinearUpdate(Estimate(old(ekf.x), old(ekf.P)), LaserMeasurement, rLaser, z, math.inverse)
      ensures ekf.F == old(ekf.F) && ekf.Q == old(ekf.Q)
      ensures isInitialized == old(isInitialized) && previousTimestamp == old(previousTimestamp)
      ensures rLaser == old(rLaser) && rRadar == old(rRadar) && hj == old(hj)
      ensures noiseAx == old(noiseAx) && noiseAy == old(noiseAy)
    {
      hLaser := LaserMeasurement;
      ekf.H := hLaser;
      ekf.R := rLaser;
      ghost var e := Estimate(ekf.x, ekf.P);
      CorrectKeepsSymmetry(e, ekf.H, ekf.R, VecSub(z, MatVec(ekf.H, e.x)), math.inverse);
      ekf.Update(z, math.inverse);
    }

    /**
     * The whole cycle for one reading: the first one only seeds the state;
     * every later one predicts to its timestamp and then updates with it.
     */
    method ProcessMeasurement(m: MeasurementPackage)
      requires Valid() && WellFormed(m)
      modifies this, ekf
      ensures Valid()
      ensures isInitialized && previousTimestamp == m.timestamp
      ensures rLaser == old(rLaser) && rRadar == old(rRadar)
      ensures noiseAx == old(noiseAx) && noiseAy == old(noiseAy)
      // First measurement: seed x, touch nothing else.
      ensures !old(isInitialized) ==>
        && ekf.x == InitialState(m, math)
        && ekf.P == old(ekf.P) && ekf.F == old(ekf.F) && ekf.Q == old(ekf.Q)
        && ekf.H == old(ekf.H) && ekf.R == old(ekf.R)
        && hLaser == old(hLaser) && hj == old(hj)
      // Later measurements: refresh F and Q, predict once, update once.
      ensures old(isInitialized) ==>
        var dt := ElapsedSeconds(m.timestamp, old(previousTimestamp));
        var predicted := Predicted(Estimate(old(ekf.x), old(ekf.P)), WithTimeStep(old(ekf.F), dt), ProcessNoise(dt, noiseAx, noiseAy));
        && ekf.F == WithTimeStep(old(ekf.F), dt)
        && ekf.Q == ProcessNoise(dt, noiseAx, noiseAy)
        && (m.sensorType == Radar ==>
              && hj == calculateJacobian(predicted.x) && hLaser == old(hLaser)
              && ekf.H == hj && ekf.R == rRadar
              && Estimate(ekf.x, ekf.P) == EkfUpdate(predicted, hj, rRadar, m.rawMeasurements, math))
        && (m.sensorType == Laser ==>
              && hLaser == LaserMeasurement && hj == old(hj)
              && ekf.H == LaserMeasurement && ekf.R == rLaser
              && Estimate(ekf.x, ekf.P) == LinearUpdate(predicted, LaserMeasurement, rLaser, m.rawMeasurements, math.inverse))
    {
      if !isInitialized {
        Initialize(m);
        return;
      }
      PredictTo(m.timestamp);
      if m.sensorType == Radar {
        UpdateRadar(m.rawMeasurements);
      } else {
        UpdateLaser(m.rawMeasurements);
      }
    }
  }
}
