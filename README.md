# Extended Kalman Filter for laser and radar fusion, in Dafny

This project models the estimator of a 2D object tracker. The tracker fuses two sensors into one
state (px, py, vx, vy) with an Extended Kalman Filter:

- a laser, which reads the position (px, py);
- a radar, which reads range, bearing and range rate.

The model has two stateful parts, each a Dafny class whose methods reassign fields as the C++
methods do.

- `Kalman.KalmanFilter` holds the state `x`, the covariance `P` and the matrices `F`, `H`, `R`
  and `Q`. It offers `Init`, `Predict`, the linear `Update`, and `UpdateEKF`, the radar update.
  `UpdateEKF` has the degenerate-range guard and the `while` loop that normalises the bearing
  residual.
- `Fusion.FusionEKF` is the per-measurement state machine:
  - the first reading seeds `x` and does nothing else;
  - every later reading writes the elapsed time into `F` and rebuilds `Q`;
  - then it predicts once and updates once, with the radar or the laser model.

Each state-changing method is proved against a pure function on an `Estimate` (x, P):

- `Predicted` for the predict step;
- `Correct` for the gain and covariance step;
- `LinearUpdate` for the laser update;
- `EkfUpdate` for the radar update.

The lemmas state what the filter promises of these functions:

- P stays symmetric through prediction and both updates, which `FusionEKF.Valid` carries as an
  invariant;
- a measurement that agrees with the prediction leaves the state unchanged;
- the radar update is skipped at the sensor origin;
- the bearing loop ends in [-PI, PI] and moves the residual by a whole number of PI steps;
- Q factors as G·diag(ax, ay)·Gᵀ and is symmetric;
- a laser-seeded first state gives the laser reading back through the laser model;
- a radar-seeded first state gives back only the range, as |ρ|. The bearing is not recovered, and
  the seeded velocity is zero, so the predicted range rate is 0 rather than the reading's.

Modules:

- `Matrices`: real vectors and matrices as sequences, with the algebra the proofs use
  (associativity, transpose of a product, distributivity, identity).
- `Numerics`: the math library the filter calls but does not define. `sqrt`, `atan2`, `cos`, `sin`
  and the matrix inverse are a record of function values, `MathLib`. The predicates
  `SqrtSound`, `TrigSound`, `InverseKeepsShape` and `InverseKeepsSymmetry` name the few
  properties that some lemmas assume of it.
- `Kalman`: `kalman_filter.cpp`.
- `Fusion`: `FusionEKF.cpp`, and the measurement package as a datatype.

The code and the design description disagree on the bearing step. The description asks for a
wrap into (−π, π]. The loop in `UpdateEKF` adds or subtracts the constant `PI` = 3.14159265 until
the residual lies in the closed interval [-PI, PI]. A residual just above PI therefore comes back
half a turn from its equivalent angle. The model follows the code (`WrapByPi`, `NormalizeBearing`),
and `WrapJustAbovePi` states the half-turn explicitly.

## Model

| member | source | states |
|---|---|---|
| Kalman.KalmanFilter.constructor | CarND-Extended-Kalman-Filter-Project/src/kalman_filter.cpp:15 | a new filter has empty (zero-size) x, P, F, H, R, Q |
| Kalman.KalmanFilter.Init | CarND-Extended-Kalman-Filter-Project/src/kalman_filter.cpp:19-27 | each of x, P, F, H, R, Q equals the corresponding argument |
| Kalman.KalmanFilter.Predict | CarND-Extended-Kalman-Filter-Project/src/kalman_filter.cpp:29-36 | the new (x, P) is `Predicted` of the old one, so x = F·x and P = F·P·Fᵀ + Q; F, H, R, Q unchanged; dimensions kept |
| Kalman.Predicted | CarND-Extended-Kalman-Filter-Project/src/kalman_filter.cpp:29-32 | the predicted state is a 4-vector and the predicted covariance 4×4 |
| Kalman.PredictKeepsSymmetry | CarND-Extended-Kalman-Filter-Project/src/kalman_filter.cpp:29-32 | if P and Q are symmetric then F·P·Fᵀ + Q is symmetric |
| Kalman.PredictWithIdentityIsNoOp | CarND-Extended-Kalman-Filter-Project/src/kalman_filter.cpp:29-32 | with F = I and Q = 0 prediction returns the same x and P |
| Kalman.KalmanFilter.Update | CarND-Extended-Kalman-Filter-Project/src/kalman_filter.cpp:38-50 | the new (x, P) is `LinearUpdate` of the old one: y = z − H·x, S = H·P·Hᵀ + R, K = P·Hᵀ·S⁻¹, x + K·y, (I − K·H)·P; F, H, R, Q unchanged; dimensions kept |
| Kalman.Correct | CarND-Extended-Kalman-Filter-Project/src/kalman_filter.cpp:40-49 | the gain and covariance step both updates share (S = H·P·Hᵀ + R, K = P·Hᵀ·S⁻¹, x + K·y, (I − K·H)·P) returns a 4-entry x and a 4×4 P; its behaviour is stated by ZeroInnovationKeepsState and CorrectKeepsSymmetry |
| Kalman.LinearUpdate | CarND-Extended-Kalman-Filter-Project/src/kalman_filter.cpp:38-49 | the updated state keeps 4 entries and P stays 4×4 |
| Kalman.ZeroInnovationKeepsState | CarND-Extended-Kalman-Filter-Project/src/kalman_filter.cpp:43-46 | a zero innovation leaves x unchanged, whatever the gain |
| Kalman.CorrectKeepsSymmetry | CarND-Extended-Kalman-Filter-Project/src/kalman_filter.cpp:40-49 | for symmetric P and R, and an inverse that preserves symmetry, (I − K·H)·P is symmetric |
| Kalman.ConsistentMeasurementKeepsState | CarND-Extended-Kalman-Filter-Project/src/kalman_filter.cpp:39-46 | a measurement z = H·x gives y = 0 and leaves x unchanged |
| Kalman.PredictThenConsistentUpdate | CarND-Extended-Kalman-Filter-Project/src/kalman_filter.cpp:29-46 | predicting and then updating with z = H·(F·x) ends at the predicted state F·x |
| Kalman.KalmanFilter.UpdateEKF | CarND-Extended-Kalman-Filter-Project/src/kalman_filter.cpp:52-93 | the new (x, P) is `EkfUpdate` of the old one; when sqrt(px²+py²) is below 0.0001 in absolute value, x and P are exactly as before; F, H, R, Q unchanged |
| Kalman.PredictedRange | CarND-Extended-Kalman-Filter-Project/src/kalman_filter.cpp:58 | with a sound sqrt the predicted range ρ̂ is non-negative and ρ̂² = px² + py² |
| Kalman.RangeTooSmall | CarND-Extended-Kalman-Filter-Project/src/kalman_filter.cpp:62-64 | with a sound sqrt the guard holds exactly when px² + py² < 0.0001² |
| Kalman.PredictedRadar | CarND-Extended-Kalman-Filter-Project/src/kalman_filter.cpp:58-70 | h(x) has 3 entries: the predicted range, atan2(py, px), and a range rate with range · range rate = px·vx + py·vy; with a sound sqrt the range past the guard is at least 0.0001 |
| Kalman.EkfUpdate | CarND-Extended-Kalman-Filter-Project/src/kalman_filter.cpp:52-92 | the radar update keeps the dimensions of x and P |
| Kalman.OriginSkipsRadarUpdate | CarND-Extended-Kalman-Filter-Project/src/kalman_filter.cpp:58-64 | a state with px = py = 0 is returned unchanged by the radar update (given a sound sqrt) |
| Kalman.EkfUpdateKeepsSymmetry | CarND-Extended-Kalman-Filter-Project/src/kalman_filter.cpp:52-92 | the radar update keeps a symmetric P symmetric, on both the guard and the update path |
| Kalman.RadarInnovation | CarND-Extended-Kalman-Filter-Project/src/kalman_filter.cpp:66-82 | y[0] = z[0] − ρ̂, y[2] = z[2] − (px·vx + py·vy)/ρ̂, and y[1] is the bearing residual moved by a whole number of PI steps into [-PI, PI] |
| Kalman.WrapByPi | CarND-Extended-Kalman-Filter-Project/src/kalman_filter.cpp:74-80 | the result lies in [-PI, PI]; it is the input when the input is already there; above PI it ends in (0, PI], below −PI in [-PI, 0) |
| Kalman.WrapByPiIsPiShift | CarND-Extended-Kalman-Filter-Project/src/kalman_filter.cpp:74-80 | the result is the input plus an integer multiple of PI; the net multiple is negative from above PI, positive from below −PI, and zero in range |
| Kalman.WrapJustAbovePi | CarND-Extended-Kalman-Filter-Project/src/kalman_filter.cpp:74-80 | a residual in (PI, 2·PI] comes back as phi − PI, half a turn from its equivalent angle phi − 2·PI |
| Kalman.NormalizeBearing | CarND-Extended-Kalman-Filter-Project/src/kalman_filter.cpp:73-80 | the loop terminates with phi = WrapByPi(residual), hence in [-PI, PI]; with `steps` iterations, a residual above PI ends at residual − steps·PI in (0, PI], so every step subtracted; one below −PI ends at residual + steps·PI in [-PI, 0), so every step added; one in range takes no step |
| Fusion.FusionEKF.constructor | CarND-Extended-Kalman-Filter-Project/src/FusionEKF.cpp:14-58 | not initialised, previous timestamp 0, R_laser = diag(0.0225, 0.0225), R_radar = diag(0.09, 0.0009, 0.09), P = diag(1, 1, 1000, 1000), F = identity with 1 at (0,2) and (1,3), noise_ax = noise_ay = 9 |
| Fusion.FusionEKF.Clear | CarND-Extended-Kalman-Filter-Project/src/FusionEKF.cpp:65-84 | x = 0, Q = 0, the startup P and F, previous timestamp 0, not initialised; H, R, R_laser, R_radar, H_laser, Hj and the noise parameters unchanged |
| Fusion.FusionEKF.ProcessMeasurement | CarND-Extended-Kalman-Filter-Project/src/FusionEKF.cpp:86-157 | first reading: x is seeded, the timestamp stored, the filter initialised, and P, F, Q, H, R untouched; later readings: F and Q set from dt, one predict, then the radar update with H = Jacobian of the predicted x and R_radar, or the laser update with H = [[1,0,0,0],[0,1,0,0]] and R_laser |
| Fusion.FusionEKF.Initialize | CarND-Extended-Kalman-Filter-Project/src/FusionEKF.cpp:92-116 | x = InitialState(reading), timestamp stored, initialised; every matrix unchanged |
| Fusion.FromPolar | CarND-Extended-Kalman-Filter-Project/src/FusionEKF.cpp:98-101 | the radar-seeded state has zero velocity and, with sound cos and sin, px² + py² = ρ² |
| Fusion.InitialState | CarND-Extended-Kalman-Filter-Project/src/FusionEKF.cpp:94-111 | the seeded state has 4 entries and zero velocity |
| Fusion.RadarInitialStateRange | CarND-Extended-Kalman-Filter-Project/src/FusionEKF.cpp:94-102 | from a radar-seeded state (ρ·cos φ, ρ·sin φ, 0, 0) the predicted range is abs(ρ) (given sound sqrt, cos, sin) |
| Fusion.LaserInitialStateRoundTrip | CarND-Extended-Kalman-Filter-Project/src/FusionEKF.cpp:103-111 | applying the laser measurement matrix to a laser-seeded state gives back the reading |
| Fusion.FusionEKF.PredictTo | CarND-Extended-Kalman-Filter-Project/src/FusionEKF.cpp:122-137 | the previous timestamp becomes t; F = WithTimeStep(F, dt); Q = ProcessNoise(dt); (x, P) is `Predicted` with these; H, R and the sensor matrices unchanged |
| Fusion.ElapsedSeconds | CarND-Extended-Kalman-Filter-Project/src/FusionEKF.cpp:122 | dt·1 000 000 equals the difference of the microsecond timestamps |
| Fusion.WithTimeStep | CarND-Extended-Kalman-Filter-Project/src/FusionEKF.cpp:124-125 | entries (0,2) and (1,3) become dt and every other entry of F keeps its value |
| Fusion.ProcessNoise | CarND-Extended-Kalman-Filter-Project/src/FusionEKF.cpp:127-134 | Q is 4×4, and every entry is 0 when dt = 0 or when ax = ay = 0 |
| Fusion.ProcessNoiseFromAcceleration | CarND-Extended-Kalman-Filter-Project/src/FusionEKF.cpp:127-134 | the closed-form Q equals G·diag(ax, ay)·Gᵀ with G = [[dt²/2, 0], [0, dt²/2], [dt, 0], [0, dt]] |
| Fusion.ProcessNoiseSymmetric | CarND-Extended-Kalman-Filter-Project/src/FusionEKF.cpp:127-134 | Q is symmetric for every dt, ax, ay |
| Fusion.FusionEKF.UpdateRadar | CarND-Extended-Kalman-Filter-Project/src/FusionEKF.cpp:143-148 | Hj = Jacobian(x), H = Hj, R = R_radar, and (x, P) is `EkfUpdate` of the old state; F, Q, timestamp, H_laser unchanged |
| Fusion.FusionEKF.UpdateLaser | CarND-Extended-Kalman-Filter-Project/src/FusionEKF.cpp:149-156 | H_laser = H = [[1,0,0,0],[0,1,0,0]], R = R_laser, and (x, P) is `LinearUpdate` of the old state; F, Q, timestamp, Hj unchanged |

## Left out

- Console output: the printing of x and P after each prediction (kalman_filter.cpp:34-35) is not modelled.
- Floating point: `dt`, its powers, `px`…`vy`, `rho_pred` and `phi` are `float` in the source and the matrices `double`. The model uses exact reals, so rounding and the narrowing of `dt` are not captured.
- Kalman.NormalizeBearing: its termination proof relies on exact reals. In the C++ `phi` is a `float`, and once |phi| exceeds about 2^26 ≈ 6.7·10⁷ (where float spacing reaches 8) `phi -= PI` rounds back to `phi`. The same holds for ±infinity. For such residuals the C++ loop never ends.
- The local copies `px`, `py`, `vx`, `vy` in `UpdateEKF` are folded into `PredictedRange` and `PredictedRadar`, which read the state entries directly.
- The math library: `sqrt`, `atan2`, `cos`, `sin` and `MatrixXd::inverse` are abstract function values. Nothing is proved about invertibility of S or about P staying positive semi-definite. Symmetry of P is proved only under the assumption `InverseKeepsSymmetry`.
- The Jacobian: `tools.CalculateJacobian` (tools.cpp) is not part of this model. It is an abstract function that is assumed to return a 3×4 matrix for a 4-vector.
- `MeasurementPackage` and the headers are not part of this model. A reading is a datatype with a sensor tag, a raw vector of length 2 (laser) or 3 (radar), and an integer timestamp.
- Dead code: the shadowing locals `Tools tools; KalmanFilter ekf_;` at the end of the constructor and the unused `c1` have no effect and are not modelled.
- The destructors do nothing and are not modelled.
- Fusion.FusionEKF.constructor: the source leaves `x`, `Q`, `H_laser_` and `Hj_` uninitialised (Eigen does not zero them). The model stores zeros there but promises only their dimensions.
- Fusion.FusionEKF.ProcessMeasurement: the C++ method is one function. Its three phases are the helper methods `Initialize`, `PredictTo` and `UpdateRadar`/`UpdateLaser`, each with a full contract, and ProcessMeasurement composes them.
- Kalman.KalmanFilter.Update: requires a non-empty measurement (0 < |H|). With a matrix represented as a sequence of rows, an empty H has no column count, so the zero-size case of the source is not modelled.
- Kalman.KalmanFilter.UpdateEKF: requires a 3-row H and a 3-entry z. The source, given other sizes, fails Eigen's dimension checks instead.
- Kalman.KalmanFilter.UpdateEKF: the bearing is normalised into [-PI, PI] by PI steps, as coded. The wrap into (−π, π] by whole turns that the design describes is not modelled.
- Dynamic sizes: Eigen's `VectorXd` and `MatrixXd` are dynamically sized. The model fixes the state at 4 entries (`StateSize`) and carries the sizes in `Valid`.
- The behavioural-cloning training script (model.py) reads files and drives foreign ML libraries. It is outside this model.
