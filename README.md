# Attitude estimation kernel in Dafny

This project models the algebraic core of a small C++ header library for
attitude estimation:

- 3-vectors, 3x3 matrices and quaternions (Hamilton product, conjugation,
  unit quaternions, `rotate_vec`);
- the quaternion attitude integrators: Euler, midpoint (RK2) and classical
  Runge-Kutta (RK4) steps of dq/dt = 1/2 q (0, w);
- two observers that correct a gyro-propagated attitude with direction
  measurements:
  - the explicit complementary filter `ECF<T, N>`;
  - the gradient-descent filter `Madgwick<T>`.

The library exists in two generations: the files at the root (`vec3.h`,
`mat3.h`, `quaternion.h`, `attitude.h`) and the newer `inc/` and
`example/` files. The model keeps them apart where they behave differently.

The scalar type `T` is modelled as `real`, so every polynomial identity is
exact. `std::sqrt`, `std::cos` and `std::sin` are function parameters,
constrained by `Reals.IsSqrt` (a non-negative root whose square is its
argument) and `Reals.IsCosSin` (cos^2 + sin^2 = 1).

Modules and what they model:

| module | models |
|---|---|
| `Reals` | facts about squares and roots |
| `Wrappers` | `Option`, standing for a failed `assert` |
| `Vectors` | `vec3.h` and `inc/vec3.h` |
| `Matrices` | `mat3.h` |
| `Quaternions` | `inc/quaternion.h` |
| `HamiltonProduct` | associativity of the product |
| `Rotations` | `rotate_vec` against the sandwich product |
| `LegacyQuaternions` | what differs in `quaternion.h` |
| `Attitude` | `example/attitude.h` |
| `LegacyAttitude` | `attitude.h` |
| `ComplementaryFilter` | `inc/explicit_complementary_filter.h` |
| `MadgwickGradient` | the gradient terms of `inc/madgwick.h` |
| `MadgwickFilter` | the rest of `inc/madgwick.h` |

The two kinds of type:

- Value types (`Vec3`, `Quaternion`) are datatypes. Each compound assignment
  becomes a function that returns the value the object holds afterwards.
  The free operators copy their left operand, so they leave their operands
  unchanged.
- Objects whose fields change in place (`Mat3`, `attitude`, `ECF`,
  `Madgwick`) are classes. Their methods state the complete new state.

## Model

| member | source | states |
|---|---|---|
| Vectors.Vec3.At | inc/vec3.h:25-35 | indices 0, 1 and 2 succeed; every other index fails the assertion |
| Vectors.AtRecoversComponents | vec3.h:16 | indexing 0, 1, 2 gives back x, y, z; every index from 3 up fails |
| Vectors.Dot | inc/vec3.h:37-41 | definition without a contract of its own: u[0] v[0] + u[1] v[1] + u[2] v[2]; see DotSymmetric, DotSelfPositive, OuterTrace |
| Vectors.Cross | inc/vec3.h:42-46 | definition without a contract of its own: the cross product formula; see CrossAntiCommutative, CrossSelfZero, CrossOrthogonal, Skew |
| Vectors.DotSymmetric | inc/vec3.h:37-41 | dot(u, v) == dot(v, u) |
| Vectors.DotSelfPositive | vec3.h:22-26 | dot(u, u) >= 0, and it is positive exactly for non-zero u |
| Vectors.CrossAntiCommutative | inc/vec3.h:42-46 | cross(u, v) == -cross(v, u) |
| Vectors.CrossSelfZero | vec3.h:27-31 | cross(u, u) is the zero vector |
| Vectors.CrossOrthogonal | inc/vec3.h:37-46 | cross(u, v) is orthogonal to both u and v |
| Vectors.Add | inc/vec3.h:47-53 | u + v, from which subtracting v gives back u |
| Vectors.AddCommutative | vec3.h:32-38 | u + v == v + u |
| Vectors.Sub | inc/vec3.h:54-60 | u - v, to which adding v gives back u |
| Vectors.Scale | inc/vec3.h:61-67 | u * a, which dividing by a non-zero a undoes |
| Vectors.ScaleLeft | inc/vec3.h:68-74 | a * u is u * a |
| Vectors.Div | inc/vec3.h:75-81 | u / a, which scaling by a undoes |
| Vectors.DivLeft | vec3.h:67-73 | a / u also divides u by a, so it equals u / a |
| Vectors.Magnitude | inc/vec3.h:22 | a non-negative length whose square is dot(u, u), positive exactly for non-zero u |
| Vectors.Outer | inc/vec3.h:94-98 | entry (i, j) is u[i] * v[j], and the trace is dot(u, v) |
| Vectors.OuterTrace | inc/vec3.h:94-98 | a matrix with the entries of outer(u, v) has trace dot(u, v) |
| Vectors.Skew | inc/vec3.h:99-103 | zero diagonal, antisymmetric, the matrix of v -> cross(u, v), and vex recovers u from it |
| Vectors.SkewEntries | inc/vec3.h:99-103 | the entries skew writes form a skew-symmetric matrix from which vex recovers u |
| Vectors.VexAsWritten | inc/vec3.h:104-108 | reading M(3,1) and M(3,2) fails the accessor's assertion on every matrix |
| Vectors.Vex | inc/vec3.h:104-108 | on a skew-symmetric M, M v == cross(vex(M), v) for every v |
| Matrices.RowAt | mat3.h:7-10 | row access succeeds exactly below 3 and returns that element |
| Matrices.SlotBijective | mat3.h:26 | row-major slot i*3+j is below 9 and distinct for distinct (i, j) |
| Matrices.Mat3.At | mat3.h:26 | entry (i, j) exists exactly when i < 3 and j < 3 |
| Matrices.Mat3.constructor | mat3.h:28-36 | a fresh nine-slot array with every entry zero |
| Matrices.Mat3.Copy | mat3.h:37-45 | a fresh array equal to M entry by entry |
| Matrices.Mat3.FromRows | mat3.h:46-54 | entry (i, j) is element j of row i |
| Matrices.Mat3.Set | mat3.h:26 | a write through operator() changes entry (i, j) and no other, and fails outside the 3x3 range |
| Quaternions.Quaternion.At | inc/quaternion.h:43-55 | indices 0 to 3 succeed; every other index fails the assertion |
| Quaternions.AtRecoversComponents | quaternion.h:39-60 | indexing 0..3 gives back w, x, y, z; every index from 4 up fails |
| Quaternions.Norm2 | inc/quaternion.h:171 | definition without a contract of its own: the squared norm that normalize() takes the root of; see Norm2Positive, NormMultiplicative, Normalize |
| Quaternions.Norm2Positive | inc/quaternion.h:171 | the squared norm is non-negative, and positive exactly for a non-zero quaternion |
| Quaternions.Add | inc/quaternion.h:95-101 | q + p, from which subtracting p gives back q |
| Quaternions.AddCommutative | inc/quaternion.h:95-101 | q + p == p + q |
| Quaternions.Sub | inc/quaternion.h:102-108 | q - p, to which adding p gives back q |
| Quaternions.Neg | inc/quaternion.h:123-127 | -q is the additive inverse of q, q scaled by -1 |
| Quaternions.Scale | inc/quaternion.h:135-141 | q * a, which dividing by a non-zero a undoes |
| Quaternions.ScaleLeft | inc/quaternion.h:128-134 | a * q is q * a |
| Quaternions.Div | inc/quaternion.h:149-155 | q / a, which scaling by a undoes |
| Quaternions.DivLeft | inc/quaternion.h:142-148 | a / q also divides q by a, so it equals q / a |
| Quaternions.VecToQuat | inc/quaternion.h:161-165 | vec_to_quat(u) has real part 0 and vector part u |
| Quaternions.QuatToVec | inc/quaternion.h:156-160 | quat_to_vec(q) is the vector part of q |
| Quaternions.VecQuatRoundTrip | inc/quaternion.h:156-165 | quat_to_vec(vec_to_quat(u)) == u, and vec_to_quat(quat_to_vec(q)) == q exactly when q is pure |
| Quaternions.Normalize | inc/quaternion.h:171-176 | the normalising constructors give norm one, and scaling back by the root of the squared norm gives the argument |
| Quaternions.NormalizeFacts | inc/quaternion.h:171 | for a non-zero q the root of the squared norm is positive, and dividing by it gives norm one |
| Quaternions.NormalizeUnit | inc/quaternion.h:176 | normalising a unit quaternion leaves it unchanged |
| Quaternions.Quaternion.MulAssign | inc/quaternion.h:78-87 | definition without a contract of its own: the Hamilton product formula of operator*=; see MulIdentity, NormMultiplicative, HamiltonProduct.MulAssociative |
| Quaternions.Mul | inc/quaternion.h:110-115 | definition without a contract of its own: operator* copies q and applies *= p; see MulIdentity, ConjugateOfProduct, NormMultiplicative, HamiltonProduct.MulAssociative |
| Quaternions.MulIdentity | inc/quaternion.h:78-87 | (1, 0, 0, 0) is a two-sided identity of the product |
| Quaternions.Quaternion.Conjugate | inc/quaternion.h:71 | definition without a contract of its own: negates x, y and z; see ConjugateInvolution, ConjugateOfProduct, MulConjugate |
| Quaternions.ConjugateInvolution | inc/quaternion.h:71 | conjugate keeps the real part, negates the vector part, is its own inverse and keeps the norm |
| Quaternions.ConjugateOfProduct | inc/quaternion.h:226-230 | conjugate(p q) == conjugate(q) conjugate(p) |
| Quaternions.MulConjugate | inc/quaternion.h:78-87 | q conjugate(q) and conjugate(q) q are both (Norm2(q), 0, 0, 0) |
| Quaternions.NormMultiplicative | inc/quaternion.h:78-87 | Norm2(p q) == Norm2(p) Norm2(q) |
| Quaternions.UnitProductIsUnit | inc/quaternion.h:192-201 | the product of two unit quaternions is a unit quaternion without renormalising |
| Quaternions.UnitMul | inc/quaternion.h:214-220 | Unit * Unit is the Hamilton product and stays a unit quaternion |
| Quaternions.UnitConjugate | inc/quaternion.h:231-235 | the free conjugate returns a conjugated unit quaternion |
| Quaternions.RotateVec | inc/quaternion.h:241-247 | definition without a contract of its own: v + 2w (u x v) + u x (2 (u x v)); see RotateVecIdentity and Rotations.RotateVecIsSandwich, RotateVecInverse, RotateVecCompose, RotateVecPreservesLength |
| Quaternions.RotateVecIdentity | inc/quaternion.h:241-247 | the identity rotation leaves every vector unchanged |
| Quaternions.PureNorm | inc/quaternion.h:161-165 | the squared norm of a pure quaternion is the squared length of its vector |
| HamiltonProduct.MulAssociative | inc/quaternion.h:78-87 | (p q) r == p (q r) |
| Rotations.RotateVecIsSandwich | inc/quaternion.h:241-247 | for a unit q, rotate_vec(q, v) is the vector part of q (0, v) conjugate(q), whose real part is zero |
| Rotations.RotateVecInverse | inc/quaternion.h:231-247 | rotating by conjugate(q) undoes rotating by q |
| Rotations.RotateVecCompose | inc/quaternion.h:214-247 | rotating by p q is rotating by q, then by p |
| Rotations.RotateVecPreservesLength | inc/quaternion.h:241-247 | rotate_vec keeps the length of every vector |
| LegacyQuaternions.Conjugated | quaternion.h:22 | conjugated() keeps w and negates x, y and z |
| LegacyQuaternions.ConjugatedInvolution | quaternion.h:22 | conjugating twice gives back q, and the norm is kept |
| LegacyQuaternions.ConjugateInPlace | quaternion.h:23 | conjugate() leaves q holding conjugated() |
| LegacyQuaternions.Div | quaternion.h:88-94 | (q / p) p == Norm2(p) q, so for a unit p the quotient times p is q |
| LegacyQuaternions.DivUndoesMul | quaternion.h:88-94 | (q p) / p == q for a unit p |
| LegacyQuaternions.Neg | quaternion.h:95-99 | -q is the additive inverse of q, q scaled by -1 |
| LegacyQuaternions.MakeUnit | quaternion.h:142 | Unit_Quaternion(w, x, y, z) stores exactly the components it is given |
| LegacyQuaternions.MakeUnitKeepsNorm | quaternion.h:142 | so Unit_Quaternion(2, 0, 0, 0) has squared norm 4 |
| LegacyQuaternions.Normalize | quaternion.h:145 | normalize() gives norm one, and scaling back by the root of the squared norm gives the original |
| LegacyQuaternions.NormalizeIdempotent | quaternion.h:145 | normalize() leaves a quaternion of norm one unchanged |
| LegacyQuaternions.MulQuatUnit | quaternion.h:152-156 | Quaternion * Unit is q p: the default unit is a right identity and the norm is multiplicative |
| LegacyQuaternions.MulUnitQuatAsWritten | quaternion.h:157-161 | Unit * Quaternion as written returns q p, the same as Quaternion * Unit |
| LegacyQuaternions.MulUnitQuatSwapped | quaternion.h:157-161 | for p = i and q = j the overload returns -k, while p q = k |
| LegacyQuaternions.MulUnitQuat | quaternion.h:157-161 | the corrected Unit * Quaternion is p q: the default unit is a left identity and the norm is multiplicative |
| LegacyQuaternions.MixedProductsAssociate | quaternion.h:152-161 | with the corrected overload, (p q) r == p (q r) for the mixed products |
| LegacyQuaternions.MulUnitUnit | quaternion.h:162-168 | Unit * Unit has the product of the norms, so two units give a unit |
| Attitude.Kinematics | example/attitude.h:36-41 | 1/2 q (0, w) is zero at rest and orthogonal to q in R^4 |
| Attitude.EulerStep | example/attitude.h:45-47 | definition without a contract of its own: p = q; p += dot_q dt; see EulerStepNorm, EulerStepNonZero |
| Attitude.EulerStepNorm | example/attitude.h:42-49 | the unnormalised Euler step never shrinks the squared norm |
| Attitude.EulerStepNonZero | example/attitude.h:42-49 | the Euler step of a unit quaternion is never zero, so renormalising it is defined |
| Attitude.IntegrateEuler | example/attitude.h:42-49 | integrate_euler is the unit quaternion that, scaled back by its root norm, is q + dt 1/2 q (0, w) |
| Attitude.Rate | example/attitude.h:56 | the rate at a renormalised stage is zero at rest |
| Attitude.HalfStepRate | example/attitude.h:53-56 | the slope f2 at the half step is zero at rest |
| Attitude.MidpointStageNonZero | example/attitude.h:53-58 | a stage q + f2 h on the midpoint rate is never zero for a unit q, whatever h |
| Attitude.Rk2Sum | example/attitude.h:58 | the sum q + f2 dt that integrate_rk2 renormalises is never zero |
| Attitude.Stage | example/attitude.h:53-70 | definition without a contract of its own: a stage q + f h of the Runge-Kutta integrators; see MidpointStageNonZero, Rk2AtRest, Rk4AtRest |
| Attitude.Rk4K2 | example/attitude.h:67 | the stage k2 = q + f2 dt/2 of integrate_rk4 is never zero |
| Attitude.Rk4K3 | example/attitude.h:69-70 | definition without a contract of its own: k3 = q + f3 dt, f3 the rate at k2; see Rk4AtRest |
| Attitude.Rk4Sum | example/attitude.h:74 | definition without a contract of its own: q + dt/6 (f1 + f4) + dt/3 (f2 + f3); see Rk4AtRest |
| Attitude.IntegrateRK2 | example/attitude.h:50-60 | integrate_rk2 is q + f2 dt renormalised, defined for every unit q and every rate |
| Attitude.IntegrateRK4 | example/attitude.h:61-77 | integrate_rk4 is q + dt/6 (f1 + f4) + dt/3 (f2 + f3) renormalised |
| Attitude.EulerAtRest | example/attitude.h:42-49 | with w = 0 integrate_euler returns q |
| Attitude.Rk2AtRest | example/attitude.h:50-60 | with w = 0 the midpoint sum is q, and integrate_rk2 returns q |
| Attitude.Rk4AtRest | example/attitude.h:61-77 | with w = 0 the stages k2 and k3 and the sum are q, and integrate_rk4 returns q |
| Attitude.AxisRotation | example/attitude.h:105-107 | the elementary rotation holds cos(a/2) and sin(a/2) on its own axis; normalising leaves it unchanged |
| Attitude.EulerToQuaternion | example/attitude.h:102-109 | qz qy qx rotates a vector about x, then about y, then about z |
| Attitude.Attitude.constructor | example/attitude.h:19 | the attitude starts at the identity |
| Attitude.Attitude.FromComponents | example/attitude.h:20 | the stored attitude is (w, x, y, z) normalised |
| Attitude.Attitude.UpdateAttitude | example/attitude.h:31-35 | q becomes integrate_euler(q, w, dt) |
| Attitude.Attitude.GetAttitudeQuaternion | example/attitude.h:86-90 | returns the stored attitude |
| Attitude.Attitude.SetAttitude | example/attitude.h:91-95 | overwrites the attitude exactly |
| Attitude.Attitude.SetAttitudeEuler | example/attitude.h:102-109 | stores the Euler-angle attitude qz qy qx |
| LegacyAttitude.Rate | attitude.h:28-33 | the rate as written is zero at rest and orthogonal to q |
| LegacyAttitude.RateAsWritten | attitude.h:31 | the rate goes through the swapped Unit * Quaternion overload |
| LegacyAttitude.RateCorrected | attitude.h:31 | with the corrected overload the rate is the newer class's 1/2 q (0, w) |
| LegacyAttitude.RateDifference | attitude.h:31 | the corrected rate minus the rate as written is (0, v x w), with v the vector part of q |
| LegacyAttitude.RatesAgree | attitude.h:31 | the two rates agree exactly when w is parallel to the vector part of q |
| LegacyAttitude.RateSwapped | attitude.h:31 | for q = i and w = (0, 1, 0) the two rates differ |
| LegacyAttitude.Integrate | attitude.h:34-40 | integrate stores the components of q + dt q' without renormalising |
| LegacyAttitude.UpdateNorm | attitude.h:28-40 | an update never shrinks the norm, and at rest it leaves q unchanged |
| LegacyAttitude.AxisRotation | attitude.h:68-70 | an elementary rotation has norm one |
| LegacyAttitude.EulerToUnit | attitude.h:65-72 | qz qy qx has norm one and equals the newer class's Euler-angle attitude |
| LegacyAttitude.Attitude.constructor | attitude.h:16 | the attitude starts at (1, 0, 0, 0) |
| LegacyAttitude.Attitude.FromComponents | attitude.h:17 | the components are stored unnormalised |
| LegacyAttitude.Attitude.UpdateAttitude | attitude.h:28-33 | q becomes integrate(q, rate as written, dt) |
| LegacyAttitude.Attitude.GetAttitudeQuaternion | attitude.h:49-53 | returns the stored attitude |
| LegacyAttitude.Attitude.SetAttitude | attitude.h:54-58 | overwrites the attitude exactly |
| LegacyAttitude.Attitude.SetAttitudeEuler | attitude.h:65-72 | stores qz qy qx |
| ComplementaryFilter.Prediction | inc/explicit_complementary_filter.h:100 | definition without a contract of its own: rotate_vec(conjugate(q), V[n]), the reference seen in the body frame; see Innovation, SteadyState |
| ComplementaryFilter.Term | inc/explicit_complementary_filter.h:100 | definition without a contract of its own: K[n] (U[n] x prediction); see Innovation, InnovationPrefix, ECF.SumInnovation |
| ComplementaryFilter.Innovation | inc/explicit_complementary_filter.h:98-102 | mes after n passes is zero when each observation equals its prediction, and when each weight is zero |
| ComplementaryFilter.InnovationPrefix | inc/explicit_complementary_filter.h:98-102 | the first n passes read only the first n weights, observations and references |
| ComplementaryFilter.Correction | inc/explicit_complementary_filter.h:103 | w - b + kp mes is the bias-corrected rate without innovation, and zero when the gyro reads the bias |
| ComplementaryFilter.BiasStep | inc/explicit_complementary_filter.h:104-105 | b' = b - dt ki mes, so the bias stays without innovation |
| ComplementaryFilter.SteadyState | inc/explicit_complementary_filter.h:92-106 | when all observations match their predictions and the gyro reads the bias, an update keeps attitude and bias |
| ComplementaryFilter.WeightsAsWritten | inc/explicit_complementary_filter.h:27 | definition without a contract of its own: the two-element list K{N, 0}; see WeightsAsWrittenMismatch |
| ComplementaryFilter.WeightsAsWrittenMismatch | inc/explicit_complementary_filter.h:27 | K{N, 0} has length N only for N == 2, and for N == 1 its weight is 1 |
| ComplementaryFilter.ECF.constructor | inc/explicit_complementary_filter.h:27 | identity attitude, zero bias, N zero vectors in V and U, N zero weights, zero gains, cursor 0 |
| ComplementaryFilter.ECF.GetAttitude | inc/explicit_complementary_filter.h:30 | returns the attitude |
| ComplementaryFilter.ECF.GetBias | inc/explicit_complementary_filter.h:31 | returns the bias |
| ComplementaryFilter.ECF.Reset | inc/explicit_complementary_filter.h:40 | identity attitude and zero bias; gains kept |
| ComplementaryFilter.ECF.SetGains | inc/explicit_complementary_filter.h:59-75 | stores kp and ki, writes the weights into K[0..k) in order, keeps the rest of K and leaves the cursor at 0 |
| ComplementaryFilter.ECF.SetReferenceVectors | inc/explicit_complementary_filter.h:76-83 | writes the vectors into V[0..k) in order, keeps V[k..N) and leaves the cursor at 0 |
| ComplementaryFilter.ECF.SetObservationVectors | inc/explicit_complementary_filter.h:84-91 | writes the observations into U[0..k) in order, keeps U[k..N) and leaves the cursor at 0 |
| ComplementaryFilter.ECF.UpdateFilter | inc/explicit_complementary_filter.h:92-106 | stores the observations, then q' = integrate_euler(q, w - b + kp mes, dt) with the old bias, and b' = b - dt ki mes |
| ComplementaryFilter.ECF.SumInnovation | inc/explicit_complementary_filter.h:98-102 | the loop computes the innovation over all N slots |
| ComplementaryFilter.ECF.UpdateAttitude | inc/explicit_complementary_filter.h:107-125 | q becomes integrate_euler(q, w, dt); nothing else changes |
| MadgwickGradient.Perturb | inc/madgwick.h:63-70 | moves component k by h and keeps the others |
| MadgwickGradient.GravityModel | inc/madgwick.h:57 | definition without a contract of its own: the quadratic form of a_ref in the components of q; see GravityPrediction, GravityColumnIsDerivative |
| MadgwickGradient.FieldModel | inc/madgwick.h:61 | definition without a contract of its own: the quadratic form of m_ref in the components of q for a reference (bx, 0, bz); see FieldPrediction, FieldColumnIsDerivative |
| MadgwickGradient.GravityPrediction | inc/madgwick.h:57 | a_ref is the quadratic gravity model in the components of q |
| MadgwickGradient.FieldPrediction | inc/madgwick.h:61 | m_ref is the quadratic field model for the reference (bx, 0, bz) |
| MadgwickGradient.GravityColumnIsDerivative | inc/madgwick.h:63-70 | the corrected gravity column k is the derivative of the gravity model along q[k] |
| MadgwickGradient.FieldColumnIsDerivative | inc/madgwick.h:63-70 | the corrected field column k is the derivative of the field model along q[k] |
| MadgwickGradient.GravityColumnAsWritten | inc/madgwick.h:63-70 | definition without a contract of its own: the gravity columns of f0 .. f3 as written; see ColumnSlips |
| MadgwickGradient.FieldColumnAsWritten | inc/madgwick.h:63-70 | definition without a contract of its own: the field columns of f0 .. f3 as written, with coefficients from their argument; see ColumnSlips, FieldCoefficientsAsWritten |
| MadgwickGradient.SlopeAsWritten | inc/madgwick.h:63-70 | definition without a contract of its own: one fk as written, the two dot products added; see FieldCoefficientsAsWritten |
| MadgwickGradient.GradientAsWritten | inc/madgwick.h:63-70 | definition without a contract of its own: (f0, f1, f2, f3) as written; see GradientOfNoResidual, ColumnSlips |
| MadgwickGradient.Cost | inc/madgwick.h:63-70 | definition without a contract of its own: the squared disagreement of predicted and measured directions that f0 .. f3 differentiate; see GradientIsSlope |
| MadgwickGradient.ColumnSlips | inc/madgwick.h:67-68 | the columns as written differ from the derivatives only in f2: gravity exactly when q.y != 0, field exactly when bx q.y != 0 |
| MadgwickGradient.GradientOfNoResidual | inc/madgwick.h:63-70 | with both residuals zero, both gradients are zero |
| MadgwickGradient.GradientIsSlope | inc/madgwick.h:63-70 | moving q[k] by h changes the cost by h fk plus a term of order h^2 |
| MadgwickGradient.GradientComponent | inc/madgwick.h:63-70 | fk is column k dotted with the residuals |
| MadgwickGradient.TurnedReference | inc/madgwick.h:61 | at q = (0.6, 0, 0, 0.8), b = (1, 0, 0) is predicted as m_ref = (-0.28, -0.96, 0) |
| MadgwickGradient.FieldCoefficientsAsWritten | inc/madgwick.h:69-70 | there f3 as written, with coefficients from m_ref, is -1.46944 |
| MadgwickGradient.TurnedSlope | inc/madgwick.h:69-70 | there f3 with the coefficients of b is 5.248, of the opposite sign |
| MadgwickFilter.Unitise | inc/madgwick.h:56 | a / a.magnitude() has length one, and scaling back by the magnitude gives a |
| MadgwickFilter.FieldReference | inc/madgwick.h:61 | b has y = 0, x >= 0 and z = m_i[2], its x holds the horizontal length, and it is m_i when m_i already lies so |
| MadgwickFilter.GravityReference | inc/madgwick.h:57 | a_ref is the gravity model |
| MadgwickFilter.WorldField | inc/madgwick.h:60-61 | the reference b lies in the x-z half plane with x >= 0 |
| MadgwickFilter.FieldPredicted | inc/madgwick.h:61 | m_ref is the field model for the coefficients of b |
| MadgwickFilter.Objective | inc/madgwick.h:54-70 | definition without a contract of its own: f0 .. f3 with the corrected columns at the current estimate; see ObjectiveIsCostGradient, ConsistentObjective, Madgwick.ObjectiveAt |
| MadgwickFilter.ObjectiveAsWritten | inc/madgwick.h:54-70 | definition without a contract of its own: f0 .. f3 exactly as written; see ConsistentObjective, ConsistentDividesByZero |
| MadgwickFilter.ObjectiveIsCostGradient | inc/madgwick.h:63-70 | the objective f is the gradient of the squared disagreement of the predicted and measured directions |
| MadgwickFilter.Direction | inc/madgwick.h:72-75 | f / f_norm is a unit quaternion scaling back to f; zero exactly when f is zero |
| MadgwickFilter.DirectionAsWritten | inc/madgwick.h:72-75 | the division by f_norm fails exactly when f is zero, and otherwise gives the direction |
| MadgwickFilter.DirectionDescends | inc/madgwick.h:72-88 | the inner product of f and the direction is f_norm, positive unless f is zero |
| MadgwickFilter.BiasRate | inc/madgwick.h:75 | w_q is zero without correction |
| MadgwickFilter.BiasRateBound | inc/madgwick.h:75 | the squared length of w_q is at most 4 Norm2(q) Norm2(d) |
| MadgwickFilter.NewBias | inc/madgwick.h:76 | the bias stays when w_q is zero |
| MadgwickFilter.StepSize | inc/madgwick.h:81 | mu is zero at rest and non-negative for non-negative alpha and dt |
| MadgwickFilter.Descend | inc/madgwick.h:83-88 | q_G stays at q without correction |
| MadgwickFilter.StepOfDescent | inc/madgwick.h:83-88 | the gradient step moves q by mu^2 Norm2(d) in squared norm |
| MadgwickFilter.BlendWeight | inc/madgwick.h:90 | y is one exactly when mu is zero, and lies in (0, 1] for beta > 0 and mu / dt >= 0 |
| MadgwickFilter.Blend | inc/madgwick.h:92 | the blend is q_G for y = 1 and q_w for y = 0 |
| MadgwickFilter.Run | inc/madgwick.h:72-88 | definition without a contract of its own: direction, new bias, dot_q, q_w, mu and q_G of one pass; see NoCorrection, GradientStep, RunAtRest |
| MadgwickFilter.Defined | inc/madgwick.h:90-92 | definition without a contract of its own: dt, mu/dt + beta and the blend are non-zero, the divisions of the last two lines; see FinishAtRest |
| MadgwickFilter.Update | inc/madgwick.h:51-93 | definition without a contract of its own: the finish of the pass on the objective; see UpdateAtRest, Madgwick.UpdateFilter |
| MadgwickFilter.Finish | inc/madgwick.h:90-92 | the new estimate keeps the bias of the pass |
| MadgwickFilter.NoCorrection | inc/madgwick.h:75-88 | with f zero there is no gradient step and the bias stays |
| MadgwickFilter.GradientStep | inc/madgwick.h:81-88 | otherwise the gradient step has squared length mu^2 |
| MadgwickFilter.RunAtRest | inc/madgwick.h:75-88 | with f zero and w equal to the bias, mu is 0 and both q_G and q_w are q |
| MadgwickFilter.FinishAtRest | inc/madgwick.h:90-92 | a pass with no step is defined and finishes at q |
| MadgwickFilter.PassAtRest | inc/madgwick.h:75-92 | with f zero and w equal to the bias, the pass is defined and keeps the estimate |
| MadgwickFilter.FieldConsistent | inc/madgwick.h:60-61 | a field whose world direction has y = 0 and x >= 0 is predicted exactly |
| MadgwickFilter.ConsistentObjective | inc/madgwick.h:63-70 | readings that match the predictions make both objectives zero |
| MadgwickFilter.ConsistentDividesByZero | inc/madgwick.h:72-75 | with such readings the update as written divides by f_norm == 0 |
| MadgwickFilter.LevelIsConsistent | inc/madgwick.h:56-61 | the level attitude with gravity along z and the field along x gives such readings |
| MadgwickFilter.UpdateAtRest | inc/madgwick.h:51-93 | with matching readings and w equal to the bias, the update is defined and keeps attitude and bias |
| MadgwickFilter.Madgwick.constructor | inc/madgwick.h:24 | identity attitude, zero bias, all three gains 2 |
| MadgwickFilter.Madgwick.GetAttitude | inc/madgwick.h:25 | returns the attitude |
| MadgwickFilter.Madgwick.GetBias | inc/madgwick.h:26 | returns the bias |
| MadgwickFilter.Madgwick.SetGains | inc/madgwick.h:43-49 | stores exactly alpha, beta and zeta and keeps the estimate |
| MadgwickFilter.Madgwick.Reset | inc/madgwick.h:34 | identity attitude and zero bias; gains kept |
| MadgwickFilter.Madgwick.ObjectiveAt | inc/madgwick.h:54-70 | the gradient half of the update (a_hat, a_ref, m_hat, m_i, m_ref, f0 .. f3) yields the objective (with the corrected columns, see Findings) at the current estimate |
| MadgwickFilter.Madgwick.UpdateFilter | inc/madgwick.h:51-93 | the state becomes the estimate of one full pass: new bias first, prediction with w minus the new bias, gradient step, blend and normalise; gains kept |
| MadgwickFilter.Madgwick.UpdateAttitude | inc/madgwick.h:94-112 | q becomes integrate_euler(q, w, dt); bias and gains kept |

## Left out

- Trigonometry has no exact model over `real`, so these are not modelled:
  - `get_attitude_euler` in both attitude classes (`atan2` and `asin`);
  - the angle-axis constructors of both `Unit_Quaternion` classes;
  - `set_attitude(ang, axis)`;
  - `expq`.
- The Euler-angle setters are modelled; they take `cos` and `sin` as parameters.
- `get_attitude_dcm` and `set_attitude(Mat3)` are declared but never defined, so they are not modelled.
- `Madgwick::set_reference_vectors` and `Madgwick::set_Ks` are declared but never defined, so they are not modelled.
- The Madgwick field `i` is never used, so it is not modelled.
- `operator/(Quaternion, Quaternion)` of inc/quaternion.h calls `conjugated()`, which the newer classes do not have, so it cannot be instantiated and is not modelled.
- The division of the older quaternion.h is modelled, as `LegacyQuaternions.Div`.
- Stream output (`operator<<`), the demonstration programs and `main.cpp` are console I/O and are not modelled.
- Floating-point rounding is not modelled: `T` is `real`.
- Convergence of the filters is an asymptotic floating-point property and is not modelled.
- C++ plumbing is left out:
  - copy, move and deleted members;
  - the virtual `Quaternion_Base::conjugate`;
  - the conversions between `Quaternion`, `Quaternion_Base` and `Unit_Quaternion`, which copy values;
  - the parameter-pack recursion, modelled as sequences written in order.
- The mixed products `Quaternion * Unit_Quaternion` and `Unit_Quaternion * Quaternion` of inc/quaternion.h both compute the Hamilton product in order, so the model uses `Mul`.
- Quaternions.Normalize, MadgwickFilter.Unitise, LegacyQuaternions.Normalize, Attitude.Attitude.FromComponents, Attitude.Rate: the requires exclude the zero input, where the source divides by a zero norm; the division by zero is a precondition, not a modelled value.
- Vectors.Div, Vectors.DivLeft, Quaternions.Div, Quaternions.DivLeft: the requires exclude the divisor 0, where the source divides by zero; the division by zero is a precondition, not a modelled value.
- Attitude.IntegrateRK4: the requires exclude a zero third stage k3 and a zero final sum, on which the normalising constructor would divide by zero. Whether either can be zero for a unit q is not settled by the model. The midpoint sum of integrate_rk2 and the stage k2 are proved never zero (`Attitude.MidpointStageNonZero`), so `Attitude.IntegrateRK2` has no such requires.
- MadgwickFilter.Madgwick.UpdateFilter: these requires say the update stays clear of its divisions by zero:
  - `a` and `m` are non-zero;
  - `dt` is non-zero;
  - `mu / dt + beta` is non-zero;
  - the blend is non-zero.
- MadgwickFilter.Madgwick.ObjectiveAt computes f0 .. f3 with the corrected columns and coefficients, not the literal expressions of inc/madgwick.h:63-70 (see Findings). `ObjectiveAsWritten` keeps those.
- MadgwickFilter.Madgwick.UpdateFilter uses the corrected gradient and the corrected direction. A zero gradient therefore gives no correction instead of a division by zero (see Findings). `ObjectiveAsWritten` and `DirectionAsWritten` keep the forms as written.
- Matrices.Mat3.FromRows: the requires say the list holds at least three rows. The source reads three rows whatever the list length.
- ComplementaryFilter.ECF.constructor: the weights are N zeros, which is the evident intent. `WeightsAsWritten` keeps the initialiser as written (see Findings).
- ComplementaryFilter.ECF.SetGains, ComplementaryFilter.ECF.SetReferenceVectors, ComplementaryFilter.ECF.SetObservationVectors, ComplementaryFilter.ECF.UpdateFilter: the requires say at most N values are given. The source's `assert(i < N)` fails on more.
- LegacyAttitude.Attitude.constructor, LegacyAttitude.Attitude.FromComponents, LegacyAttitude.Integrate, LegacyAttitude.AxisRotation, LegacyAttitude.EulerToUnit, LegacyAttitude.Attitude.SetAttitudeEuler, LegacyQuaternions.Conjugated, LegacyQuaternions.Neg, LegacyQuaternions.Div, and the legacy `cross` and `quat_to_vec`: the older vec3.h, quaternion.h and attitude.h declare their `std::initializer_list` constructors deleted (vec3.h:15, quaternion.h:15, quaternion.h:144). List-initialisation selects those deleted constructors, so every braced initialisation such as `q{1,0,0,0}` or `return {w,-x,-y,-z}` is ill-formed and that code does not compile as written. The model gives each braced list its evident meaning: the component constructor. The same holds for the legacy rows in Findings.
- Vectors.Vec3.AddAssign, Vectors.Vec3.SubAssign, Vectors.Vec3.MulAssign, Vectors.Vec3.DivAssign, Quaternions.Quaternion.AddAssign, Quaternions.Quaternion.SubAssign, Quaternions.Quaternion.MulAssign, Quaternions.Quaternion.ScaleAssign, Quaternions.Quaternion.DivAssign, Quaternions.Quaternion.Conjugate, LegacyQuaternions.ConjugateInPlace, Quaternions.Normalize, LegacyQuaternions.Normalize: the in-place operators `+=`, `-=`, `*=`, `/=`, `conjugate()` and `normalize()` are modelled as functions returning the value `*this` holds afterwards. Update in place and aliasing are not captured. In particular, `q *= q` (inc/quaternion.h:78-87, quaternion.h:28-36) reads the argument after `*this` has been partly overwritten. For q = (1, 1, 0, 0) it gives (0, 1, 0, 0), while `MulAssign(q, q)` is the square (0, 2, 0, 0). No modelled code path multiplies a quaternion by itself in place.
- LegacyAttitude.Attitude.UpdateAttitude uses the rate as written, through the swapped overload; `RateCorrected` is the corrected rate.
- Vectors.Magnitude, Quaternions.Normalize: `std::sqrt`, `std::cos` and `std::sin` are parameters, constrained only by `IsSqrt` and `IsCosSin`. Results that depend on the exact root are stated through those parameters.

## Findings

| source | as written | input that shows it | evidently intended | confidence | as-written member | corrected member |
|---|---|---|---|---|---|---|
| inc/vec3.h:107 | `vex` returns `{M(2,1), M(3,1), M(3,2)}` | any matrix: `M(3,1)` fails the accessor's `i < 3` assertion | `{M(2,1), M(0,2), M(1,0)}`, the inverse of `skew` | high, not executed | Vectors.VexAsWritten | Vectors.Vex, Vectors.Skew |
| inc/explicit_complementary_filter.h:27 | `K{N,0}` brace-initialises the two elements N and 0 | N = 1: one weight 1 is read where 0 was intended; any N other than 2 has the wrong length | N zero weights, `K(N, 0)` | high, not executed | ComplementaryFilter.WeightsAsWrittenMismatch | ComplementaryFilter.ECF.constructor |
| quaternion.h:157-161 | `Unit * Quaternion` returns `q * p`, with its operands swapped | p = i, q = j gives -k instead of k; in attitude.h:31 the rate is 1/2 (0, w) q | `p * q` | high, not executed | LegacyQuaternions.MulUnitQuatSwapped, LegacyAttitude.RateSwapped | LegacyQuaternions.MulUnitQuat, LegacyAttitude.RatesAgree |
| inc/madgwick.h:67-68 | in f2, the gravity column ends in `+4*q_G[2]` and the field column starts with `-m_ref[0]*q_G[2]` | any q with q.y != 0 (gravity), and with bx q.y != 0 (field) | `-4*q_G[2]` and `-4*b[0]*q_G[2]`, the partial derivatives along q[2] | medium, not executed | MadgwickGradient.ColumnSlips | MadgwickGradient.GravityColumnIsDerivative, MadgwickGradient.FieldColumnIsDerivative, MadgwickGradient.GradientIsSlope |
| inc/madgwick.h:64-70 | the field columns read their coefficients from `m_ref[0]` and `m_ref[2]` | q = (0.6, 0, 0, 0.8) with the field measured along body x: f3 as written is -1.46944, while the slope of the cost is 5.248 | the coefficients of the reference `b` (its x and z) | medium, not executed | MadgwickGradient.FieldCoefficientsAsWritten | MadgwickGradient.TurnedSlope, MadgwickFilter.ObjectiveIsCostGradient |
| inc/madgwick.h:72-75, 83-86 | f0..f3 are divided by `f_norm` without a check | level attitude q = (1, 0, 0, 0), a = (0, 0, 1), m = (1, 0, 0): every fk is 0 and so is `f_norm` | no correction when the gradient is zero | high, not executed | MadgwickFilter.ConsistentDividesByZero, MadgwickFilter.LevelIsConsistent | MadgwickFilter.Direction, MadgwickFilter.UpdateAtRest |
