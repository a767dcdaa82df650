/**
 * inc/madgwick.h: the gradient-descent attitude filter Madgwick<T>. It keeps
 * an attitude estimate q, a gyro bias estimate b_w and three gains alpha,
 * beta and zeta. Each update
 *
 *   1. normalises the accelerometer and magnetometer readings,
 *   2. predicts gravity and the magnetic field in the body frame from q, the
 *      field reference b being the measured field turned into the world
 *      frame with its horizontal part folded onto the x axis,
 *   3. forms the gradient f of the squared prediction error and its
 *      direction f / |f|,
 *   4. moves the bias by zeta * dt times the rate that direction implies,
 *   5. takes an Euler step q_w with the bias-corrected gyro rate and a
 *      gradient step q_G of length mu = alpha |dot_q| dt, and
 *   6. blends them with the weight y = beta / (mu / dt + beta) and
 *      normalises.
 *
 * The model uses the corrected gradient of MadgwickGradient (derivative
 * columns, coefficients read from b) and a direction that is zero when the
 * gradient is zero; the forms as written are kept beside them and compared.
 */
module MadgwickFilter {
  import opened Wrappers
  import opened Reals
  import opened Vectors
  import opened Quaternions
  import opened Rotations
  import opened MadgwickGradient
  import A = Attitude

  /** The gains alpha, beta, zeta. */
  datatype Gains = Gains(alpha: real, beta: real, zeta: real)

  /** The filter's state: the attitude q and the bias b_w. */
  datatype Estimate = Estimate(q: UnitQuaternion, bw: Vec3)

  /** a / a.magnitude(): the direction of a reading, of length one; scaling
      it back by the magnitude gives the reading. */
  function Unitise(sqrt: real -> real, u: Vec3): (r: Vec3)
    requires IsSqrt(sqrt) && u != Zero
    ensures Dot(r, r) == 1.0
    ensures r.MulAssign(Magnitude(sqrt, u)) == u
  {
    var n := Magnitude(sqrt, u);
    UnitLength(u, n, u.DivAssign(n));
    Vectors.Div(u, n)
  }

  lemma UnitLength(u: Vec3, n: real, r: Vec3)
    requires 0.0 < n && Sq(n) == Dot(u, u) && r == u.DivAssign(n)
    ensures Dot(r, r) == 1.0
  {
    QuotientSquare(u.x, n);
    QuotientSquare(u.y, n);
    QuotientSquare(u.z, n);
    calc {
      Dot(r, r) * Sq(n);
      (Sq(r.x) + Sq(r.y) + Sq(r.z)) * Sq(n);
      { SumTimes(Sq(r.x), Sq(r.y), Sq(r.z), 0.0, Sq(n)); }
      Sq(r.x) * Sq(n) + Sq(r.y) * Sq(n) + Sq(r.z) * Sq(n);
      Sq(u.x) + Sq(u.y) + Sq(u.z);
      Sq(n);
    }
    SqFacts(n);
    Cancel(Dot(r, r), Sq(n));
  }

  /** The field reference b of line 61: (sqrt(mi[0]^2 + mi[1]^2), 0, mi[2]).
      It lies in the x-z half-plane with x >= 0, keeps the vertical
      component and the horizontal length of mi, and is mi itself when mi
      already lies there. */
  function FieldReference(sqrt: real -> real, mi: Vec3): (r: Vec3)
    requires IsSqrt(sqrt)
    ensures r.y == 0.0 && 0.0 <= r.x && r.z == mi.z
    ensures Sq(r.x) == Sq(mi.x) + Sq(mi.y)
    ensures mi.y == 0.0 && 0.0 <= mi.x ==> r == mi
  {
    HorizontalLength(sqrt, mi);
    Vec3(sqrt(mi.x * mi.x + mi.y * mi.y), 0.0, mi.z)
  }

  lemma HorizontalLength(sqrt: real -> real, mi: Vec3)
    requires IsSqrt(sqrt)
    ensures 0.0 <= sqrt(mi.x * mi.x + mi.y * mi.y)
    ensures Sq(sqrt(mi.x * mi.x + mi.y * mi.y)) == Sq(mi.x) + Sq(mi.y)
    ensures mi.y == 0.0 && 0.0 <= mi.x ==> sqrt(mi.x * mi.x + mi.y * mi.y) == mi.x
  {
    SqFacts(mi.x);
    SqFacts(mi.y);
    if mi.y == 0.0 && 0.0 <= mi.x {
      RootOfSquare(sqrt, mi.x);
    }
  }

  /** a_ref: (0, 0, 1) turned by the conjugate of q; it is GravityModel. */
  function GravityReference(q: UnitQuaternion): (r: Vec3)
    ensures r == GravityModel(q)
  {
    GravityPrediction(q);
    RotateVec(UnitConjugate(q), Vec3(0.0, 0.0, 1.0))
  }

  /** b for the direction mHat of the field reading: m_i = rotate_vec(q,
      m_hat) folded by FieldReference. */
  function WorldField(sqrt: real -> real, q: UnitQuaternion, mHat: Vec3): (b: Vec3)
    requires IsSqrt(sqrt)
    ensures b.y == 0.0 && 0.0 <= b.x
  {
    FieldReference(sqrt, RotateVec(q, mHat))
  }

  /** m_ref: b turned back by the conjugate of q; it is FieldModel for the
      coefficients of b. */
  function FieldPredicted(sqrt: real -> real, q: UnitQuaternion, mHat: Vec3): (r: Vec3)
    requires IsSqrt(sqrt)
    ensures r == FieldModel(q, WorldField(sqrt, q, mHat).x, WorldField(sqrt, q, mHat).z)
  {
    var b := WorldField(sqrt, q, mHat);
    FieldPrediction(q, b.x, b.z);
    RotateVec(UnitConjugate(q), b)
  }

  /** (f0, f1, f2, f3) of lines 63-70 with the derivative columns and the
      coefficients of b. */
  function Objective(sqrt: real -> real, q: UnitQuaternion, a: Vec3, m: Vec3): Quaternion
    requires IsSqrt(sqrt) && a != Zero && m != Zero
  {
    var aHat, mHat := Unitise(sqrt, a), Unitise(sqrt, m);
    Gradient(q, GravityReference(q).SubAssign(aHat), WorldField(sqrt, q, mHat),
             FieldPredicted(sqrt, q, mHat).SubAssign(mHat))
  }

  /** (f0, f1, f2, f3) as written: the literal columns, coefficients from
      m_ref. */
  function ObjectiveAsWritten(sqrt: real -> real, q: UnitQuaternion, a: Vec3, m: Vec3): Quaternion
    requires IsSqrt(sqrt) && a != Zero && m != Zero
  {
    var aHat, mHat := Unitise(sqrt, a), Unitise(sqrt, m);
    var mRef := FieldPredicted(sqrt, q, mHat);
    GradientAsWritten(q, GravityReference(q).SubAssign(aHat), mRef, mRef.SubAssign(mHat))
  }

  /** The objective is the gradient of the cost: moving q[k] by h changes
      the cost by h fk plus a remainder of order h^2. */
  lemma ObjectiveIsCostGradient(sqrt: real -> real, q: UnitQuaternion, a: Vec3, m: Vec3, k: nat, h: real)
    requires IsSqrt(sqrt) && a != Zero && m != Zero && k < 4
    ensures var aHat, mHat := Unitise(sqrt, a), Unitise(sqrt, m);
            var b := WorldField(sqrt, q, mHat);
            Cost(Perturb(q, k, h), aHat, b, mHat)
            == Expansion(Cost(q, aHat, b, mHat), Objective(sqrt, q, a, m).At(k).value,
                         CostRemainder(q, aHat, b, mHat, k, h), h)
  {
    var aHat, mHat := Unitise(sqrt, a), Unitise(sqrt, m);
    var b := WorldField(sqrt, q, mHat);
    GradientIsSlope(q, aHat, b, mHat, k, h);
  }

  /** f / f_norm, with no correction when f is zero: the unit direction of
      f, or zero. */
  function Direction(sqrt: real -> real, f: Quaternion): (r: Quaternion)
    requires IsSqrt(sqrt)
    ensures f == ZeroQuaternion <==> r == ZeroQuaternion
    ensures f != ZeroQuaternion ==> Norm2(r) == 1.0 && r.ScaleAssign(sqrt(Norm2(f))) == f
  {
    if f == ZeroQuaternion then ZeroQuaternion
    else
      Norm2Positive(Normalize(sqrt, f));
      Normalize(sqrt, f)
  }

  /** f / f_norm as written: None stands for the division by f_norm == 0,
      which happens exactly when f is zero. */
  function DirectionAsWritten(sqrt: real -> real, f: Quaternion): (r: Option<Quaternion>)
    requires IsSqrt(sqrt)
    ensures r.None? <==> f == ZeroQuaternion
    ensures r.Some? ==> r.value == Direction(sqrt, f)
  {
    RootOfNorm(sqrt, f);
    var n := sqrt(Norm2(f));
    if n == 0.0 then None else Some(f.DivAssign(n))
  }

  /** The root of the squared norm is zero exactly for the zero quaternion. */
  lemma RootOfNorm(sqrt: real -> real, f: Quaternion)
    requires IsSqrt(sqrt)
    ensures 0.0 <= sqrt(Norm2(f))
    ensures f == ZeroQuaternion <==> sqrt(Norm2(f)) == 0.0
  {
    Norm2Positive(f);
    RootOfZero(sqrt);
    if f != ZeroQuaternion {
      RootPositive(sqrt, Norm2(f));
    }
  }

  /** The direction is a descent direction: its inner product with f is
      |f|, so the step -mu d lowers the cost to first order when mu > 0. */
  lemma DirectionDescends(sqrt: real -> real, f: Quaternion)
    requires IsSqrt(sqrt)
    ensures A.Inner(f, Direction(sqrt, f)) == sqrt(Norm2(f))
    ensures f != ZeroQuaternion ==> 0.0 < sqrt(Norm2(f))
  {
    Norm2Positive(f);
    if f == ZeroQuaternion {
      RootOfZero(sqrt);
    } else {
      var n := sqrt(Norm2(f));
      var d := Direction(sqrt, f);
      RootPositive(sqrt, Norm2(f));
      InnerOfQuotient(f, n, d);
    }
  }

  lemma InnerOfQuotient(f: Quaternion, n: real, d: Quaternion)
    requires Norm2(d) == 1.0 && d.ScaleAssign(n) == f
    ensures A.Inner(f, d) == n
  {
    calc {
      A.Inner(f, d);
      (d.w * n) * d.w + (d.x * n) * d.x + (d.y * n) * d.y + (d.z * n) * d.z;
      n * Norm2(d);
    }
  }

  /** w_q of line 75: the vector part of 2 conjugate(q_G) d; zero when
      there is no correction. */
  function BiasRate(q: Quaternion, d: Quaternion): (r: Vec3)
    ensures d == ZeroQuaternion ==> r == Zero
  {
    QuatToVec(Mul(q.Conjugate().ScaleAssign(2.0), d))
  }

  /** The rate the correction feeds into the bias has length at most
      2 |q| |d|: at most 2 for a unit attitude and a unit direction. */
  lemma BiasRateBound(q: Quaternion, d: Quaternion)
    ensures Dot(BiasRate(q, d), BiasRate(q, d)) <= 4.0 * Norm2(q) * Norm2(d)
  {
    var c := q.Conjugate().ScaleAssign(2.0);
    var p := Mul(c, d);
    NormMultiplicative(c, d);
    DoubledConjugate(q, c);
    VectorPartBound(p);
  }

  lemma DoubledConjugate(q: Quaternion, c: Quaternion)
    requires c == q.Conjugate().ScaleAssign(2.0)
    ensures Norm2(c) == 4.0 * Norm2(q)
  {
  }

  lemma VectorPartBound(p: Quaternion)
    ensures Dot(QuatToVec(p), QuatToVec(p)) <= Norm2(p)
  {
    SqFacts(p.w);
  }

  /** b_w += zeta * w_q * dt. */
  function NewBias(bw: Vec3, zeta: real, wq: Vec3, dt: real): (r: Vec3)
    ensures wq == Zero ==> r == bw
  {
    bw.AddAssign(wq.MulAssign(zeta).MulAssign(dt))
  }

  /** mu of line 81: alpha |dot_q| dt. It is zero at rest and
      non-negative for non-negative alpha and dt. */
  function StepSize(sqrt: real -> real, alpha: real, dq: Quaternion, dt: real): (mu: real)
    requires IsSqrt(sqrt)
    ensures dq == ZeroQuaternion ==> mu == 0.0
    ensures 0.0 <= alpha && 0.0 <= dt ==> 0.0 <= mu
  {
    var n := sqrt(Norm2(dq));
    RootOfNorm(sqrt, dq);
    ProductSign(alpha, n, dt);
    alpha * n * dt
  }

  lemma ProductSign(a: real, b: real, c: real)
    requires 0.0 <= b
    ensures b == 0.0 ==> a * b * c == 0.0
    ensures 0.0 <= a && 0.0 <= c ==> 0.0 <= a * b * c
  {
    if 0.0 <= a && 0.0 <= c {
      MulNonNegative(a, b);
      MulNonNegative(a * b, c);
    }
  }

  /** q_G of lines 83-88: q moved by mu against the direction. */
  function Descend(q: Quaternion, mu: real, d: Quaternion): (r: Quaternion)
    ensures d == ZeroQuaternion ==> r == q
  {
    q.SubAssign(d.ScaleAssign(mu))
  }

  /** The gradient step moves q by |mu| |d|. */
  lemma StepOfDescent(q: Quaternion, mu: real, d: Quaternion)
    ensures Norm2(q.SubAssign(Descend(q, mu, d))) == Sq(mu) * Norm2(d)
  {
    var s := q.SubAssign(Descend(q, mu, d));
    assert s == d.ScaleAssign(mu);
    calc {
      Norm2(s);
      (d.w * mu) * (d.w * mu) + (d.x * mu) * (d.x * mu) + (d.y * mu) * (d.y * mu) + (d.z * mu) * (d.z * mu);
      Sq(mu) * Norm2(d);
    }
  }

  /** y of line 90: beta / (mu / dt + beta). It is one exactly when the
      gradient step is empty, and lies in (0, 1] when beta is positive and
      mu / dt is not negative. */
  function BlendWeight(mu: real, dt: real, beta: real): (y: real)
    requires dt != 0.0 && mu / dt + beta != 0.0
    ensures y == 1.0 <==> mu == 0.0
    ensures 0.0 < beta && 0.0 <= mu / dt ==> 0.0 < y <= 1.0
  {
    beta / (mu / dt + beta)
  }

  /** y q_G + (1 - y) q_w: q_G for y = 1, q_w for y = 0. */
  function Blend(y: real, qG: Quaternion, qw: Quaternion): (r: Quaternion)
    ensures y == 1.0 ==> r == qG
    ensures y == 0.0 ==> r == qw
  {
    qG.ScaleAssign(y).AddAssign(qw.ScaleAssign(1.0 - y))
  }

  /** The quantities of one update up to the blend, for the objective f. */
  datatype Pass = Pass(dir: Quaternion, bw: Vec3, dq: Quaternion, qw: Quaternion, mu: real, qG: Quaternion)

  function Run(sqrt: real -> real, e: Estimate, g: Gains, w: Vec3, dt: real, f: Quaternion): (p: Pass)
    requires IsSqrt(sqrt)
  {
    var d := Direction(sqrt, f);
    var bw := NewBias(e.bw, g.zeta, BiasRate(e.q, d), dt);
    var dq := A.Kinematics(e.q, Vectors.Sub(w, bw));
    var mu := StepSize(sqrt, g.alpha, dq, dt);
    Pass(d, bw, dq, e.q.AddAssign(dq.ScaleAssign(dt)), mu, Descend(e.q, mu, d))
  }

  /** update_filter divides by dt in y, by mu / dt + beta, and normalises
      the blend: all three must be non-zero. */
  predicate Defined(dt: real, beta: real, p: Pass)
  {
    dt != 0.0 && p.mu / dt + beta != 0.0 && Blend(BlendWeight(p.mu, dt, beta), p.qG, p.qw) != ZeroQuaternion
  }

  /** The estimate after the blend of a pass: the normalised blend and the
      new bias. */
  function Finish(sqrt: real -> real, g: Gains, dt: real, p: Pass): (r: Estimate)
    requires IsSqrt(sqrt) && Defined(dt, g.beta, p)
    ensures r.bw == p.bw
  {
    Estimate(Normalize(sqrt, Blend(BlendWeight(p.mu, dt, g.beta), p.qG, p.qw)), p.bw)
  }

  /** With a zero objective there is no gradient step and the bias stays. */
  lemma NoCorrection(sqrt: real -> real, e: Estimate, g: Gains, w: Vec3, dt: real, f: Quaternion)
    requires IsSqrt(sqrt) && f == ZeroQuaternion
    ensures Run(sqrt, e, g, w, dt, f).qG == e.q && Run(sqrt, e, g, w, dt, f).bw == e.bw
  {
  }

  /** Otherwise the gradient step has length |mu|. */
  lemma GradientStep(sqrt: real -> real, e: Estimate, g: Gains, w: Vec3, dt: real, f: Quaternion)
    requires IsSqrt(sqrt) && f != ZeroQuaternion
    ensures Norm2(e.q.SubAssign(Run(sqrt, e, g, w, dt, f).qG)) == Sq(Run(sqrt, e, g, w, dt, f).mu)
  {
    var p := Run(sqrt, e, g, w, dt, f);
    StepOfDescent(e.q, p.mu, p.dir);
  }

  /** With a zero objective and the gyro reading equal to the bias, the
      pass keeps q and the bias and takes no gradient step. */
  lemma RunAtRest(sqrt: real -> real, e: Estimate, g: Gains, w: Vec3, dt: real, f: Quaternion, p: Pass)
    requires IsSqrt(sqrt) && f == ZeroQuaternion && w == e.bw && p == Run(sqrt, e, g, w, dt, f)
    ensures p.mu == 0.0 && p.qG == e.q && p.qw == e.q && p.bw == e.bw
  {
    NoCorrection(sqrt, e, g, w, dt, f);
    assert Vectors.Sub(w, p.bw) == Zero;
    assert p.dq == ZeroQuaternion;
    A.ScaledZero(p.dq, dt);
  }

  /** A pass with no step at all blends to q again (y = 1), which
      normalising leaves unchanged. */
  lemma FinishAtRest(sqrt: real -> real, q: UnitQuaternion, g: Gains, dt: real, p: Pass)
    requires IsSqrt(sqrt) && p.mu == 0.0 && p.qG == q && p.qw == q && dt != 0.0 && g.beta != 0.0
    ensures Defined(dt, g.beta, p)
    ensures Finish(sqrt, g, dt, p) == Estimate(q, p.bw)
  {
    NormalizeUnit(sqrt, q);
  }

  /** With a zero objective and the gyro reading equal to the bias, the
      pass p is defined and finishes where it started. */
  lemma PassAtRest(sqrt: real -> real, e: Estimate, g: Gains, w: Vec3, dt: real, f: Quaternion, p: Pass)
    requires IsSqrt(sqrt) && f == ZeroQuaternion && w == e.bw && dt != 0.0 && g.beta != 0.0
    requires p == Run(sqrt, e, g, w, dt, f)
    ensures Defined(dt, g.beta, p)
    ensures Finish(sqrt, g, dt, p) == e
  {
    RunAtRest(sqrt, e, g, w, dt, f, p);
    FinishAtRest(sqrt, e.q, g, dt, p);
  }

  /** Whether update_filter(w, dt, a, m) stays clear of the divisions by
      zero of Defined. */
  predicate UpdateDefined(sqrt: real -> real, e: Estimate, g: Gains, w: Vec3, dt: real, a: Vec3, m: Vec3)
    requires IsSqrt(sqrt) && a != Zero && m != Zero
  {
    Defined(dt, g.beta, Run(sqrt, e, g, w, dt, Objective(sqrt, e.q, a, m)))
  }

  /** The estimate after update_filter(w, dt, a, m). */
  function Update(sqrt: real -> real, e: Estimate, g: Gains, w: Vec3, dt: real, a: Vec3, m: Vec3): (r: Estimate)
    requires IsSqrt(sqrt) && a != Zero && m != Zero && UpdateDefined(sqrt, e, g, w, dt, a, m)
  {
    Finish(sqrt, g, dt, Run(sqrt, e, g, w, dt, Objective(sqrt, e.q, a, m)))
  }

  /** The readings agree with the estimate: the normalised accelerometer
      reading is a_ref and the normalised field reading is m_ref. */
  predicate Consistent(sqrt: real -> real, q: UnitQuaternion, a: Vec3, m: Vec3)
    requires IsSqrt(sqrt) && a != Zero && m != Zero
  {
    Unitise(sqrt, a) == GravityReference(q) && Unitise(sqrt, m) == FieldPredicted(sqrt, q, Unitise(sqrt, m))
  }

  /** A field reading is consistent whenever, turned into the world frame,
      it has no y component and a non-negative x component: folding it onto
      the x axis changes nothing, and turning it back undoes the turn. */
  lemma FieldConsistent(sqrt: real -> real, q: UnitQuaternion, mHat: Vec3)
    requires IsSqrt(sqrt)
    requires RotateVec(q, mHat).y == 0.0 && 0.0 <= RotateVec(q, mHat).x
    ensures FieldPredicted(sqrt, q, mHat) == mHat
  {
    assert WorldField(sqrt, q, mHat) == RotateVec(q, mHat);
    RotateVecInverse(q, mHat);
  }

  /** With consistent readings both residuals vanish. */
  lemma ConsistentResiduals(sqrt: real -> real, q: UnitQuaternion, a: Vec3, m: Vec3)
    requires IsSqrt(sqrt) && a != Zero && m != Zero && Consistent(sqrt, q, a, m)
    ensures GravityReference(q).SubAssign(Unitise(sqrt, a)) == Zero
    ensures FieldPredicted(sqrt, q, Unitise(sqrt, m)).SubAssign(Unitise(sqrt, m)) == Zero
  {
  }

  /** With consistent readings the objective and the objective as written
      are both zero. */
  lemma ConsistentObjective(sqrt: real -> real, q: UnitQuaternion, a: Vec3, m: Vec3)
    requires IsSqrt(sqrt) && a != Zero && m != Zero && Consistent(sqrt, q, a, m)
    ensures Objective(sqrt, q, a, m) == ZeroQuaternion
    ensures ObjectiveAsWritten(sqrt, q, a, m) == ZeroQuaternion
  {
    ConsistentResiduals(sqrt, q, a, m);
    var mHat := Unitise(sqrt, m);
    GradientOfNoResidual(q, FieldPredicted(sqrt, q, mHat), WorldField(sqrt, q, mHat));
  }

  /** Consistent readings make f_norm zero, and update_filter as written
      divides f0 .. f3 by it. */
  lemma ConsistentDividesByZero(sqrt: real -> real, q: UnitQuaternion, a: Vec3, m: Vec3)
    requires IsSqrt(sqrt) && a != Zero && m != Zero && Consistent(sqrt, q, a, m)
    ensures DirectionAsWritten(sqrt, ObjectiveAsWritten(sqrt, q, a, m)).None?
  {
    ConsistentObjective(sqrt, q, a, m);
  }

  /** The level attitude with gravity read along z and the field along x is
      consistent: the input on which update_filter as written divides by
      zero. */
  lemma LevelIsConsistent(sqrt: real -> real)
    requires IsSqrt(sqrt)
    ensures Consistent(sqrt, Identity, Vec3(0.0, 0.0, 1.0), Vec3(1.0, 0.0, 0.0))
  {
    LevelGravityConsistent(sqrt);
    LevelFieldConsistent(sqrt);
  }

  lemma LevelGravityConsistent(sqrt: real -> real)
    requires IsSqrt(sqrt)
    ensures Unitise(sqrt, Vec3(0.0, 0.0, 1.0)) == GravityReference(Identity)
  {
    UnitiseUnit(sqrt, Vec3(0.0, 0.0, 1.0));
    LevelGravity();
  }

  lemma LevelFieldConsistent(sqrt: real -> real)
    requires IsSqrt(sqrt)
    ensures Unitise(sqrt, Vec3(1.0, 0.0, 0.0)) == FieldPredicted(sqrt, Identity, Unitise(sqrt, Vec3(1.0, 0.0, 0.0)))
  {
    LevelField(sqrt, Identity, Vec3(1.0, 0.0, 0.0), Unitise(sqrt, Vec3(1.0, 0.0, 0.0)));
  }

  lemma LevelField(sqrt: real -> real, q: UnitQuaternion, m: Vec3, u: Vec3)
    requires IsSqrt(sqrt) && q == Identity && m == Vec3(1.0, 0.0, 0.0) && u == Unitise(sqrt, m)
    ensures FieldPredicted(sqrt, q, u) == u
  {
    UnitiseUnit(sqrt, m);
    RotateVecIdentity(u);
    FieldConsistent(sqrt, q, u);
  }

  lemma LevelGravity()
    ensures GravityReference(Identity) == Vec3(0.0, 0.0, 1.0)
  {
  }

  /** A reading of length one is its own direction. */
  lemma UnitiseUnit(sqrt: real -> real, u: Vec3)
    requires IsSqrt(sqrt) && Dot(u, u) == 1.0
    ensures u != Zero && Unitise(sqrt, u) == u
  {
    RootOfOne(sqrt);
    assert Magnitude(sqrt, u) == 1.0;
  }

  /** A consistent estimate whose bias equals the gyro reading is a fixed
      point: the pass update_filter runs on it (Update is Finish of that
      pass) is defined and changes neither the attitude nor the bias. */
  lemma UpdateAtRest(sqrt: real -> real, e: Estimate, g: Gains, w: Vec3, dt: real, a: Vec3, m: Vec3, p: Pass)
    requires IsSqrt(sqrt) && a != Zero && m != Zero && Consistent(sqrt, e.q, a, m)
    requires w == e.bw && dt != 0.0 && g.beta != 0.0
    requires p == Run(sqrt, e, g, w, dt, Objective(sqrt, e.q, a, m))
    ensures Defined(dt, g.beta, p)
    ensures Finish(sqrt, g, dt, p) == e
  {
    ConsistentObjective(sqrt, e.q, a, m);
    PassAtRest(sqrt, e, g, w, dt, Objective(sqrt, e.q, a, m), p);
  }

  /** The readings update_filter computes on the way to f0 .. f3 give the
      objective. */
  lemma ObjectiveStepwise(sqrt: real -> real, q: UnitQuaternion, a: Vec3, m: Vec3, aHat: Vec3, mHat: Vec3,
                          aRef: Vec3, b: Vec3, mRef: Vec3, f: Quaternion)
    requires IsSqrt(sqrt) && a != Zero && m != Zero
    requires aHat == Unitise(sqrt, a) && mHat == Unitise(sqrt, m)
    requires aRef == RotateVec(UnitConjugate(q), Vec3(0.0, 0.0, 1.0))
    requires b == FieldReference(sqrt, RotateVec(q, mHat)) && mRef == RotateVec(UnitConjugate(q), b)
    requires f == Gradient(q, aRef.SubAssign(aHat), b, mRef.SubAssign(mHat))
    ensures f == Objective(sqrt, q, a, m)
  {
  }

  /** The values update_filter computes after f0 .. f3 form the pass. */
  lemma PassStepwise(sqrt: real -> real, e: Estimate, g: Gains, w: Vec3, dt: real, f: Quaternion, p: Pass)
    requires IsSqrt(sqrt) && p.dir == Direction(sqrt, f)
    requires p.bw == NewBias(e.bw, g.zeta, BiasRate(e.q, p.dir), dt)
    requires p.dq == A.Kinematics(e.q, Vectors.Sub(w, p.bw)) && p.qw == e.q.AddAssign(p.dq.ScaleAssign(dt))
    requires p.mu == StepSize(sqrt, g.alpha, p.dq, dt) && p.qG == Descend(e.q, p.mu, p.dir)
    ensures Run(sqrt, e, g, w, dt, f) == p
  {
  }

  /** Once the objective and the pass are known, the update is the finish
      of that pass, and the pass is defined. */
  lemma FinishStepwise(sqrt: real -> real, e: Estimate, g: Gains, w: Vec3, dt: real, a: Vec3, m: Vec3,
                       f: Quaternion, p: Pass)
    requires IsSqrt(sqrt) && a != Zero && m != Zero && UpdateDefined(sqrt, e, g, w, dt, a, m)
    requires f == Objective(sqrt, e.q, a, m) && Run(sqrt, e, g, w, dt, f) == p
    ensures Defined(dt, g.beta, p) && Update(sqrt, e, g, w, dt, a, m) == Finish(sqrt, g, dt, p)
  {
  }

  /** The filter object. */
  class Madgwick {
    var q: UnitQuaternion
    var bw: Vec3
    var alpha: real
    var beta: real
    var zeta: real

    /** Madgwick(): q{1, 0, 0, 0}, normalised, zero bias and all three
        gains 2. */
    constructor (sqrt: real -> real)
      requires IsSqrt(sqrt)
      ensures q == Identity && bw == Zero
      ensures alpha == 2.0 && beta == 2.0 && zeta == 2.0
    {
      var p := Normalize(sqrt, Identity);
      NormalizeUnit(sqrt, Identity);
      new;
      q := p;
      bw := Zero;
      alpha, beta, zeta := 2.0, 2.0, 2.0;
    }

    /** get_attitude() */
    function GetAttitude(): (r: UnitQuaternion)
      reads this
      ensures r == q
    {
      q
    }

    /** get_bias() */
    function GetBias(): (r: Vec3)
      reads this
      ensures r == bw
    {
      bw
    }

    /** set_gains(alpha, beta, zeta); the estimate is kept. */
    method SetGains(newAlpha: real, newBeta: real, newZeta: real)
      modifies this
      ensures alpha == newAlpha && beta == newBeta && zeta == newZeta
      ensures q == old(q) && bw == old(bw)
    {
      alpha, beta, zeta := newAlpha, newBeta, newZeta;
    }

    /** reset_filter(): q = {1, 0, 0, 0}, normalised, and a zero bias; the
        gains are kept. */
    method Reset(sqrt: real -> real)
      requires IsSqrt(sqrt)
      modifies this
      ensures q == Identity && bw == Zero
      ensures alpha == old(alpha) && beta == old(beta) && zeta == old(zeta)
    {
      var p := Normalize(sqrt, Identity);
      NormalizeUnit(sqrt, Identity);
      q := p;
      bw := Zero;
    }

    /** The gradient half of update_filter(w, dt, a, m): a_hat, a_ref,
        m_hat, m_i, m_ref and f0 .. f3 at the current estimate. */
    method ObjectiveAt(sqrt: real -> real, a: Vec3, m: Vec3) returns (f: Quaternion)
      requires IsSqrt(sqrt) && a != Zero && m != Zero
      ensures f == Objective(sqrt, q, a, m)
    {
      var qG: Quaternion := q;
      var aHat := Unitise(sqrt, a);
      var aRef := RotateVec(UnitConjugate(q), Vec3(0.0, 0.0, 1.0));
      var mHat := Unitise(sqrt, m);
      var mi := RotateVec(q, mHat);
      var b := FieldReference(sqrt, mi);
      var mRef := RotateVec(UnitConjugate(q), b);
      f := Gradient(qG, aRef.SubAssign(aHat), b, mRef.SubAssign(mHat));
      ObjectiveStepwise(sqrt, q, a, m, aHat, mHat, aRef, b, mRef, f);
    }

    /** update_filter(w, dt, a, m), step by step as in the source, with the
        corrected gradient and direction. */
    method UpdateFilter(sqrt: real -> real, w: Vec3, dt: real, a: Vec3, m: Vec3)
      requires IsSqrt(sqrt) && a != Zero && m != Zero
      requires UpdateDefined(sqrt, Estimate(q, bw), Gains(alpha, beta, zeta), w, dt, a, m)
      modifies this
      ensures alpha == old(alpha) && beta == old(beta) && zeta == old(zeta)
      ensures Estimate(q, bw) == Update(sqrt, old(Estimate(q, bw)), Gains(alpha, beta, zeta), w, dt, a, m)
    {
      var e, g := Estimate(q, bw), Gains(alpha, beta, zeta);
      var qG: Quaternion := q;
      var f := ObjectiveAt(sqrt, a, m);
      var d := Direction(sqrt, f);
      var wq := BiasRate(qG, d);
      var newBias := NewBias(bw, zeta, wq, dt);
      var dotQ := A.Kinematics(q, Vectors.Sub(w, newBias));
      var qw := q.AddAssign(dotQ.ScaleAssign(dt));
      var mu := StepSize(sqrt, alpha, dotQ, dt);
      qG := Descend(qG, mu, d);
      var p := Pass(d, newBias, dotQ, qw, mu, qG);
      PassStepwise(sqrt, e, g, w, dt, f, p);
      FinishStepwise(sqrt, e, g, w, dt, a, m, f, p);
      var y := BlendWeight(mu, dt, beta);
      q, bw := Normalize(sqrt, Blend(y, qG, qw)), newBias;
    }

    /** update_attitude(w, dt): q = integrate_euler(q, w, dt), the
        integrator shared with the attitude class. */
    method UpdateAttitude(sqrt: real -> real, w: Vec3, dt: real)
      requires IsSqrt(sqrt)
      modifies this
      ensures q == A.IntegrateEuler(sqrt, old(q), w, dt)
      ensures bw == old(bw) && alpha == old(alpha) && beta == old(beta) && zeta == old(zeta)
    {
      q := A.IntegrateEuler(sqrt, q, w, dt);
    }
  }
}
