/**
 * example/attitude.h: an attitude held as a unit quaternion and propagated
 * from body angular rates. The quaternion rate is half the product of the
 * attitude and the pure quaternion (0, w); the integrators take one explicit
 * Euler, midpoint (RK2) or classical Runge-Kutta (RK4) step and renormalise
 * through the Unit_Quaternion(Quaternion) constructor.
 *
 * attitude_kinematics and the integrators are private member functions that
 * do not touch the object, so they are modelled as functions; the object
 * itself, whose only field is the attitude, is the class Attitude.
 */
module Attitude {
  import opened Reals
  import opened Vectors
  import opened Quaternions
  import opened Rotations

  /** The inner product of two quaternions as vectors of R^4. */
  function Inner(p: Quaternion, q: Quaternion): real
  {
    p.w * q.w + p.x * q.x + p.y * q.y + p.z * q.z
  }

  /** attitude_kinematics(q, w): 1/2 * (q * Quaternion(w)), the rate of the
      attitude for the body rate w. It vanishes at rest and is orthogonal to
      q, so to first order it does not change the norm of q. */
  function Kinematics(q: Quaternion, w: Vec3): (r: Quaternion)
    ensures w == Zero ==> r == ZeroQuaternion
    ensures Inner(q, r) == 0.0
  {
    var m := Mul(q, VecToQuat(w));
    ProductWithPureIsOrthogonal(q, w, m);
    m.ScaleAssign(0.5)
  }

  /** q (0, w) is orthogonal to q in R^4. */
  lemma ProductWithPureIsOrthogonal(q: Quaternion, w: Vec3, m: Quaternion)
    requires m == Mul(q, VecToQuat(w))
    ensures Inner(q, m) == 0.0
  {
    SandwichInner(q, w, m);
    OrthogonalExpanded(q, w, m);
  }

  lemma OrthogonalExpanded(q: Quaternion, w: Vec3, m: Quaternion)
    requires m.w == -q.x * w.x - q.y * w.y - q.z * w.z
    requires m.x == q.w * w.x + q.y * w.z - w.y * q.z
    requires m.y == q.w * w.y - q.x * w.z + w.x * q.z
    requires m.z == q.w * w.z + q.x * w.y - w.x * q.y
    ensures Inner(q, m) == 0.0
  {
  }

  /** The unnormalised Euler step of integrate_euler: p = q; p += dot_q * dt. */
  function EulerStep(q: Quaternion, w: Vec3, dt: real): Quaternion
  {
    q.AddAssign(Kinematics(q, w).ScaleAssign(dt))
  }

  /** Because the rate is orthogonal to q, the Euler step never shrinks the
      norm; in particular it is never zero for a unit q, so the
      renormalisation that follows never divides by zero. */
  lemma EulerStepNorm(q: Quaternion, w: Vec3, dt: real)
    ensures Norm2(EulerStep(q, w, dt)) >= Norm2(q)
  {
    var k := Kinematics(q, w);
    var r := EulerStep(q, w, dt);
    StepSquares(q, k, r, dt);
    CrossTermsVanish(q, k, dt);
    SqFacts(k.w * dt);
    SqFacts(k.x * dt);
    SqFacts(k.y * dt);
    SqFacts(k.z * dt);
  }

  /** Each component of q + k dt squared. */
  lemma StepSquares(q: Quaternion, k: Quaternion, r: Quaternion, dt: real)
    requires r == q.AddAssign(k.ScaleAssign(dt))
    ensures Sq(r.w) == Sq(q.w) + 2.0 * dt * (q.w * k.w) + Sq(k.w * dt)
    ensures Sq(r.x) == Sq(q.x) + 2.0 * dt * (q.x * k.x) + Sq(k.x * dt)
    ensures Sq(r.y) == Sq(q.y) + 2.0 * dt * (q.y * k.y) + Sq(k.y * dt)
    ensures Sq(r.z) == Sq(q.z) + 2.0 * dt * (q.z * k.z) + Sq(k.z * dt)
  {
  }

  /** The cross terms of |q + k dt|^2 add up to 2 dt <q, k>, zero here. */
  lemma CrossTermsVanish(q: Quaternion, k: Quaternion, dt: real)
    requires Inner(q, k) == 0.0
    ensures 2.0 * dt * (q.w * k.w) + 2.0 * dt * (q.x * k.x) + 2.0 * dt * (q.y * k.y)
            + 2.0 * dt * (q.z * k.z) == 0.0
  {
    calc {
      2.0 * dt * (q.w * k.w) + 2.0 * dt * (q.x * k.x) + 2.0 * dt * (q.y * k.y) + 2.0 * dt * (q.z * k.z);
      (2.0 * dt) * Inner(q, k);
      (2.0 * dt) * 0.0;
      0.0;
    }
  }

  /** A unit quaternion's Euler step is not the zero quaternion. */
  lemma EulerStepNonZero(q: UnitQuaternion, w: Vec3, dt: real)
    ensures EulerStep(q, w, dt) != ZeroQuaternion
  {
    EulerStepNorm(q, w, dt);
    Norm2Positive(EulerStep(q, w, dt));
  }

  /** The Euler step of half the length, k1 of the Runge-Kutta integrators,
      is not zero either. */
  lemma HalfStepNonZero(q: UnitQuaternion, w: Vec3, dt: real)
    ensures EulerStep(q, w, dt / 2.0) != ZeroQuaternion
  {
    EulerStepNonZero(q, w, dt / 2.0);
  }

  /** integrate_euler(q, w, dt): the Euler step renormalised by
      Unit_Quaternion(Quaternion); the result is the step divided by its
      length. */
  function IntegrateEuler(sqrt: real -> real, q: UnitQuaternion, w: Vec3, dt: real): (r: UnitQuaternion)
    requires IsSqrt(sqrt)
    ensures EulerStep(q, w, dt) != ZeroQuaternion
    ensures r.ScaleAssign(sqrt(Norm2(EulerStep(q, w, dt)))) == EulerStep(q, w, dt)
  {
    EulerStepNonZero(q, w, dt);
    Normalize(sqrt, EulerStep(q, w, dt))
  }

  /** A stage q + f * h of the Runge-Kutta integrators. */
  function Stage(q: Quaternion, f: Quaternion, h: real): Quaternion
  {
    q.AddAssign(f.ScaleAssign(h))
  }

  /** attitude_kinematics({k}, w): the rate at the renormalised stage k. */
  function Rate(sqrt: real -> real, k: Quaternion, w: Vec3): (r: Quaternion)
    requires IsSqrt(sqrt) && k != ZeroQuaternion
    ensures w == Zero ==> r == ZeroQuaternion
  {
    Kinematics(Normalize(sqrt, k), w)
  }

  /** The rate f2 that integrate_rk2 and integrate_rk4 both take at the
      renormalised midpoint k1 = q + f1 * (dt / 2); k1 is the Euler step of
      half the length, so it is never zero. */
  function HalfStepRate(sqrt: real -> real, q: UnitQuaternion, w: Vec3, dt: real): (r: Quaternion)
    requires IsSqrt(sqrt)
    ensures w == Zero ==> r == ZeroQuaternion
  {
    HalfStepNonZero(q, w, dt);
    Rate(sqrt, EulerStep(q, w, dt / 2.0), w)
  }

  /** The inner product is symmetric. */
  lemma InnerSymmetric(p: Quaternion, q: Quaternion)
    ensures Inner(p, q) == Inner(q, p)
  {
  }

  /** The inner product is linear in a stage q + f * h. */
  lemma InnerStage(q: Quaternion, f: Quaternion, h: real, p: Quaternion)
    ensures Inner(Stage(q, f, h), p) == Inner(q, p) + h * Inner(f, p)
  {
  }

  /** The inner product is homogeneous in its first argument. */
  lemma InnerScale(n: Quaternion, c: real, p: Quaternion)
    ensures Inner(n.ScaleAssign(c), p) == c * Inner(n, p)
  {
  }

  /** A stage q + f2 * h built on the midpoint rate is never zero, whatever
      h: the midpoint k1 has inner product 1 with q, so its renormalised
      value n is not orthogonal to q, while f2 is orthogonal to n. Hence
      the stage has the same non-zero inner product with n as q has. */
  lemma MidpointStageNonZero(sqrt: real -> real, q: UnitQuaternion, w: Vec3, dt: real, h: real)
    requires IsSqrt(sqrt)
    ensures Stage(q, HalfStepRate(sqrt, q, w, dt), h) != ZeroQuaternion
  {
    HalfStepNonZero(q, w, dt);
    var f1 := Kinematics(q, w);
    var k1 := EulerStep(q, w, dt / 2.0);
    assert k1 == Stage(q, f1, dt / 2.0);
    var n := Normalize(sqrt, k1);
    var f2 := HalfStepRate(sqrt, q, w, dt);
    assert f2 == Kinematics(n, w);
    var st := Stage(q, f2, h);
    // <k1, q> = |q|^2 + dt/2 <f1, q> = 1
    InnerStage(q, f1, dt / 2.0, q);
    InnerSymmetric(f1, q);
    assert Inner(q, q) == Norm2(q) == 1.0;
    assert Inner(k1, q) == 1.0;
    // k1 = n * root, so root * <n, q> = 1 and <q, n> is not zero
    var root := sqrt(Norm2(k1));
    InnerScale(n, root, q);
    assert root * Inner(n, q) == 1.0;
    InnerSymmetric(n, q);
    assert Inner(q, n) != 0.0;
    // <st, n> = <q, n> + h <f2, n> = <q, n>
    InnerStage(q, f2, h, n);
    InnerSymmetric(f2, n);
    assert Inner(st, n) == Inner(q, n);
    assert Inner(ZeroQuaternion, n) == 0.0;
  }

  /** The value integrate_rk2 renormalises: q + f2 * dt. It is never zero,
      so the renormalisation never divides by zero. */
  function Rk2Sum(sqrt: real -> real, q: UnitQuaternion, w: Vec3, dt: real): (r: Quaternion)
    requires IsSqrt(sqrt)
    ensures r != ZeroQuaternion
  {
    MidpointStageNonZero(sqrt, q, w, dt, dt);
    Stage(q, HalfStepRate(sqrt, q, w, dt), dt)
  }

  /** integrate_rk2(q, w, dt): the midpoint step renormalised. */
  function IntegrateRK2(sqrt: real -> real, q: UnitQuaternion, w: Vec3, dt: real): (r: UnitQuaternion)
    requires IsSqrt(sqrt)
    ensures r.ScaleAssign(sqrt(Norm2(Rk2Sum(sqrt, q, w, dt)))) == Rk2Sum(sqrt, q, w, dt)
  {
    Normalize(sqrt, Rk2Sum(sqrt, q, w, dt))
  }

  /** The second stage k2 = q + f2 * (dt / 2) of integrate_rk4; like the
      midpoint sum it is never zero. */
  function Rk4K2(sqrt: real -> real, q: UnitQuaternion, w: Vec3, dt: real): (r: Quaternion)
    requires IsSqrt(sqrt)
    ensures r != ZeroQuaternion
  {
    MidpointStageNonZero(sqrt, q, w, dt, dt / 2.0);
    Stage(q, HalfStepRate(sqrt, q, w, dt), dt / 2.0)
  }

  /** The third stage k3 = q + f3 * dt of integrate_rk4, f3 the rate at k2. */
  function Rk4K3(sqrt: real -> real, q: UnitQuaternion, w: Vec3, dt: real): Quaternion
    requires IsSqrt(sqrt)
  {
    Stage(q, Rate(sqrt, Rk4K2(sqrt, q, w, dt), w), dt)
  }

  /** The value integrate_rk4 renormalises:
      q + dt/6 * (f1 + f4) + dt/3 * (f2 + f3), f4 the rate at k3. */
  function Rk4Sum(sqrt: real -> real, q: UnitQuaternion, w: Vec3, dt: real): Quaternion
    requires IsSqrt(sqrt) && Rk4K3(sqrt, q, w, dt) != ZeroQuaternion
  {
    var f1 := Kinematics(q, w);
    var f2 := HalfStepRate(sqrt, q, w, dt);
    var f3 := Rate(sqrt, Rk4K2(sqrt, q, w, dt), w);
    var f4 := Rate(sqrt, Rk4K3(sqrt, q, w, dt), w);
    q.AddAssign(f1.AddAssign(f4).ScaleAssign(dt / 6.0)).AddAssign(f2.AddAssign(f3).ScaleAssign(dt / 3.0))
  }

  /** integrate_rk4(q, w, dt): the Runge-Kutta step renormalised. */
  function IntegrateRK4(sqrt: real -> real, q: UnitQuaternion, w: Vec3, dt: real): (r: UnitQuaternion)
    requires IsSqrt(sqrt) && Rk4K3(sqrt, q, w, dt) != ZeroQuaternion
    requires Rk4Sum(sqrt, q, w, dt) != ZeroQuaternion
    ensures r.ScaleAssign(sqrt(Norm2(Rk4Sum(sqrt, q, w, dt)))) == Rk4Sum(sqrt, q, w, dt)
  {
    Normalize(sqrt, Rk4Sum(sqrt, q, w, dt))
  }

  /** A zero rate scaled by any step is zero. */
  lemma ScaledZero(f: Quaternion, h: real)
    requires f == ZeroQuaternion
    ensures f.ScaleAssign(h) == ZeroQuaternion
  {
  }

  /** A stage with a zero rate is q. */
  lemma StageAtRest(q: Quaternion, f: Quaternion, h: real)
    requires f == ZeroQuaternion
    ensures Stage(q, f, h) == q
  {
    ScaledZero(f, h);
  }

  /** With a zero body rate the Euler integrator returns the attitude it
      was given. */
  lemma EulerAtRest(sqrt: real -> real, q: UnitQuaternion, dt: real)
    requires IsSqrt(sqrt)
    ensures IntegrateEuler(sqrt, q, Zero, dt) == q
  {
    RootOfOne(sqrt);
    NormalizeUnit(sqrt, q);
    ScaledZero(Kinematics(q, Zero), dt);
  }

  /** With a zero body rate the midpoint sum is q, so integrate_rk2 returns
      the attitude it was given. */
  lemma Rk2AtRest(sqrt: real -> real, q: UnitQuaternion, dt: real)
    requires IsSqrt(sqrt)
    ensures Rk2Sum(sqrt, q, Zero, dt) == q
    ensures q != ZeroQuaternion
    ensures IntegrateRK2(sqrt, q, Zero, dt) == q
  {
    RootOfOne(sqrt);
    NormalizeUnit(sqrt, q);
    StageAtRest(q, HalfStepRate(sqrt, q, Zero, dt), dt);
  }

  /** With a zero body rate the stages k2 and k3 of integrate_rk4 are q, so
      none of its renormalisations divides by zero. */
  lemma Rk4StagesAtRest(sqrt: real -> real, q: UnitQuaternion, dt: real)
    requires IsSqrt(sqrt)
    ensures q != ZeroQuaternion
    ensures Rk4K2(sqrt, q, Zero, dt) == q
    ensures Rk4K3(sqrt, q, Zero, dt) == q
  {
    StageAtRest(q, HalfStepRate(sqrt, q, Zero, dt), dt / 2.0);
    StageAtRest(q, Rate(sqrt, Rk4K2(sqrt, q, Zero, dt), Zero), dt);
  }

  /** With a zero body rate the sum of integrate_rk4 is q. */
  lemma Rk4SumAtRest(sqrt: real -> real, q: UnitQuaternion, dt: real)
    requires IsSqrt(sqrt) && q != ZeroQuaternion
    requires Rk4K2(sqrt, q, Zero, dt) == q && Rk4K3(sqrt, q, Zero, dt) == q
    ensures Rk4Sum(sqrt, q, Zero, dt) == q
  {
    WeightedSumAtRest(q, Kinematics(q, Zero), Rate(sqrt, Rk4K3(sqrt, q, Zero, dt), Zero),
                      HalfStepRate(sqrt, q, Zero, dt), Rate(sqrt, Rk4K2(sqrt, q, Zero, dt), Zero), dt);
  }

  /** q + dt/6 * (f1 + f4) + dt/3 * (f2 + f3) is q when all four rates
      vanish. */
  lemma WeightedSumAtRest(q: Quaternion, f1: Quaternion, f4: Quaternion, f2: Quaternion, f3: Quaternion,
                          dt: real)
    requires f1 == ZeroQuaternion && f2 == ZeroQuaternion && f3 == ZeroQuaternion && f4 == ZeroQuaternion
    ensures q.AddAssign(f1.AddAssign(f4).ScaleAssign(dt / 6.0)).AddAssign(f2.AddAssign(f3).ScaleAssign(dt / 3.0)) == q
  {
    assert f1.AddAssign(f4) == ZeroQuaternion && f2.AddAssign(f3) == ZeroQuaternion;
    ScaledZero(f1.AddAssign(f4), dt / 6.0);
    ScaledZero(f2.AddAssign(f3), dt / 3.0);
  }

  /** With a zero body rate integrate_rk4 returns the attitude it was
      given. */
  lemma Rk4AtRest(sqrt: real -> real, q: UnitQuaternion, dt: real)
    requires IsSqrt(sqrt)
    ensures q != ZeroQuaternion
    ensures Rk4K2(sqrt, q, Zero, dt) == q && Rk4K3(sqrt, q, Zero, dt) == q
    ensures Rk4Sum(sqrt, q, Zero, dt) == q
    ensures IntegrateRK4(sqrt, q, Zero, dt) == q
  {
    Rk4StagesAtRest(sqrt, q, dt);
    Rk4SumAtRest(sqrt, q, dt);
    RootOfOne(sqrt);
    NormalizeUnit(sqrt, q);
  }

  /** Unit_Quaternion(cos(a/2), ...) for a rotation by a about coordinate axis
      0, 1 or 2, as set_attitude(E) builds it: cos^2 + sin^2 = 1, so the
      normalising constructor leaves the components as given. */
  function AxisRotation(sqrt: real -> real, cos: real -> real, sin: real -> real, a: real, axis: nat)
    : (r: UnitQuaternion)
    requires IsSqrt(sqrt) && IsCosSin(cos, sin) && axis < 3
    ensures r.w == cos(a / 2.0)
    ensures r.x == (if axis == 0 then sin(a / 2.0) else 0.0)
    ensures r.y == (if axis == 1 then sin(a / 2.0) else 0.0)
    ensures r.z == (if axis == 2 then sin(a / 2.0) else 0.0)
  {
    var c, s := cos(a / 2.0), sin(a / 2.0);
    var p := Quaternion(c, if axis == 0 then s else 0.0, if axis == 1 then s else 0.0,
                        if axis == 2 then s else 0.0);
    assert Sq(c) + Sq(s) == 1.0;
    assert Norm2(p) == 1.0;
    NormalizeUnit(sqrt, p);
    Normalize(sqrt, p)
  }

  /** set_attitude(E): qz * qy * qx for the roll E[0], pitch E[1] and yaw
      E[2]. Rotating a vector by it turns the vector about x first, then
      about y, then about z. */
  function EulerToQuaternion(sqrt: real -> real, cos: real -> real, sin: real -> real, E: Vec3)
    : (r: UnitQuaternion)
    requires IsSqrt(sqrt) && IsCosSin(cos, sin)
    ensures forall v :: (RotateVec(r, v)
      == RotateVec(AxisRotation(sqrt, cos, sin, E.z, 2),
                   RotateVec(AxisRotation(sqrt, cos, sin, E.y, 1),
                             RotateVec(AxisRotation(sqrt, cos, sin, E.x, 0), v))))
  {
    var qx := AxisRotation(sqrt, cos, sin, E.At(0).value, 0);
    var qy := AxisRotation(sqrt, cos, sin, E.At(1).value, 1);
    var qz := AxisRotation(sqrt, cos, sin, E.At(2).value, 2);
    EulerComposes(qz, qy, qx);
    UnitMul(UnitMul(qz, qy), qx)
  }

  lemma EulerComposes(qz: UnitQuaternion, qy: UnitQuaternion, qx: UnitQuaternion)
    ensures forall v :: (RotateVec(UnitMul(UnitMul(qz, qy), qx), v)
      == RotateVec(qz, RotateVec(qy, RotateVec(qx, v))))
  {
    forall v
      ensures RotateVec(UnitMul(UnitMul(qz, qy), qx), v) == RotateVec(qz, RotateVec(qy, RotateVec(qx, v)))
    {
      RotateVecCompose(UnitMul(qz, qy), qx, v);
      RotateVecCompose(qz, qy, RotateVec(qx, v));
    }
  }

  /** The attitude object: its one field is the current attitude. */
  class Attitude {
    var q: UnitQuaternion

    /** attitude(): q{1, 0, 0, 0}, normalised by the constructor, is the
        identity. */
    constructor (sqrt: real -> real)
      requires IsSqrt(sqrt)
      ensures q == Identity
    {
      var p := Normalize(sqrt, Identity);
      NormalizeUnit(sqrt, Identity);
      new;
      q := p;
    }

    /** attitude(w, x, y, z): the four components normalised; zero for all
        four is a division by zero. */
    constructor FromComponents(sqrt: real -> real, w: real, x: real, y: real, z: real)
      requires IsSqrt(sqrt) && Quaternion(w, x, y, z) != ZeroQuaternion
      ensures q.ScaleAssign(sqrt(Norm2(Quaternion(w, x, y, z)))) == Quaternion(w, x, y, z)
    {
      var p := Normalize(sqrt, Quaternion(w, x, y, z));
      new;
      q := p;
    }

    /** update_attitude(w, dt): q = integrate_euler(q, w, dt). */
    method UpdateAttitude(sqrt: real -> real, w: Vec3, dt: real)
      requires IsSqrt(sqrt)
      modifies this
      ensures q == IntegrateEuler(sqrt, old(q), w, dt)
    {
      q := IntegrateEuler(sqrt, q, w, dt);
    }

    /** get_attitude_quaternion(). */
    function GetAttitudeQuaternion(): (r: UnitQuaternion)
      reads this
      ensures r == q
    {
      q
    }

    /** set_attitude(q). */
    method SetAttitude(p: UnitQuaternion)
      modifies this
      ensures q == p
    {
      q := p;
    }

    /** set_attitude(E): the attitude of the Euler angles E. */
    method SetAttitudeEuler(sqrt: real -> real, cos: real -> real, sin: real -> real, E: Vec3)
      requires IsSqrt(sqrt) && IsCosSin(cos, sin)
      modifies this
      ensures q == EulerToQuaternion(sqrt, cos, sin, E)
    {
      q := EulerToQuaternion(sqrt, cos, sin, E);
    }
  }

}
