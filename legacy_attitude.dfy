/**
 * attitude.h, the older attitude class. It holds the older Unit_Quaternion,
 * whose component constructor does not normalise, and has a single
 * integrator: one explicit Euler step whose result is stored without
 * renormalisation. Its rate goes through the older operator*(Unit_Quaternion,
 * Quaternion), which returns the product with its operands swapped, so the
 * rate it integrates is 1/2 (0, w) q instead of 1/2 q (0, w).
 */
module LegacyAttitude {
  import opened Reals
  import opened Vectors
  import opened Quaternions
  import opened LegacyQuaternions
  import opened Rotations
  import A = Attitude

  /** dot_q of update_attitude: 0.5 * (q * vec_to_quat(w)). The overload it
      goes through returns (0, w) q (RateAsWritten), so the rate is half of
      that product. It vanishes at rest and is orthogonal to q, like the rate
      of the newer class. */
  function Rate(q: Unit, w: Vec3): (r: Quaternion)
    ensures w == Zero ==> r == ZeroQuaternion
    ensures A.Inner(q.q, r) == 0.0
  {
    var m := Mul(VecToQuat(w), q.q);
    PureLeftProduct(q.q, w, m);
    PureProductOrthogonal(q.q, w, m);
    m.ScaleAssign(0.5)
  }

  /** Rate is the product through the Unit_Quaternion * Quaternion overload,
      scaled by one half. */
  lemma RateAsWritten(q: Unit, w: Vec3)
    ensures Rate(q, w) == MulUnitQuatAsWritten(q, VecToQuat(w)).ScaleAssign(0.5)
  {
  }

  /** The components of (0, w) q. */
  lemma PureLeftProduct(q: Quaternion, w: Vec3, m: Quaternion)
    requires m == Mul(VecToQuat(w), q)
    ensures m.w == -q.x * w.x - q.y * w.y - q.z * w.z
    ensures m.x == q.w * w.x - q.y * w.z + w.y * q.z
    ensures m.y == q.w * w.y + q.x * w.z - w.x * q.z
    ensures m.z == q.w * w.z - q.x * w.y + w.x * q.y
  {
  }

  /** (0, w) q is orthogonal to q in R^4. */
  lemma PureProductOrthogonal(q: Quaternion, w: Vec3, m: Quaternion)
    requires m.w == -q.x * w.x - q.y * w.y - q.z * w.z
    requires m.x == q.w * w.x - q.y * w.z + w.y * q.z
    requires m.y == q.w * w.y + q.x * w.z - w.x * q.z
    requires m.z == q.w * w.z - q.x * w.y + w.x * q.y
    ensures A.Inner(q, m) == 0.0
  {
  }

  /** With the evidently intended overload the rate is half of q (0, w),
      the rate of the newer attitude class. */
  function RateCorrected(q: Unit, w: Vec3): (r: Quaternion)
    ensures r == A.Kinematics(q.q, w)
  {
    MulUnitQuat(q, VecToQuat(w)).ScaleAssign(0.5)
  }

  /** The corrected rate exceeds the rate as written by (0, v x w), v the
      vector part of q. */
  lemma RateDifference(q: Unit, w: Vec3)
    ensures RateCorrected(q, w).SubAssign(Rate(q, w)) == VecToQuat(Cross(q.q.Imag(), w))
  {
    var p := VecToQuat(w);
    var m := Mul(p, q.q);
    var n := Mul(q.q, p);
    var c := Cross(q.q.Imag(), w);
    PureLeftProduct(q.q, w, m);
    SandwichInner(q.q, w, n);
    CrossOfImag(q.q, w, c);
    CommutatorComponents(q.q, w, m, n, c);
    HalfDifference(m, n, c);
  }

  lemma CrossOfImag(q: Quaternion, w: Vec3, c: Vec3)
    requires c == Cross(q.Imag(), w)
    ensures c.x == q.y * w.z - w.y * q.z && c.y == w.x * q.z - q.x * w.z && c.z == q.x * w.y - w.x * q.y
  {
  }

  /** q (0, w) - (0, w) q == 2 (0, v x w), componentwise. */
  lemma CommutatorComponents(q: Quaternion, w: Vec3, m: Quaternion, n: Quaternion, c: Vec3)
    requires m.w == -q.x * w.x - q.y * w.y - q.z * w.z
    requires m.x == q.w * w.x - q.y * w.z + w.y * q.z
    requires m.y == q.w * w.y + q.x * w.z - w.x * q.z
    requires m.z == q.w * w.z - q.x * w.y + w.x * q.y
    requires n.w == -q.x * w.x - q.y * w.y - q.z * w.z
    requires n.x == q.w * w.x + q.y * w.z - w.y * q.z
    requires n.y == q.w * w.y - q.x * w.z + w.x * q.z
    requires n.z == q.w * w.z + q.x * w.y - w.x * q.y
    requires c.x == q.y * w.z - w.y * q.z && c.y == w.x * q.z - q.x * w.z && c.z == q.x * w.y - w.x * q.y
    ensures n.w - m.w == 0.0
    ensures n.x - m.x == 2.0 * c.x && n.y - m.y == 2.0 * c.y && n.z - m.z == 2.0 * c.z
  {
  }

  lemma HalfDifference(m: Quaternion, n: Quaternion, c: Vec3)
    requires n.w - m.w == 0.0
    requires n.x - m.x == 2.0 * c.x && n.y - m.y == 2.0 * c.y && n.z - m.z == 2.0 * c.z
    ensures n.ScaleAssign(0.5).SubAssign(m.ScaleAssign(0.5)) == VecToQuat(c)
  {
  }

  /** The two rates agree exactly when the angular rate is parallel to the
      vector part of the attitude. */
  lemma RatesAgree(q: Unit, w: Vec3)
    ensures Rate(q, w) == RateCorrected(q, w) <==> Cross(q.q.Imag(), w) == Zero
  {
    RateDifference(q, w);
  }

  /** For the attitude i and the angular rate (0, 1, 0) the two rates
      differ. */
  lemma RateSwapped(u: Unit, j: Vec3)
    requires u.q == Quaternion(0.0, 1.0, 0.0, 0.0) && j == Vec3(0.0, 1.0, 0.0)
    ensures Rate(u, j) != RateCorrected(u, j)
  {
    RatesAgree(u, j);
    CrossNonZero(u.q, j);
  }

  lemma CrossNonZero(q: Quaternion, j: Vec3)
    requires q == Quaternion(0.0, 1.0, 0.0, 0.0) && j == Vec3(0.0, 1.0, 0.0)
    ensures Cross(q.Imag(), j) != Zero
  {
    var c := Cross(q.Imag(), j);
    CrossOfImag(q, j, c);
  }

  /** integrate(q, dot_q, dt): p = q; p += dot_q * dt; the four components
      of p go into the non-normalising Unit_Quaternion constructor. */
  function Integrate(q: Unit, dotQ: Quaternion, dt: real): (r: Unit)
    ensures r.q == q.q.AddAssign(dotQ.ScaleAssign(dt))
  {
    var p := q.q.AddAssign(dotQ.ScaleAssign(dt));
    MakeUnit(p.At(0).value, p.At(1).value, p.At(2).value, p.At(3).value)
  }

  /** One update leaves the attitude unchanged at rest; otherwise its norm
      never shrinks, and nothing brings it back to one. */
  lemma UpdateNorm(q: Unit, w: Vec3, dt: real)
    ensures Norm2(Integrate(q, Rate(q, w), dt).q) >= Norm2(q.q)
    ensures w == Zero ==> Integrate(q, Rate(q, w), dt) == q
  {
    var k := Rate(q, w);
    var r := Integrate(q, k, dt).q;
    A.StepSquares(q.q, k, r, dt);
    A.CrossTermsVanish(q.q, k, dt);
    SqFacts(k.w * dt);
    SqFacts(k.x * dt);
    SqFacts(k.y * dt);
    SqFacts(k.z * dt);
    if w == Zero {
      A.ScaledZero(k, dt);
    }
  }

  /** Unit_Quaternion{cos(a/2), ...} for a rotation by a about coordinate
      axis 0, 1 or 2, stored as given. */
  function AxisRotation(cos: real -> real, sin: real -> real, a: real, axis: nat): (r: Unit)
    requires IsCosSin(cos, sin) && axis < 3
    ensures Norm2(r.q) == 1.0
  {
    var c, s := cos(a / 2.0), sin(a / 2.0);
    assert Sq(c) + Sq(s) == 1.0;
    MakeUnit(c, if axis == 0 then s else 0.0, if axis == 1 then s else 0.0, if axis == 2 then s else 0.0)
  }

  /** set_attitude(E): qz * qy * qx through the Unit_Quaternion product. It
      has norm one and is the attitude the newer class sets for the same
      angles. */
  function EulerToUnit(cos: real -> real, sin: real -> real, E: Vec3): (r: Unit)
    requires IsCosSin(cos, sin)
    ensures Norm2(r.q) == 1.0
    ensures forall sqrt :: IsSqrt(sqrt) ==> r.q == A.EulerToQuaternion(sqrt, cos, sin, E)
  {
    var qx := AxisRotation(cos, sin, E.At(0).value, 0);
    var qy := AxisRotation(cos, sin, E.At(1).value, 1);
    var qz := AxisRotation(cos, sin, E.At(2).value, 2);
    MulUnitUnit(MulUnitUnit(qz, qy), qx)
  }

  /** The attitude object of the older generation. */
  class Attitude {
    var q: Unit

    /** attitude(): q{1, 0, 0, 0}. */
    constructor ()
      ensures q == DefaultUnit
    {
      q := MakeUnit(1.0, 0.0, 0.0, 0.0);
    }

    /** attitude(w, x, y, z): the components stored without normalising. */
    constructor FromComponents(w: real, x: real, y: real, z: real)
      ensures q.q == Quaternion(w, x, y, z)
    {
      q := MakeUnit(w, x, y, z);
    }

    /** update_attitude(w, dt): q = integrate(q, dot_q, dt) with the rate as
        written. */
    method UpdateAttitude(w: Vec3, dt: real)
      modifies this
      ensures q == Integrate(old(q), Rate(old(q), w), dt)
    {
      var dotQ := Rate(q, w);
      q := Integrate(q, dotQ, dt);
    }

    /** get_attitude_quaternion(). */
    function GetAttitudeQuaternion(): (r: Unit)
      reads this
      ensures r == q
    {
      q
    }

    /** set_attitude(q). */
    method SetAttitude(p: Unit)
      modifies this
      ensures q == p
    {
      q := p;
    }

    /** set_attitude(E). */
    method SetAttitudeEuler(cos: real -> real, sin: real -> real, E: Vec3)
      requires IsCosSin(cos, sin)
      modifies this
      ensures q == EulerToUnit(cos, sin, E)
    {
      q := EulerToUnit(cos, sin, E);
    }
  }
}
