/**
 * rotate_vec (inc/quaternion.h:241-247) against the sandwich product
 * q (0, v) q*. Both are multiplied out, one component at a time, into
 * polynomials in the components of q and v: the vector part of the sandwich
 * is rotate_vec's result plus (|q|^2 - 1) v, so the two agree on unit
 * quaternions. The laws of rotations then follow from associativity.
 */
module Rotations {
  import opened Reals
  import opened Vectors
  import opened Quaternions
  import opened HamiltonProduct

  /** rotate_vec is the vector part of the sandwich product q (0, v) q*, and
      that product is a pure quaternion. */
  lemma RotateVecIsSandwich(q: UnitQuaternion, v: Vec3)
    ensures Mul(Mul(q, VecToQuat(v)), q.Conjugate()).w == 0.0
    ensures RotateVec(q, v) == QuatToVec(Mul(Mul(q, VecToQuat(v)), q.Conjugate()))
  {
    var s := Mul(q, VecToQuat(v));
    var u2 := Cross(q.Imag(), v).AddAssign(Cross(q.Imag(), v));
    SandwichInner(q, v, s);
    RotateInner(q, v, u2);
    SandwichW(s, q, v);
    SandwichX(s, q, v);
    RotateX(q, v, u2);
    SandwichRotateX(q, v, s);
    SandwichY(s, q, v);
    RotateY(q, v, u2);
    SandwichRotateY(q, v, s);
    SandwichZ(s, q, v);
    RotateZ(q, v, u2);
    SandwichRotateZ(q, v, s);
  }

  /* The vector part of q (0, v) q*, component by component: the sandwich
     polynomial equals rotate_vec's polynomial plus (|q|^2 - 1) v, and the
     excess vanishes for |q|^2 = 1. */

  lemma SandwichRotateX(q: UnitQuaternion, v: Vec3, s: Quaternion)
    requires Mul(s, q.Conjugate()).x == q.w * q.w * v.x + 2.0 * q.w * q.y * v.z - 2.0 * q.w * q.z * v.y + q.x * q.x * v.x + 2.0 * q.x * q.y * v.y + 2.0 * q.x * q.z * v.z - q.y * q.y * v.x - q.z * q.z * v.x
    requires RotateVec(q, v).x == 2.0 * q.w * q.y * v.z - 2.0 * q.w * q.z * v.y + 2.0 * q.x * q.y * v.y + 2.0 * q.x * q.z * v.z - 2.0 * q.y * q.y * v.x - 2.0 * q.z * q.z * v.x + v.x
    ensures Mul(s, q.Conjugate()).x == RotateVec(q, v).x
  {
    calc {
      Mul(s, q.Conjugate()).x;
      q.w * q.w * v.x + 2.0 * q.w * q.y * v.z - 2.0 * q.w * q.z * v.y + q.x * q.x * v.x + 2.0 * q.x * q.y * v.y + 2.0 * q.x * q.z * v.z - q.y * q.y * v.x - q.z * q.z * v.x;
      { SandwichExcessX(q, v, 1.0); }
      2.0 * q.w * q.y * v.z - 2.0 * q.w * q.z * v.y + 2.0 * q.x * q.y * v.y + 2.0 * q.x * q.z * v.z - 2.0 * q.y * q.y * v.x - 2.0 * q.z * q.z * v.x + v.x;
      RotateVec(q, v).x;
    }
  }

  lemma SandwichRotateY(q: UnitQuaternion, v: Vec3, s: Quaternion)
    requires Mul(s, q.Conjugate()).y == q.w * q.w * v.y - 2.0 * q.w * q.x * v.z + 2.0 * q.w * q.z * v.x - q.x * q.x * v.y + 2.0 * q.x * q.y * v.x + q.y * q.y * v.y + 2.0 * q.y * q.z * v.z - q.z * q.z * v.y
    requires RotateVec(q, v).y == -2.0 * q.w * q.x * v.z + 2.0 * q.w * q.z * v.x - 2.0 * q.x * q.x * v.y + 2.0 * q.x * q.y * v.x + 2.0 * q.y * q.z * v.z - 2.0 * q.z * q.z * v.y + v.y
    ensures Mul(s, q.Conjugate()).y == RotateVec(q, v).y
  {
    calc {
      Mul(s, q.Conjugate()).y;
      q.w * q.w * v.y - 2.0 * q.w * q.x * v.z + 2.0 * q.w * q.z * v.x - q.x * q.x * v.y + 2.0 * q.x * q.y * v.x + q.y * q.y * v.y + 2.0 * q.y * q.z * v.z - q.z * q.z * v.y;
      { SandwichExcessY(q, v, 1.0); }
      -2.0 * q.w * q.x * v.z + 2.0 * q.w * q.z * v.x - 2.0 * q.x * q.x * v.y + 2.0 * q.x * q.y * v.x + 2.0 * q.y * q.z * v.z - 2.0 * q.z * q.z * v.y + v.y;
      RotateVec(q, v).y;
    }
  }

  lemma SandwichRotateZ(q: UnitQuaternion, v: Vec3, s: Quaternion)
    requires Mul(s, q.Conjugate()).z == q.w * q.w * v.z + 2.0 * q.w * q.x * v.y - 2.0 * q.w * q.y * v.x - q.x * q.x * v.z + 2.0 * q.x * q.z * v.x - q.y * q.y * v.z + 2.0 * q.y * q.z * v.y + q.z * q.z * v.z
    requires RotateVec(q, v).z == 2.0 * q.w * q.x * v.y - 2.0 * q.w * q.y * v.x - 2.0 * q.x * q.x * v.z + 2.0 * q.x * q.z * v.x - 2.0 * q.y * q.y * v.z + 2.0 * q.y * q.z * v.y + v.z
    ensures Mul(s, q.Conjugate()).z == RotateVec(q, v).z
  {
    calc {
      Mul(s, q.Conjugate()).z;
      q.w * q.w * v.z + 2.0 * q.w * q.x * v.y - 2.0 * q.w * q.y * v.x - q.x * q.x * v.z + 2.0 * q.x * q.z * v.x - q.y * q.y * v.z + 2.0 * q.y * q.z * v.y + q.z * q.z * v.z;
      { SandwichExcessZ(q, v, 1.0); }
      2.0 * q.w * q.x * v.y - 2.0 * q.w * q.y * v.x - 2.0 * q.x * q.x * v.z + 2.0 * q.x * q.z * v.x - 2.0 * q.y * q.y * v.z + 2.0 * q.y * q.z * v.y + v.z;
      RotateVec(q, v).z;
    }
  }

  lemma SandwichExcessX(q: Quaternion, v: Vec3, n: real)
    requires n == Norm2(q)
    ensures q.w * q.w * v.x + 2.0 * q.w * q.y * v.z - 2.0 * q.w * q.z * v.y + q.x * q.x * v.x + 2.0 * q.x * q.y * v.y + 2.0 * q.x * q.z * v.z - q.y * q.y * v.x - q.z * q.z * v.x == 2.0 * q.w * q.y * v.z - 2.0 * q.w * q.z * v.y + 2.0 * q.x * q.y * v.y + 2.0 * q.x * q.z * v.z - 2.0 * q.y * q.y * v.x - 2.0 * q.z * q.z * v.x + v.x + n * v.x - v.x
  {
    NormTimesX(q, v, n);
  }

  lemma SandwichExcessY(q: Quaternion, v: Vec3, n: real)
    requires n == Norm2(q)
    ensures q.w * q.w * v.y - 2.0 * q.w * q.x * v.z + 2.0 * q.w * q.z * v.x - q.x * q.x * v.y + 2.0 * q.x * q.y * v.x + q.y * q.y * v.y + 2.0 * q.y * q.z * v.z - q.z * q.z * v.y == -2.0 * q.w * q.x * v.z + 2.0 * q.w * q.z * v.x - 2.0 * q.x * q.x * v.y + 2.0 * q.x * q.y * v.x + 2.0 * q.y * q.z * v.z - 2.0 * q.z * q.z * v.y + v.y + n * v.y - v.y
  {
    NormTimesY(q, v, n);
  }

  lemma SandwichExcessZ(q: Quaternion, v: Vec3, n: real)
    requires n == Norm2(q)
    ensures q.w * q.w * v.z + 2.0 * q.w * q.x * v.y - 2.0 * q.w * q.y * v.x - q.x * q.x * v.z + 2.0 * q.x * q.z * v.x - q.y * q.y * v.z + 2.0 * q.y * q.z * v.y + q.z * q.z * v.z == 2.0 * q.w * q.x * v.y - 2.0 * q.w * q.y * v.x - 2.0 * q.x * q.x * v.z + 2.0 * q.x * q.z * v.x - 2.0 * q.y * q.y * v.z + 2.0 * q.y * q.z * v.y + v.z + n * v.z - v.z
  {
    NormTimesZ(q, v, n);
  }

  lemma NormTimesX(q: Quaternion, v: Vec3, n: real)
    requires n == Norm2(q)
    ensures n * v.x == q.w * q.w * v.x + q.x * q.x * v.x + q.y * q.y * v.x + q.z * q.z * v.x
  {
  }

  lemma NormTimesY(q: Quaternion, v: Vec3, n: real)
    requires n == Norm2(q)
    ensures n * v.y == q.w * q.w * v.y + q.x * q.x * v.y + q.y * q.y * v.y + q.z * q.z * v.y
  {
  }

  lemma NormTimesZ(q: Quaternion, v: Vec3, n: real)
    requires n == Norm2(q)
    ensures n * v.z == q.w * q.w * v.z + q.x * q.x * v.z + q.y * q.y * v.z + q.z * q.z * v.z
  {
  }

  /** The components of s = q (0, v). */
  lemma SandwichInner(q: Quaternion, v: Vec3, s: Quaternion)
    requires s == Mul(q, VecToQuat(v))
    ensures s.w == -q.x * v.x - q.y * v.y - q.z * v.z
    ensures s.x == q.w * v.x + q.y * v.z - v.y * q.z
    ensures s.y == q.w * v.y - q.x * v.z + v.x * q.z
    ensures s.z == q.w * v.z + q.x * v.y - v.x * q.y
  {
  }

  lemma SandwichW(s: Quaternion, q: Quaternion, v: Vec3)
    requires s.w == -q.x * v.x - q.y * v.y - q.z * v.z
    requires s.x == q.w * v.x + q.y * v.z - v.y * q.z
    requires s.y == q.w * v.y - q.x * v.z + v.x * q.z
    requires s.z == q.w * v.z + q.x * v.y - v.x * q.y
    ensures Mul(s, q.Conjugate()).w == 0.0
  {
    ExpandOuterWW(s, q, v);
    ExpandOuterXX(s, q, v);
    ExpandOuterYY(s, q, v);
    ExpandOuterZZ(s, q, v);
    OuterSumW(s, q, v);
    UnfoldOuterW(s, q);
  }

  lemma SandwichX(s: Quaternion, q: Quaternion, v: Vec3)
    requires s.w == -q.x * v.x - q.y * v.y - q.z * v.z
    requires s.x == q.w * v.x + q.y * v.z - v.y * q.z
    requires s.y == q.w * v.y - q.x * v.z + v.x * q.z
    requires s.z == q.w * v.z + q.x * v.y - v.x * q.y
    ensures Mul(s, q.Conjugate()).x == q.w * q.w * v.x + 2.0 * q.w * q.y * v.z - 2.0 * q.w * q.z * v.y + q.x * q.x * v.x + 2.0 * q.x * q.y * v.y + 2.0 * q.x * q.z * v.z - q.y * q.y * v.x - q.z * q.z * v.x
  {
    ExpandOuterWX(s, q, v);
    ExpandOuterXW(s, q, v);
    ExpandOuterYZ(s, q, v);
    ExpandOuterZY(s, q, v);
    OuterSumX(s, q, v);
    UnfoldOuterX(s, q);
  }

  lemma SandwichY(s: Quaternion, q: Quaternion, v: Vec3)
    requires s.w == -q.x * v.x - q.y * v.y - q.z * v.z
    requires s.x == q.w * v.x + q.y * v.z - v.y * q.z
    requires s.y == q.w * v.y - q.x * v.z + v.x * q.z
    requires s.z == q.w * v.z + q.x * v.y - v.x * q.y
    ensures Mul(s, q.Conjugate()).y == q.w * q.w * v.y - 2.0 * q.w * q.x * v.z + 2.0 * q.w * q.z * v.x - q.x * q.x * v.y + 2.0 * q.x * q.y * v.x + q.y * q.y * v.y + 2.0 * q.y * q.z * v.z - q.z * q.z * v.y
  {
    ExpandOuterWY(s, q, v);
    ExpandOuterYW(s, q, v);
    ExpandOuterXZ(s, q, v);
    ExpandOuterZX(s, q, v);
    OuterSumY(s, q, v);
    UnfoldOuterY(s, q);
  }

  lemma SandwichZ(s: Quaternion, q: Quaternion, v: Vec3)
    requires s.w == -q.x * v.x - q.y * v.y - q.z * v.z
    requires s.x == q.w * v.x + q.y * v.z - v.y * q.z
    requires s.y == q.w * v.y - q.x * v.z + v.x * q.z
    requires s.z == q.w * v.z + q.x * v.y - v.x * q.y
    ensures Mul(s, q.Conjugate()).z == q.w * q.w * v.z + 2.0 * q.w * q.x * v.y - 2.0 * q.w * q.y * v.x - q.x * q.x * v.z + 2.0 * q.x * q.z * v.x - q.y * q.y * v.z + 2.0 * q.y * q.z * v.y + q.z * q.z * v.z
  {
    ExpandOuterWZ(s, q, v);
    ExpandOuterZW(s, q, v);
    ExpandOuterXY(s, q, v);
    ExpandOuterYX(s, q, v);
    OuterSumZ(s, q, v);
    UnfoldOuterZ(s, q);
  }

  /* s.i * q*.j multiplied out, for s = q (0, v). */

  lemma ExpandOuterWW(s: Quaternion, q: Quaternion, v: Vec3)
    requires s.w == -q.x * v.x - q.y * v.y - q.z * v.z
    ensures s.w * q.Conjugate().w == -q.x * v.x * q.w - q.y * v.y * q.w - q.z * v.z * q.w
  {
  }

  lemma ExpandOuterWX(s: Quaternion, q: Quaternion, v: Vec3)
    requires s.w == -q.x * v.x - q.y * v.y - q.z * v.z
    ensures s.w * q.Conjugate().x == q.x * v.x * q.x + q.y * v.y * q.x + q.z * v.z * q.x
  {
  }

  lemma ExpandOuterWY(s: Quaternion, q: Quaternion, v: Vec3)
    requires s.w == -q.x * v.x - q.y * v.y - q.z * v.z
    ensures s.w * q.Conjugate().y == q.x * v.x * q.y + q.y * v.y * q.y + q.z * v.z * q.y
  {
  }

  lemma ExpandOuterWZ(s: Quaternion, q: Quaternion, v: Vec3)
    requires s.w == -q.x * v.x - q.y * v.y - q.z * v.z
    ensures s.w * q.Conjugate().z == q.x * v.x * q.z + q.y * v.y * q.z + q.z * v.z * q.z
  {
  }

  lemma ExpandOuterXW(s: Quaternion, q: Quaternion, v: Vec3)
    requires s.x == q.w * v.x + q.y * v.z - v.y * q.z
    ensures s.x * q.Conjugate().w == q.w * v.x * q.w + q.y * v.z * q.w - v.y * q.z * q.w
  {
  }

  lemma ExpandOuterXX(s: Quaternion, q: Quaternion, v: Vec3)
    requires s.x == q.w * v.x + q.y * v.z - v.y * q.z
    ensures s.x * q.Conjugate().x == -q.w * v.x * q.x - q.y * v.z * q.x + v.y * q.z * q.x
  {
  }

  lemma ExpandOuterXY(s: Quaternion, q: Quaternion, v: Vec3)
    requires s.x == q.w * v.x + q.y * v.z - v.y * q.z
    ensures s.x * q.Conjugate().y == -q.w * v.x * q.y - q.y * v.z * q.y + v.y * q.z * q.y
  {
  }

  lemma ExpandOuterXZ(s: Quaternion, q: Quaternion, v: Vec3)
    requires s.x == q.w * v.x + q.y * v.z - v.y * q.z
    ensures s.x * q.Conjugate().z == -q.w * v.x * q.z - q.y * v.z * q.z + v.y * q.z * q.z
  {
  }

  lemma ExpandOuterYW(s: Quaternion, q: Quaternion, v: Vec3)
    requires s.y == q.w * v.y - q.x * v.z + v.x * q.z
    ensures s.y * q.Conjugate().w == q.w * v.y * q.w - q.x * v.z * q.w + v.x * q.z * q.w
  {
  }

  lemma ExpandOuterYX(s: Quaternion, q: Quaternion, v: Vec3)
    requires s.y == q.w * v.y - q.x * v.z + v.x * q.z
    ensures s.y * q.Conjugate().x == -q.w * v.y * q.x + q.x * v.z * q.x - v.x * q.z * q.x
  {
  }

  lemma ExpandOuterYY(s: Quaternion, q: Quaternion, v: Vec3)
    requires s.y == q.w * v.y - q.x * v.z + v.x * q.z
    ensures s.y * q.Conjugate().y == -q.w * v.y * q.y + q.x * v.z * q.y - v.x * q.z * q.y
  {
  }

  lemma ExpandOuterYZ(s: Quaternion, q: Quaternion, v: Vec3)
    requires s.y == q.w * v.y - q.x * v.z + v.x * q.z
    ensures s.y * q.Conjugate().z == -q.w * v.y * q.z + q.x * v.z * q.z - v.x * q.z * q.z
  {
  }

  lemma ExpandOuterZW(s: Quaternion, q: Quaternion, v: Vec3)
    requires s.z == q.w * v.z + q.x * v.y - v.x * q.y
    ensures s.z * q.Conjugate().w == q.w * v.z * q.w + q.x * v.y * q.w - v.x * q.y * q.w
  {
  }

  lemma ExpandOuterZX(s: Quaternion, q: Quaternion, v: Vec3)
    requires s.z == q.w * v.z + q.x * v.y - v.x * q.y
    ensures s.z * q.Conjugate().x == -q.w * v.z * q.x - q.x * v.y * q.x + v.x * q.y * q.x
  {
  }

  lemma ExpandOuterZY(s: Quaternion, q: Quaternion, v: Vec3)
    requires s.z == q.w * v.z + q.x * v.y - v.x * q.y
    ensures s.z * q.Conjugate().y == -q.w * v.z * q.y - q.x * v.y * q.y + v.x * q.y * q.y
  {
  }

  lemma ExpandOuterZZ(s: Quaternion, q: Quaternion, v: Vec3)
    requires s.z == q.w * v.z + q.x * v.y - v.x * q.y
    ensures s.z * q.Conjugate().z == -q.w * v.z * q.z - q.x * v.y * q.z + v.x * q.y * q.z
  {
  }

  lemma OuterSumW(s: Quaternion, q: Quaternion, v: Vec3)
    requires s.w * q.Conjugate().w == -q.x * v.x * q.w - q.y * v.y * q.w - q.z * v.z * q.w
    requires s.x * q.Conjugate().x == -q.w * v.x * q.x - q.y * v.z * q.x + v.y * q.z * q.x
    requires s.y * q.Conjugate().y == -q.w * v.y * q.y + q.x * v.z * q.y - v.x * q.z * q.y
    requires s.z * q.Conjugate().z == -q.w * v.z * q.z - q.x * v.y * q.z + v.x * q.y * q.z
    ensures (s.w * q.Conjugate().w) - (s.x * q.Conjugate().x) - (s.y * q.Conjugate().y) - (s.z * q.Conjugate().z) == 0.0
  {
    calc {
      (s.w * q.Conjugate().w) - (s.x * q.Conjugate().x) - (s.y * q.Conjugate().y) - (s.z * q.Conjugate().z);
      (-q.x * v.x * q.w - q.y * v.y * q.w - q.z * v.z * q.w) - (s.x * q.Conjugate().x) - (s.y * q.Conjugate().y) - (s.z * q.Conjugate().z);
      (-q.x * v.x * q.w - q.y * v.y * q.w - q.z * v.z * q.w) - (-q.w * v.x * q.x - q.y * v.z * q.x + v.y * q.z * q.x) - (s.y * q.Conjugate().y) - (s.z * q.Conjugate().z);
      (-q.x * v.x * q.w - q.y * v.y * q.w - q.z * v.z * q.w) - (-q.w * v.x * q.x - q.y * v.z * q.x + v.y * q.z * q.x) - (-q.w * v.y * q.y + q.x * v.z * q.y - v.x * q.z * q.y) - (s.z * q.Conjugate().z);
      (-q.x * v.x * q.w - q.y * v.y * q.w - q.z * v.z * q.w) - (-q.w * v.x * q.x - q.y * v.z * q.x + v.y * q.z * q.x) - (-q.w * v.y * q.y + q.x * v.z * q.y - v.x * q.z * q.y) - (-q.w * v.z * q.z - q.x * v.y * q.z + v.x * q.y * q.z);
      0.0;
    }
  }

  lemma OuterSumX(s: Quaternion, q: Quaternion, v: Vec3)
    requires s.w * q.Conjugate().x == q.x * v.x * q.x + q.y * v.y * q.x + q.z * v.z * q.x
    requires s.x * q.Conjugate().w == q.w * v.x * q.w + q.y * v.z * q.w - v.y * q.z * q.w
    requires s.y * q.Conjugate().z == -q.w * v.y * q.z + q.x * v.z * q.z - v.x * q.z * q.z
    requires s.z * q.Conjugate().y == -q.w * v.z * q.y - q.x * v.y * q.y + v.x * q.y * q.y
    ensures (s.w * q.Conjugate().x) + (s.x * q.Conjugate().w) + (s.y * q.Conjugate().z) - (s.z * q.Conjugate().y) == q.w * q.w * v.x + 2.0 * q.w * q.y * v.z - 2.0 * q.w * q.z * v.y + q.x * q.x * v.x + 2.0 * q.x * q.y * v.y + 2.0 * q.x * q.z * v.z - q.y * q.y * v.x - q.z * q.z * v.x
  {
    calc {
      (s.w * q.Conjugate().x) + (s.x * q.Conjugate().w) + (s.y * q.Conjugate().z) - (s.z * q.Conjugate().y);
      (q.x * v.x * q.x + q.y * v.y * q.x + q.z * v.z * q.x) + (s.x * q.Conjugate().w) + (s.y * q.Conjugate().z) - (s.z * q.Conjugate().y);
      (q.x * v.x * q.x + q.y * v.y * q.x + q.z * v.z * q.x) + (q.w * v.x * q.w + q.y * v.z * q.w - v.y * q.z * q.w) + (s.y * q.Conjugate().z) - (s.z * q.Conjugate().y);
      (q.x * v.x * q.x + q.y * v.y * q.x + q.z * v.z * q.x) + (q.w * v.x * q.w + q.y * v.z * q.w - v.y * q.z * q.w) + (-q.w * v.y * q.z + q.x * v.z * q.z - v.x * q.z * q.z) - (s.z * q.Conjugate().y);
      (q.x * v.x * q.x + q.y * v.y * q.x + q.z * v.z * q.x) + (q.w * v.x * q.w + q.y * v.z * q.w - v.y * q.z * q.w) + (-q.w * v.y * q.z + q.x * v.z * q.z - v.x * q.z * q.z) - (-q.w * v.z * q.y - q.x * v.y * q.y + v.x * q.y * q.y);
      q.w * q.w * v.x + 2.0 * q.w * q.y * v.z - 2.0 * q.w * q.z * v.y + q.x * q.x * v.x + 2.0 * q.x * q.y * v.y + 2.0 * q.x * q.z * v.z - q.y * q.y * v.x - q.z * q.z * v.x;
    }
  }

  lemma OuterSumY(s: Quaternion, q: Quaternion, v: Vec3)
    requires s.w * q.Conjugate().y == q.x * v.x * q.y + q.y * v.y * q.y + q.z * v.z * q.y
    requires s.y * q.Conjugate().w == q.w * v.y * q.w - q.x * v.z * q.w + v.x * q.z * q.w
    requires s.x * q.Conjugate().z == -q.w * v.x * q.z - q.y * v.z * q.z + v.y * q.z * q.z
    requires s.z * q.Conjugate().x == -q.w * v.z * q.x - q.x * v.y * q.x + v.x * q.y * q.x
    ensures (s.w * q.Conjugate().y) + (s.y * q.Conjugate().w) - (s.x * q.Conjugate().z) + (s.z * q.Conjugate().x) == q.w * q.w * v.y - 2.0 * q.w * q.x * v.z + 2.0 * q.w * q.z * v.x - q.x * q.x * v.y + 2.0 * q.x * q.y * v.x + q.y * q.y * v.y + 2.0 * q.y * q.z * v.z - q.z * q.z * v.y
  {
    calc {
      (s.w * q.Conjugate().y) + (s.y * q.Conjugate().w) - (s.x * q.Conjugate().z) + (s.z * q.Conjugate().x);
      (q.x * v.x * q.y + q.y * v.y * q.y + q.z * v.z * q.y) + (s.y * q.Conjugate().w) - (s.x * q.Conjugate().z) + (s.z * q.Conjugate().x);
      (q.x * v.x * q.y + q.y * v.y * q.y + q.z * v.z * q.y) + (q.w * v.y * q.w - q.x * v.z * q.w + v.x * q.z * q.w) - (s.x * q.Conjugate().z) + (s.z * q.Conjugate().x);
      (q.x * v.x * q.y + q.y * v.y * q.y + q.z * v.z * q.y) + (q.w * v.y * q.w - q.x * v.z * q.w + v.x * q.z * q.w) - (-q.w * v.x * q.z - q.y * v.z * q.z + v.y * q.z * q.z) + (s.z * q.Conjugate().x);
      (q.x * v.x * q.y + q.y * v.y * q.y + q.z * v.z * q.y) + (q.w * v.y * q.w - q.x * v.z * q.w + v.x * q.z * q.w) - (-q.w * v.x * q.z - q.y * v.z * q.z + v.y * q.z * q.z) + (-q.w * v.z * q.x - q.x * v.y * q.x + v.x * q.y * q.x);
      q.w * q.w * v.y - 2.0 * q.w * q.x * v.z + 2.0 * q.w * q.z * v.x - q.x * q.x * v.y + 2.0 * q.x * q.y * v.x + q.y * q.y * v.y + 2.0 * q.y * q.z * v.z - q.z * q.z * v.y;
    }
  }

  lemma OuterSumZ(s: Quaternion, q: Quaternion, v: Vec3)
    requires s.w * q.Conjugate().z == q.x * v.x * q.z + q.y * v.y * q.z + q.z * v.z * q.z
    requires s.z * q.Conjugate().w == q.w * v.z * q.w + q.x * v.y * q.w - v.x * q.y * q.w
    requires s.x * q.Conjugate().y == -q.w * v.x * q.y - q.y * v.z * q.y + v.y * q.z * q.y
    requires s.y * q.Conjugate().x == -q.w * v.y * q.x + q.x * v.z * q.x - v.x * q.z * q.x
    ensures (s.w * q.Conjugate().z) + (s.z * q.Conjugate().w) + (s.x * q.Conjugate().y) - (s.y * q.Conjugate().x) == q.w * q.w * v.z + 2.0 * q.w * q.x * v.y - 2.0 * q.w * q.y * v.x - q.x * q.x * v.z + 2.0 * q.x * q.z * v.x - q.y * q.y * v.z + 2.0 * q.y * q.z * v.y + q.z * q.z * v.z
  {
    calc {
      (s.w * q.Conjugate().z) + (s.z * q.Conjugate().w) + (s.x * q.Conjugate().y) - (s.y * q.Conjugate().x);
      (q.x * v.x * q.z + q.y * v.y * q.z + q.z * v.z * q.z) + (s.z * q.Conjugate().w) + (s.x * q.Conjugate().y) - (s.y * q.Conjugate().x);
      (q.x * v.x * q.z + q.y * v.y * q.z + q.z * v.z * q.z) + (q.w * v.z * q.w + q.x * v.y * q.w - v.x * q.y * q.w) + (s.x * q.Conjugate().y) - (s.y * q.Conjugate().x);
      (q.x * v.x * q.z + q.y * v.y * q.z + q.z * v.z * q.z) + (q.w * v.z * q.w + q.x * v.y * q.w - v.x * q.y * q.w) + (-q.w * v.x * q.y - q.y * v.z * q.y + v.y * q.z * q.y) - (s.y * q.Conjugate().x);
      (q.x * v.x * q.z + q.y * v.y * q.z + q.z * v.z * q.z) + (q.w * v.z * q.w + q.x * v.y * q.w - v.x * q.y * q.w) + (-q.w * v.x * q.y - q.y * v.z * q.y + v.y * q.z * q.y) - (-q.w * v.y * q.x + q.x * v.z * q.x - v.x * q.z * q.x);
      q.w * q.w * v.z + 2.0 * q.w * q.x * v.y - 2.0 * q.w * q.y * v.x - q.x * q.x * v.z + 2.0 * q.x * q.z * v.x - q.y * q.y * v.z + 2.0 * q.y * q.z * v.y + q.z * q.z * v.z;
    }
  }

  lemma UnfoldOuterW(s: Quaternion, q: Quaternion)
    ensures Mul(s, q.Conjugate()).w == (s.w * q.Conjugate().w) - (s.x * q.Conjugate().x) - (s.y * q.Conjugate().y) - (s.z * q.Conjugate().z)
  {
  }

  lemma UnfoldOuterX(s: Quaternion, q: Quaternion)
    ensures Mul(s, q.Conjugate()).x == (s.w * q.Conjugate().x) + (s.x * q.Conjugate().w) + (s.y * q.Conjugate().z) - (s.z * q.Conjugate().y)
  {
  }

  lemma UnfoldOuterY(s: Quaternion, q: Quaternion)
    ensures Mul(s, q.Conjugate()).y == (s.w * q.Conjugate().y) + (s.y * q.Conjugate().w) - (s.x * q.Conjugate().z) + (s.z * q.Conjugate().x)
  {
  }

  lemma UnfoldOuterZ(s: Quaternion, q: Quaternion)
    ensures Mul(s, q.Conjugate()).z == (s.w * q.Conjugate().z) + (s.z * q.Conjugate().w) + (s.x * q.Conjugate().y) - (s.y * q.Conjugate().x)
  {
  }

  /** The components of u2 = u + u, u = cross(q.imag(), v), in rotate_vec. */
  lemma RotateInner(q: Quaternion, v: Vec3, u2: Vec3)
    requires u2 == Cross(q.Imag(), v).AddAssign(Cross(q.Imag(), v))
    ensures u2.x == 2.0 * q.y * v.z - 2.0 * v.y * q.z
    ensures u2.y == 2.0 * v.x * q.z - 2.0 * q.x * v.z
    ensures u2.z == 2.0 * q.x * v.y - 2.0 * v.x * q.y
  {
  }

  lemma RotateX(q: UnitQuaternion, v: Vec3, u2: Vec3)
    requires u2 == Cross(q.Imag(), v).AddAssign(Cross(q.Imag(), v))
    requires u2.x == 2.0 * q.y * v.z - 2.0 * v.y * q.z
    requires u2.y == 2.0 * v.x * q.z - 2.0 * q.x * v.z
    requires u2.z == 2.0 * q.x * v.y - 2.0 * v.x * q.y
    ensures RotateVec(q, v).x == 2.0 * q.w * q.y * v.z - 2.0 * q.w * q.z * v.y + 2.0 * q.x * q.y * v.y + 2.0 * q.x * q.z * v.z - 2.0 * q.y * q.y * v.x - 2.0 * q.z * q.z * v.x + v.x
  {
    ExpandRotateUXQW(q, v, u2);
    ExpandRotateQYUZ(q, v, u2);
    ExpandRotateUYQZ(q, v, u2);
    RotateSumX(q, v, u2);
    UnfoldRotateX(q, v, u2);
  }

  lemma RotateY(q: UnitQuaternion, v: Vec3, u2: Vec3)
    requires u2 == Cross(q.Imag(), v).AddAssign(Cross(q.Imag(), v))
    requires u2.x == 2.0 * q.y * v.z - 2.0 * v.y * q.z
    requires u2.y == 2.0 * v.x * q.z - 2.0 * q.x * v.z
    requires u2.z == 2.0 * q.x * v.y - 2.0 * v.x * q.y
    ensures RotateVec(q, v).y == -2.0 * q.w * q.x * v.z + 2.0 * q.w * q.z * v.x - 2.0 * q.x * q.x * v.y + 2.0 * q.x * q.y * v.x + 2.0 * q.y * q.z * v.z - 2.0 * q.z * q.z * v.y + v.y
  {
    ExpandRotateUYQW(q, v, u2);
    ExpandRotateUXQZ(q, v, u2);
    ExpandRotateQXUZ(q, v, u2);
    RotateSumY(q, v, u2);
    UnfoldRotateY(q, v, u2);
  }

  lemma RotateZ(q: UnitQuaternion, v: Vec3, u2: Vec3)
    requires u2 == Cross(q.Imag(), v).AddAssign(Cross(q.Imag(), v))
    requires u2.x == 2.0 * q.y * v.z - 2.0 * v.y * q.z
    requires u2.y == 2.0 * v.x * q.z - 2.0 * q.x * v.z
    requires u2.z == 2.0 * q.x * v.y - 2.0 * v.x * q.y
    ensures RotateVec(q, v).z == 2.0 * q.w * q.x * v.y - 2.0 * q.w * q.y * v.x - 2.0 * q.x * q.x * v.z + 2.0 * q.x * q.z * v.x - 2.0 * q.y * q.y * v.z + 2.0 * q.y * q.z * v.y + v.z
  {
    ExpandRotateUZQW(q, v, u2);
    ExpandRotateQXUY(q, v, u2);
    ExpandRotateUXQY(q, v, u2);
    RotateSumZ(q, v, u2);
    UnfoldRotateZ(q, v, u2);
  }

  /* The products in rotate_vec's result multiplied out. */

  lemma ExpandRotateUXQW(q: Quaternion, v: Vec3, u2: Vec3)
    requires u2.x == 2.0 * q.y * v.z - 2.0 * v.y * q.z
    ensures u2.x * q.Real() == 2.0 * q.y * v.z * q.w - 2.0 * v.y * q.z * q.w
  {
  }

  lemma ExpandRotateQYUZ(q: Quaternion, v: Vec3, u2: Vec3)
    requires u2.z == 2.0 * q.x * v.y - 2.0 * v.x * q.y
    ensures q.Imag().y * u2.z == 2.0 * q.y * q.x * v.y - 2.0 * q.y * v.x * q.y
  {
  }

  lemma ExpandRotateUYQZ(q: Quaternion, v: Vec3, u2: Vec3)
    requires u2.y == 2.0 * v.x * q.z - 2.0 * q.x * v.z
    ensures u2.y * q.Imag().z == 2.0 * v.x * q.z * q.z - 2.0 * q.x * v.z * q.z
  {
  }

  lemma ExpandRotateUYQW(q: Quaternion, v: Vec3, u2: Vec3)
    requires u2.y == 2.0 * v.x * q.z - 2.0 * q.x * v.z
    ensures u2.y * q.Real() == 2.0 * v.x * q.z * q.w - 2.0 * q.x * v.z * q.w
  {
  }

  lemma ExpandRotateUXQZ(q: Quaternion, v: Vec3, u2: Vec3)
    requires u2.x == 2.0 * q.y * v.z - 2.0 * v.y * q.z
    ensures u2.x * q.Imag().z == 2.0 * q.y * v.z * q.z - 2.0 * v.y * q.z * q.z
  {
  }

  lemma ExpandRotateQXUZ(q: Quaternion, v: Vec3, u2: Vec3)
    requires u2.z == 2.0 * q.x * v.y - 2.0 * v.x * q.y
    ensures q.Imag().x * u2.z == 2.0 * q.x * q.x * v.y - 2.0 * q.x * v.x * q.y
  {
  }

  lemma ExpandRotateUZQW(q: Quaternion, v: Vec3, u2: Vec3)
    requires u2.z == 2.0 * q.x * v.y - 2.0 * v.x * q.y
    ensures u2.z * q.Real() == 2.0 * q.x * v.y * q.w - 2.0 * v.x * q.y * q.w
  {
  }

  lemma ExpandRotateQXUY(q: Quaternion, v: Vec3, u2: Vec3)
    requires u2.y == 2.0 * v.x * q.z - 2.0 * q.x * v.z
    ensures q.Imag().x * u2.y == 2.0 * q.x * v.x * q.z - 2.0 * q.x * q.x * v.z
  {
  }

  lemma ExpandRotateUXQY(q: Quaternion, v: Vec3, u2: Vec3)
    requires u2.x == 2.0 * q.y * v.z - 2.0 * v.y * q.z
    ensures u2.x * q.Imag().y == 2.0 * q.y * v.z * q.y - 2.0 * v.y * q.z * q.y
  {
  }

  lemma RotateSumX(q: Quaternion, v: Vec3, u2: Vec3)
    requires u2.x * q.Real() == 2.0 * q.y * v.z * q.w - 2.0 * v.y * q.z * q.w
    requires q.Imag().y * u2.z == 2.0 * q.y * q.x * v.y - 2.0 * q.y * v.x * q.y
    requires u2.y * q.Imag().z == 2.0 * v.x * q.z * q.z - 2.0 * q.x * v.z * q.z
    ensures (v.x) + (u2.x * q.Real()) + (q.Imag().y * u2.z) - (u2.y * q.Imag().z) == 2.0 * q.w * q.y * v.z - 2.0 * q.w * q.z * v.y + 2.0 * q.x * q.y * v.y + 2.0 * q.x * q.z * v.z - 2.0 * q.y * q.y * v.x - 2.0 * q.z * q.z * v.x + v.x
  {
    calc {
      (v.x) + (u2.x * q.Real()) + (q.Imag().y * u2.z) - (u2.y * q.Imag().z);
      (v.x) + (2.0 * q.y * v.z * q.w - 2.0 * v.y * q.z * q.w) + (q.Imag().y * u2.z) - (u2.y * q.Imag().z);
      (v.x) + (2.0 * q.y * v.z * q.w - 2.0 * v.y * q.z * q.w) + (2.0 * q.y * q.x * v.y - 2.0 * q.y * v.x * q.y) - (u2.y * q.Imag().z);
      (v.x) + (2.0 * q.y * v.z * q.w - 2.0 * v.y * q.z * q.w) + (2.0 * q.y * q.x * v.y - 2.0 * q.y * v.x * q.y) - (2.0 * v.x * q.z * q.z - 2.0 * q.x * v.z * q.z);
      2.0 * q.w * q.y * v.z - 2.0 * q.w * q.z * v.y + 2.0 * q.x * q.y * v.y + 2.0 * q.x * q.z * v.z - 2.0 * q.y * q.y * v.x - 2.0 * q.z * q.z * v.x + v.x;
    }
  }

  lemma RotateSumY(q: Quaternion, v: Vec3, u2: Vec3)
    requires u2.y * q.Real() == 2.0 * v.x * q.z * q.w - 2.0 * q.x * v.z * q.w
    requires u2.x * q.Imag().z == 2.0 * q.y * v.z * q.z - 2.0 * v.y * q.z * q.z
    requires q.Imag().x * u2.z == 2.0 * q.x * q.x * v.y - 2.0 * q.x * v.x * q.y
    ensures (v.y) + (u2.y * q.Real()) + (u2.x * q.Imag().z) - (q.Imag().x * u2.z) == -2.0 * q.w * q.x * v.z + 2.0 * q.w * q.z * v.x - 2.0 * q.x * q.x * v.y + 2.0 * q.x * q.y * v.x + 2.0 * q.y * q.z * v.z - 2.0 * q.z * q.z * v.y + v.y
  {
    calc {
      (v.y) + (u2.y * q.Real()) + (u2.x * q.Imag().z) - (q.Imag().x * u2.z);
      (v.y) + (2.0 * v.x * q.z * q.w - 2.0 * q.x * v.z * q.w) + (u2.x * q.Imag().z) - (q.Imag().x * u2.z);
      (v.y) + (2.0 * v.x * q.z * q.w - 2.0 * q.x * v.z * q.w) + (2.0 * q.y * v.z * q.z - 2.0 * v.y * q.z * q.z) - (q.Imag().x * u2.z);
      (v.y) + (2.0 * v.x * q.z * q.w - 2.0 * q.x * v.z * q.w) + (2.0 * q.y * v.z * q.z - 2.0 * v.y * q.z * q.z) - (2.0 * q.x * q.x * v.y - 2.0 * q.x * v.x * q.y);
      -2.0 * q.w * q.x * v.z + 2.0 * q.w * q.z * v.x - 2.0 * q.x * q.x * v.y + 2.0 * q.x * q.y * v.x + 2.0 * q.y * q.z * v.z - 2.0 * q.z * q.z * v.y + v.y;
    }
  }

  lemma RotateSumZ(q: Quaternion, v: Vec3, u2: Vec3)
    requires u2.z * q.Real() == 2.0 * q.x * v.y * q.w - 2.0 * v.x * q.y * q.w
    requires q.Imag().x * u2.y == 2.0 * q.x * v.x * q.z - 2.0 * q.x * q.x * v.z
    requires u2.x * q.Imag().y == 2.0 * q.y * v.z * q.y - 2.0 * v.y * q.z * q.y
    ensures (v.z) + (u2.z * q.Real()) + (q.Imag().x * u2.y) - (u2.x * q.Imag().y) == 2.0 * q.w * q.x * v.y - 2.0 * q.w * q.y * v.x - 2.0 * q.x * q.x * v.z + 2.0 * q.x * q.z * v.x - 2.0 * q.y * q.y * v.z + 2.0 * q.y * q.z * v.y + v.z
  {
    calc {
      (v.z) + (u2.z * q.Real()) + (q.Imag().x * u2.y) - (u2.x * q.Imag().y);
      (v.z) + (2.0 * q.x * v.y * q.w - 2.0 * v.x * q.y * q.w) + (q.Imag().x * u2.y) - (u2.x * q.Imag().y);
      (v.z) + (2.0 * q.x * v.y * q.w - 2.0 * v.x * q.y * q.w) + (2.0 * q.x * v.x * q.z - 2.0 * q.x * q.x * v.z) - (u2.x * q.Imag().y);
      (v.z) + (2.0 * q.x * v.y * q.w - 2.0 * v.x * q.y * q.w) + (2.0 * q.x * v.x * q.z - 2.0 * q.x * q.x * v.z) - (2.0 * q.y * v.z * q.y - 2.0 * v.y * q.z * q.y);
      2.0 * q.w * q.x * v.y - 2.0 * q.w * q.y * v.x - 2.0 * q.x * q.x * v.z + 2.0 * q.x * q.z * v.x - 2.0 * q.y * q.y * v.z + 2.0 * q.y * q.z * v.y + v.z;
    }
  }

  lemma UnfoldRotateX(q: UnitQuaternion, v: Vec3, u2: Vec3)
    requires u2 == Cross(q.Imag(), v).AddAssign(Cross(q.Imag(), v))
    ensures RotateVec(q, v).x == (v.x) + (u2.x * q.Real()) + (q.Imag().y * u2.z) - (u2.y * q.Imag().z)
  {
  }

  lemma UnfoldRotateY(q: UnitQuaternion, v: Vec3, u2: Vec3)
    requires u2 == Cross(q.Imag(), v).AddAssign(Cross(q.Imag(), v))
    ensures RotateVec(q, v).y == (v.y) + (u2.y * q.Real()) + (u2.x * q.Imag().z) - (q.Imag().x * u2.z)
  {
  }

  lemma UnfoldRotateZ(q: UnitQuaternion, v: Vec3, u2: Vec3)
    requires u2 == Cross(q.Imag(), v).AddAssign(Cross(q.Imag(), v))
    ensures RotateVec(q, v).z == (v.z) + (u2.z * q.Real()) + (q.Imag().x * u2.y) - (u2.x * q.Imag().y)
  {
  }

  /** Rotating back by the conjugate undoes a rotation. */
  lemma RotateVecInverse(q: UnitQuaternion, v: Vec3)
    ensures RotateVec(UnitConjugate(q), RotateVec(q, v)) == v
  {
    var c, V := UnitConjugate(q), VecToQuat(v);
    var S := Mul(Mul(q, V), c);
    RotateVecIsSandwich(q, v);
    assert VecToQuat(RotateVec(q, v)) == S;
    RotateVecIsSandwich(c, RotateVec(q, v));
    ConjugateInvolution(q);
    MulConjugate(q);
    calc {
      Mul(Mul(c, S), c.Conjugate());
      Mul(Mul(c, Mul(Mul(q, V), c)), q);
      { MulAssociative(c, Mul(q, V), c); }
      Mul(Mul(Mul(c, Mul(q, V)), c), q);
      { MulAssociative(Mul(c, Mul(q, V)), c, q); }
      Mul(Mul(c, Mul(q, V)), Mul(c, q));
      { MulIdentity(Mul(c, Mul(q, V))); }
      Mul(c, Mul(q, V));
      { MulAssociative(c, q, V); }
      Mul(Mul(c, q), V);
      { MulIdentity(V); }
      V;
    }
  }

  /** Rotating by a product is rotating by the right factor, then the left. */
  lemma RotateVecCompose(p: UnitQuaternion, q: UnitQuaternion, v: Vec3)
    ensures RotateVec(UnitMul(p, q), v) == RotateVec(p, RotateVec(q, v))
  {
    var V := VecToQuat(v);
    var Sq := Mul(Mul(q, V), q.Conjugate());
    RotateVecIsSandwich(q, v);
    assert VecToQuat(RotateVec(q, v)) == Sq;
    RotateVecIsSandwich(p, RotateVec(q, v));
    RotateVecIsSandwich(UnitMul(p, q), v);
    ConjugateOfProduct(p, q);
    calc {
      Mul(Mul(p, Sq), p.Conjugate());
      { MulAssociative(p, Mul(q, V), q.Conjugate()); }
      Mul(Mul(Mul(p, Mul(q, V)), q.Conjugate()), p.Conjugate());
      { MulAssociative(p, q, V); }
      Mul(Mul(Mul(Mul(p, q), V), q.Conjugate()), p.Conjugate());
      { MulAssociative(Mul(Mul(p, q), V), q.Conjugate(), p.Conjugate()); }
      Mul(Mul(Mul(p, q), V), Mul(q.Conjugate(), p.Conjugate()));
      Mul(Mul(Mul(p, q), V), Mul(p, q).Conjugate());
    }
  }

  /** A rotation preserves lengths. */
  lemma RotateVecPreservesLength(q: UnitQuaternion, v: Vec3)
    ensures Dot(RotateVec(q, v), RotateVec(q, v)) == Dot(v, v)
  {
    var c, V := UnitConjugate(q), VecToQuat(v);
    var S := Mul(Mul(q, V), c);
    RotateVecIsSandwich(q, v);
    NormMultiplicative(Mul(q, V), c);
    NormMultiplicative(q, V);
    calc {
      Norm2(S);
      Norm2(Mul(q, V)) * Norm2(c);
      { MulCongruent(Norm2(c), 1.0, Norm2(Mul(q, V))); }
      Norm2(Mul(q, V));
      Norm2(q) * Norm2(V);
      { MulCongruent(Norm2(q), 1.0, Norm2(V)); }
      Norm2(V);
    }
    PureNorm(S);
    PureNorm(V);
  }
}
