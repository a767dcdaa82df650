/**
 * The gradient of inc/madgwick.h (update_filter, lines 63-70). The filter
 * looks for the attitude q that makes the predicted directions of gravity
 * and of the magnetic field agree with the measured ones. Each fk is
 *
 *   fk = dot(Gk, a_ref - a_hat) + dot(Mk, m_ref - m_hat),
 *
 * where a_ref - a_hat and m_ref - m_hat are the residuals and Gk and Mk are
 * the k-th columns of the Jacobians of the gravity and field models with
 * respect to the four components of q. The columns appear in the source as
 * vector literals. This module states what the columns should be (the
 * partial derivatives of the two models) and compares them with the
 * literals.
 *
 * Components are numbered as q[0..3] = w, x, y, z.
 */
module MadgwickGradient {
  import opened Vectors
  import opened Quaternions
  import opened Rotations

  /** q with component k moved by h. */
  function Perturb(q: Quaternion, k: nat, h: real): (r: Quaternion)
    requires k < 4
    ensures r.At(k).value == q.At(k).value + h
    ensures forall j: nat :: j < 4 && j != k ==> r.At(j) == q.At(j)
  {
    if k == 0 then Quaternion(q.w + h, q.x, q.y, q.z)
    else if k == 1 then Quaternion(q.w, q.x + h, q.y, q.z)
    else if k == 2 then Quaternion(q.w, q.x, q.y + h, q.z)
    else Quaternion(q.w, q.x, q.y, q.z + h)
  }

  /** Where q predicts gravity (0, 0, 1) in the body frame, written as the
      quadratic polynomial of the gradient-descent formulation. */
  function GravityModel(q: Quaternion): Vec3
  {
    Vec3(2.0 * (q.x * q.z - q.w * q.y),
         2.0 * (q.w * q.x + q.y * q.z),
         2.0 * (0.5 - q.x * q.x - q.y * q.y))
  }

  /** Where q predicts the field (bx, 0, bz) in the body frame. */
  function FieldModel(q: Quaternion, bx: real, bz: real): Vec3
  {
    Vec3(2.0 * bx * (0.5 - q.y * q.y - q.z * q.z) + 2.0 * bz * (q.x * q.z - q.w * q.y),
         2.0 * bx * (q.x * q.y - q.w * q.z) + 2.0 * bz * (q.w * q.x + q.y * q.z),
         2.0 * bx * (q.w * q.y + q.x * q.z) + 2.0 * bz * (0.5 - q.x * q.x - q.y * q.y))
  }

  /** The models are the source's predictions: rotating a reference
      (bx, 0, bz) by the conjugate of q, as m_ref is computed, gives
      FieldModel. */
  lemma FieldPrediction(q: UnitQuaternion, bx: real, bz: real)
    ensures RotateVec(UnitConjugate(q), Vec3(bx, 0.0, bz)) == FieldModel(q, bx, bz)
  {
    var c, v := UnitConjugate(q), Vec3(bx, 0.0, bz);
    var u2 := Cross(c.Imag(), v).AddAssign(Cross(c.Imag(), v));
    var r, m := RotateVec(c, v), FieldModel(q, bx, bz);
    RotateInner(c, v, u2);
    RotateX(c, v, u2);
    RotateY(c, v, u2);
    RotateZ(c, v, u2);
    PredictionX(q, c, v, r, m);
    PredictionY(q, c, v, r, m);
    PredictionZ(q, c, v, r, m);
  }

  lemma PredictionX(q: Quaternion, c: Quaternion, v: Vec3, r: Vec3, m: Vec3)
    requires c == q.Conjugate() && v.y == 0.0
    requires r.x == 2.0 * c.w * c.y * v.z - 2.0 * c.w * c.z * v.y + 2.0 * c.x * c.y * v.y + 2.0 * c.x * c.z * v.z - 2.0 * c.y * c.y * v.x - 2.0 * c.z * c.z * v.x + v.x
    requires m == FieldModel(q, v.x, v.z)
    ensures r.x == m.x
  {
  }

  lemma PredictionY(q: Quaternion, c: Quaternion, v: Vec3, r: Vec3, m: Vec3)
    requires c == q.Conjugate() && v.y == 0.0
    requires r.y == -2.0 * c.w * c.x * v.z + 2.0 * c.w * c.z * v.x - 2.0 * c.x * c.x * v.y + 2.0 * c.x * c.y * v.x + 2.0 * c.y * c.z * v.z - 2.0 * c.z * c.z * v.y + v.y
    requires m == FieldModel(q, v.x, v.z)
    ensures r.y == m.y
  {
  }

  lemma PredictionZ(q: Quaternion, c: Quaternion, v: Vec3, r: Vec3, m: Vec3)
    requires c == q.Conjugate() && v.y == 0.0
    requires r.z == 2.0 * c.w * c.x * v.y - 2.0 * c.w * c.y * v.x - 2.0 * c.x * c.x * v.z + 2.0 * c.x * c.z * v.x - 2.0 * c.y * c.y * v.z + 2.0 * c.y * c.z * v.y + v.z
    requires m == FieldModel(q, v.x, v.z)
    ensures r.z == m.z
  {
  }

  /** a_ref, the conjugate of q applied to (0, 0, 1), is GravityModel: the
      field model for the reference (0, 0, 1). */
  lemma GravityPrediction(q: UnitQuaternion)
    ensures RotateVec(UnitConjugate(q), Vec3(0.0, 0.0, 1.0)) == GravityModel(q)
  {
    FieldPrediction(q, 0.0, 1.0);
    GravityIsField(q, FieldModel(q, 0.0, 1.0));
  }

  lemma GravityIsField(q: Quaternion, m: Vec3)
    requires m == FieldModel(q, 0.0, 1.0)
    ensures m == GravityModel(q)
  {
  }

  /** The vector literals the source dots with a_ref - a_hat in f0 .. f3. */
  function GravityColumnAsWritten(q: Quaternion, k: nat): Vec3
    requires k < 4
  {
    if k == 0 then Vec3(-2.0 * q.y, 2.0 * q.x, 0.0)
    else if k == 1 then Vec3(2.0 * q.z, 2.0 * q.w, -4.0 * q.x)
    else if k == 2 then Vec3(-2.0 * q.w, 2.0 * q.z, 4.0 * q.y)
    else Vec3(2.0 * q.x, 2.0 * q.y, 0.0)
  }

  /** The vector literals the source dots with m_ref - m_hat in f0 .. f3,
      with bx and bz standing for the coefficients it reads. */
  function FieldColumnAsWritten(q: Quaternion, bx: real, bz: real, k: nat): Vec3
    requires k < 4
  {
    if k == 0 then Vec3(-2.0 * bz * q.y, -2.0 * bx * q.z + 2.0 * bz * q.x, 2.0 * bx * q.y)
    else if k == 1 then Vec3(2.0 * bz * q.z, 2.0 * bx * q.y + 2.0 * bz * q.w, 2.0 * bx * q.z - 4.0 * bz * q.x)
    else if k == 2 then Vec3(-bx * q.y - 2.0 * bz * q.w, 2.0 * bx * q.x + 2.0 * bz * q.z, 2.0 * bx * q.w - 4.0 * bz * q.y)
    else Vec3(-4.0 * bx * q.z + 2.0 * bz * q.x, -2.0 * bx * q.w + 2.0 * bz * q.y, 2.0 * bx * q.x)
  }

  /** The partial derivative of GravityModel with respect to q[k]. */
  function GravityColumn(q: Quaternion, k: nat): Vec3
    requires k < 4
  {
    if k == 0 then Vec3(-2.0 * q.y, 2.0 * q.x, 0.0)
    else if k == 1 then Vec3(2.0 * q.z, 2.0 * q.w, -4.0 * q.x)
    else if k == 2 then Vec3(-2.0 * q.w, 2.0 * q.z, -4.0 * q.y)
    else Vec3(2.0 * q.x, 2.0 * q.y, 0.0)
  }

  /** The partial derivative of FieldModel with respect to q[k], the field
      held fixed. */
  function FieldColumn(q: Quaternion, bx: real, bz: real, k: nat): Vec3
    requires k < 4
  {
    if k == 0 then Vec3(-2.0 * bz * q.y, -2.0 * bx * q.z + 2.0 * bz * q.x, 2.0 * bx * q.y)
    else if k == 1 then Vec3(2.0 * bz * q.z, 2.0 * bx * q.y + 2.0 * bz * q.w, 2.0 * bx * q.z - 4.0 * bz * q.x)
    else if k == 2 then Vec3(-4.0 * bx * q.y - 2.0 * bz * q.w, 2.0 * bx * q.x + 2.0 * bz * q.z, 2.0 * bx * q.w - 4.0 * bz * q.y)
    else Vec3(-4.0 * bx * q.z + 2.0 * bz * q.x, -2.0 * bx * q.w + 2.0 * bz * q.y, 2.0 * bx * q.x)
  }

  /** The second-order coefficients: the models are quadratic in q. */
  function GravityCurvature(k: nat): Vec3
  {
    if k == 1 || k == 2 then Vec3(0.0, 0.0, -2.0) else Zero
  }

  function FieldCurvature(bx: real, bz: real, k: nat): Vec3
  {
    if k == 1 then Vec3(0.0, 0.0, -2.0 * bz)
    else if k == 2 then Vec3(-2.0 * bx, 0.0, -2.0 * bz)
    else if k == 3 then Vec3(-2.0 * bx, 0.0, 0.0)
    else Zero
  }

  /** GravityColumn is the derivative: moving q[k] by h moves the model by
      h times the column plus a term in h * h alone. */
  lemma GravityColumnIsDerivative(q: Quaternion, k: nat, h: real)
    requires k < 4
    ensures GravityModel(Perturb(q, k, h))
            == GravityModel(q).AddAssign(GravityColumn(q, k).MulAssign(h)).AddAssign(GravityCurvature(k).MulAssign(h * h))
  {
    var p := Perturb(q, k, h);
    var m, m0, c, d := GravityModel(p), GravityModel(q), GravityColumn(q, k), GravityCurvature(k);
    if k == 0 {
      GravityStep0(q, h, p, m, m0, c, d);
    } else if k == 1 {
      GravityStep1(q, h, p, m, m0, c, d);
    } else if k == 2 {
      GravityStep2(q, h, p, m, m0, c, d);
    } else {
      GravityStep3(q, h, p, m, m0, c, d);
    }
    Join(m, m0, c, d, h);
  }

  /** FieldColumn is the derivative of FieldModel with the field fixed. */
  lemma FieldColumnIsDerivative(q: Quaternion, bx: real, bz: real, k: nat, h: real)
    requires k < 4
    ensures FieldModel(Perturb(q, k, h), bx, bz)
            == FieldModel(q, bx, bz).AddAssign(FieldColumn(q, bx, bz, k).MulAssign(h)).AddAssign(FieldCurvature(bx, bz, k).MulAssign(h * h))
  {
    var p := Perturb(q, k, h);
    var m, m0, c, d := FieldModel(p, bx, bz), FieldModel(q, bx, bz), FieldColumn(q, bx, bz, k), FieldCurvature(bx, bz, k);
    if k == 0 {
      FieldStep0(q, bx, bz, h, p, m, m0, c, d);
    } else if k == 1 {
      FieldStep1(q, bx, bz, h, p, m, m0, c, d);
    } else if k == 2 {
      FieldStep2(q, bx, bz, h, p, m, m0, c, d);
    } else {
      FieldStep3(q, bx, bz, h, p, m, m0, c, d);
    }
    Join(m, m0, c, d, h);
  }

  /** Three componentwise second-order expansions make one vector
      expansion. */
  lemma Join(m: Vec3, m0: Vec3, c: Vec3, d: Vec3, h: real)
    requires m.x == m0.x + c.x * h + d.x * (h * h)
    requires m.y == m0.y + c.y * h + d.y * (h * h)
    requires m.z == m0.z + c.z * h + d.z * (h * h)
    ensures m == m0.AddAssign(c.MulAssign(h)).AddAssign(d.MulAssign(h * h))
  {
  }
  /** The literals agree with the derivatives except in column 2: the
      gravity literal differs exactly when q.y is not zero (the sign of its
      last entry), the field literal exactly when bx * q.y is not zero (the
      factor of its first term). */
  lemma ColumnSlips(q: Quaternion, bx: real, bz: real, k: nat)
    requires k < 4
    ensures GravityColumnAsWritten(q, k) != GravityColumn(q, k) <==> k == 2 && q.y != 0.0
    ensures FieldColumnAsWritten(q, bx, bz, k) != FieldColumn(q, bx, bz, k) <==> k == 2 && bx * q.y != 0.0
  {
  }

  /** fk as written: literal column k dotted with the residual
      ea = a_ref - a_hat, plus the field literal, with its coefficients read
      from m_ref[0] and m_ref[2], dotted with em = m_ref - m_hat. */
  function SlopeAsWritten(q: Quaternion, ea: Vec3, mRef: Vec3, em: Vec3, k: nat): real
    requires k < 4
  {
    Dot(GravityColumnAsWritten(q, k), ea) + Dot(FieldColumnAsWritten(q, mRef.x, mRef.z, k), em)
  }

  /** (f0, f1, f2, f3) as written. */
  function GradientAsWritten(q: Quaternion, ea: Vec3, mRef: Vec3, em: Vec3): Quaternion
  {
    Quaternion(SlopeAsWritten(q, ea, mRef, em, 0), SlopeAsWritten(q, ea, mRef, em, 1),
               SlopeAsWritten(q, ea, mRef, em, 2), SlopeAsWritten(q, ea, mRef, em, 3))
  }

  /** fk with the derivative columns and the coefficients bx = b[0],
      bz = b[2] of the field reference b the residual em was formed with. */
  function Slope(q: Quaternion, ea: Vec3, b: Vec3, em: Vec3, k: nat): real
    requires k < 4
  {
    Dot(GravityColumn(q, k), ea) + Dot(FieldColumn(q, b.x, b.z, k), em)
  }

  /** (f0, f1, f2, f3) with the derivative columns. */
  function Gradient(q: Quaternion, ea: Vec3, b: Vec3, em: Vec3): Quaternion
  {
    Quaternion(Slope(q, ea, b, em, 0), Slope(q, ea, b, em, 1), Slope(q, ea, b, em, 2), Slope(q, ea, b, em, 3))
  }

  /** With both residuals zero there is nothing to descend: both forms of
      the gradient are zero. */
  lemma GradientOfNoResidual(q: Quaternion, mRef: Vec3, b: Vec3)
    ensures GradientAsWritten(q, Zero, mRef, Zero) == ZeroQuaternion
    ensures Gradient(q, Zero, b, Zero) == ZeroQuaternion
  {
  }

  /** Half the squared length of a residual. */
  function HalfSquare(r: Vec3): real
  {
    0.5 * Dot(r, r)
  }

  /** The cost the filter descends: half the squared disagreement between
      the predicted and the measured direction of gravity plus the same for
      the field. */
  function Cost(q: Quaternion, aHat: Vec3, b: Vec3, mHat: Vec3): real
  {
    HalfSquare(GravityModel(q).SubAssign(aHat)) + HalfSquare(FieldModel(q, b.x, b.z).SubAssign(mHat))
  }

  /** What is left of |r + h c + h^2 d|^2 after the constant and the linear
      term, divided by h^2. */
  function Remainder(r: Vec3, c: Vec3, d: Vec3, h: real): real
  {
    Dot(c, c) + 2.0 * Dot(d, r) + 2.0 * h * Dot(c, d) + h * h * Dot(d, d)
  }

  /** The remainder of the cost along q[k]. */
  function CostRemainder(q: Quaternion, aHat: Vec3, b: Vec3, mHat: Vec3, k: nat, h: real): real
    requires k < 4
  {
    0.5 * (Remainder(GravityModel(q).SubAssign(aHat), GravityColumn(q, k), GravityCurvature(k), h)
           + Remainder(FieldModel(q, b.x, b.z).SubAssign(mHat), FieldColumn(q, b.x, b.z, k), FieldCurvature(b.x, b.z, k), h))
  }

  /** c + h s + h^2 r: a value, a slope s and a remainder r along a step h. */
  function Expansion(c: real, s: real, r: real, h: real): real
  {
    c + h * s + h * h * r
  }

  /** Gradient is the gradient of Cost: moving q[k] by h changes the cost by
      h times component k of Gradient, taken at the residuals of q, plus a
      term in h * h. */
  lemma GradientIsSlope(q: Quaternion, aHat: Vec3, b: Vec3, mHat: Vec3, k: nat, h: real)
    requires k < 4
    ensures Cost(Perturb(q, k, h), aHat, b, mHat)
            == Expansion(Cost(q, aHat, b, mHat),
                         Gradient(q, GravityModel(q).SubAssign(aHat), b, FieldModel(q, b.x, b.z).SubAssign(mHat)).At(k).value,
                         CostRemainder(q, aHat, b, mHat, k, h), h)
  {
    var p := Perturb(q, k, h);
    var g, g' := GravityModel(q), GravityModel(p);
    var m, m' := FieldModel(q, b.x, b.z), FieldModel(p, b.x, b.z);
    var cg, dg := GravityColumn(q, k), GravityCurvature(k);
    var cm, dm := FieldColumn(q, b.x, b.z, k), FieldCurvature(b.x, b.z, k);
    var ea, ea' := g.SubAssign(aHat), g'.SubAssign(aHat);
    var em, em' := m.SubAssign(mHat), m'.SubAssign(mHat);
    GravityColumnIsDerivative(q, k, h);
    FieldColumnIsDerivative(q, b.x, b.z, k, h);
    ResidualMoves(g', g, cg, dg, aHat, h, ea, ea');
    ResidualMoves(m', m, cm, dm, mHat, h, em, em');
    ResidualSquare(ea, cg, dg, h, ea');
    ResidualSquare(em, cm, dm, h, em');
    GradientComponent(q, ea, b, em, k);
    var s, r := Gradient(q, ea, b, em).At(k).value, CostRemainder(q, aHat, b, mHat, k, h);
    CostSum(ea, ea', cg, dg, em, em', cm, dm, h, s, r);
  }

  /** Component k of Gradient is column k dotted with the residuals. */
  lemma GradientComponent(q: Quaternion, ea: Vec3, b: Vec3, em: Vec3, k: nat)
    requires k < 4
    ensures Gradient(q, ea, b, em).At(k).value == Slope(q, ea, b, em, k)
  {
  }

  /** A model that moves by h c + h^2 d moves its residual by the same. */
  lemma ResidualMoves(m': Vec3, m: Vec3, c: Vec3, d: Vec3, meas: Vec3, h: real, r: Vec3, r': Vec3)
    requires m' == m.AddAssign(c.MulAssign(h)).AddAssign(d.MulAssign(h * h))
    requires r == m.SubAssign(meas) && r' == m'.SubAssign(meas)
    ensures r'.x == r.x + c.x * h + d.x * (h * h)
    ensures r'.y == r.y + c.y * h + d.y * (h * h)
    ensures r'.z == r.z + c.z * h + d.z * (h * h)
  {
  }

  /** |r + h c + h^2 d|^2 = |r|^2 + 2 h <c, r> + h^2 Remainder. */
  lemma ResidualSquare(r: Vec3, c: Vec3, d: Vec3, h: real, r': Vec3)
    requires r'.x == r.x + c.x * h + d.x * (h * h)
    requires r'.y == r.y + c.y * h + d.y * (h * h)
    requires r'.z == r.z + c.z * h + d.z * (h * h)
    ensures Dot(r', r') == Dot(r, r) + 2.0 * h * Dot(c, r) + h * h * Remainder(r, c, d, h)
  {
    var rx, ry, rz := ScalarRemainder(r.x, c.x, d.x, h), ScalarRemainder(r.y, c.y, d.y, h), ScalarRemainder(r.z, c.z, d.z, h);
    calc {
      Dot(r', r');
      r'.x * r'.x + r'.y * r'.y + r'.z * r'.z;
      { SquareExpansion(r.x, c.x, d.x, h, r'.x);
        SquareExpansion(r.y, c.y, d.y, h, r'.y);
        SquareExpansion(r.z, c.z, d.z, h, r'.z); }
      (r.x * r.x + 2.0 * h * (c.x * r.x) + h * h * rx) + (r.y * r.y + 2.0 * h * (c.y * r.y) + h * h * ry)
        + (r.z * r.z + 2.0 * h * (c.z * r.z) + h * h * rz);
      { Distribute(2.0 * h, c.x * r.x, c.y * r.y, c.z * r.z);
        Distribute(h * h, rx, ry, rz); }
      Dot(r, r) + 2.0 * h * Dot(c, r) + h * h * (rx + ry + rz);
      { RemainderSplit(r, c, d, h); }
      Dot(r, r) + 2.0 * h * Dot(c, r) + h * h * Remainder(r, c, d, h);
    }
  }

  function ScalarRemainder(a: real, b: real, e: real, h: real): real
  {
    b * b + 2.0 * (e * a) + 2.0 * h * (b * e) + h * h * (e * e)
  }

  lemma SquareExpansion(a: real, b: real, e: real, h: real, a': real)
    requires a' == a + b * h + e * (h * h)
    ensures a' * a' == a * a + 2.0 * h * (b * a) + h * h * ScalarRemainder(a, b, e, h)
  {
  }

  lemma Distribute(k: real, a: real, b: real, c: real)
    ensures k * a + k * b + k * c == k * (a + b + c)
  {
  }

  lemma RemainderSplit(r: Vec3, c: Vec3, d: Vec3, h: real)
    ensures Remainder(r, c, d, h)
            == ScalarRemainder(r.x, c.x, d.x, h) + ScalarRemainder(r.y, c.y, d.y, h) + ScalarRemainder(r.z, c.z, d.z, h)
  {
    Distribute(2.0 * h, c.x * d.x, c.y * d.y, c.z * d.z);
    Distribute(h * h, d.x * d.x, d.y * d.y, d.z * d.z);
  }

  /** The two expansions add up. */
  lemma CostSum(ea: Vec3, ea': Vec3, cg: Vec3, dg: Vec3, em: Vec3, em': Vec3, cm: Vec3, dm: Vec3, h: real, s: real, r: real)
    requires Dot(ea', ea') == Dot(ea, ea) + 2.0 * h * Dot(cg, ea) + h * h * Remainder(ea, cg, dg, h)
    requires Dot(em', em') == Dot(em, em) + 2.0 * h * Dot(cm, em) + h * h * Remainder(em, cm, dm, h)
    requires s == Dot(cg, ea) + Dot(cm, em)
    requires r == 0.5 * (Remainder(ea, cg, dg, h) + Remainder(em, cm, dm, h))
    ensures HalfSquare(ea') + HalfSquare(em') == Expansion(HalfSquare(ea) + HalfSquare(em), s, r, h)
  {
  }

  /** For the attitude (0.6, 0, 0, 0.8), a turn of about 106 degrees about
      z, the field reference b = (1, 0, 0) is predicted in the body frame as
      m_ref = (-0.28, -0.96, 0). */
  lemma TurnedReference()
    ensures FieldModel(Quaternion(0.6, 0.0, 0.0, 0.8), 1.0, 0.0) == Vec3(-0.28, -0.96, 0.0)
  {
  }

  /** The field columns read their coefficients from m_ref, the reference
      turned into the body frame, instead of from b. At the attitude of
      TurnedReference, with no gravity residual and the field measured
      along the body x axis, em = m_ref - (1, 0, 0) = (-1.28, -0.96, 0) and
      f3 as written is -1.46944: -0.28 times the 5.248 of TurnedSlope, so
      the step along it climbs the cost instead of descending it. */
  lemma FieldCoefficientsAsWritten()
    ensures SlopeAsWritten(Quaternion(0.6, 0.0, 0.0, 0.8), Zero, Vec3(-0.28, -0.96, 0.0), Vec3(-1.28, -0.96, 0.0), 3) == -1.46944
  {
  }

  /** The same f3 with the coefficients of b = (1, 0, 0). */
  lemma TurnedSlope()
    ensures Slope(Quaternion(0.6, 0.0, 0.0, 0.8), Zero, Vec3(1.0, 0.0, 0.0), Vec3(-1.28, -0.96, 0.0), 3) == 5.248
  {
  }

  /* The steps below expand the two models one partial derivative (and,
     for the field, one component) at a time. */

  lemma GravityStep0(q: Quaternion, h: real, p: Quaternion, m: Vec3, m0: Vec3, c: Vec3, d: Vec3)
    requires p == Perturb(q, 0, h)
    requires m == GravityModel(p) && m0 == GravityModel(q) && c == GravityColumn(q, 0) && d == GravityCurvature(0)
    ensures m.x == m0.x + c.x * h + d.x * (h * h)
    ensures m.y == m0.y + c.y * h + d.y * (h * h)
    ensures m.z == m0.z + c.z * h + d.z * (h * h)
  {
  }

  lemma GravityStep1(q: Quaternion, h: real, p: Quaternion, m: Vec3, m0: Vec3, c: Vec3, d: Vec3)
    requires p == Perturb(q, 1, h)
    requires m == GravityModel(p) && m0 == GravityModel(q) && c == GravityColumn(q, 1) && d == GravityCurvature(1)
    ensures m.x == m0.x + c.x * h + d.x * (h * h)
    ensures m.y == m0.y + c.y * h + d.y * (h * h)
    ensures m.z == m0.z + c.z * h + d.z * (h * h)
  {
  }

  lemma GravityStep2(q: Quaternion, h: real, p: Quaternion, m: Vec3, m0: Vec3, c: Vec3, d: Vec3)
    requires p == Perturb(q, 2, h)
    requires m == GravityModel(p) && m0 == GravityModel(q) && c == GravityColumn(q, 2) && d == GravityCurvature(2)
    ensures m.x == m0.x + c.x * h + d.x * (h * h)
    ensures m.y == m0.y + c.y * h + d.y * (h * h)
    ensures m.z == m0.z + c.z * h + d.z * (h * h)
  {
  }

  lemma GravityStep3(q: Quaternion, h: real, p: Quaternion, m: Vec3, m0: Vec3, c: Vec3, d: Vec3)
    requires p == Perturb(q, 3, h)
    requires m == GravityModel(p) && m0 == GravityModel(q) && c == GravityColumn(q, 3) && d == GravityCurvature(3)
    ensures m.x == m0.x + c.x * h + d.x * (h * h)
    ensures m.y == m0.y + c.y * h + d.y * (h * h)
    ensures m.z == m0.z + c.z * h + d.z * (h * h)
  {
  }

  lemma FieldStep0(q: Quaternion, bx: real, bz: real, h: real, p: Quaternion, m: Vec3, m0: Vec3, c: Vec3, d: Vec3)
    requires p == Perturb(q, 0, h)
    requires m == FieldModel(p, bx, bz) && m0 == FieldModel(q, bx, bz) && c == FieldColumn(q, bx, bz, 0) && d == FieldCurvature(bx, bz, 0)
    ensures m.x == m0.x + c.x * h + d.x * (h * h)
    ensures m.y == m0.y + c.y * h + d.y * (h * h)
    ensures m.z == m0.z + c.z * h + d.z * (h * h)
  {
    FieldStep0x(q, bx, bz, h, p, m, m0, c, d);
    FieldStep0y(q, bx, bz, h, p, m, m0, c, d);
    FieldStep0z(q, bx, bz, h, p, m, m0, c, d);
  }

  lemma FieldStep1(q: Quaternion, bx: real, bz: real, h: real, p: Quaternion, m: Vec3, m0: Vec3, c: Vec3, d: Vec3)
    requires p == Perturb(q, 1, h)
    requires m == FieldModel(p, bx, bz) && m0 == FieldModel(q, bx, bz) && c == FieldColumn(q, bx, bz, 1) && d == FieldCurvature(bx, bz, 1)
    ensures m.x == m0.x + c.x * h + d.x * (h * h)
    ensures m.y == m0.y + c.y * h + d.y * (h * h)
    ensures m.z == m0.z + c.z * h + d.z * (h * h)
  {
    FieldStep1x(q, bx, bz, h, p, m, m0, c, d);
    FieldStep1y(q, bx, bz, h, p, m, m0, c, d);
    FieldStep1z(q, bx, bz, h, p, m, m0, c, d);
  }

  lemma FieldStep2(q: Quaternion, bx: real, bz: real, h: real, p: Quaternion, m: Vec3, m0: Vec3, c: Vec3, d: Vec3)
    requires p == Perturb(q, 2, h)
    requires m == FieldModel(p, bx, bz) && m0 == FieldModel(q, bx, bz) && c == FieldColumn(q, bx, bz, 2) && d == FieldCurvature(bx, bz, 2)
    ensures m.x == m0.x + c.x * h + d.x * (h * h)
    ensures m.y == m0.y + c.y * h + d.y * (h * h)
    ensures m.z == m0.z + c.z * h + d.z * (h * h)
  {
    FieldStep2x(q, bx, bz, h, p, m, m0, c, d);
    FieldStep2y(q, bx, bz, h, p, m, m0, c, d);
    FieldStep2z(q, bx, bz, h, p, m, m0, c, d);
  }

  lemma FieldStep3(q: Quaternion, bx: real, bz: real, h: real, p: Quaternion, m: Vec3, m0: Vec3, c: Vec3, d: Vec3)
    requires p == Perturb(q, 3, h)
    requires m == FieldModel(p, bx, bz) && m0 == FieldModel(q, bx, bz) && c == FieldColumn(q, bx, bz, 3) && d == FieldCurvature(bx, bz, 3)
    ensures m.x == m0.x + c.x * h + d.x * (h * h)
    ensures m.y == m0.y + c.y * h + d.y * (h * h)
    ensures m.z == m0.z + c.z * h + d.z * (h * h)
  {
    FieldStep3x(q, bx, bz, h, p, m, m0, c, d);
    FieldStep3y(q, bx, bz, h, p, m, m0, c, d);
    FieldStep3z(q, bx, bz, h, p, m, m0, c, d);
  }

  lemma FieldStep0x(q: Quaternion, bx: real, bz: real, h: real, p: Quaternion, m: Vec3, m0: Vec3, c: Vec3, d: Vec3)
    requires p == Perturb(q, 0, h)
    requires m == FieldModel(p, bx, bz) && m0 == FieldModel(q, bx, bz) && c == FieldColumn(q, bx, bz, 0) && d == FieldCurvature(bx, bz, 0)
    ensures m.x == m0.x + c.x * h + d.x * (h * h)
  {
  }

  lemma FieldStep0y(q: Quaternion, bx: real, bz: real, h: real, p: Quaternion, m: Vec3, m0: Vec3, c: Vec3, d: Vec3)
    requires p == Perturb(q, 0, h)
    requires m == FieldModel(p, bx, bz) && m0 == FieldModel(q, bx, bz) && c == FieldColumn(q, bx, bz, 0) && d == FieldCurvature(bx, bz, 0)
    ensures m.y == m0.y + c.y * h + d.y * (h * h)
  {
  }

  lemma FieldStep0z(q: Quaternion, bx: real, bz: real, h: real, p: Quaternion, m: Vec3, m0: Vec3, c: Vec3, d: Vec3)
    requires p == Perturb(q, 0, h)
    requires m == FieldModel(p, bx, bz) && m0 == FieldModel(q, bx, bz) && c == FieldColumn(q, bx, bz, 0) && d == FieldCurvature(bx, bz, 0)
    ensures m.z == m0.z + c.z * h + d.z * (h * h)
  {
  }

  lemma FieldStep1x(q: Quaternion, bx: real, bz: real, h: real, p: Quaternion, m: Vec3, m0: Vec3, c: Vec3, d: Vec3)
    requires p == Perturb(q, 1, h)
    requires m == FieldModel(p, bx, bz) && m0 == FieldModel(q, bx, bz) && c == FieldColumn(q, bx, bz, 1) && d == FieldCurvature(bx, bz, 1)
    ensures m.x == m0.x + c.x * h + d.x * (h * h)
  {
  }

  lemma FieldStep1y(q: Quaternion, bx: real, bz: real, h: real, p: Quaternion, m: Vec3, m0: Vec3, c: Vec3, d: Vec3)
    requires p == Perturb(q, 1, h)
    requires m == FieldModel(p, bx, bz) && m0 == FieldModel(q, bx, bz) && c == FieldColumn(q, bx, bz, 1) && d == FieldCurvature(bx, bz, 1)
    ensures m.y == m0.y + c.y * h + d.y * (h * h)
  {
  }

  lemma FieldStep1z(q: Quaternion, bx: real, bz: real, h: real, p: Quaternion, m: Vec3, m0: Vec3, c: Vec3, d: Vec3)
    requires p == Perturb(q, 1, h)
    requires m == FieldModel(p, bx, bz) && m0 == FieldModel(q, bx, bz) && c == FieldColumn(q, bx, bz, 1) && d == FieldCurvature(bx, bz, 1)
    ensures m.z == m0.z + c.z * h + d.z * (h * h)
  {
  }

  lemma FieldStep2x(q: Quaternion, bx: real, bz: real, h: real, p: Quaternion, m: Vec3, m0: Vec3, c: Vec3, d: Vec3)
    requires p == Perturb(q, 2, h)
    requires m == FieldModel(p, bx, bz) && m0 == FieldModel(q, bx, bz) && c == FieldColumn(q, bx, bz, 2) && d == FieldCurvature(bx, bz, 2)
    ensures m.x == m0.x + c.x * h + d.x * (h * h)
  {
  }

  lemma FieldStep2y(q: Quaternion, bx: real, bz: real, h: real, p: Quaternion, m: Vec3, m0: Vec3, c: Vec3, d: Vec3)
    requires p == Perturb(q, 2, h)
    requires m == FieldModel(p, bx, bz) && m0 == FieldModel(q, bx, bz) && c == FieldColumn(q, bx, bz, 2) && d == FieldCurvature(bx, bz, 2)
    ensures m.y == m0.y + c.y * h + d.y * (h * h)
  {
  }

  lemma FieldStep2z(q: Quaternion, bx: real, bz: real, h: real, p: Quaternion, m: Vec3, m0: Vec3, c: Vec3, d: Vec3)
    requires p == Perturb(q, 2, h)
    requires m == FieldModel(p, bx, bz) && m0 == FieldModel(q, bx, bz) && c == FieldColumn(q, bx, bz, 2) && d == FieldCurvature(bx, bz, 2)
    ensures m.z == m0.z + c.z * h + d.z * (h * h)
  {
  }

  lemma FieldStep3x(q: Quaternion, bx: real, bz: real, h: real, p: Quaternion, m: Vec3, m0: Vec3, c: Vec3, d: Vec3)
    requires p == Perturb(q, 3, h)
    requires m == FieldModel(p, bx, bz) && m0 == FieldModel(q, bx, bz) && c == FieldColumn(q, bx, bz, 3) && d == FieldCurvature(bx, bz, 3)
    ensures m.x == m0.x + c.x * h + d.x * (h * h)
  {
  }

  lemma FieldStep3y(q: Quaternion, bx: real, bz: real, h: real, p: Quaternion, m: Vec3, m0: Vec3, c: Vec3, d: Vec3)
    requires p == Perturb(q, 3, h)
    requires m == FieldModel(p, bx, bz) && m0 == FieldModel(q, bx, bz) && c == FieldColumn(q, bx, bz, 3) && d == FieldCurvature(bx, bz, 3)
    ensures m.y == m0.y + c.y * h + d.y * (h * h)
  {
  }

  lemma FieldStep3z(q: Quaternion, bx: real, bz: real, h: real, p: Quaternion, m: Vec3, m0: Vec3, c: Vec3, d: Vec3)
    requires p == Perturb(q, 3, h)
    requires m == FieldModel(p, bx, bz) && m0 == FieldModel(q, bx, bz) && c == FieldColumn(q, bx, bz, 3) && d == FieldCurvature(bx, bz, 3)
    ensures m.z == m0.z + c.z * h + d.z * (h * h)
  {
  }
}
