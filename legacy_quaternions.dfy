/**
 * quaternion.h, the older quaternion classes. Quaternion has the same
 * components, compound assignments, indexing and Hamilton product formula as
 * the newer class (quaternion.h:28-37 writes the product exactly as
 * inc/quaternion.h does), so this module reuses Quaternions.Quaternion and the
 * free operators +, -, * and scaling, and adds what differs: conjugated(),
 * division by a quaternion, unary minus, and a Unit_Quaternion whose
 * component constructor does not normalise, with its mixed products.
 */
module LegacyQuaternions {
  import opened Wrappers
  import opened Reals
  import opened Quaternions
  import opened HamiltonProduct

  /** conjugated(): a copy with the vector part negated; the receiver is a
      value and stays as it was. */
  function Conjugated(q: Quaternion): (r: Quaternion)
    ensures r.w == q.w && r.x == -q.x && r.y == -q.y && r.z == -q.z
  {
    Quaternion(q.w, -q.x, -q.y, -q.z)
  }

  /** Conjugating twice gives the original back, and the norm is kept. */
  lemma ConjugatedInvolution(q: Quaternion)
    ensures Conjugated(Conjugated(q)) == q
    ensures Norm2(Conjugated(q)) == Norm2(q)
  {
  }

  /** conjugate(): multiplies x, y and z by -1 in place; the value it leaves
      is the one conjugated() returns. */
  function ConjugateInPlace(q: Quaternion): (r: Quaternion)
    ensures r == Conjugated(q)
  {
    Quaternion(q.w, q.x * -1.0, q.y * -1.0, q.z * -1.0)
  }

  /** operator/(q, p): q times the conjugate of p. Multiplying the quotient by
      p gives q scaled by the squared norm of p, so for a unit p, division by
      p undoes multiplication by p. */
  function Div(q: Quaternion, p: Quaternion): (r: Quaternion)
    ensures Mul(r, p) == q.ScaleAssign(Norm2(p))
    ensures Norm2(p) == 1.0 ==> Mul(r, p) == q
  {
    DivTimes(q, p);
    Mul(q, Conjugated(p))
  }

  lemma DivTimes(q: Quaternion, p: Quaternion)
    ensures Mul(Mul(q, Conjugated(p)), p) == q.ScaleAssign(Norm2(p))
  {
    MulConjugate(p);
    assert Conjugated(p) == p.Conjugate();
    calc {
      Mul(Mul(q, Conjugated(p)), p);
      { MulAssociative(q, Conjugated(p), p); }
      Mul(q, Mul(p.Conjugate(), p));
      Mul(q, Quaternion(Norm2(p), 0.0, 0.0, 0.0));
      { MulReal(q, Norm2(p)); }
      q.ScaleAssign(Norm2(p));
    }
  }

  /** Multiplying by a real quaternion (a, 0, 0, 0) scales by a. */
  lemma MulReal(q: Quaternion, a: real)
    ensures Mul(q, Quaternion(a, 0.0, 0.0, 0.0)) == q.ScaleAssign(a)
  {
  }

  /** Division by a unit quaternion undoes multiplication by it. */
  lemma DivUndoesMul(q: Quaternion, p: UnitQuaternion)
    ensures Div(Mul(q, p), p) == q
  {
    ConjugateOfProduct(q, p);
    MulConjugate(p);
    assert Conjugated(p) == p.Conjugate();
    calc {
      Div(Mul(q, p), p);
      Mul(Mul(q, p), p.Conjugate());
      { MulAssociative(q, p, p.Conjugate()); }
      Mul(q, Mul(p, p.Conjugate()));
      Mul(q, Quaternion(1.0, 0.0, 0.0, 0.0));
      { MulIdentity(q); }
      q;
    }
  }

  /** Unary operator-: built from q[0] to q[3], each negated; the additive
      inverse. */
  function Neg(q: Quaternion): (r: Quaternion)
    ensures Add(q, r) == ZeroQuaternion
    ensures r == q.ScaleAssign(-1.0)
  {
    Quaternion(-q.At(0).value, -q.At(1).value, -q.At(2).value, -q.At(3).value)
  }

  /** Unit_Quaternion of quaternion.h: a Quaternion whose constructors do not
      normalise; only normalize() divides by the norm. */
  datatype Unit = Unit(q: Quaternion)

  /** Unit_Quaternion(): the identity. */
  const DefaultUnit := Unit(Identity)

  /** Unit_Quaternion(w, x, y, z): stores the four components unchanged, so
      the result need not have norm one. */
  function MakeUnit(w: real, x: real, y: real, z: real): (r: Unit)
    ensures r.q.At(0) == Some(w) && r.q.At(1) == Some(x)
    ensures r.q.At(2) == Some(y) && r.q.At(3) == Some(z)
  {
    Unit(Quaternion(w, x, y, z))
  }

  /** The component constructor keeps a non-unit argument: (2, 0, 0, 0) has
      squared norm 4. */
  lemma MakeUnitKeepsNorm()
    ensures Norm2(MakeUnit(2.0, 0.0, 0.0, 0.0).q) == 4.0
  {
  }

  /** normalize(): divides by the root of the squared norm in place; a
      division by zero for the zero quaternion. The result has norm one and
      scaling it back by the root gives the original. */
  function Normalize(sqrt: real -> real, u: Unit): (r: Unit)
    requires IsSqrt(sqrt) && u.q != ZeroQuaternion
    ensures Norm2(r.q) == 1.0
    ensures r.q.ScaleAssign(sqrt(Norm2(u.q))) == u.q
  {
    Unit(Quaternions.Normalize(sqrt, u.q))
  }

  /** Normalising a quaternion of norm one changes nothing, so normalize() is
      idempotent. */
  lemma NormalizeIdempotent(sqrt: real -> real, u: Unit)
    requires IsSqrt(sqrt) && Norm2(u.q) == 1.0
    ensures u.q != ZeroQuaternion && Normalize(sqrt, u) == u
  {
    NormalizeUnit(sqrt, u.q);
  }

  /** operator*(Quaternion q, Unit_Quaternion p): the product q p. */
  function MulQuatUnit(q: Quaternion, p: Unit): (r: Quaternion)
    ensures p == DefaultUnit ==> r == q
    ensures Norm2(r) == Norm2(q) * Norm2(p.q)
  {
    MulIdentity(q);
    NormMultiplicative(q, p.q);
    Mul(q, p.q)
  }

  /** operator*(Unit_Quaternion p, Quaternion q) as written: it also returns
      q p, with its operands swapped. */
  function MulUnitQuatAsWritten(p: Unit, q: Quaternion): (r: Quaternion)
    ensures r == MulQuatUnit(q, p)
  {
    Mul(q, p.q)
  }

  /** With p = i and q = j the overload as written returns j i = -k, where
      the product p q is i j = k. */
  lemma MulUnitQuatSwapped()
    ensures MulUnitQuatAsWritten(Unit(Quaternion(0.0, 1.0, 0.0, 0.0)), Quaternion(0.0, 0.0, 1.0, 0.0))
            == Quaternion(0.0, 0.0, 0.0, -1.0)
    ensures Mul(Quaternion(0.0, 1.0, 0.0, 0.0), Quaternion(0.0, 0.0, 1.0, 0.0))
            == Quaternion(0.0, 0.0, 0.0, 1.0)
  {
  }

  /** operator*(Unit_Quaternion p, Quaternion q) as intended: the product p q,
      so that the mixed products associate like the plain one. */
  function MulUnitQuat(p: Unit, q: Quaternion): (r: Quaternion)
    ensures p == DefaultUnit ==> r == q
    ensures Norm2(r) == Norm2(p.q) * Norm2(q)
  {
    MulIdentity(q);
    NormMultiplicative(p.q, q);
    Mul(p.q, q)
  }

  /** The corrected overload associates with the other mixed product:
      (p q) r = p (q r) for units p and r. */
  lemma MixedProductsAssociate(p: Unit, q: Quaternion, r: Unit)
    ensures MulQuatUnit(MulUnitQuat(p, q), r) == MulUnitQuat(p, MulQuatUnit(q, r))
  {
    MulAssociative(p.q, q, r.q);
  }

  /** operator*(Unit_Quaternion, Unit_Quaternion): copies p and applies *= q;
      the squared norm is multiplicative, so two units give a unit. */
  function MulUnitUnit(p: Unit, q: Unit): (r: Unit)
    ensures Norm2(r.q) == Norm2(p.q) * Norm2(q.q)
    ensures Norm2(p.q) == 1.0 && Norm2(q.q) == 1.0 ==> Norm2(r.q) == 1.0
  {
    NormMultiplicative(p.q, q.q);
    Unit(p.q.MulAssign(q.q))
  }
}
