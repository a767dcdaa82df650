/**
 * inc/quaternion.h: Quaternion_Base, Quaternion and Unit_Quaternion, the
 * Hamilton product, conjugation, the free operators, the embedding of vectors
 * as pure quaternions and rotate_vec.
 *
 * Quaternion is a value type (every free operator copies its left operand and
 * applies a compound assignment to the copy), so each in-place member is
 * modelled as the function giving the value the object holds afterwards.
 * Unit_Quaternion is the subset of quaternions of norm one; its constructors
 * divide by the norm they compute with the square root parameter.
 */
module Quaternions {
  import opened Wrappers
  import opened Reals
  import opened Vectors

  datatype Quaternion = Quaternion(w: real, x: real, y: real, z: real) {

    /** operator[]: None stands for the failed `assert(0)` on an index past 3. */
    function At(i: nat): (r: Option<real>)
      ensures r.Some? <==> i < 4
    {
      if i == 0 then Some(w) else if i == 1 then Some(x) else if i == 2 then Some(y)
      else if i == 3 then Some(z) else None
    }

    /** conjugate(): negates the vector part in place. */
    function Conjugate(): Quaternion
    {
      Quaternion(w, -x, -y, -z)
    }

    /** real(): the scalar part. */
    function Real(): real
    {
      w
    }

    /** imag(): the vector part. */
    function Imag(): Vec3
    {
      Vec3(x, y, z)
    }

    /** operator*=(q): the Hamilton product this * q. */
    function MulAssign(q: Quaternion): Quaternion
    {
      Quaternion(w * q.w - x * q.x - y * q.y - z * q.z,
                 w * q.x + q.w * x + (y * q.z - q.y * z),
                 w * q.y + q.w * y - (x * q.z - q.x * z),
                 w * q.z + q.w * z + (x * q.y - q.x * y))
    }

    /** operator+= */
    function AddAssign(q: Quaternion): Quaternion
    {
      Quaternion(w + q.w, x + q.x, y + q.y, z + q.z)
    }

    /** operator-= */
    function SubAssign(q: Quaternion): Quaternion
    {
      Quaternion(w - q.w, x - q.x, y - q.y, z - q.z)
    }

    /** operator*= with a scalar */
    function ScaleAssign(a: real): Quaternion
    {
      Quaternion(w * a, x * a, y * a, z * a)
    }

    /** operator/= with a scalar */
    function DivAssign(a: real): Quaternion
      requires a != 0.0
    {
      Quaternion(w / a, x / a, y / a, z / a)
    }
  }

  /** The value of Unit_Quaternion() and of the attitude's default state. */
  const Identity := Quaternion(1.0, 0.0, 0.0, 0.0)
  /** The value of Quaternion(). */
  const ZeroQuaternion := Quaternion(0.0, 0.0, 0.0, 0.0)

  /** Indexing recovers the four components, and only they are indexable. */
  lemma AtRecoversComponents(q: Quaternion)
    ensures Quaternion(q.At(0).value, q.At(1).value, q.At(2).value, q.At(3).value) == q
    ensures forall i: nat :: 4 <= i ==> q.At(i) == None
  {
  }

  /** The squared norm w*w + x*x + y*y + z*z that normalize() takes the root of. */
  function Norm2(q: Quaternion): real
  {
    q.w * q.w + q.x * q.x + q.y * q.y + q.z * q.z
  }

  /** The squared norm is non-negative, and zero only for the zero quaternion. */
  lemma Norm2Positive(q: Quaternion)
    ensures 0.0 <= Norm2(q)
    ensures q != ZeroQuaternion <==> 0.0 < Norm2(q)
  {
    SqFacts(q.w);
    SqFacts(q.x);
    SqFacts(q.y);
    SqFacts(q.z);
    assert Norm2(q) == Sq(q.w) + Sq(q.x) + Sq(q.y) + Sq(q.z);
    if q.w == 0.0 && q.x == 0.0 && q.y == 0.0 && q.z == 0.0 {
      assert q == ZeroQuaternion;
    }
  }

  /** Unit_Quaternion: the values its constructors and products produce. */
  type UnitQuaternion = q: Quaternion | Norm2(q) == 1.0 witness Identity

  /** operator+(q, p): copies q and applies += p; subtraction undoes it. */
  function Add(q: Quaternion, p: Quaternion): (r: Quaternion)
    ensures r.SubAssign(p) == q
  {
    q.AddAssign(p)
  }

  lemma AddCommutative(q: Quaternion, p: Quaternion)
    ensures Add(q, p) == Add(p, q)
  {
  }

  /** operator-(q, p): copies q and applies -= p; addition undoes it. */
  function Sub(q: Quaternion, p: Quaternion): (r: Quaternion)
    ensures r.AddAssign(p) == q
  {
    q.SubAssign(p)
  }

  /** operator*(q, p): copies q and applies *= p. */
  function Mul(q: Quaternion, p: Quaternion): Quaternion
  {
    q.MulAssign(p)
  }

  /** Unary operator-: negates all four components; it is the additive inverse. */
  function Neg(q: Quaternion): (r: Quaternion)
    ensures Add(q, r) == ZeroQuaternion
    ensures r == q.ScaleAssign(-1.0)
  {
    Quaternion(-q.w, -q.x, -q.y, -q.z)
  }

  /** operator*(q, a): copies q and applies *= a; dividing by a undoes it. */
  function Scale(q: Quaternion, a: real): (r: Quaternion)
    ensures a != 0.0 ==> r.DivAssign(a) == q
  {
    q.ScaleAssign(a)
  }

  /** operator*(a, q): the same as q * a. */
  function ScaleLeft(a: real, q: Quaternion): (r: Quaternion)
    ensures r == Scale(q, a)
  {
    q.ScaleAssign(a)
  }

  /** operator/(q, a): copies q and applies /= a; scaling by a undoes it. */
  function Div(q: Quaternion, a: real): (r: Quaternion)
    requires a != 0.0
    ensures r.ScaleAssign(a) == q
  {
    q.DivAssign(a)
  }

  /** operator/(a, q): also copies q and divides it by a, so a / q is q / a. */
  function DivLeft(a: real, q: Quaternion): (r: Quaternion)
    requires a != 0.0
    ensures r == Div(q, a)
  {
    q.DivAssign(a)
  }

  /** vec_to_quat(u) and the constructor Quaternion(Vec3): the pure quaternion (0, u). */
  function VecToQuat(u: Vec3): (r: Quaternion)
    ensures r.Real() == 0.0 && r.Imag() == u
  {
    Quaternion(0.0, u.x, u.y, u.z)
  }

  /** quat_to_vec(q): components 1 to 3. */
  function QuatToVec(q: Quaternion): (r: Vec3)
    ensures r == q.Imag()
  {
    Vec3(q.x, q.y, q.z)
  }

  /** Embedding a vector and reading it back is the identity; reading a
      quaternion and embedding it back is the identity exactly on pure ones. */
  lemma VecQuatRoundTrip(u: Vec3, q: Quaternion)
    ensures QuatToVec(VecToQuat(u)) == u
    ensures VecToQuat(QuatToVec(q)) == q <==> q.w == 0.0
  {
  }

  /** normalize(), as the constructors Unit_Quaternion(w, x, y, z) and
      Unit_Quaternion(Quaternion) apply it: divides by the root of the squared
      norm, which is a division by zero for the zero quaternion. The result
      has norm one and scaling it back by that root gives q. */
  function Normalize(sqrt: real -> real, q: Quaternion): (r: UnitQuaternion)
    requires IsSqrt(sqrt) && q != ZeroQuaternion
    ensures 0.0 < sqrt(Norm2(q)) && r.ScaleAssign(sqrt(Norm2(q))) == q
  {
    var n := sqrt(Norm2(q));
    NormalizeFacts(sqrt, q);
    q.DivAssign(n)
  }

  lemma NormalizeFacts(sqrt: real -> real, q: Quaternion)
    requires IsSqrt(sqrt) && q != ZeroQuaternion
    ensures 0.0 < sqrt(Norm2(q))
    ensures Norm2(q.DivAssign(sqrt(Norm2(q)))) == 1.0
  {
    Norm2Positive(q);
    RootPositive(sqrt, Norm2(q));
    QuotientUnit(q, sqrt(Norm2(q)), q.DivAssign(sqrt(Norm2(q))));
  }

  /** Dividing q by a positive n with n^2 = Norm2(q) gives norm one. */
  lemma QuotientUnit(q: Quaternion, n: real, r: Quaternion)
    requires 0.0 < n && Sq(n) == Norm2(q) && r == q.DivAssign(n)
    ensures Norm2(r) == 1.0
  {
    QuotientSquare(q.w, n);
    QuotientSquare(q.x, n);
    QuotientSquare(q.y, n);
    QuotientSquare(q.z, n);
    calc {
      Norm2(r) * Sq(n);
      == { SumTimes(Sq(r.w), Sq(r.x), Sq(r.y), Sq(r.z), Sq(n)); }
      Sq(r.w) * Sq(n) + Sq(r.x) * Sq(n) + Sq(r.y) * Sq(n) + Sq(r.z) * Sq(n);
      Sq(q.w) + Sq(q.x) + Sq(q.y) + Sq(q.z);
      Sq(n);
    }
    SqFacts(n);
    Cancel(Norm2(r), Sq(n));
  }

  /** A normalised unit quaternion is unchanged: normalize is idempotent. */
  lemma NormalizeUnit(sqrt: real -> real, q: UnitQuaternion)
    requires IsSqrt(sqrt)
    ensures q != ZeroQuaternion && Normalize(sqrt, q) == q
  {
    RootOfOne(sqrt);
  }

  lemma QuotientSquare(a: real, n: real)
    requires n != 0.0
    ensures Sq(a / n) * Sq(n) == Sq(a)
  {
    var b := a / n;
    assert b * n == a;
    calc {
      Sq(b) * Sq(n);
      (b * b) * (n * n);
      (b * n) * (b * n);
      a * a;
    }
  }

  lemma SumTimes(a: real, b: real, c: real, d: real, s: real)
    ensures (a + b + c + d) * s == a * s + b * s + c * s + d * s
  {
  }

  lemma Cancel(x: real, s: real)
    requires 0.0 < s && x * s == s
    ensures x == 1.0
  {
    if x < 1.0 {
      MulPositive(1.0 - x, s);
    } else if x > 1.0 {
      MulPositive(x - 1.0, s);
    }
  }

  /** (1, 0, 0, 0) is a two-sided identity of the Hamilton product. */
  lemma MulIdentity(q: Quaternion)
    ensures Mul(Identity, q) == q && Mul(q, Identity) == q
  {
  }

  /** conjugate() changes only the vector part, twice restores the original,
      and keeps the norm, so the conjugate of a unit quaternion is a unit. */
  lemma ConjugateInvolution(q: Quaternion)
    ensures q.Conjugate().Real() == q.Real() && q.Conjugate().Imag() == q.Imag().MulAssign(-1.0)
    ensures q.Conjugate().Conjugate() == q
    ensures Norm2(q.Conjugate()) == Norm2(q)
  {
  }

  /** The conjugate of a product is the product of the conjugates, reversed. */
  lemma ConjugateOfProduct(p: Quaternion, q: Quaternion)
    ensures Mul(p, q).Conjugate() == Mul(q.Conjugate(), p.Conjugate())
  {
    ConjugateOfProductW(p, q);
    ConjugateOfProductX(p, q);
    ConjugateOfProductY(p, q);
    ConjugateOfProductZ(p, q);
  }

  /* ConjugateOfProduct one component at a time: each product of components
     of q* and p* is a product of components of q and p, up to sign. */

  lemma ConjugateProductsW(p: Quaternion, q: Quaternion)
    ensures q.Conjugate().w * p.Conjugate().w == q.w * p.w
    ensures q.Conjugate().x * p.Conjugate().x == q.x * p.x
    ensures q.Conjugate().y * p.Conjugate().y == q.y * p.y
    ensures q.Conjugate().z * p.Conjugate().z == q.z * p.z
  {
  }

  lemma ConjugateOfProductW(p: Quaternion, q: Quaternion)
    ensures Mul(q.Conjugate(), p.Conjugate()).w == Mul(p, q).w
  {
    ConjugateProductsW(p, q);
  }

  lemma ConjugateProductsX(p: Quaternion, q: Quaternion)
    ensures q.Conjugate().w * p.Conjugate().x == -(q.w * p.x)
    ensures p.Conjugate().w * q.Conjugate().x == -(p.w * q.x)
    ensures q.Conjugate().y * p.Conjugate().z == q.y * p.z
    ensures p.Conjugate().y * q.Conjugate().z == p.y * q.z
  {
  }

  lemma ConjugateOfProductX(p: Quaternion, q: Quaternion)
    ensures Mul(q.Conjugate(), p.Conjugate()).x == -Mul(p, q).x
  {
    ConjugateProductsX(p, q);
  }

  lemma ConjugateProductsY(p: Quaternion, q: Quaternion)
    ensures q.Conjugate().w * p.Conjugate().y == -(q.w * p.y)
    ensures p.Conjugate().w * q.Conjugate().y == -(p.w * q.y)
    ensures q.Conjugate().x * p.Conjugate().z == q.x * p.z
    ensures p.Conjugate().x * q.Conjugate().z == p.x * q.z
  {
  }

  lemma ConjugateOfProductY(p: Quaternion, q: Quaternion)
    ensures Mul(q.Conjugate(), p.Conjugate()).y == -Mul(p, q).y
  {
    ConjugateProductsY(p, q);
  }

  lemma ConjugateProductsZ(p: Quaternion, q: Quaternion)
    ensures q.Conjugate().w * p.Conjugate().z == -(q.w * p.z)
    ensures p.Conjugate().w * q.Conjugate().z == -(p.w * q.z)
    ensures q.Conjugate().x * p.Conjugate().y == q.x * p.y
    ensures p.Conjugate().x * q.Conjugate().y == p.x * q.y
  {
  }

  lemma ConjugateOfProductZ(p: Quaternion, q: Quaternion)
    ensures Mul(q.Conjugate(), p.Conjugate()).z == -Mul(p, q).z
  {
    ConjugateProductsZ(p, q);
  }

  /** A quaternion times its conjugate, in either order, is its squared norm. */
  lemma MulConjugate(q: Quaternion)
    ensures Mul(q, q.Conjugate()) == Quaternion(Norm2(q), 0.0, 0.0, 0.0)
    ensures Mul(q.Conjugate(), q) == Quaternion(Norm2(q), 0.0, 0.0, 0.0)
  {
  }

  /** The squared norm is multiplicative. */
  lemma NormMultiplicative(p: Quaternion, q: Quaternion)
    ensures Norm2(Mul(p, q)) == Norm2(p) * Norm2(q)
  {
    var r := Mul(p, q);
    SquaresOfProduct(p, q, r);
    NormProduct(p, q);
  }

  /** The four squares of the product's components add up to the sixteen
      diagonal monomials. */
  lemma SquaresOfProduct(p: Quaternion, q: Quaternion, r: Quaternion)
    requires r == Mul(p, q)
    ensures r.w * r.w + r.x * r.x + r.y * r.y + r.z * r.z == p.w * p.w * q.w * q.w + p.w * p.w * q.x * q.x + p.w * p.w * q.y * q.y + p.w * p.w * q.z * q.z
      + p.x * p.x * q.w * q.w + p.x * p.x * q.x * q.x + p.x * p.x * q.y * q.y + p.x * p.x * q.z * q.z
      + p.y * p.y * q.w * q.w + p.y * p.y * q.x * q.x + p.y * p.y * q.y * q.y + p.y * p.y * q.z * q.z
      + p.z * p.z * q.w * q.w + p.z * p.z * q.x * q.x + p.z * p.z * q.y * q.y + p.z * p.z * q.z * q.z
  {
    SquareW(p, q, r);
    SquareX(p, q, r);
    SquareY(p, q, r);
    SquareZ(p, q, r);
    FourSquares(p.w, p.x, p.y, p.z, q.w, q.x, q.y, q.z, r.w, r.x, r.y, r.z);
  }


  /* The square of each component of r = p q multiplied out, the monomials
     written in the order pw px py pz qw qx qy qz. */

  lemma SquareW(p: Quaternion, q: Quaternion, r: Quaternion)
    requires r == Mul(p, q)
    ensures r.w * r.w == p.w * p.w * q.w * q.w + p.x * p.x * q.x * q.x + p.y * p.y * q.y * q.y + p.z * p.z * q.z * q.z
      - 2.0 * p.w * p.x * q.w * q.x - 2.0 * p.w * p.y * q.w * q.y - 2.0 * p.w * p.z * q.w * q.z
      + 2.0 * p.x * p.y * q.x * q.y + 2.0 * p.x * p.z * q.x * q.z + 2.0 * p.y * p.z * q.y * q.z
  {
  }

  lemma SquareX(p: Quaternion, q: Quaternion, r: Quaternion)
    requires r == Mul(p, q)
    ensures r.x * r.x == p.w * p.w * q.x * q.x + p.x * p.x * q.w * q.w + p.y * p.y * q.z * q.z + p.z * p.z * q.y * q.y
      + 2.0 * p.w * p.x * q.w * q.x + 2.0 * p.w * p.y * q.x * q.z - 2.0 * p.w * p.z * q.x * q.y
      + 2.0 * p.x * p.y * q.w * q.z - 2.0 * p.x * p.z * q.w * q.y - 2.0 * p.y * p.z * q.y * q.z
  {
  }

  lemma SquareY(p: Quaternion, q: Quaternion, r: Quaternion)
    requires r == Mul(p, q)
    ensures r.y * r.y == p.w * p.w * q.y * q.y + p.y * p.y * q.w * q.w + p.x * p.x * q.z * q.z + p.z * p.z * q.x * q.x
      + 2.0 * p.w * p.y * q.w * q.y - 2.0 * p.w * p.x * q.y * q.z + 2.0 * p.w * p.z * q.x * q.y
      - 2.0 * p.x * p.y * q.w * q.z + 2.0 * p.y * p.z * q.w * q.x - 2.0 * p.x * p.z * q.x * q.z
  {
  }

  lemma SquareZ(p: Quaternion, q: Quaternion, r: Quaternion)
    requires r == Mul(p, q)
    ensures r.z * r.z == p.w * p.w * q.z * q.z + p.z * p.z * q.w * q.w + p.x * p.x * q.y * q.y + p.y * p.y * q.x * q.x
      + 2.0 * p.w * p.z * q.w * q.z + 2.0 * p.w * p.x * q.y * q.z - 2.0 * p.w * p.y * q.x * q.z
      + 2.0 * p.x * p.z * q.w * q.y - 2.0 * p.y * p.z * q.w * q.x - 2.0 * p.x * p.y * q.x * q.y
  {
  }

  /** The product of the squared norms multiplied out. */
  lemma NormProduct(p: Quaternion, q: Quaternion)
    ensures Norm2(p) * Norm2(q) == p.w * p.w * q.w * q.w + p.w * p.w * q.x * q.x + p.w * p.w * q.y * q.y + p.w * p.w * q.z * q.z
      + p.x * p.x * q.w * q.w + p.x * p.x * q.x * q.x + p.x * p.x * q.y * q.y + p.x * p.x * q.z * q.z
      + p.y * p.y * q.w * q.w + p.y * p.y * q.x * q.x + p.y * p.y * q.y * q.y + p.y * p.y * q.z * q.z
      + p.z * p.z * q.w * q.w + p.z * p.z * q.x * q.x + p.z * p.z * q.y * q.y + p.z * p.z * q.z * q.z
  {
  }

  /** Euler's four-square identity: the cross terms of the four squares
      cancel. Stated over scalars so that the cancellation is linear. */
  lemma FourSquares(pw: real, px: real, py: real, pz: real, qw: real, qx: real, qy: real, qz: real, rw: real, rx: real, ry: real, rz: real)
    requires rw * rw == pw * pw * qw * qw + px * px * qx * qx + py * py * qy * qy + pz * pz * qz * qz
      - 2.0 * pw * px * qw * qx - 2.0 * pw * py * qw * qy - 2.0 * pw * pz * qw * qz
      + 2.0 * px * py * qx * qy + 2.0 * px * pz * qx * qz + 2.0 * py * pz * qy * qz
    requires rx * rx == pw * pw * qx * qx + px * px * qw * qw + py * py * qz * qz + pz * pz * qy * qy
      + 2.0 * pw * px * qw * qx + 2.0 * pw * py * qx * qz - 2.0 * pw * pz * qx * qy
      + 2.0 * px * py * qw * qz - 2.0 * px * pz * qw * qy - 2.0 * py * pz * qy * qz
    requires ry * ry == pw * pw * qy * qy + py * py * qw * qw + px * px * qz * qz + pz * pz * qx * qx
      + 2.0 * pw * py * qw * qy - 2.0 * pw * px * qy * qz + 2.0 * pw * pz * qx * qy
      - 2.0 * px * py * qw * qz + 2.0 * py * pz * qw * qx - 2.0 * px * pz * qx * qz
    requires rz * rz == pw * pw * qz * qz + pz * pz * qw * qw + px * px * qy * qy + py * py * qx * qx
      + 2.0 * pw * pz * qw * qz + 2.0 * pw * px * qy * qz - 2.0 * pw * py * qx * qz
      + 2.0 * px * pz * qw * qy - 2.0 * py * pz * qw * qx - 2.0 * px * py * qx * qy
    ensures rw * rw + rx * rx + ry * ry + rz * rz == pw * pw * qw * qw + pw * pw * qx * qx + pw * pw * qy * qy + pw * pw * qz * qz
      + px * px * qw * qw + px * px * qx * qx + px * px * qy * qy + px * px * qz * qz
      + py * py * qw * qw + py * py * qx * qx + py * py * qy * qy + py * py * qz * qz
      + pz * pz * qw * qw + pz * pz * qx * qx + pz * pz * qy * qy + pz * pz * qz * qz
  {
  }

  /** Unit_Quaternion's operator*= and operator*: the product of two unit
      quaternions is a unit quaternion without renormalising. */
  lemma UnitProductIsUnit(p: UnitQuaternion, q: UnitQuaternion)
    ensures Norm2(Mul(p, q)) == 1.0
  {
    NormMultiplicative(p, q);
  }

  /** rotate_vec(q, v): v + 2w (u x v) + u x (2 (u x v)) for q = (w, u). */
  function RotateVec(q: UnitQuaternion, v: Vec3): Vec3
  {
    var u := Cross(q.Imag(), v);
    var u2 := u.AddAssign(u);
    Vectors.Add(Vectors.Add(v, Vectors.ScaleLeft(q.Real(), u2)), Cross(q.Imag(), u2))
  }

  /** The identity rotation leaves every vector unchanged. */
  lemma RotateVecIdentity(v: Vec3)
    ensures RotateVec(Identity, v) == v
  {
    var u := Cross(Identity.Imag(), v);
    assert Identity.Imag() == Zero;
    assert u == Zero;
    assert u.AddAssign(u) == Zero;
    assert Vectors.ScaleLeft(Identity.Real(), Zero) == Zero;
    assert Cross(Identity.Imag(), Zero) == Zero;
  }

  /** The free conjugate(Unit_Quaternion): the conjugate of its (copied)
      argument, again a unit quaternion. */
  function UnitConjugate(q: UnitQuaternion): (r: UnitQuaternion)
    ensures r == q.Conjugate()
  {
    ConjugateInvolution(q);
    q.Conjugate()
  }

  /** Unit_Quaternion's operator*= and operator*: the Hamilton product of two
      unit quaternions is a unit quaternion without renormalising. */
  function UnitMul(p: UnitQuaternion, q: UnitQuaternion): (r: UnitQuaternion)
    ensures r == Mul(p, q)
  {
    NormMultiplicative(p, q);
    Mul(p, q)
  }

  /** The squared norm of a pure quaternion is the squared length of its vector part. */
  lemma PureNorm(s: Quaternion)
    requires s.w == 0.0
    ensures Norm2(s) == Dot(QuatToVec(s), QuatToVec(s))
  {
  }
}
