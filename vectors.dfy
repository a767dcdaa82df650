/**
 * inc/vec3.h: the three-component vector, its compound assignments, dot and
 * cross products, the free arithmetic operators, and the matrix helpers
 * outer, skew and vex. The older vec3.h declares the same vector with the
 * same operations (without magnitude and the matrix helpers); this module
 * models both.
 *
 * Vec3 is a value type that every free operator copies, so a compound
 * assignment `u op= v` is modelled as the function giving the value u holds
 * afterwards.
 */
module Vectors {
  import opened Wrappers
  import opened Reals
  import opened Matrices

  datatype Vec3 = Vec3(x: real, y: real, z: real) {

    /** operator[]: None stands for the failed `assert(0)` on an index past 2. */
    function At(i: nat): (r: Option<real>)
      ensures r.Some? <==> i < 3
    {
      if i == 0 then Some(x) else if i == 1 then Some(y) else if i == 2 then Some(z) else None
    }

    /** operator+= */
    function AddAssign(v: Vec3): Vec3
    {
      Vec3(x + v.x, y + v.y, z + v.z)
    }

    /** operator-= */
    function SubAssign(v: Vec3): Vec3
    {
      Vec3(x - v.x, y - v.y, z - v.z)
    }

    /** operator*= with a scalar */
    function MulAssign(a: real): Vec3
    {
      Vec3(x * a, y * a, z * a)
    }

    /** operator/= with a scalar */
    function DivAssign(a: real): Vec3
      requires a != 0.0
    {
      Vec3(x / a, y / a, z / a)
    }
  }

  const Zero := Vec3(0.0, 0.0, 0.0)

  /** Indexing recovers the three components, and only they are indexable. */
  lemma AtRecoversComponents(u: Vec3)
    ensures Vec3(u.At(0).value, u.At(1).value, u.At(2).value) == u
    ensures forall i: nat :: 3 <= i ==> u.At(i) == None
  {
  }

  /* dot, cross, outer and skew index their operands with [0], [1], [2];
     by AtRecoversComponents these are x, y and z, which the model uses. */

  function Dot(u: Vec3, v: Vec3): real
  {
    u.x * v.x + u.y * v.y + u.z * v.z
  }

  lemma DotSymmetric(u: Vec3, v: Vec3)
    ensures Dot(u, v) == Dot(v, u)
  {
  }

  /** dot(u, u) is the squared length: zero only for the zero vector. */
  lemma DotSelfPositive(u: Vec3)
    ensures Dot(u, u) >= 0.0
    ensures u != Zero <==> Dot(u, u) > 0.0
  {
    SqFacts(u.x);
    SqFacts(u.y);
    SqFacts(u.z);
    assert Dot(u, u) == Sq(u.x) + Sq(u.y) + Sq(u.z);
    if u.x == 0.0 && u.y == 0.0 && u.z == 0.0 {
      assert u == Zero;
    }
  }

  function Cross(u: Vec3, v: Vec3): Vec3
  {
    Vec3(u.y * v.z - v.y * u.z, v.x * u.z - u.x * v.z, u.x * v.y - v.x * u.y)
  }

  lemma CrossAntiCommutative(u: Vec3, v: Vec3)
    ensures Cross(u, v) == Cross(v, u).MulAssign(-1.0)
  {
  }

  lemma CrossSelfZero(u: Vec3)
    ensures Cross(u, u) == Zero
  {
  }

  /** The cross product is orthogonal to both of its operands. */
  lemma CrossOrthogonal(u: Vec3, v: Vec3)
    ensures Dot(u, Cross(u, v)) == 0.0
    ensures Dot(v, Cross(u, v)) == 0.0
  {
  }

  /** operator+: copies u and applies +=; subtraction undoes it. */
  function Add(u: Vec3, v: Vec3): (r: Vec3)
    ensures r.SubAssign(v) == u
  {
    u.AddAssign(v)
  }

  lemma AddCommutative(u: Vec3, v: Vec3)
    ensures Add(u, v) == Add(v, u)
  {
  }

  /** operator-: copies u and applies -=; addition undoes it. */
  function Sub(u: Vec3, v: Vec3): (r: Vec3)
    ensures r.AddAssign(v) == u
  {
    u.SubAssign(v)
  }

  /** operator*(u, a): copies u and applies *=. */
  function Scale(u: Vec3, a: real): (r: Vec3)
    ensures a != 0.0 ==> r.DivAssign(a) == u
  {
    u.MulAssign(a)
  }

  /** operator*(a, u): the same as u * a. */
  function ScaleLeft(a: real, u: Vec3): (r: Vec3)
    ensures r == Scale(u, a)
  {
    u.MulAssign(a)
  }

  /** operator/(u, a): copies u and applies /=; scaling by a undoes it. */
  function Div(u: Vec3, a: real): (r: Vec3)
    requires a != 0.0
    ensures r.MulAssign(a) == u
  {
    u.DivAssign(a)
  }

  /** operator/(a, u): also copies u and divides it by a, so a / u is u / a. */
  function DivLeft(a: real, u: Vec3): (r: Vec3)
    requires a != 0.0
    ensures r == Div(u, a)
  {
    u.DivAssign(a)
  }

  /** magnitude(): the length, through the square root. */
  function Magnitude(sqrt: real -> real, u: Vec3): (r: real)
    requires IsSqrt(sqrt)
    ensures 0.0 <= r && Sq(r) == Dot(u, u)
    ensures u != Zero <==> r > 0.0
  {
    MagnitudeFacts(sqrt, u);
    sqrt(u.x * u.x + u.y * u.y + u.z * u.z)
  }

  lemma MagnitudeFacts(sqrt: real -> real, u: Vec3)
    requires IsSqrt(sqrt)
    ensures 0.0 <= sqrt(Dot(u, u)) && Sq(sqrt(Dot(u, u))) == Dot(u, u)
    ensures u != Zero <==> sqrt(Dot(u, u)) > 0.0
  {
    DotSelfPositive(u);
    var r := sqrt(Dot(u, u));
    assert 0.0 <= r && Sq(r) == Dot(u, u);
    SqFacts(r);
  }

  /** Matrix-vector product: the linear map a Mat3 represents; used only to
      say what skew and vex mean. */
  ghost function Apply(M: Mat3, v: Vec3): Vec3
    reads M, M.A
    requires M.Valid()
  {
    Vec3(M.At(0, 0).value * v.x + M.At(0, 1).value * v.y + M.At(0, 2).value * v.z,
         M.At(1, 0).value * v.x + M.At(1, 1).value * v.y + M.At(1, 2).value * v.z,
         M.At(2, 0).value * v.x + M.At(2, 1).value * v.y + M.At(2, 2).value * v.z)
  }

  ghost predicate IsSkewSymmetric(M: Mat3)
    reads M, M.A
    requires M.Valid()
  {
    forall i: nat, j: nat :: i < 3 && j < 3 ==> M.At(i, j).value == -M.At(j, i).value
  }

  /** outer(u, v): entry (i, j) is u[i] * v[j]; its trace is dot(u, v). */
  method Outer(u: Vec3, v: Vec3) returns (M: Mat3)
    ensures fresh(M) && fresh(M.A) && M.Valid()
    ensures forall i: nat, j: nat :: i < 3 && j < 3 ==>
      M.At(i, j).value == u.At(i).value * v.At(j).value
    ensures M.At(0, 0).value + M.At(1, 1).value + M.At(2, 2).value == Dot(u, v)
  {
    var rows := seq(3, (i: nat) requires i < 3 => seq(3, (j: nat) requires j < 3 => u.At(i).value * v.At(j).value));
    M := new Mat3.FromRows(rows);
    OuterTrace(M, u, v);
  }

  /** The diagonal of outer(u, v) sums to dot(u, v). */
  lemma OuterTrace(M: Mat3, u: Vec3, v: Vec3)
    requires M.Valid()
    requires forall i: nat, j: nat :: i < 3 && j < 3 ==>
      M.At(i, j).value == u.At(i).value * v.At(j).value
    ensures M.At(0, 0).value + M.At(1, 1).value + M.At(2, 2).value == Dot(u, v)
  {
    assert M.At(0, 0).value == u.x * v.x by {
      MulEqual(u.At(0).value, v.At(0).value, u.x, v.x);
    }
    assert M.At(1, 1).value == u.y * v.y by {
      MulEqual(u.At(1).value, v.At(1).value, u.y, v.y);
    }
    assert M.At(2, 2).value == u.z * v.z by {
      MulEqual(u.At(2).value, v.At(2).value, u.z, v.z);
    }
  }

  /** skew(u): zero diagonal, antisymmetric, and the matrix of v |-> cross(u, v);
      the corrected vex recovers u from it. */
  method Skew(u: Vec3) returns (M: Mat3)
    ensures fresh(M) && fresh(M.A) && M.Valid()
    ensures forall i: nat :: i < 3 ==> M.At(i, i) == Some(0.0)
    ensures IsSkewSymmetric(M)
    ensures Vex(M) == u
    ensures forall v :: Apply(M, v) == Cross(u, v)
  {
    M := new Mat3.FromRows([[0.0, -u.z, u.y], [u.z, 0.0, -u.x], [-u.y, u.x, 0.0]]);
    SkewEntries(M, u);
  }

  /** A matrix holding the entries skew(u) writes is skew-symmetric. */
  lemma SkewEntries(M: Mat3, u: Vec3)
    requires M.Valid()
    requires forall i: nat, j: nat :: i < 3 && j < 3 ==>
      M.At(i, j) == Some([[0.0, -u.z, u.y], [u.z, 0.0, -u.x], [-u.y, u.x, 0.0]][i][j])
    ensures forall i: nat :: i < 3 ==> M.At(i, i) == Some(0.0)
    ensures IsSkewSymmetric(M)
    ensures Vex(M) == u
  {
    var rows := [[0.0, -u.z, u.y], [u.z, 0.0, -u.x], [-u.y, u.x, 0.0]];
    assert M.At(0, 1) == Some(rows[0][1]) && M.At(1, 0) == Some(rows[1][0]);
    assert M.At(0, 2) == Some(rows[0][2]) && M.At(2, 0) == Some(rows[2][0]);
    assert M.At(1, 2) == Some(rows[1][2]) && M.At(2, 1) == Some(rows[2][1]);
    assert M.At(0, 0) == Some(rows[0][0]) && M.At(1, 1) == Some(rows[1][1]) && M.At(2, 2) == Some(rows[2][2]);
  }

  /** vex as the source writes it: it reads M(2,1), M(3,1) and M(3,2); the
      last two fail the accessor's assertion, so no matrix has a result. */
  function VexAsWritten(M: Mat3): (r: Option<Vec3>)
    reads M, M.A
    requires M.Valid()
    ensures r == None
  {
    Gather(M.At(2, 1), M.At(3, 1), M.At(3, 2))
  }

  /** Three accessor outcomes as one vector: None if any access failed. */
  function Gather(a: Option<real>, b: Option<real>, c: Option<real>): Option<Vec3>
  {
    if a.Some? && b.Some? && c.Some? then Some(Vec3(a.value, b.value, c.value)) else None
  }

  /** vex as evidently intended: (M(2,1), M(0,2), M(1,0)), the inverse of
      skew: on a skew-symmetric M, M v is cross(vex(M), v) for every v. */
  function Vex(M: Mat3): (r: Vec3)
    reads M, M.A
    requires M.Valid()
    ensures IsSkewSymmetric(M) ==> forall v :: Apply(M, v) == Cross(r, v)
  {
    Vec3(M.At(2, 1).value, M.At(0, 2).value, M.At(1, 0).value)
  }
}
