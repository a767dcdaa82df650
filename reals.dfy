/**
 * Facts about the scalar type. The library is a template over a floating
 * point type T; the model takes T to be `real`.
 *
 * The square root the library takes from the C library (std::sqrt) is foreign
 * code. The model receives it as a parameter `sqrt` and assumes of it only what
 * IsSqrt states: on non-negative arguments it yields the non-negative root.
 */
module Reals {

  /** The square of a real; positivity facts are stated over this term. */
  function Sq(a: real): real
  {
    a * a
  }

  /** A square is non-negative, and positive exactly when its base is non-zero. */
  lemma SqFacts(a: real)
    ensures 0.0 <= Sq(a)
    ensures a != 0.0 <==> 0.0 < Sq(a)
  {
    if a > 0.0 {
      calc { 0.0; < { MulPositive(a, a); } a * a; == Sq(a); }
    } else if a < 0.0 {
      calc { 0.0; < { MulPositive(-a, -a); } (-a) * (-a); == Sq(a); }
    }
  }

  lemma MulPositive(a: real, b: real)
    requires 0.0 < a && 0.0 < b
    ensures 0.0 < a * b
  {
  }

  lemma MulNonNegative(a: real, b: real)
    requires 0.0 <= a && 0.0 <= b
    ensures 0.0 <= a * b
  {
    if 0.0 < a && 0.0 < b {
      MulPositive(a, b);
    }
  }

  /** Multiplying equals by the same factor gives equals (on either side). */
  lemma MulCongruent(a: real, b: real, c: real)
    requires a == b
    ensures a * c == b * c && c * a == c * b
  {
  }

  /** Products of equal factors are equal. */
  lemma MulEqual(a: real, b: real, c: real, d: real)
    requires a == c && b == d
    ensures a * b == c * d
  {
  }

  ghost predicate IsSqrt(sqrt: real -> real) {
    forall x :: 0.0 <= x ==> 0.0 <= sqrt(x) && Sq(sqrt(x)) == x
  }

  /** What the model assumes of std::cos and std::sin, received as parameters
      like the square root: they satisfy cos^2 + sin^2 = 1 at every angle. */
  ghost predicate IsCosSin(cos: real -> real, sin: real -> real) {
    forall a :: Sq(cos(a)) + Sq(sin(a)) == 1.0
  }

  /** A root of a positive number is positive. */
  lemma RootPositive(sqrt: real -> real, x: real)
    requires IsSqrt(sqrt) && 0.0 < x
    ensures 0.0 < sqrt(x)
  {
    assert 0.0 <= sqrt(x) && Sq(sqrt(x)) == x;
  }

  /** The root of the square of a non-negative number is that number. */
  lemma RootOfSquare(sqrt: real -> real, r: real)
    requires IsSqrt(sqrt) && 0.0 <= r
    ensures sqrt(Sq(r)) == r
  {
    SqFacts(r);
    var s := sqrt(Sq(r));
    assert 0.0 <= s && Sq(s) == Sq(r);
    if s < r {
      SquareStrictlyIncreasing(s, r);
    } else if r < s {
      SquareStrictlyIncreasing(r, s);
    }
  }

  lemma SquareStrictlyIncreasing(lo: real, hi: real)
    requires 0.0 <= lo < hi
    ensures Sq(lo) < Sq(hi)
  {
    var d := hi - lo;
    assert hi * hi == lo * lo + 2.0 * lo * d + d * d;
    MulNonNegative(lo, d);
    SqFacts(d);
  }

  lemma RootOfOne(sqrt: real -> real)
    requires IsSqrt(sqrt)
    ensures sqrt(1.0) == 1.0
  {
    RootOfSquare(sqrt, 1.0);
  }

  lemma RootOfZero(sqrt: real -> real)
    requires IsSqrt(sqrt)
    ensures sqrt(0.0) == 0.0
  {
    RootOfSquare(sqrt, 0.0);
  }
}
