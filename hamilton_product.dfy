/**
 * Associativity of the Hamilton product (inc/quaternion.h:78-87 and
 * quaternion.h:28-37). Both sides of (p q) r = p (q r) are expanded, one
 * component at a time, into the same sum of sixteen products p.i * q.j * r.k.
 * Each expansion step replaces one product by the sum it equals, so that every
 * step is a small linear fact about fixed products.
 */
module HamiltonProduct {
  import opened Quaternions

  /* s.a * r.b and p.a * t.b, for s = p q and t = q r, multiplied out. */

  lemma ExpandLeftWW(s: Quaternion, p: Quaternion, q: Quaternion, r: Quaternion)
    requires s.w == p.w * q.w - p.x * q.x - p.y * q.y - p.z * q.z
    ensures s.w * r.w == p.w * q.w * r.w - p.x * q.x * r.w - p.y * q.y * r.w - p.z * q.z * r.w
  {
  }

  lemma ExpandRightWW(t: Quaternion, p: Quaternion, q: Quaternion, r: Quaternion)
    requires t.w == q.w * r.w - q.x * r.x - q.y * r.y - q.z * r.z
    ensures p.w * t.w == p.w * q.w * r.w - p.w * q.x * r.x - p.w * q.y * r.y - p.w * q.z * r.z
  {
  }

  lemma ExpandLeftWX(s: Quaternion, p: Quaternion, q: Quaternion, r: Quaternion)
    requires s.w == p.w * q.w - p.x * q.x - p.y * q.y - p.z * q.z
    ensures s.w * r.x == p.w * q.w * r.x - p.x * q.x * r.x - p.y * q.y * r.x - p.z * q.z * r.x
  {
  }

  lemma ExpandRightWX(t: Quaternion, p: Quaternion, q: Quaternion, r: Quaternion)
    requires t.x == q.w * r.x + r.w * q.x + q.y * r.z - r.y * q.z
    ensures p.w * t.x == p.w * q.w * r.x + p.w * q.x * r.w + p.w * q.y * r.z - p.w * q.z * r.y
  {
  }

  lemma ExpandLeftWY(s: Quaternion, p: Quaternion, q: Quaternion, r: Quaternion)
    requires s.w == p.w * q.w - p.x * q.x - p.y * q.y - p.z * q.z
    ensures s.w * r.y == p.w * q.w * r.y - p.x * q.x * r.y - p.y * q.y * r.y - p.z * q.z * r.y
  {
  }

  lemma ExpandRightWY(t: Quaternion, p: Quaternion, q: Quaternion, r: Quaternion)
    requires t.y == q.w * r.y + r.w * q.y - q.x * r.z + r.x * q.z
    ensures p.w * t.y == p.w * q.w * r.y + p.w * q.y * r.w - p.w * q.x * r.z + p.w * q.z * r.x
  {
  }

  lemma ExpandLeftWZ(s: Quaternion, p: Quaternion, q: Quaternion, r: Quaternion)
    requires s.w == p.w * q.w - p.x * q.x - p.y * q.y - p.z * q.z
    ensures s.w * r.z == p.w * q.w * r.z - p.x * q.x * r.z - p.y * q.y * r.z - p.z * q.z * r.z
  {
  }

  lemma ExpandRightWZ(t: Quaternion, p: Quaternion, q: Quaternion, r: Quaternion)
    requires t.z == q.w * r.z + r.w * q.z + q.x * r.y - r.x * q.y
    ensures p.w * t.z == p.w * q.w * r.z + p.w * q.z * r.w + p.w * q.x * r.y - p.w * q.y * r.x
  {
  }

  lemma ExpandLeftXW(s: Quaternion, p: Quaternion, q: Quaternion, r: Quaternion)
    requires s.x == p.w * q.x + q.w * p.x + p.y * q.z - q.y * p.z
    ensures s.x * r.w == p.w * q.x * r.w + p.x * q.w * r.w + p.y * q.z * r.w - p.z * q.y * r.w
  {
  }

  lemma ExpandRightXW(t: Quaternion, p: Quaternion, q: Quaternion, r: Quaternion)
    requires t.w == q.w * r.w - q.x * r.x - q.y * r.y - q.z * r.z
    ensures p.x * t.w == p.x * q.w * r.w - p.x * q.x * r.x - p.x * q.y * r.y - p.x * q.z * r.z
  {
  }

  lemma ExpandLeftXX(s: Quaternion, p: Quaternion, q: Quaternion, r: Quaternion)
    requires s.x == p.w * q.x + q.w * p.x + p.y * q.z - q.y * p.z
    ensures s.x * r.x == p.w * q.x * r.x + p.x * q.w * r.x + p.y * q.z * r.x - p.z * q.y * r.x
  {
  }

  lemma ExpandRightXX(t: Quaternion, p: Quaternion, q: Quaternion, r: Quaternion)
    requires t.x == q.w * r.x + r.w * q.x + q.y * r.z - r.y * q.z
    ensures p.x * t.x == p.x * q.w * r.x + p.x * q.x * r.w + p.x * q.y * r.z - p.x * q.z * r.y
  {
  }

  lemma ExpandLeftXY(s: Quaternion, p: Quaternion, q: Quaternion, r: Quaternion)
    requires s.x == p.w * q.x + q.w * p.x + p.y * q.z - q.y * p.z
    ensures s.x * r.y == p.w * q.x * r.y + p.x * q.w * r.y + p.y * q.z * r.y - p.z * q.y * r.y
  {
  }

  lemma ExpandRightXY(t: Quaternion, p: Quaternion, q: Quaternion, r: Quaternion)
    requires t.y == q.w * r.y + r.w * q.y - q.x * r.z + r.x * q.z
    ensures p.x * t.y == p.x * q.w * r.y + p.x * q.y * r.w - p.x * q.x * r.z + p.x * q.z * r.x
  {
  }

  lemma ExpandLeftXZ(s: Quaternion, p: Quaternion, q: Quaternion, r: Quaternion)
    requires s.x == p.w * q.x + q.w * p.x + p.y * q.z - q.y * p.z
    ensures s.x * r.z == p.w * q.x * r.z + p.x * q.w * r.z + p.y * q.z * r.z - p.z * q.y * r.z
  {
  }

  lemma ExpandRightXZ(t: Quaternion, p: Quaternion, q: Quaternion, r: Quaternion)
    requires t.z == q.w * r.z + r.w * q.z + q.x * r.y - r.x * q.y
    ensures p.x * t.z == p.x * q.w * r.z + p.x * q.z * r.w + p.x * q.x * r.y - p.x * q.y * r.x
  {
  }

  lemma ExpandLeftYW(s: Quaternion, p: Quaternion, q: Quaternion, r: Quaternion)
    requires s.y == p.w * q.y + q.w * p.y - p.x * q.z + q.x * p.z
    ensures s.y * r.w == p.w * q.y * r.w + p.y * q.w * r.w - p.x * q.z * r.w + p.z * q.x * r.w
  {
  }

  lemma ExpandRightYW(t: Quaternion, p: Quaternion, q: Quaternion, r: Quaternion)
    requires t.w == q.w * r.w - q.x * r.x - q.y * r.y - q.z * r.z
    ensures p.y * t.w == p.y * q.w * r.w - p.y * q.x * r.x - p.y * q.y * r.y - p.y * q.z * r.z
  {
  }

  lemma ExpandLeftYX(s: Quaternion, p: Quaternion, q: Quaternion, r: Quaternion)
    requires s.y == p.w * q.y + q.w * p.y - p.x * q.z + q.x * p.z
    ensures s.y * r.x == p.w * q.y * r.x + p.y * q.w * r.x - p.x * q.z * r.x + p.z * q.x * r.x
  {
  }

  lemma ExpandRightYX(t: Quaternion, p: Quaternion, q: Quaternion, r: Quaternion)
    requires t.x == q.w * r.x + r.w * q.x + q.y * r.z - r.y * q.z
    ensures p.y * t.x == p.y * q.w * r.x + p.y * q.x * r.w + p.y * q.y * r.z - p.y * q.z * r.y
  {
  }

  lemma ExpandLeftYY(s: Quaternion, p: Quaternion, q: Quaternion, r: Quaternion)
    requires s.y == p.w * q.y + q.w * p.y - p.x * q.z + q.x * p.z
    ensures s.y * r.y == p.w * q.y * r.y + p.y * q.w * r.y - p.x * q.z * r.y + p.z * q.x * r.y
  {
  }

  lemma ExpandRightYY(t: Quaternion, p: Quaternion, q: Quaternion, r: Quaternion)
    requires t.y == q.w * r.y + r.w * q.y - q.x * r.z + r.x * q.z
    ensures p.y * t.y == p.y * q.w * r.y + p.y * q.y * r.w - p.y * q.x * r.z + p.y * q.z * r.x
  {
  }

  lemma ExpandLeftYZ(s: Quaternion, p: Quaternion, q: Quaternion, r: Quaternion)
    requires s.y == p.w * q.y + q.w * p.y - p.x * q.z + q.x * p.z
    ensures s.y * r.z == p.w * q.y * r.z + p.y * q.w * r.z - p.x * q.z * r.z + p.z * q.x * r.z
  {
  }

  lemma ExpandRightYZ(t: Quaternion, p: Quaternion, q: Quaternion, r: Quaternion)
    requires t.z == q.w * r.z + r.w * q.z + q.x * r.y - r.x * q.y
    ensures p.y * t.z == p.y * q.w * r.z + p.y * q.z * r.w + p.y * q.x * r.y - p.y * q.y * r.x
  {
  }

  lemma ExpandLeftZW(s: Quaternion, p: Quaternion, q: Quaternion, r: Quaternion)
    requires s.z == p.w * q.z + q.w * p.z + p.x * q.y - q.x * p.y
    ensures s.z * r.w == p.w * q.z * r.w + p.z * q.w * r.w + p.x * q.y * r.w - p.y * q.x * r.w
  {
  }

  lemma ExpandRightZW(t: Quaternion, p: Quaternion, q: Quaternion, r: Quaternion)
    requires t.w == q.w * r.w - q.x * r.x - q.y * r.y - q.z * r.z
    ensures p.z * t.w == p.z * q.w * r.w - p.z * q.x * r.x - p.z * q.y * r.y - p.z * q.z * r.z
  {
  }

  lemma ExpandLeftZX(s: Quaternion, p: Quaternion, q: Quaternion, r: Quaternion)
    requires s.z == p.w * q.z + q.w * p.z + p.x * q.y - q.x * p.y
    ensures s.z * r.x == p.w * q.z * r.x + p.z * q.w * r.x + p.x * q.y * r.x - p.y * q.x * r.x
  {
  }

  lemma ExpandRightZX(t: Quaternion, p: Quaternion, q: Quaternion, r: Quaternion)
    requires t.x == q.w * r.x + r.w * q.x + q.y * r.z - r.y * q.z
    ensures p.z * t.x == p.z * q.w * r.x + p.z * q.x * r.w + p.z * q.y * r.z - p.z * q.z * r.y
  {
  }

  lemma ExpandLeftZY(s: Quaternion, p: Quaternion, q: Quaternion, r: Quaternion)
    requires s.z == p.w * q.z + q.w * p.z + p.x * q.y - q.x * p.y
    ensures s.z * r.y == p.w * q.z * r.y + p.z * q.w * r.y + p.x * q.y * r.y - p.y * q.x * r.y
  {
  }

  lemma ExpandRightZY(t: Quaternion, p: Quaternion, q: Quaternion, r: Quaternion)
    requires t.y == q.w * r.y + r.w * q.y - q.x * r.z + r.x * q.z
    ensures p.z * t.y == p.z * q.w * r.y + p.z * q.y * r.w - p.z * q.x * r.z + p.z * q.z * r.x
  {
  }

  lemma ExpandLeftZZ(s: Quaternion, p: Quaternion, q: Quaternion, r: Quaternion)
    requires s.z == p.w * q.z + q.w * p.z + p.x * q.y - q.x * p.y
    ensures s.z * r.z == p.w * q.z * r.z + p.z * q.w * r.z + p.x * q.y * r.z - p.y * q.x * r.z
  {
  }

  lemma ExpandRightZZ(t: Quaternion, p: Quaternion, q: Quaternion, r: Quaternion)
    requires t.z == q.w * r.z + r.w * q.z + q.x * r.y - r.x * q.y
    ensures p.z * t.z == p.z * q.w * r.z + p.z * q.z * r.w + p.z * q.x * r.y - p.z * q.y * r.x
  {
  }

  /** Component w of s r, for s = p q, multiplied out. */
  lemma LeftTripleW(s: Quaternion, p: Quaternion, q: Quaternion, r: Quaternion)
    requires s.w * r.w == p.w * q.w * r.w - p.x * q.x * r.w - p.y * q.y * r.w - p.z * q.z * r.w
    requires s.x * r.x == p.w * q.x * r.x + p.x * q.w * r.x + p.y * q.z * r.x - p.z * q.y * r.x
    requires s.y * r.y == p.w * q.y * r.y + p.y * q.w * r.y - p.x * q.z * r.y + p.z * q.x * r.y
    requires s.z * r.z == p.w * q.z * r.z + p.z * q.w * r.z + p.x * q.y * r.z - p.y * q.x * r.z
    ensures (s.w * r.w) - (s.x * r.x) - (s.y * r.y) - (s.z * r.z) == p.w * q.w * r.w - p.w * q.x * r.x - p.w * q.y * r.y - p.w * q.z * r.z - p.x * q.w * r.x - p.x * q.x * r.w - p.x * q.y * r.z + p.x * q.z * r.y - p.y * q.w * r.y + p.y * q.x * r.z - p.y * q.y * r.w - p.y * q.z * r.x - p.z * q.w * r.z - p.z * q.x * r.y + p.z * q.y * r.x - p.z * q.z * r.w
  {
    calc {
      (s.w * r.w) - (s.x * r.x) - (s.y * r.y) - (s.z * r.z);
      (p.w * q.w * r.w - p.x * q.x * r.w - p.y * q.y * r.w - p.z * q.z * r.w) - (s.x * r.x) - (s.y * r.y) - (s.z * r.z);
      (p.w * q.w * r.w - p.x * q.x * r.w - p.y * q.y * r.w - p.z * q.z * r.w) - (p.w * q.x * r.x + p.x * q.w * r.x + p.y * q.z * r.x - p.z * q.y * r.x) - (s.y * r.y) - (s.z * r.z);
      (p.w * q.w * r.w - p.x * q.x * r.w - p.y * q.y * r.w - p.z * q.z * r.w) - (p.w * q.x * r.x + p.x * q.w * r.x + p.y * q.z * r.x - p.z * q.y * r.x) - (p.w * q.y * r.y + p.y * q.w * r.y - p.x * q.z * r.y + p.z * q.x * r.y) - (s.z * r.z);
      (p.w * q.w * r.w - p.x * q.x * r.w - p.y * q.y * r.w - p.z * q.z * r.w) - (p.w * q.x * r.x + p.x * q.w * r.x + p.y * q.z * r.x - p.z * q.y * r.x) - (p.w * q.y * r.y + p.y * q.w * r.y - p.x * q.z * r.y + p.z * q.x * r.y) - (p.w * q.z * r.z + p.z * q.w * r.z + p.x * q.y * r.z - p.y * q.x * r.z);
      p.w * q.w * r.w - p.w * q.x * r.x - p.w * q.y * r.y - p.w * q.z * r.z - p.x * q.w * r.x - p.x * q.x * r.w - p.x * q.y * r.z + p.x * q.z * r.y - p.y * q.w * r.y + p.y * q.x * r.z - p.y * q.y * r.w - p.y * q.z * r.x - p.z * q.w * r.z - p.z * q.x * r.y + p.z * q.y * r.x - p.z * q.z * r.w;
    }
  }

  /** Component x of s r, for s = p q, multiplied out. */
  lemma LeftTripleX(s: Quaternion, p: Quaternion, q: Quaternion, r: Quaternion)
    requires s.w * r.x == p.w * q.w * r.x - p.x * q.x * r.x - p.y * q.y * r.x - p.z * q.z * r.x
    requires s.x * r.w == p.w * q.x * r.w + p.x * q.w * r.w + p.y * q.z * r.w - p.z * q.y * r.w
    requires s.y * r.z == p.w * q.y * r.z + p.y * q.w * r.z - p.x * q.z * r.z + p.z * q.x * r.z
    requires s.z * r.y == p.w * q.z * r.y + p.z * q.w * r.y + p.x * q.y * r.y - p.y * q.x * r.y
    ensures (s.w * r.x) + (s.x * r.w) + (s.y * r.z) - (s.z * r.y) == p.w * q.w * r.x + p.w * q.x * r.w + p.w * q.y * r.z - p.w * q.z * r.y + p.x * q.w * r.w - p.x * q.x * r.x - p.x * q.y * r.y - p.x * q.z * r.z + p.y * q.w * r.z + p.y * q.x * r.y - p.y * q.y * r.x + p.y * q.z * r.w - p.z * q.w * r.y + p.z * q.x * r.z - p.z * q.y * r.w - p.z * q.z * r.x
  {
    calc {
      (s.w * r.x) + (s.x * r.w) + (s.y * r.z) - (s.z * r.y);
      (p.w * q.w * r.x - p.x * q.x * r.x - p.y * q.y * r.x - p.z * q.z * r.x) + (s.x * r.w) + (s.y * r.z) - (s.z * r.y);
      (p.w * q.w * r.x - p.x * q.x * r.x - p.y * q.y * r.x - p.z * q.z * r.x) + (p.w * q.x * r.w + p.x * q.w * r.w + p.y * q.z * r.w - p.z * q.y * r.w) + (s.y * r.z) - (s.z * r.y);
      (p.w * q.w * r.x - p.x * q.x * r.x - p.y * q.y * r.x - p.z * q.z * r.x) + (p.w * q.x * r.w + p.x * q.w * r.w + p.y * q.z * r.w - p.z * q.y * r.w) + (p.w * q.y * r.z + p.y * q.w * r.z - p.x * q.z * r.z + p.z * q.x * r.z) - (s.z * r.y);
      (p.w * q.w * r.x - p.x * q.x * r.x - p.y * q.y * r.x - p.z * q.z * r.x) + (p.w * q.x * r.w + p.x * q.w * r.w + p.y * q.z * r.w - p.z * q.y * r.w) + (p.w * q.y * r.z + p.y * q.w * r.z - p.x * q.z * r.z + p.z * q.x * r.z) - (p.w * q.z * r.y + p.z * q.w * r.y + p.x * q.y * r.y - p.y * q.x * r.y);
      p.w * q.w * r.x + p.w * q.x * r.w + p.w * q.y * r.z - p.w * q.z * r.y + p.x * q.w * r.w - p.x * q.x * r.x - p.x * q.y * r.y - p.x * q.z * r.z + p.y * q.w * r.z + p.y * q.x * r.y - p.y * q.y * r.x + p.y * q.z * r.w - p.z * q.w * r.y + p.z * q.x * r.z - p.z * q.y * r.w - p.z * q.z * r.x;
    }
  }

  /** Component y of s r, for s = p q, multiplied out. */
  lemma LeftTripleY(s: Quaternion, p: Quaternion, q: Quaternion, r: Quaternion)
    requires s.w * r.y == p.w * q.w * r.y - p.x * q.x * r.y - p.y * q.y * r.y - p.z * q.z * r.y
    requires s.y * r.w == p.w * q.y * r.w + p.y * q.w * r.w - p.x * q.z * r.w + p.z * q.x * r.w
    requires s.x * r.z == p.w * q.x * r.z + p.x * q.w * r.z + p.y * q.z * r.z - p.z * q.y * r.z
    requires s.z * r.x == p.w * q.z * r.x + p.z * q.w * r.x + p.x * q.y * r.x - p.y * q.x * r.x
    ensures (s.w * r.y) + (s.y * r.w) - (s.x * r.z) + (s.z * r.x) == p.w * q.w * r.y - p.w * q.x * r.z + p.w * q.y * r.w + p.w * q.z * r.x - p.x * q.w * r.z - p.x * q.x * r.y + p.x * q.y * r.x - p.x * q.z * r.w + p.y * q.w * r.w - p.y * q.x * r.x - p.y * q.y * r.y - p.y * q.z * r.z + p.z * q.w * r.x + p.z * q.x * r.w + p.z * q.y * r.z - p.z * q.z * r.y
  {
    calc {
      (s.w * r.y) + (s.y * r.w) - (s.x * r.z) + (s.z * r.x);
      (p.w * q.w * r.y - p.x * q.x * r.y - p.y * q.y * r.y - p.z * q.z * r.y) + (s.y * r.w) - (s.x * r.z) + (s.z * r.x);
      (p.w * q.w * r.y - p.x * q.x * r.y - p.y * q.y * r.y - p.z * q.z * r.y) + (p.w * q.y * r.w + p.y * q.w * r.w - p.x * q.z * r.w + p.z * q.x * r.w) - (s.x * r.z) + (s.z * r.x);
      (p.w * q.w * r.y - p.x * q.x * r.y - p.y * q.y * r.y - p.z * q.z * r.y) + (p.w * q.y * r.w + p.y * q.w * r.w - p.x * q.z * r.w + p.z * q.x * r.w) - (p.w * q.x * r.z + p.x * q.w * r.z + p.y * q.z * r.z - p.z * q.y * r.z) + (s.z * r.x);
      (p.w * q.w * r.y - p.x * q.x * r.y - p.y * q.y * r.y - p.z * q.z * r.y) + (p.w * q.y * r.w + p.y * q.w * r.w - p.x * q.z * r.w + p.z * q.x * r.w) - (p.w * q.x * r.z + p.x * q.w * r.z + p.y * q.z * r.z - p.z * q.y * r.z) + (p.w * q.z * r.x + p.z * q.w * r.x + p.x * q.y * r.x - p.y * q.x * r.x);
      p.w * q.w * r.y - p.w * q.x * r.z + p.w * q.y * r.w + p.w * q.z * r.x - p.x * q.w * r.z - p.x * q.x * r.y + p.x * q.y * r.x - p.x * q.z * r.w + p.y * q.w * r.w - p.y * q.x * r.x - p.y * q.y * r.y - p.y * q.z * r.z + p.z * q.w * r.x + p.z * q.x * r.w + p.z * q.y * r.z - p.z * q.z * r.y;
    }
  }

  /** Component z of s r, for s = p q, multiplied out. */
  lemma LeftTripleZ(s: Quaternion, p: Quaternion, q: Quaternion, r: Quaternion)
    requires s.w * r.z == p.w * q.w * r.z - p.x * q.x * r.z - p.y * q.y * r.z - p.z * q.z * r.z
    requires s.z * r.w == p.w * q.z * r.w + p.z * q.w * r.w + p.x * q.y * r.w - p.y * q.x * r.w
    requires s.x * r.y == p.w * q.x * r.y + p.x * q.w * r.y + p.y * q.z * r.y - p.z * q.y * r.y
    requires s.y * r.x == p.w * q.y * r.x + p.y * q.w * r.x - p.x * q.z * r.x + p.z * q.x * r.x
    ensures (s.w * r.z) + (s.z * r.w) + (s.x * r.y) - (s.y * r.x) == p.w * q.w * r.z + p.w * q.x * r.y - p.w * q.y * r.x + p.w * q.z * r.w + p.x * q.w * r.y - p.x * q.x * r.z + p.x * q.y * r.w + p.x * q.z * r.x - p.y * q.w * r.x - p.y * q.x * r.w - p.y * q.y * r.z + p.y * q.z * r.y + p.z * q.w * r.w - p.z * q.x * r.x - p.z * q.y * r.y - p.z * q.z * r.z
  {
    calc {
      (s.w * r.z) + (s.z * r.w) + (s.x * r.y) - (s.y * r.x);
      (p.w * q.w * r.z - p.x * q.x * r.z - p.y * q.y * r.z - p.z * q.z * r.z) + (s.z * r.w) + (s.x * r.y) - (s.y * r.x);
      (p.w * q.w * r.z - p.x * q.x * r.z - p.y * q.y * r.z - p.z * q.z * r.z) + (p.w * q.z * r.w + p.z * q.w * r.w + p.x * q.y * r.w - p.y * q.x * r.w) + (s.x * r.y) - (s.y * r.x);
      (p.w * q.w * r.z - p.x * q.x * r.z - p.y * q.y * r.z - p.z * q.z * r.z) + (p.w * q.z * r.w + p.z * q.w * r.w + p.x * q.y * r.w - p.y * q.x * r.w) + (p.w * q.x * r.y + p.x * q.w * r.y + p.y * q.z * r.y - p.z * q.y * r.y) - (s.y * r.x);
      (p.w * q.w * r.z - p.x * q.x * r.z - p.y * q.y * r.z - p.z * q.z * r.z) + (p.w * q.z * r.w + p.z * q.w * r.w + p.x * q.y * r.w - p.y * q.x * r.w) + (p.w * q.x * r.y + p.x * q.w * r.y + p.y * q.z * r.y - p.z * q.y * r.y) - (p.w * q.y * r.x + p.y * q.w * r.x - p.x * q.z * r.x + p.z * q.x * r.x);
      p.w * q.w * r.z + p.w * q.x * r.y - p.w * q.y * r.x + p.w * q.z * r.w + p.x * q.w * r.y - p.x * q.x * r.z + p.x * q.y * r.w + p.x * q.z * r.x - p.y * q.w * r.x - p.y * q.x * r.w - p.y * q.y * r.z + p.y * q.z * r.y + p.z * q.w * r.w - p.z * q.x * r.x - p.z * q.y * r.y - p.z * q.z * r.z;
    }
  }

  /** Component w of p t, for t = q r, multiplied out. */
  lemma RightTripleW(t: Quaternion, p: Quaternion, q: Quaternion, r: Quaternion)
    requires p.w * t.w == p.w * q.w * r.w - p.w * q.x * r.x - p.w * q.y * r.y - p.w * q.z * r.z
    requires p.x * t.x == p.x * q.w * r.x + p.x * q.x * r.w + p.x * q.y * r.z - p.x * q.z * r.y
    requires p.y * t.y == p.y * q.w * r.y + p.y * q.y * r.w - p.y * q.x * r.z + p.y * q.z * r.x
    requires p.z * t.z == p.z * q.w * r.z + p.z * q.z * r.w + p.z * q.x * r.y - p.z * q.y * r.x
    ensures (p.w * t.w) - (p.x * t.x) - (p.y * t.y) - (p.z * t.z) == p.w * q.w * r.w - p.w * q.x * r.x - p.w * q.y * r.y - p.w * q.z * r.z - p.x * q.w * r.x - p.x * q.x * r.w - p.x * q.y * r.z + p.x * q.z * r.y - p.y * q.w * r.y + p.y * q.x * r.z - p.y * q.y * r.w - p.y * q.z * r.x - p.z * q.w * r.z - p.z * q.x * r.y + p.z * q.y * r.x - p.z * q.z * r.w
  {
    calc {
      (p.w * t.w) - (p.x * t.x) - (p.y * t.y) - (p.z * t.z);
      (p.w * q.w * r.w - p.w * q.x * r.x - p.w * q.y * r.y - p.w * q.z * r.z) - (p.x * t.x) - (p.y * t.y) - (p.z * t.z);
      (p.w * q.w * r.w - p.w * q.x * r.x - p.w * q.y * r.y - p.w * q.z * r.z) - (p.x * q.w * r.x + p.x * q.x * r.w + p.x * q.y * r.z - p.x * q.z * r.y) - (p.y * t.y) - (p.z * t.z);
      (p.w * q.w * r.w - p.w * q.x * r.x - p.w * q.y * r.y - p.w * q.z * r.z) - (p.x * q.w * r.x + p.x * q.x * r.w + p.x * q.y * r.z - p.x * q.z * r.y) - (p.y * q.w * r.y + p.y * q.y * r.w - p.y * q.x * r.z + p.y * q.z * r.x) - (p.z * t.z);
      (p.w * q.w * r.w - p.w * q.x * r.x - p.w * q.y * r.y - p.w * q.z * r.z) - (p.x * q.w * r.x + p.x * q.x * r.w + p.x * q.y * r.z - p.x * q.z * r.y) - (p.y * q.w * r.y + p.y * q.y * r.w - p.y * q.x * r.z + p.y * q.z * r.x) - (p.z * q.w * r.z + p.z * q.z * r.w + p.z * q.x * r.y - p.z * q.y * r.x);
      p.w * q.w * r.w - p.w * q.x * r.x - p.w * q.y * r.y - p.w * q.z * r.z - p.x * q.w * r.x - p.x * q.x * r.w - p.x * q.y * r.z + p.x * q.z * r.y - p.y * q.w * r.y + p.y * q.x * r.z - p.y * q.y * r.w - p.y * q.z * r.x - p.z * q.w * r.z - p.z * q.x * r.y + p.z * q.y * r.x - p.z * q.z * r.w;
    }
  }

  /** Component x of p t, for t = q r, multiplied out. */
  lemma RightTripleX(t: Quaternion, p: Quaternion, q: Quaternion, r: Quaternion)
    requires p.w * t.x == p.w * q.w * r.x + p.w * q.x * r.w + p.w * q.y * r.z - p.w * q.z * r.y
    requires p.x * t.w == p.x * q.w * r.w - p.x * q.x * r.x - p.x * q.y * r.y - p.x * q.z * r.z
    requires p.y * t.z == p.y * q.w * r.z + p.y * q.z * r.w + p.y * q.x * r.y - p.y * q.y * r.x
    requires p.z * t.y == p.z * q.w * r.y + p.z * q.y * r.w - p.z * q.x * r.z + p.z * q.z * r.x
    ensures (p.w * t.x) + (p.x * t.w) + (p.y * t.z) - (p.z * t.y) == p.w * q.w * r.x + p.w * q.x * r.w + p.w * q.y * r.z - p.w * q.z * r.y + p.x * q.w * r.w - p.x * q.x * r.x - p.x * q.y * r.y - p.x * q.z * r.z + p.y * q.w * r.z + p.y * q.x * r.y - p.y * q.y * r.x + p.y * q.z * r.w - p.z * q.w * r.y + p.z * q.x * r.z - p.z * q.y * r.w - p.z * q.z * r.x
  {
    calc {
      (p.w * t.x) + (p.x * t.w) + (p.y * t.z) - (p.z * t.y);
      (p.w * q.w * r.x + p.w * q.x * r.w + p.w * q.y * r.z - p.w * q.z * r.y) + (p.x * t.w) + (p.y * t.z) - (p.z * t.y);
      (p.w * q.w * r.x + p.w * q.x * r.w + p.w * q.y * r.z - p.w * q.z * r.y) + (p.x * q.w * r.w - p.x * q.x * r.x - p.x * q.y * r.y - p.x * q.z * r.z) + (p.y * t.z) - (p.z * t.y);
      (p.w * q.w * r.x + p.w * q.x * r.w + p.w * q.y * r.z - p.w * q.z * r.y) + (p.x * q.w * r.w - p.x * q.x * r.x - p.x * q.y * r.y - p.x * q.z * r.z) + (p.y * q.w * r.z + p.y * q.z * r.w + p.y * q.x * r.y - p.y * q.y * r.x) - (p.z * t.y);
      (p.w * q.w * r.x + p.w * q.x * r.w + p.w * q.y * r.z - p.w * q.z * r.y) + (p.x * q.w * r.w - p.x * q.x * r.x - p.x * q.y * r.y - p.x * q.z * r.z) + (p.y * q.w * r.z + p.y * q.z * r.w + p.y * q.x * r.y - p.y * q.y * r.x) - (p.z * q.w * r.y + p.z * q.y * r.w - p.z * q.x * r.z + p.z * q.z * r.x);
      p.w * q.w * r.x + p.w * q.x * r.w + p.w * q.y * r.z - p.w * q.z * r.y + p.x * q.w * r.w - p.x * q.x * r.x - p.x * q.y * r.y - p.x * q.z * r.z + p.y * q.w * r.z + p.y * q.x * r.y - p.y * q.y * r.x + p.y * q.z * r.w - p.z * q.w * r.y + p.z * q.x * r.z - p.z * q.y * r.w - p.z * q.z * r.x;
    }
  }

  /** Component y of p t, for t = q r, multiplied out. */
  lemma RightTripleY(t: Quaternion, p: Quaternion, q: Quaternion, r: Quaternion)
    requires p.w * t.y == p.w * q.w * r.y + p.w * q.y * r.w - p.w * q.x * r.z + p.w * q.z * r.x
    requires p.y * t.w == p.y * q.w * r.w - p.y * q.x * r.x - p.y * q.y * r.y - p.y * q.z * r.z
    requires p.x * t.z == p.x * q.w * r.z + p.x * q.z * r.w + p.x * q.x * r.y - p.x * q.y * r.x
    requires p.z * t.x == p.z * q.w * r.x + p.z * q.x * r.w + p.z * q.y * r.z - p.z * q.z * r.y
    ensures (p.w * t.y) + (p.y * t.w) - (p.x * t.z) + (p.z * t.x) == p.w * q.w * r.y - p.w * q.x * r.z + p.w * q.y * r.w + p.w * q.z * r.x - p.x * q.w * r.z - p.x * q.x * r.y + p.x * q.y * r.x - p.x * q.z * r.w + p.y * q.w * r.w - p.y * q.x * r.x - p.y * q.y * r.y - p.y * q.z * r.z + p.z * q.w * r.x + p.z * q.x * r.w + p.z * q.y * r.z - p.z * q.z * r.y
  {
    calc {
      (p.w * t.y) + (p.y * t.w) - (p.x * t.z) + (p.z * t.x);
      (p.w * q.w * r.y + p.w * q.y * r.w - p.w * q.x * r.z + p.w * q.z * r.x) + (p.y * t.w) - (p.x * t.z) + (p.z * t.x);
      (p.w * q.w * r.y + p.w * q.y * r.w - p.w * q.x * r.z + p.w * q.z * r.x) + (p.y * q.w * r.w - p.y * q.x * r.x - p.y * q.y * r.y - p.y * q.z * r.z) - (p.x * t.z) + (p.z * t.x);
      (p.w * q.w * r.y + p.w * q.y * r.w - p.w * q.x * r.z + p.w * q.z * r.x) + (p.y * q.w * r.w - p.y * q.x * r.x - p.y * q.y * r.y - p.y * q.z * r.z) - (p.x * q.w * r.z + p.x * q.z * r.w + p.x * q.x * r.y - p.x * q.y * r.x) + (p.z * t.x);
      (p.w * q.w * r.y + p.w * q.y * r.w - p.w * q.x * r.z + p.w * q.z * r.x) + (p.y * q.w * r.w - p.y * q.x * r.x - p.y * q.y * r.y - p.y * q.z * r.z) - (p.x * q.w * r.z + p.x * q.z * r.w + p.x * q.x * r.y - p.x * q.y * r.x) + (p.z * q.w * r.x + p.z * q.x * r.w + p.z * q.y * r.z - p.z * q.z * r.y);
      p.w * q.w * r.y - p.w * q.x * r.z + p.w * q.y * r.w + p.w * q.z * r.x - p.x * q.w * r.z - p.x * q.x * r.y + p.x * q.y * r.x - p.x * q.z * r.w + p.y * q.w * r.w - p.y * q.x * r.x - p.y * q.y * r.y - p.y * q.z * r.z + p.z * q.w * r.x + p.z * q.x * r.w + p.z * q.y * r.z - p.z * q.z * r.y;
    }
  }

  /** Component z of p t, for t = q r, multiplied out. */
  lemma RightTripleZ(t: Quaternion, p: Quaternion, q: Quaternion, r: Quaternion)
    requires p.w * t.z == p.w * q.w * r.z + p.w * q.z * r.w + p.w * q.x * r.y - p.w * q.y * r.x
    requires p.z * t.w == p.z * q.w * r.w - p.z * q.x * r.x - p.z * q.y * r.y - p.z * q.z * r.z
    requires p.x * t.y == p.x * q.w * r.y + p.x * q.y * r.w - p.x * q.x * r.z + p.x * q.z * r.x
    requires p.y * t.x == p.y * q.w * r.x + p.y * q.x * r.w + p.y * q.y * r.z - p.y * q.z * r.y
    ensures (p.w * t.z) + (p.z * t.w) + (p.x * t.y) - (p.y * t.x) == p.w * q.w * r.z + p.w * q.x * r.y - p.w * q.y * r.x + p.w * q.z * r.w + p.x * q.w * r.y - p.x * q.x * r.z + p.x * q.y * r.w + p.x * q.z * r.x - p.y * q.w * r.x - p.y * q.x * r.w - p.y * q.y * r.z + p.y * q.z * r.y + p.z * q.w * r.w - p.z * q.x * r.x - p.z * q.y * r.y - p.z * q.z * r.z
  {
    calc {
      (p.w * t.z) + (p.z * t.w) + (p.x * t.y) - (p.y * t.x);
      (p.w * q.w * r.z + p.w * q.z * r.w + p.w * q.x * r.y - p.w * q.y * r.x) + (p.z * t.w) + (p.x * t.y) - (p.y * t.x);
      (p.w * q.w * r.z + p.w * q.z * r.w + p.w * q.x * r.y - p.w * q.y * r.x) + (p.z * q.w * r.w - p.z * q.x * r.x - p.z * q.y * r.y - p.z * q.z * r.z) + (p.x * t.y) - (p.y * t.x);
      (p.w * q.w * r.z + p.w * q.z * r.w + p.w * q.x * r.y - p.w * q.y * r.x) + (p.z * q.w * r.w - p.z * q.x * r.x - p.z * q.y * r.y - p.z * q.z * r.z) + (p.x * q.w * r.y + p.x * q.y * r.w - p.x * q.x * r.z + p.x * q.z * r.x) - (p.y * t.x);
      (p.w * q.w * r.z + p.w * q.z * r.w + p.w * q.x * r.y - p.w * q.y * r.x) + (p.z * q.w * r.w - p.z * q.x * r.x - p.z * q.y * r.y - p.z * q.z * r.z) + (p.x * q.w * r.y + p.x * q.y * r.w - p.x * q.x * r.z + p.x * q.z * r.x) - (p.y * q.w * r.x + p.y * q.x * r.w + p.y * q.y * r.z - p.y * q.z * r.y);
      p.w * q.w * r.z + p.w * q.x * r.y - p.w * q.y * r.x + p.w * q.z * r.w + p.x * q.w * r.y - p.x * q.x * r.z + p.x * q.y * r.w + p.x * q.z * r.x - p.y * q.w * r.x - p.y * q.x * r.w - p.y * q.y * r.z + p.y * q.z * r.y + p.z * q.w * r.w - p.z * q.x * r.x - p.z * q.y * r.y - p.z * q.z * r.z;
    }
  }

  lemma UnfoldLeftW(s: Quaternion, r: Quaternion)
    ensures Mul(s, r).w == (s.w * r.w) - (s.x * r.x) - (s.y * r.y) - (s.z * r.z)
  {
  }

  lemma UnfoldLeftX(s: Quaternion, r: Quaternion)
    ensures Mul(s, r).x == (s.w * r.x) + (s.x * r.w) + (s.y * r.z) - (s.z * r.y)
  {
  }

  lemma UnfoldLeftY(s: Quaternion, r: Quaternion)
    ensures Mul(s, r).y == (s.w * r.y) + (s.y * r.w) - (s.x * r.z) + (s.z * r.x)
  {
  }

  lemma UnfoldLeftZ(s: Quaternion, r: Quaternion)
    ensures Mul(s, r).z == (s.w * r.z) + (s.z * r.w) + (s.x * r.y) - (s.y * r.x)
  {
  }

  lemma UnfoldRightW(p: Quaternion, t: Quaternion)
    ensures Mul(p, t).w == (p.w * t.w) - (p.x * t.x) - (p.y * t.y) - (p.z * t.z)
  {
  }

  lemma UnfoldRightX(p: Quaternion, t: Quaternion)
    ensures Mul(p, t).x == (p.w * t.x) + (p.x * t.w) + (p.y * t.z) - (p.z * t.y)
  {
  }

  lemma UnfoldRightY(p: Quaternion, t: Quaternion)
    ensures Mul(p, t).y == (p.w * t.y) + (p.y * t.w) - (p.x * t.z) + (p.z * t.x)
  {
  }

  lemma UnfoldRightZ(p: Quaternion, t: Quaternion)
    ensures Mul(p, t).z == (p.w * t.z) + (p.z * t.w) + (p.x * t.y) - (p.y * t.x)
  {
  }

  lemma AssocLeftW(s: Quaternion, p: Quaternion, q: Quaternion, r: Quaternion)
    requires s.w == p.w * q.w - p.x * q.x - p.y * q.y - p.z * q.z
    requires s.x == p.w * q.x + q.w * p.x + p.y * q.z - q.y * p.z
    requires s.y == p.w * q.y + q.w * p.y - p.x * q.z + q.x * p.z
    requires s.z == p.w * q.z + q.w * p.z + p.x * q.y - q.x * p.y
    ensures Mul(s, r).w == p.w * q.w * r.w - p.w * q.x * r.x - p.w * q.y * r.y - p.w * q.z * r.z - p.x * q.w * r.x - p.x * q.x * r.w - p.x * q.y * r.z + p.x * q.z * r.y - p.y * q.w * r.y + p.y * q.x * r.z - p.y * q.y * r.w - p.y * q.z * r.x - p.z * q.w * r.z - p.z * q.x * r.y + p.z * q.y * r.x - p.z * q.z * r.w
  {
    ExpandLeftWW(s, p, q, r);
    ExpandLeftXX(s, p, q, r);
    ExpandLeftYY(s, p, q, r);
    ExpandLeftZZ(s, p, q, r);
    LeftTripleW(s, p, q, r);
    UnfoldLeftW(s, r);
  }

  lemma AssocLeftX(s: Quaternion, p: Quaternion, q: Quaternion, r: Quaternion)
    requires s.w == p.w * q.w - p.x * q.x - p.y * q.y - p.z * q.z
    requires s.x == p.w * q.x + q.w * p.x + p.y * q.z - q.y * p.z
    requires s.y == p.w * q.y + q.w * p.y - p.x * q.z + q.x * p.z
    requires s.z == p.w * q.z + q.w * p.z + p.x * q.y - q.x * p.y
    ensures Mul(s, r).x == p.w * q.w * r.x + p.w * q.x * r.w + p.w * q.y * r.z - p.w * q.z * r.y + p.x * q.w * r.w - p.x * q.x * r.x - p.x * q.y * r.y - p.x * q.z * r.z + p.y * q.w * r.z + p.y * q.x * r.y - p.y * q.y * r.x + p.y * q.z * r.w - p.z * q.w * r.y + p.z * q.x * r.z - p.z * q.y * r.w - p.z * q.z * r.x
  {
    ExpandLeftWX(s, p, q, r);
    ExpandLeftXW(s, p, q, r);
    ExpandLeftYZ(s, p, q, r);
    ExpandLeftZY(s, p, q, r);
    LeftTripleX(s, p, q, r);
    UnfoldLeftX(s, r);
  }

  lemma AssocLeftY(s: Quaternion, p: Quaternion, q: Quaternion, r: Quaternion)
    requires s.w == p.w * q.w - p.x * q.x - p.y * q.y - p.z * q.z
    requires s.x == p.w * q.x + q.w * p.x + p.y * q.z - q.y * p.z
    requires s.y == p.w * q.y + q.w * p.y - p.x * q.z + q.x * p.z
    requires s.z == p.w * q.z + q.w * p.z + p.x * q.y - q.x * p.y
    ensures Mul(s, r).y == p.w * q.w * r.y - p.w * q.x * r.z + p.w * q.y * r.w + p.w * q.z * r.x - p.x * q.w * r.z - p.x * q.x * r.y + p.x * q.y * r.x - p.x * q.z * r.w + p.y * q.w * r.w - p.y * q.x * r.x - p.y * q.y * r.y - p.y * q.z * r.z + p.z * q.w * r.x + p.z * q.x * r.w + p.z * q.y * r.z - p.z * q.z * r.y
  {
    ExpandLeftWY(s, p, q, r);
    ExpandLeftYW(s, p, q, r);
    ExpandLeftXZ(s, p, q, r);
    ExpandLeftZX(s, p, q, r);
    LeftTripleY(s, p, q, r);
    UnfoldLeftY(s, r);
  }

  lemma AssocLeftZ(s: Quaternion, p: Quaternion, q: Quaternion, r: Quaternion)
    requires s.w == p.w * q.w - p.x * q.x - p.y * q.y - p.z * q.z
    requires s.x == p.w * q.x + q.w * p.x + p.y * q.z - q.y * p.z
    requires s.y == p.w * q.y + q.w * p.y - p.x * q.z + q.x * p.z
    requires s.z == p.w * q.z + q.w * p.z + p.x * q.y - q.x * p.y
    ensures Mul(s, r).z == p.w * q.w * r.z + p.w * q.x * r.y - p.w * q.y * r.x + p.w * q.z * r.w + p.x * q.w * r.y - p.x * q.x * r.z + p.x * q.y * r.w + p.x * q.z * r.x - p.y * q.w * r.x - p.y * q.x * r.w - p.y * q.y * r.z + p.y * q.z * r.y + p.z * q.w * r.w - p.z * q.x * r.x - p.z * q.y * r.y - p.z * q.z * r.z
  {
    ExpandLeftWZ(s, p, q, r);
    ExpandLeftZW(s, p, q, r);
    ExpandLeftXY(s, p, q, r);
    ExpandLeftYX(s, p, q, r);
    LeftTripleZ(s, p, q, r);
    UnfoldLeftZ(s, r);
  }

  lemma AssocLeft(s: Quaternion, p: Quaternion, q: Quaternion, r: Quaternion)
    requires s == Mul(p, q)
    ensures Mul(s, r).w == p.w * q.w * r.w - p.w * q.x * r.x - p.w * q.y * r.y - p.w * q.z * r.z - p.x * q.w * r.x - p.x * q.x * r.w - p.x * q.y * r.z + p.x * q.z * r.y - p.y * q.w * r.y + p.y * q.x * r.z - p.y * q.y * r.w - p.y * q.z * r.x - p.z * q.w * r.z - p.z * q.x * r.y + p.z * q.y * r.x - p.z * q.z * r.w
    ensures Mul(s, r).x == p.w * q.w * r.x + p.w * q.x * r.w + p.w * q.y * r.z - p.w * q.z * r.y + p.x * q.w * r.w - p.x * q.x * r.x - p.x * q.y * r.y - p.x * q.z * r.z + p.y * q.w * r.z + p.y * q.x * r.y - p.y * q.y * r.x + p.y * q.z * r.w - p.z * q.w * r.y + p.z * q.x * r.z - p.z * q.y * r.w - p.z * q.z * r.x
    ensures Mul(s, r).y == p.w * q.w * r.y - p.w * q.x * r.z + p.w * q.y * r.w + p.w * q.z * r.x - p.x * q.w * r.z - p.x * q.x * r.y + p.x * q.y * r.x - p.x * q.z * r.w + p.y * q.w * r.w - p.y * q.x * r.x - p.y * q.y * r.y - p.y * q.z * r.z + p.z * q.w * r.x + p.z * q.x * r.w + p.z * q.y * r.z - p.z * q.z * r.y
    ensures Mul(s, r).z == p.w * q.w * r.z + p.w * q.x * r.y - p.w * q.y * r.x + p.w * q.z * r.w + p.x * q.w * r.y - p.x * q.x * r.z + p.x * q.y * r.w + p.x * q.z * r.x - p.y * q.w * r.x - p.y * q.x * r.w - p.y * q.y * r.z + p.y * q.z * r.y + p.z * q.w * r.w - p.z * q.x * r.x - p.z * q.y * r.y - p.z * q.z * r.z
  {
    AssocLeftW(s, p, q, r);
    AssocLeftX(s, p, q, r);
    AssocLeftY(s, p, q, r);
    AssocLeftZ(s, p, q, r);
  }

  lemma AssocRightW(t: Quaternion, p: Quaternion, q: Quaternion, r: Quaternion)
    requires t.w == q.w * r.w - q.x * r.x - q.y * r.y - q.z * r.z
    requires t.x == q.w * r.x + r.w * q.x + q.y * r.z - r.y * q.z
    requires t.y == q.w * r.y + r.w * q.y - q.x * r.z + r.x * q.z
    requires t.z == q.w * r.z + r.w * q.z + q.x * r.y - r.x * q.y
    ensures Mul(p, t).w == p.w * q.w * r.w - p.w * q.x * r.x - p.w * q.y * r.y - p.w * q.z * r.z - p.x * q.w * r.x - p.x * q.x * r.w - p.x * q.y * r.z + p.x * q.z * r.y - p.y * q.w * r.y + p.y * q.x * r.z - p.y * q.y * r.w - p.y * q.z * r.x - p.z * q.w * r.z - p.z * q.x * r.y + p.z * q.y * r.x - p.z * q.z * r.w
  {
    ExpandRightWW(t, p, q, r);
    ExpandRightXX(t, p, q, r);
    ExpandRightYY(t, p, q, r);
    ExpandRightZZ(t, p, q, r);
    RightTripleW(t, p, q, r);
    UnfoldRightW(p, t);
  }

  lemma AssocRightX(t: Quaternion, p: Quaternion, q: Quaternion, r: Quaternion)
    requires t.w == q.w * r.w - q.x * r.x - q.y * r.y - q.z * r.z
    requires t.x == q.w * r.x + r.w * q.x + q.y * r.z - r.y * q.z
    requires t.y == q.w * r.y + r.w * q.y - q.x * r.z + r.x * q.z
    requires t.z == q.w * r.z + r.w * q.z + q.x * r.y - r.x * q.y
    ensures Mul(p, t).x == p.w * q.w * r.x + p.w * q.x * r.w + p.w * q.y * r.z - p.w * q.z * r.y + p.x * q.w * r.w - p.x * q.x * r.x - p.x * q.y * r.y - p.x * q.z * r.z + p.y * q.w * r.z + p.y * q.x * r.y - p.y * q.y * r.x + p.y * q.z * r.w - p.z * q.w * r.y + p.z * q.x * r.z - p.z * q.y * r.w - p.z * q.z * r.x
  {
    ExpandRightWX(t, p, q, r);
    ExpandRightXW(t, p, q, r);
    ExpandRightYZ(t, p, q, r);
    ExpandRightZY(t, p, q, r);
    RightTripleX(t, p, q, r);
    UnfoldRightX(p, t);
  }

  lemma AssocRightY(t: Quaternion, p: Quaternion, q: Quaternion, r: Quaternion)
    requires t.w == q.w * r.w - q.x * r.x - q.y * r.y - q.z * r.z
    requires t.x == q.w * r.x + r.w * q.x + q.y * r.z - r.y * q.z
    requires t.y == q.w * r.y + r.w * q.y - q.x * r.z + r.x * q.z
    requires t.z == q.w * r.z + r.w * q.z + q.x * r.y - r.x * q.y
    ensures Mul(p, t).y == p.w * q.w * r.y - p.w * q.x * r.z + p.w * q.y * r.w + p.w * q.z * r.x - p.x * q.w * r.z - p.x * q.x * r.y + p.x * q.y * r.x - p.x * q.z * r.w + p.y * q.w * r.w - p.y * q.x * r.x - p.y * q.y * r.y - p.y * q.z * r.z + p.z * q.w * r.x + p.z * q.x * r.w + p.z * q.y * r.z - p.z * q.z * r.y
  {
    ExpandRightWY(t, p, q, r);
    ExpandRightYW(t, p, q, r);
    ExpandRightXZ(t, p, q, r);
    ExpandRightZX(t, p, q, r);
    RightTripleY(t, p, q, r);
    UnfoldRightY(p, t);
  }

  lemma AssocRightZ(t: Quaternion, p: Quaternion, q: Quaternion, r: Quaternion)
    requires t.w == q.w * r.w - q.x * r.x - q.y * r.y - q.z * r.z
    requires t.x == q.w * r.x + r.w * q.x + q.y * r.z - r.y * q.z
    requires t.y == q.w * r.y + r.w * q.y - q.x * r.z + r.x * q.z
    requires t.z == q.w * r.z + r.w * q.z + q.x * r.y - r.x * q.y
    ensures Mul(p, t).z == p.w * q.w * r.z + p.w * q.x * r.y - p.w * q.y * r.x + p.w * q.z * r.w + p.x * q.w * r.y - p.x * q.x * r.z + p.x * q.y * r.w + p.x * q.z * r.x - p.y * q.w * r.x - p.y * q.x * r.w - p.y * q.y * r.z + p.y * q.z * r.y + p.z * q.w * r.w - p.z * q.x * r.x - p.z * q.y * r.y - p.z * q.z * r.z
  {
    ExpandRightWZ(t, p, q, r);
    ExpandRightZW(t, p, q, r);
    ExpandRightXY(t, p, q, r);
    ExpandRightYX(t, p, q, r);
    RightTripleZ(t, p, q, r);
    UnfoldRightZ(p, t);
  }

  lemma AssocRight(t: Quaternion, p: Quaternion, q: Quaternion, r: Quaternion)
    requires t == Mul(q, r)
    ensures Mul(p, t).w == p.w * q.w * r.w - p.w * q.x * r.x - p.w * q.y * r.y - p.w * q.z * r.z - p.x * q.w * r.x - p.x * q.x * r.w - p.x * q.y * r.z + p.x * q.z * r.y - p.y * q.w * r.y + p.y * q.x * r.z - p.y * q.y * r.w - p.y * q.z * r.x - p.z * q.w * r.z - p.z * q.x * r.y + p.z * q.y * r.x - p.z * q.z * r.w
    ensures Mul(p, t).x == p.w * q.w * r.x + p.w * q.x * r.w + p.w * q.y * r.z - p.w * q.z * r.y + p.x * q.w * r.w - p.x * q.x * r.x - p.x * q.y * r.y - p.x * q.z * r.z + p.y * q.w * r.z + p.y * q.x * r.y - p.y * q.y * r.x + p.y * q.z * r.w - p.z * q.w * r.y + p.z * q.x * r.z - p.z * q.y * r.w - p.z * q.z * r.x
    ensures Mul(p, t).y == p.w * q.w * r.y - p.w * q.x * r.z + p.w * q.y * r.w + p.w * q.z * r.x - p.x * q.w * r.z - p.x * q.x * r.y + p.x * q.y * r.x - p.x * q.z * r.w + p.y * q.w * r.w - p.y * q.x * r.x - p.y * q.y * r.y - p.y * q.z * r.z + p.z * q.w * r.x + p.z * q.x * r.w + p.z * q.y * r.z - p.z * q.z * r.y
    ensures Mul(p, t).z == p.w * q.w * r.z + p.w * q.x * r.y - p.w * q.y * r.x + p.w * q.z * r.w + p.x * q.w * r.y - p.x * q.x * r.z + p.x * q.y * r.w + p.x * q.z * r.x - p.y * q.w * r.x - p.y * q.x * r.w - p.y * q.y * r.z + p.y * q.z * r.y + p.z * q.w * r.w - p.z * q.x * r.x - p.z * q.y * r.y - p.z * q.z * r.z
  {
    AssocRightW(t, p, q, r);
    AssocRightX(t, p, q, r);
    AssocRightY(t, p, q, r);
    AssocRightZ(t, p, q, r);
  }

  /** The Hamilton product is associative: (p q) r = p (q r). */
  lemma MulAssociative(p: Quaternion, q: Quaternion, r: Quaternion)
    ensures Mul(Mul(p, q), r) == Mul(p, Mul(q, r))
  {
    AssocLeft(Mul(p, q), p, q, r);
    AssocRight(Mul(q, r), p, q, r);
  }
}
