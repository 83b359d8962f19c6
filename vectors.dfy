/** Three-dimensional vectors over the reals: the value triples that stand
    for the one-dimensional float arrays of length three used by the engine. */
module Vectors {

  datatype Vec3 = Vec3(x: real, y: real, z: real)

  const Zero := Vec3(0.0, 0.0, 0.0)

  function Add(a: Vec3, b: Vec3): Vec3 {
    Vec3(a.x + b.x, a.y + b.y, a.z + b.z)
  }

  function Sub(a: Vec3, b: Vec3): Vec3 {
    Vec3(a.x - b.x, a.y - b.y, a.z - b.z)
  }

  /** `k * v` */
  function Scale(k: real, v: Vec3): Vec3 {
    Vec3(k * v.x, k * v.y, k * v.z)
  }

  function Dot(a: Vec3, b: Vec3): real {
    a.x * b.x + a.y * b.y + a.z * b.z
  }

  function Cross(a: Vec3, b: Vec3): Vec3 {
    Vec3(a.y * b.z - a.z * b.y, a.z * b.x - a.x * b.z, a.x * b.y - a.y * b.x)
  }

  /** The cross product is perpendicular to both of its factors. */
  lemma CrossOrthogonal(a: Vec3, b: Vec3)
    ensures Dot(Cross(a, b), a) == 0.0 && Dot(Cross(a, b), b) == 0.0
  {
  }

  /** Lagrange's identity: the squared length of a cross product. */
  lemma CrossLengthSquared(a: Vec3, b: Vec3)
    ensures Dot(Cross(a, b), Cross(a, b)) == Dot(a, a) * Dot(b, b) - Dot(a, b) * Dot(a, b)
  {
  }

  lemma DotScale(k: real, a: Vec3, b: Vec3)
    ensures Dot(Scale(k, a), b) == k * Dot(a, b)
    ensures Dot(a, Scale(k, b)) == k * Dot(a, b)
  {
  }

  lemma DotAdd(a: Vec3, b: Vec3, c: Vec3)
    ensures Dot(c, Add(a, b)) == Dot(c, a) + Dot(c, b)
    ensures Dot(Add(a, b), c) == Dot(a, c) + Dot(b, c)
  {
  }

  lemma DotScaleBoth(k: real, a: Vec3)
    ensures Dot(Scale(k, a), Scale(k, a)) == k * k * Dot(a, a)
  {
    DotScale(k, a, Scale(k, a));
    DotScale(k, a, a);
  }

  lemma DotSub(a: Vec3, b: Vec3, c: Vec3)
    ensures Dot(Sub(a, b), c) == Dot(a, c) - Dot(b, c)
  {
  }

  /** A squared length is never negative. */
  lemma DotSelfNonnegative(v: Vec3)
    ensures Dot(v, v) >= 0.0
  {
    assert v.x * v.x >= 0.0 && v.y * v.y >= 0.0 && v.z * v.z >= 0.0;
  }

  /** The squared length of c * a + s * b. */
  lemma DotCombination(c: real, s: real, a: Vec3, b: Vec3)
    ensures Dot(Add(Scale(c, a), Scale(s, b)), Add(Scale(c, a), Scale(s, b))) ==
      c * c * Dot(a, a) + 2.0 * c * s * Dot(a, b) + s * s * Dot(b, b)
  {
  }

  /** The triple product expansion coordinate by coordinate, over plain
      reals: x is b x c, and ac, ab are the dot products a . c and a . b. */
  lemma TripleCoordinates(a1: real, a2: real, a3: real, b1: real, b2: real, b3: real, c1: real, c2: real, c3: real,
                          x1: real, x2: real, x3: real, ac: real, ab: real)
    requires x1 == b2 * c3 - b3 * c2 && x2 == b3 * c1 - b1 * c3 && x3 == b1 * c2 - b2 * c1
    requires ac == a1 * c1 + a2 * c2 + a3 * c3 && ab == a1 * b1 + a2 * b2 + a3 * b3
    ensures a2 * x3 - a3 * x2 == ac * b1 - ab * c1
    ensures a3 * x1 - a1 * x3 == ac * b2 - ab * c2
    ensures a1 * x2 - a2 * x1 == ac * b3 - ab * c3
  {
  }

  /** Vectors with the same coordinates are equal. */
  lemma SameCoordinates(l: Vec3, r: Vec3)
    requires l.x == r.x && l.y == r.y && l.z == r.z
    ensures l == r
  {
  }

  lemma CrossCrossX(a: Vec3, b: Vec3, c: Vec3)
    ensures Cross(a, Cross(b, c)).x == Sub(Scale(Dot(a, c), b), Scale(Dot(a, b), c)).x
  {
    var x := Cross(b, c);
    TripleCoordinates(a.x, a.y, a.z, b.x, b.y, b.z, c.x, c.y, c.z, x.x, x.y, x.z, Dot(a, c), Dot(a, b));
  }

  lemma CrossCrossY(a: Vec3, b: Vec3, c: Vec3)
    ensures Cross(a, Cross(b, c)).y == Sub(Scale(Dot(a, c), b), Scale(Dot(a, b), c)).y
  {
    var x := Cross(b, c);
    TripleCoordinates(a.x, a.y, a.z, b.x, b.y, b.z, c.x, c.y, c.z, x.x, x.y, x.z, Dot(a, c), Dot(a, b));
  }

  lemma CrossCrossZ(a: Vec3, b: Vec3, c: Vec3)
    ensures Cross(a, Cross(b, c)).z == Sub(Scale(Dot(a, c), b), Scale(Dot(a, b), c)).z
  {
    var x := Cross(b, c);
    TripleCoordinates(a.x, a.y, a.z, b.x, b.y, b.z, c.x, c.y, c.z, x.x, x.y, x.z, Dot(a, c), Dot(a, b));
  }

  /** The triple product expansion a x (b x c) = (a . c) b - (a . b) c. */
  lemma CrossCross(a: Vec3, b: Vec3, c: Vec3)
    ensures Cross(a, Cross(b, c)) == Sub(Scale(Dot(a, c), b), Scale(Dot(a, b), c))
  {
    CrossCrossX(a, b, c);
    CrossCrossY(a, b, c);
    CrossCrossZ(a, b, c);
    SameCoordinates(Cross(a, Cross(b, c)), Sub(Scale(Dot(a, c), b), Scale(Dot(a, b), c)));
  }

  /** One coordinate of a cross product with a scaled factor, over plain
      reals: q' and s' are k q and k s, and w is p q - r s. */
  lemma ScaledDifference(k: real, p: real, q: real, r: real, s: real, q': real, s': real, w: real)
    requires q' == k * q && s' == k * s && w == p * q - r * s
    ensures p * q' - r * s' == k * w
  {
  }

  lemma CrossScale(k: real, a: Vec3, b: Vec3)
    ensures Cross(a, Scale(k, b)) == Scale(k, Cross(a, b))
  {
    var kb, ab := Scale(k, b), Cross(a, b);
    ScaledDifference(k, a.y, b.z, a.z, b.y, kb.z, kb.y, ab.x);
    ScaledDifference(k, a.z, b.x, a.x, b.z, kb.x, kb.z, ab.y);
    ScaledDifference(k, a.x, b.y, a.y, b.x, kb.y, kb.x, ab.z);
    SameCoordinates(Cross(a, kb), Scale(k, ab));
  }

  lemma ScaleScale(k: real, m: real, v: Vec3)
    ensures Scale(k, Scale(m, v)) == Scale(k * m, v)
  {
    assert k * (m * v.x) == (k * m) * v.x;
    assert k * (m * v.y) == (k * m) * v.y;
    assert k * (m * v.z) == (k * m) * v.z;
    SameCoordinates(Scale(k, Scale(m, v)), Scale(k * m, v));
  }
}
