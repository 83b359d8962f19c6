/** The shape the engine draws, once the square root of 1 is 1 and the
    frame is orthonormal: a bend is a circular arc of the requested radius
    in the plane through the tip perpendicular to the up vector, turning
    the direction by the bend angle about the up vector, and Rotate turns
    the up vector about the direction by the plane-rotation angle. */
module Geometry {
  import opened Wrappers
  import opened Vectors
  import opened Numerics
  import opened Rotation
  import opened Centerline
  import opened Exactness

  /** About a unit axis perpendicular to v, the rotation is
      cos * v + sin * (axis x v). */
  lemma RotateAboutUnitAxis(h: Host, v: Vec3, a: Vec3, angle: real)
    requires h.sqrt(1.0) == 1.0
    requires Dot(a, a) == 1.0 && Dot(a, v) == 0.0
    ensures RotateVector(h, v, a, angle) == Add(Scale(h.cos(angle), v), Scale(h.sin(angle), Cross(a, v)))
  {
    assert Norm(h, a) == 1.0;
    assert Scale(1.0 / 1.0, a) == a;
    assert Dot(a, v) * (1.0 - h.cos(angle)) == 0.0;
  }

  /** The last arc sample lies at the full bend angle. */
  lemma LastArcPoint(h: Host, center: Vec3, v0: Vec3, axis: Vec3, bRad: real, n: int)
    requires n > 0
    ensures ArcPoints(h, center, v0, axis, bRad, n)[n - 1] == Add(center, RotateVector(h, v0, axis, bRad))
  {
    assert n as real / n as real == 1.0;
    assert ArcAngle(bRad, n, n) == bRad;
  }

  /** The centre of a performed bend lies at distance r from the tip
      along up x direction, and the vector from the centre back to the tip is
      -r (up x direction). */
  lemma BendCenter(h: Host, t: Trace, r: real)
    requires h.sqrt(1.0) == 1.0
    requires Orthonormal(t.frame)
    ensures
      var w := Cross(t.frame.up, t.frame.direction);
      && Norm(h, w) == 1.0
      && Add(t.frame.point, Scale(r, Scale(1.0 / Norm(h, w), w))) == Add(t.frame.point, Scale(r, w))
      && Sub(t.frame.point, Add(t.frame.point, Scale(r, w))) == Scale(-r, w)
  {
    var w := Cross(t.frame.up, t.frame.direction);
    CrossLengthSquared(t.frame.up, t.frame.direction);
    assert Dot(w, w) == 1.0;
    assert Scale(1.0 / 1.0, w) == w;
  }

  lemma TipComponent(p: real, d: real, w: real, r: real, c: real, s: real)
    ensures p + r * w + c * (-r * w) + s * (r * d) == p + (r * s) * d + (r * (1.0 - c)) * w
  {
  }

  lemma TipVector(p: Vec3, d: Vec3, w: Vec3, r: real, c: real, s: real)
    ensures Add(Add(p, Scale(r, w)), Add(Scale(c, Scale(-r, w)), Scale(s, Scale(r, d)))) ==
      Add(Add(p, Scale(r * s, d)), Scale(r * (1.0 - c), w))
  {
    TipComponent(p.x, d.x, w.x, r, c, s);
    TipComponent(p.y, d.y, w.y, r, c, s);
    TipComponent(p.z, d.z, w.z, r, c, s);
  }

  /** A performed bend from an orthonormal frame (d, u) whose angle has
      cos^2 + sin^2 = 1 succeeds, keeps the up vector and turns the
      direction to c d + s w, where w = u x d and c, s are the cosine and
      sine of the angle in radians: the direction rotated by the bend
      angle about the up vector. */
  lemma BendDirection(h: Host, t: Trace, b: real, r: real, arc: Option<int>, row: nat)
    requires h.sqrt(1.0) == 1.0
    requires |t.points| > 0 && Orthonormal(t.frame)
    requires Abs(b) > AngleEpsilon && r >= RadiusEpsilon && arc.Some?
    requires h.cos(Radians(h, b)) * h.cos(Radians(h, b)) + h.sin(Radians(h, b)) * h.sin(Radians(h, b)) == 1.0
    ensures Bend(h, t, b, r, arc, row).Done?
    ensures
      var d, u := t.frame.direction, t.frame.up;
      var c, s := h.cos(Radians(h, b)), h.sin(Radians(h, b));
      && Bend(h, t, b, r, arc, row).value.frame.direction == Add(Scale(c, d), Scale(s, Cross(u, d)))
      && Bend(h, t, b, r, arc, row).value.frame.up == u
  {
    var d, u := t.frame.direction, t.frame.up;
    var bRad := Radians(h, b);
    var c, s := h.cos(bRad), h.sin(bRad);
    var w := Cross(u, d);
    BendCenter(h, t, r);
    CrossOrthogonal(u, d);
    RotateAboutUnitAxis(h, d, u, bRad);
    var d1 := Add(Scale(c, d), Scale(s, w));
    DotCombination(c, s, d, w);
    CrossLengthSquared(u, d);
    assert Dot(d1, d1) == 1.0;
    assert Norm(h, d1) == 1.0;
    assert Scale(1.0 / 1.0, d1) == d1;
  }

  /** The tip after a performed bend of angle b and radius r from the
      orthonormal frame (d, u) at p, with at least one arc sample: with
      w = u x d, c = cos and s = sin of the angle in radians, the tip moves
      to p + r s d + r (1 - c) w. For b = 90 that is p + r d + r w. */
  lemma BendGeometry(h: Host, t: Trace, b: real, r: real, arc: Option<int>, row: nat, c: real, s: real)
    requires h.sqrt(1.0) == 1.0
    requires |t.points| > 0 && Orthonormal(t.frame)
    requires Abs(b) > AngleEpsilon && r >= RadiusEpsilon && arc.Some? && arc.value > 0
    requires c == h.cos(Radians(h, b)) && s == h.sin(Radians(h, b)) && c * c + s * s == 1.0
    ensures Bend(h, t, b, r, arc, row).Done?
    ensures Bend(h, t, b, r, arc, row).value.frame ==
      Frame(Add(Add(t.frame.point, Scale(r * s, t.frame.direction)), Scale(r * (1.0 - c), Cross(t.frame.up, t.frame.direction))),
            Add(Scale(c, t.frame.direction), Scale(s, Cross(t.frame.up, t.frame.direction))),
            t.frame.up)
  {
    var p, d, u := t.frame.point, t.frame.direction, t.frame.up;
    var bRad := Radians(h, b);
    var w := Cross(u, d);
    BendCenter(h, t, r);
    BendDirection(h, t, b, r, arc, row);
    var center := Add(p, Scale(r, w));
    var v0 := Scale(-r, w);
    CrossOrthogonal(u, d);
    DotScale(-r, u, w);
    RotateAboutUnitAxis(h, v0, u, bRad);
    CrossScale(-r, u, w);
    CrossCross(u, u, d);
    assert Cross(u, w) == Sub(Scale(0.0, u), Scale(1.0, d));
    assert Cross(u, w) == Scale(-1.0, d);
    assert Cross(u, v0) == Scale(-r, Scale(-1.0, d));
    assert (-r) * (-1.0) == r;
    ScaleScale(-r, -1.0, d);
    LastArcPoint(h, center, v0, u, bRad, arc.value);
    var last := Add(center, Add(Scale(c, v0), Scale(s, Scale(r, d))));
    var expected := Add(Add(p, Scale(r * s, d)), Scale(r * (1.0 - c), w));
    var arcPts := ArcPoints(h, center, v0, u, bRad, arc.value);
    assert arcPts[arc.value - 1] == last;
    var pts := t.points + arcPts;
    assert pts[|pts| - 1] == last;
    TipVector(p, d, w, r, c, s);
    assert Bend(h, t, b, r, arc, row).value.frame.point == expected;
    assert Bend(h, t, b, r, arc, row).value.frame.direction == Add(Scale(c, d), Scale(s, w));
    assert Bend(h, t, b, r, arc, row).value.frame.up == u;
    assert Bend(h, t, b, r, arc, row).value.frame == Frame(expected, Add(Scale(c, d), Scale(s, w)), u);
  }

  /** A quarter bend (b = 90, with cos 0 and sin 1) of radius r moves the
      tip to p + r d + r (u x d) and turns the direction to u x d. */
  lemma QuarterTurn(h: Host, t: Trace, r: real, arc: Option<int>, row: nat)
    requires h.sqrt(1.0) == 1.0
    requires h.cos(Radians(h, 90.0)) == 0.0 && h.sin(Radians(h, 90.0)) == 1.0
    requires |t.points| > 0 && Orthonormal(t.frame)
    requires r >= RadiusEpsilon && arc.Some? && arc.value > 0
    ensures Bend(h, t, 90.0, r, arc, row).Done?
    ensures Bend(h, t, 90.0, r, arc, row).value.frame ==
      Frame(Add(Add(t.frame.point, Scale(r, t.frame.direction)), Scale(r, Cross(t.frame.up, t.frame.direction))),
            Cross(t.frame.up, t.frame.direction), t.frame.up)
  {
    var d, w := t.frame.direction, Cross(t.frame.up, t.frame.direction);
    BendGeometry(h, t, 90.0, r, arc, row, 0.0, 1.0);
    assert Scale(r * 1.0, d) == Scale(r, d);
    assert Scale(r * (1.0 - 0.0), w) == Scale(r, w);
    assert Add(Scale(0.0, d), Scale(1.0, w)) == w;
  }

  /** Rotate with an angle above 1e-6 degrees, from an orthonormal frame
      (d, u) and an angle whose cos^2 + sin^2 is 1: the up vector becomes
      c u + s (d x u), the up vector rotated by the angle about the
      direction; the re-orthogonalisation changes nothing and the fallback
      is never taken. */
  lemma PlaneRotationGeometry(h: Host, d: Vec3, u: Vec3, deg: real, c: real, s: real)
    requires h.sqrt(1.0) == 1.0
    requires Dot(d, d) == 1.0 && Dot(u, u) == 1.0 && Dot(u, d) == 0.0
    requires Abs(deg) > AngleEpsilon
    requires c == h.cos(Radians(h, deg)) && s == h.sin(Radians(h, deg)) && c * c + s * s == 1.0
    ensures PlaneRotation(h, d, u, deg) == Add(Scale(c, u), Scale(s, Cross(d, u)))
  {
    var w := Cross(d, u);
    RotateAboutUnitAxis(h, u, d, Radians(h, deg));
    var rotated := Add(Scale(c, u), Scale(s, w));
    CrossOrthogonal(d, u);
    DotAdd(Scale(c, u), Scale(s, w), d);
    DotScale(c, u, d);
    DotScale(s, w, d);
    assert Dot(rotated, d) == 0.0;
    assert Scale(0.0, d) == Zero;
    assert Sub(rotated, Scale(Dot(rotated, d), d)) == rotated;
    CrossLengthSquared(d, u);
    UnitProduct(Dot(w, w), Dot(d, d), Dot(u, u), Dot(d, u));
    DotCombination(c, s, u, w);
    assert Dot(u, w) == Dot(w, u) == 0.0;
    UnitCombination(Dot(rotated, rotated), c, s, Dot(u, u), Dot(u, w), Dot(w, w));
    assert Scale(1.0 / 1.0, rotated) == rotated;
  }

  /** Over plain reals: the Lagrange product of two perpendicular unit vectors is 1. */
  lemma UnitProduct(ww: real, dd: real, uu: real, du: real)
    requires ww == dd * uu - du * du && dd == 1.0 && uu == 1.0 && du == 0.0
    ensures ww == 1.0
  {
  }

  /** Over plain reals: c u + s w has unit length for perpendicular unit
      vectors u, w and cos^2 + sin^2 = 1. */
  lemma UnitCombination(n: real, c: real, s: real, uu: real, uw: real, ww: real)
    requires n == c * c * uu + 2.0 * c * s * uw + s * s * ww
    requires uu == 1.0 && uw == 0.0 && ww == 1.0 && c * c + s * s == 1.0
    ensures n == 1.0
  {
  }

  /** A plane rotation whose cosine is 0 and sine 1 (90 degrees) turns
      the up vector u to d x u. */
  lemma QuarterRotation(h: Host, d: Vec3, u: Vec3, deg: real)
    requires h.sqrt(1.0) == 1.0
    requires Dot(d, d) == 1.0 && Dot(u, u) == 1.0 && Dot(u, d) == 0.0
    requires Abs(deg) > AngleEpsilon && h.cos(Radians(h, deg)) == 0.0 && h.sin(Radians(h, deg)) == 1.0
    ensures PlaneRotation(h, d, u, deg) == Cross(d, u)
  {
    PlaneRotationGeometry(h, d, u, deg, 0.0, 1.0);
    assert Add(Scale(0.0, u), Scale(1.0, Cross(d, u))) == Cross(d, u);
  }

  /** Every point a performed bend samples lies on the circle of radius r
      about the bend centre, in the plane through the centre perpendicular
      to the up vector. */
  lemma ArcOnCircle(h: Host, t: Trace, b: real, r: real, arc: Option<int>, row: nat)
    requires h.sqrt(1.0) == 1.0 && ExactTrig(h)
    requires |t.points| > 0 && Orthonormal(t.frame)
    requires Abs(b) > AngleEpsilon && r >= RadiusEpsilon && arc.Some?
    ensures Bend(h, t, b, r, arc, row).Done?
    ensures
      var pts := Bend(h, t, b, r, arc, row).value.points;
      var center := Add(t.frame.point, Scale(r, Cross(t.frame.up, t.frame.direction)));
      forall j :: |t.points| <= j < |pts| ==>
        Dot(Sub(pts[j], center), Sub(pts[j], center)) == r * r && Dot(t.frame.up, Sub(pts[j], center)) == 0.0
  {
    var p, d, u := t.frame.point, t.frame.direction, t.frame.up;
    var bRad := Radians(h, b);
    var w := Cross(u, d);
    BendCenter(h, t, r);
    var center := Add(p, Scale(r, w));
    var v0 := Scale(-r, w);
    var n := arc.value;
    CrossOrthogonal(u, d);
    DotScale(-r, u, w);
    CrossLengthSquared(u, d);
    DotScaleBoth(-r, w);
    assert Dot(v0, v0) == r * r;
    CrossLengthSquared(u, v0);
    CrossOrthogonal(u, v0);
    assert Dot(Cross(u, v0), Cross(u, v0)) == r * r;
    var arcPts := ArcPoints(h, center, v0, u, bRad, n);
    forall k | 0 <= k < |arcPts|
      ensures Dot(Sub(arcPts[k], center), Sub(arcPts[k], center)) == r * r && Dot(u, Sub(arcPts[k], center)) == 0.0
    {
      var angle := ArcAngle(bRad, n, k + 1);
      var c, s := h.cos(angle), h.sin(angle);
      RotateAboutUnitAxis(h, v0, u, angle);
      RotateKeepsPerpendicular(h, v0, u, angle);
      var rotated := RotateVector(h, v0, u, angle);
      assert Sub(arcPts[k], center) == rotated;
      DotCombination(c, s, v0, Cross(u, v0));
      assert c * c + s * s == 1.0;
      assert (c * c) * (r * r) + (s * s) * (r * r) == r * r;
    }
    BendDirection(h, t, b, r, arc, row);
    var pts := Bend(h, t, b, r, arc, row).value.points;
    assert pts == t.points + arcPts;
  }
}
