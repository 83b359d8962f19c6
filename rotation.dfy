/** The rotation primitive `rotate_vector`: Rodrigues' axis-angle rotation
    with a guard for a (near) zero axis. */
module Rotation {
  import opened Vectors
  import opened Numerics

  /** Threshold below which an axis counts as the zero vector. */
  const AxisEpsilon := 0.000000001

  function RotateVector(h: Host, v: Vec3, axis: Vec3, angle: real): (r: Vec3)
    ensures Norm(h, axis) < AxisEpsilon ==> r == v
  {
    var n := Norm(h, axis);
    if n < AxisEpsilon then v
    else
      var a := Scale(1.0 / n, axis);
      var c := h.cos(angle);
      var s := h.sin(angle);
      Add(Add(Scale(c, v), Scale(s, Cross(a, v))), Scale(Dot(a, v) * (1.0 - c), a))
  }

  /** A vector perpendicular to the axis stays perpendicular to it after
      rotation, whatever cos, sin and the square root return. */
  lemma RotateKeepsPerpendicular(h: Host, v: Vec3, axis: Vec3, angle: real)
    requires Dot(axis, v) == 0.0
    ensures Dot(axis, RotateVector(h, v, axis, angle)) == 0.0
  {
    var n := Norm(h, axis);
    if n >= AxisEpsilon {
      var a := Scale(1.0 / n, axis);
      var c := h.cos(angle);
      var s := h.sin(angle);
      DotScale(1.0 / n, axis, v);
      assert Dot(a, v) == 0.0;
      var w := Cross(a, v);
      CrossOrthogonal(a, v);
      ScaleScale(n, 1.0 / n, axis);
      assert n * (1.0 / n) == 1.0;
      assert Scale(1.0, axis) == axis;
      DotScale(n, a, w);
      assert Dot(axis, w) == 0.0;
      DotScale(c, axis, v);
      DotScale(s, axis, w);
      DotScale(0.0, axis, a);
      assert Dot(a, v) * (1.0 - c) == 0.0;
      DotAdd(Scale(c, v), Scale(s, w), axis);
      DotAdd(Add(Scale(c, v), Scale(s, w)), Scale(0.0, a), axis);
    }
  }
}
