/** What the engine promises about its moving frame once the host's
    arithmetic is exact: the direction and the up vector stay unit length
    and perpendicular after every record, and then neither geometric error
    (up parallel to the direction, a vanishing turned direction) can ever
    be reported, so only the input can make a run fail. Floating-point
    rounding is what the engine's thresholds guard against; these lemmas
    state what the guarded design is built on. */
module Exactness {
  import opened Wrappers
  import opened Vectors
  import opened Numerics
  import opened Rotation
  import opened Json
  import opened Centerline

  /** The frame's direction and up vector are unit length and perpendicular. */
  ghost predicate Orthonormal(f: Frame) {
    && Dot(f.direction, f.direction) == 1.0
    && Dot(f.up, f.up) == 1.0
    && Dot(f.up, f.direction) == 0.0
  }

  /** The errors a malformed record causes. */
  predicate InputError(e: Error) {
    e.MissingKey? || e.NotANumber? || e.NegativeRadius?
  }

  lemma StartFrameOrthonormal()
    ensures Orthonormal(StartFrame)
  {
  }

  /** Dividing a vector of positive norm by its norm gives a unit vector. */
  lemma NormalisedIsUnit(h: Host, v: Vec3)
    requires ExactSqrt(h)
    requires Norm(h, v) > 0.0
    ensures Dot(Scale(1.0 / Norm(h, v), v), Scale(1.0 / Norm(h, v), v)) == 1.0
  {
    DotSelfNonnegative(v);
    var q := Dot(v, v);
    var n := Norm(h, v);
    assert n * n == q;
    var k := 1.0 / n;
    DotScaleBoth(k, v);
    assert k * n == 1.0;
    assert k * k * q == (k * n) * (k * n);
  }

  /** Rotating a unit vector about a unit axis perpendicular to it gives a
      unit vector again. */
  lemma RotatePerpendicularUnit(h: Host, d: Vec3, u: Vec3, angle: real)
    requires ExactSqrt(h) && ExactTrig(h)
    requires Dot(d, d) == 1.0 && Dot(u, u) == 1.0 && Dot(u, d) == 0.0
    ensures Dot(RotateVector(h, d, u, angle), RotateVector(h, d, u, angle)) == 1.0
  {
    NormOfUnit(h, u);
    var a := Scale(1.0 / Norm(h, u), u);
    assert a == u;
    var c := h.cos(angle);
    var s := h.sin(angle);
    var w := Cross(a, d);
    CrossLengthSquared(a, d);
    CrossOrthogonal(a, d);
    assert Dot(w, w) == 1.0;
    assert Dot(d, w) == 0.0;
    assert Dot(a, d) * (1.0 - c) == 0.0;
    var r := Add(Scale(c, d), Scale(s, w));
    assert RotateVector(h, d, u, angle) == r;
    DotCombination(c, s, d, w);
    assert c * c + s * s == 1.0;
  }

  /** A bend keeps an orthonormal frame orthonormal: the up vector is kept
      and the turned direction is normalised and stays perpendicular to it. */
  lemma BendKeepsFrame(h: Host, t: Trace, b: real, r: real, arc: Option<int>, row: nat)
    requires ExactSqrt(h)
    requires |t.points| > 0 && Orthonormal(t.frame)
    ensures Bend(h, t, b, r, arc, row).Done? ==>
      && Orthonormal(Bend(h, t, b, r, arc, row).value.frame)
      && Bend(h, t, b, r, arc, row).value.frame.up == t.frame.up
  {
    if Bend(h, t, b, r, arc, row).Done? && Abs(b) > AngleEpsilon && r >= RadiusEpsilon {
      var d := t.frame.direction;
      var u := t.frame.up;
      var d1 := RotateVector(h, d, u, Radians(h, b));
      var nd := Norm(h, d1);
      NormalisedIsUnit(h, d1);
      RotateKeepsPerpendicular(h, d, u, Radians(h, b));
      DotScale(1.0 / nd, u, d1);
    }
  }

  /** With exact arithmetic a bend from an orthonormal frame never reports
      a geometric error: the up vector crossed with the direction has
      length 1, and so has the turned direction. */
  lemma BendNeverFailsGeometrically(h: Host, t: Trace, b: real, r: real, arc: Option<int>, row: nat)
    requires ExactSqrt(h) && ExactTrig(h)
    requires |t.points| > 0 && Orthonormal(t.frame)
    ensures !Bend(h, t, b, r, arc, row).Abort?
  {
    if Abs(b) > AngleEpsilon && r >= RadiusEpsilon {
      var d := t.frame.direction;
      var u := t.frame.up;
      CrossLengthSquared(u, d);
      NormOfUnit(h, Cross(u, d));
      RotatePerpendicularUnit(h, d, u, Radians(h, b));
      NormOfUnit(h, RotateVector(h, d, u, Radians(h, b)));
    }
  }

  /** Rotate gives a unit up vector perpendicular to a unit direction,
      whether it takes the re-orthogonalised rotation or falls back to the
      up vector it was given. */
  lemma PlaneRotationKeepsFrame(h: Host, d: Vec3, u: Vec3, c: real)
    requires ExactSqrt(h)
    requires Dot(d, d) == 1.0 && Dot(u, u) == 1.0 && Dot(u, d) == 0.0
    ensures Dot(PlaneRotation(h, d, u, c), PlaneRotation(h, d, u, c)) == 1.0
    ensures Dot(PlaneRotation(h, d, u, c), d) == 0.0
  {
    if Abs(c) > AngleEpsilon {
      var rotated := RotateVector(h, u, d, Radians(h, c));
      var k := Dot(rotated, d);
      var residual := Sub(rotated, Scale(k, d));
      DotSub(rotated, Scale(k, d), d);
      DotScale(k, d, d);
      assert Dot(residual, d) == 0.0;
      var nr := Norm(h, residual);
      if nr >= NormEpsilon {
        NormalisedIsUnit(h, residual);
        DotScale(1.0 / nr, residual, d);
      } else {
        assert Dot(d, u) == 0.0;
      }
    } else {
      assert Dot(d, u) == 0.0;
    }
  }

  /** One record keeps the frame orthonormal. */
  lemma StepKeepsFrame(h: Host, t: Trace, item: Json, row: nat, arc: Option<int>)
    requires ExactSqrt(h)
    requires |t.points| > 0 && Orthonormal(t.frame)
    ensures StepRecord(h, t, item, row, arc).Done? ==> Orthonormal(StepRecord(h, t, item, row, arc).value.frame)
  {
    if StepRecord(h, t, item, row, arc).Done? {
      var rec := ParseRecord(h, item, row).value;
      var fed := Feed(t, rec.y);
      assert Orthonormal(fed.frame);
      BendKeepsFrame(h, fed, rec.b, rec.radius, arc, row);
      var bent := Bend(h, fed, rec.b, rec.radius, arc, row).value;
      PlaneRotationKeepsFrame(h, bent.frame.direction, fed.frame.up, rec.c);
    }
  }

  /** With exact arithmetic a record step from an orthonormal frame fails
      only when the record itself is malformed, with the same outcome as
      its parse. */
  lemma StepFailsOnlyOnInput(h: Host, t: Trace, item: Json, row: nat, arc: Option<int>)
    requires ExactSqrt(h) && ExactTrig(h)
    requires |t.points| > 0 && Orthonormal(t.frame)
    ensures StepRecord(h, t, item, row, arc).Abort? ==>
      && ParseRecord(h, item, row).Abort?
      && StepRecord(h, t, item, row, arc).error == ParseRecord(h, item, row).error
      && InputError(StepRecord(h, t, item, row, arc).error)
  {
    if ParseRecord(h, item, row).Done? {
      var rec := ParseRecord(h, item, row).value;
      var fed := Feed(t, rec.y);
      assert Orthonormal(fed.frame);
      BendNeverFailsGeometrically(h, fed, rec.b, rec.radius, arc, row);
    }
  }

  /** After every successfully processed prefix the frame is orthonormal. */
  lemma {:induction false} WalkKeepsFrame(h: Host, recs: seq<Json>, arc: Option<int>, k: nat)
    requires ExactSqrt(h)
    requires k <= |recs|
    ensures Walk(h, recs, arc, k).Done? ==> Orthonormal(Walk(h, recs, arc, k).value.frame)
  {
    if k == 0 {
      StartFrameOrthonormal();
    } else {
      WalkKeepsFrame(h, recs, arc, k - 1);
      if Walk(h, recs, arc, k - 1).Done? {
        StepKeepsFrame(h, Walk(h, recs, arc, k - 1).value, recs[k - 1], k, arc);
      }
    }
  }

  /** With exact arithmetic a run over the records fails only on a
      malformed record. */
  lemma {:induction false} WalkFailsOnlyOnInput(h: Host, recs: seq<Json>, arc: Option<int>, k: nat)
    requires ExactSqrt(h) && ExactTrig(h)
    requires k <= |recs|
    ensures Walk(h, recs, arc, k).Abort? ==> InputError(Walk(h, recs, arc, k).error)
  {
    if k > 0 {
      WalkFailsOnlyOnInput(h, recs, arc, k - 1);
      if Walk(h, recs, arc, k - 1).Done? {
        WalkKeepsFrame(h, recs, arc, k - 1);
        StepFailsOnlyOnInput(h, Walk(h, recs, arc, k - 1).value, recs[k - 1], k, arc);
      }
    }
  }

  /** A successful response ends in a unit direction and a unit up vector
      perpendicular to it. */
  lemma FinalFrameOrthonormal(h: Host, data: Json)
    requires ExactSqrt(h)
    ensures Calculate(h, data).Returned? && Calculate(h, data).response.error.None? ==>
      var resp := Calculate(h, data).response;
      && Dot(resp.finalDirection, resp.finalDirection) == 1.0
      && (resp.finalUp.Some? ==>
            Dot(resp.finalUp.value, resp.finalUp.value) == 1.0 &&
            Dot(resp.finalUp.value, resp.finalDirection) == 0.0)
  {
    if data.JObject? && "YBC" in data.fields && data.fields["YBC"].JList? {
      var recs := data.fields["YBC"].items;
      WalkKeepsFrame(h, recs, ArcSetting(data.fields), |recs|);
    }
  }

  /** With exact arithmetic every error a response reports is about the
      request: not a dictionary, no YBC list, or a malformed record. */
  lemma ReportedErrorsAreInputErrors(h: Host, data: Json)
    requires ExactSqrt(h) && ExactTrig(h)
    ensures Calculate(h, data).Returned? && Calculate(h, data).response.error.Some? ==>
      var e := Calculate(h, data).response.error.value;
      e == NotADictionary || e == MissingYbcList || InputError(e)
  {
    if data.JObject? && "YBC" in data.fields && data.fields["YBC"].JList? {
      var recs := data.fields["YBC"].items;
      WalkFailsOnlyOnInput(h, recs, ArcSetting(data.fields), |recs|);
    }
  }
}
