/** `calculate_centerline_from_data` as the imperative loop it is: the frame,
    the polyline, the segment list and the next segment's start index are
    updated record by record, with a nested loop that samples each arc, and
    the first fatal condition returns at once. Its result is proved equal to
    the functional specification `Centerline.Calculate`. */
module Engine {
  import opened Wrappers
  import opened Vectors
  import opened Numerics
  import opened Rotation
  import opened Json
  import opened Centerline

  /** The arc-sampling loop: for j = 1 .. n, rotate the start vector by the
      fraction j/n of the bend angle about the bend axis and append the
      resulting point, n points in all (none when n <= 0). */
  method SampleArc(h: Host, points: seq<Vec3>, center: Vec3, v0: Vec3, axis: Vec3, bRad: real, n: int)
    returns (extended: seq<Vec3>)
    ensures extended == points + ArcPoints(h, center, v0, axis, bRad, n)
  {
    ghost var arcPoints := ArcPoints(h, center, v0, axis, bRad, n);
    extended := points;
    var j := 1;
    while j <= n
      invariant 1 <= j <= (if n > 0 then n + 1 else 1)
      invariant extended == points + arcPoints[..j - 1]
    {
      var angleStep := ArcAngle(bRad, n, j);
      var fromCenter := RotateVector(h, v0, axis, angleStep);
      assert ArcPoint(h, center, v0, axis, bRad, n, j) == Add(center, fromCenter);
      assert arcPoints[j - 1] == ArcPoint(h, center, v0, axis, bRad, n, j);
      assert arcPoints[..j] == arcPoints[..j - 1] + [arcPoints[j - 1]];
      extended := extended + [Add(center, fromCenter)];
      j := j + 1;
    }
    assert arcPoints[..j - 1] == arcPoints;
  }

  /** The bend phase of one record: skipped for a (near) zero angle or a
      radius too small to bend, otherwise the arc is sampled, the tip moves
      to its end and the direction turns by the bend angle about the up
      vector; the two degenerate cases abort. */
  method BendTube(h: Host, t: Trace, b: real, r: real, arc: Option<int>, row: nat) returns (o: Outcome<Trace>)
    requires |t.points| > 0
    ensures o == Bend(h, t, b, r, arc, row)
  {
    if Abs(b) <= AngleEpsilon || r < RadiusEpsilon {
      return Done(t);
    }
    var point, direction, up := t.frame.point, t.frame.direction, t.frame.up;
    var bRad := Radians(h, b);
    var perp := Cross(up, direction);
    var normPerp := Norm(h, perp);
    if normPerp < NormEpsilon {
      return Abort(ParallelUpAndDirection(row));
    }
    var center := Add(point, Scale(r, Scale(1.0 / normPerp, perp)));
    var v0 := Sub(point, center);
    if arc.None? {
      return Raise(ArcCountNotAnInteger(row));
    }
    var points := SampleArc(h, t.points, center, v0, up, bRad, arc.value);
    point := points[|points| - 1];
    var turned := RotateVector(h, direction, up, bRad);
    var normTurned := Norm(h, turned);
    if normTurned > NormEpsilon {
      direction := Scale(1.0 / normTurned, turned);
    } else {
      return Abort(ZeroDirectionAfterBend(row));
    }
    var end := |points| - 1;
    o := Done(Trace(Frame(point, direction, up), points, t.segments + [BendSegment(b, r, t.start, end)], end));
  }

  /** One pass of the record loop: parse the record, then Feed, Bend and
      Rotate, the first two appending to the polyline and the segment list. */
  method ProcessRecord(h: Host, t: Trace, item: Json, row: nat, arc: Option<int>) returns (o: Outcome<Trace>)
    requires |t.points| > 0
    ensures o == StepRecord(h, t, item, row, arc)
  {
    var parsed := ParseRecord(h, item, row);
    if !parsed.Done? {
      return if parsed.Abort? then Abort(parsed.error) else Raise(parsed.exc);
    }
    var y, b, c, r := parsed.value.y, parsed.value.b, parsed.value.c, parsed.value.radius;
    var point, direction, up := t.frame.point, t.frame.direction, t.frame.up;
    var points, segments, start := t.points, t.segments, t.start;

    // Feed
    if Abs(y) > FeedEpsilon {
      point := Add(point, Scale(y, direction));
      points := points + [point];
      var end := |points| - 1;
      segments := segments + [FeedSegment(y, start, end)];
      start := end;
    }
    var fed := Trace(Frame(point, direction, up), points, segments, start);
    assert fed == Feed(t, y);

    // Bend, in the plane of the up vector entering this record
    var upForBendPlane := up;
    var bent := BendTube(h, fed, b, r, arc, row);
    if !bent.Done? {
      return bent;
    }
    point, direction := bent.value.frame.point, bent.value.frame.direction;
    points, segments, start := bent.value.points, bent.value.segments, bent.value.start;

    // Rotate: spins the entering up vector about the direction after the bend
    var axis := direction;
    if Abs(c) > AngleEpsilon {
      var cRad := Radians(h, c);
      var rotatedUp := RotateVector(h, upForBendPlane, axis, cRad);
      var projection := Scale(Dot(rotatedUp, axis), axis);
      var orthogonalUp := Sub(rotatedUp, projection);
      var normOrthogonal := Norm(h, orthogonalUp);
      if normOrthogonal >= NormEpsilon {
        up := Scale(1.0 / normOrthogonal, orthogonalUp);
      }
      // otherwise the previous up vector is kept
    }
    assert up == PlaneRotation(h, direction, upForBendPlane, c);
    o := Done(Trace(Frame(point, direction, up), points, segments, start));
  }

  method CalculateCenterline(h: Host, data: Json) returns (result: RunResult)
    ensures result == Calculate(h, data)
  {
    if !data.JObject? {
      return Returned(ErrorResponse(NotADictionary, DefaultDiameter));
    }
    var fields := data.fields;

    var diameter := DefaultDiameter;
    var given := Get(fields, "Diameter");
    if given.Some? {
      var number := AsNumber(given.value);
      if number.Some? && number.value > 0.0 {
        diameter := number.value;
      }
    }

    if "YBC" !in fields || !fields["YBC"].JList? {
      return Returned(ErrorResponse(MissingYbcList, diameter));
    }
    var recs := fields["YBC"].items;
    if |recs| == 0 {
      return Returned(Response(None, [], [], Zero, StartDirection, None, diameter));
    }

    var point, direction, up := Zero, StartDirection, StartUp;
    var points := [Zero];
    var segments: seq<Segment> := [];
    var start := 0;
    var arc := ArcSetting(fields);

    for i := 0 to |recs|
      invariant Walk(h, recs, arc, i) == Done(Trace(Frame(point, direction, up), points, segments, start))
    {
      var step := ProcessRecord(h, Trace(Frame(point, direction, up), points, segments, start), recs[i], i + 1, arc);
      if !step.Done? {
        WalkStops(h, recs, arc, i + 1, |recs|);
        return if step.Abort? then Returned(ErrorResponse(step.error, diameter)) else Threw(step.exc);
      }
      point, direction, up := step.value.frame.point, step.value.frame.direction, step.value.frame.up;
      points, segments, start := step.value.points, step.value.segments, step.value.start;
    }

    return Returned(Response(None, points, segments, point, direction, Some(up), diameter));
  }
}
