/** Concrete requests and what the engine answers to them. */
module Scenarios {
  import opened Wrappers
  import opened Vectors
  import opened Numerics
  import opened Rotation
  import opened Json
  import opened Centerline
  import opened Bookkeeping
  import opened Geometry

  function Record(y: int, b: int, c: int, radius: int): Json {
    JObject(map["Y" := JInt(y), "B" := JInt(b), "C" := JInt(c), "Radius" := JInt(radius)])
  }

  function Request(recs: seq<Json>): Json {
    JObject(map["YBC" := JList(recs)])
  }

  /** p + r d + r w, computed once for the concrete cases below. */
  lemma Tip(p: Vec3, d: Vec3, w: Vec3, r: real, q: Vec3)
    requires q == Vec3(p.x + r * d.x + r * w.x, p.y + r * d.y + r * w.y, p.z + r * d.z + r * w.z)
    ensures Add(Add(p, Scale(r, d)), Scale(r, w)) == q
  {
  }

  /** A record of four integers, the radius not negative, parses to their values. */
  lemma RecordParses(h: Host, y: int, b: int, c: int, radius: int, row: nat)
    requires radius >= 0
    ensures ParseRecord(h, Record(y, b, c, radius), row) == Done(Ybcr(y as real, b as real, c as real, radius as real))
  {
  }

  /** A record asking for nothing leaves the tube as a single point at the
      origin, with no segments and the start frame. */
  lemma AllZeroRecord(h: Host)
    ensures Calculate(h, Request([Record(0, 0, 0, 0)])) ==
      Returned(Response(None, [Zero], [], Zero, StartDirection, Some(StartUp), DefaultDiameter))
  {
    var recs := [Record(0, 0, 0, 0)];
    assert ParseRecord(h, recs[0], 1) == Done(Ybcr(0.0, 0.0, 0.0, 0.0));
    assert Walk(h, recs, Some(DefaultArcPoints), 1) == Done(StartTrace);
  }

  /** The records are checked in order, Y before B: a record holding only
      Y is reported as missing B, in row 1. */
  lemma MissingBend(h: Host)
    ensures Calculate(h, Request([JObject(map["Y" := JInt(10)])])) ==
      Returned(ErrorResponse(MissingKey("B", 1), DefaultDiameter))
  {
    var item := JObject(map["Y" := JInt(10)]);
    assert ParseRecord(h, item, 1) == Abort(MissingKey("B", 1));
    assert Walk(h, [item], Some(DefaultArcPoints), 1) == Abort(MissingKey("B", 1));
  }

  /** A negative radius is rejected before anything else of its record is
      done, and the earlier records' work is discarded. */
  lemma NegativeRadiusInSecondRow(h: Host)
    ensures Calculate(h, Request([Record(10, 0, 0, 0), Record(5, 0, 0, -1)])) ==
      Returned(ErrorResponse(NegativeRadius(2), DefaultDiameter))
  {
    var recs := [Record(10, 0, 0, 0), Record(5, 0, 0, -1)];
    assert ParseRecord(h, recs[0], 1) == Done(Ybcr(10.0, 0.0, 0.0, 0.0));
    assert ParseRecord(h, recs[1], 2) == Abort(NegativeRadius(2));
    assert Walk(h, recs, Some(DefaultArcPoints), 1).Done?;
  }

  /** A NumArcPoints that is not an integer goes unnoticed until a bend is
      sampled, and then leaves the engine as an exception. */
  lemma TextArcCountRaises(h: Host)
    requires h.sqrt(1.0) == 1.0
    ensures Calculate(h, JObject(map["YBC" := JList([Record(0, 90, 0, 10)]), "NumArcPoints" := JText("5")])) ==
      Threw(ArcCountNotAnInteger(1))
  {
    var recs := [Record(0, 90, 0, 10)];
    assert ParseRecord(h, recs[0], 1) == Done(Ybcr(0.0, 90.0, 0.0, 10.0));
    var perp := Cross(StartUp, StartDirection);
    assert perp == Vec3(0.0, 1.0, 0.0);
    var fields := map["YBC" := JList(recs), "NumArcPoints" := JText("5")];
    assert ArcSetting(fields) == None;
    assert Feed(StartTrace, 0.0) == StartTrace;
    assert Bend(h, StartTrace, 90.0, 10.0, None, 1) == Raise(ArcCountNotAnInteger(1));
    assert StepRecord(h, StartTrace, recs[0], 1, None) == Raise(ArcCountNotAnInteger(1));
    assert Walk(h, recs, None, 1) == Raise(ArcCountNotAnInteger(1));
  }

  /** The trace after the record {Y: y, B: 90, C: 0, Radius: r}. */
  lemma QuarterBendTrace(h: Host, y: int, r: int)
    requires h.sqrt(1.0) == 1.0
    requires h.cos(Radians(h, 90.0)) == 0.0 && h.sin(Radians(h, 90.0)) == 1.0
    requires y >= 1 && r >= 1
    ensures
      var w := Walk(h, [Record(y, 90, 0, r)], Some(DefaultArcPoints), 1);
      && w.Done?
      && |w.value.points| == 32
      && w.value.points[0] == Zero
      && w.value.points[1] == Vec3(y as real, 0.0, 0.0)
      && w.value.points[31] == w.value.frame.point
      && w.value.frame == Frame(Vec3(y as real + r as real, r as real, 0.0), Vec3(0.0, 1.0, 0.0), StartUp)
      && w.value.segments == [FeedSegment(y as real, 0, 1), BendSegment(90.0, r as real, 1, 31)]
  {
    var recs := [Record(y, 90, 0, r)];
    var arc := Some(DefaultArcPoints);
    var yr, rr := y as real, r as real;
    assert ParseRecord(h, recs[0], 1) == Done(Ybcr(yr, 90.0, 0.0, rr));
    var p1 := Vec3(yr, 0.0, 0.0);
    var fed := Feed(StartTrace, yr);
    assert fed == Trace(Frame(p1, StartDirection, StartUp), [Zero, p1], [FeedSegment(yr, 0, 1)], 1);
    assert Cross(StartUp, StartDirection) == Vec3(0.0, 1.0, 0.0);
    QuarterTurn(h, fed, rr, arc, 1);
    var tip := Vec3(yr + rr, rr, 0.0);
    Tip(p1, StartDirection, Vec3(0.0, 1.0, 0.0), rr, tip);
    var bent := Bend(h, fed, 90.0, rr, arc, 1).value;
    assert bent.frame == Frame(tip, Vec3(0.0, 1.0, 0.0), StartUp);
    StartTraceWellFormed(arc);
    FeedEffect(StartTrace, yr, arc);
    BendEffect(h, fed, 90.0, rr, arc, 1);
    assert |bent.points| == 32 && bent.points[..2] == fed.points;
    assert bent.points[1] == bent.points[..2][1] == p1;
    assert bent.segments == [FeedSegment(yr, 0, 1), BendSegment(90.0, rr, 1, 31)];
    assert StepRecord(h, StartTrace, recs[0], 1, arc) == Done(bent);
  }

  /** A feed of y followed by a quarter bend of radius r, with the default
      30 arc samples, bends about the up vector +z: the tube turns from +x
      to +y in the x-y plane. The last arc sample is (y + r, r, 0), the
      direction becomes (0, 1, 0) and the up vector stays (0, 0, 1); the
      polyline has 32 points and the segments cover indices 0-1 and 1-31.
      For y = 100 and r = 50 the tube ends at (150, 50, 0). */
  lemma QuarterBend(h: Host, y: int, r: int)
    requires h.sqrt(1.0) == 1.0
    requires h.cos(Radians(h, 90.0)) == 0.0 && h.sin(Radians(h, 90.0)) == 1.0
    requires y >= 1 && r >= 1
    ensures
      var o := Calculate(h, Request([Record(y, 90, 0, r)]));
      var tip := Vec3(y as real + r as real, r as real, 0.0);
      && o.Returned?
      && o.response.error.None?
      && |o.response.centerlinePoints| == 32
      && o.response.centerlinePoints[0] == Zero
      && o.response.centerlinePoints[1] == Vec3(y as real, 0.0, 0.0)
      && o.response.centerlinePoints[31] == tip
      && o.response.finalPoint == tip
      && o.response.finalDirection == Vec3(0.0, 1.0, 0.0)
      && o.response.finalUp == Some(StartUp)
      && o.response.segmentInfo == [FeedSegment(y as real, 0, 1), BendSegment(90.0, r as real, 1, 31)]
  {
    var recs := [Record(y, 90, 0, r)];
    assert ArcSetting(Request(recs).fields) == Some(DefaultArcPoints);
    QuarterBendTrace(h, y, r);
  }

  /** The start axes: unit direction +x, unit up +z, perpendicular. */
  lemma UnitAxes(d: Vec3, u: Vec3)
    requires d == Vec3(1.0, 0.0, 0.0) && u == Vec3(0.0, 0.0, 1.0)
    ensures Dot(d, d) == 1.0 && Dot(u, u) == 1.0 && Dot(u, d) == 0.0
  {
  }

  /** +x cross +z is -y. */
  lemma AxesCross(d: Vec3, u: Vec3)
    requires d == Vec3(1.0, 0.0, 0.0) && u == Vec3(0.0, 0.0, 1.0)
    ensures Cross(d, u) == Vec3(0.0, -1.0, 0.0)
  {
  }

  /** A quarter plane rotation of u about d lands on d x u, named w here. */
  lemma QuarterRotationTo(h: Host, d: Vec3, u: Vec3, c: real, w: Vec3)
    requires h.sqrt(1.0) == 1.0
    requires Dot(d, d) == 1.0 && Dot(u, u) == 1.0 && Dot(u, d) == 0.0 && Cross(d, u) == w
    requires c >= 1.0 && h.cos(Radians(h, c)) == 0.0 && h.sin(Radians(h, c)) == 1.0
    ensures PlaneRotation(h, d, u, c) == w
  {
    QuarterRotation(h, d, u, c);
  }

  /** A 90-degree plane rotation about the start direction +x turns the
      start up vector +z to -y. */
  lemma StartUpQuarterRotation(h: Host, c: real)
    requires h.sqrt(1.0) == 1.0
    requires c >= 1.0 && h.cos(Radians(h, c)) == 0.0 && h.sin(Radians(h, c)) == 1.0
    ensures PlaneRotation(h, StartDirection, StartUp, c) == Vec3(0.0, -1.0, 0.0)
  {
    UnitAxes(StartDirection, StartUp);
    AxesCross(StartDirection, StartUp);
    QuarterRotationTo(h, StartDirection, StartUp, c, Vec3(0.0, -1.0, 0.0));
  }

  /** A record {Y: 0, B: 0, C: c} for a plane-rotation angle c whose
      cosine is 0 and sine 1 (90 degrees) only turns the up vector, from +z
      to -y: right-handed about the direction +x. */
  lemma RotationOnlyStep(h: Host, c: int)
    requires h.sqrt(1.0) == 1.0
    requires c >= 1 && h.cos(Radians(h, c as real)) == 0.0 && h.sin(Radians(h, c as real)) == 1.0
    ensures StepRecord(h, StartTrace, Record(0, 0, c, 0), 1, Some(DefaultArcPoints)) ==
      Done(StartTrace.(frame := StartFrame.(up := Vec3(0.0, -1.0, 0.0))))
  {
    var item := Record(0, 0, c, 0);
    var arc := Some(DefaultArcPoints);
    RecordParses(h, 0, 0, c, 0, 1);
    StartUpQuarterRotation(h, c as real);
    StartTraceWellFormed(arc);
    RotationOnlyRecord(h, StartTrace, item, 1, arc, c as real);
  }

  /** A record that neither feeds nor bends only sets the up vector to its
      plane rotation about the current direction. */
  lemma RotationOnlyRecord(h: Host, t: Trace, item: Json, row: nat, arc: Option<int>, c: real)
    requires WellFormed(t, arc)
    requires ParseRecord(h, item, row) == Done(Ybcr(0.0, 0.0, c, 0.0))
    ensures StepRecord(h, t, item, row, arc) ==
      Done(t.(frame := t.frame.(up := PlaneRotation(h, t.frame.direction, t.frame.up, c))))
  {
    FeedEffect(t, 0.0, arc);
    BendEffect(h, t, 0.0, 0.0, arc, row);
  }

  /** The trace after a first record that only rotates the plane by 90 degrees. */
  lemma RotationOnlyTrace(h: Host, recs: seq<Json>, c: int)
    requires h.sqrt(1.0) == 1.0
    requires c >= 1 && h.cos(Radians(h, c as real)) == 0.0 && h.sin(Radians(h, c as real)) == 1.0
    requires |recs| >= 1 && recs[0] == Record(0, 0, c, 0)
    ensures Walk(h, recs, Some(DefaultArcPoints), 1) == Done(RotatedStart())
  {
    RotationOnlyStep(h, c);
    assert StartTrace.(frame := StartFrame.(up := Vec3(0.0, -1.0, 0.0))) == RotatedStart();
  }

  /** A quarter bend from an orthonormal frame turns the direction to
      w = up x direction and moves the point to point + r direction + r w. */
  lemma QuarterTurnTo(h: Host, t: Trace, r: real, arc: Option<int>, row: nat, w: Vec3, tip: Vec3)
    requires h.sqrt(1.0) == 1.0
    requires h.cos(Radians(h, 90.0)) == 0.0 && h.sin(Radians(h, 90.0)) == 1.0
    requires |t.points| > 0
    requires Dot(t.frame.direction, t.frame.direction) == 1.0 && Dot(t.frame.up, t.frame.up) == 1.0
    requires Dot(t.frame.up, t.frame.direction) == 0.0
    requires r >= RadiusEpsilon && arc.Some? && arc.value > 0
    requires Cross(t.frame.up, t.frame.direction) == w
    requires Add(Add(t.frame.point, Scale(r, t.frame.direction)), Scale(r, w)) == tip
    ensures Bend(h, t, 90.0, r, arc, row).Done?
    ensures Bend(h, t, 90.0, r, arc, row).value.frame == Frame(tip, w, t.frame.up)
  {
    QuarterTurn(h, t, r, arc, row);
  }

  /** The trace at the origin heading +x with up vector -y. */
  function RotatedStart(): Trace {
    Trace(Frame(Zero, StartDirection, Vec3(0.0, -1.0, 0.0)), [Zero], [], 0)
  }

  /** A frame heading +x with up vector -y is orthonormal, its up vector
      crossed with its direction is w = +z, and a quarter bend of radius r
      from it moves the point by (r, 0, r). The vectors are given by their
      coordinates. */
  lemma RotatedFrame(f: Frame, r: real, w: Vec3, tip: Vec3)
    requires f.direction.x == 1.0 && f.direction.y == 0.0 && f.direction.z == 0.0
    requires f.up.x == 0.0 && f.up.y == -1.0 && f.up.z == 0.0
    requires w.x == 0.0 && w.y == 0.0 && w.z == 1.0
    requires tip.x == f.point.x + r && tip.y == f.point.y && tip.z == f.point.z + r
    ensures Dot(f.direction, f.direction) == 1.0 && Dot(f.up, f.up) == 1.0 && Dot(f.up, f.direction) == 0.0
    ensures Cross(f.up, f.direction) == w
    ensures Add(Add(f.point, Scale(r, f.direction)), Scale(r, w)) == tip
  {
    SameCoordinates(Cross(f.up, f.direction), w);
    SameCoordinates(Add(Add(f.point, Scale(r, f.direction)), Scale(r, w)), tip);
  }

  /** A quarter bend of radius r heading +x with up vector -y bends about
      -y: it moves the point by (r, 0, r) and heads w = +z. */
  lemma RotatedQuarterFrame(h: Host, t: Trace, r: real, arc: Option<int>, row: nat, w: Vec3, tip: Vec3)
    requires h.sqrt(1.0) == 1.0
    requires h.cos(Radians(h, 90.0)) == 0.0 && h.sin(Radians(h, 90.0)) == 1.0
    requires |t.points| > 0 && r >= 1.0 && arc.Some? && arc.value > 0
    requires t.frame.direction.x == 1.0 && t.frame.direction.y == 0.0 && t.frame.direction.z == 0.0
    requires t.frame.up.x == 0.0 && t.frame.up.y == -1.0 && t.frame.up.z == 0.0
    requires w.x == 0.0 && w.y == 0.0 && w.z == 1.0
    requires tip.x == t.frame.point.x + r && tip.y == t.frame.point.y && tip.z == t.frame.point.z + r
    ensures Bend(h, t, 90.0, r, arc, row).Done?
    ensures Bend(h, t, 90.0, r, arc, row).value.frame == Frame(tip, w, t.frame.up)
  {
    RotatedFrame(t.frame, r, w, tip);
    QuarterTurnTo(h, t, r, arc, row, w, tip);
  }

  /** The rotated start meets the loop invariant. */
  lemma RotatedStartWellFormed(arc: Option<int>)
    ensures WellFormed(RotatedStart(), arc)
  {
  }

  /** A performed quarter bend from a well-formed trace with one point and
      no segments leaves 31 points and one bend segment over indices 0-30. */
  lemma RotatedQuarterShape(h: Host, t: Trace, r: real, arc: Option<int>, row: nat)
    requires WellFormed(t, arc) && t.segments == [] && t.start == 0
    requires arc == Some(DefaultArcPoints) && r >= 1.0
    requires Bend(h, t, 90.0, r, arc, row).Done?
    ensures |Bend(h, t, 90.0, r, arc, row).value.points| == 31
    ensures Bend(h, t, 90.0, r, arc, row).value.segments == [BendSegment(90.0, r, 0, 30)]
  {
    BendEffect(h, t, 90.0, r, arc, row);
    FirstBendSegment(Bend(h, t, 90.0, r, arc, row), t, r, ArcWidth(arc));
  }

  /** A bend segment appended to no segments, from index 0, is the only one. */
  lemma FirstBendSegment(o: Outcome<Trace>, t: Trace, r: real, w: nat)
    requires o.Done? && o.value.segments == t.segments + [BendSegment(90.0, r, t.start, t.start + w)]
    requires t.segments == [] && t.start == 0
    ensures o.value.segments == [BendSegment(90.0, r, 0, w)]
  {
  }

  /** A plane rotation of 90 degrees turns the up vector from +z to -y, so
      a following quarter bend of radius r turns the tube from +x to +z in
      the x-z plane and ends at (r, 0, r) with the up vector -y. */
  lemma RotatedPlane(h: Host, c: int, r: int)
    requires h.sqrt(1.0) == 1.0
    requires c >= 1 && h.cos(Radians(h, c as real)) == 0.0 && h.sin(Radians(h, c as real)) == 1.0
    requires h.cos(Radians(h, 90.0)) == 0.0 && h.sin(Radians(h, 90.0)) == 1.0
    requires r >= 1
    ensures
      var o := Calculate(h, Request([Record(0, 0, c, 0), Record(0, 90, 0, r)]));
      && o.Returned?
      && o.response.error.None?
      && |o.response.centerlinePoints| == 31
      && o.response.finalPoint == Vec3(r as real, 0.0, r as real)
      && o.response.finalDirection == Vec3(0.0, 0.0, 1.0)
      && o.response.finalUp == Some(Vec3(0.0, -1.0, 0.0))
      && o.response.segmentInfo == [BendSegment(90.0, r as real, 0, 30)]
  {
    var recs := [Record(0, 0, c, 0), Record(0, 90, 0, r)];
    var arc := Some(DefaultArcPoints);
    var rr := r as real;
    assert ArcSetting(Request(recs).fields) == arc;
    RotationOnlyTrace(h, recs, c);
    var t1 := RotatedStart();
    RecordParses(h, 0, 90, 0, r, 2);
    RotatedQuarterFrame(h, t1, rr, arc, 2, Vec3(0.0, 0.0, 1.0), Vec3(rr, 0.0, rr));
    RotatedStartWellFormed(arc);
    RotatedQuarterShape(h, t1, rr, arc, 2);
    var bent := Bend(h, t1, 90.0, rr, arc, 2).value;
    assert StepRecord(h, t1, recs[1], 2, arc) == Done(bent);
    assert Walk(h, recs, arc, 2) == Done(bent);
  }
}
