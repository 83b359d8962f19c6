/** The centerline engine `calculate_centerline_from_data`, stated as
    functions: a run is a left fold of one step per YBCR record over a
    trace made of the moving frame, the polyline, the segment list and the
    index where the next segment starts. The imperative engine in module
    Engine is proved to compute exactly this. */
module Centerline {
  import opened Wrappers
  import opened Vectors
  import opened Numerics
  import opened Rotation
  import opened Json

  const DefaultDiameter := 30.0
  const DefaultArcPoints := 30

  /** A feed shorter than this (in absolute value) is skipped. */
  const FeedEpsilon := 0.000000001
  /** A bend or plane-rotation angle, in degrees, at most this is skipped. */
  const AngleEpsilon := 0.000001
  /** A bend radius below this cannot be bent and the bend is skipped. */
  const RadiusEpsilon := 0.000000001
  /** Norm threshold for the bend-centre vector, the bent direction and the
      re-orthogonalised up vector. */
  const NormEpsilon := 0.000000001

  const StartDirection := Vec3(1.0, 0.0, 0.0)
  const StartUp := Vec3(0.0, 0.0, 1.0)

  function Abs(x: real): real {
    if x < 0.0 then -x else x
  }

  /** The errors the engine reports in its `error` field; `row` is the
      1-based record number its message names. */
  datatype Error =
    | NotADictionary
    | MissingYbcList
    | MissingKey(key: string, row: nat)
    | NotANumber(row: nat)
    | NegativeRadius(row: nat)
    | ParallelUpAndDirection(row: nat)
    | ZeroDirectionAfterBend(row: nat)

  /** The `TypeError`s the engine does not catch and that leave it as exceptions. */
  datatype Uncaught =
    | RecordNotADictionary(row: nat)
    | FieldNotConvertible(key: string, row: nat)
    | ArcCountNotAnInteger(row: nat)

  /** The result of one stage: a value, a reported error, or an uncaught exception. */
  datatype Outcome<T> = Done(value: T) | Abort(error: Error) | Raise(exc: Uncaught) {
    predicate IsFailure() {
      !Done?
    }

    function PropagateFailure<U>(): Outcome<U>
      requires !Done?
    {
      if Abort? then Abort(error) else Raise(exc)
    }

    function Extract(): T
      requires Done?
    {
      value
    }
  }

  /** One parsed record: feed Y, bend angle B and plane rotation C in
      degrees, and the bend radius. */
  datatype Ybcr = Ybcr(y: real, b: real, c: real, radius: real)

  datatype Frame = Frame(point: Vec3, direction: Vec3, up: Vec3)

  const StartFrame := Frame(Zero, StartDirection, StartUp)

  datatype Segment =
    | FeedSegment(value: real, startIdx: int, endIdx: int)
    | BendSegment(angle: real, radius: real, startIdx: int, endIdx: int)

  /** The loop state of the engine: its frame, `centerline_points_forward`,
      `segment_details` and `start_idx_for_segment`. */
  datatype Trace = Trace(frame: Frame, points: seq<Vec3>, segments: seq<Segment>, start: int)

  const StartTrace := Trace(StartFrame, [Zero], [], 0)

  datatype Response = Response(
    error: Option<Error>,
    centerlinePoints: seq<Vec3>,
    segmentInfo: seq<Segment>,
    finalPoint: Vec3,
    finalDirection: Vec3,
    finalUp: Option<Vec3>,
    diameter: real)

  /** A run either returns a response or leaves with an uncaught exception. */
  datatype RunResult = Returned(response: Response) | Threw(exc: Uncaught)

  /** The error template with its message filled in. */
  function ErrorResponse(e: Error, diameter: real): (resp: Response)
    ensures resp.error == Some(e) && resp.centerlinePoints == [] && resp.segmentInfo == []
    ensures resp.finalPoint == Vec3(0.0, 0.0, 0.0) && resp.finalDirection == Vec3(1.0, 0.0, 0.0)
    ensures resp.finalUp.None? && resp.diameter == diameter
  {
    Response(Some(e), [], [], Zero, StartDirection, None, diameter)
  }

  /** The tube diameter: the input value when it is a number (bools count)
      greater than zero, otherwise the default. */
  function ChooseDiameter(v: Option<Json>): (d: real)
    ensures d > 0.0
    ensures d != DefaultDiameter ==> v.Some? && AsNumber(v.value).Some? && d == AsNumber(v.value).value
    ensures v.Some? && AsNumber(v.value).Some? && AsNumber(v.value).value > 0.0 ==> d == AsNumber(v.value).value
  {
    if v.Some? && AsNumber(v.value).Some? && AsNumber(v.value).value > 0.0
    then AsNumber(v.value).value
    else DefaultDiameter
  }

  /** `data_dict.get('NumArcPoints', 30)` as `range` sees it: `None` stands
      for a value that is not an integer (nor a bool), for which `range`
      raises once a bend is sampled. */
  function ArcSetting(fields: map<string, Json>): (arc: Option<int>)
    ensures "NumArcPoints" !in fields ==> arc == Some(DefaultArcPoints)
    ensures arc.None? <==> "NumArcPoints" in fields && !fields["NumArcPoints"].JInt? && !fields["NumArcPoints"].JBool?
    ensures "NumArcPoints" in fields && fields["NumArcPoints"].JInt? ==> arc == Some(fields["NumArcPoints"].i)
    ensures "NumArcPoints" in fields && fields["NumArcPoints"].JBool? ==>
      arc == Some(if fields["NumArcPoints"].b then 1 else 0)
  {
    if "NumArcPoints" !in fields then Some(DefaultArcPoints)
    else match fields["NumArcPoints"]
      case JInt(n) => Some(n)
      case JBool(b) => Some(if b then 1 else 0)
      case _ => None
  }

  /** How many points one performed bend samples: `range(1, n + 1)` is
      empty for n <= 0. */
  function ArcWidth(arc: Option<int>): (w: nat)
    ensures arc.None? ==> w == 0
    ensures forall h, center, v0, axis, bRad ::
      arc.Some? ==> w == |ArcPoints(h, center, v0, axis, bRad, arc.value)|
  {
    if arc.Some? && arc.value > 0 then arc.value else 0
  }

  /** Python's `float(v)` on a record field. */
  function ToFloat(h: Host, v: Json, key: string, row: nat): (r: Outcome<real>)
    ensures r.Raise? <==> v.JNull? || v.JList? || v.JObject?
    ensures r.Raise? ==> r.exc == FieldNotConvertible(key, row)
    ensures r.Abort? <==> v.JText? && h.parseFloat(v.s).None?
    ensures r.Abort? ==> r.error == NotANumber(row)
    ensures v.JInt? ==> r == Done(v.i as real)
    ensures v.JFloat? ==> r == Done(v.f)
    ensures v.JText? && h.parseFloat(v.s).Some? ==> r == Done(h.parseFloat(v.s).value)
    ensures v.JBool? ==> r.Done? && (r.value == 1.0 <==> v.b) && (r.value == 0.0 <==> !v.b)
  {
    match v
    case JInt(i) => Done(i as real)
    case JFloat(f) => Done(f)
    case JBool(b) => Done(if b then 1.0 else 0.0)
    case JText(s) =>
      (match h.parseFloat(s)
       case Some(x) => Done(x)
       case None => Abort(NotANumber(row)))
    case _ => Raise(FieldNotConvertible(key, row))
  }

  /** `float(bend_props[key])`. */
  function Field(h: Host, fields: map<string, Json>, key: string, row: nat): (r: Outcome<real>)
    ensures key !in fields ==> r == Abort(MissingKey(key, row))
    ensures r.Abort? ==> r.error == MissingKey(key, row) || r.error == NotANumber(row)
    ensures r.Abort? && r.error.MissingKey? ==> key !in fields
    ensures key in fields ==> r == ToFloat(h, fields[key], key, row)
  {
    if key in fields then ToFloat(h, fields[key], key, row) else Abort(MissingKey(key, row))
  }

  /** Reads Y, B, C and the optional Radius (default 0.0) in that order,
      then rejects a negative radius. */
  function ParseRecord(h: Host, item: Json, row: nat): Outcome<Ybcr> {
    if !item.JObject? then Raise(RecordNotADictionary(row))
    else
      var f := item.fields;
      var y :- Field(h, f, "Y", row);
      var b :- Field(h, f, "B", row);
      var c :- Field(h, f, "C", row);
      var r :- if "Radius" in f then ToFloat(h, f["Radius"], "Radius", row) else Done(0.0);
      if r < 0.0 then Abort(NegativeRadius(row)) else Done(Ybcr(y, b, c, r))
  }

  /** Feed: move the tip along the direction and record a feed segment. */
  function Feed(t: Trace, y: real): Trace {
    if Abs(y) > FeedEpsilon then
      var p := Add(t.frame.point, Scale(y, t.frame.direction));
      var pts := t.points + [p];
      Trace(t.frame.(point := p), pts, t.segments + [FeedSegment(y, t.start, |pts| - 1)], |pts| - 1)
    else
      t
  }

  /** `b_rad * (j / float(n))`: the angle of the j-th of n arc samples. */
  function ArcAngle(bRad: real, n: int, j: int): real
    requires 1 <= j <= n
  {
    bRad * (j as real / n as real)
  }

  /** The j-th of n points sampled on the arc (1 <= j <= n): the start
      vector rotated by the fraction j/n of the bend angle, seen from the centre. */
  function ArcPoint(h: Host, center: Vec3, v0: Vec3, axis: Vec3, bRad: real, n: int, j: int): Vec3
    requires 1 <= j <= n
  {
    Add(center, RotateVector(h, v0, axis, ArcAngle(bRad, n, j)))
  }

  /** The points the arc-sampling loop appends, for j = 1 .. n. */
  function ArcPoints(h: Host, center: Vec3, v0: Vec3, axis: Vec3, bRad: real, n: int): (s: seq<Vec3>)
    ensures |s| == if n > 0 then n else 0
  {
    if n <= 0 then []
    else seq(n, k requires 0 <= k < n => ArcPoint(h, center, v0, axis, bRad, n, k + 1))
  }

  /** Bend: sample an arc about the up vector and turn the direction with it. */
  function Bend(h: Host, t: Trace, b: real, r: real, arc: Option<int>, row: nat): Outcome<Trace>
    requires |t.points| > 0
  {
    if Abs(b) <= AngleEpsilon || r < RadiusEpsilon then Done(t)
    else
      var bRad := Radians(h, b);
      var d := t.frame.direction;
      var u := t.frame.up;
      var perp := Cross(u, d);
      var np := Norm(h, perp);
      if np < NormEpsilon then Abort(ParallelUpAndDirection(row))
      else if arc.None? then Raise(ArcCountNotAnInteger(row))
      else
        var center := Add(t.frame.point, Scale(r, Scale(1.0 / np, perp)));
        var v0 := Sub(t.frame.point, center);
        var pts := t.points + ArcPoints(h, center, v0, u, bRad, arc.value);
        var d1 := RotateVector(h, d, u, bRad);
        var nd := Norm(h, d1);
        if nd > NormEpsilon then
          Done(Trace(Frame(pts[|pts| - 1], Scale(1.0 / nd, d1), u), pts,
                     t.segments + [BendSegment(b, r, t.start, |pts| - 1)], |pts| - 1))
        else
          Abort(ZeroDirectionAfterBend(row))
  }

  /** The rotated up vector with its component along the direction removed:
      the vector Rotate re-normalises. */
  function PlaneResidual(h: Host, direction: Vec3, up: Vec3, c: real): (residual: Vec3)
    ensures Dot(direction, direction) == 1.0 ==> Dot(residual, direction) == 0.0
  {
    var rotated := RotateVector(h, up, direction, Radians(h, c));
    var k := Dot(rotated, direction);
    DotSub(rotated, Scale(k, direction), direction);
    DotScale(k, direction, direction);
    Sub(rotated, Scale(k, direction))
  }

  /** Rotate: the up vector for the next record's bend plane, from the up
      vector that entered this record and the direction after its bend. An
      angle of at most 1e-6 degrees keeps the up vector; otherwise the
      residual is normalised, and when its norm is below 1e-9 the entering
      up vector is kept instead. */
  function PlaneRotation(h: Host, direction: Vec3, up: Vec3, c: real): (u: Vec3)
    ensures Abs(c) <= AngleEpsilon ==> u == up
    ensures Abs(c) > AngleEpsilon && Norm(h, PlaneResidual(h, direction, up, c)) < NormEpsilon ==> u == up
    ensures Abs(c) > AngleEpsilon && Norm(h, PlaneResidual(h, direction, up, c)) >= NormEpsilon ==>
      u == Scale(1.0 / Norm(h, PlaneResidual(h, direction, up, c)), PlaneResidual(h, direction, up, c))
  {
    if Abs(c) <= AngleEpsilon then up
    else
      var residual := PlaneResidual(h, direction, up, c);
      var nr := Norm(h, residual);
      if nr >= NormEpsilon then Scale(1.0 / nr, residual) else up
  }

  /** One record: parse it, then Feed, Bend and Rotate in that order. */
  function StepRecord(h: Host, t: Trace, item: Json, row: nat, arc: Option<int>): Outcome<Trace>
    requires |t.points| > 0
  {
    var rec :- ParseRecord(h, item, row);
    var fed := Feed(t, rec.y);
    var bent :- Bend(h, fed, rec.b, rec.radius, arc, row);
    Done(bent.(frame := bent.frame.(up := PlaneRotation(h, bent.frame.direction, fed.frame.up, rec.c))))
  }

  /** The first k records folded over the start trace; record i (0-based)
      is reported as row i + 1. */
  function Walk(h: Host, recs: seq<Json>, arc: Option<int>, k: nat): (r: Outcome<Trace>)
    requires k <= |recs|
    ensures r.Done? ==> |r.value.points| > 0
  {
    if k == 0 then Done(StartTrace)
    else
      var t :- Walk(h, recs, arc, k - 1);
      StepRecord(h, t, recs[k - 1], k, arc)
  }

  /** The whole of `calculate_centerline_from_data`, before serialisation. */
  function Calculate(h: Host, data: Json): (r: RunResult)
    ensures r.Returned? && r.response.error.Some? ==>
      r.response.centerlinePoints == [] && r.response.segmentInfo == [] &&
      r.response.finalPoint == Zero && r.response.finalDirection == StartDirection
  {
    if !data.JObject? then Returned(ErrorResponse(NotADictionary, DefaultDiameter))
    else
      var f := data.fields;
      var diameter := ChooseDiameter(Get(f, "Diameter"));
      if "YBC" !in f || !f["YBC"].JList? then Returned(ErrorResponse(MissingYbcList, diameter))
      else
        var recs := f["YBC"].items;
        if |recs| == 0 then Returned(Response(None, [], [], Zero, StartDirection, None, diameter))
        else
          match Walk(h, recs, ArcSetting(f), |recs|)
          case Done(t) =>
            Returned(Response(None, t.points, t.segments, t.frame.point, t.frame.direction, Some(t.frame.up), diameter))
          case Abort(e) => Returned(ErrorResponse(e, diameter))
          case Raise(x) => Threw(x)
  }

  /** Once a prefix of the records has failed, no later record is looked
      at: every longer prefix fails in the same way. */
  lemma {:induction false} WalkStops(h: Host, recs: seq<Json>, arc: Option<int>, k: nat, m: nat)
    requires k <= m <= |recs|
    requires !Walk(h, recs, arc, k).Done?
    ensures Walk(h, recs, arc, m) == Walk(h, recs, arc, k)
  {
    if m > k {
      WalkStops(h, recs, arc, k, m - 1);
    }
  }
}
