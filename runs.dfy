/** Properties of a whole run of `calculate_centerline_from_data`: which
    records it reads, which condition ends it, what every response holds,
    and how long the polyline is, in terms of the input records. */
module Runs {
  import opened Wrappers
  import opened Vectors
  import opened Numerics
  import opened Json
  import opened Centerline
  import opened Bookkeeping

  /** 1 when the record parses and feeds more than 1e-9, else 0. */
  function FeedAsked(h: Host, item: Json, row: nat): nat {
    match ParseRecord(h, item, row)
    case Done(rec) => if Abs(rec.y) > FeedEpsilon then 1 else 0
    case _ => 0
  }

  /** 1 when the record parses and asks for a bend that is performed: an
      angle above 1e-6 degrees and a radius of at least 1e-9; else 0. */
  function BendAsked(h: Host, item: Json, row: nat): nat {
    match ParseRecord(h, item, row)
    case Done(rec) => if Abs(rec.b) > AngleEpsilon && rec.radius >= RadiusEpsilon then 1 else 0
    case _ => 0
  }

  function FeedsRequested(h: Host, recs: seq<Json>, k: nat): nat
    requires k <= |recs|
  {
    if k == 0 then 0 else FeedsRequested(h, recs, k - 1) + FeedAsked(h, recs[k - 1], k)
  }

  function BendsRequested(h: Host, recs: seq<Json>, k: nat): nat
    requires k <= |recs|
  {
    if k == 0 then 0 else BendsRequested(h, recs, k - 1) + BendAsked(h, recs[k - 1], k)
  }

  /** A feed adds one feed segment when it is performed. */
  lemma FeedCounts(t: Trace, y: real, arc: Option<int>)
    requires WellFormed(t, arc)
    ensures FeedCount(Feed(t, y).segments) == FeedCount(t.segments) + if Abs(y) > FeedEpsilon then 1 else 0
    ensures BendCount(Feed(t, y).segments) == BendCount(t.segments)
  {
    FeedEffect(t, y, arc);
    if Abs(y) > FeedEpsilon {
      CountsAppend(t.segments, FeedSegment(y, t.start, t.start + 1));
    }
  }

  /** A bend that succeeds adds one bend segment when it is performed. */
  lemma BendCounts(h: Host, t: Trace, b: real, r: real, arc: Option<int>, row: nat)
    requires WellFormed(t, arc)
    ensures Bend(h, t, b, r, arc, row).Done? ==>
      && FeedCount(Bend(h, t, b, r, arc, row).value.segments) == FeedCount(t.segments)
      && BendCount(Bend(h, t, b, r, arc, row).value.segments) ==
           BendCount(t.segments) + if Abs(b) > AngleEpsilon && r >= RadiusEpsilon then 1 else 0
  {
    BendEffect(h, t, b, r, arc, row);
    if Abs(b) > AngleEpsilon && r >= RadiusEpsilon {
      CountsAppend(t.segments, BendSegment(b, r, t.start, t.start + ArcWidth(arc)));
    }
  }

  /** A record step that succeeds adds one feed segment when its feed is
      performed and one bend segment when its bend is. */
  lemma StepCounts(h: Host, t: Trace, item: Json, row: nat, arc: Option<int>)
    requires WellFormed(t, arc)
    ensures StepRecord(h, t, item, row, arc).Done? ==>
      && FeedCount(StepRecord(h, t, item, row, arc).value.segments) == FeedCount(t.segments) + FeedAsked(h, item, row)
      && BendCount(StepRecord(h, t, item, row, arc).value.segments) == BendCount(t.segments) + BendAsked(h, item, row)
  {
    StepEffect(h, t, item, row, arc);
    var step := StepRecord(h, t, item, row, arc);
    if step.Done? {
      var rec := ParseRecord(h, item, row).value;
      var fed := Feed(t, rec.y);
      FeedCounts(t, rec.y, arc);
      FeedEffect(t, rec.y, arc);
      BendCounts(h, fed, rec.b, rec.radius, arc, row);
      assert step.value.segments == Bend(h, fed, rec.b, rec.radius, arc, row).value.segments;
    }
  }

  /** After k records without failure, there is one feed segment for every
      feed asked for and one bend segment for every bend asked for. */
  lemma {:induction false} WalkSegmentCounts(h: Host, recs: seq<Json>, arc: Option<int>, k: nat)
    requires k <= |recs|
    ensures Walk(h, recs, arc, k).Done? ==>
      && FeedCount(Walk(h, recs, arc, k).value.segments) == FeedsRequested(h, recs, k)
      && BendCount(Walk(h, recs, arc, k).value.segments) == BendsRequested(h, recs, k)
  {
    if k > 0 && Walk(h, recs, arc, k).Done? {
      var prev := Walk(h, recs, arc, k - 1);
      assert prev.Done? && Walk(h, recs, arc, k) == StepRecord(h, prev.value, recs[k - 1], k, arc);
      WalkSegmentCounts(h, recs, arc, k - 1);
      WalkWellFormed(h, recs, arc, k - 1);
      StepCounts(h, prev.value, recs[k - 1], k, arc);
    }
  }

  /** After k records without failure, the polyline holds
      1 + feeds + ArcWidth * bends points. */
  lemma WalkCounts(h: Host, recs: seq<Json>, arc: Option<int>, k: nat)
    requires k <= |recs|
    ensures Walk(h, recs, arc, k).Done? ==>
      var t := Walk(h, recs, arc, k).value;
      && FeedCount(t.segments) == FeedsRequested(h, recs, k)
      && BendCount(t.segments) == BendsRequested(h, recs, k)
      && |t.points| == 1 + FeedsRequested(h, recs, k) + ArcWidth(arc) * BendsRequested(h, recs, k)
  {
    if Walk(h, recs, arc, k).Done? {
      WalkSegmentCounts(h, recs, arc, k);
      WalkWellFormed(h, recs, arc, k);
      PointsFromCounts(Walk(h, recs, arc, k).value, arc, FeedsRequested(h, recs, k), BendsRequested(h, recs, k));
    }
  }

  /** The fold over the first k records reads nothing but those records. */
  lemma {:induction false} WalkReadsPrefix(h: Host, recs: seq<Json>, recs': seq<Json>, arc: Option<int>, k: nat)
    requires k <= |recs| && k <= |recs'|
    requires recs[..k] == recs'[..k]
    ensures Walk(h, recs, arc, k) == Walk(h, recs', arc, k)
  {
    if k > 0 {
      assert recs[..k - 1] == recs'[..k - 1];
      assert recs[k - 1] == recs[..k][k - 1] == recs'[k - 1];
      WalkReadsPrefix(h, recs, recs', arc, k - 1);
    }
  }

  /** A failure within the first k records of one list is the outcome of
      every longer prefix of any list that starts with the same k records. */
  lemma {:induction false} FailureLasts(h: Host, recs: seq<Json>, recs': seq<Json>, arc: Option<int>, k: nat, m: nat)
    requires k <= |recs| && k <= m <= |recs'|
    requires recs[..k] == recs'[..k]
    requires !Walk(h, recs, arc, k).Done?
    ensures Walk(h, recs', arc, m) == Walk(h, recs, arc, k)
  {
    if m == k {
      WalkReadsPrefix(h, recs, recs', arc, k);
    } else {
      FailureLasts(h, recs, recs', arc, k, m - 1);
    }
  }

  /** Once the first k records have ended the run, records appended after
      them change nothing. */
  lemma AbortIgnoresLaterRecords(h: Host, recs: seq<Json>, arc: Option<int>, k: nat, later: seq<Json>)
    requires k <= |recs|
    requires !Walk(h, recs, arc, k).Done?
    ensures Walk(h, recs[..k] + later, arc, k + |later|) == Walk(h, recs, arc, k)
  {
    assert (recs[..k] + later)[..k] == recs[..k];
    FailureLasts(h, recs, recs[..k] + later, arc, k, k + |later|);
  }

  /** A failed run has a first failing record: number k + 1, reached with
      the first k records processed, whose own step gives the run's outcome. */
  lemma {:induction false} FirstFailure(h: Host, recs: seq<Json>, arc: Option<int>, m: nat) returns (k: nat)
    requires m <= |recs|
    requires !Walk(h, recs, arc, m).Done?
    ensures k < m
    ensures Walk(h, recs, arc, k).Done?
    ensures StepRecord(h, Walk(h, recs, arc, k).value, recs[k], k + 1, arc) == Walk(h, recs, arc, m)
  {
    if Walk(h, recs, arc, m - 1).Done? {
      k := m - 1;
    } else {
      k := FirstFailure(h, recs, arc, m - 1);
      WalkStops(h, recs, arc, m - 1, m);
    }
  }

  /** A record's checks are made before its feed, in the order Y, B, C,
      Radius, and a record passes them exactly when it is a dictionary
      holding Y, B and C, every field present converts to a number, and
      the radius (0.0 when absent) is not negative. */
  lemma RecordChecks(h: Host, item: Json, row: nat)
    ensures item.JObject? && "Y" !in item.fields ==> ParseRecord(h, item, row) == Abort(MissingKey("Y", row))
    ensures ParseRecord(h, item, row).Done? <==>
      && item.JObject?
      && "Y" in item.fields && ToFloat(h, item.fields["Y"], "Y", row).Done?
      && "B" in item.fields && ToFloat(h, item.fields["B"], "B", row).Done?
      && "C" in item.fields && ToFloat(h, item.fields["C"], "C", row).Done?
      && ("Radius" in item.fields ==>
            ToFloat(h, item.fields["Radius"], "Radius", row).Done? &&
            ToFloat(h, item.fields["Radius"], "Radius", row).value >= 0.0)
    ensures ParseRecord(h, item, row).Done? ==>
      && ParseRecord(h, item, row).value.y == ToFloat(h, item.fields["Y"], "Y", row).value
      && ParseRecord(h, item, row).value.b == ToFloat(h, item.fields["B"], "B", row).value
      && ParseRecord(h, item, row).value.c == ToFloat(h, item.fields["C"], "C", row).value
      && ParseRecord(h, item, row).value.radius ==
           if "Radius" in item.fields then ToFloat(h, item.fields["Radius"], "Radius", row).value else 0.0
    ensures ParseRecord(h, item, row).Abort? ==>
      var e := ParseRecord(h, item, row).error;
      || (e.MissingKey? && e.key in {"Y", "B", "C"} && e.key !in item.fields && e.row == row)
      || e == NotANumber(row)
      || e == NegativeRadius(row)
    ensures !item.JObject? ==> ParseRecord(h, item, row) == Raise(RecordNotADictionary(row))
    ensures item.JObject? && Field(h, item.fields, "Y", row).Abort? ==>
      ParseRecord(h, item, row) == Abort(Field(h, item.fields, "Y", row).error)
    ensures item.JObject? && Field(h, item.fields, "Y", row).Done? && Field(h, item.fields, "B", row).Abort? ==>
      ParseRecord(h, item, row) == Abort(Field(h, item.fields, "B", row).error)
    ensures item.JObject? && Field(h, item.fields, "Y", row).Done? && Field(h, item.fields, "B", row).Done? &&
            Field(h, item.fields, "C", row).Abort? ==>
      ParseRecord(h, item, row) == Abort(Field(h, item.fields, "C", row).error)
    ensures item.JObject? && Field(h, item.fields, "Y", row).Done? && "B" !in item.fields ==>
      ParseRecord(h, item, row) == Abort(MissingKey("B", row))
    ensures item.JObject? && Field(h, item.fields, "Y", row).Done? && Field(h, item.fields, "B", row).Done? &&
            "C" !in item.fields ==>
      ParseRecord(h, item, row) == Abort(MissingKey("C", row))
    ensures item.JObject? && Field(h, item.fields, "Y", row).Done? && Field(h, item.fields, "B", row).Done? &&
            Field(h, item.fields, "C", row).Done? && "Radius" in item.fields &&
            ToFloat(h, item.fields["Radius"], "Radius", row).Abort? ==>
      ParseRecord(h, item, row) == Abort(ToFloat(h, item.fields["Radius"], "Radius", row).error)
    ensures item.JObject? && Field(h, item.fields, "Y", row).Done? && Field(h, item.fields, "B", row).Done? &&
            Field(h, item.fields, "C", row).Done? && "Radius" in item.fields &&
            ToFloat(h, item.fields["Radius"], "Radius", row).Done? &&
            ToFloat(h, item.fields["Radius"], "Radius", row).value < 0.0 ==>
      ParseRecord(h, item, row) == Abort(NegativeRadius(row))
    ensures item.JObject? && ScalarField(item.fields, "Y") && ScalarField(item.fields, "B") &&
            ScalarField(item.fields, "C") && ScalarField(item.fields, "Radius") ==>
      !ParseRecord(h, item, row).Raise?
    ensures ParseRecord(h, item, row).Raise? ==>
      var x := ParseRecord(h, item, row).exc;
      || (!item.JObject? && x == RecordNotADictionary(row))
      || (item.JObject? && x.FieldNotConvertible? && x.row == row &&
          x.key in {"Y", "B", "C", "Radius"} && !ScalarField(item.fields, x.key))
  {
  }

  /** A field that `float()` accepts or rejects with a `ValueError`: absent,
      or anything but null, a list or an object. */
  predicate ScalarField(fields: map<string, Json>, key: string) {
    key in fields ==> !fields[key].JNull? && !fields[key].JList? && !fields[key].JObject?
  }

  /** Every error a record step reports names that record's number. */
  lemma StepErrorNamesRow(h: Host, t: Trace, item: Json, row: nat, arc: Option<int>)
    requires |t.points| > 0
    ensures StepRecord(h, t, item, row, arc).Abort? ==>
      var e := StepRecord(h, t, item, row, arc).error;
      e in {NotANumber(row), NegativeRadius(row), ParallelUpAndDirection(row), ZeroDirectionAfterBend(row)} ||
      (e.MissingKey? && e.row == row)
  {
  }

  /** The record list of a request that reaches the loop. */
  ghost predicate HasRecords(data: Json) {
    data.JObject? && "YBC" in data.fields && data.fields["YBC"].JList?
  }

  function Records(data: Json): seq<Json>
    requires HasRecords(data)
  {
    data.fields["YBC"].items
  }

  /** The first failing record decides the response, and the error names it. */
  lemma FirstFailureDecides(h: Host, data: Json, k: nat)
    requires HasRecords(data) && k < |Records(data)|
    requires Walk(h, Records(data), ArcSetting(data.fields), k).Done?
    requires !StepRecord(h, Walk(h, Records(data), ArcSetting(data.fields), k).value, Records(data)[k], k + 1, ArcSetting(data.fields)).Done?
    ensures
      var e := StepRecord(h, Walk(h, Records(data), ArcSetting(data.fields), k).value, Records(data)[k], k + 1, ArcSetting(data.fields));
      var d := ChooseDiameter(Get(data.fields, "Diameter"));
      Calculate(h, data) == if e.Abort? then Returned(ErrorResponse(e.error, d)) else Threw(e.exc)
  {
    var recs, arc := Records(data), ArcSetting(data.fields);
    WalkStops(h, recs, arc, k + 1, |recs|);
  }

  /** Every response, success or error, reports the diameter chosen from
      the input, and every error response carries no geometry. */
  lemma ResponseFields(h: Host, data: Json)
    ensures Calculate(h, data).Returned? ==>
      Calculate(h, data).response.diameter ==
        if data.JObject? then ChooseDiameter(Get(data.fields, "Diameter")) else DefaultDiameter
    ensures Calculate(h, data).Returned? && Calculate(h, data).response.error.Some? ==>
      Calculate(h, data).response == ErrorResponse(Calculate(h, data).response.error.value, Calculate(h, data).response.diameter)
  {
  }

  /** The Diameter value never causes an error: changing it changes only
      the diameter reported. */
  lemma DiameterOnlySetsDiameter(h: Host, fields: map<string, Json>, v: Json)
    ensures
      var before := Calculate(h, JObject(fields));
      var after := Calculate(h, JObject(fields["Diameter" := v]));
      && (before.Threw? <==> after.Threw?)
      && (before.Threw? ==> after == before)
      && (before.Returned? ==> after.response == before.response.(diameter := ChooseDiameter(Some(v))))
  {
    var fields' := fields["Diameter" := v];
    assert ("YBC" in fields') == ("YBC" in fields);
    if "YBC" in fields {
      assert fields'["YBC"] == fields["YBC"];
    }
    assert ArcSetting(fields') == ArcSetting(fields) by {
      assert ("NumArcPoints" in fields') == ("NumArcPoints" in fields);
      if "NumArcPoints" in fields {
        assert fields'["NumArcPoints"] == fields["NumArcPoints"];
      }
    }
  }

  /** An empty record list is a success with an empty polyline, no
      segments, the start point and direction and no final up vector. */
  lemma EmptyRecordList(h: Host, fields: map<string, Json>)
    requires "YBC" in fields && fields["YBC"] == JList([])
    ensures Calculate(h, JObject(fields)) ==
      Returned(Response(None, [], [], Zero, StartDirection, None, ChooseDiameter(Get(fields, "Diameter"))))
  {
  }

  /** A successful run over a non-empty record list: the polyline starts at
      the origin and ends at the final point, the segments chain from index
      0 to its last index and span their points, and the polyline holds one
      point per feed asked for and ArcWidth points per bend asked for,
      besides the origin. */
  lemma SuccessfulRun(h: Host, data: Json)
    requires HasRecords(data) && |Records(data)| > 0
    requires Calculate(h, data).Returned? && Calculate(h, data).response.error.None?
    ensures
      var resp := Calculate(h, data).response;
      var pts, segs := resp.centerlinePoints, resp.segmentInfo;
      var arc := ArcSetting(data.fields);
      var recs := Records(data);
      && |pts| > 0 && pts[0] == Zero
      && resp.finalPoint == pts[|pts| - 1]
      && resp.finalUp.Some?
      && Chained(segs, |pts| - 1)
      && Spans(segs, arc)
      && FeedCount(segs) == FeedsRequested(h, recs, |recs|)
      && BendCount(segs) == BendsRequested(h, recs, |recs|)
      && |pts| == 1 + FeedsRequested(h, recs, |recs|) + ArcWidth(arc) * BendsRequested(h, recs, |recs|)
  {
    var recs, arc := Records(data), ArcSetting(data.fields);
    var t := SuccessIsWalk(h, data);
    WalkWellFormed(h, recs, arc, |recs|);
    WalkCounts(h, recs, arc, |recs|);
    var resp := Calculate(h, data).response;
    assert resp.centerlinePoints == t.points && resp.segmentInfo == t.segments;
  }

  /** A successful response over a non-empty record list is the trace the
      fold over all records leaves. */
  lemma SuccessIsWalk(h: Host, data: Json) returns (t: Trace)
    requires HasRecords(data) && |Records(data)| > 0
    requires Calculate(h, data).Returned? && Calculate(h, data).response.error.None?
    ensures Walk(h, Records(data), ArcSetting(data.fields), |Records(data)|) == Done(t)
    ensures Calculate(h, data).response ==
      Response(None, t.points, t.segments, t.frame.point, t.frame.direction, Some(t.frame.up),
               ChooseDiameter(Get(data.fields, "Diameter")))
  {
    t := Walk(h, Records(data), ArcSetting(data.fields), |Records(data)|).value;
  }
}
