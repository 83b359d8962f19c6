/** What the engine promises about its polyline and segment list, whatever
    the host's cos, sin and square root compute: how many points each
    operation adds, how segment index ranges chain end to start, and that
    the frame's point is always the polyline's last point. */
module Bookkeeping {
  import opened Wrappers
  import opened Vectors
  import opened Numerics
  import opened Rotation
  import opened Json
  import opened Centerline

  /** Segment index ranges chain: the first starts at 0, each starts where
      the one before ended, and the last ends at `last`. */
  ghost predicate Chained(segs: seq<Segment>, last: int) {
    && (|segs| == 0 ==> last == 0)
    && (|segs| > 0 ==> segs[0].startIdx == 0 && segs[|segs| - 1].endIdx == last)
    && (forall k :: 0 < k < |segs| ==> segs[k].startIdx == segs[k - 1].endIdx)
  }

  /** Each segment spans the points its operation added: one for a feed,
      the arc sample count for a bend. */
  ghost predicate Spans(segs: seq<Segment>, arc: Option<int>) {
    forall k :: 0 <= k < |segs| ==>
      segs[k].endIdx - segs[k].startIdx == if segs[k].FeedSegment? then 1 else ArcWidth(arc)
  }

  function FeedCount(segs: seq<Segment>): nat {
    if |segs| == 0 then 0
    else FeedCount(segs[..|segs| - 1]) + if segs[|segs| - 1].FeedSegment? then 1 else 0
  }

  function BendCount(segs: seq<Segment>): nat {
    if |segs| == 0 then 0
    else BendCount(segs[..|segs| - 1]) + if segs[|segs| - 1].BendSegment? then 1 else 0
  }

  /** The points the segments account for: one per feed segment and
      `ArcWidth(arc)` per bend segment. */
  function PointTotal(segs: seq<Segment>, arc: Option<int>): nat {
    if |segs| == 0 then 0
    else PointTotal(segs[..|segs| - 1], arc) + if segs[|segs| - 1].FeedSegment? then 1 else ArcWidth(arc)
  }

  /** The invariant of the record loop. `start_idx_for_segment` is the last
      index of the polyline, the polyline starts at the origin and ends at
      the frame's point, the segments chain and span their points, and the
      polyline holds the origin and the points its segments account for. */
  ghost predicate WellFormed(t: Trace, arc: Option<int>) {
    && |t.points| > 0
    && t.points[0] == Zero
    && t.start == |t.points| - 1
    && t.frame.point == t.points[|t.points| - 1]
    && Chained(t.segments, t.start)
    && Spans(t.segments, arc)
    && |t.points| == 1 + PointTotal(t.segments, arc)
  }

  lemma StartTraceWellFormed(arc: Option<int>)
    ensures WellFormed(StartTrace, arc)
  {
  }

  lemma CountsAppend(segs: seq<Segment>, s: Segment)
    ensures FeedCount(segs + [s]) == FeedCount(segs) + if s.FeedSegment? then 1 else 0
    ensures BendCount(segs + [s]) == BendCount(segs) + if s.BendSegment? then 1 else 0
    ensures forall arc :: PointTotal(segs + [s], arc) == PointTotal(segs, arc) + if s.FeedSegment? then 1 else ArcWidth(arc)
  {
    assert (segs + [s])[..|segs|] == segs;
  }

  /** The point total is one per feed plus `ArcWidth(arc)` per bend. */
  lemma {:induction false} PointTotalCounts(segs: seq<Segment>, arc: Option<int>)
    ensures PointTotal(segs, arc) == FeedCount(segs) + ArcWidth(arc) * BendCount(segs)
  {
    if |segs| > 0 {
      var init := segs[..|segs| - 1];
      PointTotalCounts(init, arc);
      CountStep(PointTotal(init, arc), PointTotal(segs, arc), FeedCount(init), FeedCount(segs),
                BendCount(init), BendCount(segs), ArcWidth(arc), segs[|segs| - 1].FeedSegment?);
    }
  }

  /** A well-formed trace holds 1 + feeds + ArcWidth(arc) * bends points. */
  lemma PointsFromCounts(t: Trace, arc: Option<int>, feeds: nat, bends: nat)
    requires WellFormed(t, arc) && FeedCount(t.segments) == feeds && BendCount(t.segments) == bends
    ensures |t.points| == 1 + feeds + ArcWidth(arc) * bends
  {
    PointTotalCounts(t.segments, arc);
  }

  lemma ChainedAppend(segs: seq<Segment>, last: int, s: Segment)
    requires Chained(segs, last) && s.startIdx == last
    ensures Chained(segs + [s], s.endIdx)
  {
    var segs' := segs + [s];
    forall k | 0 < k < |segs'|
      ensures segs'[k].startIdx == segs'[k - 1].endIdx
    {
      if k < |segs| {
        assert segs'[k] == segs[k] && segs'[k - 1] == segs[k - 1];
      }
    }
  }

  lemma CountStep(n: int, n': int, feeds: nat, feeds': nat, bends: nat, bends': nat, w: nat, isFeed: bool)
    requires n == feeds + w * bends
    requires n' == n + if isFeed then 1 else w
    requires feeds' == feeds + (if isFeed then 1 else 0) && bends' == bends + (if isFeed then 0 else 1)
    ensures n' == feeds' + w * bends'
  {
    if !isFeed {
      assert w * (bends + 1) == w * bends + w;
    }
  }

  lemma SpansAppend(segs: seq<Segment>, arc: Option<int>, s: Segment)
    requires Spans(segs, arc)
    requires s.endIdx - s.startIdx == if s.FeedSegment? then 1 else ArcWidth(arc)
    ensures Spans(segs + [s], arc)
  {
    var segs' := segs + [s];
    forall k | 0 <= k < |segs'|
      ensures segs'[k].endIdx - segs'[k].startIdx == if segs'[k].FeedSegment? then 1 else ArcWidth(arc)
    {
      if k < |segs| {
        assert segs'[k] == segs[k];
      }
    }
  }

  /** Appending a segment that starts at the old last index and spans what
      it added keeps the bookkeeping. */
  lemma AppendSegment(t: Trace, arc: Option<int>, added: seq<Vec3>, s: Segment, t': Trace)
    requires WellFormed(t, arc)
    requires t'.points == t.points + added
    requires s.startIdx == t.start && s.endIdx == |t'.points| - 1
    requires |added| == if s.FeedSegment? then 1 else ArcWidth(arc)
    requires t'.segments == t.segments + [s] && t'.start == s.endIdx
    requires t'.frame.point == t'.points[|t'.points| - 1]
    ensures WellFormed(t', arc)
  {
    ChainedAppend(t.segments, t.start, s);
    SpansAppend(t.segments, arc, s);
    CountsAppend(t.segments, s);
    assert t'.points[0] == t.points[0];
  }

  /** Feed: a feed of at most 1e-9 changes nothing; otherwise exactly one
      point, `point + y * direction`, and one feed segment from the old
      last index to the next are appended, and only the point moves. */
  lemma FeedEffect(t: Trace, y: real, arc: Option<int>)
    requires WellFormed(t, arc)
    ensures Abs(y) <= FeedEpsilon ==> Feed(t, y) == t
    ensures Abs(y) > FeedEpsilon ==>
      var p := Add(t.frame.point, Scale(y, t.frame.direction));
      && Feed(t, y).points == t.points + [p]
      && Feed(t, y).segments == t.segments + [FeedSegment(y, t.start, t.start + 1)]
      && Feed(t, y).frame == t.frame.(point := p)
    ensures WellFormed(Feed(t, y), arc)
  {
    if Abs(y) > FeedEpsilon {
      var t' := Feed(t, y);
      AppendSegment(t, arc, [t'.frame.point], t'.segments[|t'.segments| - 1], t');
    }
  }

  /** Bend: skipped (nothing changes) for an angle of at most 1e-6 degrees
      or a radius below 1e-9; otherwise it aborts exactly when the up
      vector and the direction are parallel or the turned direction
      vanishes, and on success appends `ArcWidth(arc)` points, moves the
      point to the last of them, keeps the up vector, and appends one bend
      segment spanning exactly the new points. */
  lemma BendEffect(h: Host, t: Trace, b: real, r: real, arc: Option<int>, row: nat)
    requires WellFormed(t, arc)
    ensures Abs(b) <= AngleEpsilon || r < RadiusEpsilon ==> Bend(h, t, b, r, arc, row) == Done(t)
    ensures Abs(b) > AngleEpsilon && r >= RadiusEpsilon ==>
      (Bend(h, t, b, r, arc, row) == Abort(ParallelUpAndDirection(row)) <==>
       Norm(h, Cross(t.frame.up, t.frame.direction)) < NormEpsilon)
    ensures Abs(b) > AngleEpsilon && r >= RadiusEpsilon && Norm(h, Cross(t.frame.up, t.frame.direction)) >= NormEpsilon ==>
      (Bend(h, t, b, r, arc, row) == Raise(ArcCountNotAnInteger(row)) <==> arc.None?)
    ensures Abs(b) > AngleEpsilon && r >= RadiusEpsilon && Norm(h, Cross(t.frame.up, t.frame.direction)) >= NormEpsilon && arc.Some? ==>
      (Bend(h, t, b, r, arc, row) == Abort(ZeroDirectionAfterBend(row)) <==>
       Norm(h, RotateVector(h, t.frame.direction, t.frame.up, Radians(h, b))) <= NormEpsilon)
    ensures Abs(b) > AngleEpsilon && r >= RadiusEpsilon && Bend(h, t, b, r, arc, row).Done? ==>
      var t' := Bend(h, t, b, r, arc, row).value;
      && |t'.points| == |t.points| + ArcWidth(arc)
      && t'.points[..|t.points|] == t.points
      && t'.frame.point == t'.points[|t'.points| - 1]
      && t'.frame.up == t.frame.up
      && t'.frame.direction ==
           Scale(1.0 / Norm(h, RotateVector(h, t.frame.direction, t.frame.up, Radians(h, b))),
                 RotateVector(h, t.frame.direction, t.frame.up, Radians(h, b)))
      && t'.segments == t.segments + [BendSegment(b, r, t.start, t.start + ArcWidth(arc))]
    ensures Bend(h, t, b, r, arc, row).Done? ==> WellFormed(Bend(h, t, b, r, arc, row).value, arc)
    ensures Bend(h, t, b, r, arc, row).Abort? ==>
      Bend(h, t, b, r, arc, row).error in {ParallelUpAndDirection(row), ZeroDirectionAfterBend(row)}
  {
    var o := Bend(h, t, b, r, arc, row);
    if o.Done? && Abs(b) > AngleEpsilon && r >= RadiusEpsilon {
      var t' := o.value;
      var d, u := t.frame.direction, t.frame.up;
      var perp := Cross(u, d);
      var center := Add(t.frame.point, Scale(r, Scale(1.0 / Norm(h, perp), perp)));
      var added := ArcPoints(h, center, Sub(t.frame.point, center), u, Radians(h, b), arc.value);
      assert t'.points == t.points + added;
      var s := BendSegment(b, r, t.start, t.start + ArcWidth(arc));
      assert t'.segments == t.segments + [s];
      AppendSegment(t, arc, added, s, t');
    }
  }

  /** The invariant does not look at the up vector. */
  lemma WellFormedIgnoresUp(t: Trace, arc: Option<int>, u: Vec3)
    requires WellFormed(t, arc)
    ensures WellFormed(t.(frame := t.frame.(up := u)), arc)
  {
  }

  /** One record: Rotate never touches the polyline or the segments. A
      record that parses runs Feed and then Bend, failing exactly when the
      bend fails, and afterwards only the up vector changes, to the plane
      rotation of the up vector that entered the record about the direction
      the bend left. */
  lemma StepEffect(h: Host, t: Trace, item: Json, row: nat, arc: Option<int>)
    requires WellFormed(t, arc)
    ensures ParseRecord(h, item, row).Done? ==>
      var rec := ParseRecord(h, item, row).value;
      var bent := Bend(h, Feed(t, rec.y), rec.b, rec.radius, arc, row);
      && (StepRecord(h, t, item, row, arc).Done? <==> bent.Done?)
      && (bent.Done? ==>
            StepRecord(h, t, item, row, arc).value ==
              bent.value.(frame := bent.value.frame.(up := PlaneRotation(h, bent.value.frame.direction, t.frame.up, rec.c))))
      && (!bent.Done? ==> StepRecord(h, t, item, row, arc) == bent)
    ensures !ParseRecord(h, item, row).Done? ==>
      StepRecord(h, t, item, row, arc) == ParseRecord(h, item, row).PropagateFailure()
    ensures StepRecord(h, t, item, row, arc).Done? ==> WellFormed(StepRecord(h, t, item, row, arc).value, arc)
  {
    var parsed := ParseRecord(h, item, row);
    if parsed.Done? {
      var rec := parsed.value;
      FeedEffect(t, rec.y, arc);
      var fed := Feed(t, rec.y);
      assert fed.frame.up == t.frame.up;
      BendEffect(h, fed, rec.b, rec.radius, arc, row);
      var bent := Bend(h, fed, rec.b, rec.radius, arc, row);
      if bent.Done? {
        WellFormedIgnoresUp(bent.value, arc, PlaneRotation(h, bent.value.frame.direction, t.frame.up, rec.c));
      }
    }
  }

  /** The loop invariant holds after every successfully processed prefix. */
  lemma {:induction false} WalkWellFormed(h: Host, recs: seq<Json>, arc: Option<int>, k: nat)
    requires k <= |recs|
    ensures Walk(h, recs, arc, k).Done? ==> WellFormed(Walk(h, recs, arc, k).value, arc)
  {
    if k > 0 {
      WalkWellFormed(h, recs, arc, k - 1);
      var prev := Walk(h, recs, arc, k - 1);
      if prev.Done? {
        StepEffect(h, prev.value, recs[k - 1], k, arc);
      }
    }
  }
}
