# YBCR tube centerline engine, modelled in Dafny

This project models the centerline engine of a pipe-bending viewer. A
request holds an ordered list of YBCR records, each with a feed `Y`, a bend
angle `B`, a plane-rotation angle `C` and an optional `Radius`. The engine
walks the list with a moving frame: a tip point, a direction and an up
vector. For every record it runs three operations in order:

- **Feed** moves the tip along the direction.
- **Bend** samples an arc about the up vector and turns the direction with it.
- **Rotate** spins the up vector about the new direction, which sets the
  plane of the next bend.

Along the way the engine builds a polyline and a list of segment
descriptors whose index ranges chain end to start. The first fatal
condition ends the run with an error response.

The model follows `api/YBC3D_web.py`:

- `rotate_vector` becomes the pure function `Rotation.RotateVector`.
- `calculate_centerline_from_data` is modelled twice:
  - as functions (`Centerline`): one step per record, folded over the list;
  - as the imperative loop it is (`Engine`), with a nested arc-sampling
    loop and early returns. The method is proved to return exactly what
    the functions describe.
- The remaining modules prove properties of those functions:
  - `Bookkeeping`: point counts, index chaining, and what each operation
    changes;
  - `Runs`: whole runs, errors, diameter and counts;
  - `Exactness`: frame invariants under exact arithmetic;
  - `Geometry`: where a bend or a rotation puts the frame;
  - `Scenarios`: concrete requests.

## Modelling choices

- **Vectors** are triples of reals (`Vectors.Vec3`). The numpy operations
  become `Add`, `Sub`, `Scale`, `Dot` and `Cross`.
- **Numerics are parameters.** `Numerics.Host` carries `math.cos`,
  `math.sin`, the square root inside `np.linalg.norm`, `math.pi` and
  `float()` applied to a string. Every lemma that does not name a further
  hypothesis therefore holds whatever rounding cos, sin, sqrt and `float()`
  have. The vector operations and the threshold tests themselves are exact
  real arithmetic.
  - Lemmas that need exact arithmetic say so with `ExactSqrt` or
    `ExactTrig`.
  - Concrete geometry lemmas need weaker hypotheses: `sqrt(1) = 1`, and
    the cosine and sine at the angle used.
- **The request** is a loose JSON value (`Json.Json`). Its integers,
  floats, booleans, strings, null, lists and dictionaries are told apart
  the way the Python conversions do:
  - `True` counts as the number 1;
  - `float("abc")` fails with a `ValueError`, which the engine reports;
  - `float(None)` raises a `TypeError`, which the engine does not catch.
- **Results.** Every stage returns an `Outcome`:
  - `Done(value)`;
  - `Abort(error)` for a reported error, which becomes the error template;
  - `Raise(exc)` for an exception that escapes the engine. The run then
    ends with `Threw`.

  The response is the dictionary before `json.dumps`. Each error message
  is an `Error` constructor carrying the row number its text names.
- **`NumArcPoints`** is read the way `range(1, n + 1)` uses it:
  - an integer n samples n points, and none when n <= 0;
  - a boolean samples 0 or 1 points;
  - any other value raises a `TypeError`, but only when the first bend is
    actually performed.

## Behaviour as written

These are places where the behaviour is easy to misread; the model
follows the code.

- An empty `YBC` list succeeds with an empty polyline `[]`, not `[(0,0,0)]`
  (lines 74-82). It also has no `final_up_vector` (`Runs.EmptyRecordList`).
- A bend turns about the up vector, so its arc lies in the plane
  perpendicular to up, not in the plane spanned by direction and up. The
  record `{Y: 100, B: 90, C: 0, Radius: 50}` ends at (150, 50, 0) with
  direction (0, 1, 0), not at (100, 50, 50) with direction (0, 0, 1)
  (`Scenarios.QuarterBend`).
- A plane rotation of 90 degrees turns the start up vector +z into -y,
  right-handed about +x. A following quarter bend then turns the tube from
  +x to +z (`Scenarios.RotatedPlane`).
- When the re-orthogonalised up vector vanishes, Rotate keeps the up vector
  the record started with. The assignment on line 240 is commented out, and
  the value kept is the same one (`Centerline.PlaneRotation`).
- A zero-norm axis in `rotate_vector` returns the vector unchanged
  (`Rotation.RotateVector`). The same guard applies in a bend, whose axis
  is the up vector, and in Rotate, whose axis is the direction.

## Model

| member | source | states |
|---|---|---|
| Rotation.RotateVector | api/YBC3D_web.py:7-20 | an axis whose norm is below 1e-9 returns the input vector unchanged |
| Rotation.RotateKeepsPerpendicular | api/YBC3D_web.py:7-20 | a vector perpendicular to the axis stays perpendicular after rotation, for any cos, sin and sqrt |
| Numerics.NormOfUnit | api/YBC3D_web.py:11 | with an exact square root, a vector of squared length 1 has norm 1 |
| Json.AsNumber | api/YBC3D_web.py:48-50 | a value is accepted as a number exactly when it is an int, a float or a bool; an int or float gives its own value, a bool 1.0 or 0.0, as `float(d)` does |
| Json.Get | api/YBC3D_web.py:46 | `get` finds a value exactly when the key is present, and it is the stored value |
| Centerline.ChooseDiameter | api/YBC3D_web.py:29-62 | the diameter is always positive; it is the input value when that is a number above 0, and otherwise 30.0 |
| Centerline.ArcPoints | api/YBC3D_web.py:176-180 | the arc loop adds max(n, 0) points |
| Centerline.PlaneRotation | api/YBC3D_web.py:203-247 | a rotation angle of at most 1e-6 degrees leaves the up vector unchanged; otherwise the up vector is the normalised residual of the rotated up after removing its component along the direction, except that a residual of norm below 1e-9 keeps the entering up vector |
| Centerline.ArcWidth | api/YBC3D_web.py:176 | `range(1, n + 1)` yields as many samples as ArcPoints makes for n, and none without an integer count |
| Centerline.PlaneResidual | api/YBC3D_web.py:218-224 | the rotated up vector minus its projection on the direction; for a unit direction it is perpendicular to the direction |
| Centerline.ErrorResponse | api/YBC3D_web.py:30-35 | the error template: the error, no points, no segments, final point (0,0,0), final direction (1,0,0), no up vector, and the diameter in force |
| Centerline.ArcSetting | api/YBC3D_web.py:92 | an absent NumArcPoints gives 30; an integer n gives n and a bool 1 or 0; the setting is unusable by `range` exactly when the value is present and neither an integer nor a bool |
| Centerline.ParseRecord | api/YBC3D_web.py:98-122 | the parse of one record; its acceptance conditions, values, reported errors and uncaught exceptions are proved in Runs.RecordChecks |
| Centerline.ToFloat | api/YBC3D_web.py:99-102 | `float()` on a field value raises (field not convertible, naming key and row) exactly for null, a list or an object; it aborts as not-a-number exactly for a string the host parser rejects; an integer or float converts to its own value, a bool to 1.0 or 0.0, and a string the host parser accepts to the parsed value |
| Centerline.Field | api/YBC3D_web.py:99-101 | a present key gives ToFloat of its value (so it can raise); a missing key aborts with that key and row; the only aborts are a missing key (only when it is missing) and a string that is not a number |
| Centerline.Feed | api/YBC3D_web.py:128-136 | the Feed phase; its skip case, new point and segment are proved in Bookkeeping.FeedEffect |
| Centerline.Bend | api/YBC3D_web.py:143-201 | the Bend phase; its skip, abort and raise conditions and its new frame, points and segment are proved in Bookkeeping.BendEffect |
| Centerline.StepRecord | api/YBC3D_web.py:97-247 | one record: parse, Feed, Bend, Rotate; proved in Bookkeeping.StepEffect |
| Centerline.ArcAngle | api/YBC3D_web.py:177 | the angle of the j-th of n samples; the last one is the full angle, proved in Geometry.LastArcPoint |
| Centerline.ArcPoint | api/YBC3D_web.py:177-180 | the j-th arc sample; proved to lie on the bend circle in Geometry.ArcOnCircle |
| Numerics.Norm | api/YBC3D_web.py:155 | `np.linalg.norm`; a unit vector has norm 1 under an exact square root, proved in Numerics.NormOfUnit |
| Numerics.Radians | api/YBC3D_web.py:147 | `math.radians`; used for both the bend angle and the plane-rotation angle |
| Centerline.Walk | api/YBC3D_web.py:97-249 | a successful prefix always has a non-empty polyline |
| Centerline.Calculate | api/YBC3D_web.py:30-35 | every error response has empty points and segments, final point (0,0,0) and final direction (1,0,0) |
| Centerline.WalkStops | api/YBC3D_web.py:97-193 | once a prefix fails, every longer prefix fails with the same outcome: the early returns end the loop |
| Engine.SampleArc | api/YBC3D_web.py:176-180 | the loop appends exactly the arc specification's points, in order, after the existing polyline |
| Engine.BendTube | api/YBC3D_web.py:143-201 | the in-place bend phase returns exactly the functional Bend: its skip, its abort and raise cases, and its new frame, points and segment |
| Engine.ProcessRecord | api/YBC3D_web.py:97-247 | one pass of the loop body (parse, Feed, Bend, Rotate) returns exactly StepRecord |
| Engine.CalculateCenterline | api/YBC3D_web.py:23-271 | the whole imperative engine returns exactly Calculate, for every input |
| Bookkeeping.StartTraceWellFormed | api/YBC3D_web.py:86-91 | the initial state meets the loop invariant: polyline [origin], start index 0, no segments |
| Bookkeeping.AppendSegment | api/YBC3D_web.py:132-134 | appending a segment from the old last index to the new last index keeps segments chained and the point count in step |
| Bookkeeping.FeedEffect | api/YBC3D_web.py:128-136 | a feed of at most 1e-9 changes nothing; otherwise it appends exactly the point `point + y direction` and one feed segment [start, start + 1], moves only the tip, and keeps the invariant |
| Bookkeeping.BendEffect | api/YBC3D_web.py:143-201 | a bend is skipped exactly for angle <= 1e-6 or radius < 1e-9; otherwise it aborts as parallel exactly when the norm of up x direction is below 1e-9; past that check it raises exactly when NumArcPoints is not an integer; with an arc count it aborts with a zero direction exactly when the rotated direction has norm at most 1e-9; on success the direction is the rotated direction normalised, and it appends ArcWidth points, keeps the old points as a prefix, ends the tip on the last point, keeps up, and adds one bend segment spanning the new points; its only aborts are the two geometric ones |
| Bookkeeping.StepEffect | api/YBC3D_web.py:97-247 | a record that parses fails exactly when its bend fails; on success only the up vector differs from the bend's result, set to the plane rotation of the entering up about the new direction; a record that does not parse gives its parse failure; the invariant is kept |
| Bookkeeping.WalkWellFormed | api/YBC3D_web.py:89-249 | after every successful prefix the loop invariant holds: start index = number of points - 1, first point the origin, tip = last point, segments chained and spanning their points, and the point count equal to 1 plus one point per feed segment and ArcWidth per bend segment |
| Bookkeeping.PointTotalCounts | api/YBC3D_web.py:128-199 | the points the segments account for are one per feed segment plus ArcWidth per bend segment |
| Runs.FeedCounts | api/YBC3D_web.py:128-136 | a feed adds one feed segment exactly when it is above 1e-9 and never a bend segment |
| Runs.BendCounts | api/YBC3D_web.py:143-199 | a successful bend adds one bend segment exactly when it is performed and never a feed segment |
| Runs.StepCounts | api/YBC3D_web.py:127-199 | a successful record adds one feed segment when it asks for a feed above 1e-9, and one bend segment when it asks for a performed bend |
| Runs.WalkSegmentCounts | api/YBC3D_web.py:97-249 | after k successful records, the feed segments equal the feeds asked for and the bend segments the performed bends asked for |
| Runs.WalkCounts | api/YBC3D_web.py:97-249 | after k successful records, the feed and bend segments equal the feeds and bends asked for, and there are 1 + feeds + ArcWidth * bends points |
| Runs.WalkReadsPrefix | api/YBC3D_web.py:97 | the result of the first k records depends on those records only |
| Runs.AbortIgnoresLaterRecords | api/YBC3D_web.py:108-122 | records after a failing one change nothing |
| Runs.FailureLasts | api/YBC3D_web.py:108-122 | a failure within the first k records is the outcome of every longer prefix of any record list with the same first k records |
| Runs.FirstFailure | api/YBC3D_web.py:97-193 | a failed run has a first failing record, reached after a successful prefix, and that record's step is the run's outcome |
| Runs.RecordChecks | api/YBC3D_web.py:98-122 | a record parses exactly when it is a dictionary with convertible Y, B and C and an optional convertible non-negative Radius; the values are those fields (Radius defaults to 0.0); the first of Y, B, C, Radius that is missing or not a number is the reported error (so a missing B after a good Y, or a missing C after good Y and B, is reported as that key); a negative radius after four good fields is reported; each abort is a missing key among Y/B/C, a non-number or a negative radius, for this row; a non-dictionary raises; a dictionary whose fields are none of null, a list or an object never raises, and every other exception names such a field |
| Runs.StepErrorNamesRow | api/YBC3D_web.py:98-193 | every error a record step reports carries that record's 1-based number |
| Runs.FirstFailureDecides | api/YBC3D_web.py:97-193 | the first failing record decides the response: its error in the template, or its uncaught exception |
| Runs.ResponseFields | api/YBC3D_web.py:30-62 | every response reports the chosen diameter (30.0 when the input is not a dictionary), and every error response is the error template |
| Runs.DiameterOnlySetsDiameter | api/YBC3D_web.py:44-62 | replacing the Diameter value never changes whether the run raises, and changes only the reported diameter |
| Runs.EmptyRecordList | api/YBC3D_web.py:74-82 | an empty YBC list succeeds with no points, no segments, final point (0,0,0), direction (1,0,0), no final up, and the chosen diameter |
| Runs.SuccessIsWalk | api/YBC3D_web.py:252-271 | a successful response over a non-empty record list reports the points, segments, final point, direction and up vector of the trace the records leave |
| Runs.SuccessfulRun | api/YBC3D_web.py:252-271 | a successful response starts at the origin; its final point is the last polyline point; it has a final up vector; its segments chain from 0 to the last index and span their points; and its point count is 1 + feeds + w * bends, where w is the ArcWidth of the NumArcPoints setting: max(n, 0) for an integer n, 1 or 0 for a bool, 30 when absent |
| Exactness.StartFrameOrthonormal | api/YBC3D_web.py:86-88 | the start direction and up vector are unit length and perpendicular |
| Exactness.NormalisedIsUnit | api/YBC3D_web.py:186-188 | with an exact square root, dividing by a positive norm gives a unit vector |
| Exactness.RotatePerpendicularUnit | api/YBC3D_web.py:7-20 | with exact sqrt and trig, rotating a unit vector about a perpendicular unit axis gives a unit vector |
| Exactness.BendKeepsFrame | api/YBC3D_web.py:184-193 | with an exact square root, a successful bend keeps the frame orthonormal and the up vector unchanged |
| Exactness.BendNeverFailsGeometrically | api/YBC3D_web.py:154-193 | with exact arithmetic, a bend from an orthonormal frame never reports the parallel or zero-direction error |
| Exactness.PlaneRotationKeepsFrame | api/YBC3D_web.py:218-241 | with an exact square root, Rotate from an orthonormal frame gives a unit up vector perpendicular to the direction, fallback included |
| Exactness.StepKeepsFrame | api/YBC3D_web.py:127-247 | with an exact square root, one record keeps the frame orthonormal |
| Exactness.StepFailsOnlyOnInput | api/YBC3D_web.py:98-193 | with exact arithmetic, a record step from an orthonormal frame reports an error only when its parse does, with the same error: a missing key, a non-number or a negative radius |
| Exactness.WalkKeepsFrame | api/YBC3D_web.py:97-249 | with an exact square root, the frame is orthonormal after every successful prefix |
| Exactness.WalkFailsOnlyOnInput | api/YBC3D_web.py:97-193 | with exact arithmetic, a failing prefix fails only on a malformed record |
| Exactness.FinalFrameOrthonormal | api/YBC3D_web.py:252-267 | with an exact square root, a successful response has a unit final direction, and a unit final up vector perpendicular to it |
| Exactness.ReportedErrorsAreInputErrors | api/YBC3D_web.py:38-193 | with exact arithmetic, every reported error is about the request: not a dictionary, no YBC list, a missing key, a non-number or a negative radius |
| Geometry.RotateAboutUnitAxis | api/YBC3D_web.py:7-20 | about a unit axis a perpendicular to v, the rotation is cos v + sin (a x v) |
| Geometry.LastArcPoint | api/YBC3D_web.py:176-183 | the last arc sample is the start vector rotated by the full bend angle, added to the centre |
| Geometry.BendCenter | api/YBC3D_web.py:154-174 | from an orthonormal frame, the normalised up x direction is a unit vector; the centre is `point + r (up x direction)`; the start vector from the centre is `-r (up x direction)` |
| Geometry.BendDirection | api/YBC3D_web.py:184-188 | a performed bend from an orthonormal frame succeeds, keeps up, and turns the direction to cos d + sin (u x d) |
| Geometry.BendGeometry | api/YBC3D_web.py:143-199 | with at least one arc sample, a performed bend moves the tip to p + r sin d + r (1 - cos)(u x d), turns d to cos d + sin (u x d), and keeps u |
| Geometry.QuarterTurn | api/YBC3D_web.py:143-199 | a 90-degree bend of radius r moves the tip to p + r d + r (u x d) and turns the direction to u x d |
| Geometry.PlaneRotationGeometry | api/YBC3D_web.py:207-227 | Rotate by an angle above 1e-6 degrees from an orthonormal frame gives cos u + sin (d x u) |
| Geometry.QuarterRotation | api/YBC3D_web.py:207-227 | a 90-degree Rotate turns u into d x u |
| Geometry.ArcOnCircle | api/YBC3D_web.py:164-180 | every sampled arc point lies at distance r from the centre, in the plane through the centre perpendicular to up |
| Scenarios.RecordParses | api/YBC3D_web.py:98-102 | a record of four integers, the radius not negative, parses to their values |
| Scenarios.AllZeroRecord | api/YBC3D_web.py:127-271 | a record asking for nothing gives the polyline [origin], no segments, the start frame and diameter 30 |
| Scenarios.MissingBend | api/YBC3D_web.py:99-117 | a record that holds only Y is reported as missing B in row 1 |
| Scenarios.NegativeRadiusInSecondRow | api/YBC3D_web.py:103-111 | a negative radius in row 2 aborts with that error, and row 1's feed is discarded |
| Scenarios.TextArcCountRaises | api/YBC3D_web.py:176 | a string NumArcPoints raises at the first performed bend |
| Scenarios.QuarterBendTrace | api/YBC3D_web.py:127-199 | for {Y: y, B: 90, C: 0, Radius: r}: 32 points; the feed point (y,0,0); tip (y+r, r, 0); direction (0,1,0); up kept; segments 0-1 and 1-31 |
| Scenarios.QuarterBend | api/YBC3D_web.py:23-271 | the same record gives a response holding that polyline, final point (y+r, r, 0), final direction (0,1,0), final up (0,0,1) and those two segments |
| Scenarios.StartUpQuarterRotation | api/YBC3D_web.py:207-227 | a 90-degree rotation about +x turns the up vector +z into -y |
| Scenarios.RotationOnlyRecord | api/YBC3D_web.py:127-247 | a record with Y = B = 0 changes only the up vector, to its plane rotation about the unchanged direction |
| Scenarios.RotationOnlyStep | api/YBC3D_web.py:207-227 | the record {Y: 0, B: 0, C: 90} leaves the start state with up -y |
| Scenarios.RotationOnlyTrace | api/YBC3D_web.py:97-247 | a first record {Y: 0, B: 0, C: 90} leaves the polyline [origin], no segments, and the frame (origin, +x, -y) |
| Scenarios.RotatedPlane | api/YBC3D_web.py:143-247 | after a 90-degree Rotate, a quarter bend of radius r uses the rotated up: 31 points, final point (r, 0, r), direction (0,0,1), up (0,-1,0), one segment 0-30 |

## Left out

- Printing to stderr and the `json.dumps` serialisation (lines 39-271). The
  model returns the response dictionary as a datatype.
- The error message texts. Each message is an `Error` constructor with the
  row number it names, and `MissingKey` also carries the key.
- Floating-point arithmetic. Vectors are exact reals. cos, sin, the square
  root, pi and string-to-float are free parameters, so nothing is claimed
  about rounding. `NaN` and infinities from `float("nan")` or `float("inf")`
  are not modelled, because `parseFloat` returns a real.
- Centerline.ToFloat: does not model `float()` on integers beyond the float
  range or above 2^53. On a record field (lines 99-102) a huge integer
  raises an `OverflowError` that no handler catches, so the engine ends
  with an exception; the model returns `Done(i as real)` instead. Integers
  above 2^53 are rounded by `float()` and converted exactly here.
- Centerline.ChooseDiameter: does not model an integer Diameter beyond the
  float range. There the source catches the `OverflowError` (lines 58-59)
  and keeps 30.0, while the model takes the integer as a real.
- The numpy array mechanics (`np.asarray`, `.copy()`, `.tolist()`). Vectors
  are immutable values, so copies and aliasing do not arise.
- The `__main__` block (lines 275 onwards), which only runs sample inputs.
- `api/index.py` (the HTTP wrapper) and `frontend/main.js` (the viewer) are
  not part of this model.
- Exactness.BendNeverFailsGeometrically, Exactness.StepFailsOnlyOnInput,
  Exactness.WalkFailsOnlyOnInput and Exactness.ReportedErrorsAreInputErrors
  hold under the hypotheses of exact sqrt and trig. They say nothing about
  the engine's behaviour under rounding, where the 1e-9 thresholds matter.
- Geometry and Scenarios lemmas assume `sqrt(1) = 1` and the cosine and
  sine values at the angles they use (0 and 1 at 90 degrees). That is the
  engine's intent, not what `math.cos(math.radians(90))` returns in
  floating point.
- Non-integer `NumArcPoints` is modelled only as the `TypeError` that
  `range` raises at the first performed bend. Negative or zero values are
  modelled as an empty arc, after which the tip stays where it was.
