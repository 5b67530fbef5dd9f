/** The annotation records the labeling platform consumes, the conversion of
    normalised detector geometry into its percentage units, class-label
    lookup and the task-level score. */
module Annotations {
  import opened Common

  /** A point or box in units of the image's width/height: 0..1 as the
      detector produces it, 0..100 as the platform expects it. */
  datatype Point = Point(x: real, y: real)
  datatype CenterBox = CenterBox(cx: real, cy: real, w: real, h: real)

  /** The `value` object of a record: labels plus geometry. */
  datatype Value =
    | PolygonValue(polygonlabels: seq<string>, points: seq<Point>, closed: bool)
    | RectangleValue(rectanglelabels: seq<string>, x: real, y: real, width: real, height: real)

  /** One entry of a prediction's `result` list. */
  datatype Annotation = Annotation(fromName: string, toName: string, value: Value, score: real) {
    /** The record's `type` field; it always names the shape of `value`. */
    function Type(): string {
      if value.PolygonValue? then "polygonlabels" else "rectanglelabels"
    }
  }

  /** One task's prediction: a version tag, the aggregate score and the
      records. */
  datatype TaskPrediction = TaskPrediction(modelVersion: string, score: real, result: seq<Annotation>)

  /** The record given to a task that failed or produced nothing. */
  function EmptyPrediction(modelVersion: string): TaskPrediction {
    TaskPrediction(modelVersion, 0.0, [])
  }

  // ---------------------------------------------------------------------
  // Geometry

  /** Back from percentage to normalised units. */
  function UnscalePoints(ps: seq<Point>): seq<Point> {
    seq(|ps|, k requires 0 <= k < |ps| => Point(ps[k].x / 100.0, ps[k].y / 100.0))
  }

  /** `masks.xyn[i] * 100`: every coordinate scaled to percent, point count
      and order kept. */
  function ScalePoints(pts: seq<Point>): (r: seq<Point>)
    ensures |r| == |pts|
    ensures forall k :: 0 <= k < |r| ==> r[k].x == 100.0 * pts[k].x && r[k].y == 100.0 * pts[k].y
    ensures UnscalePoints(r) == pts
  {
    seq(|pts|, k requires 0 <= k < |pts| => Point(pts[k].x * 100.0, pts[k].y * 100.0))
  }

  /** A rectangle value read back as a normalised centre-form box (the
      conversion a training exporter would apply). */
  function CenterOf(v: Value): CenterBox
    requires v.RectangleValue?
  {
    CenterBox((v.x + v.width / 2.0) / 100.0, (v.y + v.height / 2.0) / 100.0,
              v.width / 100.0, v.height / 100.0)
  }

  /** A polygon value for one detection: one label, scaled points, closed. */
  function PolygonFrom(name: string, contour: seq<Point>): (v: Value)
    ensures v.PolygonValue? && v.closed && v.polygonlabels == [name]
    ensures |v.points| == |contour| && UnscalePoints(v.points) == contour
  {
    PolygonValue([name], ScalePoints(contour), true)
  }

  /** A rectangle value for one detection: the centre-form box converted to
      the top-left corner and size, all in percent. */
  function RectangleFrom(name: string, b: CenterBox): (v: Value)
    ensures v.RectangleValue? && v.rectanglelabels == [name]
    ensures v.x + v.width / 2.0 == 100.0 * b.cx && v.y + v.height / 2.0 == 100.0 * b.cy
    ensures v.width == 100.0 * b.w && v.height == 100.0 * b.h
    ensures CenterOf(v) == b
  {
    RectangleValue([name], (b.cx - b.w / 2.0) * 100.0, (b.cy - b.h / 2.0) * 100.0,
                   b.w * 100.0, b.h * 100.0)
  }

  // ---------------------------------------------------------------------
  // Labels

  /** `get_class_name`: the detector's table is consulted first, but the
      configured mapping still takes precedence for ids it knows; an id
      neither knows gets the synthesised name `class_<id>`. */
  function GetClassName(classId: int, names: map<int, string>, mapping: map<int, string>): (r: string)
    ensures classId in names && classId in mapping ==> r == mapping[classId]
    ensures classId in names && classId !in mapping ==> r == names[classId]
    ensures classId !in names && classId in mapping ==> r == mapping[classId]
    ensures classId !in names && classId !in mapping ==>
      |r| > 6 && r[..6] == "class_" && r[6..] == IntToDecimal(classId)
  {
    if classId in names then
      var modelClassName := names[classId];
      if classId in mapping then mapping[classId]
      else if modelClassName in mapping.Values then modelClassName
      else modelClassName
    else if classId in mapping then mapping[classId]
    else "class_" + IntToDecimal(classId)
  }

  // ---------------------------------------------------------------------
  // Aggregate score

  function Sum(xs: seq<real>): real {
    if |xs| == 0 then 0.0 else Sum(xs[..|xs| - 1]) + xs[|xs| - 1]
  }

  /** `np.mean(xs) if xs else 0.0`. */
  function Mean(xs: seq<real>): real {
    if |xs| == 0 then 0.0 else Sum(xs) / (|xs| as real)
  }

  function Scores(records: seq<Annotation>): (r: seq<real>)
    ensures |r| == |records|
    ensures forall k :: 0 <= k < |r| ==> r[k] == records[k].score
  {
    seq(|records|, k requires 0 <= k < |records| => records[k].score)
  }

  lemma {:induction false} SumAtLeast(xs: seq<real>, lo: real)
    requires forall k :: 0 <= k < |xs| ==> lo <= xs[k]
    ensures (|xs| as real) * lo <= Sum(xs)
  {
    if |xs| > 0 {
      SumAtLeast(xs[..|xs| - 1], lo);
    }
  }

  lemma {:induction false} SumAtMost(xs: seq<real>, hi: real)
    requires forall k :: 0 <= k < |xs| ==> xs[k] <= hi
    ensures Sum(xs) <= (|xs| as real) * hi
  {
    if |xs| > 0 {
      SumAtMost(xs[..|xs| - 1], hi);
    }
  }

  /** The mean of a non-empty list is at least any lower bound of its
      elements. */
  lemma MeanAtLeast(xs: seq<real>, lo: real)
    requires |xs| > 0
    requires forall k :: 0 <= k < |xs| ==> lo <= xs[k]
    ensures lo <= Mean(xs)
  {
    SumAtLeast(xs, lo);
    var n := |xs| as real;
    assert lo == (n * lo) / n;
  }

  /** The mean of a non-empty list is at most any upper bound of its
      elements. */
  lemma MeanAtMost(xs: seq<real>, hi: real)
    requires |xs| > 0
    requires forall k :: 0 <= k < |xs| ==> xs[k] <= hi
    ensures Mean(xs) <= hi
  {
    SumAtMost(xs, hi);
    var n := |xs| as real;
    assert hi == (n * hi) / n;
  }
}
