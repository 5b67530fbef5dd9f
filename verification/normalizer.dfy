/** Turning one detector result into annotation records: the
    `create_polygon_predictions` / `create_bbox_predictions` loops exactly as
    written (parallel arrays read by index, an out-of-range read ending the
    loop), a per-instance reference definition they agree with
    whenever no iteration raises, and `convert_results_to_ls_format`. */
module Normalizer {
  import opened Common
  import opened Settings
  import opened Annotations

  // ---------------------------------------------------------------------
  // Detector output, as the code reads it

  /** `result.boxes`: `count` is `len(boxes)`; each column may be missing. */
  datatype Boxes = Boxes(
    count: nat,
    conf: Option<seq<real>>,
    cls: Option<seq<real>>,
    xywhn: Option<seq<CenterBox>>)

  /** `result.masks`: `count` is `len(masks)`, `xyn` the normalised contours. */
  datatype Masks = Masks(count: nat, xyn: Option<seq<seq<Point>>>)

  /** One element of the detector's result list. */
  datatype DetectorResult = DetectorResult(masks: Option<Masks>, boxes: Option<Boxes>)

  /** Python's `int(x)` on a float: truncation toward zero. */
  function TruncateToInt(x: real): (r: int)
    ensures 0.0 <= x ==> r as real <= x < r as real + 1.0
    ensures x < 0.0 ==> r as real - 1.0 < x <= r as real
  {
    if x >= 0.0 then x.Floor else -((-x).Floor)
  }

  /** `float(boxes.conf[i]) if boxes.conf is not None else 0.0`; None when
      the index is out of range (the read raises). */
  function ConfidenceAt(b: Boxes, i: nat): (r: Option<real>)
    ensures b.conf.None? ==> r == Some(0.0)
    ensures b.conf.Some? ==> (r.Some? <==> i < |b.conf.value|)
    ensures b.conf.Some? && i < |b.conf.value| ==> r == Some(b.conf.value[i])
  {
    match b.conf
    case None => Some(0.0)
    case Some(cs) => if i < |cs| then Some(cs[i]) else None
  }

  /** `int(boxes.cls[i]) if boxes.cls is not None else 0`; None when the
      index is out of range. */
  function ClassIdAt(b: Boxes, i: nat): (r: Option<int>)
    ensures b.cls.None? ==> r == Some(0)
    ensures b.cls.Some? ==> (r.Some? <==> i < |b.cls.value|)
    ensures b.cls.Some? && i < |b.cls.value| ==> r == Some(TruncateToInt(b.cls.value[i]))
  {
    match b.cls
    case None => Some(0)
    case Some(ks) => if i < |ks| then Some(TruncateToInt(ks[i])) else None
  }

  // ---------------------------------------------------------------------
  // Per-instance view and the reference normalisation

  datatype Shape = Contour(points: seq<Point>) | Frame(box: CenterBox)

  /** One detection as a value object: confidence, class id, geometry. */
  datatype Detection = Detection(confidence: real, classId: int, shape: Shape)

  /** The record a kept detection becomes. */
  function ToRecord(d: Detection, names: map<int, string>, cfg: Config): (a: Annotation)
    ensures a.fromName == cfg.fromName && a.toName == cfg.toName
    ensures a.score == d.confidence
    ensures d.shape.Contour? <==> a.Type() == "polygonlabels"
    ensures d.shape.Contour? ==>
      a.value == PolygonValue([GetClassName(d.classId, names, cfg.classMapping)], ScalePoints(d.shape.points), true)
    ensures d.shape.Frame? ==>
      a.value.RectangleValue? && CenterOf(a.value) == d.shape.box &&
      a.value.rectanglelabels == [GetClassName(d.classId, names, cfg.classMapping)]
  {
    var name := GetClassName(d.classId, names, cfg.classMapping);
    var value := match d.shape
      case Contour(pts) => PolygonFrom(name, pts)
      case Frame(b) => RectangleFrom(name, b);
    Annotation(cfg.fromName, cfg.toName, value, d.confidence)
  }

  predicate IsKept(d: Detection, threshold: real) {
    !(d.confidence < threshold)
  }

  /** Positions of the detections that pass the threshold, in increasing
      order, and every such position. */
  function KeptPositions(ds: seq<Detection>, threshold: real): (idx: seq<nat>)
    ensures forall k :: 0 <= k < |idx| ==> idx[k] < |ds| && IsKept(ds[idx[k]], threshold)
    ensures forall k, l :: 0 <= k < l < |idx| ==> idx[k] < idx[l]
    ensures forall i :: 0 <= i < |ds| && IsKept(ds[i], threshold) ==> i in idx
  {
    if |ds| == 0 then []
    else
      var n := |ds| - 1;
      var before := KeptPositions(ds[..n], threshold);
      assert forall k :: 0 <= k < |before| ==> before[k] < n && ds[..n][before[k]] == ds[before[k]];
      if IsKept(ds[n], threshold) then before + [n] else before
  }

  /** What the normaliser means to produce: one record per detection that
      passes the threshold, in detector order. */
  function Normalize(ds: seq<Detection>, names: map<int, string>, cfg: Config): (r: seq<Annotation>)
    ensures var idx := KeptPositions(ds, cfg.threshold);
      |r| == |idx| && forall k :: 0 <= k < |r| ==> r[k] == ToRecord(ds[idx[k]], names, cfg)
  {
    if |ds| == 0 then []
    else
      var n := |ds| - 1;
      var before := Normalize(ds[..n], names, cfg);
      var idx := KeptPositions(ds[..n], cfg.threshold);
      assert forall k :: 0 <= k < |idx| ==> before[k] == ToRecord(ds[idx[k]], names, cfg) by {
        forall k | 0 <= k < |idx| ensures ds[..n][idx[k]] == ds[idx[k]] { }
      }
      if IsKept(ds[n], cfg.threshold) then before + [ToRecord(ds[n], names, cfg)] else before
  }

  // ---------------------------------------------------------------------
  // The loops as written

  /** What one loop iteration does: skip the instance, append a record, or
      raise (which ends the loop, keeping the records built so far). */
  datatype Step = Skip | Emit(record: Annotation) | Fail

  /** The loop's state after some iterations. */
  datatype Progress = Progress(records: seq<Annotation>, raised: bool)

  /** Run iterations in order; after the first `Fail` nothing more is
      added. */
  function Run(steps: seq<Step>): (p: Progress)
    ensures |p.records| <= |steps|
    ensures forall a :: a in p.records ==> Emit(a) in steps
    ensures p.raised <==> Fail in steps
  {
    if |steps| == 0 then Progress([], false)
    else
      var n := |steps| - 1;
      var before := Run(steps[..n]);
      assert forall s :: s in steps[..n] ==> s in steps;
      assert steps == steps[..n] + [steps[n]];
      if before.raised then before
      else match steps[n]
        case Skip => before
        case Emit(a) => Progress(before.records + [a], false)
        case Fail => Progress(before.records, true)
  }

  /** A raise at iteration `j` returns exactly the records of the
      iterations before `j` that were reached. */
  lemma {:induction false} RunStopsAtFailure(steps: seq<Step>, j: nat)
    requires j < |steps| && steps[j] == Fail
    ensures Run(steps) == Progress(Run(steps[..j]).records, true)
  {
    var n := |steps| - 1;
    if j < n {
      assert steps[..n][..j] == steps[..j];
      RunStopsAtFailure(steps[..n], j);
    } else {
      assert steps[..n] == steps[..j];
    }
  }

  /** Iterations that never emit leave the record list empty. */
  lemma {:induction false} RunWithoutEmits(steps: seq<Step>)
    ensures (forall i :: 0 <= i < |steps| ==> !steps[i].Emit?) ==> Run(steps).records == []
  {
    if |steps| > 0 {
      RunWithoutEmits(steps[..|steps| - 1]);
    }
  }

  /** When no iteration raises and iteration `i` emits exactly the record of
      detection `i` if it passes the threshold, the loop computes
      `Normalize`. */
  lemma {:induction false} RunAgreesWithNormalize(steps: seq<Step>, ds: seq<Detection>, names: map<int, string>, cfg: Config)
    requires |steps| == |ds|
    requires forall i :: 0 <= i < |ds| ==>
      steps[i] == (if IsKept(ds[i], cfg.threshold) then Emit(ToRecord(ds[i], names, cfg)) else Skip)
    ensures Run(steps) == Progress(Normalize(ds, names, cfg), false)
  {
    if |ds| > 0 {
      var n := |ds| - 1;
      RunAgreesWithNormalize(steps[..n], ds[..n], names, cfg);
    }
  }

  /** One iteration of `create_polygon_predictions`. */
  function PolygonStep(m: Masks, boxes: Option<Boxes>, i: nat, names: map<int, string>, cfg: Config): (s: Step)
    ensures s.Emit? ==>
      s.record.value.PolygonValue? && s.record.value.closed && s.record.score >= cfg.threshold &&
      s.record.fromName == cfg.fromName && s.record.toName == cfg.toName
    ensures boxes.None? ==> s == Fail
    ensures m.xyn.None? ==> !s.Emit?
  {
    if boxes.None? then Fail
    else match ConfidenceAt(boxes.value, i)
      case None => Fail
      case Some(c) =>
        if c < cfg.threshold then Skip
        else match ClassIdAt(boxes.value, i)
          case None => Fail
          case Some(id) =>
            if m.xyn.None? then Skip
            else if i >= |m.xyn.value| then Fail
            else Emit(ToRecord(Detection(c, id, Contour(m.xyn.value[i])), names, cfg))
  }

  /** One iteration of `create_bbox_predictions`. */
  function BoxStep(b: Boxes, i: nat, names: map<int, string>, cfg: Config): (s: Step)
    ensures s.Emit? ==>
      s.record.value.RectangleValue? && s.record.score >= cfg.threshold &&
      s.record.fromName == cfg.fromName && s.record.toName == cfg.toName
    ensures b.xywhn.None? ==> !s.Emit?
  {
    match ConfidenceAt(b, i)
    case None => Fail
    case Some(c) =>
      if c < cfg.threshold then Skip
      else match ClassIdAt(b, i)
        case None => Fail
        case Some(id) =>
          if b.xywhn.None? then Skip
          else if i >= |b.xywhn.value| then Fail
          else Emit(ToRecord(Detection(c, id, Frame(b.xywhn.value[i])), names, cfg))
  }

  function PolygonSteps(m: Masks, boxes: Option<Boxes>, names: map<int, string>, cfg: Config): (steps: seq<Step>)
    ensures |steps| == m.count
    ensures forall i :: 0 <= i < m.count ==> steps[i] == PolygonStep(m, boxes, i, names, cfg)
  {
    seq(m.count, i requires 0 <= i < m.count => PolygonStep(m, boxes, i, names, cfg))
  }

  function BoxSteps(b: Boxes, names: map<int, string>, cfg: Config): (steps: seq<Step>)
    ensures |steps| == b.count
    ensures forall i :: 0 <= i < b.count ==> steps[i] == BoxStep(b, i, names, cfg)
  {
    seq(b.count, i requires 0 <= i < b.count => BoxStep(b, i, names, cfg))
  }

  // ---------------------------------------------------------------------
  // Detector output as per-instance values

  /** Every column the polygon loop reads is present and long enough. */
  predicate PolygonShaped(m: Masks, boxes: Option<Boxes>) {
    && boxes.Some?
    && (boxes.value.conf.Some? ==> |boxes.value.conf.value| >= m.count)
    && (boxes.value.cls.Some? ==> |boxes.value.cls.value| >= m.count)
    && m.xyn.Some? && |m.xyn.value| >= m.count
  }

  /** Every column the box loop reads is present and long enough. */
  predicate BoxShaped(b: Boxes) {
    && (b.conf.Some? ==> |b.conf.value| >= b.count)
    && (b.cls.Some? ==> |b.cls.value| >= b.count)
    && b.xywhn.Some? && |b.xywhn.value| >= b.count
  }

  /** No iteration of the polygon loop raises: the boxes exist, every
      confidence it reads exists, and every instance that passes the
      threshold has a class and, when contours are present, a contour. */
  predicate PolygonRaiseFree(m: Masks, boxes: Option<Boxes>, threshold: real) {
    && (boxes.None? ==> m.count == 0)
    && (boxes.Some? ==> forall i: nat :: i < m.count ==>
          && ConfidenceAt(boxes.value, i).Some?
          && (ConfidenceAt(boxes.value, i).value >= threshold ==>
                ClassIdAt(boxes.value, i).Some? && (m.xyn.Some? ==> i < |m.xyn.value|)))
  }

  /** No iteration of the box loop raises. */
  predicate BoxRaiseFree(b: Boxes, threshold: real) {
    forall i: nat :: i < b.count ==>
      && ConfidenceAt(b, i).Some?
      && (ConfidenceAt(b, i).value >= threshold ==>
            ClassIdAt(b, i).Some? && (b.xywhn.Some? ==> i < |b.xywhn.value|))
  }

  /** Instance `i` with the given geometry, as the loop reads its columns.
      An entry past the end of a column is never read for an instance the
      loop keeps without raising; 0.0 and class 0 stand in for it. */
  function ReadDetection(b: Boxes, i: nat, shape: Shape): (d: Detection)
    ensures b.conf.None? ==> d.confidence == 0.0
    ensures b.conf.Some? && i < |b.conf.value| ==> d.confidence == b.conf.value[i]
    ensures b.cls.None? ==> d.classId == 0
    ensures b.cls.Some? && i < |b.cls.value| ==> d.classId == TruncateToInt(b.cls.value[i])
    ensures d.shape == shape
  {
    var c := match ConfidenceAt(b, i) case Some(c) => c case None => 0.0;
    var k := match ClassIdAt(b, i) case Some(k) => k case None => 0;
    Detection(c, k, shape)
  }

  /** The mask result as one value object per instance. */
  function PolygonDetections(m: Masks, boxes: Option<Boxes>): (ds: seq<Detection>)
    requires boxes.Some? && m.xyn.Some?
    ensures |ds| == m.count
    ensures forall i :: 0 <= i < |ds| ==>
      && (boxes.value.conf.None? ==> ds[i].confidence == 0.0)
      && (boxes.value.conf.Some? && i < |boxes.value.conf.value| ==> ds[i].confidence == boxes.value.conf.value[i])
      && (boxes.value.cls.None? ==> ds[i].classId == 0)
      && (boxes.value.cls.Some? && i < |boxes.value.cls.value| ==>
            ds[i].classId == TruncateToInt(boxes.value.cls.value[i]))
      && ds[i].shape.Contour?
      && (i < |m.xyn.value| ==> ds[i].shape == Contour(m.xyn.value[i]))
  {
    var ds := seq(m.count, i requires 0 <= i < m.count =>
      ReadDetection(boxes.value, i, Contour(if i < |m.xyn.value| then m.xyn.value[i] else [])));
    assert forall i :: 0 <= i < |ds| ==>
      ds[i] == ReadDetection(boxes.value, i, Contour(if i < |m.xyn.value| then m.xyn.value[i] else []));
    ds
  }

  /** The box result as one value object per instance. */
  function BoxDetections(b: Boxes): (ds: seq<Detection>)
    requires b.xywhn.Some?
    ensures |ds| == b.count
    ensures forall i :: 0 <= i < |ds| ==>
      && (b.conf.None? ==> ds[i].confidence == 0.0)
      && (b.conf.Some? && i < |b.conf.value| ==> ds[i].confidence == b.conf.value[i])
      && (b.cls.None? ==> ds[i].classId == 0)
      && (b.cls.Some? && i < |b.cls.value| ==> ds[i].classId == TruncateToInt(b.cls.value[i]))
      && ds[i].shape.Frame?
      && (i < |b.xywhn.value| ==> ds[i].shape == Frame(b.xywhn.value[i]))
  {
    var ds := seq(b.count, i requires 0 <= i < b.count =>
      ReadDetection(b, i, Frame(if i < |b.xywhn.value| then b.xywhn.value[i] else CenterBox(0.0, 0.0, 0.0, 0.0))));
    assert forall i :: 0 <= i < |ds| ==>
      ds[i] == ReadDetection(b, i, Frame(if i < |b.xywhn.value| then b.xywhn.value[i] else CenterBox(0.0, 0.0, 0.0, 0.0)));
    ds
  }

  /** The polygon loop raises at some instance exactly when the input is not
      raise-free. */
  lemma PolygonRaiseFreeIff(m: Masks, boxes: Option<Boxes>, names: map<int, string>, cfg: Config)
    ensures PolygonRaiseFree(m, boxes, cfg.threshold) <==>
      forall i: nat :: i < m.count ==> PolygonStep(m, boxes, i, names, cfg) != Fail
  {
    if forall i: nat :: i < m.count ==> PolygonStep(m, boxes, i, names, cfg) != Fail {
      assert m.count > 0 ==> PolygonStep(m, boxes, 0, names, cfg) != Fail;
      forall i: nat | i < m.count
        ensures boxes.Some? && ConfidenceAt(boxes.value, i).Some?
        ensures ConfidenceAt(boxes.value, i).value >= cfg.threshold ==>
          ClassIdAt(boxes.value, i).Some? && (m.xyn.Some? ==> i < |m.xyn.value|)
      {
        assert PolygonStep(m, boxes, i, names, cfg) != Fail;
      }
      assert PolygonRaiseFree(m, boxes, cfg.threshold);
    }
    if PolygonRaiseFree(m, boxes, cfg.threshold) {
      forall i: nat | i < m.count ensures PolygonStep(m, boxes, i, names, cfg) != Fail {
        assert ConfidenceAt(boxes.value, i).Some?;
      }
    }
  }

  /** The box loop raises at some instance exactly when the input is not
      raise-free. */
  lemma BoxRaiseFreeIff(b: Boxes, names: map<int, string>, cfg: Config)
    ensures BoxRaiseFree(b, cfg.threshold) <==>
      forall i: nat :: i < b.count ==> BoxStep(b, i, names, cfg) != Fail
  {
    if forall i: nat :: i < b.count ==> BoxStep(b, i, names, cfg) != Fail {
      forall i: nat | i < b.count
        ensures ConfidenceAt(b, i).Some?
        ensures ConfidenceAt(b, i).value >= cfg.threshold ==>
          ClassIdAt(b, i).Some? && (b.xywhn.Some? ==> i < |b.xywhn.value|)
      {
        assert BoxStep(b, i, names, cfg) != Fail;
      }
    }
  }

  /** On raise-free input every polygon iteration emits the record of its
      detection if that detection passes the threshold, and skips it
      otherwise. */
  lemma PolygonStepsFilter(m: Masks, boxes: Option<Boxes>, names: map<int, string>, cfg: Config)
    requires boxes.Some? && m.xyn.Some? && PolygonRaiseFree(m, boxes, cfg.threshold)
    ensures var ds := PolygonDetections(m, boxes);
      forall i :: 0 <= i < m.count ==>
        PolygonSteps(m, boxes, names, cfg)[i] ==
          (if IsKept(ds[i], cfg.threshold) then Emit(ToRecord(ds[i], names, cfg)) else Skip)
  {
  }

  /** The same for the box loop. */
  lemma BoxStepsFilter(b: Boxes, names: map<int, string>, cfg: Config)
    requires b.xywhn.Some? && BoxRaiseFree(b, cfg.threshold)
    ensures var ds := BoxDetections(b);
      forall i :: 0 <= i < b.count ==>
        BoxSteps(b, names, cfg)[i] ==
          (if IsKept(ds[i], cfg.threshold) then Emit(ToRecord(ds[i], names, cfg)) else Skip)
  {
  }

  /** `create_polygon_predictions`. When no iteration raises, the records
      are exactly those of the instances that pass the threshold, in mask
      order; a raise is covered by `PolygonFailureKeepsEarlierRecords`. */
  function CreatePolygonPredictions(m: Masks, boxes: Option<Boxes>, names: map<int, string>, cfg: Config): (r: seq<Annotation>)
    ensures |r| <= m.count
    ensures forall a :: a in r ==>
      a.Type() == "polygonlabels" && a.value.closed && a.score >= cfg.threshold &&
      a.fromName == cfg.fromName && a.toName == cfg.toName
    ensures boxes.None? || m.xyn.None? ==> r == []
    ensures boxes.Some? && m.xyn.Some? && PolygonRaiseFree(m, boxes, cfg.threshold) ==>
      r == Normalize(PolygonDetections(m, boxes), names, cfg)
  {
    var steps := PolygonSteps(m, boxes, names, cfg);
    if boxes.Some? && m.xyn.Some? && PolygonRaiseFree(m, boxes, cfg.threshold) then
      PolygonStepsFilter(m, boxes, names, cfg);
      RunAgreesWithNormalize(steps, PolygonDetections(m, boxes), names, cfg);
      Run(steps).records
    else
      RunWithoutEmits(steps);
      Run(steps).records
  }

  /** `create_bbox_predictions`. When no iteration raises, the records are
      exactly those of the instances that pass the threshold, in box order;
      a raise is covered by `BoxFailureKeepsEarlierRecords`. */
  function CreateBboxPredictions(b: Boxes, names: map<int, string>, cfg: Config): (r: seq<Annotation>)
    ensures |r| <= b.count
    ensures forall a :: a in r ==>
      a.Type() == "rectanglelabels" && a.score >= cfg.threshold &&
      a.fromName == cfg.fromName && a.toName == cfg.toName
    ensures b.xywhn.None? ==> r == []
    ensures b.xywhn.Some? && BoxRaiseFree(b, cfg.threshold) ==> r == Normalize(BoxDetections(b), names, cfg)
  {
    var steps := BoxSteps(b, names, cfg);
    if b.xywhn.Some? && BoxRaiseFree(b, cfg.threshold) then
      BoxStepsFilter(b, names, cfg);
      RunAgreesWithNormalize(steps, BoxDetections(b), names, cfg);
      Run(steps).records
    else
      RunWithoutEmits(steps);
      Run(steps).records
  }

  /** Input whose every column covers every mask raises nowhere, so the
      polygon loop computes the per-instance reference on it. */
  lemma ShapedPolygonRaisesNothing(m: Masks, boxes: Option<Boxes>, names: map<int, string>, cfg: Config)
    requires PolygonShaped(m, boxes)
    ensures PolygonRaiseFree(m, boxes, cfg.threshold)
    ensures CreatePolygonPredictions(m, boxes, names, cfg) == Normalize(PolygonDetections(m, boxes), names, cfg)
  {
  }

  /** The same for a box result. */
  lemma ShapedBoxesRaiseNothing(b: Boxes, names: map<int, string>, cfg: Config)
    requires BoxShaped(b)
    ensures BoxRaiseFree(b, cfg.threshold)
    ensures CreateBboxPredictions(b, names, cfg) == Normalize(BoxDetections(b), names, cfg)
  {
  }

  /** A raise while reading instance `j` of a mask result returns exactly
      the records built from instances before `j`. */
  lemma PolygonFailureKeepsEarlierRecords(m: Masks, boxes: Option<Boxes>, names: map<int, string>, cfg: Config, j: nat)
    requires j < m.count && PolygonStep(m, boxes, j, names, cfg) == Fail
    ensures CreatePolygonPredictions(m, boxes, names, cfg) ==
      Run(PolygonSteps(m, boxes, names, cfg)[..j]).records
  {
    RunStopsAtFailure(PolygonSteps(m, boxes, names, cfg), j);
  }

  /** The same for a box result. */
  lemma BoxFailureKeepsEarlierRecords(b: Boxes, names: map<int, string>, cfg: Config, j: nat)
    requires j < b.count && BoxStep(b, j, names, cfg) == Fail
    ensures CreateBboxPredictions(b, names, cfg) == Run(BoxSteps(b, names, cfg)[..j]).records
  {
    RunStopsAtFailure(BoxSteps(b, names, cfg), j);
  }

  // ---------------------------------------------------------------------
  // Whole result

  /** `convert_results_to_ls_format`: only the first result is used; masks
      select polygon mode, otherwise boxes select rectangle mode; the score
      is the mean of the emitted records' scores. */
  function ConvertResults(results: seq<DetectorResult>, names: map<int, string>, cfg: Config): (p: TaskPrediction)
    ensures p.modelVersion == cfg.modelVersion
    ensures |results| == 0 ==> p == EmptyPrediction(cfg.modelVersion)
    ensures |results| > 0 && results[0].masks.Some? ==>
      forall a :: a in p.result ==> a.Type() == "polygonlabels"
    ensures |results| > 0 && results[0].masks.None? ==>
      forall a :: a in p.result ==> a.Type() == "rectanglelabels"
    ensures |results| > 0 && results[0].masks.Some? ==>
      p.result == CreatePolygonPredictions(results[0].masks.value, results[0].boxes, names, cfg)
    ensures |results| > 0 && results[0].masks.None? && results[0].boxes.Some? ==>
      p.result == CreateBboxPredictions(results[0].boxes.value, names, cfg)
    ensures |results| > 0 && results[0].masks.None? && results[0].boxes.None? ==> p.result == []
    ensures p.score == Mean(Scores(p.result))
    ensures p.result == [] ==> p.score == 0.0
    ensures p.result != [] ==> cfg.threshold <= p.score
  {
    if |results| == 0 then EmptyPrediction(cfg.modelVersion)
    else
      var result := results[0];
      var predictions :=
        if result.masks.Some? then CreatePolygonPredictions(result.masks.value, result.boxes, names, cfg)
        else if result.boxes.Some? then CreateBboxPredictions(result.boxes.value, names, cfg)
        else [];
      var scores := Scores(predictions);
      if predictions != [] then
        assert forall k :: 0 <= k < |scores| ==> predictions[k] in predictions;
        MeanAtLeast(scores, cfg.threshold);
        TaskPrediction(cfg.modelVersion, Mean(scores), predictions)
      else
        TaskPrediction(cfg.modelVersion, Mean(scores), predictions)
  }

  /** The aggregate score never exceeds the best kept confidence: any bound
      on the records' scores (1.0 for a detector's confidences) bounds it. */
  lemma ScoreAtMostRecordScores(results: seq<DetectorResult>, names: map<int, string>, cfg: Config, hi: real)
    requires 0.0 <= hi
    requires forall a :: a in ConvertResults(results, names, cfg).result ==> a.score <= hi
    ensures ConvertResults(results, names, cfg).score <= hi
  {
    var p := ConvertResults(results, names, cfg);
    if p.result != [] {
      var xs := Scores(p.result);
      assert forall k :: 0 <= k < |xs| ==> p.result[k] in p.result;
      MeanAtMost(xs, hi);
    }
  }
}
