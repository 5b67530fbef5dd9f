# YOLO injection-area segmentation backend — a Dafny model of its core

This project models the core of the labeling-platform backend
`YOLOInjectionAreaSegmentation`, which sits between an object detector and a
labeling platform. It covers two parts:

- **The image locator** (`get_image_path`, `try_fallback_path_resolution`).
  It chooses the task field that holds the image reference and classifies
  the value as a remote URL, a platform-managed `/data/local-files/` reference
  or a plain path. It then resolves the value through the platform's
  `get_local_path` or through a filesystem existence check. When the resolver
  raises on a managed reference under the configured key, it probes six
  fixed storage roots in order.
- **The annotation normaliser** (`convert_results_to_ls_format`,
  `create_polygon_predictions`, `create_bbox_predictions`, `get_class_name`).
  It takes the detector's first result and picks polygon mode when masks are
  present, rectangle mode when boxes are present, and gives no records when
  neither is. It drops instances whose confidence is
  below the threshold and scales the geometry to percent. The task's score is
  the mean confidence of the records kept.
- **The batch driver** `predict` runs the two parts for each task. A task
  with no image (model.py:90-100), or whose detector call raises
  (model.py:140-148), gets an empty, zero-score prediction at its own
  position. A raise inside a `create_*` loop is caught inside that function
  and keeps the records built before it, so such a task can still score
  above zero (`Scenarios.PartialFailureKeepsRecord`).

Modules:

| module | file | contents |
|---|---|---|
| `Common` | common.dfy | `Option`, Python-style substring search and `split(sep, 1)`, `str(int)` with its decimal reading |
| `Settings` | settings.dfy | the configuration the core reads (`config.py` defaults) |
| `Locator` | locator.dfy | field selection, classification, fallback probing, `get_image_path` |
| `Annotations` | annotations.dfy | annotation records, geometry scaling, class names, mean score |
| `Normalizer` | normalizer.dfy | detector output, the two loops exactly as written, a per-instance reference definition, `convert_results_to_ls_format` |
| `Orchestrator` | orchestrator.dfy | `predict` |
| `Scenarios` | scenarios.dfy | concrete end-to-end cases |

Three things outside the core become parameters:

- The filesystem is a set of existing paths.
- The platform resolver `get_local_path` is a function of (url, task id) that returns a path or raises.
- The detector is a function of (path, inference parameters) that returns results or raises.

Each loop in `create_polygon_predictions` and `create_bbox_predictions` is
modelled as a sequence of per-instance `Step`s (skip, emit or raise). `Run`
executes them and stops at the first raise, keeping the records built so far,
because the source catches the exception outside its loop. When the geometry
column (`xyn` or `xywhn`) is present, together with the boxes in polygon mode,
and no iteration raises (`PolygonRaiseFree`, `BoxRaiseFree`), both loops are
proved equal to `Normalize`. Without the geometry column, or without the boxes
in polygon mode, a loop gives no records. `Normalize` is an independent
reference definition: one record per instance that passes the threshold, in
detector order. A short confidence column always raises at its first missing
index, because the confidence is read before the threshold test. A class or
geometry column shorter than the instance count does not by itself raise,
because an instance below the threshold is skipped before its class and
geometry are read.

### As-written behaviours the model keeps

- A kept mask whose contour has zero points still gives a polygon record,
  with no points (model.py:371-387; `Scenarios.EmptyContourStillEmitted`).
- A value is classified as a managed reference on the prefix
  `/data/local-files/` alone (model.py:174). The fallback probe then needs
  `?d=`, so a managed reference without it is never found by probing
  (model.py:263-292; `Scenarios.ProbeNeedsQueryMarker`).
- The storage roots are probed only when the platform resolver raises
  (model.py:188-200). A resolved path that does not exist gives no image
  (model.py:182-187; `Scenarios.ResolvedButMissingIsNotProbed`).
- A managed reference found under a fallback key is never probed: a
  resolver raise gives no image (model.py:235-238;
  `Scenarios.FallbackKeyDoesNotProbe`).
- Polygon mode is chosen whenever `masks` is present, even with no
  instances, and the boxes branch is then not taken (model.py:317-324).
- `get_class_name` asks the detector's table first, but the configured
  mapping still wins for every id it holds (model.py:464-469). Its middle
  branch returns the same value as its `else` branch (model.py:470-473).
- `predict` checks the image path for truthiness, so an empty string counts
  as "no image" (model.py:90; `Orchestrator.HasImage`).

## Model

Some members are reference definitions that the contracts below are stated
against rather than properties in themselves: `Locator.FallbackRoots`
(model.py:269-276, the six storage roots in probe order), `Locator.Join`
(model.py:279, `os.path.join` of two components), `Annotations.Mean`
(model.py:328, `np.mean` of the scores) and `Orchestrator.HasImage`
(model.py:90, the truthiness test on the image path).

| member | source | states |
|---|---|---|
| Common.AfterFirst | yolo_injection_area_segmentation/model.py:263-265 | `?d=` is found iff it occurs; the result is the text after its FIRST occurrence |
| Common.IntToDecimal | yolo_injection_area_segmentation/model.py:476 | the canonical decimal form of the id, as `str()` gives it: non-empty, no leading zero, a leading `-` for negative ids, and the digits read back to the id |
| Locator.FirstPresent | yolo_injection_area_segmentation/model.py:213-214 | returns the first fallback key present in the task data; None iff no key is present |
| Locator.SelectField | yolo_injection_area_segmentation/model.py:163-164 | the configured key wins whenever present; otherwise the first present fallback key, in the order image, image_url, img, photo; no field iff none is present |
| Locator.Classify | yolo_injection_area_segmentation/model.py:168-201 | the three reference kinds are decided by prefix alone: http(s) first, then `/data/local-files/`, else a plain path; the value is kept unchanged |
| Locator.Probe | yolo_injection_area_segmentation/model.py:278-284 | the first root under which the joined path exists; None iff it exists under none |
| Locator.TryFallbackPathResolution | yolo_injection_area_segmentation/model.py:256-297 | no `?d=` gives None; a result always exists on disk and is the first root-join hit for the text after `?d=`; None iff no root holds it |
| Locator.ResolveField | yolo_injection_area_segmentation/model.py:167-209 | non-string values give None; a remote URL returns the download as-is; a managed reference is checked for existence, and when the resolver raises it is probed only under the configured key; a plain path is returned iff it exists; a result either exists or was downloaded |
| Locator.GetImagePath | yolo_injection_area_segmentation/model.py:155-254 | the configured key's value decides alone when present; otherwise the first present fallback key is resolved without probing; no key gives None; a result either exists or was downloaded from a field of the task |
| Locator.PrimaryKeyDecides | yolo_injection_area_segmentation/model.py:163-209 | two tasks that agree on the configured field and on their id resolve alike, whatever their other fields hold |
| Annotations.ScalePoints | yolo_injection_area_segmentation/model.py:372-373 | every coordinate is multiplied by 100; point count and order are kept; dividing by 100 gives the original contour back |
| Annotations.PolygonFrom | yolo_injection_area_segmentation/model.py:376-386 | a closed polygon with one label and the contour scaled to percent, recoverable from the value |
| Annotations.RectangleFrom | yolo_injection_area_segmentation/model.py:425-446 | the top-left corner and size in percent, whose centre is the detector's centre times 100; converting back gives the original centre-form box |
| Annotations.GetClassName | yolo_injection_area_segmentation/model.py:461-476 | the configured mapping wins for every id it holds; otherwise the detector's name; otherwise `class_` followed by the id in decimal |
| Annotations.SumAtLeast | yolo_injection_area_segmentation/model.py:328 | a lower bound on every element bounds the sum by n times it |
| Annotations.SumAtMost | yolo_injection_area_segmentation/model.py:328 | an upper bound on every element bounds the sum by n times it |
| Annotations.MeanAtLeast | yolo_injection_area_segmentation/model.py:328 | the mean of a non-empty list is at least any lower bound of its elements |
| Annotations.MeanAtMost | yolo_injection_area_segmentation/model.py:328 | the mean of a non-empty list is at most any upper bound of its elements |
| Normalizer.TruncateToInt | yolo_injection_area_segmentation/model.py:366 | `int()` on a float truncates toward zero, for both signs |
| Normalizer.ConfidenceAt | yolo_injection_area_segmentation/model.py:357 | a missing confidence column reads as 0.0; otherwise the i-th confidence, and the read fails iff i is out of range |
| Normalizer.ClassIdAt | yolo_injection_area_segmentation/model.py:366 | a missing class column reads as class 0; otherwise the truncated i-th class, and the read fails iff i is out of range |
| Normalizer.ToRecord | yolo_injection_area_segmentation/model.py:376-447 | the record carries the configured from/to names and the detection's confidence; its type names its shape; the label is the resolved class name; the geometry converts back to the detector's |
| Normalizer.KeptPositions | yolo_injection_area_segmentation/model.py:360-363 | exactly the positions whose confidence is not below the threshold, strictly increasing |
| Normalizer.Normalize | yolo_injection_area_segmentation/model.py:355-391 | one record per kept instance, in detector order |
| Normalizer.Run | yolo_injection_area_segmentation/model.py:350-398 | the loop emits no more records than iterations, only records some iteration emitted, and ends raised iff some iteration raises |
| Normalizer.RunStopsAtFailure | yolo_injection_area_segmentation/model.py:394-398 | a raise at iteration j returns exactly the records of the iterations before j |
| Normalizer.RunWithoutEmits | yolo_injection_area_segmentation/model.py:389-391 | iterations that never emit leave the record list empty |
| Normalizer.RunAgreesWithNormalize | yolo_injection_area_segmentation/model.py:355-391 | a raise-free loop that emits each passing instance's record computes `Normalize` |
| Normalizer.PolygonStep | yolo_injection_area_segmentation/model.py:355-391 | missing boxes raise; an emitted record is a closed polygon at or above the threshold with the configured names; missing contours never emit |
| Normalizer.BoxStep | yolo_injection_area_segmentation/model.py:408-451 | an emitted record is a rectangle at or above the threshold with the configured names; missing box coordinates never emit |
| Normalizer.PolygonDetections | yolo_injection_area_segmentation/model.py:355-372 | one detection per mask; detection i carries `conf[i]` (0.0 when the column is missing), the truncated `cls[i]` (class 0 when missing) and the contour `xyn[i]`, wherever those entries exist |
| Normalizer.BoxDetections | yolo_injection_area_segmentation/model.py:408-425 | one detection per box; detection i carries `conf[i]` (0.0 when the column is missing), the truncated `cls[i]` (class 0 when missing) and the box `xywhn[i]`, wherever those entries exist |
| Normalizer.PolygonRaiseFreeIff | yolo_injection_area_segmentation/model.py:355-372 | the polygon loop raises at no instance iff the boxes exist, every confidence read exists, and every instance at or above the threshold has a class and, when contours are present, a contour |
| Normalizer.BoxRaiseFreeIff | yolo_injection_area_segmentation/model.py:408-425 | the box loop raises at no instance iff every confidence read exists and every instance at or above the threshold has a class and, when coordinates are present, a box |
| Normalizer.PolygonStepsFilter | yolo_injection_area_segmentation/model.py:355-387 | when no iteration raises, mask i emits its detection's record iff it passes the threshold, and is skipped otherwise |
| Normalizer.BoxStepsFilter | yolo_injection_area_segmentation/model.py:408-451 | when no iteration raises, box i emits its detection's record iff it passes the threshold, and is skipped otherwise |
| Normalizer.ShapedPolygonRaisesNothing | yolo_injection_area_segmentation/model.py:355-372 | when the boxes and contours exist and every column covers every mask, no iteration raises, so the polygon loop equals the per-instance reference |
| Normalizer.ShapedBoxesRaiseNothing | yolo_injection_area_segmentation/model.py:408-425 | when the coordinates exist and every column covers every box, no iteration raises, so the box loop equals the per-instance reference |
| Normalizer.CreatePolygonPredictions | yolo_injection_area_segmentation/model.py:346-398 | at most one record per mask, all closed polygons at or above the threshold; no boxes or no contours give none; whenever no iteration raises it equals the per-instance reference |
| Normalizer.CreateBboxPredictions | yolo_injection_area_segmentation/model.py:400-459 | at most one record per box, all rectangles at or above the threshold; no coordinates give none; whenever no iteration raises it equals the per-instance reference |
| Normalizer.PolygonFailureKeepsEarlierRecords | yolo_injection_area_segmentation/model.py:394-398 | a raise while reading mask j returns exactly the records built from masks before j |
| Normalizer.BoxFailureKeepsEarlierRecords | yolo_injection_area_segmentation/model.py:455-459 | a raise while reading box j returns exactly the records built from boxes before j |
| Normalizer.ConvertResults | yolo_injection_area_segmentation/model.py:299-344 | no results give the empty prediction; with masks the records are exactly those of the polygon loop, otherwise with boxes exactly those of the box loop, and with neither there are none; the score is the mean of the record scores, 0.0 when there are none and at least the threshold otherwise |
| Normalizer.ScoreAtMostRecordScores | yolo_injection_area_segmentation/model.py:328-335 | the aggregate score never exceeds a bound that every record's score respects |
| Orchestrator.PredictTask | yolo_injection_area_segmentation/model.py:86-148 | no image (absent or empty path) and a detector raise both give the empty, zero-score prediction; a prediction with records implies the image was located and the detector answered, and every record is at or above the threshold; otherwise the conversion of the detector's results |
| Orchestrator.MapTasks | yolo_injection_area_segmentation/model.py:82-84 | the loop yields one result per task, at the task's own position |
| Orchestrator.Predict | yolo_injection_area_segmentation/model.py:62-153 | no model gives an empty batch; otherwise one prediction per task, where prediction k depends on task k alone; every prediction carries the model version, and an empty one scores 0.0 |
| Scenarios.ManagedReference | yolo_injection_area_segmentation/model.py:168-174 | `/data/local-files/?d=<rel>` is classified as a managed reference |
| Scenarios.ManagedReferenceRelativePart | yolo_injection_area_segmentation/model.py:263-265 | the relative part of `/data/local-files/?d=<rel>` is `rel` |
| Scenarios.DirectPathThatExists | yolo_injection_area_segmentation/model.py:201-206 | an existing plain path is returned unchanged |
| Scenarios.RemoteUrlIsTrusted | yolo_injection_area_segmentation/model.py:168-173 | an https reference yields the downloader's path without an existence check |
| Scenarios.SecondRootHit | yolo_injection_area_segmentation/model.py:278-284 | a relative path present under the second root and not the first is found at position 1 |
| Scenarios.ProbeFindsSecondRoot | yolo_injection_area_segmentation/model.py:256-284 | when the relative part of `/data/local-files/?d=<rel>` exists under the second root and not the first, the probe returns `/data/<rel>` |
| Scenarios.ManagedReferenceFoundUnderSecondRoot | yolo_injection_area_segmentation/model.py:163-200 | under the configured key, with a raising resolver and the file under the second root only, `get_image_path` returns `/data/<rel>` |
| Scenarios.ProbeNeedsQueryMarker | yolo_injection_area_segmentation/model.py:263-292 | a managed reference without `?d=` is not probed |
| Scenarios.ResolvedButMissingIsNotProbed | yolo_injection_area_segmentation/model.py:177-187 | a resolver path that does not exist gives no image, though the probe would have found the file |
| Scenarios.FallbackKeyDoesNotProbe | yolo_injection_area_segmentation/model.py:223-238 | under a fallback key a resolver raise gives no image |
| Scenarios.LowConfidencePolygonDropped | yolo_injection_area_segmentation/model.py:357-363 | one mask at confidence 0.10 under threshold 0.25 gives an empty result and score 0 |
| Scenarios.TwoBoxesKept | yolo_injection_area_segmentation/model.py:400-459 | boxes at 0.30 and 0.90 with no class column give two class-0 rectangles, in order |
| Scenarios.TwoScoresAverage | yolo_injection_area_segmentation/model.py:328 | records scoring 0.30 and 0.90 average to 0.60 |
| Scenarios.TwoBoxesAveraged | yolo_injection_area_segmentation/model.py:299-335 | boxes at 0.30 and 0.90 with no class column give two class-0 rectangles in order, scoring 0.60 |
| Scenarios.ShortColumnsBelowThreshold | yolo_injection_area_segmentation/model.py:355-387 | two masks with one class and one contour, the second below the threshold: one polygon, for the first mask, and no raise |
| Scenarios.PartialFailureKeepsRecord | yolo_injection_area_segmentation/model.py:299-398 | two masks and a one-entry confidence column at 0.5: the second mask's read raises inside the loop, and the prediction keeps the first polygon and scores 0.5 |
| Scenarios.EmptyContourStillEmitted | yolo_injection_area_segmentation/model.py:371-387 | a kept mask with an empty contour still gives a polygon record, with no points |

## Left out

- Model loading, device selection, `setup`, `fit` and the plugin lifecycle. They are outside the core. `Predict` takes the loaded model as an optional parameter.
- Logging, and the `ModelResponse` wrapper around the prediction list. Neither changes the returned values.
- The internals of the platform's `get_local_path`, of `os.path.exists` and of the detector. Each is a parameter: a resolver function, a set of existing paths and a detect function.
- The detector's IoU threshold, input size and maximum detection count. They are passed through to the detector unchanged (`Settings.Inference`), and their effect on the detector is not modelled.
- `os.path.expanduser`: the home directory is a parameter without a trailing separator. An unset `HOME` is not modelled.
- `os.path.join` is modelled for two components on POSIX only.
- Numeric representation. Confidences and coordinates are exact reals, not 32-bit floats, so `np.mean` is exact in the model.
- Environment-variable overrides of the configuration. `Config` is a parameter, and `DefaultConfig` holds the defaults from `config.py`.
- Normalizer.ConvertResults: an exception inside `convert_results_to_ls_format` outside the two loops has no cause the model can produce, so its catch-all branch is not modelled.
- Locator.GetImagePath: a task without a `data` field is a task with empty data. A task field of any non-string type is the single `NonText` value, which always gives no image.
