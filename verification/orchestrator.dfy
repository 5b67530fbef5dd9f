/** The batch driver `predict`: locate each task's image, run the detector
    and convert its output. A task with no image, or whose detector call
    raises, gets an empty, zero-score prediction at its own position; a raise
    inside a conversion loop is caught there and keeps the records built
    before it. */
module Orchestrator {
  import opened Common
  import opened Settings
  import opened Locator
  import opened Annotations
  import opened Normalizer

  /** The detector's answer for one image: its result list, or a raise. */
  datatype DetectOutcome = Detected(results: seq<DetectorResult>) | DetectFailed

  /** A loaded detector: its own id-to-name table and its predict call. */
  datatype Model = Model(names: map<int, string>, detect: (string, InferenceParams) -> DetectOutcome)

  /** Python's truthiness of `image_path`: absent and empty both mean "no
      image". */
  predicate HasImage(path: Option<string>) {
    path.Some? && path.value != ""
  }

  /** The body of `predict`'s loop for one task. Every failure (no image
      field, an unresolvable path, a detector raise) becomes the empty,
      zero-score prediction. */
  function PredictTask(task: Task, m: Model, cfg: Config, platform: Platform): (p: TaskPrediction)
    ensures p.modelVersion == cfg.modelVersion
    ensures p.result == [] ==> p.score == 0.0
    ensures forall a :: a in p.result ==> a.score >= cfg.threshold
    ensures p.result != [] ==>
      var path := GetImagePath(task, cfg.taskDataKey, platform);
      HasImage(path) && m.detect(path.value, Inference(cfg)).Detected?
    ensures !HasImage(GetImagePath(task, cfg.taskDataKey, platform)) ==> p == EmptyPrediction(cfg.modelVersion)
    ensures var path := GetImagePath(task, cfg.taskDataKey, platform);
      HasImage(path) ==>
        match m.detect(path.value, Inference(cfg))
        case DetectFailed => p == EmptyPrediction(cfg.modelVersion)
        case Detected(results) => p == ConvertResults(results, m.names, cfg)
  {
    var imagePath := GetImagePath(task, cfg.taskDataKey, platform);
    if !HasImage(imagePath) then EmptyPrediction(cfg.modelVersion)
    else match m.detect(imagePath.value, Inference(cfg))
      case DetectFailed => EmptyPrediction(cfg.modelVersion)
      case Detected(results) => ConvertResults(results, m.names, cfg)
  }

  /** The per-task loop of `predict`: apply `f` to every task, in order,
      collecting the results at the tasks' own positions. */
  method MapTasks(tasks: seq<Task>, f: Task -> TaskPrediction) returns (results: seq<TaskPrediction>)
    ensures |results| == |tasks|
    ensures forall k :: 0 <= k < |tasks| ==> results[k] == f(tasks[k])
  {
    results := [];
    for i := 0 to |tasks|
      invariant |results| == i
      invariant forall k :: 0 <= k < i ==> results[k] == f(tasks[k])
    {
      results := results + [f(tasks[i])];
    }
  }

  /** `predict`. No model gives an empty batch; otherwise one prediction
      per task, in task order, each depending on its own task only. */
  method Predict(tasks: seq<Task>, model: Option<Model>, cfg: Config, platform: Platform)
    returns (predictions: seq<TaskPrediction>)
    ensures model.None? ==> predictions == []
    ensures model.Some? ==> |predictions| == |tasks|
    ensures model.Some? ==> forall k :: 0 <= k < |tasks| ==>
      predictions[k] == PredictTask(tasks[k], model.value, cfg, platform)
    ensures forall k :: 0 <= k < |predictions| ==> predictions[k].modelVersion == cfg.modelVersion
    ensures forall k :: 0 <= k < |predictions| && predictions[k].result == [] ==> predictions[k].score == 0.0
  {
    if model.None? {
      return [];
    }
    var m := model.value;
    predictions := MapTasks(tasks, t => PredictTask(t, m, cfg, platform));
  }
}
