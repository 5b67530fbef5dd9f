/** The configuration the backend reads once at start-up, passed explicitly
    to every operation instead of being read from the environment. */
module Settings {

  /** Everything the core reads from configuration. */
  datatype Config = Config(
    threshold: real,                  // CONFIDENCE_THRESHOLD
    iou: real,                        // IOU_THRESHOLD
    imageSize: int,                   // IMAGE_SIZE
    maxDetections: int,               // MAX_DETECTIONS
    classMapping: map<int, string>,   // CLASS_MAPPING
    taskDataKey: string,              // LABEL_STUDIO_TASK_DATA_KEY
    fromName: string,                 // LABEL_STUDIO_FROM_NAME
    toName: string,                   // LABEL_STUDIO_TO_NAME
    modelVersion: string              // MODEL_VERSION, stored by `setup`
  )

  /** The defaults used when no environment variable overrides them. */
  const DefaultConfig: Config := Config(
    0.25, 0.7, 640, 300,
    map[0 := "arm_injection_area"],
    "image", "label", "image",
    "1.0.0"
  )

  /** The arguments handed unchanged to the detector on every call. */
  datatype InferenceParams = InferenceParams(
    confidence: real, iou: real, imageSize: int, maxDetections: int)

  function Inference(cfg: Config): InferenceParams {
    InferenceParams(cfg.threshold, cfg.iou, cfg.imageSize, cfg.maxDetections)
  }
}
