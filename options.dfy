/** User-facing options of the image classifier and their translation into the
    options message of the classifier subgraph. */
module ClassifierOptions {

  datatype RunningMode = ImageMode | VideoMode | LiveStreamMode

  /** Model asset and runtime settings; converted by foreign code. */
  datatype BaseOptions = BaseOptions(modelAssetPath: string)

  /** Classifier post-processing settings; converted by foreign code. */
  datatype ClassifierOptions = ClassifierOptions(
    maxResults: int,
    scoreThreshold: real,
    categoryAllowlist: seq<string>,
    categoryDenylist: seq<string>)

  /** `ImageClassifierOptions`; `hasResultCallback` says whether `result_callback` is set. */
  datatype ImageClassifierOptions = ImageClassifierOptions(
    baseOptions: BaseOptions,
    classifierOptions: ClassifierOptions,
    runningMode: RunningMode,
    hasResultCallback: bool)

  /** The base options message: the result of converting `convertedFrom`, with
      the stream-mode flag this file sets on top of it. */
  datatype BaseOptionsProto = BaseOptionsProto(convertedFrom: BaseOptions, useStreamMode: bool)

  /** The classifier options message, the result of converting `convertedFrom`. */
  datatype ClassifierOptionsProto = ClassifierOptionsProto(convertedFrom: ClassifierOptions)

  /** `proto::ImageClassifierGraphOptions`. */
  datatype ImageClassifierGraphOptions = ImageClassifierGraphOptions(
    baseOptions: BaseOptionsProto,
    classifierOptions: ClassifierOptionsProto)

  /** `ConvertImageClassifierOptionsToProto`: streaming semantics for every mode
      but single images; the two nested messages come from the user's options. */
  function ConvertImageClassifierOptionsToProto(options: ImageClassifierOptions): (p: ImageClassifierGraphOptions)
    ensures p.baseOptions.useStreamMode <==> options.runningMode != ImageMode
    ensures p.baseOptions.convertedFrom == options.baseOptions
    ensures p.classifierOptions.convertedFrom == options.classifierOptions
  {
    ImageClassifierGraphOptions(
      BaseOptionsProto(options.baseOptions, options.runningMode != ImageMode),
      ClassifierOptionsProto(options.classifierOptions))
  }
}
