/** The image classifier task: construction from user options, and the three
    entry points that check the image, attach a region of interest, submit
    the two input packets to the task runner and decode its answer. */
module ImageClassifier {
  import opened Framework
  import opened Streams
  import opened Timing
  import opened Region
  import opened ClassifierOptions
  import opened GraphTopology
  import opened ResultCallback
  import opened TaskRunner

  /** The error every entry point returns for a GPU-backed image. */
  const GpuInputError: Error :=
    Error(InvalidArgument, "GPU input images are currently not supported.", Some(RunnerUnexpectedInputError))

  /** The task configuration `Create` hands to the factory. */
  function TaskSetup(options: ImageClassifierOptions): (cfg: TaskConfig)
    ensures cfg.runningMode == options.runningMode
    ensures cfg.graph.flowLimiter.Some? <==> options.runningMode == LiveStreamMode
    ensures cfg.graph.node.options.baseOptions.useStreamMode <==> options.runningMode != ImageMode
    ensures cfg.graph.node.options.baseOptions.convertedFrom == options.baseOptions
    ensures cfg.graph.node.options.classifierOptions.convertedFrom == options.classifierOptions
    ensures cfg.hasPacketsCallback <==> options.hasResultCallback
  {
    TaskConfig(
      CreateGraphConfig(ConvertImageClassifierOptionsToProto(options), options.runningMode == LiveStreamMode),
      options.runningMode,
      options.hasResultCallback)
  }

  /** Flow limiting implies streaming semantics; video mode streams without a
      limiter; image mode does neither. */
  lemma TaskSetupByMode(options: ImageClassifierOptions)
    ensures var cfg := TaskSetup(options);
      var streaming := cfg.graph.node.options.baseOptions.useStreamMode;
      var limited := cfg.graph.flowLimiter.Some?;
      (limited ==> streaming) &&
      (options.runningMode == VideoMode <==> streaming && !limited) &&
      (options.runningMode == ImageMode <==> !streaming && !limited)
  {
  }

  /** The two input packets of one submission, stamped `timestamp`. */
  function InputPackets(image: Image, roi: Option<NormalizedRect>, timestamp: int64): (m: PacketMap)
    ensures m.Keys == {ImageInStreamName, NormRectName}
    ensures !m[ImageInStreamName].IsEmpty() && !m[NormRectName].IsEmpty()
    ensures m[ImageInStreamName].payload == ImagePayload(image)
    ensures m[NormRectName].payload == RectPayload(RegionOfInterest(roi))
    ensures m[ImageInStreamName].timestamp == timestamp && m[NormRectName].timestamp == timestamp
  {
    map[ImageInStreamName := At(MakePacket(ImagePayload(image)), timestamp),
        NormRectName := At(MakePacket(RectPayload(RegionOfInterest(roi))), timestamp)]
  }

  /** Image mode: the packets carry no explicit timestamp, so the envelope is
      the one at the unset timestamp. */
  function ImageInputs(image: Image, roi: Option<NormalizedRect>): (m: PacketMap)
    ensures m == InputPackets(image, roi, UnsetTimestamp)
  {
    map[ImageInStreamName := MakePacket(ImagePayload(image)),
        NormRectName := MakePacket(RectPayload(RegionOfInterest(roi)))]
  }

  /** Video and live-stream mode: both packets at `ms` milliseconds, each
      stamped so that it reports back the caller's milliseconds. */
  function StreamInputs(image: Image, roi: Option<NormalizedRect>, ms: int64): (m: PacketMap)
    requires StampFits(ms)
    ensures m.Keys == {ImageInStreamName, NormRectName}
    ensures forall name :: name in m ==>
      !m[name].IsEmpty() && m[name].timestamp == ToMicros(ms) && ToMillis(m[name].timestamp) == ms
    ensures !m[ImageInStreamName].IsEmpty() && m[ImageInStreamName].payload == ImagePayload(image)
    ensures !m[NormRectName].IsEmpty() && m[NormRectName].payload == RectPayload(RegionOfInterest(roi))
  {
    MillisMicrosRoundTrip(ms);
    InputPackets(image, roi, ToMicros(ms))
  }

  /** A live-stream frame that the graph completes at the timestamp it was
      submitted with is reported to the user with the caller's milliseconds,
      its classification result and its image. */
  lemma LiveStreamReportsSubmittedTimestamp(ms: int64, outputs: PacketMap)
    requires StampFits(ms)
    requires WellTyped(outputs) && !Dropped(outputs)
    requires ResultPacket(outputs).timestamp == ToMicros(ms)
    ensures PacketsCallback(Value(outputs)) ==
      [Invocation(Value(ResultPacket(outputs).payload.result), ImagePacket(outputs).payload.image, ms)]
  {
    MillisMicrosRoundTrip(ms);
  }

  /** `output_packets[kClassificationResultStreamName].Get<ClassificationResult>()`
      behind `ASSIGN_OR_RETURN`: an engine error is passed on unchanged. */
  function DecodeResult(out: StatusOr<SyncOutputs>): (r: StatusOr<ClassificationResult>)
    ensures r.Failed? <==> out.Failed?
    ensures out.Failed? ==> r.error == out.error
    ensures out.Value? ==> r.value == ResultPacket(out.value).payload.result
  {
    match out
    case Failed(e) => Failed(e)
    case Value(m) => Value(ResultPacket(m).payload.result)
  }

  class ImageClassifier {
    /** The runner the factory created for this task. */
    const runner: Engine

    constructor (runner: Engine)
      ensures this.runner == runner
    {
      this.runner := runner;
    }

    /** `ImageClassifier::Create`: the factory (foreign) receives the task
        configuration and either fails or yields a fresh runner. */
    static method Create(options: ImageClassifierOptions,
                         factory: TaskConfig -> Status,
                         respond: (TaskConfig, seq<Submission>, Submission) -> StatusOr<SyncOutputs>,
                         accept: (TaskConfig, seq<Submission>, Submission) -> Status)
      returns (r: StatusOr<ImageClassifier>)
      ensures factory(TaskSetup(options)).ErrStatus? ==> r == Failed(factory(TaskSetup(options)).error)
      ensures factory(TaskSetup(options)).OkStatus? ==>
        r.Value? && fresh(r.value) && fresh(r.value.runner) &&
        r.value.runner.config == TaskSetup(options) &&
        r.value.runner.respond == respond && r.value.runner.accept == accept &&
        r.value.runner.submissions == []
    {
      var cfg := TaskSetup(options);
      var created := factory(cfg);
      if created.ErrStatus? {
        return Failed(created.error);
      }
      var runner := new Engine(cfg, respond, accept);
      var classifier := new ImageClassifier(runner);
      r := Value(classifier);
    }

    /** `Classify`: image mode. */
    method Classify(image: Image, roi: Option<NormalizedRect>) returns (r: StatusOr<ClassificationResult>)
      modifies runner
      ensures image.UsesGpu() ==> r == Failed(GpuInputError) && runner.submissions == old(runner.submissions)
      ensures !image.UsesGpu() ==>
        var s := Submission(ImageData, InputPackets(image, roi, UnsetTimestamp));
        runner.submissions == old(runner.submissions) + [s] &&
        r == DecodeResult(runner.respond(runner.config, old(runner.submissions), s))
    {
      if image.UsesGpu() {
        return Failed(GpuInputError);
      }
      var outputs := runner.ProcessImageData(ImageInputs(image, roi));
      r := DecodeResult(outputs);
    }

    /** `ClassifyForVideo`: video mode, timestamp in milliseconds. */
    method ClassifyForVideo(image: Image, timestampMs: int64, roi: Option<NormalizedRect>)
      returns (r: StatusOr<ClassificationResult>)
      requires StampFits(timestampMs)
      modifies runner
      ensures image.UsesGpu() ==> r == Failed(GpuInputError) && runner.submissions == old(runner.submissions)
      ensures !image.UsesGpu() ==>
        var s := Submission(VideoData, InputPackets(image, roi, timestampMs * MicroSecondsPerMilliSecond));
        runner.submissions == old(runner.submissions) + [s] &&
        r == DecodeResult(runner.respond(runner.config, old(runner.submissions), s))
    {
      if image.UsesGpu() {
        return Failed(GpuInputError);
      }
      var outputs := runner.ProcessVideoData(StreamInputs(image, roi, timestampMs));
      r := DecodeResult(outputs);
    }

    /** `ClassifyAsync`: live-stream mode; returns the submission status only. */
    method ClassifyAsync(image: Image, timestampMs: int64, roi: Option<NormalizedRect>) returns (status: Status)
      requires StampFits(timestampMs)
      modifies runner
      ensures image.UsesGpu() ==> status == ErrStatus(GpuInputError) && runner.submissions == old(runner.submissions)
      ensures !image.UsesGpu() ==>
        var s := Submission(LiveStreamData, InputPackets(image, roi, timestampMs * MicroSecondsPerMilliSecond));
        runner.submissions == old(runner.submissions) + [s] &&
        status == runner.accept(runner.config, old(runner.submissions), s)
    {
      if image.UsesGpu() {
        return ErrStatus(GpuInputError);
      }
      status := runner.SendLiveStreamData(StreamInputs(image, roi, timestampMs));
    }
  }
}
