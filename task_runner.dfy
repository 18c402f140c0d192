/** The task runner that executes the classifier graph, seen from the image
    classifier: it is created from a task configuration, logs every batch of
    input packets submitted to it and answers each from an oracle that stands
    for the graph's execution. */
module TaskRunner {
  import opened Framework
  import opened Streams
  import opened ClassifierOptions
  import opened GraphTopology
  import opened ResultCallback

  /** What `Create` hands to the task API factory: the graph, the running mode
      and whether a packets callback (`ResultCallback.PacketsCallback`) is
      installed. */
  datatype TaskConfig = TaskConfig(graph: GraphConfig, runningMode: RunningMode, hasPacketsCallback: bool)

  /** The three submission calls of the runner. */
  datatype EngineCall = ImageData | VideoData | LiveStreamData

  datatype Submission = Submission(call: EngineCall, inputs: PacketMap)

  /** The outputs of the classifier graph for one synchronous call always hold
      a classification result packet. */
  type SyncOutputs = m: PacketMap | HoldsResult(m)
    witness map[ClassificationResultStreamName := Packet(ResultPayload(ClassificationResult([])), UnsetTimestamp)]

  class Engine {
    /** The configuration the runner was created from. */
    const config: TaskConfig
    /** The graph's answer to a synchronous submission, given the task
        configuration and the earlier submissions: its output packets, or an
        error (including the runner's own checks of running mode and
        timestamp order). */
    const respond: (TaskConfig, seq<Submission>, Submission) -> StatusOr<SyncOutputs>
    /** The runner's verdict on a live-stream submission, given the task
        configuration and the earlier submissions. */
    const accept: (TaskConfig, seq<Submission>, Submission) -> Status
    /** Every submission so far, oldest first. */
    var submissions: seq<Submission>

    constructor (config: TaskConfig,
                 respond: (TaskConfig, seq<Submission>, Submission) -> StatusOr<SyncOutputs>,
                 accept: (TaskConfig, seq<Submission>, Submission) -> Status)
      ensures this.config == config && this.respond == respond && this.accept == accept
      ensures submissions == []
    {
      this.config := config;
      this.respond := respond;
      this.accept := accept;
      submissions := [];
    }

    /** `ProcessImageData`: a blocking call in image mode. */
    method ProcessImageData(inputs: PacketMap) returns (r: StatusOr<SyncOutputs>)
      modifies this
      ensures submissions == old(submissions) + [Submission(ImageData, inputs)]
      ensures r == respond(config, old(submissions), Submission(ImageData, inputs))
    {
      r := respond(config, submissions, Submission(ImageData, inputs));
      submissions := submissions + [Submission(ImageData, inputs)];
    }

    /** `ProcessVideoData`: a blocking call in video mode. */
    method ProcessVideoData(inputs: PacketMap) returns (r: StatusOr<SyncOutputs>)
      modifies this
      ensures submissions == old(submissions) + [Submission(VideoData, inputs)]
      ensures r == respond(config, old(submissions), Submission(VideoData, inputs))
    {
      r := respond(config, submissions, Submission(VideoData, inputs));
      submissions := submissions + [Submission(VideoData, inputs)];
    }

    /** `SendLiveStreamData`: enqueues in live-stream mode and returns at once. */
    method SendLiveStreamData(inputs: PacketMap) returns (s: Status)
      modifies this
      ensures submissions == old(submissions) + [Submission(LiveStreamData, inputs)]
      ensures s == accept(config, old(submissions), Submission(LiveStreamData, inputs))
    {
      s := accept(config, submissions, Submission(LiveStreamData, inputs));
      submissions := submissions + [Submission(LiveStreamData, inputs)];
    }
  }
}
