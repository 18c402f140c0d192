# Image classifier task: verified model

This project models the MediaPipe image classifier task
(`mediapipe/tasks/cc/vision/image_classifier/image_classifier.cc`), a thin
dispatch layer over the MediaPipe task runner. It covers the decisions that
file makes itself:

- **Region defaulting** (`Region`). A caller's region of interest is used
  unchanged. With no region, the full-image rectangle {0.5, 0.5, 1, 1} is
  used, and it spans the normalized frame exactly.
- **Options translation** (`ClassifierOptions`). The subgraph's options get
  `use_stream_mode` set exactly when the running mode is not IMAGE.
- **Graph topology** (`GraphTopology`). The graph has inputs `IMAGE:image_in`
  and `NORM_RECT:norm_rect_in`, one `ImageClassifierGraph` node, and outputs
  `classification_result_out` and `image_out`. Without flow limiting, each
  graph input is wired straight to the subgraph input with the same tag. With
  flow limiting, a limiter marker gates both tags and is released by
  `CLASSIFICATION_RESULT`.
- **Task setup** (`ImageClassifier.TaskSetup`, `ImageClassifier.Create`).
  Flow limiting is on exactly in LIVE_STREAM mode. A packets callback is
  installed exactly when the user gave a result callback. The task API
  factory is a parameter that accepts or rejects the configuration.
- **Entry points** (`ImageClassifier.ImageClassifier`). `Classify`,
  `ClassifyForVideo` and `ClassifyAsync` reject a GPU-backed image with
  InvalidArgument and payload `kRunnerUnexpectedInputError`, and then nothing
  is submitted. Otherwise exactly one envelope is submitted. It holds exactly
  the two packets `image_in` and `norm_rect_in`. In image mode they carry the
  unset timestamp. In video and live-stream mode both are stamped
  `timestamp_ms * 1000`. The synchronous calls return the
  `classification_result_out` result or pass the runner's error on unchanged.
  `ClassifyAsync` returns only the submission status.
- **Result adapter** (`ResultCallback`). The live-stream packets callback
  reports a runner error with an empty image and the unset timestamp. It
  makes no call for a dropped frame (empty `image_out`). Otherwise it reports
  the result, the image and the result timestamp divided by 1000, using
  C++'s truncating division. Over a sequence of deliveries, the user callback
  runs once per error or completed frame. When the runner keeps each frame's
  timestamp, the callback reports the caller's milliseconds in order.

The task runner is the class `TaskRunner.Engine`. It holds the configuration
it was created from and a log of every submission. Two oracle functions,
given at creation, answer submissions: `respond` answers synchronous calls
with output packets or an error, and `accept` answers live-stream sends with
a status. This lets the entry points state that nothing was submitted when
they reject an image. The oracles receive the runner's task configuration
(which holds the running mode) and the earlier submissions, so runner
checks such as running-mode matching and timestamp order are covered
without being claimed.

## Model

| member | source | states |
|---|---|---|
| `Region.BuildFullImageNormRect` | mediapipe/tasks/cc/vision/image_classifier/image_classifier.cc:61-69 | the full-image rectangle has centre (0.5, 0.5), width 1 and height 1 |
| `Region.FullImageNormRectCoversFrame` | mediapipe/tasks/cc/vision/image_classifier/image_classifier.cc:61-62 | that rectangle's edges are 0 and 1 on both axes, so it covers the entire image |
| `Region.RegionOfInterest` | mediapipe/tasks/cc/vision/image_classifier/image_classifier.cc:163-164 | a supplied region passes through unchanged; a missing one becomes a rectangle spanning the whole frame |
| `ClassifierOptions.ConvertImageClassifierOptionsToProto` | mediapipe/tasks/cc/vision/image_classifier/image_classifier.cc:101-116 | `use_stream_mode` holds exactly when the running mode is not IMAGE; the base and classifier messages come from the user's options |
| `GraphTopology.CreateGraphConfig` | mediapipe/tasks/cc/vision/image_classifier/image_classifier.cc:75-97 | inputs `IMAGE:image_in` and `NORM_RECT:norm_rect_in`, one `ImageClassifierGraph` node holding the options; a limiter exactly when flow limiting is enabled, gating IMAGE and NORM_RECT and released by CLASSIFICATION_RESULT; otherwise both inputs are wired directly to the same-tag subgraph inputs, and never directly when limited |
| `GraphTopology.CreateGraphConfigOutputs` | mediapipe/tasks/cc/vision/image_classifier/image_classifier.cc:84-88 | in both topologies the graph outputs CLASSIFICATION_RESULT as `classification_result_out` and IMAGE as `image_out` |
| `GraphTopology.CreateGraphConfigFeedsSubgraph` | mediapipe/tasks/cc/vision/image_classifier/image_classifier.cc:89-95 | in both topologies each declared input reaches the same-tag subgraph input, and the limiter's release tag is a subgraph output |
| `ImageClassifier.TaskSetup` | mediapipe/tasks/cc/vision/image_classifier/image_classifier.cc:120-153 | the configuration handed to the factory keeps the running mode, has a limiter exactly in LIVE_STREAM mode, streams exactly when not IMAGE, and installs a packets callback exactly when a result callback is given |
| `ImageClassifier.TaskSetupByMode` | mediapipe/tasks/cc/vision/image_classifier/image_classifier.cc:148-150 | a limiter implies streaming; VIDEO streams without a limiter; IMAGE neither streams nor limits |
| `ImageClassifier.ImageClassifier.Create` | mediapipe/tasks/cc/vision/image_classifier/image_classifier.cc:120-153 | a factory error is returned as is; otherwise a fresh classifier over a fresh runner built from `TaskSetup(options)` with no submissions |
| `ImageClassifier.InputPackets` | mediapipe/tasks/cc/vision/image_classifier/image_classifier.cc:187-192 | an envelope has exactly the keys `image_in` and `norm_rect_in`, holding the image and the resolved region, both at the same timestamp |
| `ImageClassifier.ImageInputs` | mediapipe/tasks/cc/vision/image_classifier/image_classifier.cc:167-169 | the image-mode envelope is the two-packet envelope at the unset timestamp (no explicit timestamp) |
| `ImageClassifier.StreamInputs` | mediapipe/tasks/cc/vision/image_classifier/image_classifier.cc:186-192 | the video and live-stream envelope has exactly `image_in` and `norm_rect_in`, holding the image and the resolved region; every packet is stamped `timestamp_ms * 1000` and converts back to the caller's milliseconds |
| `ImageClassifier.LiveStreamReportsSubmittedTimestamp` | mediapipe/tasks/cc/vision/image_classifier/image_classifier.cc:136-143 | a completed live-stream frame whose result keeps its input timestamp is reported once, with its result, its image and the submitted milliseconds |
| `ImageClassifier.DecodeResult` | mediapipe/tasks/cc/vision/image_classifier/image_classifier.cc:165-171 | a runner error is passed on unchanged; a success yields the `classification_result_out` result |
| `ImageClassifier.ImageClassifier.Classify` | mediapipe/tasks/cc/vision/image_classifier/image_classifier.cc:155-172 | a GPU image gives InvalidArgument with the unexpected-input payload and submits nothing; otherwise one unstamped image-mode envelope is submitted and the runner's answer is decoded |
| `ImageClassifier.ImageClassifier.ClassifyForVideo` | mediapipe/tasks/cc/vision/image_classifier/image_classifier.cc:174-195 | a GPU image is rejected with nothing submitted; otherwise one video envelope stamped `timestamp_ms * 1000` is submitted and the answer decoded |
| `ImageClassifier.ImageClassifier.ClassifyAsync` | mediapipe/tasks/cc/vision/image_classifier/image_classifier.cc:197-214 | a GPU image is rejected with nothing submitted; otherwise one live-stream envelope stamped `timestamp_ms * 1000` is sent and the send status returned |
| `Timing.ToMicros` | mediapipe/tasks/cc/vision/image_classifier/image_classifier.cc:189 | the submitted stamp is an exact multiple of 1000 whose quotient by 1000 is the caller's milliseconds |
| `Timing.ToMillis` | mediapipe/tasks/cc/vision/image_classifier/image_classifier.cc:142-143 | the reported milliseconds are the microseconds divided by 1000, rounded toward zero |
| `Timing.MillisMicrosRoundTrip` | mediapipe/tasks/cc/vision/image_classifier/image_classifier.cc:142-143 | for every millisecond value whose stamp fits in int64, reporting the stamp gives back the milliseconds |
| `Framework.TruncDiv` | mediapipe/tasks/cc/vision/image_classifier/image_classifier.cc:142-143 | C++ integer division: the quotient rounds toward zero, with a remainder of the dividend's sign below the divisor |
| `ResultCallback.PacketsCallback` | mediapipe/tasks/cc/vision/image_classifier/image_classifier.cc:126-144 | at most one user call; none exactly for a dropped frame; an error is reported with an empty image and the unset timestamp; a completed frame is reported with its result, its image and the result timestamp in milliseconds |
| `ResultCallback.PacketsCallbackAsWritten` | mediapipe/tasks/cc/vision/image_classifier/image_classifier.cc:127-143 | the lambda as written; it returns normally on every successful delivery |
| `ResultCallback.AsWrittenCrashesOnEveryError` | mediapipe/tasks/cc/vision/image_classifier/image_classifier.cc:128-133 | as written, every runner error is reported and then aborts on `.value()`; the corrected adapter reports it and returns |
| `ResultCallback.AsWrittenAgreesOnOutputs` | mediapipe/tasks/cc/vision/image_classifier/image_classifier.cc:133-143 | on successful deliveries the code as written and the corrected adapter make the same calls |
| `ResultCallback.Deliver` | mediapipe/tasks/cc/vision/image_classifier/image_classifier.cc:126-144 | repeated deliveries make at most one user call each |
| `ResultCallback.DeliverReportsOncePerUndroppedOutput` | mediapipe/tasks/cc/vision/image_classifier/image_classifier.cc:133-135 | over any sequence of deliveries, the user callback runs exactly once per error or completed frame and never for a dropped frame |
| `ResultCallback.DeliverReportsSubmittedMillis` | mediapipe/tasks/cc/vision/image_classifier/image_classifier.cc:139-143 | when every delivered frame completes at the stamp it was submitted with, the callback reports the submitted milliseconds in order, each with a result |

## Left out

- The task runner and the factory (`ProcessImageData`, `ProcessVideoData`, `SendLiveStreamData`, `VisionTaskApiFactory::Create`) are not part of this model. The runner is a submission log with oracle answers, and the factory is an accept-or-reject function of the configuration. The runner enforces strictly increasing timestamps and mode/entry-point matching, so no property here claims them.
- `AddFlowLimiterCalculator` is foreign code. The limiter is only a marker that records the tags it gates and its release tag. Frame dropping itself is not modelled. A dropped frame appears only as an output map with an empty `image_out`.
- `ConvertBaseOptionsToProto` and `ConvertClassifierOptionsToProto` are foreign conversions. Each converted message records the options it came from. The protobuf `Swap` calls and the move of `op_resolver` are not modelled.
- Images have no pixels or memory; only the GPU-backed flag is kept. `NormalizedRect` uses reals instead of floats and omits `rotation` and `rect_id`, which this file never sets. Regions are not checked to lie in [0, 1], and neither is the source.
- Callback delivery on the runner's thread is not modelled. A call of the adapter is the list of user-callback invocations it makes.
- `ImageClassifier.ImageClassifier.ClassifyForVideo`: requires `timestamp_ms * 1000` to fit in int64. Outside that range the C++ multiplication overflows, which is undefined behaviour.
- `ImageClassifier.ImageClassifier.ClassifyAsync`: requires `timestamp_ms * 1000` to fit in int64, for the same reason.
- `Packet::Get<T>` on an empty or wrongly typed packet is a fatal check failure. This model does not have that failure. Instead, synchronous outputs always hold a classification result (type `TaskRunner.SyncOutputs`), and the adapter requires every non-dropped delivery to hold a result and an image (`ResultCallback.WellTyped`). The classifier graph guarantees both.
- The value of `Timestamp::Unset()` (the least int64) comes from the framework's timestamp header, which is not part of this model.

## Findings

| source | as written | input that shows it | evidently intended | confidence | as-written member | corrected member |
|---|---|---|---|---|---|---|
| mediapipe/tasks/cc/vision/image_classifier/image_classifier.cc:128-133 | after passing an error to the user callback, the lambda does not return and goes on to `status_or_packets.value()` on the error `StatusOr`, which aborts | any runner error delivered in live-stream mode, e.g. `Failed(Error(Internal, "", None))`; `AsWrittenCrashesOnEveryError` shows the abort for every error | return right after reporting the error | high (not executed) | `ResultCallback.PacketsCallbackAsWritten` | `ResultCallback.PacketsCallback` |
