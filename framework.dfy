/** Vocabulary of the graph framework that the image classifier talks in:
    absl status values, 64-bit integers, images, normalized rectangles,
    classification results and the timestamped packets that carry them. */
module Framework {

  datatype Option<T> = None | Some(value: T)

  // ---------------------------------------------------------------------------
  // 64-bit integers as the C++ code uses them

  const MinInt64: int := -0x8000_0000_0000_0000
  const MaxInt64: int := 0x7fff_ffff_ffff_ffff

  type int64 = x: int | MinInt64 <= x <= MaxInt64

  /** C++ integer division, which rounds toward zero (Dafny's `/` is Euclidean). */
  function TruncDiv(a: int, b: int): (q: int)
    requires b > 0
    ensures 0 <= a ==> 0 <= q && q * b <= a < q * b + b
    ensures a < 0 ==> q <= 0 && q * b - b < a <= q * b
  {
    if a >= 0 then a / b else -((-a) / b)
  }

  /** The value of the framework's `Timestamp::Unset()`: the least int64. */
  const UnsetTimestamp: int64 := MinInt64

  // ---------------------------------------------------------------------------
  // absl::Status and absl::StatusOr

  datatype StatusCode =
    | Cancelled | Unknown | InvalidArgument | DeadlineExceeded | NotFound
    | AlreadyExists | PermissionDenied | ResourceExhausted | FailedPrecondition
    | Aborted | OutOfRange | Unimplemented | Internal | Unavailable | DataLoss
    | Unauthenticated

  /** The MediaPipe Tasks status payload attached to an error. */
  datatype TasksStatus = RunnerUnexpectedInputError | OtherTasksStatus(code: int)

  /** A non-OK status. */
  datatype Error = Error(code: StatusCode, message: string, payload: Option<TasksStatus>)

  datatype Status = OkStatus | ErrStatus(error: Error)

  datatype StatusOr<T> = Value(value: T) | Failed(error: Error)

  // ---------------------------------------------------------------------------
  // Payload types

  /** An image; only where its buffer lives matters here. `EmptyImage` is a
      default-constructed image with no buffer. */
  datatype Image = EmptyImage | Image(gpuBacked: bool, content: nat)
  {
    predicate UsesGpu() {
      Image? && gpuBacked
    }
  }

  /** A rectangle in coordinates normalized to the image, 0 to 1 on each axis. */
  datatype NormalizedRect = NormalizedRect(xCenter: real, yCenter: real, width: real, height: real)

  datatype Category = Category(index: int, score: real, categoryName: string)
  datatype Classifications = Classifications(headIndex: int, headName: string, categories: seq<Category>)
  /** One list of classifications per classification head of the model. */
  datatype ClassificationResult = ClassificationResult(classifications: seq<Classifications>)

  // ---------------------------------------------------------------------------
  // Packets and packet maps

  datatype Payload =
    | ImagePayload(image: Image)
    | RectPayload(rect: NormalizedRect)
    | ResultPayload(result: ClassificationResult)

  /** A packet is empty or holds one payload at a timestamp (microseconds). */
  datatype Packet = EmptyPacket | Packet(payload: Payload, timestamp: int64)
  {
    predicate IsEmpty() {
      EmptyPacket?
    }
  }

  /** `MakePacket<T>(x)`: a packet with no explicit timestamp. */
  function MakePacket(p: Payload): (r: Packet)
    ensures !r.IsEmpty() && r.payload == p && r.timestamp == UnsetTimestamp
  {
    Packet(p, UnsetTimestamp)
  }

  /** `packet.At(Timestamp(t))`. */
  function At(p: Packet, t: int64): (r: Packet)
    requires !p.IsEmpty()
    ensures !r.IsEmpty() && r.payload == p.payload && r.timestamp == t
  {
    p.(timestamp := t)
  }

  /** Named packets, the unit the task runner consumes and produces. */
  type PacketMap = map<string, Packet>

  /** `packets[name]` on a std::map: a missing name reads as an empty packet. */
  function Lookup(m: PacketMap, name: string): (p: Packet)
    ensures name !in m ==> p.IsEmpty()
    ensures name in m ==> p == m[name]
  {
    if name in m then m[name] else EmptyPacket
  }
}
