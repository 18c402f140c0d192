/** The adapter installed in live-stream mode between the task runner, which
    delivers output packet maps (or an error), and the user's result callback.
    A call of the adapter is modelled by the sequence of user-callback
    invocations it makes. */
module ResultCallback {
  import opened Framework
  import opened Streams
  import opened Timing

  /** One invocation of the user's `result_callback(result, image, timestamp_ms)`. */
  datatype Invocation = Invocation(result: StatusOr<ClassificationResult>, image: Image, timestampMs: int64)

  function ResultPacket(m: PacketMap): Packet {
    Lookup(m, ClassificationResultStreamName)
  }

  function ImagePacket(m: PacketMap): Packet {
    Lookup(m, ImageOutStreamName)
  }

  /** The flow limiter dropped the frame: there is no output image. */
  predicate Dropped(m: PacketMap) {
    ImagePacket(m).IsEmpty()
  }

  /** What the classifier graph guarantees of the outputs of a frame it did not
      drop: a classification result and an image, so that `Get<T>` succeeds. */
  predicate WellTyped(m: PacketMap) {
    Dropped(m) || (HoldsResult(m) && ImagePacket(m).payload.ImagePayload?)
  }

  /** The outputs hold a classification result packet. */
  predicate HoldsResult(m: PacketMap) {
    !ResultPacket(m).IsEmpty() && ResultPacket(m).payload.ResultPayload?
  }

  predicate Deliverable(s: StatusOr<PacketMap>) {
    s.Value? ==> WellTyped(s.value)
  }

  /** The report of an engine error: no image, the unset timestamp. */
  function ErrorReport(e: Error): Invocation {
    Invocation(Failed(e), EmptyImage, UnsetTimestamp)
  }

  /** The report of a completed frame. */
  function OutputReport(m: PacketMap): Invocation
    requires WellTyped(m) && !Dropped(m)
  {
    Invocation(Value(ResultPacket(m).payload.result), ImagePacket(m).payload.image,
      ToMillis(ResultPacket(m).timestamp))
  }

  /** The `packets_callback` lambda of `Create`, with a return after the error
      report (see `PacketsCallbackAsWritten` for the code as it stands). */
  function PacketsCallback(s: StatusOr<PacketMap>): (calls: seq<Invocation>)
    requires Deliverable(s)
    ensures |calls| <= 1
    ensures calls == [] <==> s.Value? && Dropped(s.value)
    ensures s.Failed? ==> calls == [ErrorReport(s.error)]
    ensures s.Value? && calls != [] ==>
      calls[0].result == Value(ResultPacket(s.value).payload.result) &&
      calls[0].image == ImagePacket(s.value).payload.image &&
      calls[0].timestampMs == ToMillis(ResultPacket(s.value).timestamp)
  {
    match s
    case Failed(e) => [ErrorReport(e)]
    case Value(m) => if Dropped(m) then [] else [OutputReport(m)]
  }

  // ---------------------------------------------------------------------------
  // The lambda as written

  /** A run of the callback: it returns after making `calls`, or it makes
      `calls` and then aborts. */
  datatype CallbackRun = Returned(calls: seq<Invocation>) | Crashed(calls: seq<Invocation>)

  /** The lambda exactly as written: after reporting an error it does not
      return, and the following `status_or_packets.value()` on an error
      `StatusOr` aborts. */
  function PacketsCallbackAsWritten(s: StatusOr<PacketMap>): (run: CallbackRun)
    requires Deliverable(s)
    ensures s.Value? ==> run.Returned?
  {
    var reported := if s.Failed? then [ErrorReport(s.error)] else [];
    if s.Failed? then Crashed(reported)
    else if Dropped(s.value) then Returned(reported)
    else Returned(reported + [OutputReport(s.value)])
  }

  /** As written, every engine error aborts the callback after it is reported,
      whereas the corrected adapter reports it and returns. */
  lemma AsWrittenCrashesOnEveryError(e: Error)
    ensures PacketsCallbackAsWritten(Failed(e)) == Crashed([ErrorReport(e)])
    ensures Returned(PacketsCallback(Failed(e))) == Returned([ErrorReport(e)])
  {
  }

  /** On engine outputs the code as written and the corrected adapter agree. */
  lemma AsWrittenAgreesOnOutputs(m: PacketMap)
    requires WellTyped(m)
    ensures PacketsCallbackAsWritten(Value(m)) == Returned(PacketsCallback(Value(m)))
  {
  }

  // ---------------------------------------------------------------------------
  // Repeated delivery

  /** The invocations made when the runner delivers `outputs` one after another. */
  function Deliver(outputs: seq<StatusOr<PacketMap>>): (calls: seq<Invocation>)
    requires forall i :: 0 <= i < |outputs| ==> Deliverable(outputs[i])
    ensures |calls| <= |outputs|
  {
    if outputs == [] then [] else PacketsCallback(outputs[0]) + Deliver(outputs[1..])
  }

  /** The number of deliveries that are not dropped frames. */
  function CountReported(outputs: seq<StatusOr<PacketMap>>): (n: nat)
  {
    if outputs == [] then 0
    else (if outputs[0].Value? && Dropped(outputs[0].value) then 0 else 1) + CountReported(outputs[1..])
  }

  /** The user callback runs exactly once per error and per completed frame,
      and never for a dropped frame. */
  lemma {:induction false} DeliverReportsOncePerUndroppedOutput(outputs: seq<StatusOr<PacketMap>>)
    requires forall i :: 0 <= i < |outputs| ==> Deliverable(outputs[i])
    ensures |Deliver(outputs)| == CountReported(outputs)
  {
    if outputs != [] {
      DeliverReportsOncePerUndroppedOutput(outputs[1..]);
    }
  }

  /** When every delivered output is a completed frame whose result keeps the
      microsecond timestamp its frame was submitted with, the callback reports
      the submitted milliseconds, in order. */
  lemma {:induction false} DeliverReportsSubmittedMillis(outputs: seq<StatusOr<PacketMap>>, ms: seq<int64>)
    requires |outputs| == |ms|
    requires forall i :: 0 <= i < |outputs| ==>
      outputs[i].Value? && WellTyped(outputs[i].value) && !Dropped(outputs[i].value) &&
      StampFits(ms[i]) && ResultPacket(outputs[i].value).timestamp == ToMicros(ms[i])
    ensures |Deliver(outputs)| == |ms|
    ensures forall i :: 0 <= i < |ms| ==>
      Deliver(outputs)[i].result.Value? && Deliver(outputs)[i].timestampMs == ms[i]
  {
    if outputs != [] {
      DeliverReportsSubmittedMillis(outputs[1..], ms[1..]);
      MillisMicrosRoundTrip(ms[0]);
      var rest := Deliver(outputs[1..]);
      assert Deliver(outputs) == [OutputReport(outputs[0].value)] + rest;
      forall i | 0 <= i < |ms|
        ensures Deliver(outputs)[i].result.Value? && Deliver(outputs)[i].timestampMs == ms[i]
      {
        if i > 0 {
          assert Deliver(outputs)[i] == rest[i - 1];
        }
      }
    }
  }
}
