/** Conversion between the caller's millisecond timestamps and the
    framework's microsecond clock. */
module Timing {
  import opened Framework

  const MicroSecondsPerMilliSecond: int := 1000

  /** `timestamp_ms * kMicroSecondsPerMilliSecond` stays within int64; outside
      this range the C++ multiplication overflows, which is undefined. */
  predicate StampFits(ms: int) {
    MinInt64 <= ms * MicroSecondsPerMilliSecond <= MaxInt64
  }

  /** The microsecond timestamp stamped on a packet submitted at `ms`. */
  function ToMicros(ms: int64): (us: int64)
    requires StampFits(ms)
    ensures us % MicroSecondsPerMilliSecond == 0 && us / MicroSecondsPerMilliSecond == ms
  {
    ms * MicroSecondsPerMilliSecond
  }

  /** The millisecond timestamp reported for a packet at `us` (C++ division). */
  function ToMillis(us: int64): (ms: int64)
    ensures 0 <= us ==> 0 <= ms * MicroSecondsPerMilliSecond <= us < ms * MicroSecondsPerMilliSecond + MicroSecondsPerMilliSecond
    ensures us < 0 ==> ms * MicroSecondsPerMilliSecond - MicroSecondsPerMilliSecond < us <= ms * MicroSecondsPerMilliSecond <= 0
  {
    TruncDiv(us, MicroSecondsPerMilliSecond)
  }

  /** Reporting a submitted timestamp gives back the caller's milliseconds. */
  lemma MillisMicrosRoundTrip(ms: int64)
    requires StampFits(ms)
    ensures ToMillis(ToMicros(ms)) == ms
  {
  }
}
