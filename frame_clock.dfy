/**
 * The frame clock of the decoder thread: the presentation timestamp given to the
 * n-th submitted chunk, and the delay used to pace output to the frame rate.
 * Both work on Java `int`/`long` values; the wall clock is a parameter.
 */
module FrameClock {
  import opened JavaInt
  import opened Wrappers

  /** The frame rate the stream is paced at, in frames per second. */
  const FRAME_RATE: int32 := 60

  /**
   * `computePresentationTime`: microseconds since stream start of chunk `frameIndex`,
   * computed as a `long` product and divided with truncation.
   */
  function PresentationTime(frameIndex: int32): (pts: int64)
    ensures 0 <= frameIndex ==> pts == frameIndex * 1000000 / FRAME_RATE
    ensures 0 <= frameIndex ==> 0 <= pts
  {
    Quot(frameIndex * 1000000, FRAME_RATE)
  }

  /** Later chunks get strictly later timestamps, as long as the index has not wrapped. */
  lemma {:induction false} PresentationTimeIncreasing(i: int32, j: int32)
    requires 0 <= i < j
    ensures PresentationTime(i) < PresentationTime(j)
  {
    var p, q := PresentationTime(i), PresentationTime(j);
    assert p * 60 <= i * 1000000;
    assert j * 1000000 < q * 60 + 60;
    assert i * 1000000 + 1000000 <= j * 1000000;
  }

  /** Consecutive chunks are one frame interval (1000000 / 60 microseconds, rounded down) apart. */
  lemma {:induction false} PresentationTimeStep(i: int32)
    requires 0 <= i < INT_MAX
    ensures PresentationTime(i + 1) - PresentationTime(i) in {16666, 16667}
  {
    var p, q := PresentationTime(i), PresentationTime(i + 1);
    assert p * 60 <= i * 1000000 < p * 60 + 60;
    assert q * 60 <= i * 1000000 + 1000000 < q * 60 + 60;
  }

  /** `expectedTime` of `sleepForFrameRate`: start time plus the timestamp in milliseconds. */
  function ExpectedTime(startTime: int64, pts: int64): (t: int64)
    ensures LONG_MIN <= startTime + Quot(pts, 1000) <= LONG_MAX ==> t == startTime + Quot(pts, 1000)
  {
    Wrap64(startTime + Quot(pts, 1000))
  }

  /**
   * `sleepForFrameRate`: the sleep the decoder thread requests after releasing a frame
   * with timestamp `pts`, when the wall clock reads `now`; None when the frame is late.
   */
  function PacingSleep(startTime: int64, pts: int64, now: int64): (sleep: Option<int64>)
    ensures sleep.Some? ==> sleep.value > 0
    ensures sleep.Some? <==> Wrap64(ExpectedTime(startTime, pts) - now) > 0
  {
    var sleepTime := Wrap64(ExpectedTime(startTime, pts) - now);
    if sleepTime > 0 then Some(sleepTime) else None
  }

  /** The arithmetic of `sleepForFrameRate` overflows no `long`. */
  ghost predicate PacingInRange(startTime: int64, pts: int64, now: int64)
  {
    && LONG_MIN <= startTime + Quot(pts, 1000) <= LONG_MAX
    && LONG_MIN <= startTime + Quot(pts, 1000) - now <= LONG_MAX
  }

  /**
   * Without overflow and for a non-negative timestamp, the thread sleeps exactly when
   * the frame is early, and for exactly as long as it takes the wall clock to reach
   * `startTime + pts / 1000`.
   */
  lemma PacingSleepExact(startTime: int64, pts: int64, now: int64)
    requires 0 <= pts && PacingInRange(startTime, pts, now)
    ensures PacingSleep(startTime, pts, now).Some? <==> now < startTime + pts / 1000
    ensures PacingSleep(startTime, pts, now).Some? ==>
              now + PacingSleep(startTime, pts, now).value == startTime + pts / 1000
  {
  }
}
