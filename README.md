# H.265 decode pump and decoder lifecycle

This project models the playback core of the `jniapp` Android activity
(`MainActivity.java`). A worker thread (`DecoderThread`) reads a raw H.265 elementary
stream in fixed 128 KiB chunks. It feeds the chunks to a hardware MediaCodec decoder
through the codec's input queue and drains the codec's output queue onto a Surface,
pacing output to 60 frames per second. The activity creates, starts, stops and releases
the codec and the thread as the Surface comes and goes.

The model has six modules:

- `JavaInt`: Java `int`/`long` wrap-around and Java's truncating division, written out
  over unbounded integers.
- `FrameClock`: `computePresentationTime` and the delay computed by `sleepForFrameRate`,
  as pure functions. The wall clock is a parameter.
- `DecodePump`: `decodeH265Stream`. The codec, the byte stream, the clock and the
  interrupt flag form an environment value `Env`. Its answers are scripted per loop
  iteration, and `interruptAt` is the first loop-top check that sees the interrupt.
  - The spec functions `InputStep`, `OutputStep`, `Iteration`, `RunFrom` and `Decode`
    describe one run. A run records every codec, stream and sleep call as an `Event`.
  - The imperative `DecodeH265Stream` has the source's `while` loop and its 128 KiB
    `chunk` array. It is proved to produce exactly `Decode`'s trace, exit and
    `frameCount`.
- `PumpProperties`: what every run's trace satisfies, proved by invariants over `RunFrom`:
  - the input end-of-stream marker is queued at most once, and nothing follows it on
    the input side;
  - the queued chunks carry the stream bytes in order, with increasing timestamps;
  - every output slot is released exactly once, for rendering;
  - the loop stops at output end-of-stream or at the interrupt.
- `DecoderThreadRun`: `run()`. The stream is closed exactly once, after the pump, on
  every exit path.
- `Lifecycle`: the activity fields `mMediaCodec`, `mDecoderThread` and `mDecoderSurface`
  as a `Player` class, with `Codec` and `DecoderThread` objects. Ghost counters record
  the calls to stop, release, interrupt and join.
  - `releaseMediaCodec` interrupts the thread but does not wait for it.
  - `SurfaceCycle` shows a consequence: once the surface is destroyed, the codec is
    stopped and released while the thread bound to it may still be alive.
  - `StopThrowsDropsCodec` shows that when `stop()` throws, the field is cleared anyway
    and the codec is never released.

The single-step lemmas `NoInputSlotKeepsState`, `NoOutputSlotKeepsState`, `ChunkQueued`,
`EosQueued` and `OutputEosOnlyFromFlag` unfold one case of `InputStep` or `OutputStep`.
They document the cases; the properties of whole runs are in `InputEndsOnce`,
`ChunksCarryStream`, `TimestampsIncrease`, `OutputSlotsReleased` and `LoopExit`.

The stream's end is `read` returning -1, as the code does. A zero-length read never
happens: `InputStream.read` on a non-empty array returns at least one byte or -1.

## Model

| member | source | states |
|---|---|---|
| JavaInt.Wrap32 | app/src/main/java/com/example/jniapp/MainActivity.java:318 | the Java `int` result differs from the exact value by a multiple of 2^32 and equals it when in range |
| JavaInt.Wrap64 | app/src/main/java/com/example/jniapp/MainActivity.java:370-371 | the Java `long` result differs from the exact value by a multiple of 2^64 and equals it when in range |
| JavaInt.Quot | app/src/main/java/com/example/jniapp/MainActivity.java:365 | Java division by a positive divisor: the remainder lies in [0, b) for a >= 0 and in (-b, 0] for a < 0 (truncation toward zero) |
| JavaInt.Wrap32Succ | app/src/main/java/com/example/jniapp/MainActivity.java:318 | incrementing a wrapped `int` is the same as wrapping the exact successor |
| FrameClock.PresentationTime | app/src/main/java/com/example/jniapp/MainActivity.java:364-366 | for a non-negative index the timestamp is `frameIndex * 1000000 / 60` (integer division) and is non-negative |
| FrameClock.PresentationTimeIncreasing | app/src/main/java/com/example/jniapp/MainActivity.java:364-366 | for 0 <= i < j the timestamp of i is strictly smaller than that of j |
| FrameClock.PresentationTimeStep | app/src/main/java/com/example/jniapp/MainActivity.java:364-366 | consecutive timestamps are 16666 or 16667 microseconds apart |
| FrameClock.ExpectedTime | app/src/main/java/com/example/jniapp/MainActivity.java:370 | without overflow, the expected wall-clock time is `startTime + pts / 1000` with truncating division |
| FrameClock.PacingSleep | app/src/main/java/com/example/jniapp/MainActivity.java:368-380 | a sleep is requested exactly when `expectedTime - now` (as a `long`) is positive, and its length is positive |
| FrameClock.PacingSleepExact | app/src/main/java/com/example/jniapp/MainActivity.java:368-375 | for pts >= 0 without overflow: a sleep happens iff `now < startTime + pts/1000`, and it lasts exactly until that time |
| DecodePump.ReadStream | app/src/main/java/com/example/jniapp/MainActivity.java:294 | `read` returns -1 iff the stream is at its end; otherwise between 1 and 128 KiB bytes, never past the end; an IOException iff the stream fails |
| DecodePump.InputStep | app/src/main/java/com/example/jniapp/MainActivity.java:289-326 | the input half never moves the stream position past the end |
| DecodePump.OutputStep | app/src/main/java/com/example/jniapp/MainActivity.java:328-359 | the output half leaves sawInputEOS, frameCount and the stream position unchanged |
| DecodePump.Iteration | app/src/main/java/com/example/jniapp/MainActivity.java:288-360 | one loop pass keeps the stream position within the stream |
| DecodePump.RunFrom | app/src/main/java/com/example/jniapp/MainActivity.java:288-360 | the loop keeps the stream position within the stream |
| DecodePump.ReadChunk | app/src/main/java/com/example/jniapp/MainActivity.java:294 | the read returns `ReadStream`'s result and copies exactly that many next stream bytes to the front of `chunk` |
| DecodePump.OfferInput | app/src/main/java/com/example/jniapp/MainActivity.java:289-326 | the imperative input half (over the `chunk` array) yields exactly `InputStep`'s new state, calls and exit |
| DecodePump.ServiceOutput | app/src/main/java/com/example/jniapp/MainActivity.java:328-359 | the imperative output half yields exactly `OutputStep`'s new state, calls and exit |
| DecodePump.IterationAdvances | app/src/main/java/com/example/jniapp/MainActivity.java:288-360 | running one more pass and then the rest of the loop is the same run as the loop from the current pass |
| DecodePump.DecodeH265Stream | app/src/main/java/com/example/jniapp/MainActivity.java:281-362 | the imperative loop makes exactly the calls of `Decode`, ends the same way and ends with the same frameCount |
| DecoderThreadRun.IterationNoClose | app/src/main/java/com/example/jniapp/MainActivity.java:288-360 | a loop pass never closes the stream |
| DecoderThreadRun.RunFromNoClose | app/src/main/java/com/example/jniapp/MainActivity.java:288-360 | the loop never closes the stream |
| DecoderThreadRun.RunDecoderThread | app/src/main/java/com/example/jniapp/MainActivity.java:267-279 | the thread makes the pump's calls and then closes the stream; the close is the last call and happens exactly once on every exit path; only a codec exception escapes `run()` (an IOException is caught) |
| PumpProperties.InputStepDiscipline | app/src/main/java/com/example/jniapp/MainActivity.java:289-326 | after input EOS the input half makes no call; all its calls are input calls, none after an EOS marker; the new sawInputEOS is true iff it was already or the half queued the EOS marker, which is then its last call |
| PumpProperties.RunFromInputInv | app/src/main/java/com/example/jniapp/MainActivity.java:288-326 | the loop preserves "no input call after the EOS marker, and sawInputEOS iff the marker was queued" |
| PumpProperties.InputEndsOnce | app/src/main/java/com/example/jniapp/MainActivity.java:289-304 | in every run no input call follows the EOS marker, sawInputEOS holds iff the marker was queued, and it is queued at most once |
| PumpProperties.RunFromDataInv | app/src/main/java/com/example/jniapp/MainActivity.java:294-318 | the loop preserves "the data chunks are well-formed and numbered, frameCount counts them, and their bytes are the stream prefix read so far" |
| PumpProperties.ChunksCarryStream | app/src/main/java/com/example/jniapp/MainActivity.java:294-318 | every data chunk j is queued at offset 0 with size = its byte count (1..128 KiB), flags 0 and timestamp `computePresentationTime(j)` (j as an `int`); frameCount equals the number of chunks (as an `int`); the chunks concatenate to the stream read so far, and to the whole stream once input EOS was seen |
| PumpProperties.TimestampsIncrease | app/src/main/java/com/example/jniapp/MainActivity.java:309-318 | the timestamps of data chunks strictly increase (for the first 2^31 chunks, before frameCount wraps) |
| PumpProperties.RunFromOutputInv | app/src/main/java/com/example/jniapp/MainActivity.java:328-359 | the loop preserves the release discipline and "sawOutputEOS iff a slot with the EOS flag was dequeued" |
| PumpProperties.OutputSlotsReleased | app/src/main/java/com/example/jniapp/MainActivity.java:345-356 | every dequeued output slot is released exactly once, with render = true, by the call right after its dequeue; nothing but that release and one possible sleep follows the slot carrying output EOS; sawOutputEOS iff such a slot was dequeued |
| PumpProperties.RunFromExit | app/src/main/java/com/example/jniapp/MainActivity.java:288 | from pass k on, the loop makes at most `interruptAt - k` output dequeues (one per pass that finishes its input half), exactly that many when it ends normally without output EOS, and output EOS implies a normal end |
| PumpProperties.RunFromThrowExit | app/src/main/java/com/example/jniapp/MainActivity.java:288-290 | a run from pass k that an exception ends made at least the call that threw, and when that call was on the input side, fewer than `interruptAt - k` output dequeues came before it, so the pass that threw began before the interrupt was seen |
| PumpProperties.LoopExit | app/src/main/java/com/example/jniapp/MainActivity.java:288 | the loop stops at the first loop-top check that sees the interrupt: at most `interruptAt` output dequeues, exactly that many on a normal end without output EOS, output EOS implies a normal end, and a run ended by an input-side exception began its last pass before `interruptAt` |
| PumpProperties.NoInputSlotKeepsState | app/src/main/java/com/example/jniapp/MainActivity.java:290-293 | a negative input index or a null input buffer: only the dequeue call is made, the stream is not read, and the state is unchanged |
| PumpProperties.NoOutputSlotKeepsState | app/src/main/java/com/example/jniapp/MainActivity.java:331-343 | TRY_AGAIN_LATER, OUTPUT_FORMAT_CHANGED, OUTPUT_BUFFERS_CHANGED or another negative code: the state is unchanged and nothing is released; only FORMAT_CHANGED asks for the output format |
| PumpProperties.ChunkQueued | app/src/main/java/com/example/jniapp/MainActivity.java:305-318 | a read of n bytes queues exactly one buffer (offset 0, size n, `computePresentationTime(frameCount)`, flags 0, the next n stream bytes), then increments frameCount |
| PumpProperties.EosQueued | app/src/main/java/com/example/jniapp/MainActivity.java:289-304 | a read of -1 queues one empty buffer with timestamp 0 and the EOS flag and sets sawInputEOS; every later input half makes no call |
| PumpProperties.OutputEosOnlyFromFlag | app/src/main/java/com/example/jniapp/MainActivity.java:345-353 | sawOutputEOS becomes true only for an output slot with index >= 0 whose flags carry END_OF_STREAM, and that slot is released with render = true |
| Lifecycle.Codec.constructor | app/src/main/java/com/example/jniapp/MainActivity.java:164-176 | a created codec is configured with the given surface and started, with no stop or release yet |
| Lifecycle.Codec.Stop | app/src/main/java/com/example/jniapp/MainActivity.java:210 | stop is counted; the codec is no longer started unless the call threw |
| Lifecycle.Codec.Release | app/src/main/java/com/example/jniapp/MainActivity.java:211 | release is counted and leaves the codec released |
| Lifecycle.DecoderThread.constructor | app/src/main/java/com/example/jniapp/MainActivity.java:260-264 | a new thread is bound to the given codec and is not yet started, alive or interrupted |
| Lifecycle.DecoderThread.Start | app/src/main/java/com/example/jniapp/MainActivity.java:198 | a thread is started once and is then alive |
| Lifecycle.DecoderThread.Interrupt | app/src/main/java/com/example/jniapp/MainActivity.java:194 | interrupt sets the flag and is counted; the thread stays alive |
| Lifecycle.DecoderThread.Join | app/src/main/java/com/example/jniapp/MainActivity.java:223 | join is counted; the thread is no longer alive only if it finished in time |
| Lifecycle.Player.constructor | app/src/main/java/com/example/jniapp/MainActivity.java:41-52 | a new activity holds no surface, codec or thread |
| Lifecycle.Player.InitMediaCodec | app/src/main/java/com/example/jniapp/MainActivity.java:161-185 | on success the field holds a new started codec configured with the current surface; on an IOException from creating it the field is null; the thread and surface fields are unchanged |
| Lifecycle.Player.StartDecoding | app/src/main/java/com/example/jniapp/MainActivity.java:187-200 | with no codec or no surface nothing changes; otherwise a live previous thread is interrupted (a dead one is not), and a new started thread bound to the current codec is stored |
| Lifecycle.Player.ReleaseMediaCodec | app/src/main/java/com/example/jniapp/MainActivity.java:202-217 | both fields end null; a previous thread is interrupted once but not joined, and stays started and as alive as before; a previous codec is stopped once and released once unless stop threw, and when stop threw it is dropped as started and released as it was; with both fields already null nothing changes |
| Lifecycle.Player.StopDecoding | app/src/main/java/com/example/jniapp/MainActivity.java:219-240 | as ReleaseMediaCodec, and the interrupted thread is also joined once with a bound and is dead afterwards only if it finished in time |
| Lifecycle.Player.SurfaceCreated | app/src/main/java/com/example/jniapp/MainActivity.java:128-133 | the surface is stored; when the codec is created, a previous thread still alive is interrupted once (a dead one is not) and a new live thread is bound to the new codec; otherwise the codec is null, no thread is started and the previous thread is untouched |
| Lifecycle.Player.SurfaceDestroyed | app/src/main/java/com/example/jniapp/MainActivity.java:136-140 | all three fields end null; the codec is stopped once and released once unless stop threw (then it is dropped unreleased); the thread is interrupted once, not joined, and may still be alive |
| Lifecycle.StopTwice | app/src/main/java/com/example/jniapp/MainActivity.java:243-253 | stopping twice (onPause, then onDestroy) stops the codec once, releases it once unless stop threw, and interrupts and joins the thread once |

## Left out

- The Android UI: `onCreate`, immersive mode, orientation, Toasts, `surfaceChanged`,
  `stringFromJNI` and the empty thread started from `onCreate`. None of it affects decoding.
- `app/src/main/cpp/native-lib.cpp` is not part of this model. It only formats the
  FFmpeg version string.
- `isH265Supported` and `onFrameDecoded`. The first only probes for a codec; the second
  copies pixels onto a Canvas from a new thread.
- MediaCodec itself: `MediaFormat` construction and the actual HEVC decoding. The codec
  is scripted replies in `Env`.
- Logging, including the `frameCount % 30` progress message.
- Real threads and time. Interruption is the iteration number `interruptAt`, and
  `currentTimeMillis` is a per-iteration value in `Env`.
  - `Thread.sleep` appears only as a recorded `Sleep` event.
  - An interrupt arriving during the sleep only re-sets the flag in the source. Here it
    is observed at the next loop-top check, as `interruptAt`.
  - A decoder that never signals output EOS runs until the interrupt. Every finite
    prefix of such a run is the run with a larger `interruptAt`.
- Exceptions other than those from `dequeueInputBuffer`, `dequeueOutputBuffer` and
  `read`. The exceptions of `getInputBuffer`, `queueInputBuffer`, `releaseOutputBuffer`
  and `getOutputFormat` are not modelled, and neither is a `BufferOverflowException`
  from `put`.
- `Lifecycle.Player.InitMediaCodec`: a failure of `configure` or `start` (not an
  IOException) escapes `initMediaCodec` in the source. The model only has the
  IOException path from creating the decoder.
- `Lifecycle.Codec.Release`: an exception from `release()` is caught and logged in the
  source and changes nothing the model tracks. The model does not let it fail.
- `Lifecycle.DecoderThread.Join`: an `InterruptedException` from `join` is caught and
  logged. It is covered by `exitsInTime = false`.
- The link between `Lifecycle` and `DecodePump`: the thread object is not connected to
  a run of the pump. The pump sees an interrupt only through `Env.interruptAt`.
- Concurrent access: the thread may still be using a codec that the activity has
  already stopped. The model shows this situation (`SurfaceCycle`) but does not
  interleave the two threads.
