/**
 * The H.265 decode pump of `DecoderThread`: one loop that, per iteration, offers the
 * next 128 KiB chunk of the raw stream to MediaCodec's input queue and then services
 * its output queue once.
 *
 * MediaCodec, the byte stream and the thread's interrupt flag are the environment
 * (`Env`). What the codec answers is scripted per loop iteration: each codec and stream
 * call happens at most once in an iteration, so indexing the answers by iteration is
 * as general as indexing them by call. Every call the pump makes is recorded as an
 * `Event`; the recorded trace is what the properties speak about.
 */
module DecodePump {
  import opened JavaInt
  import opened Wrappers
  import opened FrameClock

  /** Size of the `chunk` buffer the stream is read into (128 KiB). */
  const CHUNK_SIZE: int := 1024 * 128
  /** Timeout of both `dequeueInputBuffer` and `dequeueOutputBuffer`, in microseconds. */
  const DEQUEUE_TIMEOUT_US: int64 := 10000

  // MediaCodec's constants
  const BUFFER_FLAG_END_OF_STREAM: bv32 := 4
  const INFO_TRY_AGAIN_LATER: int32 := -1
  const INFO_OUTPUT_FORMAT_CHANGED: int32 := -2
  const INFO_OUTPUT_BUFFERS_CHANGED: int32 := -3

  type byte = bv8

  /** What `InputStream.read(chunk)` may return when it returns data. */
  type ChunkLength = n: int | 1 <= n <= CHUNK_SIZE witness 1

  /** `dequeueInputBuffer` followed, for an index >= 0, by `getInputBuffer` (null or not). */
  datatype InputReply = InputSlot(index: int32, hasBuffer: bool) | InputThrows

  /** MediaCodec.BufferInfo as filled in by `dequeueOutputBuffer`. */
  datatype BufferInfo = BufferInfo(flags: bv32, presentationTimeUs: int64)

  /** `dequeueOutputBuffer`: a slot index or one of the negative INFO_ codes. */
  datatype OutputReply = OutputSlot(index: int32, info: BufferInfo) | OutputThrows

  /** How the stream answers a read: at most `atMost` bytes, or an IOException. */
  datatype StreamReply = Deliver(atMost: ChunkLength) | ReadFails

  /** The result of `read(chunk)`: a byte count, -1 at end of stream, or an IOException. */
  datatype ReadResult = Bytes(count: ChunkLength) | EndOfStream | ReadError

  /** Everything outside the pump, as seen by one run of `decodeH265Stream`. */
  datatype Env = Env(
    stream: seq<byte>,                  // contents of the raw H.265 resource
    startTime: int64,                   // System.currentTimeMillis() before the loop
    interruptAt: nat,                   // first loop-top check that sees isInterrupted()
    dequeueInput: nat -> InputReply,    // answer in iteration k
    read: nat -> StreamReply,           // answer in iteration k
    dequeueOutput: nat -> OutputReply,  // answer in iteration k
    clock: nat -> int64)                // currentTimeMillis() in sleepForFrameRate of iteration k

  /** One call of the pump into the codec, the stream or the scheduler. */
  datatype Event =
    | DequeueInput(timeoutUs: int64, inputReply: InputReply)
    | Read(result: ReadResult)
    | QueueInput(index: int32, offset: int, size: int, pts: int64, flags: bv32, data: seq<byte>)
    | DequeueOutput(timeoutUs: int64, outputReply: OutputReply)
    | GetOutputFormat
    | ReleaseOutput(index: int32, render: bool)
    | Sleep(millis: int64)
    | CloseStream

  /** How a run of the loop ended: normally, or by an exception out of the stream or the codec. */
  datatype Exit = Completed | IOFailure | CodecFailure

  /** The locals of `decodeH265Stream`, and how far the stream has been read. */
  datatype PumpState = PumpState(sawInputEOS: bool, sawOutputEOS: bool, frameCount: int32, streamPos: nat)

  /** The state reached, the calls made and how the run ended. */
  datatype Outcome = Outcome(state: PumpState, events: seq<Event>, exit: Exit)

  const Initial := PumpState(false, false, 0, 0)

  ghost predicate Fits(s: PumpState, env: Env)
  {
    s.streamPos <= |env.stream|
  }

  function Then(prefix: seq<Event>, o: Outcome): Outcome
  {
    Outcome(o.state, prefix + o.events, o.exit)
  }

  function Min(a: int, b: int): int
  {
    if a <= b then a else b
  }

  /** `InputStream.read(chunk)` at position `pos` of `stream`. */
  function ReadStream(stream: seq<byte>, pos: nat, reply: StreamReply): (r: ReadResult)
    requires pos <= |stream|
    ensures r.Bytes? ==> pos + r.count <= |stream|
    ensures r.EndOfStream? <==> reply.Deliver? && pos == |stream|
    ensures r.ReadError? <==> reply.ReadFails?
    ensures r.Bytes? ==> r.count <= reply.atMost
  {
    match reply
    case ReadFails => ReadError
    case Deliver(atMost) =>
      if pos == |stream| then EndOfStream else Bytes(Min(atMost, |stream| - pos))
  }

  /** `sleepForFrameRate`'s call of Thread.sleep, if any. */
  function SleepEvents(sleep: Option<int64>): seq<Event>
  {
    match sleep
    case None => []
    case Some(ms) => [Sleep(ms)]
  }

  /** The input half of one iteration (MainActivity.java:289-326). */
  function InputStep(s: PumpState, env: Env, k: nat): (r: Outcome)
    requires Fits(s, env)
    ensures Fits(r.state, env)
  {
    if s.sawInputEOS then Outcome(s, [], Completed)
    else
      var reply := env.dequeueInput(k);
      var asked := [DequeueInput(DEQUEUE_TIMEOUT_US, reply)];
      match reply
      case InputThrows => Outcome(s, asked, CodecFailure)
      case InputSlot(index, hasBuffer) =>
        if index < 0 || !hasBuffer then Outcome(s, asked, Completed)
        else
          var result := ReadStream(env.stream, s.streamPos, env.read(k));
          var readIt := asked + [Read(result)];
          match result
          case ReadError => Outcome(s, readIt, IOFailure)
          case EndOfStream =>
            Outcome(s.(sawInputEOS := true),
                    readIt + [QueueInput(index, 0, 0, 0, BUFFER_FLAG_END_OF_STREAM, [])],
                    Completed)
          case Bytes(n) =>
            Outcome(s.(frameCount := Wrap32(s.frameCount + 1), streamPos := s.streamPos + n),
                    readIt + [QueueInput(index, 0, n, PresentationTime(s.frameCount), 0,
                                         env.stream[s.streamPos..s.streamPos + n])],
                    Completed)
  }

  /** The output half of one iteration (MainActivity.java:328-359). */
  function OutputStep(s: PumpState, env: Env, k: nat): (r: Outcome)
    ensures r.state.sawInputEOS == s.sawInputEOS && r.state.frameCount == s.frameCount
    ensures r.state.streamPos == s.streamPos
  {
    var reply := env.dequeueOutput(k);
    var asked := [DequeueOutput(DEQUEUE_TIMEOUT_US, reply)];
    match reply
    case OutputThrows => Outcome(s, asked, CodecFailure)
    case OutputSlot(index, info) =>
      if index == INFO_OUTPUT_FORMAT_CHANGED then Outcome(s, asked + [GetOutputFormat], Completed)
      else if index == INFO_TRY_AGAIN_LATER || index == INFO_OUTPUT_BUFFERS_CHANGED || index < 0 then
        Outcome(s, asked, Completed)
      else
        var eos := info.flags & BUFFER_FLAG_END_OF_STREAM != 0;
        var sleep := PacingSleep(env.startTime, info.presentationTimeUs, env.clock(k));
        Outcome(if eos then s.(sawOutputEOS := true) else s,
                asked + [ReleaseOutput(index, true)] + SleepEvents(sleep),
                Completed)
  }

  /** One pass of the loop body: the input step, then, unless it threw, the output step. */
  function Iteration(s: PumpState, env: Env, k: nat): (r: Outcome)
    requires Fits(s, env)
    ensures Fits(r.state, env)
  {
    var i := InputStep(s, env, k);
    if i.exit != Completed then i
    else Then(i.events, OutputStep(i.state, env, k))
  }

  /** The loop from iteration `k` on: it runs while no output EOS was seen and the thread is not interrupted. */
  function RunFrom(s: PumpState, env: Env, k: nat): (r: Outcome)
    requires Fits(s, env)
    ensures Fits(r.state, env)
    decreases env.interruptAt - k
  {
    if s.sawOutputEOS || env.interruptAt <= k then Outcome(s, [], Completed)
    else
      var it := Iteration(s, env, k);
      if it.exit != Completed then it
      else Then(it.events, RunFrom(it.state, env, k + 1))
  }

  /** `decodeH265Stream` as a whole. */
  function Decode(env: Env): Outcome
  {
    RunFrom(Initial, env, 0)
  }

  /**
   * `mH265Stream.read(chunk)`: copies the next bytes of the stream into the front of
   * `chunk` and says how many it copied.
   */
  method ReadChunk(chunk: array<byte>, stream: seq<byte>, pos: nat, reply: StreamReply)
    returns (result: ReadResult)
    requires chunk.Length == CHUNK_SIZE && pos <= |stream|
    modifies chunk
    ensures result == ReadStream(stream, pos, reply)
    ensures result.Bytes? ==> chunk[..result.count] == stream[pos..pos + result.count]
  {
    result := ReadStream(stream, pos, reply);
    if result.Bytes? {
      var n := result.count;
      for i := 0 to n
        invariant chunk[..i] == stream[pos..pos + i]
      {
        chunk[i] := stream[pos + i];
      }
    }
  }

  /**
   * The input half of the loop body (MainActivity.java:289-326): unless the input EOS
   * was already queued, dequeue an input slot and fill it with the next chunk, or with
   * the EOS marker once the stream is exhausted.
   */
  method OfferInput(chunk: array<byte>, env: Env, k: nat, s: PumpState)
    returns (sawInputEOS: bool, frameCount: int32, pos: nat, events: seq<Event>, exit: Exit)
    requires chunk.Length == CHUNK_SIZE && Fits(s, env)
    modifies chunk
    ensures InputStep(s, env, k) ==
            Outcome(s.(sawInputEOS := sawInputEOS, frameCount := frameCount, streamPos := pos), events, exit)
  {
    sawInputEOS, frameCount, pos, events, exit := s.sawInputEOS, s.frameCount, s.streamPos, [], Completed;
    if !sawInputEOS {
      var inputReply := env.dequeueInput(k);
      events := [DequeueInput(DEQUEUE_TIMEOUT_US, inputReply)];
      if inputReply.InputThrows? {
        exit := CodecFailure;
        return;
      }
      if inputReply.index >= 0 && inputReply.hasBuffer {
        var bytesRead := ReadChunk(chunk, env.stream, pos, env.read(k));
        events := events + [Read(bytesRead)];
        match bytesRead
        case ReadError =>
          exit := IOFailure;
        case EndOfStream =>
          sawInputEOS := true;
          events := events + [QueueInput(inputReply.index, 0, 0, 0, BUFFER_FLAG_END_OF_STREAM, [])];
        case Bytes(n) =>
          var presentationTimeUs := PresentationTime(frameCount);
          events := events + [QueueInput(inputReply.index, 0, n, presentationTimeUs, 0, chunk[..n])];
          frameCount := Wrap32(frameCount + 1);
          pos := pos + n;
      }
    }
  }

  /**
   * The output half of the loop body (MainActivity.java:328-359): dequeue one output
   * slot; a real slot is released for rendering, marks the output EOS when flagged, and
   * is paced against the wall clock.
   */
  method ServiceOutput(env: Env, k: nat, s: PumpState) returns (sawOutputEOS: bool, events: seq<Event>, exit: Exit)
    ensures OutputStep(s, env, k) == Outcome(s.(sawOutputEOS := sawOutputEOS), events, exit)
  {
    sawOutputEOS, exit := s.sawOutputEOS, Completed;
    var outputReply := env.dequeueOutput(k);
    events := [DequeueOutput(DEQUEUE_TIMEOUT_US, outputReply)];
    match outputReply
    case OutputThrows =>
      exit := CodecFailure;
    case OutputSlot(index, info) =>
      if index == INFO_OUTPUT_FORMAT_CHANGED {
        events := events + [GetOutputFormat];
      } else if index == INFO_TRY_AGAIN_LATER {
      } else if index == INFO_OUTPUT_BUFFERS_CHANGED {
      } else if index >= 0 {
        if info.flags & BUFFER_FLAG_END_OF_STREAM != 0 {
          sawOutputEOS := true;
        }
        events := events + [ReleaseOutput(index, true)];
        var sleep := PacingSleep(env.startTime, info.presentationTimeUs, env.clock(k));
        if sleep.Some? {
          events := events + [Sleep(sleep.value)];
        }
      }
  }

  /** How one iteration advances the loop invariant of `DecodeH265Stream`. */
  lemma IterationAdvances(env: Env, s: PumpState, k: nat, prefix: seq<Event>, i: Outcome, o: Outcome, whole: Outcome)
    requires Fits(s, env) && !s.sawOutputEOS && k < env.interruptAt
    requires whole == Then(prefix, RunFrom(s, env, k))
    requires i == InputStep(s, env, k)
    requires i.exit == Completed ==> o == OutputStep(i.state, env, k)
    ensures i.exit != Completed ==> whole == Outcome(i.state, prefix + i.events, i.exit)
    ensures i.exit == Completed && o.exit != Completed ==>
              whole == Outcome(o.state, prefix + i.events + o.events, o.exit)
    ensures i.exit == Completed && o.exit == Completed ==>
              Fits(o.state, env) && whole == Then(prefix + i.events + o.events, RunFrom(o.state, env, k + 1))
  {
    RunFromUnfold(s, env, k, i, o);
    if i.exit == Completed {
      if o.exit == Completed {
        ThenAssoc(prefix, i.events, o.events, RunFrom(o.state, env, k + 1));
      } else {
        assert prefix + (i.events + o.events) == prefix + i.events + o.events;
      }
    }
  }

  lemma ThenAssoc(prefix: seq<Event>, a: seq<Event>, b: seq<Event>, x: Outcome)
    ensures Then(prefix, Then(a + b, x)) == Then(prefix + a + b, x)
  {
    assert prefix + (a + b + x.events) == prefix + a + b + x.events;
  }

  /** One pass of the loop, written out as its input half followed by its output half. */
  lemma RunFromUnfold(s: PumpState, env: Env, k: nat, i: Outcome, o: Outcome)
    requires Fits(s, env) && !s.sawOutputEOS && k < env.interruptAt
    requires i == InputStep(s, env, k)
    requires i.exit == Completed ==> o == OutputStep(i.state, env, k)
    ensures i.exit != Completed ==> RunFrom(s, env, k) == i
    ensures i.exit == Completed && o.exit != Completed ==>
              RunFrom(s, env, k) == Outcome(o.state, i.events + o.events, o.exit)
    ensures i.exit == Completed && o.exit == Completed ==>
              Fits(o.state, env) && RunFrom(s, env, k) == Then(i.events + o.events, RunFrom(o.state, env, k + 1))
  {
    if i.exit == Completed {
      assert Iteration(s, env, k) == Then(i.events, o);
    }
  }

  /**
   * `decodeH265Stream`: returns how it ended, the final `frameCount` (the number it
   * logs) and every call it made, exactly as `Decode` describes them.
   */
  method DecodeH265Stream(env: Env) returns (exit: Exit, frameCount: int32, log: seq<Event>)
    ensures exit == Decode(env).exit && log == Decode(env).events
    ensures frameCount == Decode(env).state.frameCount
  {
    var chunk := new byte[CHUNK_SIZE];
    var sawInputEOS, sawOutputEOS := false, false;
    frameCount := 0;
    var pos: nat := 0;  // the stream's read position
    var k: nat := 0;    // iterations started so far
    log := [];
    while !sawOutputEOS && k < env.interruptAt
      invariant pos <= |env.stream|
      invariant Decode(env) == Then(log, RunFrom(PumpState(sawInputEOS, sawOutputEOS, frameCount, pos), env, k))
      decreases env.interruptAt - k
    {
      var s := PumpState(sawInputEOS, sawOutputEOS, frameCount, pos);
      ghost var logBefore := log;
      var inputEvents, outputEvents;
      sawInputEOS, frameCount, pos, inputEvents, exit := OfferInput(chunk, env, k, s);
      log := log + inputEvents;
      ghost var i := Outcome(PumpState(sawInputEOS, sawOutputEOS, frameCount, pos), inputEvents, exit);
      if exit != Completed {
        IterationAdvances(env, s, k, logBefore, i, i, Decode(env));
        return;
      }
      sawOutputEOS, outputEvents, exit := ServiceOutput(env, k, PumpState(sawInputEOS, sawOutputEOS, frameCount, pos));
      log := log + outputEvents;
      IterationAdvances(env, s, k, logBefore, i, Outcome(i.state.(sawOutputEOS := sawOutputEOS), outputEvents, exit), Decode(env));
      if exit != Completed {
        return;
      }
      k := k + 1;
    }
    exit := Completed;
  }
}
