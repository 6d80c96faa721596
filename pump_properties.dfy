/**
 * What the decode pump promises about the calls it makes, stated over the trace of
 * `DecodePump.Decode` and proved by induction over the loop (`RunFrom`).
 */
module PumpProperties {
  import opened JavaInt
  import opened FrameClock
  import opened DecodePump

  // ---------------------------------------------------------------------------
  // Kinds of events

  /** A call on the input side: dequeueInputBuffer, read, queueInputBuffer. */
  predicate IsInputCall(e: Event)
  {
    e.DequeueInput? || e.Read? || e.QueueInput?
  }

  /** queueInputBuffer carrying BUFFER_FLAG_END_OF_STREAM. */
  predicate IsEosSubmission(e: Event)
  {
    e.QueueInput? && e.flags & BUFFER_FLAG_END_OF_STREAM != 0
  }

  /** queueInputBuffer carrying stream data (flags 0). */
  predicate IsDataSubmission(e: Event)
  {
    e.QueueInput? && e.flags == 0
  }

  /** dequeueOutputBuffer answered with a real slot (index >= 0). */
  predicate IsSlotDequeue(e: Event)
  {
    e.DequeueOutput? && e.outputReply.OutputSlot? && e.outputReply.index >= 0
  }

  /** A real output slot whose BufferInfo carries BUFFER_FLAG_END_OF_STREAM. */
  predicate IsEosDequeue(e: Event)
  {
    IsSlotDequeue(e) && e.outputReply.info.flags & BUFFER_FLAG_END_OF_STREAM != 0
  }

  ghost predicate HasEosSubmission(log: seq<Event>)
  {
    exists i :: 0 <= i < |log| && IsEosSubmission(log[i])
  }

  ghost predicate HasEosDequeue(log: seq<Event>)
  {
    exists i :: 0 <= i < |log| && IsEosDequeue(log[i])
  }

  ghost predicate NoInputCalls(log: seq<Event>)
  {
    forall i :: 0 <= i < |log| ==> !IsInputCall(log[i])
  }

  /** The data submissions of a trace, in order. */
  function DataSubmissions(log: seq<Event>): (d: seq<Event>)
    ensures forall j :: 0 <= j < |d| ==> IsDataSubmission(d[j])
    ensures |d| <= |log|
  {
    if log == [] then []
    else (if IsDataSubmission(log[0]) then [log[0]] else []) + DataSubmissions(log[1..])
  }

  /** The bytes handed to the decoder by data submissions, in order. */
  function Payload(log: seq<Event>): seq<byte>
  {
    if log == [] then []
    else (if IsDataSubmission(log[0]) then log[0].data else []) + Payload(log[1..])
  }

  /** The number of dequeueOutputBuffer calls, one per loop iteration that reached its output half. */
  function OutputDequeues(log: seq<Event>): nat
  {
    if log == [] then 0
    else (if log[0].DequeueOutput? then 1 else 0) + OutputDequeues(log[1..])
  }

  lemma {:induction false} DataSubmissionsAppend(a: seq<Event>, b: seq<Event>)
    ensures DataSubmissions(a + b) == DataSubmissions(a) + DataSubmissions(b)
    ensures Payload(a + b) == Payload(a) + Payload(b)
  {
    if a != [] {
      assert (a + b)[1..] == a[1..] + b;
      DataSubmissionsAppend(a[1..], b);
    } else {
      assert a + b == b;
    }
  }

  lemma {:induction false} OutputDequeuesAppend(a: seq<Event>, b: seq<Event>)
    ensures OutputDequeues(a + b) == OutputDequeues(a) + OutputDequeues(b)
  {
    if a != [] {
      assert (a + b)[1..] == a[1..] + b;
      OutputDequeuesAppend(a[1..], b);
    } else {
      assert a + b == b;
    }
  }

  // ---------------------------------------------------------------------------
  // Input side: one EOS submission at most, and no input call after it

  /** After an EOS submission there is no further input-side call. */
  ghost predicate NoInputAfterEos(log: seq<Event>)
  {
    forall i, j :: 0 <= i < j < |log| && IsEosSubmission(log[i]) ==> !IsInputCall(log[j])
  }

  ghost predicate InputInv(s: PumpState, log: seq<Event>)
  {
    (s.sawInputEOS <==> HasEosSubmission(log)) && NoInputAfterEos(log)
  }

  lemma InputStepDiscipline(s: PumpState, env: Env, k: nat)
    requires Fits(s, env)
    ensures var r := InputStep(s, env, k);
      && (s.sawInputEOS ==> r.events == [] && r.state.sawInputEOS)
      && NoInputAfterEos(r.events)
      && (forall i :: 0 <= i < |r.events| ==> IsInputCall(r.events[i]))
      && (r.state.sawInputEOS <==> s.sawInputEOS || HasEosSubmission(r.events))
      && (r.state.sawInputEOS && !s.sawInputEOS ==> |r.events| > 0 && IsEosSubmission(r.events[|r.events| - 1]))
  {
    var r := InputStep(s, env, k);
    if r.state.sawInputEOS && !s.sawInputEOS {
      assert IsEosSubmission(r.events[|r.events| - 1]);
    }
    if !s.sawInputEOS && HasEosSubmission(r.events) {
      var i :| 0 <= i < |r.events| && IsEosSubmission(r.events[i]);
      assert i == |r.events| - 1;
    }
  }

  lemma OutputStepNoInput(s: PumpState, env: Env, k: nat)
    ensures NoInputCalls(OutputStep(s, env, k).events)
    ensures OutputStep(s, env, k).state.sawInputEOS == s.sawInputEOS
  {
  }

  lemma AppendInputInv(log: seq<Event>, ev: seq<Event>)
    requires NoInputAfterEos(log) && NoInputAfterEos(ev)
    requires HasEosSubmission(log) ==> NoInputCalls(ev)
    ensures NoInputAfterEos(log + ev)
    ensures HasEosSubmission(log + ev) <==> HasEosSubmission(log) || HasEosSubmission(ev)
  {
    var t := log + ev;
    if HasEosSubmission(ev) {
      var i :| 0 <= i < |ev| && IsEosSubmission(ev[i]);
      assert IsEosSubmission(t[|log| + i]);
    }
    if HasEosSubmission(log) {
      var i :| 0 <= i < |log| && IsEosSubmission(log[i]);
      assert IsEosSubmission(t[i]);
    }
    forall i, j | 0 <= i < j < |t| && IsEosSubmission(t[i])
      ensures !IsInputCall(t[j])
    {
      if i < |log| {
        assert IsEosSubmission(log[i]);
        if j >= |log| { assert t[j] == ev[j - |log|]; }
      } else {
        assert t[i] == ev[i - |log|] && t[j] == ev[j - |log|];
      }
    }
  }

  lemma IterationInputInv(s: PumpState, env: Env, k: nat, log: seq<Event>)
    requires Fits(s, env) && InputInv(s, log)
    ensures InputInv(Iteration(s, env, k).state, log + Iteration(s, env, k).events)
  {
    var i := InputStep(s, env, k);
    InputStepDiscipline(s, env, k);
    AppendInputInv(log, i.events);
    if i.exit == Completed {
      var o := OutputStep(i.state, env, k);
      OutputStepNoInput(i.state, env, k);
      AppendInputInv(log + i.events, o.events);
      assert log + i.events + o.events == log + (i.events + o.events);
    }
  }

  lemma InputInvReassoc(t: PumpState, log: seq<Event>, a: seq<Event>, b: seq<Event>)
    requires InputInv(t, log + a + b)
    ensures InputInv(t, log + (a + b))
  {
    assert log + a + b == log + (a + b);
  }

  lemma {:induction false} RunFromInputInv(s: PumpState, env: Env, k: nat, log: seq<Event>)
    requires Fits(s, env) && InputInv(s, log)
    ensures InputInv(RunFrom(s, env, k).state, log + RunFrom(s, env, k).events)
    decreases env.interruptAt - k
  {
    if !(s.sawOutputEOS || env.interruptAt <= k) {
      var it := Iteration(s, env, k);
      IterationInputInv(s, env, k, log);
      if it.exit == Completed {
        var rest := RunFrom(it.state, env, k + 1);
        RunFromInputInv(it.state, env, k + 1, log + it.events);
        InputInvReassoc(rest.state, log, it.events, rest.events);
      }
    } else {
      assert log + [] == log;
    }
  }

  /**
   * Once the EOS marker has been queued, the pump never again dequeues an input slot,
   * reads the stream or queues input; so it queues the EOS marker at most once, and
   * `sawInputEOS` ends true exactly when it was queued.
   */
  lemma InputEndsOnce(env: Env)
    ensures var r := Decode(env);
      && NoInputAfterEos(r.events)
      && (r.state.sawInputEOS <==> HasEosSubmission(r.events))
      && forall i, j :: (0 <= i < |r.events| && 0 <= j < |r.events| &&
                         IsEosSubmission(r.events[i]) && IsEosSubmission(r.events[j])) ==> i == j
  {
    var r := Decode(env);
    RunFromInputInv(Initial, env, 0, []);
    InputInvFromStart(r.state, r.events);
    EosAtMostOnce(r.events);
  }

  lemma InputInvFromStart(t: PumpState, ev: seq<Event>)
    requires InputInv(t, [] + ev)
    ensures InputInv(t, ev)
  {
    assert [] + ev == ev;
  }

  /** No input call after an EOS submission leaves room for only one EOS submission. */
  lemma EosAtMostOnce(log: seq<Event>)
    requires NoInputAfterEos(log)
    ensures forall i, j :: (0 <= i < |log| && 0 <= j < |log| &&
                            IsEosSubmission(log[i]) && IsEosSubmission(log[j])) ==> i == j
  {
    forall i, j | 0 <= i < |log| && 0 <= j < |log| && IsEosSubmission(log[i]) && IsEosSubmission(log[j])
      ensures i == j
    {
      assert IsInputCall(log[i]) && IsInputCall(log[j]);
    }
  }

  // ---------------------------------------------------------------------------
  // Data submissions: timestamps, sizes and the bytes handed to the decoder

  lemma SingleEvent(e: Event)
    ensures DataSubmissions([e]) == if IsDataSubmission(e) then [e] else []
    ensures Payload([e]) == if IsDataSubmission(e) then e.data else []
    ensures OutputDequeues([e]) == if e.DequeueOutput? then 1 else 0
  {
    assert [e][1..] == [];
  }

  lemma {:induction false} NoInputNoData(log: seq<Event>)
    requires NoInputCalls(log)
    ensures DataSubmissions(log) == [] && Payload(log) == []
  {
    if log != [] {
      assert !IsInputCall(log[0]);
      NoInputNoData(log[1..]);
    }
  }

  /** A well-formed data submission of the `j`-th chunk. */
  ghost predicate ChunkSubmission(e: Event, j: nat)
  {
    && IsDataSubmission(e)
    && e.offset == 0
    && e.size == |e.data|
    && 1 <= e.size <= CHUNK_SIZE
    && e.pts == PresentationTime(Wrap32(j))
  }

  ghost predicate DataInv(env: Env, s: PumpState, log: seq<Event>)
  {
    var d := DataSubmissions(log);
    && Fits(s, env)
    && s.frameCount == Wrap32(|d|)
    && (forall j :: 0 <= j < |d| ==> ChunkSubmission(d[j], j))
    && Payload(log) == env.stream[..s.streamPos]
    && (s.sawInputEOS ==> s.streamPos == |env.stream|)
  }

  /** What the input half contributes to the data submissions, the payload and the state. */
  ghost predicate InputStepDataShape(s: PumpState, env: Env, r: Outcome)
    requires Fits(s, env)
  {
    var d := DataSubmissions(r.events);
    && (r.state.sawInputEOS ==> r.state.streamPos == |env.stream|)
    && (|d| == 0 ==> r.state.frameCount == s.frameCount && r.state.streamPos == s.streamPos && Payload(r.events) == [])
    && (|d| != 0 ==>
          && |d| == 1
          && d[0].offset == 0 && d[0].size == |d[0].data| && 1 <= d[0].size <= CHUNK_SIZE
          && d[0].pts == PresentationTime(s.frameCount)
          && r.state.frameCount == Wrap32(s.frameCount + 1)
          && r.state.streamPos == s.streamPos + d[0].size <= |env.stream|
          && Payload(r.events) == d[0].data == env.stream[s.streamPos..r.state.streamPos])
  }

  lemma InputStepData(s: PumpState, env: Env, k: nat)
    requires Fits(s, env)
    requires s.sawInputEOS ==> s.streamPos == |env.stream|
    ensures InputStepDataShape(s, env, InputStep(s, env, k))
  {
    var r := InputStep(s, env, k);
    if s.sawInputEOS {
      assert r.events == [];
    } else {
      var reply := env.dequeueInput(k);
      var asked := [DequeueInput(DEQUEUE_TIMEOUT_US, reply)];
      SingleEvent(asked[0]);
      match reply
      case InputThrows =>
        assert r.events == asked;
      case InputSlot(index, hasBuffer) =>
        if index < 0 || !hasBuffer {
          assert r.events == asked;
        } else {
          ReadAndQueue(s, env, k);
        }
    }
  }

  lemma ReadAndQueue(s: PumpState, env: Env, k: nat)
    requires Fits(s, env) && !s.sawInputEOS
    requires env.dequeueInput(k).InputSlot? && env.dequeueInput(k).index >= 0 && env.dequeueInput(k).hasBuffer
    ensures InputStepDataShape(s, env, InputStep(s, env, k))
  {
    var reply := env.dequeueInput(k);
    var result := ReadStream(env.stream, s.streamPos, env.read(k));
    var asked, readIt := DequeueInput(DEQUEUE_TIMEOUT_US, reply), Read(result);
    match result
    case ReadError =>
      assert InputStep(s, env, k) == Outcome(s, [asked, readIt], IOFailure);
      CallsData([asked, readIt], asked, readIt, []);
    case EndOfStream =>
      EosQueued(s, env, k, k);
      EosShape(s, env, asked, readIt, reply.index, InputStep(s, env, k));
    case Bytes(n) =>
      ChunkQueued(s, env, k, n);
      ChunkShape(s, env, asked, readIt, reply.index, n, InputStep(s, env, k));
  }

  lemma EosShape(s: PumpState, env: Env, asked: Event, readIt: Event, index: int32, r: Outcome)
    requires Fits(s, env) && asked.DequeueInput? && readIt.Read?
    requires s.streamPos == |env.stream|
    requires r == Outcome(s.(sawInputEOS := true),
                          [asked, readIt, QueueInput(index, 0, 0, 0, BUFFER_FLAG_END_OF_STREAM, [])],
                          Completed)
    ensures InputStepDataShape(s, env, r)
  {
    var q := QueueInput(index, 0, 0, 0, BUFFER_FLAG_END_OF_STREAM, []);
    CallsData(r.events, asked, readIt, [q]);
    CallsData([q], q, q, []);
  }

  lemma ChunkShape(s: PumpState, env: Env, asked: Event, readIt: Event, index: int32, n: ChunkLength, r: Outcome)
    requires !s.sawInputEOS && asked.DequeueInput? && readIt.Read? && s.streamPos + n <= |env.stream|
    requires r == Outcome(s.(frameCount := Wrap32(s.frameCount + 1), streamPos := s.streamPos + n),
                          [asked, readIt, QueueInput(index, 0, n, PresentationTime(s.frameCount), 0,
                                                     env.stream[s.streamPos..s.streamPos + n])],
                          Completed)
    ensures InputStepDataShape(s, env, r)
  {
    var q := r.events[2];
    CallsData(r.events, asked, readIt, [q]);
    CallsData([q], q, q, []);
  }

  /**
   * Data submissions and payload of a call sequence that starts with a dequeue and a
   * read (or, with `a == b`, of a single queueInputBuffer call).
   */
  lemma CallsData(t: seq<Event>, a: Event, b: Event, rest: seq<Event>)
    requires (a.DequeueInput? && b.Read? && t == [a, b] + rest) || (a == b && a.QueueInput? && t == [a] && rest == [])
    ensures a != b ==> DataSubmissions(t) == DataSubmissions(rest) && Payload(t) == Payload(rest)
    ensures a == b ==> DataSubmissions(t) == (if IsDataSubmission(a) then [a] else [])
    ensures a == b ==> Payload(t) == (if IsDataSubmission(a) then a.data else [])
  {
    if a != b {
      assert t[1..] == [b] + rest && t[1..][1..] == rest;
    } else {
      assert t[1..] == [];
    }
  }

  lemma AppendData(log: seq<Event>, ev: seq<Event>)
    ensures |DataSubmissions(log + ev)| == |DataSubmissions(log)| + |DataSubmissions(ev)|
    ensures forall j :: 0 <= j < |DataSubmissions(log)| ==> DataSubmissions(log + ev)[j] == DataSubmissions(log)[j]
    ensures forall j :: 0 <= j < |DataSubmissions(ev)| ==>
              DataSubmissions(log + ev)[|DataSubmissions(log)| + j] == DataSubmissions(ev)[j]
    ensures Payload(log + ev) == Payload(log) + Payload(ev)
  {
    DataSubmissionsAppend(log, ev);
  }

  lemma InputStepDataInv(s: PumpState, env: Env, k: nat, log: seq<Event>)
    requires DataInv(env, s, log)
    ensures DataInv(env, InputStep(s, env, k).state, log + InputStep(s, env, k).events)
  {
    InputStepData(s, env, k);
    ExtendDataInv(env, s, log, InputStep(s, env, k));
  }

  /** An input half of the shape `InputStepDataShape` describes extends the data invariant. */
  lemma ExtendDataInv(env: Env, s: PumpState, log: seq<Event>, i: Outcome)
    requires DataInv(env, s, log) && InputStepDataShape(s, env, i)
    ensures DataInv(env, i.state, log + i.events)
  {
    var d, di := DataSubmissions(log), DataSubmissions(i.events);
    AppendData(log, i.events);
    var d' := DataSubmissions(log + i.events);
    if |di| != 0 {
      Wrap32Succ(|d|);
      assert env.stream[..s.streamPos] + env.stream[s.streamPos..i.state.streamPos] == env.stream[..i.state.streamPos];
      assert ChunkSubmission(di[0], |d|);
      ChunksExtend(d, di[0], d');
    } else {
      assert d' == d;
    }
  }

  /** Appending the chunk numbered `|d|` to well-numbered chunks keeps them well numbered. */
  lemma ChunksExtend(d: seq<Event>, e: Event, d': seq<Event>)
    requires forall j :: 0 <= j < |d| ==> ChunkSubmission(d[j], j)
    requires ChunkSubmission(e, |d|)
    requires |d'| == |d| + 1 && d'[|d|] == e
    requires forall j :: 0 <= j < |d| ==> d'[j] == d[j]
    ensures forall j :: 0 <= j < |d'| ==> ChunkSubmission(d'[j], j)
  {
    forall j | 0 <= j < |d'|
      ensures ChunkSubmission(d'[j], j)
    {
      if j < |d| {
        assert d'[j] == d[j];
      }
    }
  }

  lemma OutputStepDataInv(s: PumpState, env: Env, k: nat, log: seq<Event>)
    requires DataInv(env, s, log)
    ensures DataInv(env, OutputStep(s, env, k).state, log + OutputStep(s, env, k).events)
  {
    var o := OutputStep(s, env, k);
    OutputStepNoInput(s, env, k);
    NoInputNoData(o.events);
    AppendData(log, o.events);
    assert DataSubmissions(log + o.events) == DataSubmissions(log);
  }

  lemma IterationDataInv(s: PumpState, env: Env, k: nat, log: seq<Event>)
    requires DataInv(env, s, log)
    ensures DataInv(env, Iteration(s, env, k).state, log + Iteration(s, env, k).events)
  {
    var i := InputStep(s, env, k);
    InputStepDataInv(s, env, k, log);
    if i.exit == Completed {
      var o := OutputStep(i.state, env, k);
      OutputStepDataInv(i.state, env, k, log + i.events);
      assert log + i.events + o.events == log + (i.events + o.events);
    }
  }

  lemma DataInvReassoc(env: Env, t: PumpState, log: seq<Event>, a: seq<Event>, b: seq<Event>)
    requires DataInv(env, t, log + a + b)
    ensures DataInv(env, t, log + (a + b))
  {
    assert log + a + b == log + (a + b);
  }

  lemma {:induction false} RunFromDataInv(s: PumpState, env: Env, k: nat, log: seq<Event>)
    requires DataInv(env, s, log)
    ensures DataInv(env, RunFrom(s, env, k).state, log + RunFrom(s, env, k).events)
    decreases env.interruptAt - k
  {
    if !(s.sawOutputEOS || env.interruptAt <= k) {
      var it := Iteration(s, env, k);
      IterationDataInv(s, env, k, log);
      if it.exit == Completed {
        var rest := RunFrom(it.state, env, k + 1);
        RunFromDataInv(it.state, env, k + 1, log + it.events);
        DataInvReassoc(env, rest.state, log, it.events, rest.events);
      }
    } else {
      assert log + [] == log;
    }
  }

  /**
   * The j-th data submission queues exactly the bytes of the j-th read, at offset 0,
   * with timestamp computePresentationTime(j) (j as a Java int) and no flags; the final
   * frameCount is the number of data submissions; the submitted bytes are, in order,
   * exactly the stream read so far, and all of the stream once the EOS marker is queued.
   */
  lemma ChunksCarryStream(env: Env)
    ensures var r := Decode(env);
            var d := DataSubmissions(r.events);
      && (forall j :: 0 <= j < |d| ==> ChunkSubmission(d[j], j))
      && r.state.frameCount == Wrap32(|d|)
      && Payload(r.events) == env.stream[..r.state.streamPos]
      && (r.state.sawInputEOS ==> Payload(r.events) == env.stream)
  {
    var r := Decode(env);
    RunFromDataInv(Initial, env, 0, []);
    DataInvFromStart(env, r.state, r.events);
  }

  lemma DataInvFromStart(env: Env, t: PumpState, ev: seq<Event>)
    requires DataInv(env, t, [] + ev)
    ensures DataInv(env, t, ev)
  {
    assert [] + ev == ev;
  }

  /** The timestamps of data submissions strictly increase, up to the 2^31-th chunk where frameCount wraps. */
  lemma TimestampsIncrease(env: Env)
    ensures var d := DataSubmissions(Decode(env).events);
      forall i, j :: 0 <= i < j < |d| && j <= INT_MAX ==> d[i].pts < d[j].pts
  {
    ChunksCarryStream(env);
    var d := DataSubmissions(Decode(env).events);
    forall i, j | 0 <= i < j < |d| && j <= INT_MAX
      ensures d[i].pts < d[j].pts
    {
      assert ChunkSubmission(d[i], i) && ChunkSubmission(d[j], j);
      PresentationTimeIncreasing(i, j);
    }
  }

  // ---------------------------------------------------------------------------
  // Output side: every real slot released once, for rendering; nothing after output EOS

  /** Every real output slot is released, for rendering, by the very next call. */
  ghost predicate ReleasedOnce(log: seq<Event>)
  {
    forall i :: 0 <= i < |log| && IsSlotDequeue(log[i]) ==>
      i + 1 < |log| && log[i + 1] == ReleaseOutput(log[i].outputReply.index, true)
  }

  /** Every release is of the slot dequeued by the call just before it. */
  ghost predicate ReleaseFollowsDequeue(log: seq<Event>)
  {
    forall i :: 0 <= i < |log| && log[i].ReleaseOutput? ==>
      0 < i && IsSlotDequeue(log[i - 1]) && log[i - 1].outputReply.index == log[i].index
  }

  /** After the output EOS slot come only its release and possibly one pacing sleep. */
  ghost predicate EndsAtOutputEos(log: seq<Event>)
  {
    forall i :: 0 <= i < |log| && IsEosDequeue(log[i]) ==>
      |log| <= i + 3 && (i + 2 < |log| ==> log[i + 2].Sleep?)
  }

  ghost predicate OutputInv(s: PumpState, log: seq<Event>)
  {
    && ReleasedOnce(log)
    && ReleaseFollowsDequeue(log)
    && EndsAtOutputEos(log)
    && (s.sawOutputEOS <==> HasEosDequeue(log))
  }

  lemma InputStepNoOutput(s: PumpState, env: Env, k: nat)
    requires Fits(s, env)
    ensures var r := InputStep(s, env, k);
      && r.state.sawOutputEOS == s.sawOutputEOS
      && forall i :: 0 <= i < |r.events| ==> IsInputCall(r.events[i])
  {
  }

  lemma OutputStepShape(s: PumpState, env: Env, k: nat)
    ensures var r := OutputStep(s, env, k);
      && ReleasedOnce(r.events) && ReleaseFollowsDequeue(r.events) && EndsAtOutputEos(r.events)
      && (r.state.sawOutputEOS <==> s.sawOutputEOS || HasEosDequeue(r.events))
      && (r.exit != Completed ==> r.state == s && !HasEosDequeue(r.events))
      && OutputDequeues(r.events) == 1
  {
    var r := OutputStep(s, env, k);
    var reply := env.dequeueOutput(k);
    var d := DequeueOutput(DEQUEUE_TIMEOUT_US, reply);
    if IsSlotDequeue(d) {
      SlotReleased(s, env, k);
    } else {
      assert r.state == s;
      var tail := if reply.OutputSlot? && reply.index == INFO_OUTPUT_FORMAT_CHANGED then [GetOutputFormat] else [];
      assert r.events == [d] + tail;
      NoSlot(d, tail);
    }
  }

  lemma NoSlot(d: Event, tail: seq<Event>)
    requires d.DequeueOutput? && !IsSlotDequeue(d)
    requires tail == [] || tail == [GetOutputFormat]
    ensures var t := [d] + tail;
      && ReleasedOnce(t) && ReleaseFollowsDequeue(t) && EndsAtOutputEos(t)
      && !HasEosDequeue(t)
      && OutputDequeues(t) == 1
  {
    var t := [d] + tail;
    OutputDequeuesCons(d, tail);
    if tail != [] {
      OutputDequeuesCons(GetOutputFormat, []);
      assert tail == [GetOutputFormat] + [];
    }
    assert forall i :: 0 <= i < |t| ==> !IsSlotDequeue(t[i]) && !t[i].ReleaseOutput?;
  }

  lemma OutputDequeuesCons(e: Event, rest: seq<Event>)
    ensures OutputDequeues([e] + rest) == (if e.DequeueOutput? then 1 else 0) + OutputDequeues(rest)
  {
    assert ([e] + rest)[1..] == rest;
  }

  lemma SlotReleased(s: PumpState, env: Env, k: nat)
    requires IsSlotDequeue(DequeueOutput(DEQUEUE_TIMEOUT_US, env.dequeueOutput(k)))
    ensures var r := OutputStep(s, env, k);
      && ReleasedOnce(r.events) && ReleaseFollowsDequeue(r.events) && EndsAtOutputEos(r.events)
      && (r.state.sawOutputEOS <==> s.sawOutputEOS || HasEosDequeue(r.events))
      && r.exit == Completed
      && OutputDequeues(r.events) == 1
  {
    var r := OutputStep(s, env, k);
    var reply := env.dequeueOutput(k);
    var d := DequeueOutput(DEQUEUE_TIMEOUT_US, reply);
    var sleep := PacingSleep(env.startTime, reply.info.presentationTimeUs, env.clock(k));
    assert r.events == [d, ReleaseOutput(reply.index, true)] + SleepEvents(sleep);
    ReleasePair(d, SleepEvents(sleep));
  }

  lemma ReleasePair(d: Event, tail: seq<Event>)
    requires IsSlotDequeue(d)
    requires tail == [] || (|tail| == 1 && tail[0].Sleep?)
    ensures var t := [d, ReleaseOutput(d.outputReply.index, true)] + tail;
      && ReleasedOnce(t) && ReleaseFollowsDequeue(t) && EndsAtOutputEos(t)
      && (HasEosDequeue(t) <==> IsEosDequeue(d))
      && OutputDequeues(t) == 1
  {
    var rel := ReleaseOutput(d.outputReply.index, true);
    ReleasePairOrder(d, rel, tail);
    assert [d, rel] + tail == [d] + ([rel] + tail);
    OutputDequeuesCons(d, [rel] + tail);
    OutputDequeuesCons(rel, tail);
    if tail != [] {
      OutputDequeuesCons(tail[0], []);
      assert tail == [tail[0]] + [];
    }
  }

  lemma ReleasePairOrder(d: Event, rel: Event, tail: seq<Event>)
    requires IsSlotDequeue(d) && rel == ReleaseOutput(d.outputReply.index, true)
    requires tail == [] || (|tail| == 1 && tail[0].Sleep?)
    ensures var t := [d, rel] + tail;
      && ReleasedOnce(t) && ReleaseFollowsDequeue(t) && EndsAtOutputEos(t)
      && (HasEosDequeue(t) <==> IsEosDequeue(d))
  {
    var t := [d, rel] + tail;
    assert t[0] == d && t[1] == rel;
    assert |t| == 2 || t[2].Sleep?;
    forall i | 0 <= i < |t| && IsSlotDequeue(t[i])
      ensures i + 1 < |t| && t[i + 1] == ReleaseOutput(t[i].outputReply.index, true)
    {
      assert i == 0;
    }
    forall i | 0 <= i < |t| && t[i].ReleaseOutput?
      ensures 0 < i && IsSlotDequeue(t[i - 1]) && t[i - 1].outputReply.index == t[i].index
    {
      assert i == 1;
    }
    forall i | 0 <= i < |t| && IsEosDequeue(t[i])
      ensures |t| <= i + 3 && (i + 2 < |t| ==> t[i + 2].Sleep?)
    {
      assert i == 0;
    }
    if HasEosDequeue(t) {
      var i :| 0 <= i < |t| && IsEosDequeue(t[i]);
      assert i == 0;
    }
    if IsEosDequeue(d) {
      assert IsEosDequeue(t[0]);
    }
  }

  lemma AppendOutputInv(log: seq<Event>, ev: seq<Event>)
    requires ReleasedOnce(log) && ReleaseFollowsDequeue(log)
    requires ReleasedOnce(ev) && ReleaseFollowsDequeue(ev) && EndsAtOutputEos(ev)
    requires !HasEosDequeue(log)
    ensures ReleasedOnce(log + ev) && ReleaseFollowsDequeue(log + ev) && EndsAtOutputEos(log + ev)
    ensures HasEosDequeue(log + ev) <==> HasEosDequeue(ev)
  {
    var t := log + ev;
    forall i | 0 <= i < |t| && IsSlotDequeue(t[i])
      ensures i + 1 < |t| && t[i + 1] == ReleaseOutput(t[i].outputReply.index, true)
    {
      if i < |log| { assert IsSlotDequeue(log[i]); } else { assert t[i] == ev[i - |log|]; }
    }
    forall i | 0 <= i < |t| && t[i].ReleaseOutput?
      ensures 0 < i && IsSlotDequeue(t[i - 1]) && t[i - 1].outputReply.index == t[i].index
    {
      if i < |log| { assert log[i].ReleaseOutput?; } else { assert t[i] == ev[i - |log|]; }
    }
    forall i | 0 <= i < |t| && IsEosDequeue(t[i])
      ensures |t| <= i + 3 && (i + 2 < |t| ==> t[i + 2].Sleep?)
    {
      assert i >= |log|;
      assert t[i] == ev[i - |log|];
    }
    if HasEosDequeue(t) {
      var i :| 0 <= i < |t| && IsEosDequeue(t[i]);
      assert i >= |log|;
      assert IsEosDequeue(ev[i - |log|]);
    }
    if HasEosDequeue(ev) {
      var i :| 0 <= i < |ev| && IsEosDequeue(ev[i]);
      assert IsEosDequeue(t[|log| + i]);
    }
  }

  /** Input calls alone satisfy the output discipline trivially. */
  lemma InputCallsOutputFree(ev: seq<Event>)
    requires forall i :: 0 <= i < |ev| ==> IsInputCall(ev[i])
    ensures ReleasedOnce(ev) && ReleaseFollowsDequeue(ev) && EndsAtOutputEos(ev) && !HasEosDequeue(ev)
  {
  }

  /** Input calls and then one output half extend a log that keeps the output discipline. */
  lemma ExtendOutputInv(s: PumpState, log: seq<Event>, a: seq<Event>, t: PumpState, b: seq<Event>)
    requires OutputInv(s, log) && !s.sawOutputEOS
    requires forall i :: 0 <= i < |a| ==> IsInputCall(a[i])
    requires ReleasedOnce(b) && ReleaseFollowsDequeue(b) && EndsAtOutputEos(b)
    requires t.sawOutputEOS <==> HasEosDequeue(b)
    ensures OutputInv(t, log + (a + b))
  {
    InputCallsOutputFree(a);
    AppendOutputInv(log, a);
    AppendOutputInv(log + a, b);
    assert log + a + b == log + (a + b);
  }

  lemma IterationOutputInv(s: PumpState, env: Env, k: nat, log: seq<Event>)
    requires Fits(s, env) && OutputInv(s, log) && !s.sawOutputEOS
    ensures OutputInv(Iteration(s, env, k).state, log + Iteration(s, env, k).events)
  {
    var i := InputStep(s, env, k);
    InputStepNoOutput(s, env, k);
    if i.exit == Completed {
      var o := OutputStep(i.state, env, k);
      OutputStepShape(i.state, env, k);
      ExtendOutputInv(s, log, i.events, o.state, o.events);
    } else {
      ExtendOutputInv(s, log, i.events, i.state, []);
      assert i.events + [] == i.events;
    }
  }

  lemma {:induction false} RunFromOutputInv(s: PumpState, env: Env, k: nat, log: seq<Event>)
    requires Fits(s, env) && OutputInv(s, log)
    ensures OutputInv(RunFrom(s, env, k).state, log + RunFrom(s, env, k).events)
    decreases env.interruptAt - k
  {
    if !(s.sawOutputEOS || env.interruptAt <= k) {
      var it := Iteration(s, env, k);
      IterationOutputInv(s, env, k, log);
      if it.exit == Completed {
        var rest := RunFrom(it.state, env, k + 1);
        RunFromOutputInv(it.state, env, k + 1, log + it.events);
        OutputInvReassoc(rest.state, log, it.events, rest.events);
      }
    } else {
      assert log + [] == log;
    }
  }

  lemma OutputInvReassoc(t: PumpState, log: seq<Event>, a: seq<Event>, b: seq<Event>)
    requires OutputInv(t, log + a + b)
    ensures OutputInv(t, log + (a + b))
  {
    assert log + a + b == log + (a + b);
  }

  /**
   * Every output slot the codec hands out is released exactly once, with render set,
   * by the call right after its dequeue; `sawOutputEOS` ends true exactly when a real
   * slot carried the EOS flag, and after that slot only its release and at most one
   * pacing sleep happen.
   */
  lemma OutputSlotsReleased(env: Env)
    ensures var r := Decode(env);
      && ReleasedOnce(r.events)
      && ReleaseFollowsDequeue(r.events)
      && EndsAtOutputEos(r.events)
      && (r.state.sawOutputEOS <==> HasEosDequeue(r.events))
  {
    var r := Decode(env);
    RunFromOutputInv(Initial, env, 0, []);
    OutputInvFromStart(r.state, r.events);
  }

  lemma OutputInvFromStart(t: PumpState, ev: seq<Event>)
    requires OutputInv(t, [] + ev)
    ensures OutputInv(t, ev)
  {
    assert [] + ev == ev;
  }

  // ---------------------------------------------------------------------------
  // Loop exit

  lemma {:induction false} RunFromExit(s: PumpState, env: Env, k: nat)
    requires Fits(s, env) && k <= env.interruptAt
    ensures var r := RunFrom(s, env, k);
      && OutputDequeues(r.events) <= env.interruptAt - k
      && (r.exit == Completed && !r.state.sawOutputEOS ==> OutputDequeues(r.events) == env.interruptAt - k)
      && (r.state.sawOutputEOS ==> r.exit == Completed)
    decreases env.interruptAt - k
  {
    if !(s.sawOutputEOS || env.interruptAt <= k) {
      var i := InputStep(s, env, k);
      var it := Iteration(s, env, k);
      InputStepNoOutput(s, env, k);
      assert OutputDequeues(i.events) == 0 by {
        NoOutputDequeues(i.events);
      }
      if i.exit == Completed {
        var o := OutputStep(i.state, env, k);
        OutputStepShape(i.state, env, k);
        OutputDequeuesAppend(i.events, o.events);
        if o.exit == Completed {
          var rest := RunFrom(it.state, env, k + 1);
          RunFromExit(it.state, env, k + 1);
          OutputDequeuesAppend(it.events, rest.events);
        }
      }
    }
  }

  /**
   * A run that an exception ends has made at least the call that threw, and when that
   * call was on the input side, the pass it belongs to began at a loop-top check before
   * `interruptAt`: fewer output dequeues than passes allowed.
   */
  lemma {:induction false} RunFromThrowExit(s: PumpState, env: Env, k: nat)
    requires Fits(s, env) && k <= env.interruptAt
    ensures var r := RunFrom(s, env, k);
      && (r.exit != Completed ==> |r.events| > 0)
      && (r.exit != Completed && IsInputCall(r.events[|r.events| - 1]) ==>
            OutputDequeues(r.events) < env.interruptAt - k)
    decreases env.interruptAt - k
  {
    if !(s.sawOutputEOS || env.interruptAt <= k) {
      var i := InputStep(s, env, k);
      InputStepNoOutput(s, env, k);
      InputStepThrowsAfterCall(s, env, k);
      NoOutputDequeues(i.events);
      if i.exit == Completed {
        var o := OutputStep(i.state, env, k);
        OutputStepNotEmpty(i.state, env, k);
        OutputStepNoInput(i.state, env, k);
        RunFromUnfold(s, env, k, i, o);
        if o.exit == Completed {
          OutputDequeuesAppend(i.events, o.events);
          RunFromThrowExit(o.state, env, k + 1);
          ThenThrowBound(i.events + o.events, RunFrom(o.state, env, k + 1), env.interruptAt - (k + 1));
        } else {
          LastOfAppend(i.events, o.events);
        }
      } else {
        RunFromUnfold(s, env, k, i, i);
      }
    }
  }

  /** One completed pass (one output dequeue) in front of a run keeps the exception bound. */
  lemma ThenThrowBound(pass: seq<Event>, rest: Outcome, n: nat)
    requires OutputDequeues(pass) == 1
    requires rest.exit != Completed ==> |rest.events| > 0
    requires rest.exit != Completed && IsInputCall(rest.events[|rest.events| - 1]) ==>
               OutputDequeues(rest.events) < n
    ensures var r := Then(pass, rest);
      && (r.exit != Completed ==> |r.events| > 0)
      && (r.exit != Completed && IsInputCall(r.events[|r.events| - 1]) ==> OutputDequeues(r.events) < n + 1)
  {
    OutputDequeuesAppend(pass, rest.events);
    if |rest.events| > 0 {
      LastOfAppend(pass, rest.events);
    }
  }

  /** An input half that throws has made at least the call that threw. */
  lemma InputStepThrowsAfterCall(s: PumpState, env: Env, k: nat)
    requires Fits(s, env)
    ensures var r := InputStep(s, env, k);
      r.exit != Completed ==> |r.events| > 0
  {
  }

  /** The output half always makes a call: exactly one dequeueOutputBuffer. */
  lemma OutputStepNotEmpty(s: PumpState, env: Env, k: nat)
    ensures var r := OutputStep(s, env, k);
      |r.events| > 0 && OutputDequeues(r.events) == 1
  {
    OutputStepShape(s, env, k);
  }

  lemma LastOfAppend(a: seq<Event>, b: seq<Event>)
    requires |b| > 0
    ensures |a + b| > 0 && (a + b)[|a + b| - 1] == b[|b| - 1]
  {
  }

  lemma {:induction false} NoOutputDequeues(log: seq<Event>)
    requires forall i :: 0 <= i < |log| ==> IsInputCall(log[i])
    ensures OutputDequeues(log) == 0
  {
    if log != [] {
      NoOutputDequeues(log[1..]);
    }
  }

  /**
   * The loop makes at most `interruptAt` passes: it stops at the first loop-top check
   * that sees the interrupt. Every pass that finishes its input half dequeues one output
   * slot, so a run that ends normally without output EOS made exactly `interruptAt`
   * passes, a run that saw output EOS ended normally, and a run ended by an exception
   * in an input half started that last pass before the interrupt was seen.
   */
  lemma LoopExit(env: Env)
    ensures var r := Decode(env);
      && OutputDequeues(r.events) <= env.interruptAt
      && (r.exit == Completed && !r.state.sawOutputEOS ==> OutputDequeues(r.events) == env.interruptAt)
      && (r.state.sawOutputEOS ==> r.exit == Completed)
      && (r.exit != Completed ==> |r.events| > 0)
      && (r.exit != Completed && IsInputCall(r.events[|r.events| - 1]) ==>
            OutputDequeues(r.events) < env.interruptAt)
  {
    RunFromExit(Initial, env, 0);
    RunFromThrowExit(Initial, env, 0);
  }

  // ---------------------------------------------------------------------------
  // One iteration

  /**
   * No input slot (negative index) or a null input buffer: the stream is not read, nothing
   * is queued and the state is unchanged.
   */
  lemma NoInputSlotKeepsState(s: PumpState, env: Env, k: nat)
    requires Fits(s, env) && !s.sawInputEOS
    requires env.dequeueInput(k).InputSlot?
    requires env.dequeueInput(k).index < 0 || !env.dequeueInput(k).hasBuffer
    ensures InputStep(s, env, k) == Outcome(s, [DequeueInput(DEQUEUE_TIMEOUT_US, env.dequeueInput(k))], Completed)
  {
  }

  /**
   * TRY_AGAIN_LATER, OUTPUT_FORMAT_CHANGED, OUTPUT_BUFFERS_CHANGED (or any other negative
   * code): nothing is released or paced and the state is unchanged; only a format change
   * asks for the new output format.
   */
  lemma NoOutputSlotKeepsState(s: PumpState, env: Env, k: nat)
    requires env.dequeueOutput(k).OutputSlot? && env.dequeueOutput(k).index < 0
    ensures var r := OutputStep(s, env, k);
      && r.state == s && r.exit == Completed
      && r.events == [DequeueOutput(DEQUEUE_TIMEOUT_US, env.dequeueOutput(k))] +
                     (if env.dequeueOutput(k).index == INFO_OUTPUT_FORMAT_CHANGED then [GetOutputFormat] else [])
  {
  }

  /**
   * A read of n bytes queues one input buffer of size n at offset 0, with timestamp
   * computePresentationTime(frameCount) and no flags, holding the next n stream bytes;
   * then frameCount is incremented (as a Java int).
   */
  lemma ChunkQueued(s: PumpState, env: Env, k: nat, n: ChunkLength)
    requires Fits(s, env) && !s.sawInputEOS
    requires env.dequeueInput(k).InputSlot? && env.dequeueInput(k).index >= 0 && env.dequeueInput(k).hasBuffer
    requires ReadStream(env.stream, s.streamPos, env.read(k)) == Bytes(n)
    ensures s.streamPos + n <= |env.stream|
    ensures InputStep(s, env, k) ==
      Outcome(s.(frameCount := Wrap32(s.frameCount + 1), streamPos := s.streamPos + n),
              [DequeueInput(DEQUEUE_TIMEOUT_US, env.dequeueInput(k)),
               Read(Bytes(n)),
               QueueInput(env.dequeueInput(k).index, 0, n, PresentationTime(s.frameCount), 0,
                          env.stream[s.streamPos..s.streamPos + n])],
              Completed)
  {
  }

  /**
   * A read that returns -1 queues one empty input buffer with timestamp 0 and the EOS
   * flag and sets sawInputEOS; from then on the input half makes no call at all.
   */
  lemma EosQueued(s: PumpState, env: Env, k: nat, k': nat)
    requires Fits(s, env) && !s.sawInputEOS
    requires env.dequeueInput(k).InputSlot? && env.dequeueInput(k).index >= 0 && env.dequeueInput(k).hasBuffer
    requires ReadStream(env.stream, s.streamPos, env.read(k)) == EndOfStream
    ensures var r := InputStep(s, env, k);
      && r == Outcome(s.(sawInputEOS := true),
                      [DequeueInput(DEQUEUE_TIMEOUT_US, env.dequeueInput(k)),
                       Read(EndOfStream),
                       QueueInput(env.dequeueInput(k).index, 0, 0, 0, BUFFER_FLAG_END_OF_STREAM, [])],
                      Completed)
      && InputStep(r.state, env, k') == Outcome(r.state, [], Completed)
  {
  }

  /**
   * sawOutputEOS is set only by a real output slot (index >= 0) whose flags carry
   * BUFFER_FLAG_END_OF_STREAM, and that slot is still released for rendering.
   */
  lemma OutputEosOnlyFromFlag(s: PumpState, env: Env, k: nat)
    requires !s.sawOutputEOS && OutputStep(s, env, k).state.sawOutputEOS
    ensures var reply := env.dequeueOutput(k);
      && reply.OutputSlot? && reply.index >= 0
      && reply.info.flags & BUFFER_FLAG_END_OF_STREAM != 0
      && OutputStep(s, env, k).events[1] == ReleaseOutput(reply.index, true)
  {
  }
}
