/**
 * `DecoderThread.run`: the decode loop inside try/catch(IOException)/finally, where the
 * finally block closes the H.265 stream whatever way the loop ended.
 */
module DecoderThreadRun {
  import opened DecodePump

  /** How the thread's `run` ends: it returns, or an unchecked exception escapes it. */
  datatype ThreadEnd = RunReturned | UncaughtException

  ghost predicate NoClose(log: seq<Event>)
  {
    forall i :: 0 <= i < |log| ==> log[i] != CloseStream
  }

  lemma IterationNoClose(s: PumpState, env: Env, k: nat)
    requires Fits(s, env)
    ensures NoClose(Iteration(s, env, k).events)
  {
    var i := InputStep(s, env, k);
    if i.exit == Completed {
      var o := OutputStep(i.state, env, k);
      assert NoClose(i.events) && NoClose(o.events);
      assert Iteration(s, env, k).events == i.events + o.events;
    }
  }

  lemma {:induction false} RunFromNoClose(s: PumpState, env: Env, k: nat)
    requires Fits(s, env)
    ensures NoClose(RunFrom(s, env, k).events)
    decreases env.interruptAt - k
  {
    if !(s.sawOutputEOS || env.interruptAt <= k) {
      var it := Iteration(s, env, k);
      IterationNoClose(s, env, k);
      if it.exit == Completed {
        RunFromNoClose(it.state, env, k + 1);
        assert RunFrom(s, env, k).events == it.events + RunFrom(it.state, env, k + 1).events;
      }
    }
  }

  /**
   * `run`: decodes, lets an IOException be caught and logged, and closes the stream in
   * `finally`: the close is the last call of the thread and happens exactly once, on a
   * normal exit, after an IOException and when a codec exception escapes alike.
   */
  method RunDecoderThread(env: Env) returns (end: ThreadEnd, log: seq<Event>)
    ensures log == Decode(env).events + [CloseStream]
    ensures end == UncaughtException <==> Decode(env).exit == CodecFailure
    ensures forall i :: 0 <= i < |log| ==> (log[i] == CloseStream <==> i == |log| - 1)
  {
    var exit, frames, decodeLog := DecodeH265Stream(env);
    RunFromNoClose(Initial, env, 0);
    // catch (IOException): logged only; finally: close the stream
    log := decodeLog + [CloseStream];
    end := if exit == CodecFailure then UncaughtException else RunReturned;
  }
}
