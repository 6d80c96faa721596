/**
 * The lifecycle glue of the player activity: the nullable fields `mMediaCodec`,
 * `mDecoderThread` and `mDecoderSurface`, and the procedures that create, start, stop and
 * release what they point to. The codec and the thread are reduced to the state these
 * procedures touch; calls that can throw take the outcome as a parameter, and ghost
 * counters record how often each codec and thread call is made.
 */
module Lifecycle {

  /** The Surface the SurfaceHolder hands out; the glue only stores and passes it on. */
  class Surface {
    constructor ()
    {
    }
  }

  /** A MediaCodec decoder as the glue sees it: created configured and started, later stopped and released. */
  class Codec {
    /** The output surface the codec was configured with. */
    const surface: Surface?
    var started: bool
    var released: bool
    ghost var stopCalls: nat
    ghost var releaseCalls: nat

    /** createDecoderByType, configure(format, surface, null, 0) and start(). */
    constructor (surface: Surface?)
      ensures this.surface == surface
      ensures started && !released
      ensures stopCalls == 0 && releaseCalls == 0
    {
      this.surface := surface;
      started, released := true, false;
      stopCalls, releaseCalls := 0, 0;
    }

    /** stop(); `fails` says whether the call throws, in which case the codec is left as it was. */
    method Stop(fails: bool)
      modifies this
      ensures stopCalls == old(stopCalls) + 1 && releaseCalls == old(releaseCalls)
      ensures started == (old(started) && fails) && released == old(released)
    {
      stopCalls := stopCalls + 1;
      if !fails {
        started := false;
      }
    }

    /** release(). */
    method Release()
      modifies this
      ensures releaseCalls == old(releaseCalls) + 1 && stopCalls == old(stopCalls)
      ensures !started && released
    {
      releaseCalls := releaseCalls + 1;
      started, released := false, true;
    }
  }

  /** The decoder thread, bound at construction to the codec it drives. */
  class DecoderThread {
    const codec: Codec
    var started: bool
    var alive: bool
    var interrupted: bool
    ghost var interruptCalls: nat
    ghost var joinCalls: nat

    constructor (codec: Codec)
      ensures this.codec == codec
      ensures !started && !alive && !interrupted
      ensures interruptCalls == 0 && joinCalls == 0
    {
      this.codec := codec;
      started, alive, interrupted := false, false, false;
      interruptCalls, joinCalls := 0, 0;
    }

    /** Thread.start(): a thread may be started once. */
    method Start()
      requires !started
      modifies this
      ensures started && alive && interrupted == old(interrupted)
      ensures interruptCalls == old(interruptCalls) && joinCalls == old(joinCalls)
    {
      started, alive := true, true;
    }

    /**
     * Thread.interrupt(): sets the flag the decode loop checks at its top; the thread
     * stays alive until it reaches that check.
     */
    method Interrupt()
      modifies this
      ensures interrupted && interruptCalls == old(interruptCalls) + 1
      ensures started == old(started) && alive == old(alive) && joinCalls == old(joinCalls)
    {
      interrupted := true;
      interruptCalls := interruptCalls + 1;
    }

    /**
     * Thread.join(millis): waits at most `millis` milliseconds; `exitsInTime` says whether
     * the thread finished within that time.
     */
    method Join(millis: int, exitsInTime: bool)
      modifies this
      ensures alive == (old(alive) && !exitsInTime)
      ensures joinCalls == old(joinCalls) + 1
      ensures started == old(started) && interrupted == old(interrupted) && interruptCalls == old(interruptCalls)
    {
      joinCalls := joinCalls + 1;
      if exitsInTime {
        alive := false;
      }
    }
  }

  /** The activity's decoder fields. */
  class Player {
    var codec: Codec?
    var decoderThread: DecoderThread?
    var decoderSurface: Surface?

    /** A new activity: all three fields are null. */
    constructor ()
      ensures codec == null && decoderThread == null && decoderSurface == null
    {
      codec, decoderThread, decoderSurface := null, null, null;
    }

    /**
     * initMediaCodec: a new decoder configured with the current surface and started; when
     * creating the decoder fails with an IOException the field is null instead. A codec
     * the field held before is neither stopped nor released.
     */
    method InitMediaCodec(createSucceeds: bool)
      modifies this
      ensures createSucceeds ==> codec != null && fresh(codec) && codec.surface == decoderSurface
                                 && codec.started && !codec.released
                                 && codec.stopCalls == 0 && codec.releaseCalls == 0
      ensures !createSucceeds ==> codec == null
      ensures decoderThread == old(decoderThread) && decoderSurface == old(decoderSurface)
    {
      if createSucceeds {
        codec := new Codec(decoderSurface);
      } else {
        codec := null;
      }
    }

    /**
     * startDecoding: without a codec or a surface nothing happens. Otherwise a previous
     * thread that is still alive is interrupted (not joined), and a new thread bound to the
     * current codec is started and stored.
     */
    method StartDecoding()
      modifies this, decoderThread
      ensures old(codec) == null || old(decoderSurface) == null ==>
                unchanged(this) && (old(decoderThread) != null ==> unchanged(old(decoderThread)))
      ensures old(codec) != null && old(decoderSurface) != null ==>
                && decoderThread != null && fresh(decoderThread)
                && decoderThread.codec == codec
                && decoderThread.started && decoderThread.alive && !decoderThread.interrupted
                && decoderThread.interruptCalls == 0 && decoderThread.joinCalls == 0
                && (old(decoderThread) != null ==>
                      var t := old(decoderThread);
                      && t.alive == old(t.alive) && t.started == old(t.started) && t.joinCalls == old(t.joinCalls)
                      && t.interruptCalls == old(t.interruptCalls) + (if old(t.alive) then 1 else 0)
                      && t.interrupted == (old(t.interrupted) || old(t.alive)))
      ensures codec == old(codec) && decoderSurface == old(decoderSurface)
    {
      if codec == null || decoderSurface == null {
        return;
      }
      if decoderThread != null && decoderThread.alive {
        decoderThread.Interrupt();
      }
      var t := new DecoderThread(codec);
      t.Start();
      decoderThread := t;
    }

    /**
     * releaseMediaCodec: interrupt the thread (without waiting for it) and drop it; stop
     * the codec, release it unless stop threw, and drop it. Both fields end null, and with
     * both already null nothing happens at all.
     */
    method ReleaseMediaCodec(stopFails: bool)
      modifies this, decoderThread, codec
      ensures decoderThread == null && codec == null && decoderSurface == old(decoderSurface)
      ensures old(decoderThread) != null ==>
                var t := old(decoderThread);
                && t.interrupted && t.interruptCalls == old(t.interruptCalls) + 1
                && t.alive == old(t.alive) && t.started == old(t.started) && t.joinCalls == old(t.joinCalls)
      ensures old(codec) != null ==>
                var c := old(codec);
                && c.stopCalls == old(c.stopCalls) + 1
                && c.releaseCalls == old(c.releaseCalls) + (if stopFails then 0 else 1)
                && (!stopFails ==> c.released && !c.started)
                && (stopFails ==> c.started == old(c.started) && c.released == old(c.released))
      ensures old(decoderThread) == null && old(codec) == null ==> unchanged(this)
    {
      if decoderThread != null {
        decoderThread.Interrupt();
        decoderThread := null;
      }
      if codec != null {
        codec.Stop(stopFails);
        if !stopFails {
          codec.Release();
        }
        codec := null;
      }
    }

    /**
     * stopDecoding: as releaseMediaCodec, but the interrupted thread is joined for at most
     * 1000 ms before it is dropped.
     */
    method StopDecoding(stopFails: bool, threadExitsInTime: bool)
      modifies this, decoderThread, codec
      ensures decoderThread == null && codec == null && decoderSurface == old(decoderSurface)
      ensures old(decoderThread) != null ==>
                var t := old(decoderThread);
                && t.interrupted && t.interruptCalls == old(t.interruptCalls) + 1
                && t.joinCalls == old(t.joinCalls) + 1
                && t.alive == (old(t.alive) && !threadExitsInTime) && t.started == old(t.started)
      ensures old(codec) != null ==>
                var c := old(codec);
                && c.stopCalls == old(c.stopCalls) + 1
                && c.releaseCalls == old(c.releaseCalls) + (if stopFails then 0 else 1)
                && (!stopFails ==> c.released && !c.started)
                && (stopFails ==> c.started == old(c.started) && c.released == old(c.released))
      ensures old(decoderThread) == null && old(codec) == null ==> unchanged(this)
    {
      if decoderThread != null {
        decoderThread.Interrupt();
        decoderThread.Join(1000, threadExitsInTime);
        decoderThread := null;
      }
      if codec != null {
        codec.Stop(stopFails);
        if !stopFails {
          codec.Release();
        }
        codec := null;
      }
    }

    /**
     * surfaceCreated: store the surface, create the codec, start decoding. A previous
     * thread still alive is interrupted when the new one starts; when the codec cannot be
     * created no thread is started and the previous one is left alone.
     */
    method SurfaceCreated(surface: Surface, createSucceeds: bool)
      modifies this, decoderThread
      ensures decoderSurface == surface
      ensures createSucceeds ==> codec != null && fresh(codec) && codec.surface == surface
                                 && codec.started && !codec.released
                                 && codec.stopCalls == 0 && codec.releaseCalls == 0
                                 && decoderThread != null && fresh(decoderThread) && decoderThread.codec == codec
                                 && decoderThread.started && decoderThread.alive && !decoderThread.interrupted
                                 && decoderThread.interruptCalls == 0 && decoderThread.joinCalls == 0
      ensures createSucceeds && old(decoderThread) != null ==>
                var t := old(decoderThread);
                && t.alive == old(t.alive) && t.started == old(t.started) && t.joinCalls == old(t.joinCalls)
                && t.interruptCalls == old(t.interruptCalls) + (if old(t.alive) then 1 else 0)
                && t.interrupted == (old(t.interrupted) || old(t.alive))
      ensures !createSucceeds ==> codec == null && decoderThread == old(decoderThread)
      ensures !createSucceeds && old(decoderThread) != null ==> unchanged(old(decoderThread))
    {
      decoderSurface := surface;
      InitMediaCodec(createSucceeds);
      StartDecoding();
    }

    /** surfaceDestroyed: release the codec and the thread, then forget the surface. */
    method SurfaceDestroyed(stopFails: bool)
      modifies this, decoderThread, codec
      ensures codec == null && decoderThread == null && decoderSurface == null
      ensures old(codec) != null ==>
                var c := old(codec);
                && c.stopCalls == old(c.stopCalls) + 1
                && c.releaseCalls == old(c.releaseCalls) + (if stopFails then 0 else 1)
                && (!stopFails ==> c.released && !c.started)
                && (stopFails ==> c.started == old(c.started) && c.released == old(c.released))
      ensures old(decoderThread) != null ==>
                var t := old(decoderThread);
                && t.interrupted && t.interruptCalls == old(t.interruptCalls) + 1
                && t.alive == old(t.alive) && t.started == old(t.started) && t.joinCalls == old(t.joinCalls)
    {
      ReleaseMediaCodec(stopFails);
      decoderSurface := null;
    }
  }

  /**
   * Stopping twice (onPause and then onDestroy, say): the codec is stopped once and,
   * unless that stop threw, released once; the thread is interrupted and joined once, and
   * the second call changes nothing.
   */
  method StopTwice(p: Player, stopFails: bool, exitsFirst: bool, exitsSecond: bool)
    modifies p, p.decoderThread, p.codec
    ensures p.codec == null && p.decoderThread == null
    ensures old(p.codec) != null ==>
              old(p.codec).stopCalls == old(p.codec.stopCalls) + 1
              && old(p.codec).releaseCalls == old(p.codec.releaseCalls) + (if stopFails then 0 else 1)
    ensures old(p.decoderThread) != null ==>
              old(p.decoderThread).interruptCalls == old(p.decoderThread.interruptCalls) + 1
              && old(p.decoderThread).joinCalls == old(p.decoderThread.joinCalls) + 1
  {
    p.StopDecoding(stopFails, exitsFirst);
    p.StopDecoding(stopFails, exitsSecond);
  }

  /**
   * A full surface cycle on a new activity: once the surface exists and the decoder is
   * created, a thread drives the new codec; destroying the surface leaves the thread
   * interrupted and the codec stopped and released exactly once, while the thread may
   * still be alive.
   */
  method SurfaceCycle(surface: Surface)
  {
    var p := new Player();
    p.SurfaceCreated(surface, true);
    var c, t := p.codec, p.decoderThread;
    assert t.codec == c && t.alive && c.surface == surface;
    p.SurfaceDestroyed(false);
    assert c.stopCalls == 1 && c.releaseCalls == 1 && c.released;
    assert t.interrupted && t.interruptCalls == 1;
    // releaseMediaCodec does not wait for the thread: it may still be running on the stopped codec.
    assert t.alive && t.codec == c && !c.started;
    assert p.codec == null && p.decoderThread == null && p.decoderSurface == null;
  }

  /**
   * When stop() throws on surface destruction, release() is skipped but the field is
   * still cleared: the codec is dropped while started and is never released.
   */
  method StopThrowsDropsCodec(surface: Surface)
  {
    var p := new Player();
    p.SurfaceCreated(surface, true);
    var c := p.codec;
    p.SurfaceDestroyed(true);
    assert p.codec == null && c.started && !c.released && c.releaseCalls == 0;
  }
}
