/** The two stateful capture classes, each method proved to perform its step of `CaptureSpec`. */
module Capture {
  import opened Wrappers
  import opened CaptureSpec

  class BatchCapture {
    var active: Option<Recording>
    var nextHandleId: nat

    function View(): Recorder
      reads this
    {
      Recorder(active, nextHandleId)
    }

    constructor ()
      ensures View() == INITIAL_FACADE.recorder
    {
      active, nextHandleId := None, 1;
    }

    method Start(open: OpenResult) returns (r: Reply<nat>)
      modifies this
      ensures (View(), r) == RecorderStart(old(View()), open)
    {
      if active.Some? {
        return AudioFailure;
      }
      if open == Unavailable {
        return AudioFailure;
      }
      var recording := Recording(nextHandleId, true);
      nextHandleId := nextHandleId + 1;
      if open == OpenFailed {
        return AudioFailure;
      }
      if open == OpenCrashed {
        return Crash;
      }
      active := Some(recording);
      return Ok(recording.handleId);
    }

    method CloseStream(closeFails: bool) returns (crashed: bool)
      requires active.Some?
      modifies this`active
      ensures active == Some(old(active).value.(streamOpen := false))
      ensures crashed == (old(active).value.streamOpen && closeFails)
    {
      crashed := active.value.streamOpen && closeFails;
      active := Some(active.value.(streamOpen := false));
    }

    method Stop(h: Handle, closeFails: bool, resampleFails: bool) returns (r: Reply<()>)
      modifies this
      ensures (View(), r) == RecorderStop(old(View()), h, closeFails, resampleFails)
    {
      match RequireHandle(View(), h) {
        case AudioFailure => return AudioFailure;
        case Crash => return Crash;
        case Ok(_) =>
          var crashed := CloseStream(closeFails);
          if crashed {
            return Crash;
          }
          active := None;
          return if resampleFails then AudioFailure else Ok(());
      }
    }

    method Cancel(h: Handle, closeFails: bool) returns (r: Reply<()>)
      modifies this
      ensures (View(), r) == RecorderCancel(old(View()), h, closeFails)
    {
      match RequireHandle(View(), h) {
        case AudioFailure => return AudioFailure;
        case Crash => return Crash;
        case Ok(_) =>
          var crashed := CloseStream(closeFails);
          if crashed {
            return Crash;
          }
          active := None;
          return Ok(());
      }
    }

    method TimeUp()
      modifies this`active
      ensures View() == RecorderTimeUp(old(View()))
    {
      if active.Some? {
        var _ := CloseStream(false);
      }
    }
  }

  class AudioCapture {
    const batch: BatchCapture
    var state: CaptureState
    var stream: Option<Streamer>
    var streamHandle: Option<nat>

    function View(): Facade
      reads this, batch
    {
      Facade(state, batch.View(), stream, streamHandle)
    }

    constructor ()
      ensures View() == INITIAL_FACADE && fresh(batch)
    {
      batch := new BatchCapture();
      state, stream, streamHandle := IDLE, None, None;
    }

    method StartBatch(open: OpenResult) returns (r: Reply<nat>)
      modifies this, batch
      ensures (View(), r) == CaptureSpec.StartBatch(old(View()), open)
    {
      if state == ERROR {
        return AudioFailure;
      }
      if state != IDLE {
        return AudioFailure;
      }
      r := batch.Start(open);
      if r == AudioFailure {
        state := ERROR;
      }
      if r.Ok? {
        state := RECORDING;
      }
    }

    method StopBatch(h: Handle, closeFails: bool, resampleFails: bool) returns (r: Reply<()>)
      modifies this, batch
      ensures (View(), r) == CaptureSpec.StopBatch(old(View()), h, closeFails, resampleFails)
    {
      if state == ERROR && batch.active.Some? {
        r := batch.Stop(h, closeFails, resampleFails);
        if r.Ok? {
          state := IDLE;
        }
        return;
      }
      if state != RECORDING {
        return AudioFailure;
      }
      r := batch.Stop(h, closeFails, resampleFails);
      match r {
        case AudioFailure => state := ERROR;
        case Crash =>
        case Ok(_) => state := IDLE;
      }
    }

    method Cancel(h: Handle, closeFails: bool) returns (r: Reply<()>)
      modifies this, batch
      ensures (View(), r) == CancelBatch(old(View()), h, closeFails)
    {
      if state == ERROR && batch.active.Some? {
        r := batch.Cancel(h, closeFails);
        if r.Ok? {
          state := IDLE;
        }
        return;
      }
      if state != RECORDING && state != STREAMING {
        return AudioFailure;
      }
      r := batch.Cancel(h, closeFails);
      if r.Ok? {
        state := IDLE;
      }
    }

    method StartStream(open: OpenResult) returns (r: Reply<nat>)
      modifies this
      ensures (View(), r) == CaptureSpec.StartStream(old(View()), open)
    {
      if state == ERROR {
        return AudioFailure;
      }
      if state != IDLE {
        return AudioFailure;
      }
      stream := Some(Streamer(open == Opened));
      if open == OpenCrashed {
        return Crash;
      }
      if open != Opened {
        return AudioFailure;
      }
      streamHandle := Some(FIRST_STREAM_ID);
      state := STREAMING;
      return Ok(FIRST_STREAM_ID);
    }

    method StopStream(h: Handle, closeFails: bool) returns (r: Reply<()>)
      modifies this
      ensures (View(), r) == CaptureSpec.StopStream(old(View()), h, closeFails)
    {
      if state != STREAMING {
        return AudioFailure;
      }
      if stream.None? || streamHandle.None? {
        return AudioFailure;
      }
      if h != StreamHandle(streamHandle.value) {
        return AudioFailure;
      }
      var crashed := stream.value.streamOpen && closeFails;
      stream := Some(Streamer(false));
      if crashed {
        assert old(stream.value.streamOpen);
        return Crash;
      }
      stream, streamHandle, state := None, None, IDLE;
      return Ok(());
    }

    method ForwardError(overLong: bool)
      modifies this
      ensures View() == if overLong then old(View()) else DeviceError(old(View()))
    {
      if overLong {
        return;
      }
      state := ERROR;
    }
  }
}
