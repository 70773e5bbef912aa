/** The microphone facade `AudioCapture` and the push-to-talk recorder `BatchCapture` beneath it.

    The sound driver is an oracle: opening a stream and stopping one may each fail, and a
    device error may be reported at any moment.  A failure is an `AudioFailure` when the
    program raises a subclass of `AudioError` and a `Crash` for every other exception. */
module CaptureSpec {
  import opened Wrappers

  datatype Reply<+T> = Ok(value: T) | AudioFailure | Crash

  datatype OpenResult =
    | Opened            // the driver stream runs
    | Unavailable       // no device: refused before a handle number is spent
    | OpenFailed        // the driver refuses the stream with a PortAudioError
    | OpenCrashed       // the driver raises anything else

  datatype Handle = BatchHandle(handleId: nat) | StreamHandle(streamId: nat)

  // `streamOpen` is whether the recording still owns a driver stream that has to be stopped.
  datatype Recording = Recording(handleId: nat, streamOpen: bool)
  datatype Recorder = Recorder(active: Option<Recording>, nextHandleId: nat)

  datatype Streamer = Streamer(streamOpen: bool)
  datatype CaptureState = IDLE | RECORDING | STREAMING | ERROR
  datatype Facade = Facade(
    state: CaptureState,
    recorder: Recorder,
    stream: Option<Streamer>,
    streamHandle: Option<nat>)

  // A `StreamCapture` is created afresh for every start and numbers its first stream 1.
  const FIRST_STREAM_ID: nat := 1

  // ---------- BatchCapture ----------

  function RecorderStart(b: Recorder, open: OpenResult): (Recorder, Reply<nat>)
  {
    if b.active.Some? then (b, AudioFailure)
    else match open
      case Unavailable => (b, AudioFailure)
      case OpenFailed => (b.(nextHandleId := b.nextHandleId + 1), AudioFailure)
      case OpenCrashed => (b.(nextHandleId := b.nextHandleId + 1), Crash)
      case Opened =>
        (Recorder(Some(Recording(b.nextHandleId, true)), b.nextHandleId + 1), Ok(b.nextHandleId))
  }

  // `_require_handle`: Ok when `h` names the active recording.
  function RequireHandle(b: Recorder, h: Handle): Reply<Recording>
  {
    match b.active
    case None => AudioFailure
    case Some(r) =>
      match h
      case BatchHandle(n) => if n == r.handleId then Ok(r) else AudioFailure
      case StreamHandle(_) => Crash
  }

  // Stopping a driver stream may raise, but the stream is given up either way, so the
  // recording stays active without one and a second attempt succeeds.
  function RecorderStop(b: Recorder, h: Handle, closeFails: bool, resampleFails: bool): (Recorder, Reply<()>)
  {
    match RequireHandle(b, h)
    case AudioFailure => (b, AudioFailure)
    case Crash => (b, Crash)
    case Ok(r) =>
      if r.streamOpen && closeFails then (b.(active := Some(r.(streamOpen := false))), Crash)
      else (b.(active := None), if resampleFails then AudioFailure else Ok(()))
  }

  function RecorderCancel(b: Recorder, h: Handle, closeFails: bool): (Recorder, Reply<()>)
  {
    RecorderStop(b, h, closeFails, false)
  }

  // The driver callback closes the stream of a recording that has run past its limit.
  function RecorderTimeUp(b: Recorder): Recorder
  {
    match b.active
    case None => b
    case Some(r) => b.(active := Some(r.(streamOpen := false)))
  }

  // ---------- AudioCapture ----------

  function StartBatch(c: Facade, open: OpenResult): (Facade, Reply<nat>)
  {
    if c.state != IDLE then (c, AudioFailure)
    else
      var (b, r) := RecorderStart(c.recorder, open);
      var next := match r case Ok(_) => RECORDING case AudioFailure => ERROR case Crash => IDLE;
      (c.(recorder := b, state := next), r)
  }

  function StopBatch(c: Facade, h: Handle, closeFails: bool, resampleFails: bool): (Facade, Reply<()>)
  {
    if c.state == ERROR && c.recorder.active.Some? then
      var (b, r) := RecorderStop(c.recorder, h, closeFails, resampleFails);
      (c.(recorder := b, state := if r.Ok? then IDLE else ERROR), r)
    else if c.state != RECORDING then (c, AudioFailure)
    else
      var (b, r) := RecorderStop(c.recorder, h, closeFails, resampleFails);
      var next := match r case Ok(_) => IDLE case AudioFailure => ERROR case Crash => RECORDING;
      (c.(recorder := b, state := next), r)
  }

  function CancelBatch(c: Facade, h: Handle, closeFails: bool): (Facade, Reply<()>)
  {
    if (c.state == ERROR && c.recorder.active.Some?) || c.state == RECORDING || c.state == STREAMING then
      var (b, r) := RecorderCancel(c.recorder, h, closeFails);
      (c.(recorder := b, state := if r.Ok? then IDLE else c.state), r)
    else (c, AudioFailure)
  }

  function StartStream(c: Facade, open: OpenResult): (Facade, Reply<nat>)
  {
    if c.state != IDLE then (c, AudioFailure)
    else match open
      case Opened =>
        (c.(stream := Some(Streamer(true)), streamHandle := Some(FIRST_STREAM_ID), state := STREAMING),
         Ok(FIRST_STREAM_ID))
      case OpenCrashed => (c.(stream := Some(Streamer(false))), Crash)
      case _ => (c.(stream := Some(Streamer(false))), AudioFailure)
  }

  function StopStream(c: Facade, h: Handle, closeFails: bool): (Facade, Reply<()>)
  {
    if c.state != STREAMING || c.stream.None? || c.streamHandle.None? then (c, AudioFailure)
    else if h != StreamHandle(c.streamHandle.value) then (c, AudioFailure)
    else if c.stream.value.streamOpen && closeFails then (c.(stream := Some(Streamer(false))), Crash)
    else (c.(stream := None, streamHandle := None, state := IDLE), Ok(()))
  }

  // `_forward_error` for anything but an over-long recording.
  function DeviceError(c: Facade): Facade { c.(state := ERROR) }

  // An over-long recording is reported but leaves the facade's own state alone.
  function TimeUp(c: Facade): Facade { c.(recorder := RecorderTimeUp(c.recorder)) }

  // ---------- what every call keeps ----------

  // The microphone holder: at most one of the two capture paths owns it.
  function Holder(c: Facade): Option<Handle>
  {
    if c.recorder.active.Some? then Some(BatchHandle(c.recorder.active.value.handleId))
    else if c.streamHandle.Some? then Some(StreamHandle(c.streamHandle.value))
    else None
  }

  predicate FacadeInv(c: Facade)
  {
    && !(c.recorder.active.Some? && c.streamHandle.Some?)
    && (c.state == IDLE ==> Holder(c) == None)
    && (c.state == RECORDING ==> c.recorder.active.Some?)
    && (c.state == STREAMING ==> c.streamHandle.Some?)
    && (c.streamHandle.Some? ==> c.stream.Some?)
    && (c.recorder.active.Some? ==> c.recorder.active.value.handleId < c.recorder.nextHandleId)
  }

  const INITIAL_FACADE := Facade(IDLE, Recorder(None, 1), None, None)

  /** A start succeeds only on a free microphone, and then its handle is the holder. */
  lemma StartTakesFreeMicrophone(c: Facade, open: OpenResult)
    requires FacadeInv(c)
    ensures FacadeInv(StartBatch(c, open).0) && FacadeInv(StartStream(c, open).0)
    ensures StartBatch(c, open).1.Ok? <==> c.state == IDLE && open == Opened
    ensures StartStream(c, open).1.Ok? <==> c.state == IDLE && open == Opened
    ensures StartBatch(c, open).1.Ok? ==>
              Holder(c) == None && Holder(StartBatch(c, open).0) == Some(BatchHandle(StartBatch(c, open).1.value))
    ensures StartStream(c, open).1.Ok? ==>
              Holder(c) == None && Holder(StartStream(c, open).0) == Some(StreamHandle(StartStream(c, open).1.value))
    ensures !StartBatch(c, open).1.Ok? ==> Holder(StartBatch(c, open).0) == Holder(c)
    ensures !StartStream(c, open).1.Ok? ==> Holder(StartStream(c, open).0) == Holder(c)
  {
  }

  /** Given the batch holder's handle, stop and cancel are refused by the driver only, and then keep
      the holder; in every other case the microphone is free afterwards, even if resampling fails. */
  lemma HolderReleasesBatch(c: Facade, h: Handle, closeFails: bool, resampleFails: bool)
    requires FacadeInv(c) && h.BatchHandle? && Holder(c) == Some(h)
    ensures FacadeInv(StopBatch(c, h, closeFails, resampleFails).0) && FacadeInv(CancelBatch(c, h, closeFails).0)
    ensures var (d, r) := StopBatch(c, h, closeFails, resampleFails);
            var refused := closeFails && c.recorder.active.value.streamOpen;
            && Holder(d) == (if refused then Some(h) else None)
            && r == (if refused then Crash else if resampleFails then AudioFailure else Ok(()))
    ensures var (d, r) := CancelBatch(c, h, closeFails);
            var refused := closeFails && c.recorder.active.value.streamOpen;
            && Holder(d) == (if refused then Some(h) else None)
            && r == (if refused then Crash else Ok(()))
  {
  }

  /** A stream can be stopped only while the facade is still streaming: after a device error
      its own handle is refused and the microphone stays taken. */
  lemma HolderReleasesStream(c: Facade, h: Handle, closeFails: bool)
    requires FacadeInv(c) && h.StreamHandle? && Holder(c) == Some(h)
    ensures FacadeInv(StopStream(c, h, closeFails).0)
    ensures var (d, r) := StopStream(c, h, closeFails);
            && r == (if c.state != STREAMING then AudioFailure
                     else if closeFails && c.stream.value.streamOpen then Crash else Ok(()))
            && Holder(d) == (if r.Ok? then None else Some(h))
            && (c.state != STREAMING ==> d == c)
  {
  }
}
