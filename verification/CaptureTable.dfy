/** What every call of the microphone facade leaves behind, by what could be seen before it. */
module CaptureTable {
  import opened Wrappers
  import opened CaptureSpec

  /** Starting a batch recording: who is told what, the state afterwards, and that each number is given out
      once, whether or not the driver then starts. */
  lemma BatchStartTable(c: Facade, open: OpenResult)
    requires FacadeInv(c)
    ensures var (d, r) := StartBatch(c, open);
            && (r == AudioFailure <==> c.state != IDLE || open == Unavailable || open == OpenFailed)
            && (r == Crash <==> c.state == IDLE && open == OpenCrashed)
            && (r.Ok? ==> r.value == c.recorder.nextHandleId && d.recorder.active == Some(Recording(r.value, true)))
            && d.state == (if r.Ok? then RECORDING else if c.state == IDLE && r == AudioFailure then ERROR else c.state)
            && d.recorder.nextHandleId == c.recorder.nextHandleId + (if c.state == IDLE && open != Unavailable then 1 else 0)
            && d.stream == c.stream && d.streamHandle == c.streamHandle
  {
  }

  /** Starting a stream: a failed start leaves a stream object behind and the facade idle. */
  lemma StreamStartTable(c: Facade, open: OpenResult)
    requires FacadeInv(c)
    ensures var (d, r) := StartStream(c, open);
            && (r == AudioFailure <==> c.state != IDLE || open == Unavailable || open == OpenFailed)
            && (r == Crash <==> c.state == IDLE && open == OpenCrashed)
            && (r.Ok? ==> r.value == 1 && d.streamHandle == Some(1))
            && d.state == (if r.Ok? then STREAMING else c.state)
            && d.stream == (if c.state == IDLE then Some(Streamer(r.Ok?)) else c.stream)
            && d.recorder == c.recorder
  {
  }

  /** Ending a batch recording with its own handle: idle afterwards; in the error state if the audio cannot be
      made of it; and where the driver refuses, as before, with the driver's stream given up. */
  lemma BatchEndTable(c: Facade, n: nat, closeFails: bool, resampleFails: bool)
    requires FacadeInv(c) && Holder(c) == Some(BatchHandle(n))
    ensures var (d, r) := StopBatch(c, BatchHandle(n), closeFails, resampleFails);
            && (r == Crash <==> closeFails && c.recorder.active.value.streamOpen)
            && d.state == (if r == Crash then c.state else if resampleFails then ERROR else IDLE)
            && d.recorder == c.recorder.(active := if r == Crash then Some(Recording(n, false)) else None)
    ensures var (d, r) := CancelBatch(c, BatchHandle(n), closeFails);
            && (r == Crash <==> closeFails && c.recorder.active.value.streamOpen)
            && d.state == (if r == Crash then c.state else IDLE)
            && d.recorder == c.recorder.(active := if r == Crash then Some(Recording(n, false)) else None)
  {
    assert c.recorder.active.value.handleId == n;
  }

  /** Any other handle is refused without a change of who holds the microphone; but stopping with another
      batch handle puts a recording facade into the error state. */
  lemma ForeignHandles(c: Facade, h: Handle, closeFails: bool, resampleFails: bool)
    requires FacadeInv(c) && Holder(c) != Some(h)
    ensures var (d, r) := StopBatch(c, h, closeFails, resampleFails);
            && r == (if h.StreamHandle? && c.recorder.active.Some? then Crash else AudioFailure)
            && Holder(d) == Holder(c) && d.state == if c.state == RECORDING && h.BatchHandle? then ERROR else c.state
    ensures var (d, r) := CancelBatch(c, h, closeFails);
            r == (if h.StreamHandle? && c.recorder.active.Some? then Crash else AudioFailure) && d == c
    ensures var (d, r) := StopStream(c, h, closeFails); r == AudioFailure && d == c
  {
  }

  /** Ending a stream: idle afterwards, or as before with the driver's stream given up. */
  lemma StreamEndTable(c: Facade, n: nat, closeFails: bool)
    requires FacadeInv(c) && Holder(c) == Some(StreamHandle(n)) && c.state == STREAMING
    ensures var (d, r) := StopStream(c, StreamHandle(n), closeFails);
            && (r == Crash <==> closeFails && c.stream.value.streamOpen)
            && d.state == (if r == Crash then STREAMING else IDLE)
            && d.stream == (if r == Crash then Some(Streamer(false)) else None)
            && d.recorder == c.recorder
  {
  }

  /** The reports of the driver: an error puts the facade into the error state whatever it does; an over-long
      recording only loses its driver stream. */
  lemma ReportTable(c: Facade)
    ensures DeviceError(c) == Facade(ERROR, c.recorder, c.stream, c.streamHandle)
    ensures Holder(TimeUp(c)) == Holder(c) && TimeUp(c).state == c.state && TimeUp(c).stream == c.stream
    ensures TimeUp(c).recorder.active.Some? ==> !TimeUp(c).recorder.active.value.streamOpen
  {
  }
}
