/** The life of a session as a table: what every event makes of the stored status of every session and of
    the recording, said by what can be seen before the event. */
module SessionTable {
  import opened Wrappers
  import opened CaptureSpec
  import opened SessionSpec
  import opened SessionProofs
  import opened SessionTheorems

  function StatusOf(s: State, id: Id): Option<Status>
  {
    if id in s.store then Some(s.store[id]) else None
  }

  // Whether the recording, if there is one, can be canceled: its driver stream lets go, and a realtime
  // one is still streaming.
  predicate LetsGo(c: Facade, closeFails: bool)
  {
    if c.recorder.active.Some? then !(closeFails && c.recorder.active.value.streamOpen)
    else c.streamHandle.Some? ==> c.state == STREAMING && c.stream.Some? && !(closeFails && c.stream.value.streamOpen)
  }

  // What a new session is stored as, by the state of the facade: a driver that crashes leaves it as
  // recording, although nothing records.
  function BornAs(state: CaptureState, open: OpenResult): Status
  {
    if state == IDLE && (open == Opened || open == OpenCrashed) then RECORDING_STATUS else FAILED
  }

  // The state of the facade once the current recording, if any, has been canceled.
  function Freed(s: State): CaptureState { if s.recording.Some? then IDLE else s.capture.state }

  // A batch begin that cancels what is going on, and gets to begin.
  predicate Replaces(s: State, source: Source, policy: QueuePolicy, closeFails: bool)
  {
    && source == BATCH && policy == CANCEL && (s.recording.Some? || s.processing.Some?)
    && LetsGo(s.capture, closeFails)
  }

  // A begin that creates a session.
  predicate Creates(s: State, source: Source, policy: QueuePolicy, closeFails: bool)
  {
    || source == REALTIME
    || (source == BATCH && s.recording.None? && s.processing.None?)
    || Replaces(s, source, policy, closeFails)
  }

  // A `finally` block that takes a begin from the queue.
  predicate Drains(s: State, e: Event)
  {
    && e.FinallyStep? && e.id in s.workers && s.workers[e.id] == Finishing
    && s.pending != [] && s.recording.None? && (s.processing.None? || s.processing == Some(e.id))
  }

  // The end of a stopped recording.
  function Stopped(c: Facade, closeFails: bool, resampleFails: bool): Option<Status>
  {
    if !LetsGo(c, closeFails) then None
    else if c.recorder.active.None? then Some(DONE)
    else if resampleFails then Some(FAILED)
    else Some(PROCESSING)
  }

  function NextStatus(s: State, e: Event, id: Id): Option<Status>
  {
    match e
    case BeginCall(source, policy, open, closeFails) =>
      if Replaces(s, source, policy, closeFails) && (s.recording == Some(id) || s.processing == Some(id)) then Some(CANCELED)
      else if id == s.nextId && Creates(s, source, policy, closeFails) then
        Some(BornAs(if source == BATCH then Freed(s) else s.capture.state, open))
      else StatusOf(s, id)
    case StopCall(x, closeFails, resampleFails) =>
      if x == id && s.recording == Some(id) && Stopped(s.capture, closeFails, resampleFails).Some? then
        Stopped(s.capture, closeFails, resampleFails)
      else StatusOf(s, id)
    case CancelCall(x, closeFails) =>
      if x == id && s.recording == Some(id) && LetsGo(s.capture, closeFails) then Some(CANCELED)
      else if x == id && s.recording != Some(id) && s.processing == Some(id) && id in s.sessions then Some(CANCELED)
      else StatusOf(s, id)
    case SubmitRemoteCall => if id == s.nextId then Some(PROCESSING) else StatusOf(s, id)
    case CloseCall(closeFails) =>
      if s.recording == Some(id) && LetsGo(s.capture, closeFails) then Some(CANCELED) else StatusOf(s, id)
    case PublishStep(x) =>
      if x == id && id in s.workers && s.workers[id].Returned? && id !in s.canceled && !s.workers[id].outcome.PipelineCanceled? then
        Some(if s.workers[id].outcome == Delivered(false) then DONE else FAILED)
      else StatusOf(s, id)
    case FinallyStep(_, open) => if Drains(s, e) && id == s.nextId then Some(BornAs(s.capture.state, open)) else StatusOf(s, id)
    case _ => StatusOf(s, id)
  }

  function NextRecording(s: State, e: Event): Option<Id>
  {
    match e
    case BeginCall(source, policy, open, closeFails) =>
      var state := if source == BATCH then Freed(s) else s.capture.state;
      if Creates(s, source, policy, closeFails) && state == IDLE && open == Opened then Some(s.nextId)
      else if Replaces(s, source, policy, closeFails) then None
      else s.recording
    case StopCall(x, closeFails, _) => if s.recording == Some(x) && LetsGo(s.capture, closeFails) then None else s.recording
    case CancelCall(x, closeFails) => if s.recording == Some(x) && LetsGo(s.capture, closeFails) then None else s.recording
    case CloseCall(closeFails) => if LetsGo(s.capture, closeFails) then None else s.recording
    case FinallyStep(_, open) => if Drains(s, e) && s.capture.state == IDLE && open == Opened then Some(s.nextId) else s.recording
    case _ => s.recording
  }

  // ---------- the parts ----------

  lemma CancelRecordingIff(s: State, id: Id, closeFails: bool)
    requires Inv(s) && s.recording == Some(id)
    ensures var c := CancelSession(s, id, closeFails);
            if LetsGo(s.capture, closeFails) then
              c.1 == Done && c.0 == EndRecording(s, c.0.capture, id, CANCELED) && c.0.capture.state == IDLE
            else c.1.Raised? && !Swallowed(c.1) && c.0 == s.(capture := c.0.capture)
  {
    var h := s.sessions[id].handle.value;
    if h.BatchHandle? {
      HolderReleasesBatch(s.capture, h, closeFails, false);
    } else {
      HolderReleasesStream(s.capture, h, closeFails);
    }
  }

  lemma CancelCurrentIff(s: State, closeFails: bool)
    requires Inv(s)
    ensures var c := CancelCurrentSessions(s, closeFails);
            if LetsGo(s.capture, closeFails) then
              && c.1 == Done && c.0.recording.None? && c.0.processing.None? && c.0.nextId == s.nextId
              && c.0.capture.state == Freed(s)
            else c.1.Raised? && c.0 == s.(capture := c.0.capture)
  {
    if s.recording.Some? {
      CancelRecordingIff(s, s.recording.value, closeFails);
    }
  }

  lemma CancelCurrentStatus(s: State, closeFails: bool, id: Id)
    requires Inv(s) && LetsGo(s.capture, closeFails)
    ensures StatusOf(CancelCurrentSessions(s, closeFails).0, id) ==
            if s.recording == Some(id) || s.processing == Some(id) then Some(CANCELED) else StatusOf(s, id)
  {
    if s.recording.Some? {
      var c := CancelSession(s, s.recording.value, closeFails);
      CancelRecordingIff(s, s.recording.value, closeFails);
      ProcessingStatus(c.0, id);
      assert CancelCurrentSessions(s, closeFails).0 == CancelProcessing(c.0);
    } else {
      ProcessingStatus(s, id);
    }
  }

  lemma ProcessingStatus(s: State, id: Id)
    ensures StatusOf(CancelProcessing(s), id) == if s.processing == Some(id) then Some(CANCELED) else StatusOf(s, id)
  {
  }

  lemma BeginBatchTable(s: State, open: OpenResult, id: Id)
    requires Inv(s)
    ensures var t := BeginBatch(s, open).0;
            && StatusOf(t, id) == (if id == s.nextId then Some(BornAs(s.capture.state, open)) else StatusOf(s, id))
            && t.recording == (if s.capture.state == IDLE && open == Opened then Some(s.nextId) else s.recording)
  {
  }

  lemma BeginRealtimeTable(s: State, open: OpenResult, id: Id)
    requires Inv(s)
    ensures var t := BeginRealtime(s, open).0;
            && StatusOf(t, id) == (if id == s.nextId then Some(BornAs(s.capture.state, open)) else StatusOf(s, id))
            && t.recording == (if s.capture.state == IDLE && open == Opened then Some(s.nextId) else s.recording)
  {
  }

  // ---------- the events ----------

  predicate Tabled(s: State, e: Event, id: Id, t: State)
  {
    StatusOf(t, id) == NextStatus(s, e, id) && t.recording == NextRecording(s, e)
  }

  lemma BeginTable(s: State, source: Source, policy: QueuePolicy, open: OpenResult, closeFails: bool, id: Id)
    requires Inv(s)
    ensures Tabled(s, BeginCall(source, policy, open, closeFails), id, Begin(s, source, policy, open, closeFails).0)
  {
    match source
    case REMOTE =>
    case REALTIME => BeginRealtimeTable(s, open, id);
    case BATCH => BeginBatchCallTable(s, policy, open, closeFails, id);
  }

  lemma BeginBatchCallTable(s: State, policy: QueuePolicy, open: OpenResult, closeFails: bool, id: Id)
    requires Inv(s)
    ensures Tabled(s, BeginCall(BATCH, policy, open, closeFails), id, Begin(s, BATCH, policy, open, closeFails).0)
  {
    match ResolveBeginAction(policy, s.recording.Some?, s.processing.Some?)
    case Refuse =>
    case Enqueue =>
    case Accept => BeginBatchTable(s, open, id);
    case CancelCurrent => ReplaceTable(s, open, closeFails, id);
  }

  lemma ReplaceTable(s: State, open: OpenResult, closeFails: bool, id: Id)
    requires Inv(s) && (s.recording.Some? || s.processing.Some?)
    ensures var u := Begin(s, BATCH, CANCEL, open, closeFails).0;
            if LetsGo(s.capture, closeFails) then
              && StatusOf(u, id) == (if s.recording == Some(id) || s.processing == Some(id) then Some(CANCELED)
                                     else if id == s.nextId then Some(BornAs(Freed(s), open)) else StatusOf(s, id))
              && u.recording == (if Freed(s) == IDLE && open == Opened then Some(s.nextId) else None)
            else StatusOf(u, id) == StatusOf(s, id) && u.recording == s.recording
  {
    var t := CancelCurrentSessions(s, closeFails).0;
    Replacing(s, open, closeFails);
    CancelCurrentIff(s, closeFails);
    if LetsGo(s.capture, closeFails) {
      CancelCurrentStatus(s, closeFails, id);
      CancelCurrentKeeps(s, closeFails);
      BeginBatchTable(t, open, id);
      assert s.recording == Some(id) || s.processing == Some(id) ==> id != s.nextId;
    }
  }

  // The state after a stop of session `x`, by what becomes of the facade and of the recording.
  function AfterStop(s: State, x: Id, c: Facade, end: Option<Status>): State
  {
    if s.recording != Some(x) then s
    else if end.None? then s.(capture := c)
    else if end == Some(PROCESSING) && x in s.sessions then HandToWorker(s, c, x, s.sessions[x])
    else EndRecording(s, c, x, end.value)
  }

  lemma StopBatchIs(s: State, x: Id, closeFails: bool, resampleFails: bool)
    requires Inv(s) && s.recording == Some(x) && s.sessions[x].source == BATCH
    ensures var t := Stop(s, x, closeFails, resampleFails).0;
            t == AfterStop(s, x, t.capture, Stopped(s.capture, closeFails, resampleFails))
  {
    var h := s.sessions[x].handle.value;
    assert h.BatchHandle? && Holder(s.capture) == Some(h);
    HolderReleasesBatch(s.capture, h, closeFails, resampleFails);
  }

  lemma StopStreamIs(s: State, x: Id, closeFails: bool, resampleFails: bool)
    requires Inv(s) && s.recording == Some(x) && s.sessions[x].source != BATCH
    ensures var t := Stop(s, x, closeFails, resampleFails).0;
            t == AfterStop(s, x, t.capture, Stopped(s.capture, closeFails, resampleFails))
  {
    var h := s.sessions[x].handle.value;
    assert h.StreamHandle? && Holder(s.capture) == Some(h) && s.sessions[x].source == REALTIME;
    HolderReleasesStream(s.capture, h, closeFails);
  }

  lemma StopIs(s: State, x: Id, closeFails: bool, resampleFails: bool)
    requires Inv(s)
    ensures var t := Stop(s, x, closeFails, resampleFails).0;
            t == AfterStop(s, x, t.capture, Stopped(s.capture, closeFails, resampleFails))
  {
    if s.recording == Some(x) {
      if s.sessions[x].source == BATCH {
        StopBatchIs(s, x, closeFails, resampleFails);
      } else {
        StopStreamIs(s, x, closeFails, resampleFails);
      }
    }
  }

  lemma AfterStopTable(s: State, x: Id, c: Facade, end: Option<Status>, id: Id)
    requires Inv(s)
    ensures var t := AfterStop(s, x, c, end);
            && StatusOf(t, id) == (if x == id && s.recording == Some(id) && end.Some? then end else StatusOf(s, id))
            && t.recording == (if s.recording == Some(x) && end.Some? then None else s.recording)
            && t.workers == (if s.recording == Some(x) && end == Some(PROCESSING) then s.workers[x := Starting] else s.workers)
            && t.processing == (if s.recording == Some(x) && end == Some(PROCESSING) then Some(x) else s.processing)
            && t.pending == s.pending && t.canceled == s.canceled
  {
  }

  lemma StopTable(s: State, x: Id, closeFails: bool, resampleFails: bool, id: Id)
    requires Inv(s)
    ensures var t, end := Stop(s, x, closeFails, resampleFails).0, Stopped(s.capture, closeFails, resampleFails);
            && StatusOf(t, id) == (if x == id && s.recording == Some(id) && end.Some? then end else StatusOf(s, id))
            && t.recording == (if s.recording == Some(x) && LetsGo(s.capture, closeFails) then None else s.recording)
            && t.workers == (if s.recording == Some(x) && end == Some(PROCESSING) then s.workers[x := Starting] else s.workers)
            && t.processing == (if s.recording == Some(x) && end == Some(PROCESSING) then Some(x) else s.processing)
            && t.pending == s.pending && t.canceled == s.canceled
  {
    StopIs(s, x, closeFails, resampleFails);
    AfterStopTable(s, x, Stop(s, x, closeFails, resampleFails).0.capture, Stopped(s.capture, closeFails, resampleFails), id);
  }

  lemma CancelTable(s: State, x: Id, closeFails: bool, id: Id)
    requires Inv(s)
    ensures Tabled(s, CancelCall(x, closeFails), id, CancelSession(s, x, closeFails).0)
  {
    if s.recording == Some(x) {
      CancelRecordingIff(s, x, closeFails);
    } else {
      CancelOtherTable(s, x, closeFails, id);
    }
  }

  lemma CancelOtherTable(s: State, x: Id, closeFails: bool, id: Id)
    requires Inv(s) && s.recording != Some(x)
    ensures Tabled(s, CancelCall(x, closeFails), id, CancelSession(s, x, closeFails).0)
  {
  }

  lemma CloseIs(s: State, closeFails: bool)
    ensures var marked := MarkProcessing(s);
            var c := if marked.recording.Some? then CancelSession(marked, marked.recording.value, closeFails) else (marked, Done);
            Close(s, closeFails).0 == if c.1.Raised? && !Swallowed(c.1) then c.0 else c.0.(pending := [])
  {
  }

  lemma MarkOnlyMarks(s: State)
    ensures var m := MarkProcessing(s); m.recording == s.recording && m.capture == s.capture && m.store == s.store
  {
  }

  lemma CloseRecording(s: State, x: Id, closeFails: bool, id: Id)
    requires Inv(s) && s.recording == Some(x)
    ensures var c, lets := CancelSession(s, x, closeFails), LetsGo(s.capture, closeFails);
            && StatusOf(c.0, id) == (if x == id && lets then Some(CANCELED) else StatusOf(s, id))
            && c.0.recording == (if lets then None else s.recording)
  {
    CancelRecordingIff(s, x, closeFails);
  }

  lemma CloseTable(s: State, closeFails: bool, id: Id)
    requires Inv(s)
    ensures var t, lets := Close(s, closeFails).0, LetsGo(s.capture, closeFails);
            && StatusOf(t, id) == (if s.recording == Some(id) && lets then Some(CANCELED) else StatusOf(s, id))
            && t.recording == (if lets then None else s.recording)
  {
    MarkKeeps(s);
    MarkOnlyMarks(s);
    CloseIs(s, closeFails);
    if s.recording.Some? {
      CloseRecording(MarkProcessing(s), s.recording.value, closeFails, id);
    }
  }

  lemma FinallyTable(s: State, x: Id, open: OpenResult, id: Id)
    requires Inv(s) && x in s.workers && s.workers[x] == Finishing
    ensures var u, drains := WorkerFinally(s, x, open), Drains(s, FinallyStep(x, open));
            && StatusOf(u, id) == (if drains && id == s.nextId then Some(BornAs(s.capture.state, open)) else StatusOf(s, id))
            && u.recording == (if drains && s.capture.state == IDLE && open == Opened then Some(s.nextId) else s.recording)
            && (u.drained != s.drained <==> drains)
  {
    RetireKeeps(s, x);
    DrainTable(Retire(s, x), open, id);
  }

  lemma DrainTable(t: State, open: OpenResult, id: Id)
    requires Inv(t)
    ensures var u, idle := Drain(t, open), t.recording.None? && t.processing.None? && t.pending != [];
            && StatusOf(u, id) == (if idle && id == t.nextId then Some(BornAs(t.capture.state, open)) else StatusOf(t, id))
            && u.recording == (if idle && t.capture.state == IDLE && open == Opened then Some(t.nextId) else t.recording)
            && (u.drained != t.drained <==> idle)
  {
    if t.recording.None? && t.processing.None? && t.pending != [] {
      var u := t.(pending := t.pending[1..], drained := t.drained + [t.pending[0]]);
      assert Issued(u) == Issued(t);
      BeginBatchTable(u, open, id);
      BeginBatchReach(u, open);
      assert |u.drained| == |t.drained| + 1;
    }
  }

  lemma OtherTable(s: State, e: Event, id: Id)
    requires e.SubmitRemoteCall? || e.CheckStep? || e.ReturnStep? || e.PublishStep? || e.DeviceErrorReport? || e.TimeUpReport?
    ensures Tabled(s, e, id, Step(s, e))
  {
  }

  /** The table holds: in every state that can arise, for every event and every session. */
  lemma StepTable(s: State, e: Event, id: Id)
    requires Inv(s)
    ensures Tabled(s, e, id, Step(s, e))
  {
    match e
    case BeginCall(source, policy, open, closeFails) => BeginTable(s, source, policy, open, closeFails, id);
    case StopCall(x, closeFails, resampleFails) => StopTable(s, x, closeFails, resampleFails, id);
    case CancelCall(x, closeFails) => CancelTable(s, x, closeFails, id);
    case CloseCall(closeFails) => CloseTable(s, closeFails, id);
    case FinallyStep(x, open) =>
      if x in s.workers && s.workers[x] == Finishing {
        FinallyTable(s, x, open, id);
      }
    case _ => OtherTable(s, e, id);
  }
}
