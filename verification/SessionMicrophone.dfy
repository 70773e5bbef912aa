/** The microphone after every event of the session protocol: whose it is, on which path, and the state its
    facade is in. */
module SessionMicrophone {
  import opened Wrappers
  import opened CaptureSpec
  import opened CaptureTable
  import opened SessionSpec
  import opened SessionProofs
  import opened SessionTheorems
  import opened SessionTable

  datatype Microphone = Microphone(holder: Option<Handle>, state: CaptureState)

  function MicrophoneOf(c: Facade): Microphone { Microphone(Holder(c), c.state) }

  // After an attempt to start a batch or a realtime recording on a microphone; `next` is the batch recorder's
  // next number.  Only a refused batch start leaves the facade in its error state.
  function AfterOpening(m: Microphone, source: Source, open: OpenResult, next: nat): Microphone
  {
    if m.state != IDLE then m
    else if open == Opened then
      if source == BATCH then Microphone(Some(BatchHandle(next)), RECORDING) else Microphone(Some(StreamHandle(1)), STREAMING)
    else if source == BATCH && open != OpenCrashed then Microphone(m.holder, ERROR)
    else m
  }

  // After the recording, if any, was told to let go; a batch recording may then not yield its audio.
  function LetGo(c: Facade, closeFails: bool, resampleFails: bool): Microphone
  {
    if Holder(c) == None || !LetsGo(c, closeFails) then MicrophoneOf(c)
    else Microphone(None, if c.recorder.active.Some? && resampleFails then ERROR else IDLE)
  }

  function NextMicrophone(s: State, e: Event): Microphone
  {
    var m, next := MicrophoneOf(s.capture), s.capture.recorder.nextHandleId;
    match e
    case BeginCall(source, policy, open, closeFails) =>
      if !Creates(s, source, policy, closeFails) then m
      else AfterOpening(if Replaces(s, source, policy, closeFails) then LetGo(s.capture, closeFails, false) else m, source, open, next)
    case StopCall(x, closeFails, resampleFails) =>
      if s.recording == Some(x) then LetGo(s.capture, closeFails, resampleFails) else m
    case CancelCall(x, closeFails) => if s.recording == Some(x) then LetGo(s.capture, closeFails, false) else m
    case CloseCall(closeFails) => LetGo(s.capture, closeFails, false)
    case FinallyStep(_, open) => if Drains(s, e) then AfterOpening(m, BATCH, open, next) else m
    case DeviceErrorReport => Microphone(m.holder, ERROR)
    case _ => m
  }

  lemma BatchOpens(s: State, open: OpenResult)
    requires Inv(s)
    ensures MicrophoneOf(BeginBatch(s, open).0.capture)
            == AfterOpening(MicrophoneOf(s.capture), BATCH, open, s.capture.recorder.nextHandleId)
  {
    BatchStartTable(s.capture, open);
    StartTakesFreeMicrophone(s.capture, open);
    assert BeginBatch(s, open).0.capture == StartBatch(s.capture, open).0;
  }

  lemma RealtimeOpens(s: State, open: OpenResult, next: nat)
    requires Inv(s)
    ensures MicrophoneOf(BeginRealtime(s, open).0.capture) == AfterOpening(MicrophoneOf(s.capture), REALTIME, open, next)
  {
    StreamStartTable(s.capture, open);
    StartTakesFreeMicrophone(s.capture, open);
    assert BeginRealtime(s, open).0.capture == StartStream(s.capture, open).0;
  }

  lemma RecordingHolds(s: State, x: Id)
    requires Inv(s) && s.recording == Some(x)
    ensures x in s.sessions && s.sessions[x].handle.Some?
    ensures var rt, h := s.sessions[x], s.sessions[x].handle.value;
            && Holder(s.capture) == Some(h) && rt.source == (if h.BatchHandle? then BATCH else REALTIME)
            && (h.BatchHandle? <==> s.capture.recorder.active.Some?)
  {
  }

  lemma CancelReleases(s: State, x: Id, closeFails: bool)
    requires Inv(s) && s.recording == Some(x)
    ensures MicrophoneOf(CancelSession(s, x, closeFails).0.capture) == LetGo(s.capture, closeFails, false)
    ensures CancelSession(s, x, closeFails).0.capture.recorder.nextHandleId == s.capture.recorder.nextHandleId
  {
    RecordingHolds(s, x);
    var h := s.sessions[x].handle.value;
    assert CancelSession(s, x, closeFails).0.capture == Release(s, s.sessions[x], closeFails).0;
    if h.BatchHandle? {
      BatchEndTable(s.capture, h.handleId, closeFails, false);
    } else {
      HolderReleasesStream(s.capture, h, closeFails);
    }
  }

  lemma StopReleases(s: State, x: Id, closeFails: bool, resampleFails: bool)
    requires Inv(s) && s.recording == Some(x)
    ensures MicrophoneOf(Stop(s, x, closeFails, resampleFails).0.capture) == LetGo(s.capture, closeFails, resampleFails)
  {
    RecordingHolds(s, x);
    var h := s.sessions[x].handle.value;
    if h.BatchHandle? {
      BatchEndTable(s.capture, h.handleId, closeFails, resampleFails);
      assert Stop(s, x, closeFails, resampleFails).0.capture == StopBatch(s.capture, h, closeFails, resampleFails).0;
    } else {
      HolderReleasesStream(s.capture, h, closeFails);
      assert Stop(s, x, closeFails, resampleFails).0.capture == StopStream(s.capture, h, closeFails).0;
    }
  }

  lemma ReplaceOpens(s: State, open: OpenResult, closeFails: bool)
    requires Inv(s) && (s.recording.Some? || s.processing.Some?)
    ensures MicrophoneOf(Begin(s, BATCH, CANCEL, open, closeFails).0.capture)
            == NextMicrophone(s, BeginCall(BATCH, CANCEL, open, closeFails))
  {
    Replacing(s, open, closeFails);
    CancelCurrentIff(s, closeFails);
    CancelCurrentReleases(s, closeFails);
    if LetsGo(s.capture, closeFails) {
      FreedOpens(s, open, closeFails);
    }
  }

  lemma FreedOpens(s: State, open: OpenResult, closeFails: bool)
    requires Inv(s) && LetsGo(s.capture, closeFails)
    ensures MicrophoneOf(BeginBatch(CancelCurrentSessions(s, closeFails).0, open).0.capture)
            == AfterOpening(LetGo(s.capture, closeFails, false), BATCH, open, s.capture.recorder.nextHandleId)
  {
    CancelCurrentKeeps(s, closeFails);
    CancelCurrentReleases(s, closeFails);
    BatchOpens(CancelCurrentSessions(s, closeFails).0, open);
  }

  lemma CancelCurrentReleases(s: State, closeFails: bool)
    requires Inv(s)
    ensures var c := CancelCurrentSessions(s, closeFails).0.capture;
            MicrophoneOf(c) == LetGo(s.capture, closeFails, false) && c.recorder.nextHandleId == s.capture.recorder.nextHandleId
  {
    if s.recording.Some? {
      CancelReleases(s, s.recording.value, closeFails);
      CancelRecordingIff(s, s.recording.value, closeFails);
    }
  }

  lemma CloseReleases(s: State, closeFails: bool)
    requires Inv(s)
    ensures MicrophoneOf(Close(s, closeFails).0.capture) == LetGo(s.capture, closeFails, false)
  {
    MarkKeeps(s);
    MarkOnlyMarks(s);
    CloseIs(s, closeFails);
    if s.recording.Some? {
      CancelReleases(MarkProcessing(s), s.recording.value, closeFails);
    }
  }

  lemma FinallyOpens(s: State, x: Id, open: OpenResult)
    requires Inv(s)
    ensures MicrophoneOf(Step(s, FinallyStep(x, open)).capture) == NextMicrophone(s, FinallyStep(x, open))
  {
    if x in s.workers && s.workers[x] == Finishing {
      RetireKeeps(s, x);
      DrainOpens(Retire(s, x), open);
    }
  }

  lemma DrainOpens(t: State, open: OpenResult)
    requires Inv(t)
    ensures MicrophoneOf(Drain(t, open).capture) ==
            if t.recording.None? && t.processing.None? && t.pending != []
            then AfterOpening(MicrophoneOf(t.capture), BATCH, open, t.capture.recorder.nextHandleId) else MicrophoneOf(t.capture)
  {
    if t.recording.None? && t.processing.None? && t.pending != [] {
      var u := t.(pending := t.pending[1..], drained := t.drained + [t.pending[0]]);
      assert Issued(u) == Issued(t);
      BatchOpens(u, open);
    }
  }

  lemma BeginOpens(s: State, e: Event)
    requires Inv(s) && e.BeginCall?
    ensures MicrophoneOf(Step(s, e).capture) == NextMicrophone(s, e)
  {
    match e.source
    case REMOTE =>
    case REALTIME => RealtimeOpens(s, e.open, s.capture.recorder.nextHandleId);
    case BATCH =>
      if ResolveBeginAction(e.policy, s.recording.Some?, s.processing.Some?) == CancelCurrent {
        ReplaceOpens(s, e.open, e.closeFails);
      } else {
        BatchOpens(s, e.open);
      }
  }

  lemma StopOpensNone(s: State, x: Id, closeFails: bool, resampleFails: bool)
    requires Inv(s)
    ensures MicrophoneOf(Stop(s, x, closeFails, resampleFails).0.capture) == NextMicrophone(s, StopCall(x, closeFails, resampleFails))
  {
    StopIs(s, x, closeFails, resampleFails);
    if s.recording == Some(x) {
      StopReleases(s, x, closeFails, resampleFails);
    }
  }

  lemma CancelOpensNone(s: State, x: Id, closeFails: bool)
    requires Inv(s)
    ensures MicrophoneOf(CancelSession(s, x, closeFails).0.capture) == NextMicrophone(s, CancelCall(x, closeFails))
  {
    if s.recording == Some(x) {
      CancelReleases(s, x, closeFails);
    }
  }

  lemma OthersOpenNone(s: State, e: Event)
    requires e.SubmitRemoteCall? || e.CheckStep? || e.ReturnStep? || e.PublishStep? || e.DeviceErrorReport? || e.TimeUpReport?
    ensures MicrophoneOf(Step(s, e).capture) == NextMicrophone(s, e)
  {
  }

  /** The microphone is handed out by a begin, at once or from the queue, with its own path and number; given
      back by stop, cancel, close and replacement, if it lets go; and by nothing else. */
  lemma MicrophoneTable(s: State, e: Event)
    requires Inv(s)
    ensures MicrophoneOf(Step(s, e).capture) == NextMicrophone(s, e)
  {
    match e
    case BeginCall(_, _, _, _) => BeginOpens(s, e);
    case StopCall(x, closeFails, resampleFails) => StopOpensNone(s, x, closeFails, resampleFails);
    case CancelCall(x, closeFails) => CancelOpensNone(s, x, closeFails);
    case CloseCall(closeFails) => CloseReleases(s, closeFails);
    case FinallyStep(x, open) => FinallyOpens(s, x, open);
    case _ => OthersOpenNone(s, e);
  }
}
