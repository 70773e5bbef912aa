/** What the calls of the session manager answer, by what can be seen before and after them. */
module SessionAnswers {
  import opened Wrappers
  import opened CaptureSpec
  import opened SessionSpec
  import opened SessionProofs
  import opened SessionTheorems
  import opened SessionTable

  // Why a recording that does not let go does not: a realtime one because the facade no longer streams,
  // otherwise because the driver raised.
  function Refusal(c: Facade): Error
  {
    if c.recorder.active.None? && c.state != STREAMING then AudioError else Crashed
  }

  // A batch begin that has to cancel what is going on, and cannot.
  predicate Blocked(s: State, source: Source, policy: QueuePolicy, closeFails: bool)
  {
    && source == BATCH && policy == CANCEL && (s.recording.Some? || s.processing.Some?)
    && !LetsGo(s.capture, closeFails)
  }

  // ---------- begin ----------

  // What a new session's begin answers, by the row it leaves and by whether it records.
  predicate Created(s: State, t: State, a: Answer)
  {
    && s.nextId in t.store
    && (t.recording == Some(s.nextId) <==> a == Began(s.nextId))
    && (t.store[s.nextId] == FAILED <==> a == Raised(AudioError))
    && (t.store[s.nextId] == RECORDING_STATUS && t.recording != Some(s.nextId) <==> a == Raised(Crashed))
    && (a == Began(s.nextId) || a == Raised(AudioError) || a == Raised(Crashed))
  }

  lemma BatchAnswers(s: State, open: OpenResult)
    requires Inv(s)
    ensures var r := BeginBatch(s, open); Created(s, r.0, r.1) && r.0.pending == s.pending
  {
  }

  lemma RealtimeAnswers(s: State, open: OpenResult)
    requires Inv(s)
    ensures var r := BeginRealtime(s, open); Created(s, r.0, r.1) && r.0.pending == s.pending
  {
  }

  // The answers of a begin, given the states before and after it.
  ghost predicate BeginSays(s: State, source: Source, policy: QueuePolicy, closeFails: bool, t: State, a: Answer)
  {
    var busy := s.recording.Some? || s.processing.Some?;
    var blocked := Blocked(s, source, policy, closeFails);
    && (forall x :: a == Began(x) <==> x == s.nextId && t.recording == Some(x))
    && (a == Raised(Queued) <==> t.pending == s.pending + [s.nextTicket])
    && (a == Raised(Busy) <==> source == BATCH && policy == IGNORE && busy)
    && (a == Raised(NotImplemented) <==> source == REMOTE)
    && (a == Raised(AudioError) <==> StatusOf(t, s.nextId) == Some(FAILED) || (blocked && Refusal(s.capture) == AudioError))
    && (a == Raised(Crashed) <==>
          || (StatusOf(t, s.nextId) == Some(RECORDING_STATUS) && t.recording != Some(s.nextId))
          || (blocked && Refusal(s.capture) == Crashed))
    && a != Done && a != Raised(NotFound) && a != Raised(StateError)
  }

  lemma CancelCurrentAnswers(s: State, closeFails: bool)
    requires Inv(s)
    ensures var c := CancelCurrentSessions(s, closeFails);
            && c.1 == (if LetsGo(s.capture, closeFails) then Done else Raised(Refusal(s.capture)))
            && c.0.pending == s.pending
  {
    if s.recording.Some? {
      CancelRecordingAnswers(s, s.recording.value, closeFails);
      CancelRecordingIff(s, s.recording.value, closeFails);
    }
  }

  lemma CancelRecordingAnswers(s: State, id: Id, closeFails: bool)
    requires Inv(s) && s.recording == Some(id)
    ensures CancelSession(s, id, closeFails).1 == if LetsGo(s.capture, closeFails) then Done else Raised(Refusal(s.capture))
  {
    var h := s.sessions[id].handle.value;
    if h.BatchHandle? {
      HolderReleasesBatch(s.capture, h, closeFails, false);
    } else {
      HolderReleasesStream(s.capture, h, closeFails);
    }
  }

  // A replacement, from the state in which what was going on is gone.
  lemma ReplaceAnswers(s: State, open: OpenResult, closeFails: bool)
    requires Inv(s) && (s.recording.Some? || s.processing.Some?)
    ensures var b := Begin(s, BATCH, CANCEL, open, closeFails);
            && (LetsGo(s.capture, closeFails) ==> Created(s, b.0, b.1) && b.0.pending == s.pending)
            && (!LetsGo(s.capture, closeFails) ==>
                  b.1 == Raised(Refusal(s.capture)) && b.0 == s.(capture := b.0.capture))
  {
    var c := CancelCurrentSessions(s, closeFails);
    ReplacingAnswers(s, open, closeFails);
    CancelCurrentAnswers(s, closeFails);
    CancelCurrentIff(s, closeFails);
    if LetsGo(s.capture, closeFails) {
      CancelCurrentKeeps(s, closeFails);
      BatchAnswers(c.0, open);
    }
  }

  lemma ReplacingAnswers(s: State, open: OpenResult, closeFails: bool)
    requires s.recording.Some? || s.processing.Some?
    ensures var c := CancelCurrentSessions(s, closeFails);
            Begin(s, BATCH, CANCEL, open, closeFails) == if c.1.Raised? then c else BeginBatch(c.0, open)
  {
  }

  lemma CreatedSays(s: State, source: Source, policy: QueuePolicy, closeFails: bool, t: State, a: Answer)
    requires Inv(s) && Created(s, t, a) && t.pending == s.pending && source != REMOTE
    requires !Blocked(s, source, policy, closeFails)
    requires !(source == BATCH && policy == IGNORE && (s.recording.Some? || s.processing.Some?))
    ensures BeginSays(s, source, policy, closeFails, t, a)
  {
    assert t.pending != s.pending + [s.nextTicket] by {
      assert |t.pending| == |s.pending|;
    }
  }

  // Nothing was created, and nothing is newly recording.
  lemma RefusedSays(s: State, source: Source, policy: QueuePolicy, closeFails: bool, t: State, a: Answer)
    requires Inv(s) && t.store == s.store && t.recording == s.recording
    requires if a == Raised(Queued) then t.pending == s.pending + [s.nextTicket] else t.pending == s.pending
    requires a.Raised? && a.error !in {NotFound, StateError}
    requires a == Raised(Busy) <==> source == BATCH && policy == IGNORE && (s.recording.Some? || s.processing.Some?)
    requires a == Raised(NotImplemented) <==> source == REMOTE
    requires if Blocked(s, source, policy, closeFails) then a == Raised(Refusal(s.capture)) else a != Raised(AudioError) && a != Raised(Crashed)
    ensures BeginSays(s, source, policy, closeFails, t, a)
  {
    assert s.nextId !in s.store && s.recording != Some(s.nextId);
    if a != Raised(Queued) {
      assert |t.pending| != |s.pending + [s.nextTicket]|;
    }
  }

  /** What `begin` answers.  The id of a session exactly if that is the new session and it records; that it
      was queued exactly if one ticket joined the queue; that it is busy exactly under the ignore policy with
      something going on; an audio error exactly if the new session failed, or the realtime recording it had
      to cancel is on a facade that no longer streams; a crash of the driver otherwise. */
  lemma BeginAnswers(s: State, source: Source, policy: QueuePolicy, open: OpenResult, closeFails: bool)
    requires Inv(s)
    ensures var b := Begin(s, source, policy, open, closeFails); BeginSays(s, source, policy, closeFails, b.0, b.1)
  {
    var b := Begin(s, source, policy, open, closeFails);
    match source
    case REMOTE => RefusedSays(s, source, policy, closeFails, b.0, b.1);
    case REALTIME =>
      RealtimeAnswers(s, open);
      CreatedSays(s, source, policy, closeFails, b.0, b.1);
    case BATCH => BatchBeginAnswers(s, policy, open, closeFails);
  }

  lemma BatchBeginAnswers(s: State, policy: QueuePolicy, open: OpenResult, closeFails: bool)
    requires Inv(s)
    ensures var b := Begin(s, BATCH, policy, open, closeFails); BeginSays(s, BATCH, policy, closeFails, b.0, b.1)
  {
    var b := Begin(s, BATCH, policy, open, closeFails);
    match ResolveBeginAction(policy, s.recording.Some?, s.processing.Some?)
    case Refuse => RefusedSays(s, BATCH, policy, closeFails, b.0, b.1);
    case Enqueue => RefusedSays(s, BATCH, policy, closeFails, b.0, b.1);
    case Accept =>
      BatchAnswers(s, open);
      CreatedSays(s, BATCH, policy, closeFails, b.0, b.1);
    case CancelCurrent =>
      ReplaceAnswers(s, open, closeFails);
      if LetsGo(s.capture, closeFails) {
        CreatedSays(s, BATCH, policy, closeFails, b.0, b.1);
      } else {
        RefusedSays(s, BATCH, policy, closeFails, b.0, b.1);
      }
  }

  // ---------- stop, cancel, submit_remote, close ----------

  /** What `stop` answers: done exactly if the recording is now done or with a worker, and each error by its
      cause. */
  lemma StopAnswers(s: State, id: Id, closeFails: bool, resampleFails: bool)
    requires Inv(s)
    ensures var (t, a) := Stop(s, id, closeFails, resampleFails);
            var refused := s.recording == Some(id) && !LetsGo(s.capture, closeFails);
            && (a == Done <==> s.recording == Some(id) && StatusOf(t, id) in {Some(DONE), Some(PROCESSING)})
            && (a == Raised(NotFound) <==> id !in s.sessions)
            && (a == Raised(StateError) <==> id in s.sessions && s.recording != Some(id))
            && (a == Raised(AudioError) <==>
                  || (s.recording == Some(id) && StatusOf(t, id) == Some(FAILED))
                  || (refused && Refusal(s.capture) == AudioError))
            && (a == Raised(Crashed) <==> refused && Refusal(s.capture) == Crashed)
            && !a.Began? && a != Raised(Busy) && a != Raised(Queued) && a != Raised(NotImplemented)
  {
    StopTable(s, id, closeFails, resampleFails, id);
    if s.recording == Some(id) {
      StopRecordingAnswers(s, id, closeFails, resampleFails);
      assert StatusOf(s, id) == Some(RECORDING_STATUS);
    } else if id in s.sessions {
      assert s.sessions[id].source != REMOTE;
    }
  }

  lemma StopRecordingAnswers(s: State, id: Id, closeFails: bool, resampleFails: bool)
    requires Inv(s) && s.recording == Some(id)
    ensures Stop(s, id, closeFails, resampleFails).1 ==
            match Stopped(s.capture, closeFails, resampleFails)
            case None => Raised(Refusal(s.capture))
            case Some(end) => if end == FAILED then Raised(AudioError) else Done
  {
    var h := s.sessions[id].handle.value;
    if h.BatchHandle? {
      HolderReleasesBatch(s.capture, h, closeFails, resampleFails);
    } else {
      HolderReleasesStream(s.capture, h, closeFails);
    }
  }

  /** What `cancel` answers: done exactly if the session is stored as canceled afterwards, whoever canceled
      it, and each error by its cause. */
  lemma CancelAnswers(s: State, id: Id, closeFails: bool)
    requires Inv(s)
    ensures var (t, a) := CancelSession(s, id, closeFails);
            var refused := s.recording == Some(id) && !LetsGo(s.capture, closeFails);
            && (a == Done <==> StatusOf(t, id) == Some(CANCELED))
            && (a == Raised(NotFound) <==> id !in s.store)
            && (a == Raised(StateError) <==>
                  && id in s.store && s.store[id] != CANCELED && s.recording != Some(id)
                  && !(s.processing == Some(id) && id in s.sessions))
            && (a == Raised(AudioError) <==> refused && Refusal(s.capture) == AudioError)
            && (a == Raised(Crashed) <==> refused && Refusal(s.capture) == Crashed)
            && !a.Began? && a != Raised(Busy) && a != Raised(Queued) && a != Raised(NotImplemented)
  {
    if s.recording == Some(id) {
      CancelRecordingAnswers(s, id, closeFails);
      CancelRecordingIff(s, id, closeFails);
      assert StatusOf(s, id) == Some(RECORDING_STATUS);
    }
  }

  /** `submit_remote` answers the one id that is new in the store, and its worker is about to begin. */
  lemma SubmitAnswers(s: State, x: Id)
    requires Inv(s)
    ensures var (t, a) := SubmitRemote(s);
            && (a == Began(x) <==> x !in s.store && x in t.store)
            && a.Began? && a.id in t.workers && a.id !in s.workers && t.workers[a.id] == Starting
            && t.store[a.id] == PROCESSING
  {
    assert s.nextId !in s.store;
  }

  /** `close` raises exactly if the recording does not let go; only then do queued begins keep waiting. */
  lemma CloseAnswers(s: State, closeFails: bool)
    requires Inv(s)
    ensures var (t, a) := Close(s, closeFails);
            && a == (if LetsGo(s.capture, closeFails) then Done else Raised(Refusal(s.capture)))
            && t.pending == (if a == Done then [] else s.pending)
  {
    MarkKeeps(s);
    MarkOnlyMarks(s);
    var m := MarkProcessing(s);
    if s.recording.Some? {
      CancelRecordingAnswers(m, s.recording.value, closeFails);
      CancelRecordingIff(m, s.recording.value, closeFails);
    }
  }

  /** The id a begin answers is the one `stop` takes: stopped next, with a driver that lets go, the session
      goes to a worker, or is done if it was realtime. */
  lemma BegunIsStopped(s: State, source: Source, policy: QueuePolicy, open: OpenResult, closeFails: bool)
    requires Inv(s) && Begin(s, source, policy, open, closeFails).1.Began?
    ensures var (t, a) := Begin(s, source, policy, open, closeFails);
            var (u, b) := Stop(t, a.id, false, false);
            b == Done && StatusOf(u, a.id) == Some(if source == REALTIME then DONE else PROCESSING)
  {
    var t, a := Begin(s, source, policy, open, closeFails).0, Begin(s, source, policy, open, closeFails).1;
    BeginAnswers(s, source, policy, open, closeFails);
    assert a == Began(a.id);
    StepKeeps(s, BeginCall(source, policy, open, closeFails));
    BegunRecords(s, source, policy, open, closeFails);
    StopTable(t, a.id, false, false, a.id);
    StopAnswers(t, a.id, false, false);
  }

  lemma BatchRecords(s: State, open: OpenResult)
    ensures BeginBatch(s, open).1.Began? ==> BeginBatch(s, open).0.capture.recorder.active.Some?
  {
  }

  lemma RealtimeRecords(s: State, open: OpenResult)
    requires Inv(s)
    ensures BeginRealtime(s, open).1.Began? ==>
              var c := BeginRealtime(s, open).0.capture; c.state == STREAMING && c.recorder.active.None? && c.stream.Some?
  {
  }

  lemma BegunRecords(s: State, source: Source, policy: QueuePolicy, open: OpenResult, closeFails: bool)
    requires Inv(s) && Begin(s, source, policy, open, closeFails).1.Began?
    ensures var c := Begin(s, source, policy, open, closeFails).0.capture;
            if source == REALTIME then c.state == STREAMING && c.recorder.active.None? && c.stream.Some?
            else c.recorder.active.Some?
  {
    match source
    case REMOTE =>
    case REALTIME => RealtimeRecords(s, open);
    case BATCH => BatchBegunRecords(s, policy, open, closeFails);
  }

  lemma BatchBegunRecords(s: State, policy: QueuePolicy, open: OpenResult, closeFails: bool)
    requires Begin(s, BATCH, policy, open, closeFails).1.Began?
    ensures Begin(s, BATCH, policy, open, closeFails).0.capture.recorder.active.Some?
  {
    match ResolveBeginAction(policy, s.recording.Some?, s.processing.Some?)
    case Refuse =>
    case Enqueue =>
    case Accept => BatchRecords(s, open);
    case CancelCurrent =>
      ReplacingAnswers(s, open, closeFails);
      BatchRecords(CancelCurrentSessions(s, closeFails).0, open);
  }
}
