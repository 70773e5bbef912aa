/** What the invariant gives for whole runs of the session protocol. */
module SessionTheorems {
  import opened Wrappers
  import opened CaptureSpec
  import opened SessionSpec
  import opened SessionProofs

  // ---------- how far one step reaches ----------

  predicate SameQueue(s: State, t: State)
  {
    t.pending == s.pending && t.drained == s.drained && t.nextTicket == s.nextTicket
  }

  // A begin may append a ticket, `close` may clear the queue, and only a finishing worker may drain it.
  predicate QueueMove(s: State, e: Event, t: State)
  {
    || SameQueue(s, t)
    || (&& e.BeginCall? && t.drained == s.drained
        && t.pending == s.pending + [s.nextTicket] && t.nextTicket == s.nextTicket + 1)
    || (e.CloseCall? && t.drained == s.drained && t.pending == [] && t.nextTicket == s.nextTicket)
    || (&& e.FinallyStep? && s.pending != [] && s.recording.None? && (s.processing.None? || s.processing == Some(e.id))
        && t.drained == s.drained + [s.pending[0]] && t.pending == s.pending[1..] && t.nextTicket == s.nextTicket)
  }

  // No session is forgotten, the recording session ends or is a new one, only a recording session
  // gets a worker, and only a publishing worker's session is published.
  predicate Reach(s: State, e: Event, t: State)
  {
    && s.store.Keys <= t.store.Keys
    && (t.recording == s.recording || t.recording.None? || t.recording.value >= s.nextId)
    && (forall id :: id in t.workers && id in s.store ==>
          || (id in s.workers && (s.workers[id] == Finishing ==> t.workers[id] == Finishing))
          || s.recording == Some(id))
    && (|| t.injected == s.injected
        || (&& e.PublishStep? && e.id in s.workers && s.workers[e.id].Returned?
            && t.injected == s.injected + [e.id]
            && t.recording == s.recording && t.workers == s.workers[e.id := Finishing]))
    && (s.recording.Some? && t.recording.Some? && t.recording != s.recording ==>
          && e.BeginCall? && e.source == BATCH && e.policy == CANCEL
          && s.recording.value in t.store && t.store[s.recording.value] == CANCELED)
    && QueueMove(s, e, t)
  }

  lemma {:induction false} CancelReach(s: State, id: Id, closeFails: bool)
    requires Inv(s)
    ensures var (t, a) := CancelSession(s, id, closeFails);
            && Reach(s, CancelCall(id, closeFails), t) && SameQueue(s, t) && t.nextId == s.nextId
            && t.workers == s.workers && t.injected == s.injected
            && (s.recording == Some(id) ==>
                  if a.Raised? then t.recording == s.recording && !Swallowed(a)
                  else t.recording.None? && id in t.store && t.store[id] == CANCELED)
  {
    if id in s.sessions && s.recording == Some(id) {
      CancelRecordingReach(s, id, closeFails);
    } else if id in s.sessions && s.processing == Some(id) {
      CancelProcessingReach(s, id, closeFails);
    } else {
      StayReach(s, CancelCall(id, closeFails));
    }
  }

  lemma CancelRecordingReach(s: State, id: Id, closeFails: bool)
    requires Inv(s) && id in s.sessions && s.recording == Some(id)
    ensures var (t, a) := CancelSession(s, id, closeFails);
            && Reach(s, CancelCall(id, closeFails), t) && SameQueue(s, t) && t.nextId == s.nextId
            && t.workers == s.workers && t.injected == s.injected
            && if a.Raised? then t.recording == s.recording && !Swallowed(a)
               else t.recording.None? && id in t.store && t.store[id] == CANCELED
  {
    ReleaseEnds(s, id, closeFails);
  }

  lemma CancelProcessingReach(s: State, id: Id, closeFails: bool)
    requires Inv(s) && s.processing == Some(id) && s.recording != Some(id)
    ensures var t := CancelProcessing(s);
            && Reach(s, CancelCall(id, closeFails), t) && SameQueue(s, t) && t.nextId == s.nextId
            && t.workers == s.workers && t.injected == s.injected && t.recording == s.recording
  {
  }

  lemma StayReach(s: State, e: Event)
    ensures Reach(s, e, s)
  {
  }

  lemma {:induction false} CancelCurrentReach(s: State, closeFails: bool)
    requires Inv(s)
    ensures var (t, a) := CancelCurrentSessions(s, closeFails);
            && Inv(t) && SameQueue(s, t) && t.nextId == s.nextId && s.store.Keys <= t.store.Keys
            && t.workers == s.workers && t.injected == s.injected
            && (if a.Raised? then t.recording == s.recording
                else t.recording.None? && (s.recording.Some? ==>
                       s.recording.value in t.store && t.store[s.recording.value] == CANCELED))
  {
    CancelCurrentKeeps(s, closeFails);
    if s.recording.Some? {
      CancelReach(s, s.recording.value, closeFails);
    }
  }

  lemma BeginBatchReach(s: State, open: OpenResult)
    requires Inv(s)
    ensures var t := BeginBatch(s, open).0;
            && SameQueue(s, t) && t.workers == s.workers && t.injected == s.injected
            && s.store.Keys <= t.store.Keys && (forall id :: id in s.store ==> t.store[id] == s.store[id])
            && (t.recording == s.recording || (s.recording.None? && t.recording == Some(s.nextId)))
  {
    StartTakesFreeMicrophone(s.capture, open);
  }

  lemma {:induction false} BeginReach(s: State, source: Source, policy: QueuePolicy, open: OpenResult, closeFails: bool)
    requires Inv(s)
    ensures Reach(s, BeginCall(source, policy, open, closeFails), Begin(s, source, policy, open, closeFails).0)
    ensures Begin(s, source, policy, open, closeFails).0.workers == s.workers
  {
    match source
    case REMOTE =>
    case REALTIME => BeginRealtimeReach(s, policy, open, closeFails);
    case BATCH => BeginBatchCallReach(s, policy, open, closeFails);
  }

  lemma BeginRealtimeReach(s: State, policy: QueuePolicy, open: OpenResult, closeFails: bool)
    requires Inv(s)
    ensures var t := BeginRealtime(s, open).0; Reach(s, BeginCall(REALTIME, policy, open, closeFails), t) && t.workers == s.workers
  {
    StartTakesFreeMicrophone(s.capture, open);
  }

  lemma {:induction false} BeginBatchCallReach(s: State, policy: QueuePolicy, open: OpenResult, closeFails: bool)
    requires Inv(s)
    ensures Reach(s, BeginCall(BATCH, policy, open, closeFails), Begin(s, BATCH, policy, open, closeFails).0)
    ensures Begin(s, BATCH, policy, open, closeFails).0.workers == s.workers
  {
    match ResolveBeginAction(policy, s.recording.Some?, s.processing.Some?)
    case Refuse =>
    case Enqueue =>
    case Accept => BeginBatchReach(s, open);
    case CancelCurrent => ReplaceReach(s, open, closeFails);
  }

  // A begin under the cancel policy, with something to cancel.
  lemma Replacing(s: State, open: OpenResult, closeFails: bool)
    requires s.recording.Some? || s.processing.Some?
    ensures var c := CancelCurrentSessions(s, closeFails);
            Begin(s, BATCH, CANCEL, open, closeFails).0 == if c.1.Raised? then c.0 else BeginBatch(c.0, open).0
  {
  }

  lemma ReplaceReach(s: State, open: OpenResult, closeFails: bool)
    requires Inv(s) && (s.recording.Some? || s.processing.Some?)
    ensures Reach(s, BeginCall(BATCH, CANCEL, open, closeFails), Begin(s, BATCH, CANCEL, open, closeFails).0)
    ensures Begin(s, BATCH, CANCEL, open, closeFails).0.workers == s.workers
  {
    Replacing(s, open, closeFails);
    CancelCurrentReach(s, closeFails);
    BeginBatchReach(CancelCurrentSessions(s, closeFails).0, open);
  }

  lemma StopReach(s: State, id: Id, closeFails: bool, resampleFails: bool)
    requires Inv(s)
    ensures Reach(s, StopCall(id, closeFails, resampleFails), Stop(s, id, closeFails, resampleFails).0)
  {
    if s.recording != Some(id) {
      StayReach(s, StopCall(id, closeFails, resampleFails));
    } else if s.sessions[id].source == REALTIME {
      StopStreamReach(s, id, closeFails, resampleFails);
    } else {
      StopBatchReach(s, id, closeFails, resampleFails);
    }
  }

  lemma StopStreamReach(s: State, id: Id, closeFails: bool, resampleFails: bool)
    requires Inv(s) && s.recording == Some(id) && s.sessions[id].source == REALTIME
    ensures Reach(s, StopCall(id, closeFails, resampleFails), Stop(s, id, closeFails, resampleFails).0)
  {
    var (c, r) := StopStream(s.capture, s.sessions[id].handle.value, closeFails);
    assert Stop(s, id, closeFails, resampleFails).0 == if r.Ok? then EndRecording(s, c, id, DONE) else s.(capture := c);
  }

  lemma StopBatchReach(s: State, id: Id, closeFails: bool, resampleFails: bool)
    requires Inv(s) && s.recording == Some(id) && s.sessions[id].source == BATCH
    ensures Reach(s, StopCall(id, closeFails, resampleFails), Stop(s, id, closeFails, resampleFails).0)
  {
    var rt := s.sessions[id];
    var (c, r) := StopBatch(s.capture, rt.handle.value, closeFails, resampleFails);
    assert Stop(s, id, closeFails, resampleFails).0 ==
      if r.Crash? then s.(capture := c) else if r.Ok? then HandToWorker(s, c, id, rt) else EndRecording(s, c, id, FAILED);
  }

  lemma {:induction false} CloseReach(s: State, closeFails: bool)
    requires Inv(s)
    ensures Reach(s, CloseCall(closeFails), Close(s, closeFails).0)
    ensures Close(s, closeFails).0.workers == s.workers
  {
    MarkKeeps(s);
    if s.recording.Some? {
      CancelReach(MarkProcessing(s), s.recording.value, closeFails);
    }
  }

  lemma DrainReach(s: State, open: OpenResult)
    requires Inv(s)
    ensures var t := Drain(s, open);
            && t.workers == s.workers && t.injected == s.injected && s.store.Keys <= t.store.Keys
            && (t == s
                || (&& s.pending != [] && s.recording.None? && s.processing.None?
                    && t.drained == s.drained + [s.pending[0]] && t.pending == s.pending[1..]
                    && t.nextTicket == s.nextTicket
                    && (t.recording.None? || t.recording == Some(s.nextId))))
  {
    if s.recording.None? && s.processing.None? && s.pending != [] {
      var u := s.(pending := s.pending[1..], drained := s.drained + [s.pending[0]]);
      assert Issued(u) == Issued(s);
      BeginBatchReach(u, open);
    }
  }

  lemma FinallyReach(s: State, id: Id, open: OpenResult)
    requires Inv(s) && id in s.workers
    ensures Reach(s, FinallyStep(id, open), WorkerFinally(s, id, open))
  {
    RetireKeeps(s, id);
    DrainReach(Retire(s, id), open);
  }

  lemma CheckReach(s: State, id: Id)
    ensures Reach(s, CheckStep(id), Step(s, CheckStep(id)))
  {
  }

  lemma ReturnReach(s: State, id: Id, outcome: PipelineOutcome)
    ensures Reach(s, ReturnStep(id, outcome), Step(s, ReturnStep(id, outcome)))
  {
  }

  lemma PublishReach(s: State, id: Id)
    ensures Reach(s, PublishStep(id), Step(s, PublishStep(id)))
  {
  }

  lemma OtherReach(s: State, e: Event)
    requires Inv(s) && (e.SubmitRemoteCall? || e.DeviceErrorReport? || e.TimeUpReport?)
    ensures Reach(s, e, Step(s, e))
  {
  }

  lemma {:induction false} StepReach(s: State, e: Event)
    requires Inv(s)
    ensures Reach(s, e, Step(s, e))
  {
    if OfWorker(e) {
      WorkerReach(s, e);
    } else {
      CallReach(s, e);
    }
  }

  lemma {:induction false} WorkerReach(s: State, e: Event)
    requires Inv(s) && OfWorker(e)
    ensures Reach(s, e, Step(s, e))
  {
    if e.CheckStep? {
      CheckReach(s, e.id);
    } else if e.ReturnStep? {
      ReturnReach(s, e.id, e.outcome);
    } else if e.PublishStep? {
      PublishReach(s, e.id);
    } else if e.id in s.workers && s.workers[e.id] == Finishing {
      FinallyReach(s, e.id, e.open);
    } else {
      StayReach(s, e);
    }
  }

  lemma {:induction false} CallReach(s: State, e: Event)
    requires Inv(s) && !OfWorker(e)
    ensures Reach(s, e, Step(s, e))
  {
    match e
    case BeginCall(source, policy, open, closeFails) => BeginReach(s, source, policy, open, closeFails);
    case StopCall(id, closeFails, resampleFails) => StopReach(s, id, closeFails, resampleFails);
    case CancelCall(id, closeFails) => CancelReach(s, id, closeFails);
    case CloseCall(closeFails) => CloseReach(s, closeFails);
    case _ => OtherReach(s, e);
  }

  // ---------- one microphone, one recording session ----------

  /** In every reachable state each capture path is held by handle h exactly when the recording
      session runs on that path with that handle, and the two paths are never held together. */
  lemma MicrophoneCoupling(events: seq<Event>, h: nat)
    ensures var s := Run(INITIAL, events);
            && (s.recording.Some? ==> s.recording.value in s.sessions)
            && ((s.capture.recorder.active.Some? && s.capture.recorder.active.value.handleId == h)
                <==> s.recording.Some? && s.sessions[s.recording.value] == Runtime(BATCH, Some(BatchHandle(h))))
            && (s.capture.streamHandle == Some(h)
                <==> s.recording.Some? && s.sessions[s.recording.value] == Runtime(REALTIME, Some(StreamHandle(h))))
            && !(s.capture.recorder.active.Some? && s.capture.streamHandle.Some?)
  {
    RunKeeps(INITIAL, events);
  }

  /** A second recording can replace a running one in one step only under the cancel policy, and the
      replaced session is then stored as canceled; the unguarded realtime begin and the draining of
      the queue never do. */
  lemma {:induction false} RecordingIsReplacedOnlyByCancelPolicy(s: State, e: Event)
    requires Inv(s) && s.recording.Some?
    ensures var t := Step(s, e);
            t.recording.Some? && t.recording != s.recording ==>
              && e.BeginCall? && e.source == BATCH && e.policy == CANCEL
              && s.recording.value in t.store && t.store[s.recording.value] == CANCELED
  {
    StepReach(s, e);
  }

  // ---------- settled sessions ----------

  // Nothing left in the tables can change the stored status of this session.
  predicate Settled(s: State, id: Id)
  {
    && id in s.store
    && s.recording != Some(id)
    && s.processing != Some(id)
    && (id in s.workers ==> s.workers[id] == Finishing || id in s.canceled)
  }

  lemma BeginBatchSettled(s: State, open: OpenResult, id: Id)
    requires Inv(s) && Settled(s, id)
    ensures var t := BeginBatch(s, open).0;
            Settled(t, id) && t.store[id] == s.store[id] && t.injected == s.injected
  {
  }

  lemma CancelSettled(s: State, other: Id, closeFails: bool, id: Id)
    requires Inv(s) && Settled(s, id)
    ensures var t := CancelSession(s, other, closeFails).0;
            Settled(t, id) && t.store[id] == s.store[id] && t.injected == s.injected
  {
  }

  lemma {:induction false} CancelCurrentSettled(s: State, closeFails: bool, id: Id)
    requires Inv(s) && Settled(s, id)
    ensures var t := CancelCurrentSessions(s, closeFails).0;
            Inv(t) && Settled(t, id) && t.store[id] == s.store[id] && t.injected == s.injected
  {
    CancelCurrentReach(s, closeFails);
    if s.recording.Some? {
      CancelSettled(s, s.recording.value, closeFails, id);
    }
  }

  lemma {:induction false} BeginSettled(s: State, source: Source, policy: QueuePolicy, open: OpenResult, closeFails: bool, id: Id)
    requires Inv(s) && Settled(s, id)
    ensures var t := Begin(s, source, policy, open, closeFails).0;
            Settled(t, id) && t.store[id] == s.store[id] && t.injected == s.injected
  {
    match source
    case REMOTE =>
    case REALTIME => BeginRealtimeSettled(s, open, id);
    case BATCH =>
      match ResolveBeginAction(policy, s.recording.Some?, s.processing.Some?)
      case Refuse =>
      case Enqueue =>
      case Accept => BeginBatchSettled(s, open, id);
      case CancelCurrent => ReplaceSettled(s, open, closeFails, id);
  }

  lemma BeginRealtimeSettled(s: State, open: OpenResult, id: Id)
    requires Inv(s) && Settled(s, id)
    ensures var t := BeginRealtime(s, open).0;
            Settled(t, id) && t.store[id] == s.store[id] && t.injected == s.injected
  {
  }

  lemma ReplaceSettled(s: State, open: OpenResult, closeFails: bool, id: Id)
    requires Inv(s) && Settled(s, id) && (s.recording.Some? || s.processing.Some?)
    ensures var t := Begin(s, BATCH, CANCEL, open, closeFails).0;
            Settled(t, id) && t.store[id] == s.store[id] && t.injected == s.injected
  {
    var c := CancelCurrentSessions(s, closeFails);
    CancelCurrentSettled(s, closeFails, id);
    Replacing(s, open, closeFails);
    if !c.1.Raised? {
      BeginBatchSettled(c.0, open, id);
    }
  }

  lemma StopSettled(s: State, other: Id, closeFails: bool, resampleFails: bool, id: Id)
    requires Settled(s, id)
    ensures var t := Stop(s, other, closeFails, resampleFails).0;
            Settled(t, id) && t.store[id] == s.store[id] && t.injected == s.injected
  {
  }

  lemma CloseSettled(s: State, closeFails: bool, id: Id)
    requires Inv(s) && Settled(s, id)
    ensures var t := Close(s, closeFails).0;
            Settled(t, id) && t.store[id] == s.store[id] && t.injected == s.injected
  {
    MarkKeeps(s);
    if s.recording.Some? {
      CancelSettled(MarkProcessing(s), s.recording.value, closeFails, id);
    }
  }

  lemma FinallySettled(s: State, other: Id, open: OpenResult, id: Id)
    requires Inv(s) && Settled(s, id) && other in s.workers
    ensures var t := WorkerFinally(s, other, open);
            Settled(t, id) && t.store[id] == s.store[id] && t.injected == s.injected
  {
    RetireKeeps(s, other);
    RetireSettled(s, other, id);
    DrainSettled(Retire(s, other), open, id);
  }

  lemma RetireSettled(s: State, other: Id, id: Id)
    requires Settled(s, id) && other in s.workers
    ensures var t := Retire(s, other);
            Settled(t, id) && t.store[id] == s.store[id] && t.injected == s.injected
  {
  }

  lemma DrainSettled(t: State, open: OpenResult, id: Id)
    requires Inv(t) && Settled(t, id)
    ensures var u := Drain(t, open);
            Settled(u, id) && u.store[id] == t.store[id] && u.injected == t.injected
  {
    if t.recording.None? && t.processing.None? && t.pending != [] {
      var u := t.(pending := t.pending[1..], drained := t.drained + [t.pending[0]]);
      assert Issued(u) == Issued(t);
      BeginBatchSettled(u, open, id);
    }
  }

  lemma PublishSettled(s: State, other: Id, outcome: PipelineOutcome, id: Id)
    requires Inv(s) && Settled(s, id) && other in s.workers && s.workers[other] == Returned(outcome)
    ensures var t := WorkerPublish(s, other, outcome);
            && Settled(t, id) && t.store[id] == s.store[id]
            && s.injected <= t.injected && id !in t.injected[|s.injected|..]
  {
  }

  lemma {:induction false} StepSettled(s: State, e: Event, id: Id)
    requires Inv(s) && Settled(s, id)
    ensures var t := Step(s, e);
            && Settled(t, id)
            && t.store[id] == s.store[id]
            && s.injected <= t.injected
            && id !in t.injected[|s.injected|..]
  {
    if OfWorker(e) {
      WorkerStepSettled(s, e, id);
    } else {
      CallSettled(s, e, id);
    }
  }

  lemma {:induction false} CallSettled(s: State, e: Event, id: Id)
    requires Inv(s) && Settled(s, id) && !OfWorker(e)
    ensures var t := Step(s, e);
            Settled(t, id) && t.store[id] == s.store[id] && t.injected == s.injected
  {
    match e
    case BeginCall(source, policy, open, closeFails) => BeginSettled(s, source, policy, open, closeFails, id);
    case StopCall(other, closeFails, resampleFails) => StopSettled(s, other, closeFails, resampleFails, id);
    case CancelCall(other, closeFails) => CancelSettled(s, other, closeFails, id);
    case CloseCall(closeFails) => CloseSettled(s, closeFails, id);
    case _ =>
  }

  // The published sessions grow, and not by this one.
  predicate PublishedSince(s: State, t: State, id: Id)
  {
    s.injected <= t.injected && id !in t.injected[|s.injected|..]
  }

  lemma PublishStepSettled(s: State, other: Id, id: Id)
    requires Inv(s) && Settled(s, id)
    ensures var t := Step(s, PublishStep(other));
            Settled(t, id) && t.store[id] == s.store[id] && PublishedSince(s, t, id)
  {
    if other in s.workers && s.workers[other].Returned? {
      PublishSettled(s, other, s.workers[other].outcome, id);
    }
  }

  lemma FinallyStepSettled(s: State, other: Id, open: OpenResult, id: Id)
    requires Inv(s) && Settled(s, id)
    ensures var t := Step(s, FinallyStep(other, open));
            Settled(t, id) && t.store[id] == s.store[id] && PublishedSince(s, t, id)
  {
    if other in s.workers && s.workers[other] == Finishing {
      FinallySettled(s, other, open, id);
    }
  }

  lemma WorkerStepSettled(s: State, e: Event, id: Id)
    requires Inv(s) && Settled(s, id) && OfWorker(e)
    ensures var t := Step(s, e);
            Settled(t, id) && t.store[id] == s.store[id] && PublishedSince(s, t, id)
  {
    match e
    case PublishStep(other) => PublishStepSettled(s, other, id);
    case FinallyStep(other, open) => FinallyStepSettled(s, other, open, id);
    case _ =>
  }

  /** A settled session stays as it is: over any further run its status never changes and nothing
      more is published for it. */
  lemma {:induction false} SettledForever(s: State, events: seq<Event>, id: Id)
    requires Inv(s) && Settled(s, id)
    ensures var t := Run(s, events);
            && Settled(t, id)
            && t.store[id] == s.store[id]
            && s.injected <= t.injected
            && id !in t.injected[|s.injected|..]
    decreases |events|
  {
    if events != [] {
      var t := Step(s, events[0]);
      StepSettled(s, events[0], id);
      StepKeeps(s, events[0]);
      SettledForever(t, events[1..], id);
      var u := Run(t, events[1..]);
      assert u.injected[|s.injected|..] == t.injected[|s.injected|..] + u.injected[|t.injected|..];
    }
  }

  /** CANCELED is absorbing, and a canceled session publishes nothing afterwards. */
  lemma CanceledIsAbsorbing(past: seq<Event>, future: seq<Event>, id: Id)
    ensures var s := Run(INITIAL, past);
            var t := Run(s, future);
            id in s.store && s.store[id] == CANCELED ==>
              && id in t.store && t.store[id] == CANCELED
              && s.injected <= t.injected
              && id !in t.injected[|s.injected|..]
  {
    RunKeeps(INITIAL, past);
    var s := Run(INITIAL, past);
    if id in s.store && s.store[id] == CANCELED {
      SettledForever(s, future, id);
    }
  }

  // ---------- publishing ----------

  predicate PublishInv(s: State)
  {
    && (forall i, j :: 0 <= i < j < |s.injected| ==> s.injected[i] != s.injected[j])
    && (forall id :: id in s.injected ==>
          && id in s.store
          && s.recording != Some(id)
          && (id in s.workers ==> s.workers[id] == Finishing))
  }

  lemma PublishKept(s: State, e: Event, t: State)
    requires Inv(s) && PublishInv(s) && Inv(t) && Reach(s, e, t)
    ensures PublishInv(t)
  {
  }

  /** Over any run every session's transcript is published at most once. */
  lemma {:induction false} PublishedAtMostOnce(s: State, events: seq<Event>)
    requires Inv(s) && PublishInv(s)
    ensures PublishInv(Run(s, events))
    decreases |events|
  {
    if events != [] {
      StepKeeps(s, events[0]);
      StepReach(s, events[0]);
      PublishKept(s, events[0], Step(s, events[0]));
      PublishedAtMostOnce(Step(s, events[0]), events[1..]);
    }
  }

  // ---------- worker bookkeeping ----------

  /** In every reachable state the counter is the number of live workers, so the floor at zero in the
      `finally` block never applies; the processing session and all canceled ones have a live worker. */
  lemma WorkerBookkeeping(events: seq<Event>, id: Id)
    ensures var s := Run(INITIAL, events);
            && s.activeWorkers == |s.workers|
            && (s.processing == Some(id) ==> id in s.workers)
            && (id in s.canceled ==> id in s.workers)
            && (id in s.workers ==> Retire(s, id).activeWorkers == s.activeWorkers - 1)
  {
    RunKeeps(INITIAL, events);
    var s := Run(INITIAL, events);
    if id in s.workers {
      RetireKeeps(s, id);
    }
  }

  // ---------- the queue ----------

  /** The queue moves one ticket at a time, from its head, and only when nothing records and the session the
      manager remembers as processing, if any, is the one whose worker retires.  Others may still be with
      their workers. */
  lemma {:induction false} DrainsOnlyWhenIdle(s: State, e: Event)
    requires Inv(s)
    ensures var t := Step(s, e);
            || t.drained == s.drained
            || (&& e.FinallyStep?
                && s.pending != [] && t.drained == s.drained + [s.pending[0]] && t.pending == s.pending[1..]
                && s.recording.None?
                && (s.processing.None? || s.processing == Some(e.id)))
  {
    StepReach(s, e);
  }

  // Every ticket so far, in the order issued.
  predicate NoneLost(s: State) { Issued(s) == seq(s.nextTicket, i => i) }

  lemma MoveLosesNone(s: State, e: Event, t: State)
    requires NoneLost(s) && QueueMove(s, e, t) && !e.CloseCall?
    ensures NoneLost(t) && s.drained <= t.drained
  {
    if t.nextTicket == s.nextTicket {
      assert Issued(t) == Issued(s);
    } else {
      assert Issued(t) == Issued(s) + [s.nextTicket];
    }
  }

  /** Until `close`, queued begins leave the queue first in, first out, each exactly once: what has
      been drained is an initial stretch of all tickets ever issued and the rest is still waiting. */
  lemma {:induction false} QueueIsFifo(s: State, events: seq<Event>)
    requires Inv(s) && NoneLost(s)
    requires forall i :: 0 <= i < |events| ==> !events[i].CloseCall?
    ensures NoneLost(Run(s, events)) && s.drained <= Run(s, events).drained
    decreases |events|
  {
    if events != [] {
      StepKeeps(s, events[0]);
      StepReach(s, events[0]);
      MoveLosesNone(s, events[0], Step(s, events[0]));
      QueueIsFifo(Step(s, events[0]), events[1..]);
    }
  }

  predicate StartsWorker(e: Event) { e.StopCall? || e.SubmitRemoteCall? }

  lemma {:induction false} NoDrainStep(s: State, e: Event)
    requires Inv(s) && s.workers == map[] && !StartsWorker(e)
    ensures Step(s, e).drained == s.drained && Step(s, e).workers == map[]
  {
    StepReach(s, e);
    match e
    case BeginCall(source, policy, open, closeFails) => BeginReach(s, source, policy, open, closeFails);
    case CancelCall(id, closeFails) => CancelReach(s, id, closeFails);
    case CloseCall(closeFails) => CloseReach(s, closeFails);
    case _ =>
  }

  /** Only a finishing worker drains the queue: while no worker lives and none is started, a waiting
      request is never taken up, whatever else happens. */
  lemma {:induction false} NoDrainWithoutWorker(s: State, events: seq<Event>)
    requires Inv(s) && s.workers == map[]
    requires forall i :: 0 <= i < |events| ==> !StartsWorker(events[i])
    ensures Run(s, events).drained == s.drained && Run(s, events).workers == map[]
    decreases |events|
  {
    if events != [] {
      StepKeeps(s, events[0]);
      NoDrainStep(s, events[0]);
      NoDrainWithoutWorker(Step(s, events[0]), events[1..]);
    }
  }

  // ---------- a device error during realtime ----------

  predicate Wedged(s: State, id: Id)
  {
    s.recording == Some(id) && s.capture.streamHandle.Some? && s.capture.state == ERROR
  }

  /** A realtime session can be stopped exactly while the facade still streams and the driver lets go. */
  lemma RealtimeStopsIffStreaming(s: State, id: Id, closeFails: bool, resampleFails: bool)
    requires Inv(s) && s.recording == Some(id) && s.sessions[id].source == REALTIME
    ensures Stop(s, id, closeFails, resampleFails).1 == Done
            <==> s.capture.state == STREAMING && !(closeFails && s.capture.stream.value.streamOpen)
  {
    HolderReleasesStream(s.capture, s.sessions[id].handle.value, closeFails);
  }

  lemma CancelWedged(s: State, other: Id, closeFails: bool, id: Id)
    requires Inv(s) && Wedged(s, id)
    ensures var (t, a) := CancelSession(s, other, closeFails);
            && Wedged(t, id) && (other == id ==> a == Raised(AudioError))
  {
    if other == id {
      HolderReleasesStream(s.capture, s.sessions[id].handle.value, closeFails);
    }
  }

  lemma {:induction false} BeginWedged(s: State, source: Source, policy: QueuePolicy, open: OpenResult, closeFails: bool, id: Id)
    requires Inv(s) && Wedged(s, id)
    ensures Wedged(Begin(s, source, policy, open, closeFails).0, id)
  {
    StartTakesFreeMicrophone(s.capture, open);
    CancelWedged(s, id, closeFails, id);
  }

  lemma StopWedged(s: State, other: Id, closeFails: bool, resampleFails: bool, id: Id)
    requires Inv(s) && Wedged(s, id)
    ensures Wedged(Stop(s, other, closeFails, resampleFails).0, id)
  {
    HolderReleasesStream(s.capture, s.sessions[id].handle.value, closeFails);
  }

  lemma CloseWedged(s: State, closeFails: bool, id: Id)
    requires Inv(s) && Wedged(s, id)
    ensures Wedged(Close(s, closeFails).0, id)
  {
    MarkKeeps(s);
    CancelWedged(MarkProcessing(s), id, closeFails, id);
  }

  lemma FinallyWedged(s: State, other: Id, open: OpenResult, id: Id)
    requires Wedged(s, id)
    ensures Wedged(WorkerFinally(s, other, open), id)
  {
    assert Drain(Retire(s, other), open) == Retire(s, other);
  }

  lemma StepWedged(s: State, e: Event, id: Id)
    requires Inv(s) && Wedged(s, id)
    ensures Wedged(Step(s, e), id)
  {
    match e
    case BeginCall(source, policy, open, closeFails) => BeginWedged(s, source, policy, open, closeFails, id);
    case StopCall(other, closeFails, resampleFails) => StopWedged(s, other, closeFails, resampleFails, id);
    case CancelCall(other, closeFails) => CancelWedged(s, other, closeFails, id);
    case CloseCall(closeFails) => CloseWedged(s, closeFails, id);
    case FinallyStep(other, open) => FinallyWedged(s, other, open, id);
    case _ =>
  }

  /** No run of calls ever ends a wedged session: stop, cancel, the cancel policy and close all fail and
      it stays stored as recording. */
  lemma {:induction false} WedgedForever(s: State, events: seq<Event>, id: Id)
    requires Inv(s) && Wedged(s, id)
    ensures Wedged(Run(s, events), id) && id in Run(s, events).store && Run(s, events).store[id] == RECORDING_STATUS
    decreases |events|
  {
    if events != [] {
      StepKeeps(s, events[0]);
      StepWedged(s, events[0], id);
      WedgedForever(Step(s, events[0]), events[1..], id);
    }
  }
}
