/** What every step of the session protocol keeps, and what follows for whole runs. */
module SessionProofs {
  import opened Wrappers
  import opened CaptureSpec
  import opened SessionSpec

  // ---------- the invariant ----------

  predicate RecordingInv(s: State)
  {
    && (s.recording.Some? ==>
          && s.recording.value in s.sessions
          && s.recording.value !in s.workers
          && s.recording.value in s.store
          && s.store[s.recording.value] == RECORDING_STATUS)
    && (forall id :: id in s.sessions && s.recording != Some(id) ==>
          s.sessions[id] == Runtime(BATCH, None) && id in s.workers)
  }

  /** The coupling between the three classes: the microphone's holder is exactly the handle kept by
      the recording session, on the path that session's source uses. */
  predicate CouplingInv(s: State)
  {
    && FacadeInv(s.capture)
    && (s.recording.None? <==> Holder(s.capture) == None)
    && (s.recording.Some? && s.recording.value in s.sessions ==>
          var rt := s.sessions[s.recording.value];
          && rt.handle == Holder(s.capture)
          && rt.handle.Some?
          && rt.source == (if rt.handle.value.BatchHandle? then BATCH else REALTIME))
  }

  predicate WorkerInv(s: State)
  {
    && s.activeWorkers == |s.workers|
    && (s.processing.Some? ==> s.processing.value in s.workers)
    && s.canceled <= s.workers.Keys
  }

  predicate StoreInv(s: State)
  {
    && (forall id :: id in s.store ==> id < s.nextId)
    && s.sessions.Keys <= s.store.Keys
    && s.workers.Keys <= s.store.Keys
  }

  // A canceled session is out of every table that could still change it.
  predicate CanceledInv(s: State)
  {
    forall id :: id in s.store && s.store[id] == CANCELED ==>
      && id !in s.sessions
      && s.processing != Some(id)
      && (id in s.workers && s.workers[id] != Finishing ==> id in s.canceled)
  }

  predicate Ascending(q: seq<Ticket>)
  {
    forall i, j :: 0 <= i < j < |q| ==> q[i] < q[j]
  }

  // The drained tickets followed by the waiting ones: issued in this order.
  function Issued(s: State): seq<Ticket> { s.drained + s.pending }

  predicate QueueInv(s: State)
  {
    && Ascending(Issued(s))
    && (forall i :: 0 <= i < |Issued(s)| ==> Issued(s)[i] < s.nextTicket)
  }

  predicate Inv(s: State)
  {
    && StoreInv(s)
    && RecordingInv(s)
    && CouplingInv(s)
    && WorkerInv(s)
    && CanceledInv(s)
    && QueueInv(s)
  }

  // ---------- steps keep it ----------

  lemma SwapKeeps(s: State, c: Facade)
    requires Inv(s) && FacadeInv(c) && Holder(c) == Holder(s.capture)
    ensures Inv(s.(capture := c))
  {
    assert Issued(s.(capture := c)) == Issued(s);
  }

  lemma CreateKeeps(s: State, status: Status)
    requires Inv(s) && status != CANCELED
    ensures Inv(Create(s, status))
  {
    assert Issued(Create(s, status)) == Issued(s);
  }

  lemma FailKeeps(s: State, id: Id)
    requires Inv(s) && id in s.store && s.recording != Some(id)
    ensures Inv(SetStatus(s, id, FAILED))
  {
    assert Issued(SetStatus(s, id, FAILED)) == Issued(s);
  }

  lemma EnterKeeps(s: State, c: Facade, id: Id, source: Source, h: Handle)
    requires Inv(s) && s.recording.None? && id in s.store && id !in s.sessions && id !in s.workers
    requires FacadeInv(c) && Holder(c) == Some(h) && source == (if h.BatchHandle? then BATCH else REALTIME)
    ensures Inv(Enter(s.(capture := c), id, source, h))
  {
    assert Issued(Enter(s.(capture := c), id, source, h)) == Issued(s);
  }

  lemma EndRecordingKeeps(s: State, c: Facade, id: Id, status: Status)
    requires Inv(s) && s.recording == Some(id) && FacadeInv(c) && Holder(c) == None
    ensures Inv(EndRecording(s, c, id, status))
  {
    assert Issued(EndRecording(s, c, id, status)) == Issued(s);
  }

  lemma HandToWorkerKeeps(s: State, c: Facade, id: Id)
    requires Inv(s) && s.recording == Some(id) && s.sessions[id].source == BATCH && FacadeInv(c) && Holder(c) == None
    ensures Inv(HandToWorker(s, c, id, s.sessions[id]))
  {
    assert Issued(HandToWorker(s, c, id, s.sessions[id])) == Issued(s);
  }

  lemma {:induction false} BeginBatchKeeps(s: State, open: OpenResult)
    requires Inv(s)
    ensures Inv(BeginBatch(s, open).0)
  {
    StartTakesFreeMicrophone(s.capture, open);
    var (c, r) := StartBatch(s.capture, open);
    CreateKeeps(s, RECORDING_STATUS);
    var created := Create(s, RECORDING_STATUS);
    if r.Ok? {
      EnterKeeps(created, c, s.nextId, BATCH, BatchHandle(r.value));
    } else {
      SwapKeeps(created, c);
      FailKeeps(created.(capture := c), s.nextId);
    }
  }

  lemma {:induction false} BeginRealtimeKeeps(s: State, open: OpenResult)
    requires Inv(s)
    ensures Inv(BeginRealtime(s, open).0)
  {
    StartTakesFreeMicrophone(s.capture, open);
    var (c, r) := StartStream(s.capture, open);
    CreateKeeps(s, RECORDING_STATUS);
    var created := Create(s, RECORDING_STATUS);
    if r.Ok? {
      EnterKeeps(created, c, s.nextId, REALTIME, StreamHandle(r.value));
    } else {
      SwapKeeps(created, c);
      FailKeeps(created.(capture := c), s.nextId);
    }
  }

  lemma CancelProcessingKeeps(s: State)
    requires Inv(s)
    ensures Inv(CancelProcessing(s))
  {
    assert Issued(CancelProcessing(s)) == Issued(s);
  }

  // What giving up the recording session's handle does to the facade.
  lemma ReleaseEnds(s: State, id: Id, closeFails: bool)
    requires Inv(s) && s.recording == Some(id)
    ensures var (c, r) := Release(s, s.sessions[id], closeFails);
            FacadeInv(c) && Holder(c) == if r.Ok? then None else Holder(s.capture)
  {
    var h := s.sessions[id].handle.value;
    if h.BatchHandle? {
      HolderReleasesBatch(s.capture, h, closeFails, false);
    } else {
      HolderReleasesStream(s.capture, h, closeFails);
    }
  }

  lemma {:induction false} CancelKeeps(s: State, id: Id, closeFails: bool)
    requires Inv(s)
    ensures Inv(CancelSession(s, id, closeFails).0)
  {
    if s.recording == Some(id) {
      ReleaseEnds(s, id, closeFails);
      var (c, r) := Release(s, s.sessions[id], closeFails);
      if r.Ok? {
        EndRecordingKeeps(s, c, id, CANCELED);
      } else {
        SwapKeeps(s, c);
      }
    } else {
      CancelProcessingKeeps(s);
    }
  }

  lemma {:induction false} StopKeeps(s: State, id: Id, closeFails: bool, resampleFails: bool)
    requires Inv(s)
    ensures Inv(Stop(s, id, closeFails, resampleFails).0)
  {
    if s.recording == Some(id) {
      var h := s.sessions[id].handle.value;
      if h.BatchHandle? {
        HolderReleasesBatch(s.capture, h, closeFails, resampleFails);
        var (c, r) := StopBatch(s.capture, h, closeFails, resampleFails);
        match r
        case Crash => SwapKeeps(s, c);
        case AudioFailure => EndRecordingKeeps(s, c, id, FAILED);
        case Ok(_) => HandToWorkerKeeps(s, c, id);
      } else {
        HolderReleasesStream(s.capture, h, closeFails);
        var (c, r) := StopStream(s.capture, h, closeFails);
        if r.Ok? {
          EndRecordingKeeps(s, c, id, DONE);
        } else {
          SwapKeeps(s, c);
        }
      }
    }
  }

  lemma {:induction false} CancelCurrentKeeps(s: State, closeFails: bool)
    requires Inv(s)
    ensures Inv(CancelCurrentSessions(s, closeFails).0)
  {
    if s.recording.Some? {
      CancelKeeps(s, s.recording.value, closeFails);
      CancelProcessingKeeps(CancelSession(s, s.recording.value, closeFails).0);
    } else {
      CancelProcessingKeeps(s);
    }
  }

  lemma {:induction false} BeginKeeps(s: State, source: Source, policy: QueuePolicy, open: OpenResult, closeFails: bool)
    requires Inv(s)
    ensures Inv(Begin(s, source, policy, open, closeFails).0)
  {
    match source
    case REMOTE =>
    case REALTIME => BeginRealtimeKeeps(s, open);
    case BATCH =>
      match ResolveBeginAction(policy, s.recording.Some?, s.processing.Some?)
      case Refuse =>
      case Enqueue =>
        var t := Begin(s, source, policy, open, closeFails).0;
        assert Issued(t) == Issued(s) + [s.nextTicket];
      case Accept => BeginBatchKeeps(s, open);
      case CancelCurrent =>
        CancelCurrentKeeps(s, closeFails);
        BeginBatchKeeps(CancelCurrentSessions(s, closeFails).0, open);
  }

  lemma SubmitRemoteKeeps(s: State)
    requires Inv(s)
    ensures Inv(SubmitRemote(s).0)
  {
    assert Issued(SubmitRemote(s).0) == Issued(s);
  }

  lemma MarkKeeps(s: State)
    requires Inv(s)
    ensures Inv(MarkProcessing(s))
  {
    assert Issued(MarkProcessing(s)) == Issued(s);
  }

  lemma ClearKeeps(s: State)
    requires Inv(s)
    ensures Inv(s.(pending := []))
  {
    assert Issued(s.(pending := [])) == Issued(s)[..|s.drained|];
  }

  lemma CloseKeeps(s: State, closeFails: bool)
    requires Inv(s)
    ensures Inv(Close(s, closeFails).0)
  {
    MarkKeeps(s);
    var marked := MarkProcessing(s);
    if marked.recording.Some? {
      CancelKeeps(marked, marked.recording.value, closeFails);
      ClearKeeps(CancelSession(marked, marked.recording.value, closeFails).0);
    } else {
      ClearKeeps(marked);
    }
  }

  lemma RetireKeeps(s: State, id: Id)
    requires Inv(s) && id in s.workers
    ensures Inv(Retire(s, id))
    ensures Retire(s, id).activeWorkers == s.activeWorkers - 1
  {
    var t := Retire(s, id);
    assert t.workers.Keys == s.workers.Keys - {id};
    assert |t.workers.Keys| == |s.workers.Keys| - 1;
    assert Issued(t) == Issued(s);
  }

  lemma DrainKeeps(s: State, open: OpenResult)
    requires Inv(s)
    ensures Inv(Drain(s, open))
  {
    if s.recording.None? && s.processing.None? && s.pending != [] {
      var t := s.(pending := s.pending[1..], drained := s.drained + [s.pending[0]]);
      assert Issued(t) == Issued(s);
      BeginBatchKeeps(t, open);
    }
  }

  lemma CheckKeeps(s: State, id: Id)
    requires Inv(s) && id in s.workers && s.workers[id] == Starting
    ensures Inv(WorkerCheck(s, id))
  {
    assert WorkerCheck(s, id).workers.Keys == s.workers.Keys;
  }

  lemma ReturnKeeps(s: State, id: Id, outcome: PipelineOutcome)
    requires Inv(s) && id in s.workers && s.workers[id] == Running
    ensures Inv(WorkerReturn(s, id, outcome))
  {
    assert WorkerReturn(s, id, outcome).workers.Keys == s.workers.Keys;
  }

  lemma PublishKeeps(s: State, id: Id, outcome: PipelineOutcome)
    requires Inv(s) && id in s.workers && s.workers[id] == Returned(outcome)
    ensures Inv(WorkerPublish(s, id, outcome))
  {
    if id in s.canceled || outcome.PipelineCanceled? {
      FinishingKeeps(s, id, s.injected);
      assert WorkerPublish(s, id, outcome) == s.(workers := s.workers[id := Finishing], injected := s.injected);
    } else {
      var injected := if outcome.Delivered? then s.injected + [id] else s.injected;
      var status := if outcome.Delivered? && !outcome.injectFailed then DONE else FAILED;
      var t := s.(workers := s.workers[id := Finishing], injected := injected);
      FinishingKeeps(s, id, injected);
      StatusKeeps(t, id, status);
      assert WorkerPublish(s, id, outcome) == SetStatus(t, id, status);
    }
  }

  lemma FinishingKeeps(s: State, id: Id, injected: seq<Id>)
    requires Inv(s) && id in s.workers
    ensures Inv(s.(workers := s.workers[id := Finishing], injected := injected))
  {
    assert s.workers[id := Finishing].Keys == s.workers.Keys;
  }

  // A finishing worker's session may be given a status that is not a canceled one.
  lemma StatusKeeps(t: State, id: Id, status: Status)
    requires Inv(t) && id in t.workers && (status == DONE || status == FAILED)
    ensures Inv(SetStatus(t, id, status))
  {
  }

  lemma ReportKeeps(s: State)
    requires Inv(s)
    ensures Inv(s.(capture := DeviceError(s.capture)))
    ensures Inv(s.(capture := TimeUp(s.capture)))
  {
  }

  predicate OfWorker(e: Event) { e.CheckStep? || e.ReturnStep? || e.PublishStep? || e.FinallyStep? }

  lemma FinallyKeeps(s: State, id: Id, open: OpenResult)
    requires Inv(s) && id in s.workers
    ensures Inv(WorkerFinally(s, id, open))
  {
    RetireKeeps(s, id);
    DrainKeeps(Retire(s, id), open);
  }

  lemma CheckStepKeeps(s: State, id: Id)
    requires Inv(s)
    ensures Inv(Step(s, CheckStep(id)))
  {
    if id in s.workers && s.workers[id] == Starting {
      CheckKeeps(s, id);
    }
  }

  lemma ReturnStepKeeps(s: State, id: Id, outcome: PipelineOutcome)
    requires Inv(s)
    ensures Inv(Step(s, ReturnStep(id, outcome)))
  {
    if id in s.workers && s.workers[id] == Running {
      ReturnKeeps(s, id, outcome);
    }
  }

  lemma {:induction false} PublishStepKeeps(s: State, id: Id)
    requires Inv(s)
    ensures Inv(Step(s, PublishStep(id)))
  {
    if id in s.workers && s.workers[id].Returned? {
      PublishKeeps(s, id, s.workers[id].outcome);
    }
  }

  lemma {:induction false} FinallyStepKeeps(s: State, id: Id, open: OpenResult)
    requires Inv(s)
    ensures Inv(Step(s, FinallyStep(id, open)))
  {
    if id in s.workers && s.workers[id] == Finishing {
      FinallyKeeps(s, id, open);
    }
  }

  lemma {:induction false} WorkerStepKeeps(s: State, e: Event)
    requires Inv(s) && OfWorker(e)
    ensures Inv(Step(s, e))
  {
    match e
    case CheckStep(id) => CheckStepKeeps(s, id);
    case ReturnStep(id, outcome) => ReturnStepKeeps(s, id, outcome);
    case PublishStep(id) => PublishStepKeeps(s, id);
    case FinallyStep(id, open) => FinallyStepKeeps(s, id, open);
  }

  lemma {:induction false} CallKeeps(s: State, e: Event)
    requires Inv(s) && !OfWorker(e)
    ensures Inv(Step(s, e))
  {
    match e
    case BeginCall(source, policy, open, closeFails) => BeginKeeps(s, source, policy, open, closeFails);
    case StopCall(id, closeFails, resampleFails) => StopKeeps(s, id, closeFails, resampleFails);
    case CancelCall(id, closeFails) => CancelKeeps(s, id, closeFails);
    case SubmitRemoteCall => SubmitRemoteKeeps(s);
    case CloseCall(closeFails) => CloseKeeps(s, closeFails);
    case DeviceErrorReport => ReportKeeps(s);
    case TimeUpReport => ReportKeeps(s);
  }

  lemma {:induction false} StepKeeps(s: State, e: Event)
    requires Inv(s)
    ensures Inv(Step(s, e))
  {
    if OfWorker(e) {
      WorkerStepKeeps(s, e);
    } else {
      CallKeeps(s, e);
    }
  }

  /** Every reachable state satisfies the invariant. */
  lemma {:induction false} RunKeeps(s: State, events: seq<Event>)
    requires Inv(s)
    ensures Inv(Run(s, events))
    decreases |events|
  {
    if events != [] {
      StepKeeps(s, events[0]);
      RunKeeps(Step(s, events[0]), events[1..]);
    }
  }
}
