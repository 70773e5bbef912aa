/** The rest of the manager's state after every event: where each worker stands, whom it marks as canceled,
    which sessions have a runtime entry, the queue, and what is published. */
module SessionFields {
  import opened Wrappers
  import opened CaptureSpec
  import opened SessionSpec
  import opened SessionProofs
  import opened SessionTheorems
  import opened SessionTable
  import opened SessionEnds

  function PhaseOf(s: State, id: Id): Option<Phase> { if id in s.workers then Some(s.workers[id]) else None }

  // The last step of a worker.
  predicate Ends(s: State, e: Event, id: Id) { e.FinallyStep? && e.id == id && PhaseOf(s, id) == Some(Finishing) }

  // ---------- workers ----------

  function NextPhase(s: State, e: Event, id: Id): Option<Phase>
  {
    match e
    case SubmitRemoteCall => if id == s.nextId then Some(Starting) else PhaseOf(s, id)
    case StopCall(x, closeFails, resampleFails) =>
      if x == id && s.recording == Some(id) && Stopped(s.capture, closeFails, resampleFails) == Some(PROCESSING) then Some(Starting)
      else PhaseOf(s, id)
    case CheckStep(x) =>
      if x == id && PhaseOf(s, id) == Some(Starting) then Some(if id in s.canceled then Finishing else Running) else PhaseOf(s, id)
    case ReturnStep(x, o) => if x == id && PhaseOf(s, id) == Some(Running) then Some(Returned(o)) else PhaseOf(s, id)
    case PublishStep(x) =>
      if x == id && id in s.workers && s.workers[id].Returned? then Some(Finishing) else PhaseOf(s, id)
    case FinallyStep(x, _) => if Ends(s, e, id) then None else PhaseOf(s, id)
    case _ => PhaseOf(s, id)
  }

  /** A worker goes from its first check to the pipeline, to its answer and to its last step, and past the
      pipeline if it is marked at the check; nothing but its own steps moves it. */
  lemma PhaseTable(s: State, e: Event, id: Id)
    requires Inv(s)
    ensures PhaseOf(Step(s, e), id) == NextPhase(s, e, id)
  {
    match e
    case BeginCall(_, _, _, _) => WorkersAfterCall(s, e);
    case CancelCall(_, _) => WorkersAfterCall(s, e);
    case CloseCall(_) => WorkersAfterCall(s, e);
    case StopCall(x, closeFails, resampleFails) => StopTable(s, x, closeFails, resampleFails, x);
    case FinallyStep(x, open) => WorkersAfterFinally(s, x, open);
    case PublishStep(x) => PublishPhases(s, x, id);
    case _ => OwnPhases(s, e, id);
  }

  lemma PublishPhases(s: State, x: Id, id: Id)
    ensures PhaseOf(Step(s, PublishStep(x)), id) == NextPhase(s, PublishStep(x), id)
  {
  }

  lemma OwnPhases(s: State, e: Event, id: Id)
    requires e.SubmitRemoteCall? || e.CheckStep? || e.ReturnStep? || e.DeviceErrorReport? || e.TimeUpReport?
    ensures PhaseOf(Step(s, e), id) == NextPhase(s, e, id)
  {
  }

  // ---------- marks ----------

  // A call marks the worker of the session it withdraws, and `close` that of the remembered one.
  predicate Marked(s: State, e: Event, id: Id)
  {
    || (id in s.canceled && !Ends(s, e, id))
    || (s.processing == Some(id) &&
          (|| e.CloseCall?
           || (e.CancelCall? && e.id == id && id in s.sessions)
           || (e.BeginCall? && Replaces(s, e.source, e.policy, e.closeFails))))
  }

  /** Exactly those are marked as canceled. */
  lemma MarkTable(s: State, e: Event, id: Id)
    requires Inv(s)
    ensures id in Step(s, e).canceled <==> Marked(s, e, id)
  {
    match e
    case BeginCall(_, _, _, _) => MarksAfterBegin(s, e, id);
    case CancelCall(x, closeFails) => MarksAfterCancel(s, x, closeFails);
    case CloseCall(closeFails) => MarksAfterClose(s, closeFails);
    case StopCall(x, closeFails, resampleFails) => MarksAfterStop(s, x, closeFails, resampleFails);
    case FinallyStep(x, open) => MarksAfterEnd(s, x, open);
    case _ => OthersMarkNone(s, e);
  }

  lemma OthersMarkNone(s: State, e: Event)
    requires e.SubmitRemoteCall? || e.CheckStep? || e.ReturnStep? || e.PublishStep? || e.DeviceErrorReport? || e.TimeUpReport?
    ensures Step(s, e).canceled == s.canceled
  {
  }

  lemma MarksAfterClose(s: State, closeFails: bool)
    requires Inv(s)
    ensures Close(s, closeFails).0.canceled == s.canceled + if s.processing.Some? then {s.processing.value} else {}
  {
    MarkKeeps(s);
    CloseIs(s, closeFails);
    var m := MarkProcessing(s);
    if s.recording.Some? {
      MarksAfterCancel(m, s.recording.value, closeFails);
    }
  }

  lemma MarksAfterEnd(s: State, x: Id, open: OpenResult)
    ensures Step(s, FinallyStep(x, open)).canceled == if Ends(s, FinallyStep(x, open), x) then s.canceled - {x} else s.canceled
  {
  }

  // ---------- the queue ----------

  function NextPending(s: State, e: Event): seq<Ticket>
  {
    match e
    case BeginCall(source, policy, _, _) =>
      if source == BATCH && policy == QUEUE && (s.recording.Some? || s.processing.Some?) then s.pending + [s.nextTicket] else s.pending
    case CloseCall(closeFails) => if LetsGo(s.capture, closeFails) then [] else s.pending
    case FinallyStep(_, _) => if Drains(s, e) then s.pending[1..] else s.pending
    case _ => s.pending
  }

  /** A begin joins the queue exactly under the queue policy with something going on, the head leaves it
      exactly when a worker drains it, and `close` empties it unless it raises. */
  lemma QueueTable(s: State, e: Event)
    requires Inv(s)
    ensures Step(s, e).pending == NextPending(s, e)
  {
    match e
    case BeginCall(source, policy, open, closeFails) => BeginQueues(s, source, policy, open, closeFails);
    case CancelCall(x, closeFails) => CancelQueues(s, x, closeFails);
    case CloseCall(closeFails) => CloseQueues(s, closeFails);
    case StopCall(x, closeFails, resampleFails) => StopTable(s, x, closeFails, resampleFails, x);
    case FinallyStep(x, open) => FinallyQueues(s, x, open);
    case _ =>
  }

  lemma BatchQueues(s: State, open: OpenResult)
    ensures BeginBatch(s, open).0.pending == s.pending
  {
  }

  lemma BeginQueues(s: State, source: Source, policy: QueuePolicy, open: OpenResult, closeFails: bool)
    requires Inv(s)
    ensures Begin(s, source, policy, open, closeFails).0.pending == NextPending(s, BeginCall(source, policy, open, closeFails))
  {
    if source == BATCH && ResolveBeginAction(policy, s.recording.Some?, s.processing.Some?) == CancelCurrent {
      Replacing(s, open, closeFails);
      CancelCurrentReach(s, closeFails);
      BatchQueues(CancelCurrentSessions(s, closeFails).0, open);
    }
  }

  lemma CancelQueues(s: State, x: Id, closeFails: bool)
    requires Inv(s)
    ensures CancelSession(s, x, closeFails).0.pending == s.pending
  {
    CancelReach(s, x, closeFails);
  }

  lemma CloseQueues(s: State, closeFails: bool)
    requires Inv(s)
    ensures Close(s, closeFails).0.pending == if LetsGo(s.capture, closeFails) then [] else s.pending
  {
    MarkKeeps(s);
    MarkOnlyMarks(s);
    CloseIs(s, closeFails);
    if s.recording.Some? {
      CancelRecordingIff(MarkProcessing(s), s.recording.value, closeFails);
    }
  }

  lemma FinallyQueues(s: State, x: Id, open: OpenResult)
    ensures Step(s, FinallyStep(x, open)).pending == NextPending(s, FinallyStep(x, open))
  {
    if x in s.workers && s.workers[x] == Finishing {
      var t := Retire(s, x);
      BatchQueues(t.(pending := t.pending[if t.pending == [] then 0 else 1..]), open);
      DrainQueues(t, open);
    }
  }

  lemma DrainQueues(t: State, open: OpenResult)
    ensures Drain(t, open).pending ==
            if t.recording.None? && t.processing.None? && t.pending != [] then t.pending[1..] else t.pending
  {
    if t.recording.None? && t.processing.None? && t.pending != [] {
      BatchQueues(t.(pending := t.pending[1..], drained := t.drained + [t.pending[0]]), open);
    }
  }

  // ---------- publication ----------

  /** A session is published exactly when its worker comes back from a pipeline that delivered, and is not
      marked as canceled by then. */
  lemma PublishTable(s: State, e: Event)
    requires Inv(s)
    ensures Step(s, e).injected ==
            if e.PublishStep? && PhaseOf(s, e.id) in {Some(Returned(Delivered(false))), Some(Returned(Delivered(true)))}
               && e.id !in s.canceled
            then s.injected + [e.id] else s.injected
  {
    StepReach(s, e);
    if e.PublishStep? {
      PublishesIff(s, e.id);
    }
  }

  lemma PublishesIff(s: State, id: Id)
    ensures Step(s, PublishStep(id)).injected ==
            if PhaseOf(s, id) in {Some(Returned(Delivered(false))), Some(Returned(Delivered(true)))} && id !in s.canceled
            then s.injected + [id] else s.injected
  {
  }

  // ---------- runtime entries ----------

  // The end of a recording that goes to no worker, of a withdrawn session, and of a worker.
  predicate Leaves(s: State, e: Event, id: Id)
  {
    || (s.recording == Some(id) && NextStatus(s, e, id) in {Some(DONE), Some(FAILED), Some(CANCELED)})
    || (s.processing == Some(id) && NextStatus(s, e, id) == Some(CANCELED))
    || Ends(s, e, id)
  }

  // A session has one from its start on.
  predicate Entered(s: State, e: Event, id: Id)
  {
    (id == s.nextId && Step(s, e).recording == Some(id)) || (id in s.sessions && !Leaves(s, e, id))
  }

  /** Runtime entries come with a recording and go with a canceled, failed or finished recording, a
      withdrawal, or the end of the worker; publication leaves them. */
  lemma RuntimeTable(s: State, e: Event, id: Id)
    requires Inv(s)
    ensures id in Step(s, e).sessions <==> Entered(s, e, id)
  {
    StepTable(s, e, id);
    match e
    case BeginCall(source, policy, open, closeFails) => BeginEnters(s, source, policy, open, closeFails, id);
    case CancelCall(x, closeFails) => CancelEnters(s, x, closeFails, id);
    case CloseCall(closeFails) => CloseEnters(s, closeFails, id);
    case StopCall(x, closeFails, resampleFails) => StopEnters(s, x, closeFails, resampleFails, id);
    case FinallyStep(x, open) => FinallyEnters(s, x, open, id);
    case _ => OtherEnters(s, e, id);
  }

  predicate WithoutCalls(e: Event)
  {
    e.SubmitRemoteCall? || e.CheckStep? || e.ReturnStep? || e.PublishStep? || e.DeviceErrorReport? || e.TimeUpReport?
  }

  lemma OtherStays(s: State, e: Event)
    requires WithoutCalls(e)
    ensures Step(s, e).sessions == s.sessions && Step(s, e).recording == s.recording
  {
  }

  lemma OtherLeavesNone(s: State, e: Event, id: Id)
    requires Inv(s) && WithoutCalls(e) && id in s.sessions
    ensures !Leaves(s, e, id)
  {
    EntryIsKnown(s, id);
  }

  lemma OtherEnters(s: State, e: Event, id: Id)
    requires Inv(s) && WithoutCalls(e)
    ensures id in Step(s, e).sessions <==> Entered(s, e, id)
  {
    OtherStays(s, e);
    assert s.recording != Some(s.nextId);
    if id in s.sessions {
      OtherLeavesNone(s, e, id);
    }
  }

  // A batch or realtime start, whatever was going on before.
  lemma StartEnters(s: State, t: State, open: OpenResult, id: Id)
    requires Inv(s) && (t == BeginBatch(s, open).0 || t == BeginRealtime(s, open).0)
    ensures id in t.sessions <==> id in s.sessions || (id == s.nextId && t.recording == Some(id))
  {
  }

  lemma BeginEnters(s: State, source: Source, policy: QueuePolicy, open: OpenResult, closeFails: bool, id: Id)
    requires Inv(s)
    ensures id in Begin(s, source, policy, open, closeFails).0.sessions <==>
              Entered(s, BeginCall(source, policy, open, closeFails), id)
  {
    var e := BeginCall(source, policy, open, closeFails);
    StepTable(s, e, id);
    if id in s.sessions {
      EntryIsKnown(s, id);
    }
    if source == BATCH && ResolveBeginAction(policy, s.recording.Some?, s.processing.Some?) == CancelCurrent {
      ReplaceEnters(s, open, closeFails, id);
    } else if source != REMOTE && Creates(s, source, policy, closeFails) {
      StartEnters(s, Step(s, e), open, id);
    }
  }

  lemma EntryIsKnown(s: State, id: Id)
    requires Inv(s) && id in s.sessions
    ensures StatusOf(s, id).Some? && StatusOf(s, id) != Some(CANCELED) && id != s.nextId
    ensures s.recording == Some(id) ==> StatusOf(s, id) == Some(RECORDING_STATUS)
  {
  }

  lemma ReplaceEnters(s: State, open: OpenResult, closeFails: bool, id: Id)
    requires Inv(s) && (s.recording.Some? || s.processing.Some?)
    ensures var t := Begin(s, BATCH, CANCEL, open, closeFails).0;
            id in t.sessions <==>
              || (id == s.nextId && t.recording == Some(id))
              || (id in s.sessions && !(LetsGo(s.capture, closeFails) && (s.recording == Some(id) || s.processing == Some(id))))
  {
    Replacing(s, open, closeFails);
    CancelCurrentIff(s, closeFails);
    var c := CancelCurrentSessions(s, closeFails).0;
    if LetsGo(s.capture, closeFails) {
      CancelCurrentKeeps(s, closeFails);
      CancelCurrentEnters(s, closeFails, id);
      StartEnters(c, BeginBatch(c, open).0, open, id);
    }
  }

  lemma CancelCurrentEnters(s: State, closeFails: bool, id: Id)
    requires Inv(s) && LetsGo(s.capture, closeFails)
    ensures id in CancelCurrentSessions(s, closeFails).0.sessions <==>
              id in s.sessions && s.recording != Some(id) && s.processing != Some(id)
  {
    if s.recording.Some? {
      CancelRecordingIff(s, s.recording.value, closeFails);
    }
  }

  lemma CancelEnters(s: State, x: Id, closeFails: bool, id: Id)
    requires Inv(s)
    ensures id in CancelSession(s, x, closeFails).0.sessions <==> Entered(s, CancelCall(x, closeFails), id)
  {
    if id in s.sessions {
      EntryIsKnown(s, id);
    }
    StepTable(s, CancelCall(x, closeFails), id);
    if s.recording == Some(x) {
      CancelRecordingIff(s, x, closeFails);
    }
  }

  lemma CloseEnters(s: State, closeFails: bool, id: Id)
    requires Inv(s)
    ensures id in Close(s, closeFails).0.sessions <==> Entered(s, CloseCall(closeFails), id)
  {
    if id in s.sessions {
      EntryIsKnown(s, id);
    }
    MarkKeeps(s);
    MarkOnlyMarks(s);
    CloseIs(s, closeFails);
    StepTable(s, CloseCall(closeFails), id);
    if s.recording.Some? {
      CancelRecordingIff(MarkProcessing(s), s.recording.value, closeFails);
    }
  }

  lemma AfterStopEnters(s: State, x: Id, c: Facade, end: Option<Status>, id: Id)
    requires Inv(s)
    ensures id in AfterStop(s, x, c, end).sessions <==>
              id in s.sessions && !(s.recording == Some(x) && x == id && end.Some? && end != Some(PROCESSING))
  {
  }

  lemma StopEnters(s: State, x: Id, closeFails: bool, resampleFails: bool, id: Id)
    requires Inv(s)
    ensures id in Stop(s, x, closeFails, resampleFails).0.sessions <==> Entered(s, StopCall(x, closeFails, resampleFails), id)
  {
    var t, end := Stop(s, x, closeFails, resampleFails).0, Stopped(s.capture, closeFails, resampleFails);
    StopIs(s, x, closeFails, resampleFails);
    AfterStopEnters(s, x, t.capture, end, id);
    StopTable(s, x, closeFails, resampleFails, id);
    assert t.recording != Some(s.nextId);
    if id in s.sessions {
      StopLeavesIff(s, x, closeFails, resampleFails, id);
    }
  }

  lemma StopLeavesIff(s: State, x: Id, closeFails: bool, resampleFails: bool, id: Id)
    requires Inv(s) && id in s.sessions
    ensures var end := Stopped(s.capture, closeFails, resampleFails);
            Leaves(s, StopCall(x, closeFails, resampleFails), id) <==>
              s.recording == Some(x) && x == id && end.Some? && end != Some(PROCESSING)
  {
    EntryIsKnown(s, id);
  }

  lemma FinallyLeavesIff(s: State, x: Id, open: OpenResult, id: Id)
    requires Inv(s) && id in s.sessions
    ensures Leaves(s, FinallyStep(x, open), id) <==> Ends(s, FinallyStep(x, open), id)
  {
    EntryIsKnown(s, id);
  }

  lemma FinallyEnters(s: State, x: Id, open: OpenResult, id: Id)
    requires Inv(s)
    ensures id in Step(s, FinallyStep(x, open)).sessions <==> Entered(s, FinallyStep(x, open), id)
  {
    if id in s.sessions {
      FinallyLeavesIff(s, x, open, id);
    }
    if x in s.workers && s.workers[x] == Finishing {
      RetiredEnters(s, x, open, id);
    } else {
      assert s.recording != Some(s.nextId);
    }
  }

  lemma RetiredEnters(s: State, x: Id, open: OpenResult, id: Id)
    requires Inv(s) && x in s.workers
    ensures var t := WorkerFinally(s, x, open);
            id in t.sessions <==> (id in s.sessions && id != x) || (id == s.nextId && t.recording == Some(id))
  {
    RetireKeeps(s, x);
    DrainEnters(Retire(s, x), open, id);
  }

  lemma DrainEnters(s: State, open: OpenResult, id: Id)
    requires Inv(s)
    ensures var t := Drain(s, open);
            id in t.sessions <==> id in s.sessions || (id == s.nextId && t.recording == Some(id))
  {
    if s.recording.None? && s.processing.None? && s.pending != [] {
      var u := s.(pending := s.pending[1..], drained := s.drained + [s.pending[0]]);
      assert Issued(u) == Issued(s);
      StartEnters(u, BeginBatch(u, open).0, open, id);
    }
  }
}
