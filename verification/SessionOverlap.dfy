/** Sessions processed side by side.  The manager remembers one processing session, the last one handed to a
    worker; an earlier one may still be with its own. */
module SessionOverlap {
  import opened Wrappers
  import opened CaptureSpec
  import opened SessionSpec
  import opened SessionProofs
  import opened SessionTheorems
  import opened SessionTable
  import opened SessionLimits
  import opened SessionEnds

  // With a live worker and stored as processing.
  predicate Processed(s: State, id: Id) { id in s.workers && StatusOf(s, id) == Some(PROCESSING) }

  // And not the one the manager remembers.
  predicate Behind(s: State, id: Id) { Processed(s, id) && s.processing != Some(id) }

  ghost predicate Overlapped(s: State) { exists id :: Behind(s, id) }

  // New work for a worker, while the remembered session is still being processed.
  predicate Overlaps(s: State, e: Event)
  {
    && s.processing.Some? && StatusOf(s, s.processing.value) == Some(PROCESSING)
    && match e
       case SubmitRemoteCall => true
       case StopCall(x, closeFails, resampleFails) =>
         s.recording == Some(x) && Stopped(s.capture, closeFails, resampleFails) == Some(PROCESSING)
       case _ => false
  }

  // ---------- what the manager remembers ----------

  function NextProcessing(s: State, e: Event): Option<Id>
  {
    match e
    case BeginCall(source, policy, open, closeFails) => if Replaces(s, source, policy, closeFails) then None else s.processing
    case StopCall(x, closeFails, resampleFails) =>
      if s.recording == Some(x) && Stopped(s.capture, closeFails, resampleFails) == Some(PROCESSING) then Some(x) else s.processing
    case CancelCall(x, _) => if s.recording != Some(x) && s.processing == Some(x) && x in s.sessions then None else s.processing
    case SubmitRemoteCall => Some(s.nextId)
    case FinallyStep(x, _) =>
      if x in s.workers && s.workers[x] == Finishing && s.processing == Some(x) then None else s.processing
    case _ => s.processing
  }

  lemma BatchProcessing(s: State, open: OpenResult)
    ensures BeginBatch(s, open).0.processing == s.processing
  {
  }

  lemma ReplaceProcessing(s: State, open: OpenResult, closeFails: bool)
    requires Inv(s) && (s.recording.Some? || s.processing.Some?)
    ensures Begin(s, BATCH, CANCEL, open, closeFails).0.processing == if LetsGo(s.capture, closeFails) then None else s.processing
  {
    Replacing(s, open, closeFails);
    CancelCurrentIff(s, closeFails);
    BatchProcessing(CancelCurrentSessions(s, closeFails).0, open);
  }

  lemma BeginProcessing(s: State, source: Source, policy: QueuePolicy, open: OpenResult, closeFails: bool)
    requires Inv(s)
    ensures Begin(s, source, policy, open, closeFails).0.processing ==
            if Replaces(s, source, policy, closeFails) then None else s.processing
  {
    if source == BATCH && ResolveBeginAction(policy, s.recording.Some?, s.processing.Some?) == CancelCurrent {
      ReplaceProcessing(s, open, closeFails);
    } else if source == BATCH {
      BatchProcessing(s, open);
    }
  }

  lemma CancelProcesses(s: State, x: Id, closeFails: bool)
    requires Inv(s)
    ensures CancelSession(s, x, closeFails).0.processing == NextProcessing(s, CancelCall(x, closeFails))
  {
    if s.recording == Some(x) {
      CancelRecordingIff(s, x, closeFails);
    }
  }

  lemma CloseProcesses(s: State, closeFails: bool)
    requires Inv(s)
    ensures Close(s, closeFails).0.processing == s.processing
  {
    MarkKeeps(s);
    CloseIs(s, closeFails);
    if s.recording.Some? {
      CancelRecordingIff(MarkProcessing(s), s.recording.value, closeFails);
    }
  }

  lemma FinallyProcesses(s: State, x: Id, open: OpenResult)
    requires Inv(s)
    ensures Step(s, FinallyStep(x, open)).processing == NextProcessing(s, FinallyStep(x, open))
  {
    if x in s.workers && s.workers[x] == Finishing {
      RetireKeeps(s, x);
      DrainProcesses(Retire(s, x), open);
    }
  }

  lemma DrainProcesses(s: State, open: OpenResult)
    ensures Drain(s, open).processing == s.processing
  {
  }

  lemma ProcessingAfter(s: State, e: Event)
    requires Inv(s)
    ensures Step(s, e).processing == NextProcessing(s, e)
  {
    match e
    case BeginCall(source, policy, open, closeFails) => BeginProcessing(s, source, policy, open, closeFails);
    case StopCall(x, closeFails, resampleFails) => StopTable(s, x, closeFails, resampleFails, x);
    case CancelCall(x, closeFails) => CancelProcesses(s, x, closeFails);
    case CloseCall(closeFails) => CloseProcesses(s, closeFails);
    case FinallyStep(x, open) => FinallyProcesses(s, x, open);
    case _ =>
  }

  // ---------- when it happens ----------

  // An event as a whole: workers, status and the remembered session afterwards.
  lemma BehindAfter(s: State, e: Event, id: Id)
    requires Inv(s) && !Behind(s, id)
    ensures Behind(Step(s, e), id) <==> Overlaps(s, e) && s.processing == Some(id)
  {
    StepTable(s, e, id);
    WorkersAfter(s, e, id);
    ProcessingAfter(s, e);
  }

  /** Sessions come to be processed side by side in exactly two ways: by a remote submission, or by a stop
      that hands its recording to a worker, while the remembered session is still being processed. */
  lemma OverlapsIff(s: State, e: Event)
    requires Inv(s) && !Overlapped(s)
    ensures Overlapped(Step(s, e)) <==> Overlaps(s, e)
  {
    if Overlaps(s, e) {
      BehindAfter(s, e, s.processing.value);
    } else {
      forall id ensures !Behind(Step(s, e), id) {
        BehindAfter(s, e, id);
      }
    }
  }

  // ---------- what it means for the queue and for `cancel` ----------

  lemma ProcessedAfterDrain(s: State, e: Event, id: Id)
    requires Inv(s) && Drains(s, e)
    ensures Processed(Step(s, e), id) <==> id != e.id && Behind(s, id)
  {
    StepTable(s, e, id);
    WorkersAfter(s, e, id);
  }

  /** A begin taken from the queue starts beside a session that is still being processed exactly if one
      other than the retiring worker's own was left behind.  So where nothing overlaps, nothing is being
      processed any more when a queued begin is taken up. */
  lemma DrainsBesideIff(s: State, e: Event)
    requires Inv(s) && Drains(s, e)
    ensures (exists id :: Processed(Step(s, e), id)) <==> (exists id :: id != e.id && Behind(s, id))
    ensures !Overlapped(s) ==> forall id :: !Processed(Step(s, e), id)
  {
    forall id ensures Processed(Step(s, e), id) <==> id != e.id && Behind(s, id) {
      ProcessedAfterDrain(s, e, id);
    }
  }

  /** A session that is being processed can be canceled exactly if it is the remembered one and has a
      runtime entry; otherwise `cancel` raises StateError and changes nothing. */
  lemma CancelsProcessedIff(s: State, id: Id, closeFails: bool)
    requires Inv(s) && Processed(s, id)
    ensures var (t, a) := CancelSession(s, id, closeFails);
            && (a == Done <==> s.processing == Some(id) && id in s.sessions)
            && (a != Done ==> a == Raised(StateError) && t == s)
  {
    assert s.recording != Some(id);
  }

  // ---------- the witness ----------

  const TWO_REMOTE := [SubmitRemoteCall] + [SubmitRemoteCall]
  const QUEUE_ONE := BeginCall(BATCH, QUEUE, Opened, false)

  // Two remote sessions, and a queued begin.
  lemma TwoRemote()
    ensures var s := Run(INITIAL, TWO_REMOTE);
            && Behind(s, 0) && s.processing == Some(1) && s.workers == map[0 := Starting, 1 := Starting]
            && s.recording.None? && s.pending == [] && s.drained == [] && s.nextTicket == 0 && s.nextId == 2
            && s.canceled == {} && s.capture.state == IDLE && s.store == map[0 := PROCESSING, 1 := PROCESSING]
            && s.sessions == map[]
  {
    RunConcat(INITIAL, [SubmitRemoteCall], [SubmitRemoteCall]);
    RunOne(INITIAL, SubmitRemoteCall);
    RunOne(Step(INITIAL, SubmitRemoteCall), SubmitRemoteCall);
  }

  // The second worker goes through to its last step.
  lemma SecondEnds(s: State)
    requires 1 in s.workers && s.workers[1] == Starting && s.canceled == {} && 1 in s.store
    ensures var t := Run(s, [CheckStep(1), ReturnStep(1, Delivered(false)), PublishStep(1)]);
            t == s.(workers := s.workers[1 := Finishing], injected := s.injected + [1], store := s.store[1 := DONE])
  {
    RunThree(s, CheckStep(1), ReturnStep(1, Delivered(false)), PublishStep(1));
    var a := Step(s, CheckStep(1));
    var b := Step(a, ReturnStep(1, Delivered(false)));
    assert b.workers == s.workers[1 := Returned(Delivered(false))];
    assert b.workers[1 := Finishing] == s.workers[1 := Finishing];
  }

  const BESIDE := (TWO_REMOTE + [QUEUE_ONE]) + [CheckStep(1), ReturnStep(1, Delivered(false)), PublishStep(1)]

  /** The run: two remote submissions and a queued begin.  When the second worker retires, the begin is
      taken up and records while the first session is still being processed, and that one cannot be
      canceled. */
  lemma DrainsBeside(closeFails: bool)
    ensures var s := Run(INITIAL, BESIDE);
            var t := Step(s, FinallyStep(1, Opened));
            && t.drained == [0] && t.recording == Some(2)
            && Processed(t, 0) && CancelSession(t, 0, closeFails) == (t, Raised(StateError))
  {
    var s0 := Run(INITIAL, TWO_REMOTE);
    TwoRemote();
    RunConcat(INITIAL, TWO_REMOTE, [QUEUE_ONE]);
    RunOne(s0, QUEUE_ONE);
    var s1 := Step(s0, QUEUE_ONE);
    assert s1 == s0.(pending := [0], nextTicket := 1);
    RunConcat(INITIAL, TWO_REMOTE + [QUEUE_ONE], [CheckStep(1), ReturnStep(1, Delivered(false)), PublishStep(1)]);
    SecondEnds(s1);
    RunKeeps(INITIAL, BESIDE);
    BesideDrains(Run(INITIAL, BESIDE), closeFails);
  }

  lemma BesideDrains(s: State, closeFails: bool)
    requires Inv(s) && Drains(s, FinallyStep(1, Opened)) && Behind(s, 0) && s.nextId == 2 && s.capture.state == IDLE
    requires s.pending == [0] && s.drained == [] && 0 !in s.sessions
    ensures var t := Step(s, FinallyStep(1, Opened));
            && t.drained == [0] && t.recording == Some(2)
            && Processed(t, 0) && CancelSession(t, 0, closeFails) == (t, Raised(StateError))
  {
    var e := FinallyStep(1, Opened);
    StepTable(s, e, 0);
    ProcessedAfterDrain(s, e, 0);
    StepKeeps(s, e);
    ProcessingAfter(s, e);
    DrainsOneTicket(s, e);
    CancelsProcessedIff(Step(s, e), 0, closeFails);
  }

  lemma DrainsOneTicket(s: State, e: Event)
    requires Inv(s) && Drains(s, e)
    ensures Step(s, e).drained == s.drained + [s.pending[0]]
  {
    DrainsIff(s, e);
    DrainsOnlyWhenIdle(s, e);
  }
}
