/** What is stored for a session in the end: when it is left as still going on. */
module SessionEnds {
  import opened Wrappers
  import opened CaptureSpec
  import opened SessionSpec
  import opened SessionProofs
  import opened SessionTheorems
  import opened SessionTable
  import opened SessionLimits

  predicate Terminal(status: Status) { status == DONE || status == FAILED || status == CANCELED }

  // Stored as still going on, with nothing left that could end it.
  predicate Abandoned(s: State, id: Id)
  {
    id in s.store && !Terminal(s.store[id]) && s.recording != Some(id) && id !in s.workers
  }

  /** Once abandoned a session is so for good, over every run. */
  lemma AbandonedForever(s: State, events: seq<Event>, id: Id)
    requires Inv(s) && Abandoned(s, id)
    ensures StatusOf(Run(s, events), id) == StatusOf(s, id)
  {
    SettledForever(s, events, id);
  }

  // A worker that retires without having given its session an end, or a new session whose driver crashed.
  predicate Abandons(s: State, e: Event, id: Id)
  {
    || (e.FinallyStep? && e.id == id && id in s.workers && s.workers[id] == Finishing
        && id in s.store && !Terminal(s.store[id]))
    || (&& id == s.nextId && NextStatus(s, e, id) == Some(RECORDING_STATUS)
        && (e.BeginCall? || e.FinallyStep?) && e.open == OpenCrashed)
  }

  lemma WorkersAfterCall(s: State, e: Event)
    requires Inv(s) && (e.BeginCall? || e.CancelCall? || e.CloseCall?)
    ensures Step(s, e).workers == s.workers
  {
    match e
    case BeginCall(source, policy, open, closeFails) => BeginReach(s, source, policy, open, closeFails);
    case CancelCall(x, closeFails) => CancelReach(s, x, closeFails);
    case CloseCall(closeFails) => CloseReach(s, closeFails);
  }

  lemma WorkersAfter(s: State, e: Event, id: Id)
    requires Inv(s)
    ensures id in Step(s, e).workers <==>
              || (id in s.workers && !(e.FinallyStep? && e.id == id && s.workers[id] == Finishing))
              || (e.SubmitRemoteCall? && id == s.nextId)
              || (e.StopCall? && e.id == id && s.recording == Some(id)
                  && Stopped(s.capture, e.closeFails, e.resampleFails) == Some(PROCESSING))
  {
    match e
    case BeginCall(_, _, _, _) => WorkersAfterCall(s, e);
    case CancelCall(_, _) => WorkersAfterCall(s, e);
    case CloseCall(_) => WorkersAfterCall(s, e);
    case StopCall(x, closeFails, resampleFails) => StopTable(s, x, closeFails, resampleFails, x);
    case FinallyStep(x, open) => WorkersAfterFinally(s, x, open);
    case _ =>
  }

  lemma WorkersAfterFinally(s: State, x: Id, open: OpenResult)
    requires Inv(s)
    ensures Step(s, FinallyStep(x, open)).workers ==
            if x in s.workers && s.workers[x] == Finishing then s.workers - {x} else s.workers
  {
    if x in s.workers && s.workers[x] == Finishing {
      RetireKeeps(s, x);
      DrainReach(Retire(s, x), open);
    }
  }

  /** A session is abandoned in exactly these two ways. */
  lemma AbandonsIff(s: State, e: Event, id: Id)
    requires Inv(s) && !Abandoned(s, id)
    ensures Abandoned(Step(s, e), id) <==> Abandons(s, e, id)
  {
    StepTable(s, e, id);
    WorkersAfter(s, e, id);
  }

  /** And a worker reaches its end without an end for its session exactly when it publishes nothing and
      the session was not canceled: after `close`, which marks it only, or when the pipeline itself says
      that it was canceled. */
  lemma EndsWithoutStatusIff(s: State, e: Event, id: Id)
    requires Inv(s) && id in s.workers && s.workers[id] != Finishing && !Terminal(s.store[id])
    requires e == CheckStep(id) || e == PublishStep(id)
    ensures var t := Step(s, e);
            id in t.workers && id in t.store &&
            (t.workers[id] == Finishing ==>
               (!Terminal(t.store[id]) <==> id in s.canceled || s.workers[id] == Returned(PipelineCanceled)))
  {
    if e.PublishStep? && s.workers[id].Returned? {
      PublishEnds(s, id, s.workers[id].outcome);
    }
  }

  lemma PublishEnds(s: State, id: Id, outcome: PipelineOutcome)
    requires id in s.store && !Terminal(s.store[id])
    ensures var t := WorkerPublish(s, id, outcome);
            && id in t.workers && id in t.store
            && (!Terminal(t.store[id]) <==> id in s.canceled || outcome == PipelineCanceled)
  {
  }

  /** The witness: `close` while a worker has yet to begin leaves its session stored as processing. */
  lemma CloseAbandons()
    ensures var s := Run(INITIAL, [SubmitRemoteCall] + [CloseCall(false), CheckStep(0), FinallyStep(0, Opened)]);
            Abandoned(s, 0) && s.store[0] == PROCESSING && s.workers == map[]
  {
    RunConcat(INITIAL, [SubmitRemoteCall], [CloseCall(false), CheckStep(0), FinallyStep(0, Opened)]);
    RunOne(INITIAL, SubmitRemoteCall);
    var s1 := Step(INITIAL, SubmitRemoteCall);
    RunThree(s1, CloseCall(false), CheckStep(0), FinallyStep(0, Opened));
    assert s1.workers == map[0 := Starting] && s1.processing == Some(0) && s1.recording.None?;
    var s2 := Step(s1, CloseCall(false));
    assert s2.canceled == {0} && s2.pending == [];
    var s3 := Step(s2, CheckStep(0));
    assert s3.workers == map[0 := Finishing];
    assert s3.workers - {0} == map[];
  }

  // No `close`, no crash of the driver, and no pipeline that claims a cancellation nobody asked for.
  predicate OrderlyEvent(s: State, e: Event)
  {
    && !e.CloseCall?
    && (e.BeginCall? || e.FinallyStep? ==> e.open != OpenCrashed)
    && (e.ReturnStep? && e.outcome.PipelineCanceled? ==> e.id in s.canceled)
  }

  predicate Orderly(s: State, events: seq<Event>)
    decreases |events|
  {
    events == [] ||
    (OrderlyEvent(s, events[0]) && Orderly(Step(s, events[0]), events[1..]))
  }

  predicate OrderlyInv(s: State)
  {
    && (forall id :: id in s.store ==> !Abandoned(s, id))
    && (forall id :: id in s.canceled && id in s.store ==> s.store[id] == CANCELED)
    && (forall id :: id in s.workers && id in s.store ==>
          && (s.workers[id] == Finishing ==> Terminal(s.store[id]))
          && (s.workers[id] == Returned(PipelineCanceled) ==> id in s.canceled))
  }

  // Why a worker is at its end, or has a canceled pipeline behind it.
  // A worker comes to its last step, or back from a pipeline that claims a cancellation, by its own steps only.
  predicate Phased(s: State, e: Event, id: Id, w: map<Id, Phase>)
  {
    id in w ==>
      && (w[id] == Finishing ==>
            id in s.workers && (s.workers[id] == Finishing || ((e.CheckStep? || e.PublishStep?) && e.id == id)))
      && (w[id] == Returned(PipelineCanceled) ==>
            id in s.workers && (s.workers[id] == Returned(PipelineCanceled)
                                || (e.ReturnStep? && e.id == id && e.outcome.PipelineCanceled?)))
  }

  lemma PhaseAfter(s: State, e: Event, id: Id)
    requires Inv(s)
    ensures Phased(s, e, id, Step(s, e).workers)
  {
    match e
    case BeginCall(_, _, _, _) => WorkersAfterCall(s, e);
    case CancelCall(_, _) => WorkersAfterCall(s, e);
    case CloseCall(_) => WorkersAfterCall(s, e);
    case StopCall(x, closeFails, resampleFails) => StopTable(s, x, closeFails, resampleFails, x);
    case FinallyStep(x, open) => WorkersAfterFinally(s, x, open);
    case PublishStep(x) => PublishPhase(s, x, id);
    case _ => OwnPhase(s, e, id);
  }

  lemma PublishPhase(s: State, x: Id, id: Id)
    ensures Phased(s, PublishStep(x), id, Step(s, PublishStep(x)).workers)
  {
  }

  lemma OwnPhase(s: State, e: Event, id: Id)
    requires e.SubmitRemoteCall? || e.CheckStep? || e.ReturnStep? || e.DeviceErrorReport? || e.TimeUpReport?
    ensures Phased(s, e, id, Step(s, e).workers)
  {
  }

  // Only `close` and the two calls that withdraw a session mark its worker, and only its end unmarks it.
  lemma MarksAfter(s: State, e: Event, id: Id)
    requires Inv(s) && !e.CloseCall?
    ensures id in Step(s, e).canceled ==> id in s.canceled || Withdraws(s, e, id)
    ensures id in s.canceled && id in Step(s, e).workers ==> id in Step(s, e).canceled
  {
    if e.BeginCall? {
      MarksAfterBegin(s, e, id);
      WorkersAfter(s, e, id);
    } else if e.FinallyStep? {
      if e.id in s.workers && s.workers[e.id] == Finishing {
        MarksAfterFinally(s, e.id, e.open, id);
      }
    } else {
      MarksAfterOther(s, e, id);
    }
  }

  lemma MarksAfterOther(s: State, e: Event, id: Id)
    requires Inv(s) && !e.CloseCall? && !e.BeginCall? && !e.FinallyStep?
    ensures id in Step(s, e).canceled ==> id in s.canceled || Withdraws(s, e, id)
    ensures id in s.canceled ==> id in Step(s, e).canceled
  {
    match e
    case CancelCall(x, closeFails) => MarksAfterCancel(s, x, closeFails);
    case StopCall(x, closeFails, resampleFails) => MarksAfterStop(s, x, closeFails, resampleFails);
    case _ =>
  }

  lemma MarksAfterCancel(s: State, x: Id, closeFails: bool)
    requires Inv(s)
    ensures CancelSession(s, x, closeFails).0.canceled ==
            if s.processing == Some(x) && x in s.sessions then s.canceled + {x} else s.canceled
  {
  }

  lemma MarksAfterStop(s: State, x: Id, closeFails: bool, resampleFails: bool)
    ensures Stop(s, x, closeFails, resampleFails).0.canceled == s.canceled
  {
  }

  lemma MarksAfterBegin(s: State, e: Event, id: Id)
    requires Inv(s) && e.BeginCall?
    ensures Step(s, e).canceled ==
            if Replaces(s, e.source, e.policy, e.closeFails) && s.processing.Some? then s.canceled + {s.processing.value}
            else s.canceled
  {
    if e.source == BATCH && ResolveBeginAction(e.policy, s.recording.Some?, s.processing.Some?) == CancelCurrent {
      MarksAfterReplacing(s, e.open, e.closeFails);
    } else {
      assert Step(s, e).canceled == s.canceled;
    }
  }

  lemma MarksAfterReplacing(s: State, open: OpenResult, closeFails: bool)
    requires Inv(s) && (s.recording.Some? || s.processing.Some?)
    ensures Begin(s, BATCH, CANCEL, open, closeFails).0.canceled ==
            if LetsGo(s.capture, closeFails) && s.processing.Some? then s.canceled + {s.processing.value} else s.canceled
  {
    CancelCurrentMarks(s, closeFails);
    var t, a := CancelCurrentSessions(s, closeFails).0, CancelCurrentSessions(s, closeFails).1;
    assert BeginBatch(t, open).0.canceled == t.canceled;
    assert Begin(s, BATCH, CANCEL, open, closeFails).0 == if a.Raised? then t else BeginBatch(t, open).0;
  }

  lemma CancelCurrentMarks(s: State, closeFails: bool)
    requires Inv(s)
    ensures CancelCurrentSessions(s, closeFails).0.canceled ==
            if LetsGo(s.capture, closeFails) && s.processing.Some? then s.canceled + {s.processing.value} else s.canceled
  {
    CancelCurrentIff(s, closeFails);
    if s.recording.Some? {
      CancelRecordingIff(s, s.recording.value, closeFails);
    }
  }

  lemma MarksAfterFinally(s: State, x: Id, open: OpenResult, id: Id)
    requires Inv(s) && x in s.workers && s.workers[x] == Finishing
    ensures WorkerFinally(s, x, open).canceled == s.canceled - {x} && WorkerFinally(s, x, open).workers == s.workers - {x}
  {
    RetireKeeps(s, x);
    DrainReach(Retire(s, x), open);
  }

  lemma OrderlyMark(s: State, e: Event, id: Id)
    requires Inv(s) && OrderlyInv(s) && OrderlyEvent(s, e) && id in Step(s, e).canceled
    ensures StatusOf(Step(s, e), id) == Some(CANCELED)
  {
    StepTable(s, e, id);
    MarksAfter(s, e, id);
  }

  lemma OrderlyWorker(s: State, e: Event, id: Id)
    requires Inv(s) && OrderlyInv(s) && OrderlyEvent(s, e) && id in Step(s, e).workers && id in Step(s, e).store
    ensures Step(s, e).workers[id] == Finishing ==> Terminal(Step(s, e).store[id])
    ensures Step(s, e).workers[id] == Returned(PipelineCanceled) ==> id in Step(s, e).canceled
  {
    StepTable(s, e, id);
    PhaseAfter(s, e, id);
    MarksAfter(s, e, id);
  }

  lemma OrderlyStep(s: State, e: Event)
    requires Inv(s) && OrderlyInv(s) && OrderlyEvent(s, e)
    ensures OrderlyInv(Step(s, e))
  {
    var t := Step(s, e);
    forall id | id in t.store ensures !Abandoned(t, id) {
      AbandonsIff(s, e, id);
    }
    forall id | id in t.canceled && id in t.store ensures t.store[id] == CANCELED {
      OrderlyMark(s, e, id);
    }
    forall id | id in t.workers && id in t.store
      ensures t.workers[id] == Finishing ==> Terminal(t.store[id])
      ensures t.workers[id] == Returned(PipelineCanceled) ==> id in t.canceled
    {
      OrderlyWorker(s, e, id);
    }
  }

  /** Without those, over every run, a session that neither records nor has a worker has a terminal status. */
  lemma {:induction false} OrderlyRunsAbandonNone(s: State, events: seq<Event>)
    requires Inv(s) && OrderlyInv(s) && Orderly(s, events)
    ensures OrderlyInv(Run(s, events))
    decreases |events|
  {
    if events != [] {
      StepKeeps(s, events[0]);
      OrderlyStep(s, events[0]);
      OrderlyRunsAbandonNone(Step(s, events[0]), events[1..]);
    }
  }
}
