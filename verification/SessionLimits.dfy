/** What the session protocol does not promise, and exactly when it fails to. */
module SessionLimits {
  import opened Wrappers
  import opened CaptureSpec
  import opened SessionSpec
  import opened SessionProofs
  import opened SessionTheorems
  import opened SessionTable

  lemma {:induction false} RunConcat(s: State, a: seq<Event>, b: seq<Event>)
    ensures Run(s, a + b) == Run(Run(s, a), b)
    decreases |a|
  {
    if a == [] {
      assert a + b == b;
    } else {
      assert (a + b)[1..] == a[1..] + b;
      RunConcat(Step(s, a[0]), a[1..], b);
    }
  }

  lemma RunOne(s: State, a: Event)
    ensures Run(s, [a]) == Step(s, a)
  {
    assert [a][1..] == [];
    assert Run(Step(s, a), []) == Step(s, a);
  }

  lemma RunThree(s: State, a: Event, b: Event, c: Event)
    ensures Run(s, [a, b, c]) == Step(Step(Step(s, a), b), c)
  {
    assert [a, b, c] == [a] + ([b] + [c]);
    RunConcat(s, [a], [b] + [c]);
    RunConcat(Step(s, a), [b], [c]);
    RunOne(s, a);
    RunOne(Step(s, a), b);
    RunOne(Step(Step(s, a), b), c);
  }

  // ---------- DONE is not final ----------

  predicate DoneIn(s: State, id: Id) { StatusOf(s, id) == Some(DONE) }

  // A session stored as DONE has no unfinished worker.
  predicate DoneInv(s: State)
  {
    forall id :: DoneIn(s, id) && id in s.workers ==> s.workers[id] == Finishing
  }

  lemma StepKeepsDone(s: State, e: Event)
    requires Inv(s) && DoneInv(s)
    ensures DoneInv(Step(s, e))
  {
    StepReach(s, e);
    StepKeeps(s, e);
    var t := Step(s, e);
    forall id | DoneIn(t, id) && id in t.workers ensures t.workers[id] == Finishing {
      DoneWorker(s, e, id);
    }
  }

  lemma DoneWorker(s: State, e: Event, id: Id)
    requires Inv(s) && DoneInv(s) && Reach(s, e, Step(s, e)) && DoneIn(Step(s, e), id) && id in Step(s, e).workers
    ensures Step(s, e).workers[id] == Finishing
  {
    StepTable(s, e, id);
    if !DoneIn(s, id) {
      if e.StopCall? {
        DoneStopHasNoWorker(s, id, e.closeFails, e.resampleFails);
      } else {
        assert e.PublishStep? && e.id == id;
      }
    }
  }

  lemma DoneStopHasNoWorker(s: State, id: Id, closeFails: bool, resampleFails: bool)
    requires Inv(s) && s.recording == Some(id) && Stopped(s.capture, closeFails, resampleFails) == Some(DONE)
    ensures id !in Stop(s, id, closeFails, resampleFails).0.workers
  {
    HolderReleasesStream(s.capture, s.sessions[id].handle.value, closeFails);
  }

  lemma {:induction false} RunKeepsDone(s: State, events: seq<Event>)
    requires Inv(s) && DoneInv(s)
    ensures DoneInv(Run(s, events))
    decreases |events|
  {
    if events != [] {
      StepKeepsDone(s, events[0]);
      StepKeeps(s, events[0]);
      RunKeepsDone(Step(s, events[0]), events[1..]);
    }
  }

  // The two calls that withdraw the processing session.
  predicate Withdraws(s: State, e: Event, id: Id)
  {
    && s.processing == Some(id)
    && (|| (e.CancelCall? && e.id == id && id in s.sessions)
        || (e.BeginCall? && Replaces(s, e.source, e.policy, e.closeFails)))
  }

  /** DONE is not final, and exactly two calls change it, both while its worker has published and not yet
      retired: a cancel of the session, if it has a runtime entry, which a remote one has not; and a batch
      begin under the cancel policy, if the recording, if any, lets go.  It then becomes CANCELED. */
  lemma DoneChangesIff(past: seq<Event>, e: Event, id: Id)
    ensures var s := Run(INITIAL, past);
            DoneIn(s, id) ==> StatusOf(Step(s, e), id) == Some(if Withdraws(s, e, id) then CANCELED else DONE)
  {
    RunKeeps(INITIAL, past);
    RunKeepsDone(INITIAL, past);
    DoneStepIff(Run(INITIAL, past), e, id);
  }

  lemma DoneStepIff(s: State, e: Event, id: Id)
    requires Inv(s) && DoneInv(s)
    ensures DoneIn(s, id) ==> StatusOf(Step(s, e), id) == Some(if Withdraws(s, e, id) then CANCELED else DONE)
  {
    StepTable(s, e, id);
  }

  // A remote session, published and not yet retired.
  const PUBLISHED_REMOTE: seq<Event> :=
    [SubmitRemoteCall] + [CheckStep(0), ReturnStep(0, Delivered(false)), PublishStep(0)]

  /** The witness: it is DONE, cancel refuses it, and a begin under the cancel policy makes it CANCELED. */
  lemma DoneIsChanged(closeFails: bool)
    ensures var s := Run(INITIAL, PUBLISHED_REMOTE);
            && DoneIn(s, 0) && s.injected == [0]
            && CancelSession(s, 0, closeFails).1 == Raised(StateError)
            && StatusOf(Step(s, BeginCall(BATCH, CANCEL, Opened, closeFails)), 0) == Some(CANCELED)
  {
    RunConcat(INITIAL, [SubmitRemoteCall], [CheckStep(0), ReturnStep(0, Delivered(false)), PublishStep(0)]);
    RunOne(INITIAL, SubmitRemoteCall);
    var s1 := Step(INITIAL, SubmitRemoteCall);
    RunThree(s1, CheckStep(0), ReturnStep(0, Delivered(false)), PublishStep(0));
    assert s1.workers == map[0 := Starting] && s1.processing == Some(0) && s1.recording.None?;
    var s2 := Step(s1, CheckStep(0));
    assert s2.workers == map[0 := Running];
    var s3 := Step(s2, ReturnStep(0, Delivered(false)));
    assert s3.workers == map[0 := Returned(Delivered(false))] && s3.canceled == {} && s3.injected == [];
    DoneChangesIff(PUBLISHED_REMOTE, BeginCall(BATCH, CANCEL, Opened, closeFails), 0);
  }

  // ---------- what steps do to the facade ----------

  // Kept by every call of the facade, whatever its arguments.
  ghost predicate Closed(p: Facade -> bool)
  {
    && (forall c, open :: p(c) ==> p(StartBatch(c, open).0))
    && (forall c, open :: p(c) ==> p(StartStream(c, open).0))
    && (forall c, h, f, g :: p(c) ==> p(StopBatch(c, h, f, g).0))
    && (forall c, h, f :: p(c) ==> p(CancelBatch(c, h, f).0))
    && (forall c, h, f :: p(c) ==> p(StopStream(c, h, f).0))
    && (forall c :: p(c) ==> p(TimeUp(c)))
  }

  lemma BeginKeepsFacade(p: Facade -> bool, s: State, open: OpenResult)
    requires Closed(p) && p(s.capture)
    ensures p(BeginBatch(s, open).0.capture) && p(BeginRealtime(s, open).0.capture)
  {
    assert p(StartBatch(s.capture, open).0) && p(StartStream(s.capture, open).0);
  }

  lemma CancelKeepsFacade(p: Facade -> bool, s: State, x: Id, closeFails: bool)
    requires Closed(p) && p(s.capture)
    ensures p(CancelSession(s, x, closeFails).0.capture)
  {
    if x in s.sessions && s.sessions[x].handle.Some? {
      var h := s.sessions[x].handle.value;
      assert p(StopStream(s.capture, h, closeFails).0) && p(CancelBatch(s.capture, h, closeFails).0);
    }
  }

  lemma CancelCurrentKeepsFacade(p: Facade -> bool, s: State, closeFails: bool)
    requires Closed(p) && p(s.capture)
    ensures p(CancelCurrentSessions(s, closeFails).0.capture)
  {
    if s.recording.Some? {
      CancelKeepsFacade(p, s, s.recording.value, closeFails);
    }
  }

  lemma BeginCallKeepsFacade(p: Facade -> bool, s: State, e: Event)
    requires Closed(p) && p(s.capture) && e.BeginCall?
    ensures p(Step(s, e).capture)
  {
    BeginKeepsFacade(p, s, e.open);
    if e.source == BATCH && ResolveBeginAction(e.policy, s.recording.Some?, s.processing.Some?) == CancelCurrent {
      var (t, a) := CancelCurrentSessions(s, e.closeFails);
      CancelCurrentKeepsFacade(p, s, e.closeFails);
      BeginKeepsFacade(p, t, e.open);
      assert Step(s, e) == if a.Raised? then t else BeginBatch(t, e.open).0;
    }
  }

  lemma StopKeepsFacade(p: Facade -> bool, s: State, x: Id, closeFails: bool, resampleFails: bool)
    requires Closed(p) && p(s.capture)
    ensures p(Stop(s, x, closeFails, resampleFails).0.capture)
  {
    if x in s.sessions && s.sessions[x].handle.Some? {
      var h := s.sessions[x].handle.value;
      assert p(StopStream(s.capture, h, closeFails).0) && p(StopBatch(s.capture, h, closeFails, resampleFails).0);
    }
  }

  lemma FinallyKeepsFacade(p: Facade -> bool, s: State, x: Id, open: OpenResult)
    requires Closed(p) && p(s.capture)
    ensures p(WorkerFinally(s, x, open).capture)
  {
    var t := Retire(s, x);
    if t.pending != [] {
      BeginKeepsFacade(p, t.(pending := t.pending[1..], drained := t.drained + [t.pending[0]]), open);
    }
  }

  lemma StepKeepsFacade(p: Facade -> bool, s: State, e: Event)
    requires Closed(p) && p(s.capture) && (e.DeviceErrorReport? ==> p(DeviceError(s.capture)))
    ensures p(Step(s, e).capture)
  {
    match e
    case BeginCall(_, _, _, _) => BeginCallKeepsFacade(p, s, e);
    case StopCall(x, closeFails, resampleFails) => StopKeepsFacade(p, s, x, closeFails, resampleFails);
    case CancelCall(x, closeFails) => CancelKeepsFacade(p, s, x, closeFails);
    case CloseCall(closeFails) =>
      if s.recording.Some? {
        CancelKeepsFacade(p, MarkProcessing(s), s.recording.value, closeFails);
      }
    case FinallyStep(x, open) => FinallyKeepsFacade(p, s, x, open);
    case _ =>
  }

  // ---------- a device error during realtime ----------

  // No stream is open on a facade in the error state.
  predicate NotWedged(c: Facade) { FacadeInv(c) && !(c.streamHandle.Some? && c.state == ERROR) }

  lemma NotWedgedIsClosed()
    ensures Closed(NotWedged)
  {
  }

  /** A realtime session is wedged by a device error, always, and by nothing else. */
  lemma WedgesIff(past: seq<Event>, e: Event, id: Id)
    ensures var s := Run(INITIAL, past);
            !Wedged(s, id) ==>
              (Wedged(Step(s, e), id) <==>
                 && e.DeviceErrorReport? && s.recording == Some(id)
                 && id in s.sessions && s.sessions[id].source == REALTIME)
  {
    RunKeeps(INITIAL, past);
    WedgesStepIff(Run(INITIAL, past), e, id);
  }

  lemma WedgesStepIff(s: State, e: Event, id: Id)
    requires Inv(s)
    ensures !Wedged(s, id) ==>
              (Wedged(Step(s, e), id) <==>
                 && e.DeviceErrorReport? && s.recording == Some(id)
                 && id in s.sessions && s.sessions[id].source == REALTIME)
  {
    if !Wedged(s, id) {
      if e.DeviceErrorReport? {
        DeviceErrorWedgesIff(s, id);
      } else {
        OthersDoNotWedge(s, e, id);
      }
    }
  }

  lemma DeviceErrorWedgesIff(s: State, id: Id)
    requires Inv(s)
    ensures Wedged(Step(s, DeviceErrorReport), id) <==>
              s.recording == Some(id) && id in s.sessions && s.sessions[id].source == REALTIME
  {
  }

  lemma OthersDoNotWedge(s: State, e: Event, id: Id)
    requires Inv(s) && !Wedged(s, id) && !e.DeviceErrorReport?
    ensures !Wedged(Step(s, e), id)
  {
    if NotWedged(s.capture) {
      NotWedgedIsClosed();
      StepKeepsFacade(NotWedged, s, e);
    } else {
      StepWedged(s, e, s.recording.value);
    }
  }

  /** The witness: a realtime begin and a device error. */
  lemma DeviceErrorWedges()
    ensures Wedged(Run(INITIAL, [BeginCall(REALTIME, QUEUE, Opened, false)] + [DeviceErrorReport]), 0)
  {
    var e := BeginCall(REALTIME, QUEUE, Opened, false);
    RunConcat(INITIAL, [e], [DeviceErrorReport]);
    RunOne(INITIAL, e);
    RunOne(Step(INITIAL, e), DeviceErrorReport);
  }

  // ---------- a microphone that is lost ----------

  // In the error state, and without a batch recording, whose end would clear it.
  predicate Lost(c: Facade) { c.state == ERROR && c.recorder.active.None? }

  lemma LostIsClosed()
    ensures Closed(Lost)
  {
  }

  lemma {:induction false} LostForever(s: State, events: seq<Event>)
    requires Inv(s) && Lost(s.capture)
    ensures Run(s, events).recording == s.recording
    decreases |events|
  {
    if events != [] {
      StepKeeps(s, events[0]);
      StepTable(s, events[0], 0);
      LostIsClosed();
      StepKeepsFacade(Lost, s, events[0]);
      LostForever(Step(s, events[0]), events[1..]);
    }
  }

  // Some further run of calls and reports gets a new session to record.
  ghost predicate CanRecord(s: State)
  {
    exists events :: var t := Run(s, events); t.recording.Some? && t.recording != s.recording
  }

  // Cancel what records, then begin.
  function Renewal(s: State): seq<Event>
  {
    (if s.recording.Some? then [CancelCall(s.recording.value, false)] else [])
    + [BeginCall(REALTIME, QUEUE, Opened, false)]
  }

  lemma RenewalRecords(s: State)
    requires Inv(s) && !Lost(s.capture)
    ensures var t := Run(s, Renewal(s)); t.recording.Some? && t.recording != s.recording
  {
    var e := BeginCall(REALTIME, QUEUE, Opened, false);
    var first := if s.recording.Some? then [CancelCall(s.recording.value, false)] else [];
    RunConcat(s, first, [e]);
    var t := Run(s, first);
    if s.recording.Some? {
      RunOne(s, first[0]);
      CancelRecordingIff(s, s.recording.value, false);
      CancelReach(s, s.recording.value, false);
    }
    RunKeeps(s, first);
    assert t.capture.state == IDLE && t.recording.None? && t.nextId == s.nextId;
    RunOne(t, e);
    StepTable(t, e, 0);
  }

  /** After an error of the facade nothing records anew, whatever is called, unless a batch recording is
      still open on it: no call of the manager brings the facade back. */
  lemma RecordsAgainIff(s: State)
    requires Inv(s)
    ensures CanRecord(s) <==> !Lost(s.capture)
  {
    if Lost(s.capture) {
      forall events ensures Run(s, events).recording == s.recording {
        LostForever(s, events);
      }
    } else {
      RenewalRecords(s);
    }
  }

  // ---------- the queue ----------

  /** A begin leaves the queue exactly in the `finally` block of a worker at its last step, with one
      waiting, nothing recording and no other session remembered as processing. */
  lemma DrainsIff(s: State, e: Event)
    requires Inv(s)
    ensures Step(s, e).drained != s.drained <==> Drains(s, e)
  {
    StepReach(s, e);
    if e.FinallyStep? && e.id in s.workers && s.workers[e.id] == Finishing {
      FinallyTable(s, e.id, e.open, 0);
    }
  }

  predicate NoStarts(events: seq<Event>)
  {
    forall i :: 0 <= i < |events| ==> !StartsWorker(events[i])
  }

  // Some further run, without giving the manager new work, takes a begin from the queue.
  ghost predicate CanDrain(s: State)
  {
    exists events :: NoStarts(events) && Run(s, events).drained != s.drained
  }

  lemma {:induction false} NoDrainWhileWedged(s: State, events: seq<Event>, id: Id)
    requires Inv(s) && Wedged(s, id)
    ensures Run(s, events).drained == s.drained
    decreases |events|
  {
    if events != [] {
      StepKeeps(s, events[0]);
      StepWedged(s, events[0], id);
      DrainsIff(s, events[0]);
      NoDrainWhileWedged(Step(s, events[0]), events[1..], id);
    }
  }

  // The steps that bring a worker to its end, wherever it stands; those it has behind it do nothing.
  function ToTheEnd(id: Id): seq<Event> { [CheckStep(id), ReturnStep(id, PipelineCanceled), PublishStep(id)] }

  // Only where the worker stands has changed.
  predicate Advanced(s: State, t: State, id: Id)
  {
    && id in t.workers && t.canceled == s.canceled && t.pending == s.pending && t.drained == s.drained
    && t.recording == s.recording && t.processing == s.processing
  }

  lemma CheckAdvances(s: State, id: Id)
    requires id in s.workers
    ensures var t := Step(s, CheckStep(id)); Advanced(s, t, id) && t.workers[id] != Starting
  {
  }

  lemma ReturnAdvances(s: State, id: Id)
    requires id in s.workers && s.workers[id] != Starting
    ensures var t := Step(s, ReturnStep(id, PipelineCanceled));
            Advanced(s, t, id) && t.workers[id] != Starting && t.workers[id] != Running
  {
  }

  lemma PublishAdvances(s: State, id: Id)
    requires id in s.workers && s.workers[id] != Starting && s.workers[id] != Running
    ensures var t := Step(s, PublishStep(id)); Advanced(s, t, id) && t.workers[id] == Finishing
  {
  }

  lemma WorkerEnds(s: State, id: Id)
    requires Inv(s) && id in s.workers
    ensures var t := Run(s, ToTheEnd(id)); Inv(t) && Advanced(s, t, id) && t.workers[id] == Finishing
  {
    RunThree(s, CheckStep(id), ReturnStep(id, PipelineCanceled), PublishStep(id));
    RunKeeps(s, ToTheEnd(id));
    CheckAdvances(s, id);
    var t := Step(s, CheckStep(id));
    ReturnAdvances(t, id);
    PublishAdvances(Step(t, ReturnStep(id, PipelineCanceled)), id);
  }

  lemma IdleDrains(s: State)
    requires Inv(s) && s.pending != [] && s.recording.None? && s.workers != map[]
    ensures CanDrain(s)
  {
    var id := if s.processing.Some? then s.processing.value else var x :| x in s.workers; x;
    WorkerEnds(s, id);
    var t := Run(s, ToTheEnd(id));
    var last := FinallyStep(id, Opened);
    RunConcat(s, ToTheEnd(id), [last]);
    RunOne(t, last);
    DrainsIff(t, last);
    assert NoStarts(ToTheEnd(id) + [last]);
    assert Run(s, ToTheEnd(id) + [last]).drained != s.drained;
  }

  /** A waiting begin can still be taken up without new work exactly when a worker lives and no realtime
      session is wedged. */
  lemma CanDrainIff(s: State)
    requires Inv(s) && s.pending != []
    ensures CanDrain(s) <==> s.workers != map[] && !(s.recording.Some? && Wedged(s, s.recording.value))
  {
    if s.workers == map[] {
      forall events | NoStarts(events) ensures Run(s, events).drained == s.drained {
        NoDrainWithoutWorker(s, events);
      }
    } else if s.recording.None? {
      IdleDrains(s);
    } else if Wedged(s, s.recording.value) {
      forall events ensures Run(s, events).drained == s.drained {
        NoDrainWhileWedged(s, events, s.recording.value);
      }
    } else {
      RecordingDrains(s, s.recording.value);
    }
  }

  // The recording can be canceled, and then an idle manager drains.
  lemma RecordingDrains(s: State, id: Id)
    requires Inv(s) && s.pending != [] && s.workers != map[] && s.recording == Some(id) && !Wedged(s, id)
    ensures CanDrain(s)
  {
    var cancel := CancelCall(id, false);
    var t := Step(s, cancel);
    StepKeeps(s, cancel);
    CancelRecordingIff(s, id, false);
    CancelReach(s, id, false);
    IdleDrains(t);
    DrainsLater(s, cancel);
  }

  lemma DrainsLater(s: State, e: Event)
    requires CanDrain(Step(s, e)) && Step(s, e).drained == s.drained && !StartsWorker(e)
    ensures CanDrain(s)
  {
    var events :| NoStarts(events) && Run(Step(s, e), events).drained != s.drained;
    RunConcat(s, [e], events);
    RunOne(s, e);
    assert NoStarts([e] + events);
    assert Run(s, [e] + events).drained != s.drained;
  }

  // Waiting on a manager that records nothing and has no worker.
  predicate Stranded(s: State) { s.pending != [] && s.recording.None? && s.workers == map[] }

  // The ways there: the recording the queue waited behind ends without giving a worker anything, or the
  // last worker hands over to a begin that fails, with more behind it.
  predicate Strands(s: State, e: Event)
  {
    && s.pending != []
    && match e
       case CancelCall(x, closeFails) => s.workers == map[] && s.recording == Some(x) && LetsGo(s.capture, closeFails)
       case StopCall(x, closeFails, resampleFails) =>
         && s.workers == map[] && s.recording == Some(x)
         && Stopped(s.capture, closeFails, resampleFails) in {Some(DONE), Some(FAILED)}
       case BeginCall(source, policy, open, closeFails) =>
         s.workers == map[] && Replaces(s, source, policy, closeFails) && open != Opened
       case FinallyStep(x, open) =>
         && Drains(s, e) && s.workers.Keys == {x} && |s.pending| >= 2
         && !(s.capture.state == IDLE && open == Opened)
       case _ => false
  }

  lemma CallStrandsIff(s: State, e: Event)
    requires Inv(s) && !Stranded(s) && (e.CancelCall? || e.CloseCall?)
    ensures Stranded(Step(s, e)) <==> Strands(s, e)
  {
    StepTable(s, e, 0);
    if e.CancelCall? {
      CancelReach(s, e.id, e.closeFails);
    } else {
      CloseReach(s, e.closeFails);
    }
  }

  lemma BeginStrandsIff(s: State, e: Event)
    requires Inv(s) && !Stranded(s) && e.BeginCall?
    ensures Stranded(Step(s, e)) <==> Strands(s, e)
  {
    BeginReach(s, e.source, e.policy, e.open, e.closeFails);
    if s.workers == map[] && s.recording.Some? {
      RecordingBeginStrandsIff(s, e);
    }
  }

  lemma RecordingBeginStrandsIff(s: State, e: Event)
    requires Inv(s) && e.BeginCall? && s.workers == map[] && s.recording.Some?
    requires Step(s, e).workers == s.workers
    ensures Stranded(Step(s, e)) <==> Strands(s, e)
  {
    StepTable(s, e, 0);
    if Replaces(s, e.source, e.policy, e.closeFails) {
      ReplacingKeepsQueue(s, e.open, e.closeFails);
    } else {
      assert Step(s, e).recording.Some?;
    }
  }

  lemma ReplacingKeepsQueue(s: State, open: OpenResult, closeFails: bool)
    requires Inv(s) && (s.recording.Some? || s.processing.Some?)
    ensures Begin(s, BATCH, CANCEL, open, closeFails).0.pending == s.pending
  {
    Replacing(s, open, closeFails);
    CancelingKeepsQueue(s, closeFails);
    BatchKeepsQueue(CancelCurrentSessions(s, closeFails).0, open);
  }

  lemma CancelingKeepsQueue(s: State, closeFails: bool)
    requires Inv(s)
    ensures CancelCurrentSessions(s, closeFails).0.pending == s.pending
  {
    CancelCurrentReach(s, closeFails);
  }

  lemma BatchKeepsQueue(s: State, open: OpenResult)
    ensures BeginBatch(s, open).0.pending == s.pending
  {
  }

  lemma StopStrandsIff(s: State, x: Id, closeFails: bool, resampleFails: bool)
    requires Inv(s) && !Stranded(s)
    ensures Stranded(Stop(s, x, closeFails, resampleFails).0) <==> Strands(s, StopCall(x, closeFails, resampleFails))
  {
    StopTable(s, x, closeFails, resampleFails, x);
    var t := Stop(s, x, closeFails, resampleFails).0;
    assert t.workers != map[] <==>
             s.workers != map[] || (s.recording == Some(x) && Stopped(s.capture, closeFails, resampleFails) == Some(PROCESSING)) by {
      assert x in s.workers[x := Starting];
    }
  }

  lemma FinallyStrandsIff(s: State, x: Id, open: OpenResult)
    requires Inv(s) && !Stranded(s)
    ensures Stranded(Step(s, FinallyStep(x, open))) <==> Strands(s, FinallyStep(x, open))
  {
    var e := FinallyStep(x, open);
    if x in s.workers && s.workers[x] == Finishing {
      var t := Retire(s, x);
      RetireKeeps(s, x);
      DrainReach(t, open);
      DrainTable(t, open, 0);
      assert t.workers == map[] <==> s.workers.Keys == {x};
    }
  }

  /** Exactly four kinds of step strand the queue. */
  lemma StrandsIff(s: State, e: Event)
    requires Inv(s) && !Stranded(s)
    ensures Stranded(Step(s, e)) <==> Strands(s, e)
  {
    match e
    case StopCall(x, closeFails, resampleFails) => StopStrandsIff(s, x, closeFails, resampleFails);
    case FinallyStep(x, open) => FinallyStrandsIff(s, x, open);
    case BeginCall(_, _, _, _) => BeginStrandsIff(s, e);
    case CancelCall(_, _) => CallStrandsIff(s, e);
    case CloseCall(_) => CallStrandsIff(s, e);
    case _ =>
  }

  const BATCH_BEGIN := BeginCall(BATCH, QUEUE, Opened, false)

  lemma FirstBegin()
    ensures var s := Step(INITIAL, BATCH_BEGIN);
            && s.recording == Some(0) && s.workers == map[] && s.pending == [] && s.nextTicket == 0 && LetsGo(s.capture, false)
  {
  }

  lemma QueuedBegin(s: State)
    requires s.recording.Some?
    ensures Step(s, BATCH_BEGIN) == s.(pending := s.pending + [s.nextTicket], nextTicket := s.nextTicket + 1)
  {
  }

  lemma TwoBegins()
    ensures var s := Run(INITIAL, [BATCH_BEGIN] + [BATCH_BEGIN]);
            Inv(s) && s.recording == Some(0) && s.workers == map[] && s.pending == [0] && LetsGo(s.capture, false)
  {
    var s := Step(INITIAL, BATCH_BEGIN);
    RunKeeps(INITIAL, [BATCH_BEGIN] + [BATCH_BEGIN]);
    RunConcat(INITIAL, [BATCH_BEGIN], [BATCH_BEGIN]);
    RunOne(INITIAL, BATCH_BEGIN);
    RunOne(s, BATCH_BEGIN);
    FirstBegin();
    QueuedBegin(s);
  }

  /** The witness: record, queue a second begin, cancel the first. */
  lemma CancelStrandsQueue()
    ensures var s := Run(INITIAL, ([BATCH_BEGIN] + [BATCH_BEGIN]) + [CancelCall(0, false)]);
            Stranded(s) && s.pending == [0] && !CanDrain(s)
  {
    var s := Run(INITIAL, [BATCH_BEGIN] + [BATCH_BEGIN]);
    TwoBegins();
    RunConcat(INITIAL, [BATCH_BEGIN] + [BATCH_BEGIN], [CancelCall(0, false)]);
    RunOne(s, CancelCall(0, false));
    CancelStrands(s, 0);
  }

  lemma CancelStrands(s: State, id: Id)
    requires Inv(s) && s.recording == Some(id) && s.workers == map[] && s.pending != [] && LetsGo(s.capture, false)
    ensures var t := Step(s, CancelCall(id, false)); Stranded(t) && t.pending == s.pending && !CanDrain(t)
  {
    var e := CancelCall(id, false);
    StrandsIff(s, e);
    CancelReach(s, id, false);
    StepKeeps(s, e);
    StrandedStays(Step(s, e));
  }

  lemma StrandedStays(s: State)
    requires Inv(s) && Stranded(s)
    ensures !CanDrain(s)
  {
    CanDrainIff(s);
  }
}
