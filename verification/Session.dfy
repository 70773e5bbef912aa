/** `SessionManager` itself.  Every public method and every worker step is proved to perform the step
    of `SessionSpec` with the same name, on the manager's own fields and on the capture objects.

    `store` stands for the session table, `workers` for the live worker threads, and an exception is
    an `Answer.Raised`.  `injected`, `drained` and `nextTicket` record history. */
module Session {
  import opened Wrappers
  import opened CaptureSpec
  import opened SessionSpec
  import Capture

  class SessionManager {
    const mic: Capture.AudioCapture
    var store: map<Id, Status>
    var nextId: Id
    var sessions: map<Id, Runtime>
    var recordingId: Option<Id>
    var processingId: Option<Id>
    var pending: seq<Ticket>
    var canceled: set<Id>
    var activeWorkers: int
    var workers: map<Id, Phase>
    ghost var injected: seq<Id>
    ghost var drained: seq<Ticket>
    var nextTicket: Ticket

    ghost function View(): State
      reads this, mic, mic.batch
    {
      State(store, nextId, sessions, recordingId, processingId, pending, canceled, activeWorkers, workers,
            mic.View(), injected, drained, nextTicket)
    }

    constructor ()
      ensures View() == INITIAL
      ensures fresh(mic) && fresh(mic.batch)
    {
      mic := new Capture.AudioCapture();
      store, nextId, sessions := map[], 0, map[];
      recordingId, processingId, pending, canceled := None, None, [], {};
      activeWorkers, workers := 0, map[];
      injected, drained, nextTicket := [], [], 0;
    }

    method Begin(source: Source, policy: QueuePolicy, open: OpenResult, closeFails: bool) returns (a: Answer)
      modifies this, mic, mic.batch
      ensures (View(), a) == SessionSpec.Begin(old(View()), source, policy, open, closeFails)
    {
      if source == REALTIME {
        a := BeginRealtime(open);
        return;
      }
      if source == REMOTE {
        return Raised(NotImplemented);
      }
      var action := ResolveBeginAction(policy, recordingId.Some?, processingId.Some?);
      if action == Refuse {
        return Raised(Busy);
      }
      if action == Enqueue {
        pending := pending + [nextTicket];
        nextTicket := nextTicket + 1;
        return Raised(Queued);
      }
      if action == CancelCurrent {
        a := CancelCurrentSessions(closeFails);
        if a.Raised? {
          return;
        }
      }
      a := BeginBatch(open);
    }

    method BeginBatch(open: OpenResult) returns (a: Answer)
      modifies this, mic, mic.batch
      ensures (View(), a) == SessionSpec.BeginBatch(old(View()), open)
    {
      var id := nextId;
      store := store[id := RECORDING_STATUS];
      nextId := nextId + 1;
      var r := mic.StartBatch(open);
      match r {
        case AudioFailure =>
          SetStatus(id, FAILED);
          return Raised(AudioError);
        case Crash =>
          return Raised(Crashed);
        case Ok(n) =>
          sessions := sessions[id := Runtime(BATCH, Some(BatchHandle(n)))];
          recordingId := Some(id);
          SetStatus(id, RECORDING_STATUS);
          return Began(id);
      }
    }

    method BeginRealtime(open: OpenResult) returns (a: Answer)
      modifies this, mic, mic.batch
      ensures (View(), a) == SessionSpec.BeginRealtime(old(View()), open)
    {
      var id := nextId;
      store := store[id := RECORDING_STATUS];
      nextId := nextId + 1;
      var r := mic.StartStream(open);
      match r {
        case AudioFailure =>
          SetStatus(id, FAILED);
          return Raised(AudioError);
        case Crash =>
          return Raised(Crashed);
        case Ok(n) =>
          sessions := sessions[id := Runtime(REALTIME, Some(StreamHandle(n)))];
          recordingId := Some(id);
          SetStatus(id, RECORDING_STATUS);
          return Began(id);
      }
    }

    method SetStatus(id: Id, status: Status)
      modifies this`store
      ensures store == old(store)[id := status]
    {
      store := store[id := status];
    }

    method Stop(id: Id, closeFails: bool, resampleFails: bool) returns (a: Answer)
      modifies this, mic, mic.batch
      ensures (View(), a) == SessionSpec.Stop(old(View()), id, closeFails, resampleFails)
    {
      if id !in sessions {
        return Raised(NotFound);
      }
      var rt := sessions[id];
      if rt.source == REALTIME {
        if recordingId != Some(id) {
          return Raised(StateError);
        }
        if rt.handle.Some? {
          var r := mic.StopStream(rt.handle.value, closeFails);
          if !r.Ok? {
            return Raised(ErrorOf(r));
          }
        }
        recordingId := None;
        SetStatus(id, DONE);
        sessions := sessions - {id};
        return Done;
      }
      if rt.source != BATCH {
        return Raised(NotImplemented);
      }
      if recordingId != Some(id) || rt.handle.None? {
        return Raised(StateError);
      }
      var r := mic.StopBatch(rt.handle.value, closeFails, resampleFails);
      match r {
        case Crash =>
          return Raised(Crashed);
        case AudioFailure =>
          recordingId := None;
          sessions := sessions - {id};
          SetStatus(id, FAILED);
          return Raised(AudioError);
        case Ok(_) =>
          sessions := sessions[id := rt.(handle := None)];
          recordingId := None;
          StartProcessing(id);
          return Done;
      }
    }

    method Cancel(id: Id, closeFails: bool) returns (a: Answer)
      modifies this, mic, mic.batch
      ensures (View(), a) == CancelSession(old(View()), id, closeFails)
    {
      if id !in sessions {
        if id !in store {
          return Raised(NotFound);
        }
        if store[id] == CANCELED {
          return Done;
        }
        return Raised(StateError);
      }
      var rt := sessions[id];
      if recordingId == Some(id) {
        if rt.handle.Some? {
          var r: Reply<()>;
          if rt.source == REALTIME {
            r := mic.StopStream(rt.handle.value, closeFails);
          } else {
            r := mic.Cancel(rt.handle.value, closeFails);
          }
          if !r.Ok? {
            return Raised(ErrorOf(r));
          }
        }
        recordingId := None;
        SetStatus(id, CANCELED);
        sessions := sessions - {id};
        return Done;
      }
      if processingId == Some(id) {
        canceled := canceled + {id};
        processingId := None;
        SetStatus(id, CANCELED);
        sessions := sessions - {id};
        return Done;
      }
      return Raised(StateError);
    }

    method CancelCurrentSessions(closeFails: bool) returns (a: Answer)
      modifies this, mic, mic.batch
      ensures (View(), a) == SessionSpec.CancelCurrentSessions(old(View()), closeFails)
    {
      if recordingId.Some? {
        a := Cancel(recordingId.value, closeFails);
        if a.Raised? && !Swallowed(a) {
          return;
        }
      }
      CancelProcessing();
      return Done;
    }

    method CancelProcessing()
      modifies this
      ensures View() == SessionSpec.CancelProcessing(old(View()))
    {
      if processingId.None? {
        return;
      }
      var id := processingId.value;
      canceled := canceled + {id};
      processingId := None;
      SetStatus(id, CANCELED);
      sessions := sessions - {id};
    }

    method SubmitRemote() returns (a: Answer)
      modifies this
      ensures (View(), a) == SessionSpec.SubmitRemote(old(View()))
    {
      var id := nextId;
      store := store[id := PROCESSING];
      nextId := nextId + 1;
      StartProcessing(id);
      return Began(id);
    }

    // The new thread has not run yet.
    method StartProcessing(id: Id)
      modifies this
      ensures View() == SessionSpec.StartProcessing(old(View()), id)
    {
      SetStatus(id, PROCESSING);
      processingId := Some(id);
      activeWorkers := activeWorkers + 1;
      workers := workers[id := Starting];
    }

    method Close(closeFails: bool) returns (a: Answer)
      modifies this, mic, mic.batch
      ensures (View(), a) == SessionSpec.Close(old(View()), closeFails)
    {
      if processingId.Some? {
        canceled := canceled + {processingId.value};
      }
      if recordingId.Some? {
        a := Cancel(recordingId.value, closeFails);
        if a.Raised? && !Swallowed(a) {
          return;
        }
      }
      pending := [];
      return Done;
    }

    // ---------- the worker thread ----------

    method WorkerCheck(id: Id)
      requires id in workers && workers[id] == Starting
      modifies this
      ensures View() == SessionSpec.WorkerCheck(old(View()), id)
    {
      if id in canceled {
        workers := workers[id := Finishing];
        return;
      }
      workers := workers[id := Running];
    }

    method WorkerReturn(id: Id, outcome: PipelineOutcome)
      requires id in workers && workers[id] == Running
      modifies this
      ensures View() == SessionSpec.WorkerReturn(old(View()), id, outcome)
    {
      workers := workers[id := Returned(outcome)];
    }

    method WorkerPublish(id: Id)
      requires id in workers && workers[id].Returned?
      modifies this
      ensures View() == SessionSpec.WorkerPublish(old(View()), id, old(workers[id].outcome))
    {
      var outcome := workers[id].outcome;
      workers := workers[id := Finishing];
      match outcome {
        case PipelineCanceled =>
        case PipelineRaised =>
          if id !in canceled {
            SetStatus(id, FAILED);
          }
        case Delivered(injectFailed) =>
          if id in canceled {
            return;
          }
          injected := injected + [id];
          if injectFailed {
            SetStatus(id, FAILED);
          } else {
            SetStatus(id, DONE);
          }
      }
    }

    method WorkerFinally(id: Id, open: OpenResult)
      requires id in workers && workers[id] == Finishing
      modifies this, mic, mic.batch
      ensures View() == SessionSpec.WorkerFinally(old(View()), id, open)
    {
      Retire(id);
      DrainPendingBegins(open);
    }

    // The worker leaves every table.
    method Retire(id: Id)
      modifies this
      ensures View() == SessionSpec.Retire(old(View()), id)
    {
      workers := workers - {id};
      activeWorkers := if activeWorkers - 1 < 0 then 0 else activeWorkers - 1;
      canceled := canceled - {id};
      if processingId == Some(id) {
        processingId := None;
      }
      sessions := sessions - {id};
    }

    method DrainPendingBegins(open: OpenResult)
      modifies this, mic, mic.batch
      ensures View() == Drain(old(View()), open)
    {
      if recordingId.Some? || processingId.Some? {
        return;
      }
      if pending == [] {
        return;
      }
      drained := drained + [pending[0]];
      pending := pending[1..];
      var _ := BeginBatch(open);
    }
  }
}
