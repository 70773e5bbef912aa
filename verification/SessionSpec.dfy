/** The session protocol as a transition system: one step per public call, per device report and
    per worker step.  A worker takes four steps: the first cancel check, the pipeline's return, the
    check-and-publish, and the `finally` block. */
module SessionSpec {
  import opened Wrappers
  import opened CaptureSpec

  type Id = nat
  type Ticket = nat   // one queued begin request

  datatype Source = BATCH | REALTIME | REMOTE
  datatype Status = RECORDING_STATUS | PROCESSING | DONE | FAILED | CANCELED
  datatype QueuePolicy = QUEUE | CANCEL | IGNORE
  datatype QueueAction = Accept | Enqueue | Refuse | CancelCurrent

  datatype Runtime = Runtime(source: Source, handle: Option<Handle>)

  datatype PipelineOutcome = Delivered(injectFailed: bool) | PipelineCanceled | PipelineRaised

  // Where a live worker thread stands.
  datatype Phase =
    | Starting
    | Running
    | Returned(outcome: PipelineOutcome)
    | Finishing

  datatype Error = Busy | Queued | NotFound | StateError | NotImplemented | AudioError | Crashed
  datatype Answer = Began(id: Id) | Done | Raised(error: Error)

  datatype State = State(
    store: map<Id, Status>,
    nextId: Id,
    sessions: map<Id, Runtime>,
    recording: Option<Id>,
    processing: Option<Id>,
    pending: seq<Ticket>,
    canceled: set<Id>,
    activeWorkers: int,
    workers: map<Id, Phase>,
    capture: Facade,
    // history: every injection published, every ticket drained, and the next ticket number
    injected: seq<Id>,
    drained: seq<Ticket>,
    nextTicket: Ticket)

  const INITIAL := State(map[], 0, map[], None, None, [], {}, 0, map[], INITIAL_FACADE, [], [], 0)

  function ResolveBeginAction(policy: QueuePolicy, isRecording: bool, isProcessing: bool): QueueAction
  {
    if !isRecording && !isProcessing then Accept
    else match policy
      case IGNORE => Refuse
      case CANCEL => CancelCurrent
      case QUEUE => Enqueue
  }

  function ErrorOf<T>(r: Reply<T>): Error
    requires !r.Ok?
  {
    if r.AudioFailure? then AudioError else Crashed
  }

  function Create(s: State, status: Status): State
  {
    s.(store := s.store[s.nextId := status], nextId := s.nextId + 1)
  }

  function SetStatus(s: State, id: Id, status: Status): State
  {
    s.(store := s.store[id := status])
  }

  // Enter a session whose capture just started.
  function Enter(s: State, id: Id, source: Source, h: Handle): State
  {
    SetStatus(s.(sessions := s.sessions[id := Runtime(source, Some(h))], recording := Some(id)), id, RECORDING_STATUS)
  }

  function BeginBatch(s: State, open: OpenResult): (State, Answer)
  {
    var id := s.nextId;
    var (c, r) := StartBatch(s.capture, open);
    var created := Create(s, RECORDING_STATUS).(capture := c);
    match r
    case Ok(n) => (Enter(created, id, BATCH, BatchHandle(n)), Began(id))
    case AudioFailure => (SetStatus(created, id, FAILED), Raised(AudioError))
    case Crash => (created, Raised(Crashed))
  }

  function BeginRealtime(s: State, open: OpenResult): (State, Answer)
  {
    var id := s.nextId;
    var (c, r) := StartStream(s.capture, open);
    var created := Create(s, RECORDING_STATUS).(capture := c);
    match r
    case Ok(n) => (Enter(created, id, REALTIME, StreamHandle(n)), Began(id))
    case AudioFailure => (SetStatus(created, id, FAILED), Raised(AudioError))
    case Crash => (created, Raised(Crashed))
  }

  // The recording session `id` is over.
  function EndRecording(s: State, c: Facade, id: Id, status: Status): State
  {
    SetStatus(s.(capture := c, recording := None, sessions := s.sessions - {id}), id, status)
  }

  // Give the recording session's microphone back.
  function Release(s: State, rt: Runtime, closeFails: bool): (Facade, Reply<()>)
  {
    match rt.handle
    case None => (s.capture, Ok(()))
    case Some(h) =>
      if rt.source == REALTIME then StopStream(s.capture, h, closeFails) else CancelBatch(s.capture, h, closeFails)
  }

  function CancelSession(s: State, id: Id, closeFails: bool): (State, Answer)
  {
    if id !in s.sessions then
      if id !in s.store then (s, Raised(NotFound))
      else if s.store[id] == CANCELED then (s, Done)
      else (s, Raised(StateError))
    else if s.recording == Some(id) then
      var (c, r) := Release(s, s.sessions[id], closeFails);
      if r.Ok? then (EndRecording(s, c, id, CANCELED), Done)
      else (s.(capture := c), Raised(ErrorOf(r)))
    else if s.processing == Some(id) then (CancelProcessing(s), Done)
    else (s, Raised(StateError))
  }

  function CancelProcessing(s: State): State
  {
    match s.processing
    case None => s
    case Some(id) =>
      SetStatus(s.(canceled := s.canceled + {id}, processing := None, sessions := s.sessions - {id}), id, CANCELED)
  }

  predicate Swallowed(a: Answer) { a == Raised(NotFound) || a == Raised(StateError) }

  // `_cancel_current_unlocked`: the answer is Done unless cancelling the recording raised through.
  function CancelCurrentSessions(s: State, closeFails: bool): (State, Answer)
  {
    var (t, a) := if s.recording.Some? then CancelSession(s, s.recording.value, closeFails) else (s, Done);
    if a.Raised? && !Swallowed(a) then (t, a) else (CancelProcessing(t), Done)
  }

  function Begin(s: State, source: Source, policy: QueuePolicy, open: OpenResult, closeFails: bool): (State, Answer)
  {
    match source
    case REALTIME => BeginRealtime(s, open)
    case REMOTE => (s, Raised(NotImplemented))
    case BATCH =>
      match ResolveBeginAction(policy, s.recording.Some?, s.processing.Some?)
      case Refuse => (s, Raised(Busy))
      case Enqueue => (s.(pending := s.pending + [s.nextTicket], nextTicket := s.nextTicket + 1), Raised(Queued))
      case Accept => BeginBatch(s, open)
      case CancelCurrent =>
        var (t, a) := CancelCurrentSessions(s, closeFails);
        if a.Raised? then (t, a) else BeginBatch(t, open)
  }

  function StartProcessing(s: State, id: Id): State
  {
    SetStatus(s, id, PROCESSING).(processing := Some(id), activeWorkers := s.activeWorkers + 1,
                                  workers := s.workers[id := Starting])
  }

  // A stopped batch recording goes on as a processing session.
  function HandToWorker(s: State, c: Facade, id: Id, rt: Runtime): State
  {
    StartProcessing(s.(capture := c, recording := None, sessions := s.sessions[id := rt.(handle := None)]), id)
  }

  function Stop(s: State, id: Id, closeFails: bool, resampleFails: bool): (State, Answer)
  {
    if id !in s.sessions then (s, Raised(NotFound))
    else
      var rt := s.sessions[id];
      match rt.source
      case REALTIME =>
        if s.recording != Some(id) then (s, Raised(StateError))
        else
          var (c, r) := match rt.handle case None => (s.capture, Ok(())) case Some(h) => StopStream(s.capture, h, closeFails);
          if r.Ok? then (EndRecording(s, c, id, DONE), Done)
          else (s.(capture := c), Raised(ErrorOf(r)))
      case REMOTE => (s, Raised(NotImplemented))
      case BATCH =>
        if s.recording != Some(id) || rt.handle.None? then (s, Raised(StateError))
        else
          var (c, r) := StopBatch(s.capture, rt.handle.value, closeFails, resampleFails);
          match r
          case Crash => (s.(capture := c), Raised(Crashed))
          case AudioFailure => (EndRecording(s, c, id, FAILED), Raised(AudioError))
          case Ok(_) => (HandToWorker(s, c, id, rt), Done)
  }

  function SubmitRemote(s: State): (State, Answer)
  {
    (StartProcessing(Create(s, PROCESSING), s.nextId), Began(s.nextId))
  }

  // Tell the current worker to publish nothing; its stored status is left alone.
  function MarkProcessing(s: State): State
  {
    if s.processing.Some? then s.(canceled := s.canceled + {s.processing.value}) else s
  }

  function Close(s: State, closeFails: bool): (State, Answer)
  {
    var marked := MarkProcessing(s);
    var (t, a) := if marked.recording.Some? then CancelSession(marked, marked.recording.value, closeFails) else (marked, Done);
    if a.Raised? && !Swallowed(a) then (t, a) else (t.(pending := []), Done)
  }

  // ---------- worker steps ----------

  function WorkerCheck(s: State, id: Id): State
  {
    s.(workers := s.workers[id := if id in s.canceled then Finishing else Running])
  }

  function WorkerReturn(s: State, id: Id, outcome: PipelineOutcome): State
  {
    s.(workers := s.workers[id := Returned(outcome)])
  }

  function WorkerPublish(s: State, id: Id, outcome: PipelineOutcome): State
  {
    var t := s.(workers := s.workers[id := Finishing]);
    if id in s.canceled || outcome.PipelineCanceled? then t
    else match outcome
      case Delivered(injectFailed) =>
        SetStatus(t.(injected := t.injected + [id]), id, if injectFailed then FAILED else DONE)
      case PipelineRaised => SetStatus(t, id, FAILED)
      case PipelineCanceled => t
  }

  function Drain(s: State, open: OpenResult): State
  {
    if s.recording.Some? || s.processing.Some? || s.pending == [] then s
    else BeginBatch(s.(pending := s.pending[1..], drained := s.drained + [s.pending[0]]), open).0
  }

  // The worker is gone from every table.
  function Retire(s: State, id: Id): State
  {
    s.(activeWorkers := if s.activeWorkers - 1 < 0 then 0 else s.activeWorkers - 1,
       canceled := s.canceled - {id},
       processing := if s.processing == Some(id) then None else s.processing,
       sessions := s.sessions - {id},
       workers := s.workers - {id})
  }

  function WorkerFinally(s: State, id: Id, open: OpenResult): State
  {
    Drain(Retire(s, id), open)
  }

  // ---------- runs ----------

  datatype Event =
    | BeginCall(source: Source, policy: QueuePolicy, open: OpenResult, closeFails: bool)
    | StopCall(id: Id, closeFails: bool, resampleFails: bool)
    | CancelCall(id: Id, closeFails: bool)
    | SubmitRemoteCall
    | CloseCall(closeFails: bool)
    | CheckStep(id: Id)
    | ReturnStep(id: Id, outcome: PipelineOutcome)
    | PublishStep(id: Id)
    | FinallyStep(id: Id, open: OpenResult)
    | DeviceErrorReport
    | TimeUpReport

  // A worker event for a thread that is not at that point does nothing.
  function Step(s: State, e: Event): State
  {
    match e
    case BeginCall(source, policy, open, closeFails) => Begin(s, source, policy, open, closeFails).0
    case StopCall(id, closeFails, resampleFails) => Stop(s, id, closeFails, resampleFails).0
    case CancelCall(id, closeFails) => CancelSession(s, id, closeFails).0
    case SubmitRemoteCall => SubmitRemote(s).0
    case CloseCall(closeFails) => Close(s, closeFails).0
    case CheckStep(id) => if id in s.workers && s.workers[id] == Starting then WorkerCheck(s, id) else s
    case ReturnStep(id, o) => if id in s.workers && s.workers[id] == Running then WorkerReturn(s, id, o) else s
    case PublishStep(id) =>
      if id in s.workers && s.workers[id].Returned? then WorkerPublish(s, id, s.workers[id].outcome) else s
    case FinallyStep(id, open) => if id in s.workers && s.workers[id] == Finishing then WorkerFinally(s, id, open) else s
    case DeviceErrorReport => s.(capture := DeviceError(s.capture))
    case TimeUpReport => s.(capture := TimeUp(s.capture))
  }

  function Run(s: State, events: seq<Event>): State
    decreases |events|
  {
    if events == [] then s else Run(Step(s, events[0]), events[1..])
  }
}
