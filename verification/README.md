# Verified model of the dictation core

A Dafny 4.11 model of the stateful parts of the speech-to-text application: the session protocol and
the microphone classes below it, pipeline runs, nested database transactions and migrations, the
WebSocket client, the speech segmenter, the hotkey manager, chunked uploads, PIN pairing, Korean text
normalisation and UTF-16 key injection.  `dafny verify dfyconfig.toml` checks all of it.

## How it is built

Each stateful component has a value-level specification (`...Spec.dfy`): a state, one step function for
each operation or event, and runs over sequences of events.  Lemmas over arbitrary runs state what the
component promises.  Beside it stands the class with the program's own fields and methods; every method
is proved to take the step of the same name, constructors and helpers included, so the lemmas are about
the class as well; the table below names only a class's main operations.  Loops of the program are loops
here, with their invariants.  Where the program computes something in one pass that
can be said declaratively, the declaration is a function of its own and the two are proved equal.
A step function is not its own witness: what each of its fields and answers is afterwards is said a second
time, by what a caller could see before and after or by the events of the whole run, in the tables of
`CaptureTable`, `SessionTable`, `SessionAnswers`, `SessionFields`, `SessionMicrophone`, `PipelineStory`,
`TransactionWrites`, `WireFormat`, `HotkeySignals`, `ChunkLife` and `PairingCounts`.

| component | specification and proofs | class or methods |
|---|---|---|
| microphone | `CaptureSpec.dfy`, `CaptureTable.dfy` | `Capture.dfy`, `Recording.dfy` |
| sessions | `SessionSpec.dfy`, `SessionProofs.dfy`, `SessionTheorems.dfy`, `SessionTable.dfy`, `SessionLimits.dfy`, `SessionEnds.dfy`, `SessionOverlap.dfy`, `SessionAnswers.dfy`, `SessionFields.dfy`, `SessionMicrophone.dfy` | `Session.dfy` |
| pipeline | `PipelineSpec.dfy`, `PipelineProofs.dfy`, `PipelineResume.dfy`, `PipelineScripts.dfy`, `PipelineLimits.dfy`, `PipelineShelf.dfy`, `PipelineStory.dfy` | `Pipeline.dfy` |
| transactions | `TransactionSpec.dfy`, `TransactionWrites.dfy` | `Transactions.dfy` |
| migrations | `Migrator.dfy` | `Migrator.dfy` |
| WebSocket | `WebSocketSpec.dfy`, `WireFormat.dfy`, `TranscriptSpec.dfy` | `WebSocket.dfy` |
| segmenter | `SegmentSpec.dfy` | `Segmenter.dfy` |
| hotkeys | `KeyBinding.dfy`, `HotkeySpec.dfy`, `HotkeyProofs.dfy`, `HotkeyTheorems.dfy`, `HotkeyRepeats.dfy`, `HotkeySignals.dfy` | `Hotkey.dfy` |
| uploads | `ChunkSpec.dfy`, `ChunkProofs.dfy`, `ChunkTheorems.dfy`, `ChunkLife.dfy` | `Chunks.dfy` |
| pairing | `PairingSpec.dfy`, `PairingProofs.dfy`, `PairingTheorems.dfy`, `PairingCounts.dfy` | `Pairing.dfy` |
| Korean text | `NormalizeKo.dfy`, `NormalizeProofs.dfy`, `NormalizeTheorems.dfy`, `NormalizeFixpoint.dfy` | (pure) |
| UTF-16 | `Utf16Spec.dfy` | `UnicodeInput.dfy` |

The outside world is a parameter of the step it affects: whether the sound driver opens or closes a
stream, what a stage or the injector answers, when `is_canceled` says yes, what the clock reads, how many
bytes `recv` hands out, how many events `SendInput` takes.  Random values and identifiers are inputs.

Assumptions that are not preconditions of a single member:

- A public call of the session manager is one step.  A worker has four: its first cancel check, the
  pipeline's return, the check and publication of the result, and its `finally` block.  Threads may
  interleave more finely inside the publication (session_manager.py:369-375).
- The session table always accepts a write, and identifiers and tickets are fresh counters.
- `BEGIN` and `SAVEPOINT` themselves succeed: they are executed outside the `try` (db.py:116-122).
- Stages, store and injector are deterministic within one comparison of runs, and a stage answers by the
  text alone: a resumed run asks its stages with the language "ko", and that is taken to make no difference.
- The clock of the pairing manager does not go back and is not negative.
- Times in the hotkey and upload models are exact reals, and the duration of a recording is the exact
  quotient, cut down to an integer.

## What does not hold

Some promises one might expect are not kept by the code.  For each there is an input that shows it and a
lemma with the exact condition.

- A device error during a realtime session leaves it unstoppable: `stop_stream` refuses in the error
  state, and stop, cancel and close all go through it.  `WedgesIff`: in every reachable state that is what
  a device error does to a recording realtime session, and nothing else does it; `WedgedForever`;
  `DeviceErrorWedges` is the run.
- A device error with no batch recording open loses the microphone for good, since no call of the manager
  takes the facade out of its error state.  `RecordsAgainIff`: a new recording can be had from a state
  exactly if it is not so lost.
- Begins that wait in the queue may wait on an idle manager, since only a finishing worker drains it.
  `DrainsIff` says when a begin leaves the queue, `CanDrainIff` when it still can without new work (a live
  worker and no wedged session), `StrandsIff` which steps make it impossible, a plain stop of a realtime
  session among them; `CancelStrandsQueue` is a run.
- The manager remembers one processing session, the last handed to a worker, and takes that for all.
  `OverlapsIff`: an earlier one falls behind exactly when a remote session is submitted, or a stop hands its
  recording to a worker, while the remembered one is still being processed.  `DrainsBesideIff`: a queued
  begin is taken up beside a session in processing exactly if one other than the retiring one fell behind;
  `CancelsProcessedIff`: a session in processing can be canceled exactly if it is the remembered one and has
  a runtime entry; `DrainsBeside` is a run that shows both.
- DONE is not final.  `DoneChangesIff`: in every reachable state it changes exactly when a session whose
  worker has published and not retired is canceled through its runtime entry, or by a begin under the
  cancel policy; `DoneIsChanged` is a run in which `cancel` itself refuses.
- A session may stay stored as recording or processing for good.  `AbandonsIff` and `EndsWithoutStatusIff`
  say by which steps: a driver crash on opening, and a worker that ends after `close` or after a pipeline
  that claims to be canceled; `CloseAbandons` is a run, and `OrderlyRunsAbandonNone` shows that without
  these every session that neither records nor has a worker has a terminal status.
- An edited text may be stored and not used.  `SeedIsUsedIff`: it is used exactly if reprocessing starts
  at stage 2, or at stage 3 with no stage 2 row (`SeedIsIgnoredFromStageThree` otherwise).
- A resumed run loses the press-enter setting, the injection method and the language, which becomes "ko".
  `ResumeEqualsWhole`: store and status are those of the whole run exactly unless the forgotten delivery
  decides whether the one text typed in between raises; `AlwaysSameIff`: the effects agree for all stages,
  stores and injectors exactly with the default delivery and Korean speech (`ForeignDiffers` and
  `ResumeNeedsDefaultDelivery` are the inputs).
- An error in stage 2 or 3 may be reported at another stage.  `RunReportsErrors`: at stage 1 exactly if
  the store or the injector raised rather than the language model, because only the outermost handler
  sees those; `ReprocessReportsErrors`: the same at the stage it started from; `InjectorReportedAtStageOne`
  is a run.
- Unregistering the record binding while its key is held makes the next modifier key raise
  `HotkeyStateError`, and then no key ends the recording (`BindingCanBeLost`, `LostRecordingSticks`);
  `RaisesWhenLost` says exactly when it is raised.
- A push-to-talk recording can also lose its chord by a registration that replaces it.  `ChordBreaksIff`:
  exactly if the new record chord is not down; `ReplacedKeySticks` is a run that then records with no key
  down.
- In toggle mode a held key toggles again for every repeat that comes at least the debounce interval after
  the last one let through (`HeldKeyTogglesAgain`); the press counts as one exactly if all its repeats come
  within the interval of it (`HeldKeyIsOnePressIff`).
- A mere repeat of a held key can start a recording.  `RepeatStartsIff`: exactly if nothing records, the
  record chord is down and not the cancel chord, and the interval has passed; `RepeatStartsAgain` is a run
  in which a setting stops a recording and the next repeat starts another.
- New settings do not decide the chord of an action that has a binding under an identifier of its own
  (`ConfiguredChords`).
- An empty final chunk can spoil a complete upload.  `EmptyFinalIsSafeIff`: exactly if its index is one of
  the parts, which it removes; `EmptyFinalReply` gives the reply in every case.
- The streaming helper stops at the first result marked as the end of speech, as its docstring says, so
  not every final text of a stream is returned.  `TextIsCompleteIff`: one is lost exactly if it comes after
  the message that ends the loop; `SecondUtteranceIsLost` is a stream of two utterances.
- The docstring of `recv_message` says None whenever the stream ends; inside a frame the code raises
  EOFError instead, and the model follows the code (`WebSocketSpec.CutParses`).

## Model

| member | source | states |
|---|---|---|
| CaptureSpec.StartTakesFreeMicrophone | core/audio/audio_capture.py:74-147 | a start succeeds exactly on an idle facade with a willing driver, only on a free microphone, and its handle becomes the holder; a failed start leaves the holder |
| CaptureSpec.HolderReleasesBatch | core/audio/audio_capture.py:93-119 | stop and cancel with the holder's handle free the microphone, resampling failure included, unless the driver refuses to stop the stream |
| CaptureSpec.HolderReleasesStream | core/audio/audio_capture.py:149-159 | a stream handle is released exactly in the streaming state; after a device error it is refused and the microphone stays taken |
| Capture.BatchCapture.Start | core/audio/capture_batch.py:98-148 | refuses while active, spends a handle number once the device is known, becomes active only if the driver starts |
| Capture.BatchCapture.Stop | core/audio/capture_batch.py:150-154 | only for the active handle; a driver refusal keeps the recording active without a stream |
| Capture.BatchCapture.Cancel | core/audio/capture_batch.py:156-160 | the same without audio |
| Capture.BatchCapture.TimeUp | core/audio/capture_batch.py:125-138 | an over-long recording loses its driver stream and stays active |
| Capture.AudioCapture.StartBatch | core/audio/audio_capture.py:74-91 | a batch start: an audio failure leaves the error state, any other exception an idle facade, success the recording handle |
| Capture.AudioCapture.StopBatch | core/audio/audio_capture.py:93-109 | stopping: also out of the error state while a recording is active, with what each refusal leaves |
| Capture.AudioCapture.Cancel | core/audio/audio_capture.py:111-119 | canceling, with the states it accepts and what a refusal leaves |
| Capture.AudioCapture.StartStream | core/audio/audio_capture.py:121-147 | a stream start, and what a failed one leaves behind |
| Capture.AudioCapture.StopStream | core/audio/audio_capture.py:149-159 | only in the streaming state, and only for the handle it gave out |
| Capture.AudioCapture.ForwardError | core/audio/audio_capture.py:161-172 | any error but an over-long recording puts the facade into the error state |
| CaptureTable.BatchStartTable | core/audio/audio_capture.py:74-91 | for each reason a batch start can fail: what is raised, the facade's state, and that numbers are spent in order, each once |
| CaptureTable.BatchEndTable | core/audio/audio_capture.py:93-119 | stopping and canceling with the holder's own handle: state, recorder and driver stream afterwards |
| CaptureTable.ForeignHandles | core/audio/capture_batch.py:171-174 | every other handle is refused, with the error for each case, and the holder stays; only a stop while recording leaves the error state |
| CaptureTable.StreamStartTable | core/audio/audio_capture.py:121-147 | a stream start: idle after a failure, with a stream object left behind |
| CaptureTable.StreamEndTable | core/audio/audio_capture.py:149-159 | a stream stop by its own handle: idle, or streaming with the driver's stream given up |
| CaptureTable.ReportTable | core/audio/audio_capture.py:161-172 | a device error from any state, and an over-long recording, which changes neither state nor holder |
| Recording.KeepsUpToTheLimit | core/audio/capture_batch.py:40-50 | however audio is cut into chunks, the kept ones end with the first that goes over the limit, and the flag says whether one did |
| Recording.CutIsUnique | core/audio/capture_batch.py:40-50 | that cut is determined by the chunks and the limit |
| Recording.OverInBytes | core/audio/capture_batch.py:47-57 | with whole frames: over a limit of L ms exactly from 2 * channels * rate * (L + 1) thousandths of a byte on |
| Recording.NeverOver | core/audio/capture_batch.py:47-55 | never over without a limit or without channels |
| Recording.AudioIsTheChunks | core/audio/capture_batch.py:69-83 | the audio is the chunks in the order they came |
| Recording.BatchRecording.AppendChunk | core/audio/capture_batch.py:40-50 | one chunk more or a refusal, as the tape says |
| Recording.BatchRecording.CurrentDurationMs | core/audio/capture_batch.py:52-57 | the loop computes the truncated duration of the whole frames of every chunk |
| Recording.BatchRecording.Finalize | core/audio/capture_batch.py:69-83 | the joined chunks once, and nothing from a closed recording |
| SessionProofs.StepKeeps | app/session/session_manager.py:84-428 | every call, worker step and device report keeps the invariant that couples the manager, the facade and the recorder |
| SessionProofs.RunKeeps | app/session/session_manager.py:84-428 | so every reachable state satisfies it |
| SessionTheorems.MicrophoneCoupling | app/session/session_manager.py:265-340 | a capture path is held by handle h exactly when the recording session runs on that path with h, and never both paths at once |
| SessionTheorems.RecordingIsReplacedOnlyByCancelPolicy | app/session/session_manager.py:97-111 | one step replaces a recording only under the cancel policy, with the old session stored as canceled |
| SessionTheorems.SettledForever | app/session/session_manager.py:355-390 | a session out of every table keeps its status and is never published over any further run |
| SessionTheorems.CanceledIsAbsorbing | app/session/session_manager.py:160-178 | CANCELED never changes and nothing is published for the session afterwards, over all runs |
| SessionTheorems.PublishedAtMostOnce | app/session/session_manager.py:369-375 | over any run each session is published at most once |
| SessionTheorems.WorkerBookkeeping | app/session/session_manager.py:382-390 | the counter is the number of live workers, never clamped; processing and canceled sessions have a live worker |
| SessionTheorems.DrainsOnlyWhenIdle | app/session/session_manager.py:416-428 | the queue moves one ticket at a time, from its head, only in a `finally` block with nothing recording and no other session remembered as processing |
| SessionTheorems.QueueIsFifo | app/session/session_manager.py:104-107 | until close, what has been drained is an initial stretch of all tickets issued and the rest still waits |
| SessionTheorems.NoDrainWithoutWorker | app/session/session_manager.py:416-428 | with no live worker and none started, nothing queued is ever taken up |
| SessionTheorems.RealtimeStopsIffStreaming | app/session/session_manager.py:115-125 | a realtime session stops exactly while the facade streams and the driver lets go |
| SessionTheorems.WedgedForever | app/session/session_manager.py:113-180 | a realtime session on a facade in the error state stays the recording one, stored as recording, over every further run |
| SessionTable.StepTable | app/session/session_manager.py:84-428 | for every event, every session and every state that can arise: the status stored and the recording afterwards, by what could be seen before |
| SessionFields.PhaseTable | app/session/session_manager.py:355-390 | where every worker stands after every event: check, pipeline, publication and end, and past the pipeline if marked at the check |
| SessionFields.MarkTable | app/session/session_manager.py:149-180 | whose worker is marked as canceled after every event: the withdrawn session's, at close the remembered one's, until it ends |
| SessionFields.QueueTable | app/session/session_manager.py:97-107 | the queue after every event: one more ticket, its head gone, or empty after a close that does not raise |
| SessionFields.PublishTable | app/session/session_manager.py:369-375 | a result is published exactly when the pipeline delivered and the session is not marked by then |
| SessionFields.RuntimeTable | app/session/session_manager.py:265-390 | which sessions have a runtime entry after every event |
| SessionMicrophone.MicrophoneTable | app/session/session_manager.py:265-340 | whose the microphone is, by which path and number, and the facade's state, after every event |
| SessionLimits.WedgesIff | core/audio/audio_capture.py:149-172 | in every reachable state a session becomes wedged exactly by a device error while it records in realtime |
| SessionLimits.DeviceErrorWedges | core/audio/audio_capture.py:149-172 | a run of two events that wedges a session |
| SessionLimits.RecordsAgainIff | core/audio/audio_capture.py:161-172 | some further run gets a new recording exactly unless the facade is in the error state with no batch recording active |
| SessionLimits.DoneChangesIff | app/session/session_manager.py:149-180 | in every reachable state: DONE changes exactly by the cancel or the begin that withdraws the processing session, and then to CANCELED |
| SessionLimits.DoneIsChanged | app/session/session_manager.py:407-414 | a run to a published remote session that `cancel` refuses and a begin turns from DONE to CANCELED |
| SessionLimits.DrainsIff | app/session/session_manager.py:416-428 | a begin leaves the queue exactly in the `finally` block of a worker at its last step, with nothing recording and no other session remembered as processing |
| SessionLimits.CanDrainIff | app/session/session_manager.py:416-428 | a waiting begin can be taken up without a stop or new remote work exactly if a worker lives and no realtime session is wedged |
| SessionLimits.StrandsIff | app/session/session_manager.py:113-180 | exactly which steps leave a non-empty queue with no worker and nothing recording: a cancel of the recording, a stop that starts no worker (any realtime one included), a replacement that fails to open, a last worker whose drain fails with more behind it |
| SessionLimits.CancelStrandsQueue | app/session/session_manager.py:160-171 | a run from the start that strands a waiting begin by canceling the recording |
| SessionOverlap.OverlapsIff | app/session/session_manager.py:342-353 | sessions come to be processed side by side exactly by a remote submission, or a stop that hands a recording to a worker, while the remembered session is still being processed |
| SessionOverlap.ProcessingAfter | app/session/session_manager.py:342-414 | which session is remembered as processing after every event |
| SessionOverlap.DrainsBesideIff | app/session/session_manager.py:382-428 | a queued begin is taken up beside a session in processing exactly if one other than the retiring one was left behind, and never where nothing overlaps |
| SessionOverlap.CancelsProcessedIff | app/session/session_manager.py:149-180 | a session in processing is canceled exactly if it is the remembered one with a runtime entry, and refused with StateError otherwise |
| SessionOverlap.DrainsBeside | app/session/session_manager.py:382-428 | a run that takes up a begin while an earlier session is still with its worker and cannot be canceled |
| SessionEnds.AbandonedForever | app/session/session_manager.py:355-390 | a session stored as going on, with no recording and no worker, is stored so after every run |
| SessionEnds.AbandonsIff | app/session/session_manager.py:265-390 | the two ways to become so: a driver crash on opening, or a worker that retires without having ended its session |
| SessionEnds.EndsWithoutStatusIff | app/session/session_manager.py:355-390 | a worker comes to its end without a status exactly if its session was only marked as canceled, or the pipeline claims a cancellation |
| SessionEnds.CloseAbandons | app/session/session_manager.py:248-258 | a run: `close` before the worker begins leaves the session stored as processing |
| SessionEnds.OrderlyRunsAbandonNone | app/session/session_manager.py:84-428 | over runs without those causes, a session that neither records nor has a worker is DONE, FAILED or CANCELED |
| SessionAnswers.BeginAnswers | app/session/session_manager.py:84-111 | in every reachable state `begin` answers x exactly if x is the new session and it records, queued exactly if one ticket joined the queue, busy exactly under the ignore policy, and an error by the row it leaves or the recording that would not let go |
| SessionAnswers.StopAnswers | app/session/session_manager.py:113-147 | `stop` is done exactly if the recording is now DONE or with a worker, and each error has its cause |
| SessionAnswers.CancelAnswers | app/session/session_manager.py:149-180 | `cancel` is done exactly if the session is stored as canceled afterwards, and each error has its cause |
| SessionAnswers.SubmitAnswers | app/session/session_manager.py:182-197 | `submit_remote` answers the one id that is new in the store, stored as processing, with a worker about to begin |
| SessionAnswers.CloseAnswers | app/session/session_manager.py:248-258 | `close` raises exactly if the recording does not let go, and only then keeps the queue |
| SessionAnswers.BegunIsStopped | app/session/session_manager.py:265-340 | the id `begin` answers is one that `stop` takes, and the session then is DONE or with a worker |
| Session.SessionManager.Begin | app/session/session_manager.py:84-111 | the begin step: queue, refuse or cancel by the policy, then a row and a runtime entry only with a handle |
| Session.SessionManager.Stop | app/session/session_manager.py:113-147 | the stop step, with each exception's own after-state |
| Session.SessionManager.Cancel | app/session/session_manager.py:149-180 | the cancel step for recording, processing and stored sessions, in that order |
| Session.SessionManager.CancelCurrentSessions | app/session/session_manager.py:398-405 | cancels the recording, swallowing two exceptions, then the processing session |
| Session.SessionManager.SubmitRemote | app/session/session_manager.py:182-197 | a remote session goes straight to a worker |
| Session.SessionManager.Close | app/session/session_manager.py:248-258 | marks the worker, cancels the recording and empties the queue |
| Session.SessionManager.WorkerPublish | app/session/session_manager.py:369-381 | publication and final status, unless canceled by then |
| Session.SessionManager.WorkerFinally | app/session/session_manager.py:382-390 | the worker's bookkeeping and the draining of the queue |
| PipelineProofs.EveryRunFinishesOnce | core/pipeline/pipeline.py:110-257 | every call that returns has a terminal status, announced by its last event and no other |
| PipelineProofs.CanceledIsPrefix | core/pipeline/pipeline.py:393-397 | what a canceled run did before its finished event is an initial stretch of the never-canceled run, in the same order |
| PipelineProofs.FinishedRunDidItsStages | core/pipeline/pipeline.py:191-330 | a finished run stored one row for each stage 1 to t in order and requested injection exactly at its stage, if that was reached |
| PipelineStory.RunIsStory | core/pipeline/pipeline.py:191-377 | every run, told stage by stage without scripts: which text is made from which, in what order it is stored, announced and typed, when the run asks, and how it ends |
| PipelineStory.ReprocessIsStory | core/pipeline/pipeline.py:110-189 | the same for reprocessing: the edited text first, then the stages, typed in the default way |
| PipelineStory.SeededIs | core/pipeline/pipeline.py:123-160 | what reprocessing works with: the latest row of each stage, as Korean, the edited text in place of the first |
| PipelineStory.FinishedRunIs | core/pipeline/pipeline.py:216-257 | a run finishes exactly if it has audio and a target, is heard, every stage gets its text, is stored and typed without an exception, and no poll says otherwise; and these are its effects |
| PipelineStory.CanceledRunIs | core/pipeline/pipeline.py:393-397 | canceled at its question number j, such a run ends canceled at stage j/2 + 1 with exactly the stages before it done and of that one its start or its text |
| PipelineResume.ResumeEqualsWhole | core/pipeline/pipeline.py:82-189 | stopping after stage k and reprocessing from k+1 leaves the store row for row as one whole run, with the same status, exactly unless the text typed in between raises with one of the run's and the default delivery and not with the other, and it shows |
| PipelineResume.ResumeNeedsDefaultDelivery | core/pipeline/pipeline.py:164-179 | for every delivery but the default there is an injector for which rows and status differ, since resuming forgets the delivery |
| PipelineResume.ResumeHasTheSameEffects | core/pipeline/pipeline.py:82-189 | with default delivery and Korean speech, also the same effects in order |
| PipelineLimits.AlwaysSameIff | core/pipeline/pipeline.py:164-179 | the effects agree for all stages, stores and injectors exactly with that delivery and that language |
| PipelineLimits.ForeignDiffers | core/pipeline/pipeline.py:123-131 | for every other language, stages for which they differ |
| PipelineResume.ReprocessStoresFromItsStage | core/pipeline/pipeline.py:110-189 | without a seed no row is added below the starting stage or for another session |
| PipelineResume.SeedIsIgnoredFromStageThree | core/pipeline/pipeline.py:110-189 | from stage 3 with a stage 2 row, the seed changes nothing but its own row |
| PipelineLimits.SeedIsUsedIff | core/pipeline/pipeline.py:151-179 | an edited text makes a difference for some stages exactly from stage 2, or from stage 3 with no stage 2 row |
| PipelineLimits.SeedActsAsStored | core/pipeline/pipeline.py:151-160 | reprocessing with an edited text stores it as a stage 1 row and does what reprocessing without one does where the row is stored |
| PipelineLimits.RunReportsErrors | core/pipeline/pipeline.py:216-257 | whatever fails: an error is reported at the stage that was last started if that is stage 1 or its language model failed, and otherwise, exactly when store or injector raised, at stage 1 |
| PipelineLimits.ReprocessReportsErrors | core/pipeline/pipeline.py:162-189 | the same for reprocessing, at the stage it started from |
| PipelineLimits.InjectorReportedAtStageOne | core/pipeline/pipeline.py:252-257 | a run whose injector raises at stage 2 and that is reported at stage 1 |
| PipelineShelf.RunHoldsWhatIsStored | core/pipeline/pipeline.py:216-330 | however a run ends, each artifact it holds is the latest stored row of its stage |
| PipelineShelf.ReprocessHoldsWhatIsStored | core/pipeline/pipeline.py:110-189 | the same for reprocessing, with or without an edited text |
| Pipeline.Engine.Run | core/pipeline/pipeline.py:191-257 | a new run object ends in the status, error stage, rows, events and kept artifacts of its script |
| Pipeline.Engine.Reprocess | core/pipeline/pipeline.py:82-189 | the same for reprocessing, and exactly when it raises before anything starts |
| Pipeline.Engine.RunLater | core/pipeline/pipeline.py:162-181 | stages 2 and 3 as far as the target asks, from loaded or fresh artifacts |
| Pipeline.Engine.RunStage | core/pipeline/pipeline.py:259-330 | one language-model stage: started, polled, failed or delivered |
| Pipeline.Engine.Deliver | core/pipeline/pipeline.py:282-293 | store, announce, poll, inject, with what each failure leaves in the store and with the run |
| Pipeline.Engine.InjectArtifact | core/pipeline/pipeline.py:332-377 | a blank text counts as injected without the injector; otherwise the injector's own answer is kept with the artifact, and none if it raises |
| TransactionSpec.OnlySurvivorsApply | core/store/db.py:112-137 | the final table is the entry table with exactly the writes that are not inside a raising block |
| TransactionSpec.TopLevelIsDurable | core/store/db.py:123-137 | at top level nothing is left half done, and a block makes nothing durable by itself |
| TransactionSpec.QuietBlocksAreTransparent | core/store/db.py:112-137 | without failures nested blocks change the table as the bare statements would |
| TransactionWrites.LastSurvivorDecides | core/store/db.py:112-137 | every row after a program is what the last write to its key that no raising block took back made of it, or as it was |
| TransactionWrites.DurableStatesAreCuts | core/store/db.py:123-137 | what other connections see is always the table at the start with an initial stretch of the surviving writes; the stretches grow and the last is all of them |
| TransactionWrites.UpToTheFirstRaise | core/store/db.py:123-137 | statements are executed one on the other up to the first that raises, and nothing after it |
| TransactionWrites.StatementIs | core/store/db.py:112-137 | one statement: row, exception and durable states, a block being all or nothing |
| Transactions.Database.Execute | core/store/db.py:112-137 | any nested program ends in the table, exception and durable states of its meaning, with the mark stack as before |
| Transactions.Database.Transaction | core/store/db.py:112-137 | one block: all or nothing, depth counter equal to stack height, savepoint names distinct |
| Transactions.LiveNamesAreDistinct | core/store/db.py:116-122 | at any moment no two live savepoints share a name |
| Transactions.Database.Enter | core/store/db.py:116-122 | the new mark saves the entry table under the name of its depth |
| Transactions.Database.LeaveOuter | core/store/db.py:123-137 | commits, or restores the entry table when the body or the commit failed |
| Transactions.Database.LeaveInner | core/store/db.py:123-137 | releases its own savepoint, after restoring it when the body failed |
| Migrator.MigrateKeepsFold | core/store/migrator.py:56-87 | whatever fails, the schema is the fold of exactly the migrations up to the stored version |
| Migrator.RunAllKeepsFold | core/store/migrator.py:56-87 | the same over any number of calls |
| Migrator.RetryingIsHarmless | core/store/migrator.py:56-87 | any failed calls and then a good one end as one uninterrupted call, each migration committed once |
| Migrator.StopsAtTheFirstFault | core/store/migrator.py:56-87 | one call commits the pending migrations before the first that fails, and only those |
| Migrator.MigrationRunner.CommitOne | core/store/migrator.py:67-86 | one migration with its version, or nothing |
| Migrator.MigrationRunner.MigrateToLatest | core/store/migrator.py:56-87 | the pending migrations up to the first that fails |
| WebSocketSpec.EncodeParses | core/stt/deepgram_ws.py:182-212 | a printed frame, masked or not, in any length form, parses to its opcode and payload whatever follows |
| WebSocketSpec.CutParses | core/stt/deepgram_ws.py:184-203 | a frame cut short is never taken for a complete one |
| WebSocketSpec.ReceivesTheFrames | core/stt/deepgram_ws.py:175-212 | receiving from concatenated frames gives exactly the non-PING frames up to the first CLOSE, and the PINGs before it |
| WebSocketSpec.ClientFrameParses | core/stt/deepgram_ws.py:152-169 | what the client sends parses back to its opcode and payload |
| WebSocketSpec.PongsEcho | core/stt/deepgram_ws.py:205-207 | the peer reads one PONG for each PING, with its payload, in order |
| WebSocketSpec.BigEndianRoundTrip | core/stt/deepgram_ws.py:193-196 | lengths survive their big-endian spelling |
| WebSocketSpec.MaskTwice | core/stt/deepgram_ws.py:201-203 | unmasking is masking again |
| WireFormat.XorIsExclusive | core/stt/deepgram_ws.py:167-167 | bit j of a masked byte is set exactly if one of the bits j of byte and key is |
| WireFormat.SentOnTheWire | core/stt/deepgram_ws.py:152-169 | a sent frame byte by byte: FIN and opcode, mask bit and length in the shortest form, length bytes most significant first, key, payload under the key (sections 5.2 and 5.3 of RFC 6455) |
| WireFormat.FramesOnTheWire | core/stt/deepgram_ws.py:189-203 | a peer's frame byte by byte, masked or not, in any length form |
| WireFormat.ReceivedOnTheWire | core/stt/deepgram_ws.py:205-212 | the frames 88 and 89 close and are answered, every other opcode is a message with that opcode |
| WireFormat.PongOnTheWire | core/stt/deepgram_ws.py:205-207 | the answer to a PING is the bytes of a PONG with its payload |
| WebSocket.MinimalWebSocket.SendFrame | core/stt/deepgram_ws.py:152-169 | sends the shortest form of the frame under a fresh key, or nothing without a connection |
| WebSocket.MinimalWebSocket.RecvExact | core/stt/deepgram_ws.py:214-221 | the next n bytes however the socket cuts them, or end of file with everything read |
| WebSocket.MinimalWebSocket.RecvFrame | core/stt/deepgram_ws.py:184-203 | reads what the parser reads from the bytes to come, and no byte more |
| WebSocket.MinimalWebSocket.RecvMessage | core/stt/deepgram_ws.py:175-212 | the next message, with a PONG sent for each PING before it |
| WebSocket.MinimalWebSocket.Transcribe | core/stt/deepgram_ws.py:289-338 | the streaming loop yields what is heard up to the message that stops it, reads no further, and answers every PING it has read |
| TranscriptSpec.HearIsListening | core/stt/deepgram_ws.py:289-338 | reading message by message comes to listening to the whole list of the stream's messages |
| TranscriptSpec.OneMessage | core/stt/deepgram_ws.py:289-338 | what each kind of message yields and whether it stops the loop, and how the loop then ends |
| TranscriptSpec.MessagesInTurn | core/stt/deepgram_ws.py:289-338 | messages are heard one after the other up to the one that stops the loop |
| TranscriptSpec.TextIsCompleteIff | core/stt/deepgram_ws.py:289-338 | of any server's frames the final texts returned are an initial stretch, and all of them exactly if none follows the message that stops the loop |
| TranscriptSpec.SecondUtteranceIsLost | core/stt/deepgram_ws.py:333-334 | a stream of two utterances of which the second is lost |
| SegmentSpec.StreamingIsSplitting | core/audio/vad.py:36-50 | feeding frame by frame gives the pieces of the declarative split of buffer and input |
| SegmentSpec.SplitKeepsFrames | core/audio/vad.py:36-68 | every frame is in exactly one piece or the buffer, in order |
| SegmentSpec.SplitPieces | core/audio/vad.py:36-68 | segments start with speech, end where they first may, and are dropped exactly below the required speech |
| SegmentSpec.LimitDiscardsOnlyBelowMinimum | core/audio/vad.py:42-43 | the length limit drops a segment only if it is below the required speech |
| SegmentSpec.OpenBufferSize | core/audio/vad.py:36-50 | in an open buffer every speech frame is followed by less than a hangover of silence |
| SegmentSpec.SegmentSizeBound | core/audio/vad.py:36-68 | no buffer over (M-1)*H frames and no piece over (M-1)*H+1, interior silence included |
| SegmentSpec.BoundIsReached | core/audio/vad.py:36-68 | some input has a piece of exactly that size, under any rules with a limit |
| SegmentSpec.FramesForIsLeast | core/audio/vad.py:42-49 | M and H are the least frame counts that fill their times |
| SegmentSpec.SpeechCounts | core/audio/vad.py:36-43 | the speech of a stretch is its number of speech frames |
| SegmentSpec.TrailingIsSilent | core/audio/vad.py:44-49 | its silence is the run of frames without speech at its end |
| Segmenter.SegmentTracker.Feed | core/audio/vad.py:36-50 | performs the feed step and returns the joined frames of a kept segment |
| Segmenter.SegmentTracker.Flush | core/audio/vad.py:52-58 | forced: all that is buffered; otherwise only with enough speech; empty afterwards |
| Segmenter.FlushTable | core/audio/vad.py:52-58 | a flush gives all buffered audio when forced, otherwise exactly with the required speech in it |
| Segmenter.PcmIsTheFrames | core/audio/vad.py:60-68 | the audio of a segment is that of its frames in order |
| Segmenter.Session | core/audio/vad.py:36-68 | a whole stream through the tracker comes out as the kept pieces of its split and the rest |
| KeyBinding.ParseBinding | app/hotkey/binding.py:67-96 | the loop computes the order-free meaning of the parts, with each of its errors |
| KeyBinding.AcceptedBindings | app/hotkey/binding.py:77-96 | accepted exactly with one known main key; the chord has all modifiers named and its main key is no modifier |
| KeyBinding.OrderDoesNotMatter | app/hotkey/binding.py:77-96 | permuted parts mean the same |
| HotkeySignals.CharacterKeys | app/hotkey/binding.py:46-50 | the keys of letters and digits |
| HotkeySignals.FunctionKeyNames | app/hotkey/binding.py:43-44 | the keys f1 to f12 |
| HotkeySignals.NavigationKeys | app/hotkey/binding.py:33-40 | the navigation keys are numbered in their order |
| HotkeySignals.ModifierNames | app/hotkey/binding.py:9-17 | the names of each modifier, and that nothing else is one |
| HotkeyProofs.StepKeeps | app/hotkey/hotkey_manager.py:97-347 | every event keeps: believed modifiers are physically held, main keys are no modifiers, signals alternate |
| HotkeyProofs.RunKeepsChord | app/hotkey/hotkey_manager.py:264-313 | unless registrations interfere, a push-to-talk recording keeps its chord down |
| HotkeyTheorems.RecordingMeansHeld | app/hotkey/hotkey_manager.py:264-313 | push to talk records only while the whole chord is physically held; with no key down nothing records |
| HotkeyTheorems.ReleaseEndsRecording | app/hotkey/hotkey_manager.py:266-277 | releasing the main key or any key of a chord modifier ends it with one signal |
| HotkeyTheorems.RepeatsAreIgnoredWhileTalking | app/hotkey/hotkey_manager.py:298-309 | key repeats change nothing in a push-to-talk recording |
| HotkeyTheorems.ChordBreaksIff | app/hotkey/hotkey_manager.py:105-124 | one event takes the chord from a push-to-talk recording exactly if it is a registration that leaves no record chord, or one that is not down |
| HotkeyTheorems.ReplacedKeySticks | app/hotkey/hotkey_manager.py:105-120 | a run that replaces the held record key and then records with no key down |
| HotkeyTheorems.NothingRaises | app/hotkey/hotkey_manager.py:315-319 | `HotkeyStateError` is unreachable by keys, settings, start and stop |
| HotkeyTheorems.RaisesWhenLost | app/hotkey/hotkey_manager.py:271-275 | in general it is raised exactly at a modifier key after the binding was lost under a running push-to-talk |
| HotkeyTheorems.BindingCanBeLost | app/hotkey/hotkey_manager.py:122-124 | a run that loses it, for any unmodified record key |
| HotkeyTheorems.LostRecordingSticks | app/hotkey/hotkey_manager.py:264-313 | then only the cancel chord ends the recording |
| HotkeyTheorems.SignalsAlternate | app/hotkey/hotkey_manager.py:324-347 | over every run no two starts are adjacent, and a stop or auto-send directly follows a start |
| HotkeyTheorems.SettingsEndRecording | app/hotkey/hotkey_manager.py:97-100 | mode and settings changes always end a recording, with a stop |
| HotkeyTheorems.CancelChordWins | app/hotkey/hotkey_manager.py:279-285 | the cancel chord leaves nothing recording and says so, in both modes, idle or not, also when it is the record chord |
| HotkeyTheorems.AutoSendMeansAltHeld | app/hotkey/hotkey_manager.py:321-322 | an auto-send needs the setting and an Alt key physically down |
| HotkeySignals.AutoSendIff | app/hotkey/hotkey_manager.py:321-334 | over every run: a key event that ends a recording, not by the cancel chord, signals an auto-send exactly if that was last switched on and the last event of an Alt key was a press, and a stop otherwise |
| HotkeySignals.PressedIff | app/hotkey/hotkey_manager.py:264-270 | over every run: a modifier counts as pressed exactly if the last event of one of its keys was a press, with the hook running since |
| HotkeySignals.ModifierSignals | app/hotkey/hotkey_manager.py:264-277 | a modifier key ends a push-to-talk recording exactly if it belongs to the chord, and raises exactly without a record binding |
| HotkeySignals.MainKeySignals | app/hotkey/hotkey_manager.py:279-313 | any other key: exactly when it cancels, starts and ends a recording, and when it is remembered for debouncing |
| HotkeySignals.SettingSignals | app/hotkey/hotkey_manager.py:97-253 | what each setting, start and stop changes, and the one signal it gives |
| HotkeySignals.RegistrationTable | app/hotkey/hotkey_manager.py:105-124 | a registration replaces the binding of its identifier and no other, a refused one none, and unregistering removes it |
| HotkeySignals.FindIsFirst | app/hotkey/hotkey_manager.py:258-262 | the binding of an action is the first one there is for it |
| HotkeyRepeats.HeldKeyTogglesAgain | app/hotkey/debounce.py:15-27 | in toggle mode a press and any repeats give one signal for the press and one for every repeat at least the interval after the last one let through, starts and ends by turns |
| HotkeyRepeats.HeldKeyIsOnePressIff | app/hotkey/debounce.py:15-27 | the press counts as one exactly if every repeat comes within the interval of it; otherwise there is more than one signal |
| HotkeyRepeats.RepeatStartsIff | app/hotkey/hotkey_manager.py:279-309 | exactly when a mere repeat starts a recording, in either mode |
| HotkeyRepeats.RepeatStartsAgain | app/hotkey/hotkey_manager.py:298-309 | a run in which one held press records, is stopped by a setting, and records again from a repeat after the interval |
| HotkeyTheorems.ConfiguredChords | app/hotkey/hotkey_manager.py:132-214 | after new settings each built-in action has the chosen chord or its fallback and nothing of the old, unless it has a binding under an identifier of its own, which goes first |
| Hotkey.KeyDebouncer.Accept | app/hotkey/debounce.py:15-27 | a press always, a repeat only after the interval; only an accepted one is remembered |
| Hotkey.HotkeyManager.BindingForAction | app/hotkey/hotkey_manager.py:258-262 | the loop finds the first binding of the action |
| Hotkey.HotkeyManager.Register | app/hotkey/hotkey_manager.py:105-120 | an invalid or taken binding changes nothing |
| Hotkey.HotkeyManager.ApplyConfig | app/hotkey/hotkey_manager.py:132-214 | performs the settings step, with its loop over the reserved bindings |
| Hotkey.HotkeyManager.Start | app/hotkey/hotkey_manager.py:216-244 | started exactly if one of the permitted attempts installs the hook |
| Hotkey.HotkeyManager.Stop | app/hotkey/hotkey_manager.py:246-253 | forgets pressed modifiers, recording and debouncing |
| Hotkey.HotkeyManager.HandleKeyEvent | app/hotkey/hotkey_manager.py:264-313 | performs the key step, cancel chord first |
| ChunkProofs.RunKeeps | remote/gateway/chunks.py:30-88 | over every run an upload's counter is the sum of its part lengths and within the limit, and there are at most 32 uploads |
| ChunkTheorems.PartsAreLastWrites | remote/gateway/chunks.py:54-66 | a live upload's parts are the last writes at each index since its creation |
| ChunkTheorems.RepliesDependOnLastWrites | remote/gateway/chunks.py:54-81 | the reply to a part depends on nothing but those |
| ChunkTheorems.PayloadIsThePartsInOrder | remote/gateway/chunks.py:69-81 | a payload is parts 0 to n-1 joined, complete, within the limit, and ends its upload |
| ChunkTheorems.JoinIsConcat | remote/gateway/chunks.py:78-79 | joining parts 0 to n-1 is their concatenation |
| ChunkTheorems.CompleteIsRange | remote/gateway/chunks.py:74-75 | complete means the indices are exactly 0 to n-1 |
| ChunkTheorems.OrderDoesNotMatter | remote/gateway/chunks.py:58-66 | rearranged and retransmitted parts come to the same |
| ChunkTheorems.PartsAreIsolated | remote/gateway/chunks.py:54-81 | a part changes no other upload |
| ChunkTheorems.PurgeIsExact | remote/gateway/chunks.py:83-88 | a purge removes exactly what is older than ten minutes |
| ChunkLife.StampIsCreation | remote/gateway/chunks.py:30-38 | over every run the time by which a live upload ages is that of its last creation |
| ChunkLife.TypeIsLastGiven | remote/gateway/chunks.py:67-68 | over every run a live upload has the content type last given with one of its parts |
| ChunkLife.AliveIff | remote/gateway/chunks.py:30-88 | over every run an upload is there exactly if it was created, and since then no purge came more than ten minutes later, no final part, none that made it too large, and no eviction |
| ChunkLife.PartAnswers | remote/gateway/chunks.py:40-81 | the answer to every part after any calls: unknown exactly if the upload is not alive, otherwise by its last writes and the limit |
| ChunkLife.PartInTime | remote/gateway/chunks.py:40-53 | a part sent within ten minutes of the creation finds its upload, purge included |
| ChunkLife.FirstPartIsTaken | remote/gateway/chunks.py:30-68 | the first part of a new upload, in time and not too large, is taken |
| ChunkTheorems.CreationEvictsTheOldest | remote/gateway/chunks.py:33-37 | a new upload evicts at most one other, only at 32, and one of the oldest |
| ChunkTheorems.EmptyFinalReply | remote/gateway/chunks.py:54-81 | what an empty final chunk does to a complete upload, for every index |
| ChunkTheorems.EmptyFinalIsSafeIff | remote/gateway/chunks.py:58-66 | the whole upload comes back exactly if the chunk's index is not one of its parts |
| Chunks.ChunkAssembler.PurgeExpired | remote/gateway/chunks.py:83-88 | the collecting and deleting loops perform the purge step |
| Chunks.ChunkAssembler.FindOldest | remote/gateway/chunks.py:35-35 | the first of the oldest keys |
| Chunks.ChunkAssembler.CreateUploadId | remote/gateway/chunks.py:30-38 | purge, then insertion with eviction |
| Chunks.ChunkAssembler.AddPart | remote/gateway/chunks.py:40-81 | refuses bad arguments untouched, and otherwise performs purge and part |
| Chunks.ChunkAssembler.JoinParts | remote/gateway/chunks.py:78-79 | joins the parts in index order |
| PairingProofs.LockoutIsObserved | remote/gateway/pairing.py:55-63 | `is_locked_out` says yes exactly when `pair` would evaluate nothing, and clearing a stale lockout first changes nothing |
| PairingProofs.GuessesAreBounded | remote/gateway/pairing.py:78-107 | a run shorter than n lockouts has at most n times the maximum of refused PINs, from any state |
| PairingProofs.GuessesInTime | remote/gateway/pairing.py:78-107 | the same as max_failed*(floor(T/lockout)+1) |
| PairingTheorems.BoundIsReached | remote/gateway/pairing.py:103-107 | a run that reaches it, for every n and all settings, each guess made at a PIN on offer that has not run out |
| PairingTheorems.TokenIsGoodIffGranted | remote/gateway/pairing.py:109-119 | a token is good exactly until the last grant runs out, if nothing was revoked since |
| PairingTheorems.PairedIffOffered | remote/gateway/pairing.py:78-101 | pairing succeeds exactly with the PIN last issued, unused, in time and not locked out |
| PairingCounts.FailuresAreCounted | remote/gateway/pairing.py:99-107 | over every run the failures on record are the refusals since the last success, revocation or lockout |
| PairingCounts.LockedOutIff | remote/gateway/pairing.py:42-107 | `pair` is locked out exactly if the last such stretch came to max(1, max_failed_attempts) and less than max(1, lockout_sec) seconds have passed since |
| PairingCounts.PairAnswers | remote/gateway/pairing.py:78-101 | its whole answer, read off the calls before it |
| PairingCounts.SuccessClears | remote/gateway/pairing.py:99-99 | a run: four failures, a success and one more failure do not lock out at five |
| PairingTheorems.PinsPairOnce | remote/gateway/pairing.py:97-98 | never more successes than PINs issued |
| Pairing.PairingManager.IsLockedOut | remote/gateway/pairing.py:55-63 | performs the query step, forgetting a lockout that is over |
| Pairing.PairingManager.IssuePin | remote/gateway/pairing.py:65-70 | the new PIN replaces the old |
| Pairing.PairingManager.Pair | remote/gateway/pairing.py:78-101 | performs the pairing step; a token exactly on success |
| Pairing.PairingManager.VerifyToken | remote/gateway/pairing.py:109-119 | performs the verification step, dropping a late token |
| NormalizeProofs.SubstitutionDeletesGaps | core/textproc/normalize_ko.py:35-40 | each scanning substitution, with backtracking and non-overlapping matches, deletes exactly the gaps its rule names |
| NormalizeTheorems.NormalizeByGaps | core/textproc/normalize_ko.py:44-56 | all passes together come to one decision for each gap |
| NormalizeTheorems.LettersSurvive | core/textproc/normalize_ko.py:18-56 | without whitespace, the result is exactly the text without control characters and whitespace, in order |
| NormalizeTheorems.BlanksBecomeOne | core/textproc/normalize_ko.py:18-33 | blanks in a row become one space |
| NormalizeTheorems.LineEndsStay | core/textproc/normalize_ko.py:18-33 | line ends stay, and the blanks before and after one collapse for themselves |
| NormalizeTheorems.Classes | core/textproc/normalize_ko.py:7-33 | which characters count as what |
| NormalizeFixpoint.NormalizeIsNormal | core/textproc/normalize_ko.py:7-56 | the result is in normal form for the settings |
| NormalizeFixpoint.FixedIffNormal | core/textproc/normalize_ko.py:7-56 | a text is left alone exactly when it is in normal form |
| NormalizeFixpoint.Idempotent | core/textproc/normalize_ko.py:44-56 | twice is once, for every text and all settings |
| Utf16Spec.DecodeEncode | core/inject/text_encoding.py:6-12 | exactly the texts without surrogates have units, and those decode to the text (section 2.2 of RFC 2781) |
| Utf16Spec.EncodeDecode | core/inject/text_encoding.py:6-12 | units that decode are the units of what they decode to |
| Utf16Spec.UnitsCount | core/inject/text_encoding.py:15-16 | as many units as code points and pairs |
| Utf16Spec.UnitsOfPoint | core/inject/text_encoding.py:6-12 | the units of a single code point: itself, or the two halves of a surrogate pair (section 2.1 of RFC 2781) |
| Utf16Spec.UnitsConcat | core/inject/text_encoding.py:6-12 | the units of a text are those of its parts |
| UnicodeInput.BuildEvents | core/inject/unicode_input.py:65-68 | the loop gives one press and one release for each unit |
| UnicodeInput.PressAt | core/inject/unicode_input.py:65-68 | each unit is pressed and then let go, in order |
| UnicodeInput.SendUnits | core/inject/unicode_input.py:63-72 | all presses in order, or a proper initial part when the system stops; at most 128 events at once |
| UnicodeInput.SendUnicodeText | core/inject/unicode_input.py:59-72 | everything, nothing for a text that cannot be encoded, or a proper part |
| UnicodeInput.TypedTextIsTheText | core/inject/unicode_input.py:59-72 | the events decode to the very text, wherever the chunk borders fall |
| UnicodeInput.CutTextIsAPrefix | core/inject/unicode_input.py:75-82 | cut short, they type an initial part of the text and at most half of one more character |

## Left out

- Session: the interleaving of threads inside one step, `wire_hotkey`, level callbacks, mode identifiers, realtime segment injection, the timeout of `_wait_for_workers`.
- Session: `AudioCapture.reset`, which the application never calls, and the settings microphone probe, which drives the capture behind the manager's back.
- Session.SessionManager.Close: does not model the bounded wait for workers, which changes no state of the manager.
- Capture.AudioCapture.ForwardError: does not record the call of the registered error callback, which is the user interface's.
- Recording.BatchRecording.CurrentDurationMs: the quotient is exact, where the program divides floating-point numbers and cuts the result down.
- Recording.BatchRecording.Finalize: does not build the audio buffer; resampling and its error are an oracle of the facade's step.
- Capture: closing a driver stream after a failed stop is taken to succeed; device selection is part of the driver oracle.
- Recording: resampling and the audio buffer are an oracle; the duration is exact where the program divides floating-point numbers.
- Pipeline: prompts, the queue's lock, ties of row creation times (the latest row is the last appended) and the refusal of a run without a session identifier.
- PipelineResume.ResumeHasTheSameEffects: needs default delivery and Korean speech, because the code drops both on reprocessing; that nothing less will do is `AlwaysSameIff`.
- Pipeline.Engine.Fail: the text of the error is not modelled, only the stage it is reported at.
- Transactions: KeyboardInterrupt and other non-`Exception` raises, the busy-retry loop, rollbacks the engine starts by itself.
- Migrator: the backup file and a failing BEGIN; the migration list is ascending, as in the repository.
- WebSocket: handshake, TLS, timeouts, socket errors other than end of stream, `close`, FIN and continuation frames, the content of the JSON messages (an oracle of `Transcribe`), and Python's recursion limit on very long runs of PINGs.
- WebSocketSpec.EncodeParses: payloads are shorter than 2^64 bytes, the most the format can announce.
- Segmenter: the detector is a Boolean for each frame.
- KeyBinding.ParseBinding: starts from the trimmed, lower-cased, non-empty parts; splitting the string and Unicode lower-casing are not modelled.
- Hotkey: the benchmark environment variable that skips the hook, callbacks that call back into the manager, the suggestion of fallbacks (an input of the settings step), key events swallowed by the system.
- Hotkey.HotkeyManager.Register: does not record the conflict callback, which is called exactly when it returns false.
- Uploads: bytes are arbitrary numbers; upload identifiers are fresh inputs.
- Pairing: trimming the PIN, the secret store, `current_pin`; PINs and tokens are not empty.
- Normalisation: decimal digits are any class of characters apart from whitespace and units.
- Unicode input: delays, backspaces and the Enter key.
- User interface, HTTP, models, key stores, updates and release scripts: foreign code or single branches.
