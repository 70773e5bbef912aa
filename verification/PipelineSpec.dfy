/** Pipeline runs as scripts: the effects a run would have, with the points where it asks whether it
    was canceled and the points where something goes wrong.  Stages, store and injector are oracles. */
module PipelineSpec {
  import opened Wrappers

  type Id = nat
  type Audio = seq<int>

  datatype Row = Row(session: Id, stage: int, text: string, provider: string)
  datatype Artifact = Artifact(session: Id, stage: int, text: string, language: string, provider: string,
                               injected: Option<bool>)

  // How text is typed: press enter afterwards, and by which method.
  datatype Delivery = Delivery(pressEnter: bool, injectMethod: Option<string>)
  const PLAIN := Delivery(false, None)

  datatype SttResult = Heard(text: string, language: string, provider: string) | SttCanceled | SttFailed
  datatype LlmResult = Wrote(text: string, provider: string) | LlmFailed
  datatype InjectResult = Typed | NotTyped | InjectRaised

  datatype Env = Env(
    stt: Audio -> SttResult,
    correct: string -> LlmResult,
    report: string -> LlmResult,
    inject: (string, Delivery) -> InjectResult,
    blank: string -> bool,
    storeFails: int -> bool)

  datatype Mode = Mode(target: int, inject: int)
  datatype Input = Input(batch: bool, audio: Option<Audio>, session: Id, delivery: Delivery)

  datatype Status = RUNNING | FINISHED | ERROR | CANCELED

  datatype Effect =
    | StageStarted(stage: int)
    | Stored(row: Row)
    | StageCompleted(artifact: Artifact)
    | InjectorCalled(text: string, delivery: Delivery)
    | InjectRequested(artifact: Artifact)
    | PipelineError(stage: int)
    | PipelineFinished(status: Status)

  // ---------- scripts ----------

  datatype Item =
    | Do(effect: Effect)
    | Poll(stage: int)                       // asks is_canceled; if so the run ends canceled at this stage
    | Fail(stage: int)                       // the run ends in error at this stage
    | Throw(canceled: bool)                  // an exception for the outermost handler

  datatype End = Running | Ended(status: Status, stage: int) | Thrown(canceled: bool)
  datatype Part = Part(effects: seq<Effect>, polled: nat, end: End)

  type Polls = nat -> bool
  const NEVER: Polls := _ => false

  function Perform(items: seq<Item>, polls: Polls, n: nat): Part
    decreases |items|
  {
    if items == [] then Part([], n, Running)
    else match items[0]
      case Do(e) => var p := Perform(items[1..], polls, n); p.(effects := [e] + p.effects)
      case Poll(k) =>
        if polls(n) then Part([PipelineFinished(CANCELED)], n + 1, Ended(CANCELED, k))
        else Perform(items[1..], polls, n + 1)
      case Fail(k) => Part([PipelineError(k), PipelineFinished(ERROR)], n, Ended(ERROR, k))
      case Throw(canceled) => Part([], n, Thrown(canceled))
  }

  datatype Outcome = Outcome(effects: seq<Effect>, status: Status, errorStage: Option<int>)

  // The outermost handler reports an exception at stage `base`.
  function Conclude(p: Part, base: int): Outcome
  {
    match p.end
    case Running => Outcome(p.effects + [PipelineFinished(FINISHED)], FINISHED, None)
    case Ended(status, k) => Outcome(p.effects, status, Some(k))
    case Thrown(canceled) =>
      if canceled then Outcome(p.effects + [PipelineFinished(CANCELED)], CANCELED, Some(base))
      else Outcome(p.effects + [PipelineError(base), PipelineFinished(ERROR)], ERROR, Some(base))
  }

  function Execute(items: seq<Item>, polls: Polls, base: int): Outcome
  {
    Conclude(Perform(items, polls, 0), base)
  }

  // ---------- the program's scripts ----------

  function InjectScript(env: Env, mode: Mode, a: Artifact, d: Delivery): seq<Item>
  {
    if mode.inject != a.stage then []
    else if env.blank(a.text) then [Do(InjectRequested(a.(injected := Some(true))))]
    else
      [Do(InjectorCalled(a.text, d))] +
      match env.inject(a.text, d)
      case Typed => [Do(InjectRequested(a.(injected := Some(true))))]
      case NotTyped => [Do(InjectRequested(a.(injected := Some(false))))]
      case InjectRaised => [Throw(false)]
  }

  // A stage's text goes to the store, to the listeners and, if this is its stage, to the injector.
  function DeliverScript(env: Env, mode: Mode, a: Artifact, d: Delivery): seq<Item>
  {
    if env.storeFails(a.stage) then [Throw(false)]
    else
      [Do(Stored(Row(a.session, a.stage, a.text, a.provider))), Do(StageCompleted(a)), Poll(a.stage)]
      + InjectScript(env, mode, a, d)
  }

  // Stage 2 or 3 on a source artifact.
  function StageScript(env: Env, mode: Mode, stage: int, source: Artifact, o: LlmResult, d: Delivery): seq<Item>
  {
    [Do(StageStarted(stage)), Poll(stage)] + StageRest(env, mode, stage, source, o, d)
  }

  function StageRest(env: Env, mode: Mode, stage: int, source: Artifact, o: LlmResult, d: Delivery): seq<Item>
  {
    match o
    case LlmFailed => [Fail(stage)]
    case Wrote(text, provider) => DeliverScript(env, mode, StageArtifact(stage, source, text, provider), d)
  }

  function StageArtifact(stage: int, source: Artifact, text: string, provider: string): Artifact
  {
    Artifact(source.session, stage, text, source.language, provider, None)
  }

  // Stages 2 and 3 as far as the mode asks, from stage `from` on.
  function LaterScript(env: Env, mode: Mode, arts: map<int, Artifact>, from: int, d: Delivery): seq<Item>
    requires 1 in arts
  {
    if from <= 2 && mode.target >= 2 then
      var o := env.correct(arts[1].text);
      StageScript(env, mode, 2, arts[1], o, d) +
      if o.Wrote? && mode.target >= 3 then
        var a := StageArtifact(2, arts[1], o.text, o.provider);
        StageScript(env, mode, 3, a, env.report(a.text), d)
      else []
    else if from <= 3 && mode.target >= 3 then
      var source := if 2 in arts then arts[2] else arts[1];
      StageScript(env, mode, 3, source, env.report(source.text), d)
    else []
  }

  function FirstScript(env: Env, mode: Mode, a: Artifact, d: Delivery): seq<Item>
  {
    [Do(StageStarted(1)), Poll(1)] + DeliverScript(env, mode, a, d)
  }

  function RunScript(env: Env, mode: Mode, input: Input): seq<Item>
  {
    if !input.batch then [Fail(0)]
    else if input.audio.None? || mode.target < 1 then [Fail(1)]
    else match env.stt(input.audio.value)
      case SttCanceled => [Do(StageStarted(1)), Poll(1), Throw(true)]
      case SttFailed => [Do(StageStarted(1)), Poll(1), Throw(false)]
      case Heard(text, language, provider) =>
        var a := Artifact(input.session, 1, text, language, provider, None);
        FirstScript(env, mode, a, input.delivery) + LaterScript(env, mode, map[1 := a], 2, input.delivery)
  }

  // ---------- reprocessing ----------

  function Latest(rows: seq<Row>, s: Id, stage: int): Option<Row>
  {
    if rows == [] then None
    else if rows[|rows| - 1].session == s && rows[|rows| - 1].stage == stage then Some(rows[|rows| - 1])
    else Latest(rows[..|rows| - 1], s, stage)
  }

  // Rows carry no language: whatever is loaded is taken to be Korean.
  function LoadedArtifact(row: Row): Artifact
  {
    Artifact(row.session, row.stage, row.text, "ko", row.provider, None)
  }

  function Load(rows: seq<Row>, s: Id): map<int, Artifact>
  {
    map k | k in {1, 2, 3} && Latest(rows, s, k).Some? :: LoadedArtifact(Latest(rows, s, k).value)
  }

  function Raised(mode: Mode, from: int): Mode
  {
    if mode.target < from then mode.(target := from) else mode
  }

  function ReprocessScript(env: Env, mode: Mode, rows: seq<Row>, s: Id, from: int, seed: Option<string>): seq<Item>
  {
    var arts := Load(rows, s);
    if from == 1 then [Fail(1)]
    else if 1 !in arts then [Fail(from)]
    else
      var first := if seed.Some? then arts[1].(text := seed.value) else arts[1];
      (if seed.Some? then [Do(Stored(Row(s, 1, seed.value, first.provider)))] else [])
      + LaterScript(env, Raised(mode, from), arts[1 := first], from, PLAIN)
  }
}
