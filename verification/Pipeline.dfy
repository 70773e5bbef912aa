/** `Pipeline`: the imperative runs, each proved to have exactly the effects of its script. */
module Pipeline {
  import opened Wrappers
  import opened PipelineSpec
  import opened PipelineProofs
  import opened PipelineResume
  import opened PipelineScripts

  class PipelineRun {
    const session: Id
    var status: Status
    var artifacts: map<int, Artifact>
    var errorStage: Option<int>

    constructor (session: Id)
      ensures this.session == session && status == RUNNING && artifacts == map[] && errorStage == None
    {
      this.session, status, artifacts, errorStage := session, RUNNING, map[], None;
    }
  }

  class Engine {
    const env: Env
    var polls: Polls            // the answers is_canceled gives in the current call
    var polled: nat
    var rows: seq<Row>
    ghost var trace: seq<Effect>

    constructor (env: Env, rows: seq<Row>)
      ensures this.env == env && this.rows == rows && trace == []
    {
      this.env, polls, polled, this.rows, trace := env, NEVER, 0, rows, [];
    }

    // What a call or part of one has added since (trace0, rows0) and `run`'s state show the part.
    ghost predicate Did(p: Part, trace0: seq<Effect>, rows0: seq<Row>, run: PipelineRun)
      reads this, run
    {
      && trace == trace0 + p.effects
      && rows == rows0 + RowsOf(p.effects)
      && polled == p.polled
      && match p.end
         case Ended(status, k) => run.status == status && run.errorStage == Some(k)
         case _ => run.status == RUNNING && run.errorStage == None
    }

    method Canceled() returns (c: bool)
      modifies this`polled
      ensures c == polls(old(polled)) && polled == old(polled) + 1
    {
      c := polls(polled);
      polled := polled + 1;
    }

    // `_cancel`
    method Cancel(run: PipelineRun, stage: int)
      modifies this`trace, run`status, run`errorStage
      ensures run.status == CANCELED && run.errorStage == Some(stage)
      ensures trace == old(trace) + [PipelineFinished(CANCELED)]
    {
      run.status := CANCELED;
      run.errorStage := Some(stage);
      trace := trace + [PipelineFinished(run.status)];
    }

    // `_fail`
    method Fail(run: PipelineRun, stage: int)
      modifies this`trace, run`status, run`errorStage
      ensures run.status == ERROR && run.errorStage == Some(stage)
      ensures trace == old(trace) + [PipelineError(stage), PipelineFinished(ERROR)]
    {
      run.status := ERROR;
      run.errorStage := Some(stage);
      trace := trace + [PipelineError(stage), PipelineFinished(run.status)];
    }

    // `_persist_stage_artifact`: false when the store raises.
    method Persist(a: Artifact) returns (ok: bool)
      modifies this`rows, this`trace
      ensures ok == !env.storeFails(a.stage)
      ensures var row := Row(a.session, a.stage, a.text, a.provider);
              && rows == (if ok then old(rows) + [row] else old(rows))
              && trace == (if ok then old(trace) + [Stored(row)] else old(trace))
    {
      if env.storeFails(a.stage) {
        return false;
      }
      rows := rows + [Row(a.session, a.stage, a.text, a.provider)];
      trace := trace + [Stored(Row(a.session, a.stage, a.text, a.provider))];
      return true;
    }

    // `_inject_artifact`: the artifact with its result, or an exception.
    method InjectArtifact(mode: Mode, a: Artifact, d: Delivery) returns (end: End, b: Artifact)
      requires mode.inject == a.stage
      modifies this`trace
      ensures b == Injected(env, mode, a, d)
      ensures end == Perform(InjectScript(env, mode, a, d), polls, polled).end
      ensures trace == old(trace) + Perform(InjectScript(env, mode, a, d), polls, polled).effects
    {
      PerformInject(env, mode, a, d, polls, polled);
      b := a;
      var success := true;
      if !env.blank(a.text) {
        trace := trace + [InjectorCalled(a.text, d)];
        var r := env.inject(a.text, d);
        if r.InjectRaised? {
          return Thrown(false), b;
        }
        success := r.Typed?;
      }
      b := a.(injected := Some(success));
      trace := trace + [InjectRequested(b)];
      return Running, b;
    }

    // Injection, if this is the mode's stage for it; the run keeps the artifact with its result.
    method InjectIfDue(run: PipelineRun, mode: Mode, a: Artifact, d: Delivery) returns (end: End)
      requires a.stage in run.artifacts && run.artifacts[a.stage] == a
      modifies this`trace, run`artifacts
      ensures end == Perform(InjectScript(env, mode, a, d), polls, polled).end
      ensures trace == old(trace) + Perform(InjectScript(env, mode, a, d), polls, polled).effects
      ensures run.artifacts == old(run.artifacts)[a.stage := Injected(env, mode, a, d)]
    {
      PerformInject(env, mode, a, d, polls, polled);
      assert run.artifacts[a.stage := a] == run.artifacts;
      if mode.inject == a.stage {
        var b;
        end, b := InjectArtifact(mode, a, d);
        if end.Running? {
          run.artifacts := run.artifacts[a.stage := b];
        }
        return;
      }
      return Running;
    }

    // Store and announce a stage's text; false when the store raises.
    method Record(run: PipelineRun, a: Artifact) returns (ok: bool)
      modifies this`rows, this`trace, run`artifacts
      ensures ok == !env.storeFails(a.stage)
      ensures ok ==> trace == old(trace) + Recorded(a) && run.artifacts == old(run.artifacts)[a.stage := a]
      ensures ok ==> rows == old(rows) + [Row(a.session, a.stage, a.text, a.provider)]
      ensures !ok ==> trace == old(trace) && rows == old(rows) && run.artifacts == old(run.artifacts)
    {
      ok := Persist(a);
      if ok {
        run.artifacts := run.artifacts[a.stage := a];
        trace := trace + [StageCompleted(a)];
      }
    }

    // The part all stages share once their text is there: store, announce, poll, inject.
    method Deliver(run: PipelineRun, mode: Mode, a: Artifact, d: Delivery) returns (end: End)
      requires run.status == RUNNING && run.errorStage == None
      modifies this`polled, this`rows, this`trace, run
      ensures end == Perform(DeliverScript(env, mode, a, d), polls, old(polled)).end
      ensures Did(Perform(DeliverScript(env, mode, a, d), polls, old(polled)), old(trace), old(rows), run)
      ensures run.artifacts == Kept(old(run.artifacts), Perform(DeliverScript(env, mode, a, d), polls, old(polled)).effects)
      ensures end.Running? ==> run.artifacts == old(run.artifacts)[a.stage := Injected(env, mode, a, d)]
    {
      ghost var n, trace0, rows0, arts0 := polled, trace, rows, run.artifacts;
      DeliverKeeps(arts0, env, mode, a, d, polls, n);
      var ok := Record(run, a);
      if !ok {
        DeliverRefused(env, mode, a, d, polls, n);
        assert trace0 + [] == trace0 && rows0 + [] == rows0;
        return Thrown(false);
      }
      var c := Canceled();
      if c {
        Cancel(run, a.stage);
        DeliverCanceled(env, mode, a, d, polls, n);
        Regroup(trace0, Recorded(a), [PipelineFinished(CANCELED)]);
        return Ended(CANCELED, a.stage);
      }
      end := InjectIfDue(run, mode, a, d);
      assert arts0[a.stage := a][a.stage := Injected(env, mode, a, d)] == arts0[a.stage := Injected(env, mode, a, d)];
      DeliverInjects(env, mode, a, d, polls, n);
      Regroup(trace0, Recorded(a), Perform(InjectScript(env, mode, a, d), polls, n + 1).effects);
    }

    // One LLM stage on a source artifact.
    method RunStage(run: PipelineRun, mode: Mode, stage: int, source: Artifact, d: Delivery) returns (end: End)
      requires run.status == RUNNING && run.errorStage == None && stage in {2, 3}
      modifies this`polled, this`rows, this`trace, run
      ensures var p := Perform(StageScript(env, mode, stage, source, Result(env, stage, source.text), d), polls, old(polled));
              end == p.end && Did(p, old(trace), old(rows), run) && run.artifacts == Kept(old(run.artifacts), p.effects)
      ensures end.Running? ==>
                var o := Result(env, stage, source.text);
                && o.Wrote?
                && run.artifacts ==
                   old(run.artifacts)[stage := Injected(env, mode, StageArtifact(stage, source, o.text, o.provider), d)]
    {
      ghost var n, trace0, rows0 := polled, trace, rows;
      ghost var rest := StageRest(env, mode, stage, source, Result(env, stage, source.text), d);
      StageKeeps(run.artifacts, stage, rest, polls, n);
      trace := trace + [StageStarted(stage)];
      var c := Canceled();
      if c {
        Cancel(run, stage);
        StageCanceled(stage, rest, polls, n);
        Regroup(trace0, [StageStarted(stage)], [PipelineFinished(CANCELED)]);
        assert rows0 + [] == rows0;
        return Ended(CANCELED, stage);
      }
      end := RunRest(run, mode, stage, source, d);
      StageGoesOn(stage, rest, polls, n);
      Regroup(trace0, [StageStarted(stage)], Perform(rest, polls, n + 1).effects);
    }

    // The stage once it has started and was not canceled.
    method RunRest(run: PipelineRun, mode: Mode, stage: int, source: Artifact, d: Delivery) returns (end: End)
      requires run.status == RUNNING && run.errorStage == None && stage in {2, 3}
      modifies this`polled, this`rows, this`trace, run
      ensures var p := Perform(StageRest(env, mode, stage, source, Result(env, stage, source.text), d), polls, old(polled));
              end == p.end && Did(p, old(trace), old(rows), run) && run.artifacts == Kept(old(run.artifacts), p.effects)
      ensures end.Running? ==>
                var o := Result(env, stage, source.text);
                && o.Wrote?
                && run.artifacts ==
                   old(run.artifacts)[stage := Injected(env, mode, StageArtifact(stage, source, o.text, o.provider), d)]
    {
      var result := Result(env, stage, source.text);
      match result {
        case LlmFailed =>
          PerformFail(stage, polls, polled);
          FailKeeps(run.artifacts, stage);
          assert rows + [] == rows;
          Fail(run, stage);
          return Ended(ERROR, stage);
        case Wrote(text, provider) =>
          end := Deliver(run, mode, StageArtifact(stage, source, text, provider), d);
      }
    }

    // Stages 2 and 3 as far as the mode asks.
    method RunLater(run: PipelineRun, mode: Mode, from: int, d: Delivery) returns (end: End)
      requires run.status == RUNNING && run.errorStage == None && 1 in run.artifacts
      modifies this`polled, this`rows, this`trace, run
      ensures var p := Perform(LaterScript(env, mode, old(run.artifacts), from, d), polls, old(polled));
              end == p.end && Did(p, old(trace), old(rows), run) && run.artifacts == Kept(old(run.artifacts), p.effects)
    {
      ghost var arts, n, trace0, rows0 := run.artifacts, polled, trace, rows;
      end := Running;
      if from <= 2 && mode.target >= 2 {
        end := RunStage(run, mode, 2, run.artifacts[1], d);
        ghost var o := env.correct(arts[1].text);
        ghost var second := StageScript(env, mode, 2, arts[1], o, d);
        ghost var third := LaterScript(env, mode, arts, from, d)[|second|..];
        assert LaterScript(env, mode, arts, from, d) == second + third;
        PerformConcat(second, third, polls, n);
        if !end.Running? {
          return;
        }
        ghost var first := Perform(second, polls, n);
        if mode.target >= 3 {
          var source := run.artifacts[2];
          assert third == StageScript(env, mode, 3, source, env.report(source.text), d);
          end := RunStage(run, mode, 3, source, d);
          ghost var q := Perform(third, polls, first.polled);
          KeptConcat(arts, first.effects, q.effects);
          RowsConcat(first.effects, q.effects);
          Regroup(trace0, first.effects, q.effects);
          Regroup(rows0, RowsOf(first.effects), RowsOf(q.effects));
        } else {
          assert first.effects + [] == first.effects;
        }
        return;
      }
      if from <= 3 && mode.target >= 3 {
        var source := if 2 in run.artifacts then run.artifacts[2] else run.artifacts[1];
        end := RunStage(run, mode, 3, source, d);
        return;
      }
      assert trace0 + [] == trace0 && rows0 + [] == rows0;
    }

    // A run from its stage 1 text on.
    method RunHeard(run: PipelineRun, mode: Mode, a: Artifact, d: Delivery) returns (end: End)
      requires run.status == RUNNING && run.errorStage == None && run.artifacts == map[] && a.stage == 1
      modifies this`polled, this`rows, this`trace, run
      ensures var p := Perform(DeliverScript(env, mode, a, d) + LaterScript(env, mode, map[1 := a], 2, d), polls, old(polled));
              end == p.end && Did(p, old(trace), old(rows), run) && run.artifacts == Kept(old(run.artifacts), p.effects)
    {
      ghost var n, trace0, rows0 := polled, trace, rows;
      ghost var deliver, later := DeliverScript(env, mode, a, d), LaterScript(env, mode, map[1 := a], 2, d);
      PerformConcat(deliver, later, polls, n);
      ghost var p := Perform(deliver, polls, n);
      end := Deliver(run, mode, a, d);
      if !end.Running? {
        return;
      }
      LaterSame(env, mode, map[1 := a], run.artifacts, d);
      ghost var q := Perform(later, polls, p.polled);
      end := RunLater(run, mode, 2, d);
      RowsConcat(p.effects, q.effects);
      KeptConcat(map[], p.effects, q.effects);
      Regroup(trace0, p.effects, q.effects);
      Regroup(rows0, RowsOf(p.effects), RowsOf(q.effects));
    }

    // Everything a run does inside its outermost handler.
    method RunStages(run: PipelineRun, mode: Mode, audio: Audio, d: Delivery) returns (end: End)
      requires run.status == RUNNING && run.errorStage == None && run.artifacts == map[] && mode.target >= 1
      modifies this`polled, this`rows, this`trace, run
      ensures var p := Perform(RunScript(env, mode, Input(true, Some(audio), run.session, d)), polls, old(polled));
              end == p.end && Did(p, old(trace), old(rows), run) && run.artifacts == Kept(old(run.artifacts), p.effects)
    {
      ghost var n, trace0, rows0 := polled, trace, rows;
      ghost var rest := HeardScript(env, mode, run.session, env.stt(audio), d);
      RunIsStage(env, mode, audio, run.session, d);
      StageKeeps(map[], 1, rest, polls, n);
      trace := trace + [StageStarted(1)];
      var c := Canceled();
      if c {
        Cancel(run, 1);
        StageCanceled(1, rest, polls, n);
        Regroup(trace0, [StageStarted(1)], [PipelineFinished(CANCELED)]);
        assert rows0 + [] == rows0;
        return Ended(CANCELED, 1);
      }
      end := RunFirst(run, mode, audio, d);
      StageGoesOn(1, rest, polls, n);
      Regroup(trace0, [StageStarted(1)], Perform(rest, polls, n + 1).effects);
    }

    // Stage 1 once it has started and was not canceled, and what follows it.
    method RunFirst(run: PipelineRun, mode: Mode, audio: Audio, d: Delivery) returns (end: End)
      requires run.status == RUNNING && run.errorStage == None && run.artifacts == map[]
      modifies this`polled, this`rows, this`trace, run
      ensures var p := Perform(HeardScript(env, mode, run.session, env.stt(audio), d), polls, old(polled));
              end == p.end && Did(p, old(trace), old(rows), run) && run.artifacts == Kept(old(run.artifacts), p.effects)
    {
      PerformFail(1, polls, polled);
      assert trace + [] == trace && rows + [] == rows;
      match env.stt(audio) {
        case SttCanceled =>
          return Thrown(true);
        case SttFailed =>
          return Thrown(false);
        case Heard(text, language, provider) =>
          end := RunHeard(run, mode, Artifact(run.session, 1, text, language, provider, None), d);
      }
    }

    // The end of a call: finished, or what the outermost handler makes of an exception.
    method Finish(run: PipelineRun, end: End, base: int)
      modifies this`trace, run`status, run`errorStage
      requires match end
               case Ended(status, k) => run.status == status && run.errorStage == Some(k)
               case _ => run.status == RUNNING && run.errorStage == None
      ensures var o := Conclude(Part([], 0, end), base);
              && trace == old(trace) + (if end.Ended? then [] else o.effects)
              && run.status == o.status && run.errorStage == o.errorStage
    {
      match end {
        case Running =>
          run.status := FINISHED;
          trace := trace + [PipelineFinished(run.status)];
        case Ended(_, _) =>
        case Thrown(canceled) =>
          if canceled {
            Cancel(run, base);
          } else {
            Fail(run, base);
          }
      }
    }

    /** `run`: a new run object in a terminal state, with exactly the effects of the script. */
    method Run(mode: Mode, input: Input, isCanceled: Polls) returns (run: PipelineRun)
      modifies this
      ensures fresh(run) && run.session == input.session
      ensures var o := Execute(RunScript(env, mode, input), isCanceled, 1);
              && trace == old(trace) + o.effects && rows == old(rows) + RowsOf(o.effects)
              && run.status == o.status && run.errorStage == o.errorStage && run.artifacts == Kept(map[], o.effects)
    {
      run := new PipelineRun(input.session);
      polls, polled := isCanceled, 0;
      ghost var items := RunScript(env, mode, input);
      ghost var p := Perform(items, isCanceled, 0);
      if !input.batch {
        PerformFail(0, polls, 0);
        FailKeeps(map[], 0);
        Fail(run, 0);
        return;
      }
      PerformFail(1, polls, 0);
      FailKeeps(map[], 1);
      if input.audio.None? {
        Fail(run, 1);
        return;
      }
      if mode.target < 1 {
        Fail(run, 1);
        return;
      }
      assert input == Input(true, Some(input.audio.value), run.session, input.delivery);
      var end := RunStages(run, mode, input.audio.value, input.delivery);
      Concluded(old(trace), p, 1);
      ConcludeKeeps(map[], p, 1);
      Finish(run, end, 1);
    }

    /** `reprocess`: an exception before anything starts only for a stage number out of range or when the
        store refuses the edited text. */
    method Reprocess(session: Id, from: int, mode: Mode, seed: Option<string>, isCanceled: Polls)
      returns (r: Option<PipelineRun>)
      modifies this
      ensures r.None? <==> from !in {1, 2, 3}
                           || (from != 1 && 1 in Load(old(rows), session) && seed.Some? && env.storeFails(1))
      ensures r.None? ==> trace == old(trace) && rows == old(rows)
      ensures r.Some? ==>
                var o := Execute(ReprocessScript(env, mode, old(rows), session, from, seed), isCanceled, from);
                && fresh(r.value) && r.value.session == session
                && trace == old(trace) + o.effects && rows == old(rows) + RowsOf(o.effects)
                && r.value.status == o.status && r.value.errorStage == o.errorStage
                && r.value.artifacts == Kept(Initial(old(rows), session, from, seed), o.effects)
    {
      if from !in {1, 2, 3} {
        return None;
      }
      var active := Raised(mode, from);
      polls, polled := isCanceled, 0;
      var run := new PipelineRun(session);
      run.artifacts := Load(rows, session);
      ghost var items := ReprocessScript(env, mode, rows, session, from, seed);
      if from == 1 {
        PerformFail(1, polls, 0);
        FailKeeps(run.artifacts, 1);
        Fail(run, 1);
        return Some(run);
      }
      if 1 !in run.artifacts {
        PerformFail(from, polls, 0);
        FailKeeps(run.artifacts, from);
        Fail(run, from);
        return Some(run);
      }
      var ok := StoreSeed(run, seed);
      if !ok {
        return None;
      }
      ReprocessIs(env, mode, old(rows), session, from, seed, polls);
      ghost var later := Execute(LaterScript(env, active, run.artifacts, from, PLAIN), polls, from);
      FinishLater(run, active, from);
      Regroup(old(trace), Prelude(old(rows), session, seed), later.effects);
      Regroup(old(rows), RowsOf(Prelude(old(rows), session, seed)), RowsOf(later.effects));
      return Some(run);
    }

    // The edited text, if there is one, becomes the stage 1 artifact; false when the store refuses it.
    method StoreSeed(run: PipelineRun, seed: Option<string>) returns (ok: bool)
      requires 1 in Load(rows, run.session) && run.artifacts == Load(rows, run.session)
      modifies this`rows, this`trace, run`artifacts
      ensures ok <==> seed.None? || !env.storeFails(1)
      ensures !ok ==> trace == old(trace) && rows == old(rows)
      ensures var prelude := Prelude(old(rows), run.session, seed);
              ok ==> && trace == old(trace) + prelude && rows == old(rows) + RowsOf(prelude)
                     && run.artifacts == Seeded(old(rows), run.session, seed)
    {
      LoadedFrom(rows, run.session);
      if seed.None? {
        assert run.artifacts[1 := run.artifacts[1]] == run.artifacts;
        return true;
      }
      var first := run.artifacts[1].(text := seed.value);
      ok := Persist(first);
      if ok {
        run.artifacts := run.artifacts[1 := first];
        assert [Stored(Row(run.session, 1, seed.value, first.provider))][1..] == [];
      }
    }

    // The stages a reprocessing runs, and its end.
    method FinishLater(run: PipelineRun, mode: Mode, from: int)
      requires run.status == RUNNING && run.errorStage == None && 1 in run.artifacts && polled == 0
      modifies this`polled, this`rows, this`trace, run
      ensures var o := Execute(LaterScript(env, mode, old(run.artifacts), from, PLAIN), polls, from);
              && trace == old(trace) + o.effects && rows == old(rows) + RowsOf(o.effects)
              && run.status == o.status && run.errorStage == o.errorStage
              && run.artifacts == Kept(old(run.artifacts), o.effects)
    {
      ConcludeKeeps(run.artifacts, Perform(LaterScript(env, mode, run.artifacts, from, PLAIN), polls, 0), from);
      Concluded(trace, Perform(LaterScript(env, mode, run.artifacts, from, PLAIN), polls, 0), from);
      var end := RunLater(run, mode, from, PLAIN);
      Finish(run, end, from);
    }
  }
}
