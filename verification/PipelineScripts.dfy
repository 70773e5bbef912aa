/** What performing the scripts of a run leads to, in closed form. */
module PipelineScripts {
  import opened Wrappers
  import opened PipelineSpec
  import opened PipelineProofs
  import opened PipelineResume

  // ---------- scripts in closed form ----------

  lemma PerformOne(item: Item, rest: seq<Item>, polls: Polls, n: nat)
    ensures item.Do? ==>
              Perform([item] + rest, polls, n) == Perform(rest, polls, n).(effects := [item.effect] + Perform(rest, polls, n).effects)
    ensures item.Poll? ==>
              Perform([item] + rest, polls, n) ==
              if polls(n) then Part([PipelineFinished(CANCELED)], n + 1, Ended(CANCELED, item.stage)) else Perform(rest, polls, n + 1)
    ensures item.Fail? ==>
              Perform([item] + rest, polls, n) == Part([PipelineError(item.stage), PipelineFinished(ERROR)], n, Ended(ERROR, item.stage))
    ensures item.Throw? ==> Perform([item] + rest, polls, n) == Part([], n, Thrown(item.canceled))
  {
    assert ([item] + rest)[1..] == rest;
  }

  lemma PerformInject(env: Env, mode: Mode, a: Artifact, d: Delivery, polls: Polls, n: nat)
    ensures Perform(InjectScript(env, mode, a, d), polls, n) ==
            if mode.inject != a.stage then Part([], n, Running)
            else if env.blank(a.text) then Part([InjectRequested(a.(injected := Some(true)))], n, Running)
            else
              var r := env.inject(a.text, d);
              if r.InjectRaised? then Part([InjectorCalled(a.text, d)], n, Thrown(false))
              else Part([InjectorCalled(a.text, d), InjectRequested(a.(injected := Some(r.Typed?)))], n, Running)
    ensures RowsOf(Perform(InjectScript(env, mode, a, d), polls, n).effects) == []
  {
    if mode.inject == a.stage {
      if env.blank(a.text) {
        var done := InjectRequested(a.(injected := Some(true)));
        PerformOne(Do(done), [], polls, n);
        assert [Do(done)] + [] == [Do(done)] && [done] + [] == [done] && [done][1..] == [];
      } else {
        var r := env.inject(a.text, d);
        var call, done := InjectorCalled(a.text, d), InjectRequested(a.(injected := Some(r.Typed?)));
        var last := if r.InjectRaised? then Throw(false) else Do(done);
        assert InjectScript(env, mode, a, d) == [Do(call)] + [last];
        assert [last] + [] == [last] && [done] + [] == [done];
        PerformOne(last, [], polls, n);
        PerformOne(Do(call), [last], polls, n);
        RowsConcat([call], [done]);
        assert [call][1..] == [] && [done][1..] == [] && [call] + [done] == [call, done] && [call] + [] == [call];
      }
    }
  }

  // What a stored and announced artifact leaves in the trace.
  function Recorded(a: Artifact): seq<Effect>
  {
    [Stored(Row(a.session, a.stage, a.text, a.provider))] + [StageCompleted(a)]
  }

  lemma PerformDeliver(env: Env, mode: Mode, a: Artifact, d: Delivery, polls: Polls, n: nat)
    ensures var q := Perform(InjectScript(env, mode, a, d), polls, n + 1);
            Perform(DeliverScript(env, mode, a, d), polls, n) ==
            if env.storeFails(a.stage) then Part([], n, Thrown(false))
            else if polls(n) then
              Part(Recorded(a) + [PipelineFinished(CANCELED)], n + 1, Ended(CANCELED, a.stage))
            else Part(Recorded(a) + q.effects, n + 1, q.end)
  {
    PerformInject(env, mode, a, d, polls, n + 1);
    var row := Row(a.session, a.stage, a.text, a.provider);
    var inject := InjectScript(env, mode, a, d);
    var q := Perform(inject, polls, n + 1);
    if env.storeFails(a.stage) {
      assert [Throw(false)] + [] == [Throw(false)];
      PerformOne(Throw(false), [], polls, n);
    } else {
      var polled := [Poll(a.stage)] + inject;
      assert DeliverScript(env, mode, a, d) == [Do(Stored(row))] + ([Do(StageCompleted(a))] + polled);
      PerformOne(Poll(a.stage), inject, polls, n);
      PerformOne(Do(StageCompleted(a)), polled, polls, n);
      PerformOne(Do(Stored(row)), [Do(StageCompleted(a))] + polled, polls, n);
      var last := if polls(n) then [PipelineFinished(CANCELED)] else q.effects;
      Regroup([Stored(row)], [StageCompleted(a)], last);
    }
  }

  lemma DeliverRows(env: Env, mode: Mode, a: Artifact, d: Delivery, polls: Polls, n: nat)
    ensures RowsOf(Perform(DeliverScript(env, mode, a, d), polls, n).effects) ==
            if env.storeFails(a.stage) then [] else [Row(a.session, a.stage, a.text, a.provider)]
  {
    PerformDeliver(env, mode, a, d, polls, n);
    PerformInject(env, mode, a, d, polls, n + 1);
    RecordedRows(a, if polls(n) then [PipelineFinished(CANCELED)] else Perform(InjectScript(env, mode, a, d), polls, n + 1).effects);
    assert [PipelineFinished(CANCELED)][1..] == [];
  }

  lemma RecordedRows(a: Artifact, last: seq<Effect>)
    ensures RowsOf(Recorded(a) + last) == [Row(a.session, a.stage, a.text, a.provider)] + RowsOf(last)
  {
    var row := Row(a.session, a.stage, a.text, a.provider);
    RowsConcat(Recorded(a), last);
    RowsConcat([Stored(row)], [StageCompleted(a)]);
    assert [Stored(row)][1..] == [] && [StageCompleted(a)][1..] == [];
  }

  // The three ways a delivery can go.
  lemma DeliverRefused(env: Env, mode: Mode, a: Artifact, d: Delivery, polls: Polls, n: nat)
    requires env.storeFails(a.stage)
    ensures Perform(DeliverScript(env, mode, a, d), polls, n) == Part([], n, Thrown(false))
  {
    PerformDeliver(env, mode, a, d, polls, n);
  }

  lemma DeliverCanceled(env: Env, mode: Mode, a: Artifact, d: Delivery, polls: Polls, n: nat)
    requires !env.storeFails(a.stage) && polls(n)
    ensures Perform(DeliverScript(env, mode, a, d), polls, n)
            == Part(Recorded(a) + [PipelineFinished(CANCELED)], n + 1, Ended(CANCELED, a.stage))
    ensures RowsOf(Recorded(a) + [PipelineFinished(CANCELED)]) == [Row(a.session, a.stage, a.text, a.provider)]
  {
    PerformDeliver(env, mode, a, d, polls, n);
    DeliverRows(env, mode, a, d, polls, n);
  }

  lemma DeliverInjects(env: Env, mode: Mode, a: Artifact, d: Delivery, polls: Polls, n: nat)
    requires !env.storeFails(a.stage) && !polls(n)
    ensures var q := Perform(InjectScript(env, mode, a, d), polls, n + 1);
            && Perform(DeliverScript(env, mode, a, d), polls, n) == Part(Recorded(a) + q.effects, n + 1, q.end)
            && RowsOf(Recorded(a) + q.effects) == [Row(a.session, a.stage, a.text, a.provider)]
            && !q.end.Ended?
  {
    PerformDeliver(env, mode, a, d, polls, n);
    DeliverRows(env, mode, a, d, polls, n);
    PerformInject(env, mode, a, d, polls, n + 1);
  }

  // The two ways a stage can start.
  lemma StageCanceled(k: int, rest: seq<Item>, polls: Polls, n: nat)
    requires polls(n)
    ensures Perform([Do(StageStarted(k)), Poll(k)] + rest, polls, n)
            == Part([StageStarted(k)] + [PipelineFinished(CANCELED)], n + 1, Ended(CANCELED, k))
    ensures RowsOf([StageStarted(k)] + [PipelineFinished(CANCELED)]) == []
  {
    PerformStage(k, rest, polls, n);
  }

  lemma StageGoesOn(k: int, rest: seq<Item>, polls: Polls, n: nat)
    requires !polls(n)
    ensures var q := Perform(rest, polls, n + 1);
            && Perform([Do(StageStarted(k)), Poll(k)] + rest, polls, n) == Part([StageStarted(k)] + q.effects, q.polled, q.end)
            && RowsOf([StageStarted(k)] + q.effects) == RowsOf(q.effects)
  {
    PerformStage(k, rest, polls, n);
  }

  // A stage that starts, is polled, and goes on with `rest`.
  lemma PerformStage(k: int, rest: seq<Item>, polls: Polls, n: nat)
    ensures var q := Perform(rest, polls, n + 1);
            Perform([Do(StageStarted(k)), Poll(k)] + rest, polls, n) ==
            if polls(n) then Part([StageStarted(k)] + [PipelineFinished(CANCELED)], n + 1, Ended(CANCELED, k))
            else Part([StageStarted(k)] + q.effects, q.polled, q.end)
    ensures RowsOf(Perform([Do(StageStarted(k)), Poll(k)] + rest, polls, n).effects) ==
            if polls(n) then [] else RowsOf(Perform(rest, polls, n + 1).effects)
  {
    assert [Do(StageStarted(k)), Poll(k)] + rest == [Do(StageStarted(k))] + ([Poll(k)] + rest);
    PerformOne(Poll(k), rest, polls, n);
    PerformOne(Do(StageStarted(k)), [Poll(k)] + rest, polls, n);
    RowsConcat([StageStarted(k)], if polls(n) then [PipelineFinished(CANCELED)] else Perform(rest, polls, n + 1).effects);
    assert [StageStarted(k)][1..] == [] && [PipelineFinished(CANCELED)][1..] == [];
  }

  lemma PerformFail(k: int, polls: Polls, n: nat)
    ensures Perform([Fail(k)], polls, n) == Part([PipelineError(k), PipelineFinished(ERROR)], n, Ended(ERROR, k))
    ensures RowsOf([PipelineError(k), PipelineFinished(ERROR)]) == []
    ensures forall c :: Perform([Throw(c)], polls, n) == Part([], n, Thrown(c))
  {
    assert [PipelineError(k), PipelineFinished(ERROR)][1..] == [PipelineFinished(ERROR)];
    assert [PipelineFinished(ERROR)][1..] == [];
  }

  function Result(env: Env, stage: int, text: string): LlmResult
  {
    if stage == 2 then env.correct(text) else env.report(text)
  }

  // Whether a source has been injected makes no difference to what is done with its text.
  lemma LaterSame(env: Env, mode: Mode, arts: map<int, Artifact>, brts: map<int, Artifact>, d: Delivery)
    requires 1 in arts && 1 in brts && brts[1] == arts[1].(injected := brts[1].injected)
    requires 2 !in arts && 2 !in brts
    ensures LaterScript(env, mode, arts, 2, d) == LaterScript(env, mode, brts, 2, d)
  {
  }

  lemma LoadedFrom(rows: seq<Row>, s: Id)
    ensures 1 in Load(rows, s) ==> Load(rows, s)[1].session == s && Load(rows, s)[1].stage == 1
  {
    LoadedSession(rows, s, 1);
    LatestStage(rows, s, 1);
  }

  lemma {:induction false} LatestStage(rows: seq<Row>, s: Id, stage: int)
    ensures Latest(rows, s, stage).Some? ==> Latest(rows, s, stage).value.stage == stage
  {
    if rows != [] {
      LatestStage(rows[..|rows| - 1], s, stage);
    }
  }

  // What follows the first poll of a run, by what was heard.
  function HeardScript(env: Env, mode: Mode, session: Id, h: SttResult, d: Delivery): seq<Item>
  {
    match h
    case SttCanceled => [Throw(true)]
    case SttFailed => [Throw(false)]
    case Heard(text, language, provider) =>
      var a := Artifact(session, 1, text, language, provider, None);
      DeliverScript(env, mode, a, d) + LaterScript(env, mode, map[1 := a], 2, d)
  }

  lemma RunIsStage(env: Env, mode: Mode, audio: Audio, session: Id, d: Delivery)
    requires mode.target >= 1
    ensures RunScript(env, mode, Input(true, Some(audio), session, d)) ==
            [Do(StageStarted(1)), Poll(1)] + HeardScript(env, mode, session, env.stt(audio), d)
  {
  }

  // What the end of a call adds to the trace.
  function Closing(end: End, base: int): seq<Effect>
  {
    match end
    case Running => [PipelineFinished(FINISHED)]
    case Ended(_, _) => []
    case Thrown(canceled) =>
      if canceled then [PipelineFinished(CANCELED)] else [PipelineError(base), PipelineFinished(ERROR)]
  }

  lemma ConcludeCloses(p: Part, base: int)
    ensures Conclude(p, base).effects == p.effects + Closing(p.end, base)
  {
  }

  lemma ConcludeAfter(prelude: seq<Effect>, p: Part, base: int)
    ensures Conclude(p.(effects := prelude + p.effects), base)
            == Conclude(p, base).(effects := prelude + Conclude(p, base).effects)
  {
    var q := p.(effects := prelude + p.effects);
    ConcludeCloses(p, base);
    ConcludeCloses(q, base);
    Regroup(prelude, p.effects, Closing(p.end, base));
  }

  // The seed's own row comes before everything else.
  lemma SeededScript(items: seq<Item>, prelude: seq<Effect>, later: seq<Item>, polls: Polls, base: int)
    requires |prelude| <= 1
    requires items == (if prelude == [] then [] else [Do(prelude[0])]) + later
    ensures var q := Execute(later, polls, base);
            && Execute(items, polls, base) == q.(effects := prelude + q.effects)
            && RowsOf(prelude + q.effects) == RowsOf(prelude) + RowsOf(q.effects)
  {
    var p := Perform(later, polls, 0);
    assert Perform(items, polls, 0) == p.(effects := prelude + p.effects) by {
      if prelude == [] {
        assert items == later && [] + p.effects == p.effects;
      } else {
        PerformOne(Do(prelude[0]), later, polls, 0);
        assert prelude == [prelude[0]];
      }
    }
    ConcludeAfter(prelude, p, base);
    RowsConcat(prelude, Execute(later, polls, base).effects);
  }

  // The last event only adds to the trace, never to the rows.
  lemma Concluded(trace0: seq<Effect>, p: Part, base: int)
    ensures var o := Conclude(p, base);
            var tail := if p.end.Ended? then [] else Conclude(Part([], 0, p.end), base).effects;
            && (trace0 + p.effects) + tail == trace0 + o.effects && RowsOf(o.effects) == RowsOf(p.effects)
            && o.status == Conclude(Part([], 0, p.end), base).status
            && o.errorStage == Conclude(Part([], 0, p.end), base).errorStage
  {
    var tail := if p.end.Ended? then [] else Conclude(Part([], 0, p.end), base).effects;
    Regroup(trace0, p.effects, tail);
    RowsConcat(p.effects, tail);
    PerformFail(base, NEVER, 0);
    assert [PipelineFinished(FINISHED)][1..] == [] && [PipelineFinished(CANCELED)][1..] == [];
    assert p.effects + [] == p.effects;
    match p.end
    case Running => assert tail == [PipelineFinished(FINISHED)];
    case Ended(_, _) =>
    case Thrown(c) => assert tail == if c then [PipelineFinished(CANCELED)] else [PipelineError(base), PipelineFinished(ERROR)];
  }

  // ---------- what a run keeps ----------

  // What becomes of an artifact at the mode's injection stage; when the injector raises, nothing.
  function Injected(env: Env, mode: Mode, a: Artifact, d: Delivery): (b: Artifact)
    ensures b == a.(injected := b.injected)
  {
    if mode.inject != a.stage then a
    else if env.blank(a.text) then a.(injected := Some(true))
    else
      match env.inject(a.text, d)
      case Typed => a.(injected := Some(true))
      case NotTyped => a.(injected := Some(false))
      case InjectRaised => a
  }

  function Keep(arts: map<int, Artifact>, e: Effect): map<int, Artifact>
  {
    match e
    case StageCompleted(a) => arts[a.stage := a]
    case InjectRequested(a) => arts[a.stage := a]
    case _ => arts
  }

  // The artifacts a run holds, as its listeners heard of them: the last one announced for each stage.
  function Kept(arts: map<int, Artifact>, es: seq<Effect>): map<int, Artifact>
    decreases |es|
  {
    if es == [] then arts else Kept(Keep(arts, es[0]), es[1..])
  }

  lemma {:induction false} KeptConcat(arts: map<int, Artifact>, a: seq<Effect>, b: seq<Effect>)
    ensures Kept(arts, a + b) == Kept(Kept(arts, a), b)
    decreases |a|
  {
    if a == [] {
      assert a + b == b;
    } else {
      assert (a + b)[1..] == a[1..] + b;
      KeptConcat(Keep(arts, a[0]), a[1..], b);
    }
  }

  lemma KeptOne(arts: map<int, Artifact>, e: Effect)
    ensures Kept(arts, [e]) == Keep(arts, e)
  {
    assert [e][1..] == [];
  }

  lemma KeptTwo(arts: map<int, Artifact>, e: Effect, f: Effect)
    ensures Kept(arts, [e, f]) == Keep(Keep(arts, e), f)
  {
    assert [e, f] == [e] + [f];
    KeptConcat(arts, [e], [f]);
    KeptOne(arts, e);
    KeptOne(Keep(arts, e), f);
  }

  lemma InjectKeeps(arts: map<int, Artifact>, env: Env, mode: Mode, a: Artifact, d: Delivery, polls: Polls, n: nat)
    requires a.stage in arts && arts[a.stage] == a
    ensures Kept(arts, Perform(InjectScript(env, mode, a, d), polls, n).effects) == arts[a.stage := Injected(env, mode, a, d)]
  {
    PerformInject(env, mode, a, d, polls, n);
    var call, done := InjectorCalled(a.text, d), InjectRequested(Injected(env, mode, a, d));
    KeptOne(arts, call);
    KeptOne(arts, done);
    KeptTwo(arts, call, done);
    assert arts[a.stage := a] == arts;
  }

  lemma RecordedKeeps(arts: map<int, Artifact>, a: Artifact, last: seq<Effect>)
    ensures Kept(arts, Recorded(a) + last) == Kept(arts[a.stage := a], last)
  {
    KeptTwo(arts, Stored(Row(a.session, a.stage, a.text, a.provider)), StageCompleted(a));
    assert Recorded(a) == [Stored(Row(a.session, a.stage, a.text, a.provider)), StageCompleted(a)];
    KeptConcat(arts, Recorded(a), last);
  }

  // What a delivery leaves with the run: nothing, the text alone, or the text with what became of it.
  lemma DeliverKeeps(arts: map<int, Artifact>, env: Env, mode: Mode, a: Artifact, d: Delivery, polls: Polls, n: nat)
    ensures Kept(arts, Perform(DeliverScript(env, mode, a, d), polls, n).effects) ==
            if env.storeFails(a.stage) then arts
            else if polls(n) then arts[a.stage := a]
            else arts[a.stage := Injected(env, mode, a, d)]
  {
    PerformDeliver(env, mode, a, d, polls, n);
    var told := arts[a.stage := a];
    if polls(n) {
      RecordedKeeps(arts, a, [PipelineFinished(CANCELED)]);
      KeptOne(told, PipelineFinished(CANCELED));
    } else {
      RecordedKeeps(arts, a, Perform(InjectScript(env, mode, a, d), polls, n + 1).effects);
      InjectKeeps(told, env, mode, a, d, polls, n + 1);
      assert told[a.stage := Injected(env, mode, a, d)] == arts[a.stage := Injected(env, mode, a, d)];
    }
  }

  lemma StageKeeps(arts: map<int, Artifact>, k: int, rest: seq<Item>, polls: Polls, n: nat)
    ensures Kept(arts, Perform([Do(StageStarted(k)), Poll(k)] + rest, polls, n).effects) ==
            if polls(n) then arts else Kept(arts, Perform(rest, polls, n + 1).effects)
  {
    PerformStage(k, rest, polls, n);
    KeptOne(arts, StageStarted(k));
    KeptOne(arts, PipelineFinished(CANCELED));
    KeptConcat(arts, [StageStarted(k)], if polls(n) then [PipelineFinished(CANCELED)] else Perform(rest, polls, n + 1).effects);
  }

  // The end of a call changes nothing the run holds.
  lemma ConcludeKeeps(arts: map<int, Artifact>, p: Part, base: int)
    ensures Kept(arts, Conclude(p, base).effects) == Kept(arts, p.effects)
  {
    ConcludeCloses(p, base);
    KeptConcat(arts, p.effects, Closing(p.end, base));
    FailKeeps(Kept(arts, p.effects), base);
    KeptOne(Kept(arts, p.effects), PipelineFinished(FINISHED));
    KeptOne(Kept(arts, p.effects), PipelineFinished(CANCELED));
  }

  lemma FailKeeps(arts: map<int, Artifact>, k: int)
    ensures Kept(arts, [PipelineError(k), PipelineFinished(ERROR)]) == arts
  {
    KeptTwo(arts, PipelineError(k), PipelineFinished(ERROR));
  }

  // The artifacts a reprocessing works with.
  function Seeded(rows: seq<Row>, s: Id, seed: Option<string>): map<int, Artifact>
    requires 1 in Load(rows, s)
  {
    var arts := Load(rows, s);
    arts[1 := if seed.Some? then arts[1].(text := seed.value) else arts[1]]
  }

  // The seed's own row is no news to the run.
  lemma SeedKeeps(arts: map<int, Artifact>, prelude: seq<Effect>, later: seq<Effect>)
    requires prelude == [] || (|prelude| == 1 && prelude[0].Stored?)
    ensures Kept(arts, prelude + later) == Kept(arts, later)
  {
    if prelude == [] {
      assert prelude + later == later;
    } else {
      assert prelude == [prelude[0]];
      KeptOne(arts, prelude[0]);
      KeptConcat(arts, prelude, later);
    }
  }

  // What storing an edited text adds to the trace.
  function Prelude(rows: seq<Row>, s: Id, seed: Option<string>): seq<Effect>
    requires 1 in Load(rows, s)
  {
    if seed.Some? then [Stored(Row(s, 1, seed.value, Load(rows, s)[1].provider))] else []
  }

  // A reprocessing by its seed and its stages.
  lemma ReprocessIs(env: Env, mode: Mode, rows: seq<Row>, s: Id, from: int, seed: Option<string>, polls: Polls)
    requires from != 1 && 1 in Load(rows, s)
    ensures var prelude, arts := Prelude(rows, s, seed), Seeded(rows, s, seed);
            var o := Execute(ReprocessScript(env, mode, rows, s, from, seed), polls, from);
            var q := Execute(LaterScript(env, Raised(mode, from), arts, from, PLAIN), polls, from);
            && o == q.(effects := prelude + q.effects)
            && RowsOf(o.effects) == RowsOf(prelude) + RowsOf(q.effects)
            && Kept(arts, o.effects) == Kept(arts, q.effects)
  {
    var prelude, arts := Prelude(rows, s, seed), Seeded(rows, s, seed);
    var later := LaterScript(env, Raised(mode, from), arts, from, PLAIN);
    SeededScript(ReprocessScript(env, mode, rows, s, from, seed), prelude, later, polls, from);
    SeedKeeps(arts, prelude, Execute(later, polls, from).effects);
  }

  // What the run of a reprocessing holds before any stage starts.
  function Initial(rows: seq<Row>, s: Id, from: int, seed: Option<string>): map<int, Artifact>
  {
    if from != 1 && 1 in Load(rows, s) then Seeded(rows, s, seed) else Load(rows, s)
  }
}
