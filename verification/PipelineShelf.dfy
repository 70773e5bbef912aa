/** What a run holds is what the store has: at the end of every run and reprocessing, however it ends,
    each artifact of the run object is the latest row of its stage. */
module PipelineShelf {
  import opened Wrappers
  import opened PipelineSpec
  import opened PipelineProofs
  import opened PipelineResume
  import opened PipelineScripts

  function Shelf(a: Artifact): Row { Row(a.session, a.stage, a.text, a.provider) }

  predicate Shelved(arts: map<int, Artifact>, rows: seq<Row>, s: Id)
  {
    forall k :: k in arts ==> arts[k].session == s && Latest(rows, s, k) == Some(Shelf(arts[k]))
  }

  lemma LatestOf(rows: seq<Row>, row: Row, s: Id, k: int)
    ensures Latest(rows + [row], s, k) == if row.session == s && row.stage == k then Some(row) else Latest(rows, s, k)
  {
    assert (rows + [row])[..|rows|] == rows;
  }

  lemma ShelveOne(arts: map<int, Artifact>, rows: seq<Row>, a: Artifact, b: Artifact)
    requires Shelved(arts, rows, a.session) && Shelf(b) == Shelf(a)
    ensures Shelved(arts[a.stage := b], rows + [Shelf(a)], a.session)
  {
    forall k | k in arts[a.stage := b]
      ensures arts[a.stage := b][k].session == a.session
      ensures Latest(rows + [Shelf(a)], a.session, k) == Some(Shelf(arts[a.stage := b][k]))
    {
      LatestOf(rows, Shelf(a), a.session, k);
    }
  }

  lemma DeliverShelves(arts: map<int, Artifact>, rows: seq<Row>, env: Env, mode: Mode, a: Artifact, d: Delivery, polls: Polls, n: nat)
    requires Shelved(arts, rows, a.session)
    ensures var es := Perform(DeliverScript(env, mode, a, d), polls, n).effects;
            Shelved(Kept(arts, es), rows + RowsOf(es), a.session)
  {
    DeliverKeeps(arts, env, mode, a, d, polls, n);
    DeliverRows(env, mode, a, d, polls, n);
    assert rows + [] == rows;
    ShelveOne(arts, rows, a, a);
    ShelveOne(arts, rows, a, Injected(env, mode, a, d));
  }

  lemma StageShelves(arts: map<int, Artifact>, rows: seq<Row>, env: Env, mode: Mode, stage: int, source: Artifact, o: LlmResult,
                     d: Delivery, polls: Polls, n: nat)
    requires Shelved(arts, rows, source.session)
    ensures var es := Perform(StageScript(env, mode, stage, source, o, d), polls, n).effects;
            Shelved(Kept(arts, es), rows + RowsOf(es), source.session)
  {
    var rest := StageRest(env, mode, stage, source, o, d);
    PerformStage(stage, rest, polls, n);
    StageKeeps(arts, stage, rest, polls, n);
    assert rows + [] == rows;
    if o.Wrote? {
      DeliverShelves(arts, rows, env, mode, StageArtifact(stage, source, o.text, o.provider), d, polls, n + 1);
    } else {
      PerformFail(stage, polls, n + 1);
      FailKeeps(arts, stage);
    }
  }

  // One part of a script after another.
  lemma ThenShelves(arts: map<int, Artifact>, rows: seq<Row>, a: seq<Effect>, b: seq<Effect>, s: Id)
    requires Shelved(Kept(Kept(arts, a), b), (rows + RowsOf(a)) + RowsOf(b), s)
    ensures Shelved(Kept(arts, a + b), rows + RowsOf(a + b), s)
  {
    KeptConcat(arts, a, b);
    RowsConcat(a, b);
    Regroup(rows, RowsOf(a), RowsOf(b));
  }

  lemma LaterShelves(held: map<int, Artifact>, rows: seq<Row>, env: Env, mode: Mode, arts: map<int, Artifact>, from: int,
                     d: Delivery, polls: Polls, n: nat, s: Id)
    requires 1 in arts && arts[1].session == s && (2 in arts ==> arts[2].session == s)
    requires Shelved(held, rows, s)
    ensures var es := Perform(LaterScript(env, mode, arts, from, d), polls, n).effects;
            Shelved(Kept(held, es), rows + RowsOf(es), s)
  {
    assert rows + [] == rows;
    if from <= 2 && mode.target >= 2 {
      var o := env.correct(arts[1].text);
      var second := StageScript(env, mode, 2, arts[1], o, d);
      var b := if o.Wrote? then StageArtifact(2, arts[1], o.text, o.provider) else arts[1];
      var third := if o.Wrote? && mode.target >= 3 then StageScript(env, mode, 3, b, env.report(b.text), d) else [];
      assert LaterScript(env, mode, arts, from, d) == second + third;
      var p := Perform(second, polls, n);
      StageShelves(held, rows, env, mode, 2, arts[1], o, d, polls, n);
      PerformConcat(second, third, polls, n);
      assert p.effects + [] == p.effects;
      if p.end.Running? && third != [] {
        StageShelves(Kept(held, p.effects), rows + RowsOf(p.effects), env, mode, 3, b, env.report(b.text), d, polls, p.polled);
        ThenShelves(held, rows, p.effects, Perform(third, polls, p.polled).effects, s);
      }
    } else if from <= 3 && mode.target >= 3 {
      var source := if 2 in arts then arts[2] else arts[1];
      StageShelves(held, rows, env, mode, 3, source, env.report(source.text), d, polls, n);
    }
  }

  lemma ConcludeShelves(arts: map<int, Artifact>, rows: seq<Row>, p: Part, base: int, s: Id)
    requires Shelved(Kept(arts, p.effects), rows + RowsOf(p.effects), s)
    ensures var o := Conclude(p, base); Shelved(Kept(arts, o.effects), rows + RowsOf(o.effects), s)
  {
    ConcludeKeeps(arts, p, base);
    Concluded([], p, base);
  }

  lemma HeardShelves(rows: seq<Row>, env: Env, mode: Mode, session: Id, h: SttResult, d: Delivery, polls: Polls, n: nat)
    ensures var es := Perform(HeardScript(env, mode, session, h, d), polls, n).effects;
            Shelved(Kept(map[], es), rows + RowsOf(es), session)
  {
    if h.Heard? {
      var a := Artifact(session, 1, h.text, h.language, h.provider, None);
      var deliver, later := DeliverScript(env, mode, a, d), LaterScript(env, mode, map[1 := a], 2, d);
      var p := Perform(deliver, polls, n);
      DeliverShelves(map[], rows, env, mode, a, d, polls, n);
      PerformConcat(deliver, later, polls, n);
      if p.end.Running? {
        LaterShelves(Kept(map[], p.effects), rows + RowsOf(p.effects), env, mode, map[1 := a], 2, d, polls, p.polled, session);
        ThenShelves(map[], rows, p.effects, Perform(later, polls, p.polled).effects, session);
      }
    } else {
      PerformFail(1, polls, n);
    }
  }

  /** Whatever a run's stages, store, injector and polls answer: each artifact it holds when it ends is
      what the store has as the latest row of that stage, text and provider alike. */
  lemma RunHoldsWhatIsStored(env: Env, mode: Mode, input: Input, rows: seq<Row>, polls: Polls)
    ensures var es := Execute(RunScript(env, mode, input), polls, 1).effects;
            Shelved(Kept(map[], es), rows + RowsOf(es), input.session)
  {
    var items := RunScript(env, mode, input);
    var p := Perform(items, polls, 0);
    if input.batch && input.audio.Some? && mode.target >= 1 {
      assert input == Input(true, Some(input.audio.value), input.session, input.delivery);
      var h := env.stt(input.audio.value);
      var rest := HeardScript(env, mode, input.session, h, input.delivery);
      RunIsStage(env, mode, input.audio.value, input.session, input.delivery);
      PerformStage(1, rest, polls, 0);
      StageKeeps(map[], 1, rest, polls, 0);
      HeardShelves(rows, env, mode, input.session, h, input.delivery, polls, 1);
    } else {
      var k := if input.batch then 1 else 0;
      PerformFail(k, polls, 0);
      FailKeeps(map[], k);
    }
    ConcludeShelves(map[], rows, p, 1, input.session);
  }

  lemma {:induction false} LoadShelves(rows: seq<Row>, s: Id)
    ensures Shelved(Load(rows, s), rows, s)
  {
    forall k | k in Load(rows, s)
      ensures Load(rows, s)[k].session == s && Latest(rows, s, k) == Some(Shelf(Load(rows, s)[k]))
    {
      LoadedSession(rows, s, k);
    }
  }

  // The seed's row is stored before the stages start.
  lemma SeedShelves(rows: seq<Row>, s: Id, seed: Option<string>)
    requires 1 in Load(rows, s)
    ensures var prelude := if seed.Some? then [Shelf(Seeded(rows, s, seed)[1])] else [];
            Shelved(Seeded(rows, s, seed), rows + prelude, s)
  {
    LoadShelves(rows, s);
    LoadedFrom(rows, s);
    var arts := Load(rows, s);
    if seed.Some? {
      ShelveOne(arts, rows, arts[1].(text := seed.value), arts[1].(text := seed.value));
    } else {
      assert rows + [] == rows && arts[1 := arts[1]] == arts;
    }
  }

  /** The same for a reprocessing, with or without an edited text. */
  lemma ReprocessHoldsWhatIsStored(env: Env, mode: Mode, rows: seq<Row>, s: Id, from: int, seed: Option<string>, polls: Polls)
    ensures var es := Execute(ReprocessScript(env, mode, rows, s, from, seed), polls, from).effects;
            Shelved(Kept(Initial(rows, s, from, seed), es), rows + RowsOf(es), s)
  {
    var items := ReprocessScript(env, mode, rows, s, from, seed);
    var p, start := Perform(items, polls, 0), Initial(rows, s, from, seed);
    LoadShelves(rows, s);
    LoadedFrom(rows, s);
    assert rows + [] == rows;
    if from != 1 && 1 in Load(rows, s) {
      SeedShelves(rows, s, seed);
      var prelude := Prelude(rows, s, seed);
      var later := LaterScript(env, Raised(mode, from), start, from, PLAIN);
      SeededShelves(items, prelude, later, start, rows, env, Raised(mode, from), from, polls, s);
    } else {
      PerformFail(from, polls, 0);
      FailKeeps(start, from);
    }
    ConcludeShelves(start, rows, p, from, s);
  }

  lemma SeededShelves(items: seq<Item>, prelude: seq<Effect>, later: seq<Item>, start: map<int, Artifact>, rows: seq<Row>,
                      env: Env, mode: Mode, from: int, polls: Polls, s: Id)
    requires prelude == [] || (|prelude| == 1 && prelude[0].Stored?)
    requires items == (if prelude == [] then [] else [Do(prelude[0])]) + later
    requires 1 in start && start[1].session == s && (2 in start ==> start[2].session == s)
    requires later == LaterScript(env, mode, start, from, PLAIN)
    requires Shelved(start, rows + RowsOf(prelude), s)
    ensures var es := Perform(items, polls, 0).effects; Shelved(Kept(start, es), rows + RowsOf(es), s)
  {
    var q := Perform(later, polls, 0);
    LaterShelves(start, rows + RowsOf(prelude), env, mode, start, from, PLAIN, polls, 0, s);
    SeedKeeps(start, prelude, []);
    assert prelude + [] == prelude;
    ThenShelves(start, rows, prelude, q.effects, s);
    if prelude == [] {
      assert items == later && prelude + q.effects == q.effects;
    } else {
      PerformOne(Do(prelude[0]), later, polls, 0);
      assert prelude == [prelude[0]];
    }
  }
}
