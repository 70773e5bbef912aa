/** What runs and reprocessing lose, and exactly when: the stage an error is reported at, an edited text,
    and the language of the speech. */
module PipelineLimits {
  import opened Wrappers
  import opened PipelineSpec
  import opened PipelineProofs
  import opened PipelineResume
  import opened PipelineScripts

  // ---------- the stage an error is reported at ----------

  function LastStarted(es: seq<Effect>): Option<int>
  {
    if es == [] then None
    else if es[|es| - 1].StageStarted? then Some(es[|es| - 1].stage)
    else LastStarted(es[..|es| - 1])
  }

  lemma {:induction false} LastStartedConcat(a: seq<Effect>, b: seq<Effect>)
    ensures LastStarted(a + b) == if LastStarted(b).Some? then LastStarted(b) else LastStarted(a)
  {
    if b == [] {
      assert a + b == a;
    } else {
      assert (a + b)[..|a + b| - 1] == a + b[..|b| - 1];
      LastStartedConcat(a, b[..|b| - 1]);
    }
  }

  predicate NoStart(es: seq<Effect>) { forall e :: e in es ==> !e.StageStarted? }

  lemma {:induction false} NothingStarted(es: seq<Effect>)
    requires NoStart(es)
    ensures LastStarted(es) == None
  {
    if es != [] {
      NothingStarted(es[..|es| - 1]);
    }
  }

  // The store refuses the text, or it is typed at this stage and the injector raises.
  predicate Raises(env: Env, mode: Mode, a: Artifact, d: Delivery)
  {
    || env.storeFails(a.stage)
    || (mode.inject == a.stage && !env.blank(a.text) && env.inject(a.text, d).InjectRaised?)
  }

  lemma DeliverEnds(env: Env, mode: Mode, a: Artifact, d: Delivery, polls: Polls, n: nat)
    ensures var p := Perform(DeliverScript(env, mode, a, d), polls, n);
            && NoStart(p.effects)
            && (p.end.Ended? ==> p.end == Ended(CANCELED, a.stage))
            && (p.end.Thrown? ==> !p.end.canceled && Raises(env, mode, a, d))
  {
    PerformDeliver(env, mode, a, d, polls, n);
    PerformInject(env, mode, a, d, polls, n + 1);
  }

  // One stage on its own: it is the last started; only its language model ends it in error; and only the
  // store and the injector raise.
  lemma StageEnds(env: Env, mode: Mode, stage: int, source: Artifact, o: LlmResult, d: Delivery, polls: Polls, n: nat)
    ensures var p := Perform(StageScript(env, mode, stage, source, o, d), polls, n);
            && LastStarted(p.effects) == Some(stage)
            && (p.end.Ended? ==> p.end.stage == stage && (p.end.status == ERROR ==> o.LlmFailed?))
            && (p.end.Thrown? ==>
                  !p.end.canceled && o.Wrote? && Raises(env, mode, StageArtifact(stage, source, o.text, o.provider), d))
  {
    var rest := StageRest(env, mode, stage, source, o, d);
    var tail := if polls(n) then [PipelineFinished(CANCELED)] else Perform(rest, polls, n + 1).effects;
    PerformStage(stage, rest, polls, n);
    PerformFail(stage, polls, n + 1);
    if o.Wrote? {
      DeliverEnds(env, mode, StageArtifact(stage, source, o.text, o.provider), d, polls, n + 1);
    }
    NothingStarted(tail);
    LastStartedConcat([StageStarted(stage)], tail);
  }

  // What stage 3 works on, and what stages 2 and 3 make of their texts, starting from a stage.
  function LaterSource(env: Env, arts: map<int, Artifact>, from: int): Artifact
    requires 1 in arts
  {
    var o := env.correct(arts[1].text);
    if from <= 2 && o.Wrote? then StageArtifact(2, arts[1], o.text, o.provider)
    else if from > 2 && 2 in arts then arts[2]
    else arts[1]
  }

  function LaterResult(env: Env, arts: map<int, Artifact>, from: int, stage: int): LlmResult
    requires 1 in arts
  {
    if stage == 2 then env.correct(arts[1].text) else env.report(LaterSource(env, arts, from).text)
  }

  predicate LaterRaises(env: Env, mode: Mode, arts: map<int, Artifact>, from: int, d: Delivery, stage: int)
    requires 1 in arts
  {
    var o := LaterResult(env, arts, from, stage);
    var source := if stage == 2 then arts[1] else LaterSource(env, arts, from);
    o.Wrote? && Raises(env, mode, StageArtifact(stage, source, o.text, o.provider), d)
  }

  predicate LaterEndsSo(env: Env, mode: Mode, arts: map<int, Artifact>, from: int, d: Delivery, k: Option<int>, end: End)
    requires 1 in arts
  {
    && (!end.Running? ==> k.Some? && 2 <= k.value <= 3 && k.value >= from)
    && (end.Ended? ==> k == Some(end.stage) && (end.status == ERROR ==> LaterResult(env, arts, from, end.stage).LlmFailed?))
    && (end.Thrown? ==> !end.canceled && LaterRaises(env, mode, arts, from, d, k.value))
  }

  lemma LaterEnds(env: Env, mode: Mode, arts: map<int, Artifact>, from: int, d: Delivery, polls: Polls, n: nat)
    requires 1 in arts
    ensures var p := Perform(LaterScript(env, mode, arts, from, d), polls, n);
            LaterEndsSo(env, mode, arts, from, d, LastStarted(p.effects), p.end)
  {
    var source := LaterSource(env, arts, from);
    var q := env.report(source.text);
    if from <= 2 && mode.target >= 2 {
      var o := env.correct(arts[1].text);
      var second := StageScript(env, mode, 2, arts[1], o, d);
      var third := if o.Wrote? && mode.target >= 3 then StageScript(env, mode, 3, source, q, d) else [];
      var p := Perform(second, polls, n);
      StageEnds(env, mode, 2, arts[1], o, d, polls, n);
      PerformConcat(second, third, polls, n);
      if p.end.Running? && o.Wrote? && mode.target >= 3 {
        StageEnds(env, mode, 3, source, q, d, polls, p.polled);
        LastStartedConcat(p.effects, Perform(third, polls, p.polled).effects);
      }
    } else if from <= 3 && mode.target >= 3 {
      StageEnds(env, mode, 3, source, q, d, polls, n);
    }
  }

  // How an error is reported that ended a script with base `base`, if its last part ended as it did.
  lemma {:induction false} ConcludedStage(p: Part, base: int)
    requires p.end.Ended? ==> p.effects != []
    ensures var o := Conclude(p, base);
            && LastStarted(o.effects) == LastStarted(p.effects)
            && (o.status == ERROR ==> o.errorStage == Some(if p.end.Ended? then p.end.stage else base))
  {
    ConcludeCloses(p, base);
    NothingStarted(Closing(p.end, base));
    LastStartedConcat(p.effects, Closing(p.end, base));
  }

  lemma StartedThen(k: int, rest: seq<Item>, polls: Polls, n: nat)
    ensures var p := Perform([Do(StageStarted(k)), Poll(k)] + rest, polls, n);
            var q := Perform(rest, polls, n + 1);
            if polls(n) then LastStarted(p.effects) == Some(k) && p.end == Ended(CANCELED, k)
            else p.end == q.end && LastStarted(p.effects) == if LastStarted(q.effects).Some? then LastStarted(q.effects) else Some(k)
  {
    PerformStage(k, rest, polls, n);
    NothingStarted([PipelineFinished(CANCELED)]);
    LastStartedConcat([StageStarted(k)], if polls(n) then [PipelineFinished(CANCELED)] else Perform(rest, polls, n + 1).effects);
  }

  // What follows the start of stage 1: either no later stage is reached, or it ends as those do.
  lemma HeardEnds(env: Env, mode: Mode, session: Id, h: SttResult, d: Delivery, polls: Polls, n: nat)
    ensures var q := Perform(HeardScript(env, mode, session, h, d), polls, n);
            if LastStarted(q.effects).None? then q.end.Ended? ==> q.end.stage == 1 && q.end.status == CANCELED
            else h.Heard? && LaterEndsSo(env, mode, FirstOf(session, h), 2, d, LastStarted(q.effects), q.end)
  {
    if h.Heard? {
      var arts := FirstOf(session, h);
      var deliver, later := DeliverScript(env, mode, arts[1], d), LaterScript(env, mode, arts, 2, d);
      var p := Perform(deliver, polls, n);
      DeliverEnds(env, mode, arts[1], d, polls, n);
      NothingStarted(p.effects);
      PerformConcat(deliver, later, polls, n);
      LaterEnds(env, mode, arts, 2, d, polls, p.polled);
      LastStartedConcat(p.effects, Perform(later, polls, p.polled).effects);
    } else {
      PerformFail(1, polls, n);
    }
  }

  // The stage 1 text as the later stages of a run find it.
  function FirstOf(session: Id, h: SttResult): map<int, Artifact>
    requires h.Heard?
  {
    map[1 := Artifact(session, 1, h.text, h.language, h.provider, None)]
  }

  // What is known of a call that ended in error after it started stage k.
  predicate ReportsSo(o: Outcome, base: int, k: int, env: Env, mode: Mode, arts: map<int, Artifact>, from: int, d: Delivery)
    requires 1 in arts
  {
    && (o.errorStage == Some(k) <==> k == base || LaterResult(env, arts, from, k).LlmFailed?)
    && (o.errorStage != Some(k) <==> k != base && LaterRaises(env, mode, arts, from, d, k))
    && (o.errorStage != Some(k) ==> o.errorStage == Some(base))
  }

  lemma LaterReports(p: Part, base: int, env: Env, mode: Mode, arts: map<int, Artifact>, from: int, d: Delivery)
    requires 1 in arts && LaterEndsSo(env, mode, arts, from, d, LastStarted(p.effects), p.end) && (p.end.Ended? ==> p.effects != [])
    requires Conclude(p, base).status == ERROR
    ensures LastStarted(p.effects).Some?
    ensures ReportsSo(Conclude(p, base), base, LastStarted(p.effects).value, env, mode, arts, from, d)
  {
    ConcludedStage(p, base);
  }

  /** Where a run reports an error, whatever fails and whenever it is polled.  One in stage 1 is reported
      there.  One in a later stage is reported at that stage exactly if its language model failed; if the
      store or the injector raised instead, and only then, it is reported at stage 1. */
  lemma RunReportsErrors(env: Env, mode: Mode, input: Input, polls: Polls)
    ensures var o := Execute(RunScript(env, mode, input), polls, 1);
            var k := LastStarted(o.effects);
            o.status == ERROR && k.Some? ==>
              && o.errorStage.Some?
              && (k == Some(1) ==> o.errorStage == Some(1))
              && (k != Some(1) ==>
                    && input.audio.Some? && env.stt(input.audio.value).Heard?
                    && ReportsSo(o, 1, k.value, env, mode, FirstOf(input.session, env.stt(input.audio.value)), 2, input.delivery))
  {
    if input.batch && input.audio.Some? && mode.target >= 1 {
      assert input == Input(true, Some(input.audio.value), input.session, input.delivery);
      RunIsStage(env, mode, input.audio.value, input.session, input.delivery);
      StartedReports(env, mode, input.session, env.stt(input.audio.value), input.delivery, polls);
    } else {
      NothingIsStarted(env, mode, input, polls);
    }
  }

  predicate RunReportsSo(o: Outcome, env: Env, mode: Mode, session: Id, h: SttResult, d: Delivery)
  {
    var k := LastStarted(o.effects);
    && k.Some?
    && (o.status == ERROR ==>
          && o.errorStage.Some?
          && (k == Some(1) ==> o.errorStage == Some(1))
          && (k != Some(1) ==> h.Heard? && ReportsSo(o, 1, k.value, env, mode, FirstOf(session, h), 2, d)))
  }

  lemma StageOneReports(p: Part, env: Env, mode: Mode, session: Id, h: SttResult, d: Delivery)
    requires p.effects != [] && LastStarted(p.effects) == Some(1)
    requires p.end.Ended? ==> p.end.stage == 1 && p.end.status == CANCELED
    ensures RunReportsSo(Conclude(p, 1), env, mode, session, h, d)
  {
    ConcludedStage(p, 1);
  }

  lemma LaterStageReports(p: Part, env: Env, mode: Mode, session: Id, h: SttResult, d: Delivery)
    requires p.effects != [] && LastStarted(p.effects).Some? && h.Heard?
    requires LaterEndsSo(env, mode, FirstOf(session, h), 2, d, LastStarted(p.effects), p.end)
    ensures RunReportsSo(Conclude(p, 1), env, mode, session, h, d)
  {
    ConcludedStage(p, 1);
    if Conclude(p, 1).status == ERROR {
      LaterReports(p, 1, env, mode, FirstOf(session, h), 2, d);
    }
  }

  // The run `p` goes on with `q` once stage 1 has started.
  lemma GoingOnReports(p: Part, q: Part, env: Env, mode: Mode, session: Id, h: SttResult, d: Delivery)
    requires p.effects != [] && p.end == q.end
    requires LastStarted(p.effects) == if LastStarted(q.effects).Some? then LastStarted(q.effects) else Some(1)
    requires if LastStarted(q.effects).None? then q.end.Ended? ==> q.end.stage == 1 && q.end.status == CANCELED
             else h.Heard? && LaterEndsSo(env, mode, FirstOf(session, h), 2, d, LastStarted(q.effects), q.end)
    ensures RunReportsSo(Conclude(p, 1), env, mode, session, h, d)
  {
    if LastStarted(q.effects).None? {
      StageOneReports(p, env, mode, session, h, d);
    } else {
      LaterStageReports(p, env, mode, session, h, d);
    }
  }

  // Stage 1 starts, and `rest` is what follows.
  lemma StartedRestReports(rest: seq<Item>, polls: Polls, env: Env, mode: Mode, session: Id, h: SttResult, d: Delivery)
    requires var q := Perform(rest, polls, 1);
             if LastStarted(q.effects).None? then q.end.Ended? ==> q.end.stage == 1 && q.end.status == CANCELED
             else h.Heard? && LaterEndsSo(env, mode, FirstOf(session, h), 2, d, LastStarted(q.effects), q.end)
    ensures RunReportsSo(Execute([Do(StageStarted(1)), Poll(1)] + rest, polls, 1), env, mode, session, h, d)
  {
    var p := Perform([Do(StageStarted(1)), Poll(1)] + rest, polls, 0);
    StartedThen(1, rest, polls, 0);
    StartedIsSomething(1, rest, polls, 0);
    if polls(0) {
      StageOneReports(p, env, mode, session, h, d);
    } else {
      GoingOnReports(p, Perform(rest, polls, 1), env, mode, session, h, d);
    }
  }

  lemma StartedReports(env: Env, mode: Mode, session: Id, h: SttResult, d: Delivery, polls: Polls)
    ensures RunReportsSo(Execute([Do(StageStarted(1)), Poll(1)] + HeardScript(env, mode, session, h, d), polls, 1),
                         env, mode, session, h, d)
  {
    HeardEnds(env, mode, session, h, d, polls, 1);
    StartedRestReports(HeardScript(env, mode, session, h, d), polls, env, mode, session, h, d);
  }

  lemma StartedIsSomething(k: int, rest: seq<Item>, polls: Polls, n: nat)
    ensures Perform([Do(StageStarted(k)), Poll(k)] + rest, polls, n).effects != []
  {
    PerformStage(k, rest, polls, n);
  }

  lemma NothingIsStarted(env: Env, mode: Mode, input: Input, polls: Polls)
    requires !(input.batch && input.audio.Some? && mode.target >= 1)
    ensures LastStarted(Execute(RunScript(env, mode, input), polls, 1).effects) == None
  {
    var k := if input.batch then 1 else 0;
    PerformFail(k, polls, 0);
    NothingStarted([PipelineError(k), PipelineFinished(ERROR)]);
  }

  /** Where a reprocessing reports one: the same, with the stage it starts from in the place of stage 1. */
  lemma ReprocessReportsErrors(env: Env, mode: Mode, rows: seq<Row>, s: Id, from: int, seed: Option<string>, polls: Polls)
    requires from == 2 || from == 3
    ensures var o := Execute(ReprocessScript(env, mode, rows, s, from, seed), polls, from);
            var k := LastStarted(o.effects);
            o.status == ERROR && k.Some? ==>
              && 1 in Load(rows, s)
              && ReportsSo(o, from, k.value, env, Raised(mode, from), Seeded(rows, s, seed), from, PLAIN)
  {
    var items := ReprocessScript(env, mode, rows, s, from, seed);
    var p := Perform(items, polls, 0);
    if 1 in Load(rows, s) {
      var arts, active := Seeded(rows, s, seed), Raised(mode, from);
      var later := LaterScript(env, active, arts, from, PLAIN);
      var q := Perform(later, polls, 0);
      LaterEnds(env, active, arts, from, PLAIN, polls, 0);
      SeedStartsNothing(items, Prelude(rows, s, seed), later, polls);
      ConcludedStage(p, from);
      if Conclude(p, from).status == ERROR && LastStarted(p.effects).Some? {
        LaterReports(p, from, env, active, arts, from, PLAIN);
      }
    } else {
      PerformFail(from, polls, 0);
      NothingStarted([PipelineError(from), PipelineFinished(ERROR)]);
    }
  }

  lemma SeedStartsNothing(items: seq<Item>, prelude: seq<Effect>, later: seq<Item>, polls: Polls)
    requires |prelude| <= 1 && NoStart(prelude)
    requires items == (if prelude == [] then [] else [Do(prelude[0])]) + later
    ensures var p, q := Perform(items, polls, 0), Perform(later, polls, 0);
            p.end == q.end && LastStarted(p.effects) == LastStarted(q.effects) && (p.effects == [] ==> q.effects == [])
  {
    var q := Perform(later, polls, 0);
    if prelude == [] {
      assert items == later;
    } else {
      PerformOne(Do(prelude[0]), later, polls, 0);
      NothingStarted([prelude[0]]);
      LastStartedConcat([prelude[0]], q.effects);
    }
  }

  lemma PickySecond(a: Artifact, n: nat)
    requires a.stage == 1
    ensures var p := Perform(LaterScript(Picky(PLAIN), PICKY_MODE, map[1 := a], 2, PLAIN), NEVER, n);
            p.end == Thrown(false) && LastStarted(p.effects) == Some(2)
  {
    var env, b := Picky(PLAIN), StageArtifact(2, a, "b", "p");
    var second, third := StageScript(env, PICKY_MODE, 2, a, Wrote("b", "p"), PLAIN), StageScript(env, PICKY_MODE, 3, b, Wrote("c", "p"), PLAIN);
    PickyStage(env, b, n);
    StageEnds(env, PICKY_MODE, 2, a, Wrote("b", "p"), PLAIN, NEVER, n);
    PerformConcat(second, third, NEVER, n);
  }

  // A stage of that run: it stores and announces, and stage 2 then raises.
  lemma PickyStage(env: Env, a: Artifact, n: nat)
    requires env == Picky(PLAIN)
    ensures var script := [Do(StageStarted(a.stage)), Poll(a.stage)] + DeliverScript(env, PICKY_MODE, a, PLAIN);
            Perform(script, NEVER, n).end == if a.stage == 2 then Thrown(false) else Running
  {
    PerformStage(a.stage, DeliverScript(env, PICKY_MODE, a, PLAIN), NEVER, n);
    PerformDeliver(env, PICKY_MODE, a, PLAIN, NEVER, n + 1);
    PerformInject(env, PICKY_MODE, a, PLAIN, NEVER, n + 2);
  }

  /** The witness: the injector raises at stage 2, and the error is reported at stage 1. */
  lemma InjectorReportedAtStageOne()
    ensures var o := Execute(RunScript(Picky(PLAIN), PICKY_MODE, Input(true, Some([]), 0, PLAIN)), NEVER, 1);
            o.status == ERROR && LastStarted(o.effects) == Some(2) && o.errorStage == Some(1)
  {
    var env, a := Picky(PLAIN), Artifact(0, 1, "a", "ko", "p", None);
    var first, later := FirstScript(env, PICKY_MODE, a, PLAIN), LaterScript(env, PICKY_MODE, map[1 := a], 2, PLAIN);
    assert RunScript(env, PICKY_MODE, Input(true, Some([]), 0, PLAIN)) == first + later;
    var p := Perform(first, NEVER, 0);
    PickyStage(env, a, 0);
    PickySecond(a, p.polled);
    PerformConcat(first, later, NEVER, 0);
    LastStartedConcat(p.effects, Perform(later, NEVER, p.polled).effects);
    ConcludedStage(Perform(first + later, NEVER, 0), 1);
  }

  // ---------- an edited text ----------

  /** An edited text counts as a new stage 1 row: reprocessing with it stores that row and then does what
      reprocessing without a seed does where the row is there. */
  lemma SeedActsAsStored(env: Env, mode: Mode, rows: seq<Row>, s: Id, from: int, seed: string)
    requires from == 2 || from == 3
    requires Latest(rows, s, 1).Some?
    ensures var row := Row(s, 1, seed, Latest(rows, s, 1).value.provider);
            ReprocessScript(env, mode, rows, s, from, Some(seed))
            == [Do(Stored(row))] + ReprocessScript(env, mode, rows + [row], s, from, None)
  {
    var row := Row(s, 1, seed, Latest(rows, s, 1).value.provider);
    LoadedFrom(rows, s);
    LatestSnoc(rows, row, s);
    var arts, brts := Load(rows, s), Load(rows + [row], s);
    assert brts == arts[1 := arts[1].(text := seed)];
    assert brts[1 := brts[1]] == brts;
    var later := LaterScript(env, Raised(mode, from), brts, from, PLAIN);
    assert [] + later == later;
  }

  lemma LatestSnoc(rows: seq<Row>, row: Row, s: Id)
    requires row.session == s && row.stage == 1
    ensures Latest(rows + [row], s, 1) == Some(row)
    ensures forall k :: k != 1 ==> Latest(rows + [row], s, k) == Latest(rows, s, k)
  {
    assert (rows + [row])[..|rows|] == rows;
  }

  // Two edited texts lead to different things, apart from their own rows.
  predicate SeedsDiffer(env: Env, mode: Mode, rows: seq<Row>, s: Id, from: int, a: string, b: string)
  {
    |ReprocessScript(env, mode, rows, s, from, Some(a))| > 0 &&
    |ReprocessScript(env, mode, rows, s, from, Some(b))| > 0 &&
    ReprocessScript(env, mode, rows, s, from, Some(a))[1..] != ReprocessScript(env, mode, rows, s, from, Some(b))[1..]
  }

  // Language models that repeat what they are given.
  function Echo(): Env
  {
    Env(_ => SttFailed, text => Wrote(text, "p"), text => Wrote(text, "p"), (_, _) => Typed, _ => false, _ => false)
  }

  lemma SeedIsUsed(mode: Mode, rows: seq<Row>, s: Id, from: int)
    requires from == 2 || (from == 3 && Latest(rows, s, 2).None?)
    requires Latest(rows, s, 1).Some?
    ensures SeedsDiffer(Echo(), mode, rows, s, from, "a", "b")
  {
    SeededRow(mode, rows, s, from, "a");
    SeededRow(mode, rows, s, from, "b");
  }

  // The first thing stored after the seed's own row is made from the seed.
  lemma SeededRow(mode: Mode, rows: seq<Row>, s: Id, from: int, seed: string)
    requires from == 2 || (from == 3 && Latest(rows, s, 2).None?)
    requires Latest(rows, s, 1).Some?
    ensures var items := ReprocessScript(Echo(), mode, rows, s, from, Some(seed));
            |items| > 3 && items[3] == Do(Stored(Row(s, from, seed, "p")))
  {
    LoadedFrom(rows, s);
    var arts := Load(rows, s);
    var first := arts[1].(text := seed);
    var later := LaterScript(Echo(), Raised(mode, from), arts[1 := first], from, PLAIN);
    var script := StageScript(Echo(), Raised(mode, from), from, first, Wrote(seed, "p"), PLAIN);
    assert script[2] == Do(Stored(Row(s, from, seed, "p")));
    assert later[..|script|] == script;
    var items := ReprocessScript(Echo(), mode, rows, s, from, Some(seed));
    assert items == [items[0]] + later;
    assert items[3] == later[2] == script[2];
  }

  // For some language models and some two edited texts it makes a difference which one is given.
  ghost predicate SeedMatters(mode: Mode, rows: seq<Row>, s: Id, from: int)
  {
    exists env, a, b :: SeedsDiffer(env, mode, rows, s, from, a, b)
  }

  /** An edited text is used exactly when reprocessing starts at stage 2, or at stage 3 with no stage 2 row
      stored; otherwise nothing but its own row depends on it, for any language models. */
  lemma SeedIsUsedIff(mode: Mode, rows: seq<Row>, s: Id, from: int)
    requires from == 2 || from == 3
    requires Latest(rows, s, 1).Some?
    ensures SeedMatters(mode, rows, s, from) <==> from == 2 || Latest(rows, s, 2).None?
  {
    if from == 2 || Latest(rows, s, 2).None? {
      SeedIsUsed(mode, rows, s, from);
    } else {
      forall env: Env, a: string, b: string ensures !SeedsDiffer(env, mode, rows, s, from, a, b) {
        SeedIsIgnoredFromStageThree(env, mode, rows, s, a);
        SeedIsIgnoredFromStageThree(env, mode, rows, s, b);
      }
    }
  }

  // ---------- the language of the speech ----------

  // Resuming has the effects the whole run would have had.
  predicate SameEffects(env: Env, k: int, target: int, inject: int, input: Input, rows: seq<Row>)
  {
    var first := Execute(RunScript(env, Mode(k, inject), input), NEVER, 1);
    var more := Perform(ReprocessScript(env, Mode(target, inject), rows + RowsOf(first.effects), input.session, k + 1, None), NEVER, 0);
    var whole := Perform(RunScript(env, Mode(target, inject), input), NEVER, 0);
    first.effects != [] && whole.effects == Body(first) + more.effects && whole.end == more.end
  }

  // A run to stage k that finished, of speech in a language and with a delivery.
  predicate Resumable(env: Env, k: int, target: int, inject: int, input: Input, d: Delivery, language: string)
  {
    && 1 <= k <= 2 && k < target && input.delivery == d
    && Execute(RunScript(env, Mode(k, inject), input), NEVER, 1).status == FINISHED
    && (input.audio.Some? && env.stt(input.audio.value).Heard? ==> env.stt(input.audio.value).language == language)
  }

  ghost predicate AlwaysSame(d: Delivery, language: string)
  {
    forall env, k, target, inject, input, rows ::
      Resumable(env, k, target, inject, input, d, language) ==> SameEffects(env, k, target, inject, input, rows)
  }

  // Speech in some language, and stages that always answer.
  function Foreign(language: string): Env
  {
    Env(_ => Heard("a", language, "p"), _ => Wrote("b", "p"), _ => Wrote("c", "p"), (_, _) => Typed, _ => false, _ => false)
  }

  // What a stage does that neither fails nor types anything.
  lemma QuietStage(env: Env, mode: Mode, a: Artifact, d: Delivery, n: nat)
    requires !env.storeFails(a.stage) && mode.inject != a.stage
    ensures var script := [Do(StageStarted(a.stage)), Poll(a.stage)] + DeliverScript(env, mode, a, d);
            Perform(script, NEVER, n) == Part([StageStarted(a.stage)] + Recorded(a), n + 2, Running)
  {
    PerformStage(a.stage, DeliverScript(env, mode, a, d), NEVER, n);
    PerformDeliver(env, mode, a, d, NEVER, n + 1);
    PerformInject(env, mode, a, d, NEVER, n + 2);
    assert Recorded(a) + [] == Recorded(a);
  }

  // The run to stage 1, the whole run to stage 2 and the resumed stage 2 of that speech.
  lemma ForeignFirst(d: Delivery, language: string)
    ensures var a := Artifact(0, 1, "a", language, "p", None);
            var o := Execute(RunScript(Foreign(language), Mode(1, 0), Input(true, Some([]), 0, d)), NEVER, 1);
            && o.status == FINISHED && o.effects == ([StageStarted(1)] + Recorded(a)) + [PipelineFinished(FINISHED)]
            && RowsOf(o.effects) == [Row(0, 1, "a", "p")]
  {
    var env, a := Foreign(language), Artifact(0, 1, "a", language, "p", None);
    var first := FirstScript(env, Mode(1, 0), a, d);
    assert RunScript(env, Mode(1, 0), Input(true, Some([]), 0, d)) == first + [] == first;
    QuietStage(env, Mode(1, 0), a, d, 0);
    RecordedRows(a, [PipelineFinished(FINISHED)]);
    RowsConcat([StageStarted(1)], Recorded(a) + [PipelineFinished(FINISHED)]);
    Regroup([StageStarted(1)], Recorded(a), [PipelineFinished(FINISHED)]);
    assert [PipelineFinished(FINISHED)][1..] == [] && [StageStarted(1)][1..] == [];
  }

  lemma ForeignWhole(d: Delivery, language: string)
    ensures var a := Artifact(0, 1, "a", language, "p", None);
            Perform(RunScript(Foreign(language), Mode(2, 0), Input(true, Some([]), 0, d)), NEVER, 0).effects
            == ([StageStarted(1)] + Recorded(a)) + ([StageStarted(2)] + Recorded(StageArtifact(2, a, "b", "p")))
  {
    var env, a, two := Foreign(language), Artifact(0, 1, "a", language, "p", None), Mode(2, 0);
    var first, second := FirstScript(env, two, a, d), StageScript(env, two, 2, a, Wrote("b", "p"), d);
    assert second + [] == second;
    assert RunScript(env, two, Input(true, Some([]), 0, d)) == first + second;
    QuietStage(env, two, a, d, 0);
    QuietStage(env, two, StageArtifact(2, a, "b", "p"), d, 2);
    PerformConcat(first, second, NEVER, 0);
  }

  lemma ForeignMore(language: string)
    ensures var korean := Artifact(0, 1, "a", "ko", "p", None);
            Perform(ReprocessScript(Foreign(language), Mode(2, 0), [Row(0, 1, "a", "p")], 0, 2, None), NEVER, 0).effects
            == [StageStarted(2)] + Recorded(StageArtifact(2, korean, "b", "p"))
  {
    var env, korean, two := Foreign(language), Artifact(0, 1, "a", "ko", "p", None), Mode(2, 0);
    var row := Row(0, 1, "a", "p");
    Reload([], 0, "a", "p");
    assert [] + [row] == [row];
    var arts := Load([row], 0);
    assert arts[1 := arts[1]] == arts;
    var second := StageScript(env, two, 2, korean, Wrote("b", "p"), PLAIN);
    assert second + [] == second && [] + second == second;
    assert ReprocessScript(env, two, [row], 0, 2, None) == second;
    QuietStage(env, two, StageArtifact(2, korean, "b", "p"), PLAIN, 0);
  }

  /** In any other language resuming announces the later stages as Korean. */
  lemma ForeignDiffers(d: Delivery, language: string)
    requires language != "ko"
    ensures Resumable(Foreign(language), 1, 2, 0, Input(true, Some([]), 0, d), d, language)
    ensures !SameEffects(Foreign(language), 1, 2, 0, Input(true, Some([]), 0, d), [])
  {
    var a, korean := Artifact(0, 1, "a", language, "p", None), Artifact(0, 1, "a", "ko", "p", None);
    var done := [StageStarted(1)] + Recorded(a);
    var b, c := StageArtifact(2, a, "b", "p"), StageArtifact(2, korean, "b", "p");
    ForeignFirst(d, language);
    ForeignWhole(d, language);
    ForeignMore(language);
    assert [] + [Row(0, 1, "a", "p")] == [Row(0, 1, "a", "p")];
    assert (done + [PipelineFinished(FINISHED)])[..|done|] == done;
    SameEnd(done, [StageStarted(2)] + Recorded(b), [StageStarted(2)] + Recorded(c));
    assert ([StageStarted(2)] + Recorded(b))[2] == StageCompleted(b);
    assert ([StageStarted(2)] + Recorded(c))[2] == StageCompleted(c);
  }

  lemma PickyDiffers(d: Delivery)
    requires d != PLAIN
    ensures Resumable(Picky(d), 1, 3, 2, Input(true, Some([]), 0, d), d, "ko")
    ensures !SameEffects(Picky(d), 1, 3, 2, Input(true, Some([]), 0, d), [])
  {
    var env, input := Picky(d), Input(true, Some([]), 0, d);
    ResumeNeedsDefaultDelivery(d);
    var first := Execute(RunScript(env, Mode(1, 2), input), NEVER, 1);
    assert [] + RowsOf(first.effects) == RowsOf(first.effects);
    var more := ReprocessScript(env, PICKY_MODE, RowsOf(first.effects), 0, 2, None);
    var whole := RunScript(env, PICKY_MODE, input);
    EndDiffers(whole, more);
  }

  // Different statuses come from different ends.
  lemma EndDiffers(whole: seq<Item>, more: seq<Item>)
    requires Execute(whole, NEVER, 1).status == ERROR && Execute(more, NEVER, 2).status == FINISHED
    ensures Perform(whole, NEVER, 0).end != Perform(more, NEVER, 0).end
  {
    NeverCanceled(more, 0);
  }

  /** Resuming has the effects of the whole run, for all stages, stores and injectors, exactly with the
      default delivery and Korean speech. */
  lemma AlwaysSameIff(d: Delivery, language: string)
    ensures AlwaysSame(d, language) <==> d == PLAIN && language == "ko"
  {
    if d == PLAIN && language == "ko" {
      forall env, k, target, inject, input, rows | Resumable(env, k, target, inject, input, d, language)
        ensures SameEffects(env, k, target, inject, input, rows)
      {
        ResumeHasTheSameEffects(env, k, target, inject, input, rows);
      }
    } else if language != "ko" {
      ForeignDiffers(d, language);
    } else {
      PickyDiffers(d);
    }
  }
}
