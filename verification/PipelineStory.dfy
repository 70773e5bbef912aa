/** Runs told stage by stage, without scripts: which texts are made from which, what is stored, announced and
    typed in what order, when the run asks whether it was canceled, and how it ends. */
module PipelineStory {
  import opened Wrappers
  import opened PipelineSpec
  import opened PipelineProofs
  import opened PipelineResume
  import opened PipelineScripts

  // A stage that has its text, or one whose language model failed.
  datatype Chapter = Text(artifact: Artifact) | NoText(stage: int)

  function StageOf(c: Chapter): int { if c.Text? then c.artifact.stage else c.stage }

  // The text of a stage, made from another; the language and the session stay.
  function Made(stage: int, source: Artifact, o: LlmResult): Chapter
  {
    match o
    case LlmFailed => NoText(stage)
    case Wrote(text, provider) => Text(Artifact(source.session, stage, text, source.language, provider, None))
  }

  // What stage 2 makes of stage 1's text, and stage 3 of stage 2's.
  function AfterFirst(env: Env, target: int, a: Artifact): seq<Chapter>
  {
    if target < 2 then []
    else
      var two := Made(2, a, env.correct(a.text));
      [two] + if target >= 3 && two.Text? then [Made(3, two.artifact, env.report(two.artifact.text))] else []
  }

  // What is typed, if this is the stage for it: a blank text is as good as typed.
  function Typing(env: Env, inject: int, a: Artifact, d: Delivery): seq<Effect>
  {
    if inject != a.stage then []
    else if env.blank(a.text) then [InjectRequested(a.(injected := Some(true)))]
    else [InjectorCalled(a.text, d), InjectRequested(a.(injected := Some(env.inject(a.text, d) == Typed)))]
  }

  predicate Breaks(env: Env, inject: int, a: Artifact, d: Delivery)
  {
    inject == a.stage && !env.blank(a.text) && env.inject(a.text, d) == InjectRaised
  }

  function Opening(a: Artifact): seq<Effect>
  {
    [StageStarted(a.stage), Stored(Row(a.session, a.stage, a.text, a.provider)), StageCompleted(a)]
  }

  datatype Told = Told(effects: seq<Effect>, end: End)

  // One stage; `first` and `second` are the answers to its two questions whether the run was canceled.
  function Tell(env: Env, inject: int, c: Chapter, d: Delivery, first: bool, second: bool): Told
  {
    var k := StageOf(c);
    if first then Told([StageStarted(k), PipelineFinished(CANCELED)], Ended(CANCELED, k))
    else if c.NoText? then Told([StageStarted(k), PipelineError(k), PipelineFinished(ERROR)], Ended(ERROR, k))
    else
      var a := c.artifact;
      if env.storeFails(k) then Told([StageStarted(k)], Thrown(false))
      else if second then Told(Opening(a) + [PipelineFinished(CANCELED)], Ended(CANCELED, k))
      else if Breaks(env, inject, a, d) then Told(Opening(a) + [InjectorCalled(a.text, d)], Thrown(false))
      else Told(Opening(a) + Typing(env, inject, a, d), Running)
  }

  // One after the other, with two questions each.
  function TellAll(env: Env, inject: int, cs: seq<Chapter>, d: Delivery, polls: Polls, n: nat): Told
    decreases |cs|
  {
    if cs == [] then Told([], Running)
    else
      var one := Tell(env, inject, cs[0], d, polls(n), polls(n + 1));
      if one.end != Running then one
      else
        var others := TellAll(env, inject, cs[1..], d, polls, n + 2);
        Told(one.effects + others.effects, others.end)
  }

  // ---------- scripts tell this ----------

  predicate Tells(p: Part, t: Told, n: nat)
  {
    p.effects == t.effects && p.end == t.end && (p.end.Running? ==> p.polled == n)
  }

  lemma InjectTells(env: Env, mode: Mode, a: Artifact, d: Delivery, polls: Polls, n: nat)
    ensures var q := Perform(InjectScript(env, mode, a, d), polls, n);
            q == if Breaks(env, mode.inject, a, d) then Part([InjectorCalled(a.text, d)], n, Thrown(false))
                 else Part(Typing(env, mode.inject, a, d), n, Running)
  {
    PerformInject(env, mode, a, d, polls, n);
  }

  lemma DeliverTells(env: Env, mode: Mode, a: Artifact, d: Delivery, polls: Polls, n: nat)
    requires !polls(n)
    ensures Tells(Perform([Do(StageStarted(a.stage)), Poll(a.stage)] + DeliverScript(env, mode, a, d), polls, n),
                  Tell(env, mode.inject, Text(a), d, false, polls(n + 1)), n + 2)
  {
    PerformStage(a.stage, DeliverScript(env, mode, a, d), polls, n);
    PerformDeliver(env, mode, a, d, polls, n + 1);
    InjectTells(env, mode, a, d, polls, n + 2);
    assert [StageStarted(a.stage)] + Recorded(a) == Opening(a);
    Regroup([StageStarted(a.stage)], Recorded(a), [PipelineFinished(CANCELED)]);
    Regroup([StageStarted(a.stage)], Recorded(a), Perform(InjectScript(env, mode, a, d), polls, n + 2).effects);
    assert [StageStarted(a.stage)] + [] == [StageStarted(a.stage)];
  }

  lemma StageTells(env: Env, mode: Mode, stage: int, source: Artifact, o: LlmResult, d: Delivery, polls: Polls, n: nat)
    ensures Tells(Perform(StageScript(env, mode, stage, source, o, d), polls, n),
                  Tell(env, mode.inject, Made(stage, source, o), d, polls(n), polls(n + 1)), n + 2)
  {
    var rest := StageRest(env, mode, stage, source, o, d);
    PerformStage(stage, rest, polls, n);
    if polls(n) {
      assert [StageStarted(stage)] + [PipelineFinished(CANCELED)] == [StageStarted(stage), PipelineFinished(CANCELED)];
    } else if o.LlmFailed? {
      PerformFail(stage, polls, n + 1);
      assert [StageStarted(stage)] + [PipelineError(stage), PipelineFinished(ERROR)]
          == [StageStarted(stage), PipelineError(stage), PipelineFinished(ERROR)];
    } else {
      DeliverTells(env, mode, StageArtifact(stage, source, o.text, o.provider), d, polls, n);
    }
  }

  lemma TellOne(env: Env, inject: int, c: Chapter, d: Delivery, polls: Polls, n: nat)
    ensures TellAll(env, inject, [c], d, polls, n) == Tell(env, inject, c, d, polls(n), polls(n + 1))
  {
    var one := Tell(env, inject, c, d, polls(n), polls(n + 1));
    assert [c][1..] == [] && one.effects + [] == one.effects;
  }

  lemma TellCons(env: Env, inject: int, c: Chapter, cs: seq<Chapter>, d: Delivery, polls: Polls, n: nat)
    ensures var one := Tell(env, inject, c, d, polls(n), polls(n + 1));
            var others := TellAll(env, inject, cs, d, polls, n + 2);
            TellAll(env, inject, [c] + cs, d, polls, n) ==
            if one.end != Running then one else Told(one.effects + others.effects, others.end)
  {
    assert ([c] + cs)[1..] == cs;
  }

  // Two scripts one after the other tell what theirs tell.
  lemma ConcatTells(a: seq<Item>, b: seq<Item>, polls: Polls, n: nat, one: Told, others: Told, m: nat)
    requires Tells(Perform(a, polls, n), one, n + 2) && Tells(Perform(b, polls, n + 2), others, m)
    ensures Tells(Perform(a + b, polls, n), if one.end != Running then one else Told(one.effects + others.effects, others.end), m)
  {
    PerformConcat(a, b, polls, n);
  }

  // Stages 2 and 3 from a stage 1 text.
  lemma LaterTells(env: Env, mode: Mode, arts: map<int, Artifact>, d: Delivery, polls: Polls, n: nat)
    requires 1 in arts && mode.target >= 2
    ensures var cs := AfterFirst(env, mode.target, arts[1]);
            Tells(Perform(LaterScript(env, mode, arts, 2, d), polls, n), TellAll(env, mode.inject, cs, d, polls, n), n + 2 * |cs|)
  {
    var a := arts[1];
    var o := env.correct(a.text);
    var two := Made(2, a, o);
    StageTells(env, mode, 2, a, o, d, polls, n);
    TellOne(env, mode.inject, two, d, polls, n);
    var second := StageScript(env, mode, 2, a, o, d);
    if mode.target >= 3 && o.Wrote? {
      var b := StageArtifact(2, a, o.text, o.provider);
      var q := env.report(b.text);
      StageTells(env, mode, 3, b, q, d, polls, n + 2);
      TellOne(env, mode.inject, Made(3, b, q), d, polls, n + 2);
      TellCons(env, mode.inject, two, [Made(3, b, q)], d, polls, n);
      ConcatTells(second, StageScript(env, mode, 3, b, q, d), polls, n, Tell(env, mode.inject, two, d, polls(n), polls(n + 1)),
                  Tell(env, mode.inject, Made(3, b, q), d, polls(n + 2), polls(n + 3)), n + 4);
      assert LaterScript(env, mode, arts, 2, d) == second + StageScript(env, mode, 3, b, q, d);
    } else {
      assert LaterScript(env, mode, arts, 2, d) == second + [] == second;
      assert AfterFirst(env, mode.target, a) == [two] + [] == [two];
    }
  }

  // Stage 3 alone, from a stage 2 text or, without one, from the stage 1 text.
  lemma LastTells(env: Env, mode: Mode, arts: map<int, Artifact>, d: Delivery, polls: Polls, n: nat)
    requires 1 in arts && mode.target >= 3
    ensures var source := if 2 in arts then arts[2] else arts[1];
            Tells(Perform(LaterScript(env, mode, arts, 3, d), polls, n),
                  TellAll(env, mode.inject, [Made(3, source, env.report(source.text))], d, polls, n), n + 2)
  {
    var source := if 2 in arts then arts[2] else arts[1];
    StageTells(env, mode, 3, source, env.report(source.text), d, polls, n);
    TellOne(env, mode.inject, Made(3, source, env.report(source.text)), d, polls, n);
  }

  // ---------- runs ----------

  // The stages of a run whose speech was heard.
  function Chapters(env: Env, target: int, session: Id, h: SttResult): seq<Chapter>
    requires h.Heard?
  {
    var a := Artifact(session, 1, h.text, h.language, h.provider, None);
    [Text(a)] + AfterFirst(env, target, a)
  }

  lemma HeardTells(env: Env, mode: Mode, input: Input, polls: Polls)
    requires input.batch && input.audio.Some? && mode.target >= 1 && env.stt(input.audio.value).Heard? && !polls(0)
    ensures var p := Perform(RunScript(env, mode, input), polls, 0);
            var t := TellAll(env, mode.inject, Chapters(env, mode.target, input.session, env.stt(input.audio.value)), input.delivery, polls, 0);
            p.effects == t.effects && p.end == t.end
  {
    var h, d := env.stt(input.audio.value), input.delivery;
    var a := Artifact(input.session, 1, h.text, h.language, h.provider, None);
    var first, later := FirstScript(env, mode, a, d), LaterScript(env, mode, map[1 := a], 2, d);
    var cs := AfterFirst(env, mode.target, a);
    assert RunScript(env, mode, input) == first + later;
    DeliverTells(env, mode, a, d, polls, 0);
    TellCons(env, mode.inject, Text(a), cs, d, polls, 0);
    if mode.target >= 2 {
      LaterTells(env, mode, map[1 := a], d, polls, 2);
    } else {
      assert later == [] && cs == [];
    }
    ConcatTells(first, later, polls, 0, Tell(env, mode.inject, Text(a), d, polls(0), polls(1)),
                TellAll(env, mode.inject, cs, d, polls, 2), 2 + 2 * |cs|);
  }

  // How a story ends: finished, as it was told, or with what the outermost handler makes of an exception.
  function Concluded(t: Told, base: int): Outcome
  {
    match t.end
    case Running => Outcome(t.effects + [PipelineFinished(FINISHED)], FINISHED, None)
    case Ended(status, k) => Outcome(t.effects, status, Some(k))
    case Thrown(canceled) =>
      if canceled then Outcome(t.effects + [PipelineFinished(CANCELED)], CANCELED, Some(base))
      else Outcome(t.effects + [PipelineError(base), PipelineFinished(ERROR)], ERROR, Some(base))
  }

  // A whole run: refused at once, canceled or failed in the recognition of speech, or told stage by stage.
  function Story(env: Env, mode: Mode, input: Input, polls: Polls): Outcome
  {
    if !input.batch then Outcome([PipelineError(0), PipelineFinished(ERROR)], ERROR, Some(0))
    else if input.audio.None? || mode.target < 1 then Outcome([PipelineError(1), PipelineFinished(ERROR)], ERROR, Some(1))
    else if polls(0) then Outcome([StageStarted(1), PipelineFinished(CANCELED)], CANCELED, Some(1))
    else match env.stt(input.audio.value)
      case SttCanceled => Outcome([StageStarted(1), PipelineFinished(CANCELED)], CANCELED, Some(1))
      case SttFailed => Outcome([StageStarted(1), PipelineError(1), PipelineFinished(ERROR)], ERROR, Some(1))
      case Heard(text, language, provider) =>
        Concluded(TellAll(env, mode.inject, Chapters(env, mode.target, input.session, Heard(text, language, provider)),
                          input.delivery, polls, 0), 1)
  }

  /** Every run has exactly this story, whatever its stages, store, injector and polls answer. */
  lemma RunIsStory(env: Env, mode: Mode, input: Input, polls: Polls)
    ensures Execute(RunScript(env, mode, input), polls, 1) == Story(env, mode, input, polls)
  {
    if input.batch && input.audio.Some? && mode.target >= 1 {
      var h := env.stt(input.audio.value);
      if polls(0) || !h.Heard? {
        EarlyEnd(env, mode, input, polls);
      } else {
        HeardTells(env, mode, input, polls);
      }
    } else {
      PerformFail(if input.batch then 1 else 0, polls, 0);
    }
  }

  // Stage 1 starts, and the run is canceled or the recognition raises.
  lemma CanceledAtOnce(rest: seq<Item>, polls: Polls)
    requires polls(0)
    ensures Execute([Do(StageStarted(1)), Poll(1)] + rest, polls, 1)
            == Outcome([StageStarted(1), PipelineFinished(CANCELED)], CANCELED, Some(1))
  {
    StageCanceled(1, rest, polls, 0);
    assert [StageStarted(1)] + [PipelineFinished(CANCELED)] == [StageStarted(1), PipelineFinished(CANCELED)];
  }

  lemma RaisedAtOnce(canceled: bool, polls: Polls)
    requires !polls(0)
    ensures Execute([Do(StageStarted(1)), Poll(1)] + [Throw(canceled)], polls, 1) ==
            if canceled then Outcome([StageStarted(1), PipelineFinished(CANCELED)], CANCELED, Some(1))
            else Outcome([StageStarted(1), PipelineError(1), PipelineFinished(ERROR)], ERROR, Some(1))
  {
    StageGoesOn(1, [Throw(canceled)], polls, 0);
    PerformFail(1, polls, 1);
    var s := [StageStarted(1)];
    assert s + [] == s && s + [PipelineFinished(CANCELED)] == [StageStarted(1), PipelineFinished(CANCELED)];
    assert s + [PipelineError(1), PipelineFinished(ERROR)] == [StageStarted(1), PipelineError(1), PipelineFinished(ERROR)];
  }

  lemma EarlyEnd(env: Env, mode: Mode, input: Input, polls: Polls)
    requires input.batch && input.audio.Some? && mode.target >= 1 && (polls(0) || !env.stt(input.audio.value).Heard?)
    ensures Execute(RunScript(env, mode, input), polls, 1) == Story(env, mode, input, polls)
  {
    var h := env.stt(input.audio.value);
    assert input == Input(true, Some(input.audio.value), input.session, input.delivery);
    RunIsStage(env, mode, input.audio.value, input.session, input.delivery);
    if polls(0) {
      CanceledAtOnce(HeardScript(env, mode, input.session, h, input.delivery), polls);
    } else {
      RaisedAtOnce(h.SttCanceled?, polls);
    }
  }

  // ---------- reprocessing ----------

  // The stages a reprocessing tells, from the texts it works with; it goes at least as far as it starts.
  function LaterChapters(env: Env, target: int, arts: map<int, Artifact>, from: int): seq<Chapter>
    requires 1 in arts
  {
    if from == 2 then AfterFirst(env, if target < 2 then 2 else target, arts[1])
    else
      var source := if 2 in arts then arts[2] else arts[1];
      [Made(3, source, env.report(source.text))]
  }

  /** Every reprocessing from stage 2 or 3 stores its edited text, if there is one, and then has the story of
      its stages, typed with no extra key and by no particular method. */
  lemma ReprocessIsStory(env: Env, mode: Mode, rows: seq<Row>, s: Id, from: int, seed: Option<string>, polls: Polls)
    requires from == 2 || from == 3
    ensures Execute(ReprocessScript(env, mode, rows, s, from, seed), polls, from) ==
            if 1 !in Load(rows, s) then Outcome([PipelineError(from), PipelineFinished(ERROR)], ERROR, Some(from))
            else
              var arts := Seeded(rows, s, seed);
              var o := Concluded(TellAll(env, mode.inject, LaterChapters(env, mode.target, arts, from), Delivery(false, None), polls, 0), from);
              o.(effects := (if seed.Some? then [Stored(Row(s, 1, seed.value, arts[1].provider))] else []) + o.effects)
  {
    if 1 in Load(rows, s) {
      ReprocessIs(env, mode, rows, s, from, seed, polls);
      StagesConclude(env, mode, Seeded(rows, s, seed), from, polls);
    } else {
      PerformFail(from, polls, 0);
    }
  }

  lemma StagesConclude(env: Env, mode: Mode, arts: map<int, Artifact>, from: int, polls: Polls)
    requires (from == 2 || from == 3) && 1 in arts
    ensures Execute(LaterScript(env, Raised(mode, from), arts, from, PLAIN), polls, from)
            == Concluded(TellAll(env, mode.inject, LaterChapters(env, mode.target, arts, from), Delivery(false, None), polls, 0), from)
  {
    if from == 2 {
      LaterTells(env, Raised(mode, 2), arts, PLAIN, polls, 0);
    } else {
      LastTells(env, Raised(mode, 3), arts, PLAIN, polls, 0);
    }
  }

  /** What a reprocessing works with: the latest stored text of each stage, taken to be Korean, with the edited
      text in place of the first. */
  lemma SeededIs(rows: seq<Row>, s: Id, seed: Option<string>, k: int)
    requires 1 in Load(rows, s)
    ensures var arts, row := Seeded(rows, s, seed), Latest(rows, s, k);
            && (k in arts <==> 1 <= k <= 3 && row.Some?)
            && (k in arts ==> arts[k] == Artifact(row.value.session, row.value.stage,
                                                  if k == 1 && seed.Some? then seed.value else row.value.text, "ko",
                                                  row.value.provider, None))
  {
  }

  // ---------- what follows for whole runs ----------

  // A stage that goes through.
  predicate Goes(env: Env, inject: int, c: Chapter, d: Delivery)
  {
    c.Text? && !env.storeFails(c.artifact.stage) && !Breaks(env, inject, c.artifact, d)
  }

  predicate AllGo(env: Env, inject: int, cs: seq<Chapter>, d: Delivery)
  {
    forall i :: 0 <= i < |cs| ==> Goes(env, inject, cs[i], d)
  }

  function WholeChapter(env: Env, inject: int, c: Chapter, d: Delivery): seq<Effect>
  {
    if c.Text? then Opening(c.artifact) + Typing(env, inject, c.artifact, d) else []
  }

  function Whole(env: Env, inject: int, cs: seq<Chapter>, d: Delivery): seq<Effect>
  {
    if cs == [] then [] else WholeChapter(env, inject, cs[0], d) + Whole(env, inject, cs[1..], d)
  }

  predicate Undisturbed(polls: Polls, n: nat, m: nat) { forall i :: n <= i < m ==> !polls(i) }

  lemma {:induction false} ToldFinishes(env: Env, inject: int, cs: seq<Chapter>, d: Delivery, polls: Polls, n: nat)
    ensures var t := TellAll(env, inject, cs, d, polls, n);
            && (t.end.Running? <==> AllGo(env, inject, cs, d) && Undisturbed(polls, n, n + 2 * |cs|))
            && (t.end.Running? ==> t.effects == Whole(env, inject, cs, d))
    decreases |cs|
  {
    if cs != [] {
      ToldFinishes(env, inject, cs[1..], d, polls, n + 2);
      assert AllGo(env, inject, cs, d) <==> Goes(env, inject, cs[0], d) && AllGo(env, inject, cs[1..], d) by {
        assert cs == [cs[0]] + cs[1..];
      }
    }
  }

  /** A run finishes exactly if it is given audio and a target, its speech is heard, every stage up to the target
      gets its text from the one before, the store takes it, the injector does not raise, and no poll says
      otherwise; and then this is all it does, in order. */
  lemma FinishedRunIs(env: Env, mode: Mode, input: Input, polls: Polls)
    ensures var o := Execute(RunScript(env, mode, input), polls, 1);
            && (o.status == FINISHED <==>
                  && input.batch && input.audio.Some? && mode.target >= 1 && env.stt(input.audio.value).Heard?
                  && var cs := Chapters(env, mode.target, input.session, env.stt(input.audio.value));
                     AllGo(env, mode.inject, cs, input.delivery) && Undisturbed(polls, 0, 2 * |cs|))
            && (o.status == FINISHED ==>
                  o.effects == Whole(env, mode.inject, Chapters(env, mode.target, input.session, env.stt(input.audio.value)), input.delivery)
                               + [PipelineFinished(FINISHED)])
  {
    RunIsStory(env, mode, input, polls);
    if input.batch && input.audio.Some? && mode.target >= 1 && env.stt(input.audio.value).Heard? {
      var cs := Chapters(env, mode.target, input.session, env.stt(input.audio.value));
      ToldFinishes(env, mode.inject, cs, input.delivery, polls, 0);
      ToldStatus(env, mode.inject, cs, input.delivery, polls, 0);
      if polls(0) {
        assert !Undisturbed(polls, 0, 2 * |cs|);
      }
    }
  }

  // A story that does not go through does not finish.
  lemma {:induction false} ToldStatus(env: Env, inject: int, cs: seq<Chapter>, d: Delivery, polls: Polls, n: nat)
    ensures var t := TellAll(env, inject, cs, d, polls, n); t.end.Ended? ==> t.end.status == CANCELED || t.end.status == ERROR
    decreases |cs|
  {
    if cs != [] {
      ToldStatus(env, inject, cs[1..], d, polls, n + 2);
    }
  }

  // ---------- when a run is canceled ----------

  // What has been done by question number j: the stages before it, and of its own the start or the text.
  function Until(env: Env, inject: int, cs: seq<Chapter>, d: Delivery, j: nat): seq<Effect>
    requires j < 2 * |cs| && cs[j / 2].Text?
  {
    Whole(env, inject, cs[..j / 2], d) + if j % 2 == 0 then [StageStarted(StageOf(cs[j / 2]))] else Opening(cs[j / 2].artifact)
  }

  lemma UntilFirst(env: Env, inject: int, cs: seq<Chapter>, d: Delivery, j: nat)
    requires j < 2 && cs != [] && cs[0].Text?
    ensures Until(env, inject, cs, d, j) == if j == 0 then [StageStarted(StageOf(cs[0]))] else Opening(cs[0].artifact)
  {
    assert cs[..0] == [];
    var last := if j == 0 then [StageStarted(StageOf(cs[0]))] else Opening(cs[0].artifact);
    assert [] + last == last;
  }

  lemma UntilLater(env: Env, inject: int, c: Chapter, rest: seq<Chapter>, d: Delivery, j: nat)
    requires 2 <= j < 2 + 2 * |rest| && rest[(j - 2) / 2].Text?
    ensures var cs := [c] + rest;
            cs[j / 2].Text? && Until(env, inject, cs, d, j) == WholeChapter(env, inject, c, d) + Until(env, inject, rest, d, j - 2)
  {
    var cs, k := [c] + rest, j / 2 - 1;
    assert (j - 2) / 2 == k && (j - 2) % 2 == j % 2 && cs[j / 2] == rest[k];
    assert cs[..j / 2] == [c] + rest[..k] && ([c] + rest[..k])[1..] == rest[..k];
    var last := if j % 2 == 0 then [StageStarted(StageOf(rest[k]))] else Opening(rest[k].artifact);
    Regroup(WholeChapter(env, inject, c, d), Whole(env, inject, rest[..k], d), last);
  }

  lemma ToldCanceledFirst(env: Env, inject: int, cs: seq<Chapter>, d: Delivery, polls: Polls, n: nat, j: nat)
    requires cs != [] && Goes(env, inject, cs[0], d) && j < 2 && Undisturbed(polls, n, n + j) && polls(n + j)
    ensures TellAll(env, inject, cs, d, polls, n) ==
            Told(Until(env, inject, cs, d, j) + [PipelineFinished(CANCELED)], Ended(CANCELED, StageOf(cs[0])))
  {
    UntilFirst(env, inject, cs, d, j);
    var k := StageOf(cs[0]);
    assert [StageStarted(k)] + [PipelineFinished(CANCELED)] == [StageStarted(k), PipelineFinished(CANCELED)];
  }

  lemma {:induction false} ToldCanceled(env: Env, inject: int, cs: seq<Chapter>, d: Delivery, polls: Polls, n: nat, j: nat)
    requires AllGo(env, inject, cs, d) && j < 2 * |cs| && Undisturbed(polls, n, n + j) && polls(n + j)
    ensures cs[j / 2].Text?
    ensures TellAll(env, inject, cs, d, polls, n) ==
            Told(Until(env, inject, cs, d, j) + [PipelineFinished(CANCELED)], Ended(CANCELED, StageOf(cs[j / 2])))
    decreases |cs|
  {
    assert Goes(env, inject, cs[j / 2], d) && Goes(env, inject, cs[0], d);
    if j < 2 {
      ToldCanceledFirst(env, inject, cs, d, polls, n, j);
    } else {
      var c, rest := cs[0], cs[1..];
      assert cs == [c] + rest;
      assert AllGo(env, inject, rest, d);
      ToldCanceled(env, inject, rest, d, polls, n + 2, j - 2);
      UntilLater(env, inject, c, rest, d, j);
      GoesOn(env, inject, c, rest, d, polls, n);
      Regroup(WholeChapter(env, inject, c, d), Until(env, inject, rest, d, j - 2), [PipelineFinished(CANCELED)]);
    }
  }

  lemma GoesOn(env: Env, inject: int, c: Chapter, rest: seq<Chapter>, d: Delivery, polls: Polls, n: nat)
    requires Goes(env, inject, c, d) && !polls(n) && !polls(n + 1)
    ensures var others := TellAll(env, inject, rest, d, polls, n + 2);
            TellAll(env, inject, [c] + rest, d, polls, n) == Told(WholeChapter(env, inject, c, d) + others.effects, others.end)
  {
    TellCons(env, inject, c, rest, d, polls, n);
  }

  /** A run that would finish and is canceled at its question number j ends canceled at stage j / 2 + 1: all
      stages before it are done, and of that one its start, and if it was the second question also its text. */
  lemma CanceledRunIs(env: Env, mode: Mode, input: Input, polls: Polls, j: nat)
    requires Execute(RunScript(env, mode, input), NEVER, 1).status == FINISHED
    requires Undisturbed(polls, 0, j) && polls(j)
    ensures input.audio.Some? && env.stt(input.audio.value).Heard?
    ensures var cs := Chapters(env, mode.target, input.session, env.stt(input.audio.value));
            j < 2 * |cs| ==>
              && cs[j / 2].Text? && cs[j / 2].artifact.stage == j / 2 + 1
              && Execute(RunScript(env, mode, input), polls, 1) ==
                 Outcome(Until(env, mode.inject, cs, input.delivery, j) + [PipelineFinished(CANCELED)], CANCELED, Some(j / 2 + 1))
  {
    FinishedRunIs(env, mode, input, NEVER);
    var h := env.stt(input.audio.value);
    if j < 2 * |Chapters(env, mode.target, input.session, h)| {
      RunIsStory(env, mode, input, polls);
      CanceledStory(env, mode, input, h, polls, j);
    }
  }

  lemma CanceledStory(env: Env, mode: Mode, input: Input, h: SttResult, polls: Polls, j: nat)
    requires input.batch && input.audio.Some? && mode.target >= 1 && h == env.stt(input.audio.value) && h.Heard?
    requires AllGo(env, mode.inject, Chapters(env, mode.target, input.session, h), input.delivery)
    requires j < 2 * |Chapters(env, mode.target, input.session, h)| && Undisturbed(polls, 0, j) && polls(j)
    ensures var cs := Chapters(env, mode.target, input.session, h);
            && cs[j / 2].Text? && cs[j / 2].artifact.stage == j / 2 + 1
            && Story(env, mode, input, polls) ==
               Outcome(Until(env, mode.inject, cs, input.delivery, j) + [PipelineFinished(CANCELED)], CANCELED, Some(j / 2 + 1))
  {
    var cs, d := Chapters(env, mode.target, input.session, h), input.delivery;
    ChaptersInOrder(env, mode.target, input.session, h, j / 2);
    ToldCanceled(env, mode.inject, cs, d, polls, 0, j);
    if j == 0 {
      UntilFirst(env, mode.inject, cs, d, 0);
      assert [StageStarted(1)] + [PipelineFinished(CANCELED)] == [StageStarted(1), PipelineFinished(CANCELED)];
    } else {
      assert !polls(0);
    }
  }

  lemma ChaptersInOrder(env: Env, target: int, session: Id, h: SttResult, i: nat)
    requires h.Heard? && i < |Chapters(env, target, session, h)|
    ensures StageOf(Chapters(env, target, session, h)[i]) == i + 1
  {
  }
}
