/** What holds of every pipeline run. */
module PipelineProofs {
  import opened Wrappers
  import opened PipelineSpec

  lemma {:induction false} PerformConcat(a: seq<Item>, b: seq<Item>, polls: Polls, n: nat)
    ensures var p := Perform(a, polls, n);
            Perform(a + b, polls, n) ==
            if p.end.Running? then
              var q := Perform(b, polls, p.polled);
              q.(effects := p.effects + q.effects)
            else p
    decreases |a|
  {
    if a == [] {
      assert a + b == b;
    } else {
      assert (a + b)[1..] == a[1..] + b;
      PerformConcat(a[1..], b, polls, if a[0].Poll? then n + 1 else n);
    }
  }

  // ---------- one finished event, last ----------

  predicate Silent(items: seq<Item>)
  {
    forall i :: 0 <= i < |items| && items[i].Do? ==> !items[i].effect.PipelineFinished? && !items[i].effect.PipelineError?
  }

  function Finishes(es: seq<Effect>): nat
  {
    if es == [] then 0 else (if es[0].PipelineFinished? then 1 else 0) + Finishes(es[1..])
  }

  lemma {:induction false} FinishesConcat(a: seq<Effect>, b: seq<Effect>)
    ensures Finishes(a + b) == Finishes(a) + Finishes(b)
  {
    if a == [] {
      assert a + b == b;
    } else {
      assert (a + b)[1..] == a[1..] + b;
      FinishesConcat(a[1..], b);
    }
  }

  lemma {:induction false} PerformFinishes(items: seq<Item>, polls: Polls, n: nat)
    requires Silent(items)
    ensures var p := Perform(items, polls, n);
            if p.end.Ended? then
              && Finishes(p.effects) == 1 && p.effects != []
              && p.effects[|p.effects| - 1] == PipelineFinished(p.end.status)
              && (p.end.status == ERROR || p.end.status == CANCELED)
            else Finishes(p.effects) == 0
    decreases |items|
  {
    if items != [] {
      if items[0].Do? || (items[0].Poll? && !polls(n)) {
        PerformFinishes(items[1..], polls, if items[0].Poll? then n + 1 else n);
        var q := Perform(items[1..], polls, if items[0].Poll? then n + 1 else n);
        if items[0].Do? {
          assert ([items[0].effect] + q.effects)[1..] == q.effects;
        }
      } else if items[0].Fail? {
        assert Finishes([PipelineError(items[0].stage), PipelineFinished(ERROR)][1..]) == 1;
      }
    }
  }

  // The effects before the finished event.
  function Body(o: Outcome): seq<Effect>
    requires o.effects != []
  {
    o.effects[..|o.effects| - 1]
  }

  /** Whatever the script, the oracles and the polls: a call that returns has a terminal status, which
      its last event announces, and it has no other finished event. */
  lemma EveryRunFinishesOnce(items: seq<Item>, polls: Polls, base: int)
    requires Silent(items)
    ensures var o := Execute(items, polls, base);
            && o.status != RUNNING
            && o.effects != [] && o.effects[|o.effects| - 1] == PipelineFinished(o.status)
            && Finishes(o.effects) == 1 && Finishes(Body(o)) == 0
            && (o.errorStage.None? <==> o.status == FINISHED)
  {
    PerformFinishes(items, polls, 0);
    ConcludeFinishes(Perform(items, polls, 0), base);
    var o := Execute(items, polls, base);
    FinishesConcat(Body(o), [PipelineFinished(o.status)]);
    assert o.effects == Body(o) + [PipelineFinished(o.status)];
    assert Finishes([PipelineFinished(o.status)]) == 1;
  }

  lemma ConcludeFinishes(p: Part, base: int)
    requires if p.end.Ended? then
               && Finishes(p.effects) == 1 && p.effects != []
               && p.effects[|p.effects| - 1] == PipelineFinished(p.end.status)
               && (p.end.status == ERROR || p.end.status == CANCELED)
             else Finishes(p.effects) == 0
    ensures var o := Conclude(p, base);
            && o.status != RUNNING && Finishes(o.effects) == 1
            && o.effects != [] && o.effects[|o.effects| - 1] == PipelineFinished(o.status)
            && (o.errorStage.None? <==> o.status == FINISHED)
  {
    if p.end == Running {
      FinishesConcat(p.effects, [PipelineFinished(FINISHED)]);
    } else if p.end == Thrown(true) {
      FinishesConcat(p.effects, [PipelineFinished(CANCELED)]);
    } else if p.end == Thrown(false) {
      var last := PipelineFinished(ERROR);
      FinishesConcat(p.effects, [PipelineError(base), last]);
      assert [PipelineError(base), last][1..] == [last];
      assert Finishes([last]) == 1;
    }
  }

  // ---------- cancellation ----------

  // The same, cut at the first poll that says so.
  lemma {:induction false} PollsOnlyCut(items: seq<Item>, polls: Polls, n: nat, m: nat)
    ensures var p, w := Perform(items, polls, n), Perform(items, NEVER, m);
            || (p.effects == w.effects && p.end == w.end)
            || (&& p.end.Ended? && p.end.status == CANCELED && p.effects != []
                && p.effects[|p.effects| - 1] == PipelineFinished(CANCELED)
                && p.effects[..|p.effects| - 1] <= w.effects)
    decreases |items|
  {
    if items != [] {
      var step := if items[0].Poll? then 1 else 0;
      if !(items[0].Poll? && polls(n)) {
        PollsOnlyCut(items[1..], polls, n + step, m + step);
        var q, v := Perform(items[1..], polls, n + step), Perform(items[1..], NEVER, m + step);
        if items[0].Do? && q.effects != [] {
          var e := items[0].effect;
          assert ([e] + q.effects)[..|q.effects|] == [e] + q.effects[..|q.effects| - 1];
        }
      }
    }
  }

  /** A canceled run is an interrupted one: everything it stored, typed and announced before its finished
      event is an initial stretch of what the same run does when nobody cancels it, in the same order. */
  lemma CanceledIsPrefix(items: seq<Item>, polls: Polls, base: int)
    requires Silent(items)
    ensures var o, w := Execute(items, polls, base), Execute(items, NEVER, base);
            && o.effects != [] && w.effects != []
            && (o == w || (o.status == CANCELED && Body(o) <= Body(w)))
  {
    EveryRunFinishesOnce(items, polls, base);
    EveryRunFinishesOnce(items, NEVER, base);
    PollsOnlyCut(items, polls, 0, 0);
    PerformFinishes(items, NEVER, 0);
    var o, w := Execute(items, polls, base), Execute(items, NEVER, base);
    if o != w {
      var p := Perform(items, polls, 0);
      var v := Perform(items, NEVER, 0);
      assert Body(o) <= v.effects;
      BodyPrefix(Body(o), v, base);
    }
  }

  // A stretch of effects without a finished event lies in the body of the outcome.
  lemma BodyPrefix(a: seq<Effect>, p: Part, base: int)
    requires a <= p.effects && Finishes(a) == 0
    requires p.end.Ended? ==> p.effects != [] && p.effects[|p.effects| - 1].PipelineFinished?
    ensures Conclude(p, base).effects != [] && a <= Body(Conclude(p, base))
  {
    if p.end.Ended? {
      var last := p.effects[|p.effects| - 1];
      FinishesConcat(p.effects[..|p.effects| - 1], [last]);
      assert p.effects == p.effects[..|p.effects| - 1] + [last];
      assert Finishes([last]) == 1;
      assert a != p.effects;
    }
  }

  lemma StageSilent(env: Env, mode: Mode, stage: int, source: Artifact, o: LlmResult, d: Delivery)
    ensures Silent(StageScript(env, mode, stage, source, o, d))
  {
  }

  lemma {:induction false} LaterSilent(env: Env, mode: Mode, arts: map<int, Artifact>, from: int, d: Delivery)
    requires 1 in arts
    ensures Silent(LaterScript(env, mode, arts, from, d))
  {
    var o := env.correct(arts[1].text);
    StageSilent(env, mode, 2, arts[1], o, d);
    if o.Wrote? {
      var a := StageArtifact(2, arts[1], o.text, o.provider);
      StageSilent(env, mode, 3, a, env.report(a.text), d);
    }
    var source := if 2 in arts then arts[2] else arts[1];
    StageSilent(env, mode, 3, source, env.report(source.text), d);
  }

  /** Only the end of a call announces its end: no script does. */
  lemma {:induction false} ScriptsAreSilent(env: Env, mode: Mode, input: Input, rows: seq<Row>, s: Id, from: int, seed: Option<string>)
    ensures Silent(RunScript(env, mode, input))
    ensures Silent(ReprocessScript(env, mode, rows, s, from, seed))
  {
    if input.audio.Some? {
      var h := env.stt(input.audio.value);
      if h.Heard? {
        var a := Artifact(input.session, 1, h.text, h.language, h.provider, None);
        LaterSilent(env, mode, map[1 := a], 2, input.delivery);
        assert Silent(FirstScript(env, mode, a, input.delivery));
      }
    }
    var arts := Load(rows, s);
    if 1 in arts {
      var first := if seed.Some? then arts[1].(text := seed.value) else arts[1];
      LaterSilent(env, Raised(mode, from), arts[1 := first], from, PLAIN);
    }
  }

  // ---------- what a finished run has done ----------

  function EffectOf(item: Item): seq<Effect> { if item.Do? then [item.effect] else [] }

  // All the effects of a script.
  function Effects(items: seq<Item>): seq<Effect>
  {
    if items == [] then [] else EffectOf(items[0]) + Effects(items[1..])
  }

  lemma {:induction false} EffectsConcat(a: seq<Item>, b: seq<Item>)
    ensures Effects(a + b) == Effects(a) + Effects(b)
  {
    if a == [] {
      assert a + b == b;
    } else {
      assert (a + b)[1..] == a[1..] + b;
      EffectsConcat(a[1..], b);
      Regroup(EffectOf(a[0]), Effects(a[1..]), Effects(b));
    }
  }

  lemma Regroup<T>(a: seq<T>, b: seq<T>, c: seq<T>)
    ensures (a + b) + c == a + (b + c)
  {
  }

  predicate Smooth(items: seq<Item>) { forall i :: 0 <= i < |items| ==> items[i].Do? || items[i].Poll? }

  lemma {:induction false} RunningDidAll(items: seq<Item>, polls: Polls, n: nat)
    ensures var p := Perform(items, polls, n);
            p.end.Running? ==> p.effects == Effects(items) && Smooth(items)
    decreases |items|
  {
    if items != [] && (items[0].Do? || (items[0].Poll? && !polls(n))) {
      RunningDidAll(items[1..], polls, if items[0].Poll? then n + 1 else n);
    }
  }

  function StoredStages(es: seq<Effect>): seq<int>
  {
    if es == [] then [] else (if es[0].Stored? then [es[0].row.stage] else []) + StoredStages(es[1..])
  }

  function InjectStages(es: seq<Effect>): seq<int>
  {
    if es == [] then []
    else (if es[0].InjectRequested? then [es[0].artifact.stage] else []) + InjectStages(es[1..])
  }

  lemma {:induction false} StagesConcat(a: seq<Effect>, b: seq<Effect>)
    ensures StoredStages(a + b) == StoredStages(a) + StoredStages(b)
    ensures InjectStages(a + b) == InjectStages(a) + InjectStages(b)
  {
    if a == [] {
      assert a + b == b;
    } else {
      assert (a + b)[1..] == a[1..] + b;
      StagesConcat(a[1..], b);
      Regroup(if a[0].Stored? then [a[0].row.stage] else [], StoredStages(a[1..]), StoredStages(b));
      Regroup(if a[0].InjectRequested? then [a[0].artifact.stage] else [], InjectStages(a[1..]), InjectStages(b));
    }
  }

  function Once(mode: Mode, stage: int): seq<int> { if mode.inject == stage then [stage] else [] }

  lemma SmoothParts(a: seq<Item>, b: seq<Item>)
    requires Smooth(a + b)
    ensures Smooth(a) && Smooth(b)
  {
    assert forall i :: 0 <= i < |a| ==> a[i] == (a + b)[i];
    assert forall i :: 0 <= i < |b| ==> b[i] == (a + b)[|a| + i];
  }

  lemma SmoothDelivery(env: Env, mode: Mode, a: Artifact, d: Delivery)
    requires Smooth(DeliverScript(env, mode, a, d))
    ensures !env.storeFails(a.stage) && Smooth(InjectScript(env, mode, a, d))
  {
    assert !Smooth([Throw(false)]) by {
      assert [Throw(false)][0] == Throw(false);
    }
    SmoothParts([Do(Stored(Row(a.session, a.stage, a.text, a.provider))), Do(StageCompleted(a)), Poll(a.stage)],
                InjectScript(env, mode, a, d));
  }

  // Starting and delivering one stage, when nothing goes wrong.
  lemma DeliveredOnce(env: Env, mode: Mode, a: Artifact, d: Delivery)
    requires Smooth([Do(StageStarted(a.stage)), Poll(a.stage)] + DeliverScript(env, mode, a, d))
    ensures var es := Effects([Do(StageStarted(a.stage)), Poll(a.stage)] + DeliverScript(env, mode, a, d));
            StoredStages(es) == [a.stage] && InjectStages(es) == Once(mode, a.stage)
  {
    var deliver, tail := DeliverScript(env, mode, a, d), InjectScript(env, mode, a, d);
    var row := Row(a.session, a.stage, a.text, a.provider);
    SmoothParts([Do(StageStarted(a.stage)), Poll(a.stage)], deliver);
    SmoothDelivery(env, mode, a, d);
    EffectsConcat([Do(StageStarted(a.stage)), Poll(a.stage)], deliver);
    EffectsConcat([Do(Stored(row)), Do(StageCompleted(a)), Poll(a.stage)], tail);
    HeadEffects(a, row);
    InjectEffects(env, mode, a, d);
    StagesConcat([StageStarted(a.stage)], Effects(deliver));
    StagesConcat([Stored(row), StageCompleted(a)], Effects(tail));
    assert StoredStages([Stored(row), StageCompleted(a)]) == [a.stage];
  }

  lemma HeadEffects(a: Artifact, row: Row)
    ensures Effects([Do(StageStarted(a.stage)), Poll(a.stage)]) == [StageStarted(a.stage)]
    ensures Effects([Do(Stored(row)), Do(StageCompleted(a)), Poll(a.stage)]) == [Stored(row), StageCompleted(a)]
  {
    EffectsConcat([Do(StageStarted(a.stage))], [Poll(a.stage)]);
    EffectsConcat([Do(Stored(row))], [Do(StageCompleted(a)), Poll(a.stage)]);
    EffectsConcat([Do(StageCompleted(a))], [Poll(a.stage)]);
    assert [Do(StageStarted(a.stage))] + [Poll(a.stage)] == [Do(StageStarted(a.stage)), Poll(a.stage)];
    assert [Do(Stored(row))] + ([Do(StageCompleted(a))] + [Poll(a.stage)]) == [Do(Stored(row)), Do(StageCompleted(a)), Poll(a.stage)];
  }

  lemma InjectEffects(env: Env, mode: Mode, a: Artifact, d: Delivery)
    requires Smooth(InjectScript(env, mode, a, d))
    ensures StoredStages(Effects(InjectScript(env, mode, a, d))) == []
    ensures InjectStages(Effects(InjectScript(env, mode, a, d))) == Once(mode, a.stage)
  {
    var items := InjectScript(env, mode, a, d);
    if |items| == 2 {
      assert items[1].Do?;
      assert items == [items[0]] + [items[1]];
      EffectsConcat([items[0]], [items[1]]);
      StagesConcat([items[0].effect], [items[1].effect]);
    }
  }

  predicate Within(items: seq<Item>, all: seq<Item>, at: nat)
  {
    at + |items| <= |all| && all[at..at + |items|] == items
  }

  lemma SmoothWithin(items: seq<Item>, all: seq<Item>, at: nat)
    requires Smooth(all) && Within(items, all, at)
    ensures Smooth(items)
  {
    forall i | 0 <= i < |items| ensures items[i].Do? || items[i].Poll? {
      assert items[i] == all[at + i];
    }
  }

  lemma StageDeliveredOnce(env: Env, mode: Mode, stage: int, source: Artifact, o: LlmResult, d: Delivery)
    requires Smooth(StageScript(env, mode, stage, source, o, d))
    ensures o.Wrote? && !env.storeFails(stage)
    ensures StoredStages(Effects(StageScript(env, mode, stage, source, o, d))) == [stage]
    ensures InjectStages(Effects(StageScript(env, mode, stage, source, o, d))) == Once(mode, stage)
  {
    var items := StageScript(env, mode, stage, source, o, d);
    assert items[2].Do? || items[2].Poll?;
    var a := StageArtifact(stage, source, o.text, o.provider);
    DeliveredOnce(env, mode, a, d);
  }

  function Capped(mode: Mode): int { if mode.target < 3 then mode.target else 3 }

  function UpTo(n: int): seq<int>
  {
    if n <= 0 then [] else UpTo(n - 1) + [n]
  }

  lemma TwoStagesDelivered(env: Env, mode: Mode, a: Artifact, d: Delivery)
    requires mode.target >= 3 && Smooth(LaterScript(env, mode, map[1 := a], 2, d))
    ensures var es := Effects(LaterScript(env, mode, map[1 := a], 2, d));
            StoredStages(es) == [2] + [3] && InjectStages(es) == Once(mode, 2) + Once(mode, 3)
  {
    var all := LaterScript(env, mode, map[1 := a], 2, d);
    var o := env.correct(a.text);
    var second := StageScript(env, mode, 2, a, o, d);
    assert Within(second, all, 0);
    SmoothWithin(second, all, 0);
    StageDeliveredOnce(env, mode, 2, a, o, d);
    var b := StageArtifact(2, a, o.text, o.provider);
    var third := StageScript(env, mode, 3, b, env.report(b.text), d);
    assert all == second + third;
    SmoothWithin(third, all, |second|);
    StageDeliveredOnce(env, mode, 3, b, env.report(b.text), d);
    EffectsConcat(second, third);
    StagesConcat(Effects(second), Effects(third));
  }

  lemma LaterDelivered(env: Env, mode: Mode, a: Artifact, d: Delivery)
    requires mode.target >= 1 && Smooth(LaterScript(env, mode, map[1 := a], 2, d))
    ensures var es := Effects(LaterScript(env, mode, map[1 := a], 2, d));
            && StoredStages(es) == (if mode.target >= 2 then [2] else []) + (if mode.target >= 3 then [3] else [])
            && InjectStages(es) == (if mode.target >= 2 then Once(mode, 2) else []) + (if mode.target >= 3 then Once(mode, 3) else [])
  {
    if mode.target >= 3 {
      TwoStagesDelivered(env, mode, a, d);
    } else if mode.target == 2 {
      var second := StageScript(env, mode, 2, a, env.correct(a.text), d);
      assert LaterScript(env, mode, map[1 := a], 2, d) == second;
      StageDeliveredOnce(env, mode, 2, a, env.correct(a.text), d);
    }
  }

  /** A run that finishes to target t has stored exactly one row for each stage 1..t, in order, and asked
      for injection exactly once, at its inject stage, if and only if that is one of them. */
  lemma FinishedRunDidItsStages(env: Env, mode: Mode, input: Input, polls: Polls)
    ensures var o := Execute(RunScript(env, mode, input), polls, 1);
            o.status == FINISHED ==>
              && StoredStages(o.effects) == UpTo(Capped(mode))
              && InjectStages(o.effects) == if 1 <= mode.inject <= Capped(mode) then [mode.inject] else []
  {
    var items := RunScript(env, mode, input);
    var p := Perform(items, polls, 0);
    ScriptsAreSilent(env, mode, input, [], 0, 1, None);
    PerformFinishes(items, polls, 0);
    RunningDidAll(items, polls, 0);
    if Execute(items, polls, 1).status == FINISHED {
      StagesConcat(p.effects, [PipelineFinished(FINISHED)]);
      RunDelivered(env, mode, input);
    }
  }

  lemma RunDelivered(env: Env, mode: Mode, input: Input)
    requires Smooth(RunScript(env, mode, input))
    ensures var es := Effects(RunScript(env, mode, input));
            && StoredStages(es) == UpTo(Capped(mode))
            && InjectStages(es) == if 1 <= mode.inject <= Capped(mode) then [mode.inject] else []
  {
    var items := RunScript(env, mode, input);
    assert !items[0].Fail?;
    var h := env.stt(input.audio.value);
    assert h.Heard? by {
      assert items[2].Do? || items[2].Poll?;
    }
    var a := Artifact(input.session, 1, h.text, h.language, h.provider, None);
    var first, later := FirstScript(env, mode, a, input.delivery), LaterScript(env, mode, map[1 := a], 2, input.delivery);
    assert items == first + later;
    SmoothWithin(first, items, 0);
    SmoothWithin(later, items, |first|);
    DeliveredOnce(env, mode, a, input.delivery);
    LaterDelivered(env, mode, a, input.delivery);
    EffectsConcat(first, later);
    StagesConcat(Effects(first), Effects(later));
    CountStages(mode);
  }

  lemma CountStages(mode: Mode)
    requires mode.target >= 1
    ensures [1] + ((if mode.target >= 2 then [2] else []) + (if mode.target >= 3 then [3] else [])) == UpTo(Capped(mode))
    ensures Once(mode, 1) + ((if mode.target >= 2 then Once(mode, 2) else []) + (if mode.target >= 3 then Once(mode, 3) else []))
            == if 1 <= mode.inject <= Capped(mode) then [mode.inject] else []
  {
    assert UpTo(0) == [] && UpTo(1) == [1] && UpTo(2) == [1, 2] && UpTo(3) == [1, 2, 3];
  }
}
