/** Stopping after a stage and reprocessing from the next one, compared with one whole run. */
module PipelineResume {
  import opened Wrappers
  import opened PipelineSpec
  import opened PipelineProofs

  function RowsOf(es: seq<Effect>): seq<Row>
  {
    if es == [] then [] else (if es[0].Stored? then [es[0].row] else []) + RowsOf(es[1..])
  }

  lemma {:induction false} RowsConcat(a: seq<Effect>, b: seq<Effect>)
    ensures RowsOf(a + b) == RowsOf(a) + RowsOf(b)
  {
    if a == [] {
      assert a + b == b;
    } else {
      assert (a + b)[1..] == a[1..] + b;
      RowsConcat(a[1..], b);
      Regroup(if a[0].Stored? then [a[0].row] else [], RowsOf(a[1..]), RowsOf(b));
    }
  }

  // ---------- what a script does to the store when nobody cancels ----------

  datatype StoreEnd = Goes | Stops(status: Status)
  datatype Storing = Storing(rows: seq<Row>, end: StoreEnd)

  function Storage(items: seq<Item>): Storing
  {
    if items == [] then Storing([], Goes)
    else match items[0]
      case Do(e) => var s := Storage(items[1..]); s.(rows := (if e.Stored? then [e.row] else []) + s.rows)
      case Poll(_) => Storage(items[1..])
      case Fail(_) => Storing([], Stops(ERROR))
      case Throw(canceled) => Storing([], Stops(if canceled then CANCELED else ERROR))
  }

  function StatusOf(e: StoreEnd): Status { if e.Goes? then FINISHED else e.status }

  function Follow(a: Storing, b: Storing): Storing
  {
    if a.end.Goes? then Storing(a.rows + b.rows, b.end) else a
  }

  lemma {:induction false} StorageConcat(a: seq<Item>, b: seq<Item>)
    ensures Storage(a + b) == Follow(Storage(a), Storage(b))
  {
    if a == [] {
      assert a + b == b;
    } else {
      assert (a + b)[1..] == a[1..] + b;
      StorageConcat(a[1..], b);
      if a[0].Do? {
        Regroup(if a[0].effect.Stored? then [a[0].effect.row] else [], Storage(a[1..]).rows, Storage(b).rows);
      }
    }
  }

  lemma {:induction false} PerformStores(items: seq<Item>, n: nat)
    ensures var p, s := Perform(items, NEVER, n), Storage(items);
            && RowsOf(p.effects) == s.rows
            && (p.end.Running? <==> s.end.Goes?)
            && (p.end.Ended? ==> p.end.status == ERROR && s.end == Stops(ERROR))
            && (p.end.Thrown? ==> s.end == Stops(if p.end.canceled then CANCELED else ERROR))
    decreases |items|
  {
    if items != [] {
      match items[0]
      case Do(e) =>
        PerformStores(items[1..], n);
        assert ([e] + Perform(items[1..], NEVER, n).effects)[1..] == Perform(items[1..], NEVER, n).effects;
      case Poll(_) => PerformStores(items[1..], n + 1);
      case Fail(k) => assert RowsOf([PipelineError(k), PipelineFinished(ERROR)][1..]) == [];
      case Throw(_) =>
    }
  }

  lemma ExecuteStores(items: seq<Item>, base: int)
    ensures var o, s := Execute(items, NEVER, base), Storage(items);
            RowsOf(o.effects) == s.rows && o.status == StatusOf(s.end)
  {
    PerformStores(items, 0);
    var p := Perform(items, NEVER, 0);
    RowsConcat(p.effects, [PipelineFinished(FINISHED)]);
    RowsConcat(p.effects, [PipelineFinished(CANCELED)]);
    RowsConcat(p.effects, [PipelineError(base), PipelineFinished(ERROR)]);
    assert RowsOf([PipelineError(base), PipelineFinished(ERROR)][1..]) == [];
  }

  // ---------- what the scripts store ----------

  lemma InjectStorage(env: Env, mode: Mode, a: Artifact, d: Delivery)
    ensures Storage(InjectScript(env, mode, a, d)) ==
            Storing([], if mode.inject == a.stage && !env.blank(a.text) && env.inject(a.text, d).InjectRaised?
                        then Stops(ERROR) else Goes)
  {
    var items := InjectScript(env, mode, a, d);
    if |items| == 2 {
      assert items[1..] == [items[1]];
      assert Storage([items[1]][1..]) == Storing([], Goes);
    } else if |items| == 1 {
      assert Storage(items[1..]) == Storing([], Goes);
    }
  }

  lemma HeadStorage(row: Row, a: Artifact)
    ensures Storage([Do(Stored(row)), Do(StageCompleted(a)), Poll(a.stage)]) == Storing([row], Goes)
  {
    assert Storage([Poll(a.stage)][1..]) == Storing([], Goes);
    StorageConcat([Do(StageCompleted(a))], [Poll(a.stage)]);
    StorageConcat([Do(Stored(row))], [Do(StageCompleted(a))] + [Poll(a.stage)]);
    assert [Do(Stored(row))] + ([Do(StageCompleted(a))] + [Poll(a.stage)]) == [Do(Stored(row)), Do(StageCompleted(a)), Poll(a.stage)];
  }

  lemma DeliverStorage(env: Env, mode: Mode, a: Artifact, d: Delivery)
    ensures Storage(DeliverScript(env, mode, a, d)) ==
            if env.storeFails(a.stage) then Storing([], Stops(ERROR))
            else Storing([Row(a.session, a.stage, a.text, a.provider)], Storage(InjectScript(env, mode, a, d)).end)
  {
    var row := Row(a.session, a.stage, a.text, a.provider);
    var tail := InjectScript(env, mode, a, d);
    InjectStorage(env, mode, a, d);
    if !env.storeFails(a.stage) {
      HeadStorage(row, a);
      StorageConcat([Do(Stored(row)), Do(StageCompleted(a)), Poll(a.stage)], tail);
    }
  }

  lemma StageStorage(env: Env, mode: Mode, stage: int, source: Artifact, o: LlmResult, d: Delivery)
    ensures Storage(StageScript(env, mode, stage, source, o, d)) ==
            if o.LlmFailed? then Storing([], Stops(ERROR))
            else Storage(DeliverScript(env, mode, StageArtifact(stage, source, o.text, o.provider), d))
  {
    var head := [Do(StageStarted(stage)), Poll(stage)];
    assert head[1..] == [Poll(stage)] && head[1..][1..] == [];
    var tail := StageRest(env, mode, stage, source, o, d);
    assert StageScript(env, mode, stage, source, o, d) == head + tail;
    StorageConcat(head, tail);
  }

  // What a stage adds to the store, given what its language model wrote.
  function StageStored(env: Env, inject: int, s: Id, stage: int, o: LlmResult, d: Delivery): Storing
  {
    if o.LlmFailed? || env.storeFails(stage) then Storing([], Stops(ERROR))
    else
      Storing([Row(s, stage, o.text, o.provider)],
              if inject == stage && !env.blank(o.text) && env.inject(o.text, d).InjectRaised? then Stops(ERROR) else Goes)
  }

  lemma StageIsStored(env: Env, mode: Mode, stage: int, source: Artifact, o: LlmResult, d: Delivery)
    ensures Storage(StageScript(env, mode, stage, source, o, d)) == StageStored(env, mode.inject, source.session, stage, o, d)
  {
    StageStorage(env, mode, stage, source, o, d);
    if o.Wrote? {
      DeliverStorage(env, mode, StageArtifact(stage, source, o.text, o.provider), d);
      InjectStorage(env, mode, StageArtifact(stage, source, o.text, o.provider), d);
    }
  }

  // What stage 3, and stages 2 and 3, add to the store, as far as the target asks.
  function ThirdStored(env: Env, mode: Mode, s: Id, text: string, d: Delivery): Storing
  {
    if mode.target >= 3 then StageStored(env, mode.inject, s, 3, env.report(text), d) else Storing([], Goes)
  }

  function LaterStored(env: Env, mode: Mode, s: Id, text: string, d: Delivery): Storing
  {
    var o := env.correct(text);
    Follow(StageStored(env, mode.inject, s, 2, o, d), if o.Wrote? then ThirdStored(env, mode, s, o.text, d) else Storing([], Goes))
  }

  lemma LaterIsStored(env: Env, mode: Mode, arts: map<int, Artifact>, d: Delivery)
    requires mode.target >= 2 && 1 in arts
    ensures Storage(LaterScript(env, mode, arts, 2, d)) == LaterStored(env, mode, arts[1].session, arts[1].text, d)
  {
    var a, o := arts[1], env.correct(arts[1].text);
    var second := StageScript(env, mode, 2, a, o, d);
    StageIsStored(env, mode, 2, a, o, d);
    if o.Wrote? && mode.target >= 3 {
      var b := StageArtifact(2, a, o.text, o.provider);
      StageIsStored(env, mode, 3, b, env.report(b.text), d);
      StorageConcat(second, StageScript(env, mode, 3, b, env.report(b.text), d));
    } else {
      assert second + [] == second;
      var stored := Storage(second);
      assert stored.rows + [] == stored.rows;
    }
  }

  lemma Reload(rows: seq<Row>, s: Id, text1: string, p1: string)
    ensures var arts := Load(rows + [Row(s, 1, text1, p1)], s);
            1 in arts && arts[1] == Artifact(s, 1, text1, "ko", p1, None)
  {
    assert Latest(rows + [Row(s, 1, text1, p1)], s, 1) == Some(Row(s, 1, text1, p1));
  }

  lemma ReloadTwo(rows: seq<Row>, s: Id, text1: string, p1: string, text2: string, p2: string)
    ensures var arts := Load((rows + [Row(s, 1, text1, p1)]) + [Row(s, 2, text2, p2)], s);
            && 1 in arts && arts[1] == Artifact(s, 1, text1, "ko", p1, None)
            && 2 in arts && arts[2] == Artifact(s, 2, text2, "ko", p2, None)
  {
    var once := rows + [Row(s, 1, text1, p1)];
    var twice := once + [Row(s, 2, text2, p2)];
    assert Latest(once, s, 1) == Some(Row(s, 1, text1, p1));
    assert twice[..|twice| - 1] == once;
    assert Latest(twice, s, 1) == Latest(once, s, 1);
    assert Latest(twice, s, 2) == Some(Row(s, 2, text2, p2));
  }

  // Stage 1 of a run that gets past it.
  lemma FirstStorage(env: Env, mode: Mode, a: Artifact, d: Delivery)
    ensures Storage(FirstScript(env, mode, a, d)) == Storage(DeliverScript(env, mode, a, d))
  {
    var head := [Do(StageStarted(1)), Poll(1)];
    assert head[1..] == [Poll(1)] && head[1..][1..] == [];
    StorageConcat(head, DeliverScript(env, mode, a, d));
  }

  // The artifact of stage 1 in a run that finishes.
  function Heard1(env: Env, input: Input): Artifact
    requires input.audio.Some? && env.stt(input.audio.value).Heard?
  {
    var h := env.stt(input.audio.value);
    Artifact(input.session, 1, h.text, h.language, h.provider, None)
  }

  lemma StoppedAtOnce(canceled: bool)
    ensures !Storage([Do(StageStarted(1)), Poll(1), Throw(canceled)]).end.Goes?
  {
    StorageConcat([Do(StageStarted(1)), Poll(1)], [Throw(canceled)]);
    assert [Do(StageStarted(1)), Poll(1)] + [Throw(canceled)] == [Do(StageStarted(1)), Poll(1), Throw(canceled)];
  }

  lemma RunStorage(env: Env, mode: Mode, input: Input)
    requires Storage(RunScript(env, mode, input)).end.Goes?
    ensures mode.target >= 1 && input.audio.Some? && env.stt(input.audio.value).Heard?
    ensures var a := Heard1(env, input);
            var first := Storage(FirstScript(env, mode, a, input.delivery));
            && first == Storing([Row(a.session, 1, a.text, a.provider)], Goes)
            && Storage(RunScript(env, mode, input)) == Follow(first, Storage(LaterScript(env, mode, map[1 := a], 2, input.delivery)))
  {
    var items := RunScript(env, mode, input);
    assert !items[0].Fail?;
    StoppedAtOnce(true);
    StoppedAtOnce(false);
    var a := Heard1(env, input);
    StorageConcat(FirstScript(env, mode, a, input.delivery), LaterScript(env, mode, map[1 := a], 2, input.delivery));
    FirstStorage(env, mode, a, input.delivery);
    DeliverStorage(env, mode, a, input.delivery);
    InjectStorage(env, mode, a, input.delivery);
  }

  // Stage 1 looks at the inject stage only, so a longer run begins in the same way.
  lemma LongerRun(env: Env, short: Mode, long: Mode, input: Input)
    requires short.inject == long.inject && 1 <= short.target <= long.target
    requires Storage(RunScript(env, short, input)).end.Goes?
    ensures input.audio.Some? && env.stt(input.audio.value).Heard?
    ensures var a := Heard1(env, input);
            Storage(RunScript(env, long, input)) ==
            Follow(Storing([Row(a.session, 1, a.text, a.provider)], Goes),
                   Storage(LaterScript(env, long, map[1 := a], 2, input.delivery)))
  {
    RunStorage(env, short, input);
    var a := Heard1(env, input);
    assert FirstScript(env, short, a, input.delivery) == FirstScript(env, long, a, input.delivery);
    StorageConcat(FirstScript(env, long, a, input.delivery), LaterScript(env, long, map[1 := a], 2, input.delivery));
  }

  // What resuming after stage k adds to the store, with the delivery given.
  function Resumed(env: Env, k: int, mode: Mode, s: Id, text: string, d: Delivery): Storing
  {
    if k == 1 then LaterStored(env, mode, s, text, d)
    else if env.correct(text).Wrote? then ThirdStored(env, mode, s, env.correct(text).text, d)
    else Storing([], Goes)
  }

  lemma ResumeAfterOne(env: Env, k: int, target: int, inject: int, input: Input, rows: seq<Row>)
    requires k == 1 && k < target
    requires Storage(RunScript(env, Mode(k, inject), input)).end.Goes?
    ensures input.audio.Some? && env.stt(input.audio.value).Heard?
    ensures ResumeStores(env, k, target, inject, input, rows)
  {
    RunStorage(env, Mode(1, inject), input);
    var a, mode := Heard1(env, input), Mode(target, inject);
    LongerRun(env, Mode(1, inject), mode, input);
    var row := Row(a.session, 1, a.text, a.provider);
    assert Storage(RunScript(env, Mode(1, inject), input)).rows == [row];
    LaterIsStored(env, mode, map[1 := a], input.delivery);
    Reload(rows, a.session, a.text, a.provider);
    var arts := Load(rows + [row], a.session);
    assert arts[1 := arts[1]] == arts;
    var later := LaterScript(env, mode, arts, 2, PLAIN);
    assert [] + later == later;
    LaterIsStored(env, mode, arts, PLAIN);
  }

  // The whole run goes on with its own delivery where the resumed one has the default.
  predicate ResumeStores(env: Env, k: int, target: int, inject: int, input: Input, rows: seq<Row>)
    requires input.audio.Some? && env.stt(input.audio.value).Heard?
  {
    var mode, a := Mode(target, inject), Heard1(env, input);
    var done := Storage(RunScript(env, Mode(k, inject), input));
    var own := Resumed(env, k, mode, a.session, a.text, input.delivery);
    && Storage(RunScript(env, mode, input)) == Storing(done.rows + own.rows, own.end)
    && Storage(ReprocessScript(env, mode, rows + done.rows, input.session, k + 1, None))
       == Resumed(env, k, mode, a.session, a.text, PLAIN)
  }

  // A run to stage 2 that goes through stores two rows.
  lemma TwoRows(env: Env, inject: int, input: Input)
    requires Storage(RunScript(env, Mode(2, inject), input)).end.Goes?
    ensures input.audio.Some? && env.stt(input.audio.value).Heard?
    ensures var a := Heard1(env, input);
            var o := env.correct(a.text);
            && o.Wrote?
            && Storage(StageScript(env, Mode(2, inject), 2, a, o, input.delivery)) == Storing([Row(a.session, 2, o.text, o.provider)], Goes)
            && Storage(RunScript(env, Mode(2, inject), input)).rows ==
               [Row(a.session, 1, a.text, a.provider)] + [Row(a.session, 2, o.text, o.provider)]
  {
    var short := Mode(2, inject);
    RunStorage(env, short, input);
    var a := Heard1(env, input);
    var o := env.correct(a.text);
    var second := StageScript(env, short, 2, a, o, input.delivery);
    assert LaterScript(env, short, map[1 := a], 2, input.delivery) == second + [] == second;
    StageStorage(env, short, 2, a, o, input.delivery);
    if o.Wrote? {
      var c := StageArtifact(2, a, o.text, o.provider);
      DeliverStorage(env, short, c, input.delivery);
      InjectStorage(env, short, c, input.delivery);
    }
  }

  lemma ResumeAfterTwo(env: Env, k: int, target: int, inject: int, input: Input, rows: seq<Row>)
    requires k == 2 && k < target
    requires Storage(RunScript(env, Mode(k, inject), input)).end.Goes?
    ensures input.audio.Some? && env.stt(input.audio.value).Heard?
    ensures ResumeStores(env, k, target, inject, input, rows)
  {
    var long := Mode(target, inject);
    TwoRows(env, inject, input);
    LongerRun(env, Mode(2, inject), long, input);
    var a := Heard1(env, input);
    var o := env.correct(a.text);
    var row1, row2 := Row(a.session, 1, a.text, a.provider), Row(a.session, 2, o.text, o.provider);
    StageIsStored(env, Mode(2, inject), 2, a, o, input.delivery);
    LaterIsStored(env, long, map[1 := a], input.delivery);
    Regroup([row1], [row2], ThirdStored(env, long, a.session, o.text, input.delivery).rows);

    ReloadTwo(rows, a.session, a.text, a.provider, o.text, o.provider);
    assert rows + ([row1] + [row2]) == (rows + [row1]) + [row2];
    var arts := Load((rows + [row1]) + [row2], a.session);
    assert arts[1 := arts[1]] == arts;
    var later := LaterScript(env, long, arts, 3, PLAIN);
    assert [] + later == later;
    StageIsStored(env, long, 3, arts[2], env.report(o.text), PLAIN);
  }

  // Typing raises with one delivery and not with the default one.
  predicate Unlike(env: Env, text: string, d: Delivery)
  {
    !env.blank(text) && (env.inject(text, d).InjectRaised? <==> !env.inject(text, PLAIN).InjectRaised?)
  }

  // The text typed in the resumed stages is one of those, and the difference shows: stage 3 is the last, or
  // stage 2 is, or stage 3 would store something.
  predicate DeliveryMatters(env: Env, k: int, mode: Mode, text: string, d: Delivery)
  {
    var o := env.correct(text);
    && k < mode.inject <= mode.target && o.Wrote? && (k == 2 || !env.storeFails(2))
    && if mode.inject == 2 then
         Unlike(env, o.text, d) && (mode.target == 2 || (env.report(o.text).Wrote? && !env.storeFails(3)))
       else
         var q := env.report(o.text);
         mode.inject == 3 && q.Wrote? && !env.storeFails(3) && Unlike(env, q.text, d)
  }

  lemma ResumedIff(env: Env, k: int, mode: Mode, s: Id, text: string, d: Delivery)
    requires 1 <= k <= 2 && k < mode.target
    ensures var own, plain := Resumed(env, k, mode, s, text, d), Resumed(env, k, mode, s, text, PLAIN);
            own.rows == plain.rows && StatusOf(own.end) == StatusOf(plain.end) <==> !DeliveryMatters(env, k, mode, text, d)
  {
  }

  // The resumed store and status are those of the whole run.
  predicate ResumesWhole(env: Env, k: int, target: int, inject: int, input: Input, rows: seq<Row>)
  {
    var first := Execute(RunScript(env, Mode(k, inject), input), NEVER, 1);
    var between := rows + RowsOf(first.effects);
    var more := Execute(ReprocessScript(env, Mode(target, inject), between, input.session, k + 1, None), NEVER, k + 1);
    var whole := Execute(RunScript(env, Mode(target, inject), input), NEVER, 1);
    between + RowsOf(more.effects) == rows + RowsOf(whole.effects) && more.status == whole.status
  }

  /** Resuming equals running whole: if a run to stage k finished, reprocessing from the next stage to
      target t leaves the store, row for row, as one run to t would have, and ends with the same status,
      also when a later stage fails, exactly unless the delivery that resuming forgets makes a difference
      to the one text typed in between.  Earlier rows of the session do not matter. */
  lemma {:induction false} ResumeEqualsWhole(env: Env, k: int, target: int, inject: int, input: Input, rows: seq<Row>)
    requires 1 <= k <= 2 && k < target
    requires Execute(RunScript(env, Mode(k, inject), input), NEVER, 1).status == FINISHED
    ensures input.audio.Some? && env.stt(input.audio.value).Heard?
    ensures ResumesWhole(env, k, target, inject, input, rows)
            <==> !DeliveryMatters(env, k, Mode(target, inject), Heard1(env, input).text, input.delivery)
  {
    ResumeRelated(env, k, target, inject, input, rows);
    ResumesIffStored(env, k, target, inject, input, rows);
    var a := Heard1(env, input);
    ResumedIff(env, k, Mode(target, inject), a.session, a.text, input.delivery);
  }

  lemma ResumesIffStored(env: Env, k: int, target: int, inject: int, input: Input, rows: seq<Row>)
    requires input.audio.Some? && env.stt(input.audio.value).Heard? && ResumeStores(env, k, target, inject, input, rows)
    requires RowsOf(Execute(RunScript(env, Mode(k, inject), input), NEVER, 1).effects)
             == Storage(RunScript(env, Mode(k, inject), input)).rows
    ensures var a, mode := Heard1(env, input), Mode(target, inject);
            var own := Resumed(env, k, mode, a.session, a.text, input.delivery);
            var plain := Resumed(env, k, mode, a.session, a.text, PLAIN);
            ResumesWhole(env, k, target, inject, input, rows)
            <==> own.rows == plain.rows && StatusOf(own.end) == StatusOf(plain.end)
  {
    var one, whole := RunScript(env, Mode(k, inject), input), RunScript(env, Mode(target, inject), input);
    var between := rows + RowsOf(Execute(one, NEVER, 1).effects);
    var more := ReprocessScript(env, Mode(target, inject), between, input.session, k + 1, None);
    var a := Heard1(env, input);
    FromStorage(one, more, whole, rows, k + 1, Resumed(env, k, Mode(target, inject), a.session, a.text, input.delivery));
  }

  lemma ResumeRelated(env: Env, k: int, target: int, inject: int, input: Input, rows: seq<Row>)
    requires 1 <= k <= 2 && k < target
    requires Execute(RunScript(env, Mode(k, inject), input), NEVER, 1).status == FINISHED
    ensures input.audio.Some? && env.stt(input.audio.value).Heard?
    ensures RowsOf(Execute(RunScript(env, Mode(k, inject), input), NEVER, 1).effects)
            == Storage(RunScript(env, Mode(k, inject), input)).rows
    ensures ResumeStores(env, k, target, inject, input, rows)
  {
    var one := RunScript(env, Mode(k, inject), input);
    ExecuteStores(one, 1);
    NeverFinished(one);
    if k == 1 {
      ResumeAfterOne(env, k, target, inject, input, rows);
    } else {
      ResumeAfterTwo(env, k, target, inject, input, rows);
    }
  }

  lemma FromStorage(one: seq<Item>, more: seq<Item>, whole: seq<Item>, rows: seq<Row>, base: int, own: Storing)
    requires Storage(whole) == Storing(Storage(one).rows + own.rows, own.end)
    ensures var between := rows + RowsOf(Execute(one, NEVER, 1).effects);
            between + RowsOf(Execute(more, NEVER, base).effects) == rows + RowsOf(Execute(whole, NEVER, 1).effects)
            <==> Storage(more).rows == own.rows
    ensures Execute(more, NEVER, base).status == StatusOf(Storage(more).end)
    ensures Execute(whole, NEVER, 1).status == StatusOf(own.end)
  {
    ExecuteStores(one, 1);
    ExecuteStores(more, base);
    ExecuteStores(whole, 1);
    Regroup(rows, Storage(one).rows, own.rows);
    SameEnd(rows + Storage(one).rows, Storage(more).rows, own.rows);
  }

  lemma SameEnd<T>(a: seq<T>, b: seq<T>, c: seq<T>)
    ensures a + b == a + c <==> b == c
  {
    if a + b == a + c {
      assert b == (a + b)[|a|..] == (a + c)[|a|..] == c;
    }
  }

  // An injector that cannot deliver in one particular way, and two stages that always answer.
  function Picky(d: Delivery): Env
  {
    Env(_ => Heard("a", "ko", "p"), _ => Wrote("b", "p"), _ => Wrote("c", "p"),
        (text, e) => if e == d then InjectRaised else Typed, _ => false, _ => false)
  }

  const PICKY_MODE := Mode(3, 2)

  lemma PickyLaterStores(d: Delivery, e: Delivery, arts: map<int, Artifact>)
    requires 1 in arts && arts[1].session == 0
    ensures Storage(LaterScript(Picky(d), PICKY_MODE, arts, 2, e)) ==
            if e == d then Storing([Row(0, 2, "b", "p")], Stops(ERROR))
            else Storing([Row(0, 2, "b", "p")] + [Row(0, 3, "c", "p")], Goes)
  {
    LaterIsStored(Picky(d), PICKY_MODE, arts, e);
  }

  lemma PickyRunStores(d: Delivery, target: int)
    requires target == 1 || target == 3
    ensures Storage(RunScript(Picky(d), Mode(target, 2), Input(true, Some([]), 0, d))) ==
            if target == 1 then Storing([Row(0, 1, "a", "p")], Goes)
            else Storing([Row(0, 1, "a", "p")] + [Row(0, 2, "b", "p")], Stops(ERROR))
  {
    var mode, a := Mode(target, 2), Artifact(0, 1, "a", "ko", "p", None);
    FirstStorage(Picky(d), mode, a, d);
    DeliverStorage(Picky(d), mode, a, d);
    InjectStorage(Picky(d), mode, a, d);
    PickyLaterStores(d, d, map[1 := a]);
    StorageConcat(FirstScript(Picky(d), mode, a, d), LaterScript(Picky(d), mode, map[1 := a], 2, d));
  }

  /** Default delivery cannot be dropped: for every other one there is an injector with which a resumed
      run ends better than the whole one and with a row more, because resuming forgets the delivery. */
  lemma ResumeNeedsDefaultDelivery(d: Delivery)
    requires d != PLAIN
    ensures var env, input := Picky(d), Input(true, Some([]), 0, d);
            var first := Execute(RunScript(env, Mode(1, 2), input), NEVER, 1);
            var between := RowsOf(first.effects);
            var more := Execute(ReprocessScript(env, PICKY_MODE, between, 0, 2, None), NEVER, 2);
            var whole := Execute(RunScript(env, PICKY_MODE, input), NEVER, 1);
            && first.status == more.status == FINISHED && whole.status == ERROR
            && |between + RowsOf(more.effects)| == 3 && |RowsOf(whole.effects)| == 2
  {
    var env, input := Picky(d), Input(true, Some([]), 0, d);
    var row := Row(0, 1, "a", "p");
    PickyRunStores(d, 1);
    PickyRunStores(d, 3);
    ExecuteStores(RunScript(env, Mode(1, 2), input), 1);
    ExecuteStores(RunScript(env, PICKY_MODE, input), 1);
    Reload([], 0, "a", "p");
    assert [] + [row] == [row];
    var arts := Load([row], 0);
    assert arts[1 := arts[1]] == arts;
    var later := LaterScript(env, PICKY_MODE, arts, 2, PLAIN);
    assert ReprocessScript(env, PICKY_MODE, [row], 0, 2, None) == [] + later == later;
    PickyLaterStores(d, PLAIN, arts);
    ExecuteStores(later, 2);
  }

  // ---------- the same effects ----------

  // Resuming after a Korean stage 1 does what follows it in the run.
  lemma ResumesFromOne(env: Env, long: Mode, rows: seq<Row>, a: Artifact)
    requires a.stage == 1 && a.language == "ko" && a.injected.None? && long.target >= 2
    ensures ReprocessScript(env, long, rows + [Row(a.session, 1, a.text, a.provider)], a.session, 2, None)
            == LaterScript(env, long, map[1 := a], 2, PLAIN)
  {
    Reload(rows, a.session, a.text, a.provider);
    var arts := Load(rows + [Row(a.session, 1, a.text, a.provider)], a.session);
    assert arts[1 := arts[1]] == arts && arts[1] == a;
    var later := LaterScript(env, long, arts, 2, PLAIN);
    assert [] + later == later;
  }

  lemma ScriptsComposeAfterOne(env: Env, k: int, target: int, inject: int, input: Input, rows: seq<Row>)
    requires k == 1 && k < target && input.delivery == PLAIN
    requires Storage(RunScript(env, Mode(k, inject), input)).end.Goes?
    requires input.audio.Some? && env.stt(input.audio.value).Heard? ==> env.stt(input.audio.value).language == "ko"
    ensures var one := RunScript(env, Mode(k, inject), input);
            RunScript(env, Mode(target, inject), input) ==
            one + ReprocessScript(env, Mode(target, inject), rows + Storage(one).rows, input.session, k + 1, None)
  {
    var long := Mode(target, inject);
    RunStorage(env, Mode(k, inject), input);
    var a := Heard1(env, input);
    var first := FirstScript(env, long, a, PLAIN);
    assert RunScript(env, Mode(k, inject), input) == first + [] == first;
    ResumesFromOne(env, long, rows, a);
  }

  lemma ScriptsComposeAfterTwo(env: Env, k: int, target: int, inject: int, input: Input, rows: seq<Row>)
    requires k == 2 && k < target && input.delivery == PLAIN
    requires Storage(RunScript(env, Mode(k, inject), input)).end.Goes?
    requires input.audio.Some? && env.stt(input.audio.value).Heard? ==> env.stt(input.audio.value).language == "ko"
    ensures var one := RunScript(env, Mode(k, inject), input);
            RunScript(env, Mode(target, inject), input) ==
            one + ReprocessScript(env, Mode(target, inject), rows + Storage(one).rows, input.session, k + 1, None)
  {
    var long := Mode(target, inject);
    TwoRows(env, inject, input);
    var a := Heard1(env, input);
    var o := env.correct(a.text);
    var first, second := FirstScript(env, long, a, PLAIN), StageScript(env, long, 2, a, o, PLAIN);
    assert RunScript(env, Mode(k, inject), input) == first + second by {
      assert second + [] == second;
    }
    ReloadTwo(rows, a.session, a.text, a.provider, o.text, o.provider);
    var row1, row2 := Row(a.session, 1, a.text, a.provider), Row(a.session, 2, o.text, o.provider);
    assert rows + ([row1] + [row2]) == (rows + [row1]) + [row2];
    var arts := Load((rows + [row1]) + [row2], a.session);
    assert arts[1 := arts[1]] == arts && arts[2] == StageArtifact(2, a, o.text, o.provider);
    var later := LaterScript(env, long, arts, 3, PLAIN);
    assert [] + later == later;
    Regroup(first, second, later);
  }

  /** The script of a longer run is that of the shorter one and then the one that resumes it. */
  lemma ScriptsCompose(env: Env, k: int, target: int, inject: int, input: Input, rows: seq<Row>)
    requires 1 <= k <= 2 && k < target && input.delivery == PLAIN
    requires Storage(RunScript(env, Mode(k, inject), input)).end.Goes?
    requires input.audio.Some? && env.stt(input.audio.value).Heard? ==> env.stt(input.audio.value).language == "ko"
    ensures var one := RunScript(env, Mode(k, inject), input);
            RunScript(env, Mode(target, inject), input) ==
            one + ReprocessScript(env, Mode(target, inject), rows + Storage(one).rows, input.session, k + 1, None)
  {
    if k == 1 {
      ScriptsComposeAfterOne(env, k, target, inject, input, rows);
    } else {
      ScriptsComposeAfterTwo(env, k, target, inject, input, rows);
    }
  }

  /** When typing needs no extra key or method and the speech was Korean, resuming also has the very
      effects the whole run would have had, in order, up to how the last handler reports an exception. */
  lemma ResumeHasTheSameEffects(env: Env, k: int, target: int, inject: int, input: Input, rows: seq<Row>)
    requires 1 <= k <= 2 && k < target && input.delivery == PLAIN
    requires Execute(RunScript(env, Mode(k, inject), input), NEVER, 1).status == FINISHED
    requires input.audio.Some? && env.stt(input.audio.value).Heard? ==> env.stt(input.audio.value).language == "ko"
    ensures var first := Execute(RunScript(env, Mode(k, inject), input), NEVER, 1);
            var more := Perform(ReprocessScript(env, Mode(target, inject), rows + RowsOf(first.effects), input.session, k + 1, None), NEVER, 0);
            var whole := Perform(RunScript(env, Mode(target, inject), input), NEVER, 0);
            first.effects != [] && whole.effects == Body(first) + more.effects && whole.end == more.end
  {
    var one := RunScript(env, Mode(k, inject), input);
    ExecuteStores(one, 1);
    NeverFinished(one);
    ScriptsCompose(env, k, target, inject, input, rows);
    PerformStores(one, 0);
    var more := ReprocessScript(env, Mode(target, inject), rows + Storage(one).rows, input.session, k + 1, None);
    PerformConcat(one, more, NEVER, 0);
    PollsOnlyCut(more, NEVER, Perform(one, NEVER, 0).polled, 0);
    NeverCanceled(more, 0);
    NeverCanceled(more, Perform(one, NEVER, 0).polled);
  }

  lemma {:induction false} NeverCanceled(items: seq<Item>, n: nat)
    ensures Perform(items, NEVER, n).end.Ended? ==> Perform(items, NEVER, n).end.status == ERROR
    decreases |items|
  {
    if items != [] {
      NeverCanceled(items[1..], if items[0].Poll? then n + 1 else n);
    }
  }

  // Only a script that goes through finishes.
  lemma {:induction false} NeverFinished(items: seq<Item>)
    ensures StatusOf(Storage(items).end) == FINISHED <==> Storage(items).end.Goes?
  {
    if items != [] {
      NeverFinished(items[1..]);
    }
  }

  // ---------- reprocessing leaves earlier stages alone ----------

  lemma {:induction false} StoredAreItems(items: seq<Item>, polls: Polls, n: nat)
    ensures forall e :: e in Perform(items, polls, n).effects && e.Stored? ==> Do(e) in items
    decreases |items|
  {
    if items != [] && (items[0].Do? || (items[0].Poll? && !polls(n))) {
      StoredAreItems(items[1..], polls, if items[0].Poll? then n + 1 else n);
    }
  }

  lemma StageItemsFrom(env: Env, mode: Mode, stage: int, source: Artifact, o: LlmResult, d: Delivery)
    ensures forall e :: Do(e) in StageScript(env, mode, stage, source, o, d) && e.Stored? ==>
              e.row.stage == stage && e.row.session == source.session
  {
  }

  lemma {:induction false} LaterItemsFrom(env: Env, mode: Mode, arts: map<int, Artifact>, from: int, d: Delivery, s: Id)
    requires 1 in arts && arts[1].session == s && (2 in arts ==> arts[2].session == s)
    ensures forall e :: Do(e) in LaterScript(env, mode, arts, from, d) && e.Stored? && from <= 3 ==>
              e.row.stage >= from && e.row.session == s
  {
    var o := env.correct(arts[1].text);
    StageItemsFrom(env, mode, 2, arts[1], o, d);
    if o.Wrote? {
      var a := StageArtifact(2, arts[1], o.text, o.provider);
      StageItemsFrom(env, mode, 3, a, env.report(a.text), d);
    }
    var source := if 2 in arts then arts[2] else arts[1];
    StageItemsFrom(env, mode, 3, source, env.report(source.text), d);
  }

  /** Without a seed, reprocessing adds no row for a stage before the one it starts from and none for
      another session, whatever fails and whenever it is canceled. */
  lemma ReprocessStoresFromItsStage(env: Env, mode: Mode, rows: seq<Row>, s: Id, from: int, polls: Polls)
    requires 1 <= from <= 3
    ensures forall e :: e in Execute(ReprocessScript(env, mode, rows, s, from, None), polls, from).effects && e.Stored? ==>
              e.row.stage >= from && e.row.session == s
  {
    var items := ReprocessScript(env, mode, rows, s, from, None);
    StoredAreItems(items, polls, 0);
    LoadedSession(rows, s, 1);
    LoadedSession(rows, s, 2);
    var arts := Load(rows, s);
    if from != 1 && 1 in arts {
      LaterItemsFrom(env, Raised(mode, from), arts, from, PLAIN, s);
      assert arts[1 := arts[1]] == arts;
      assert items == LaterScript(env, Raised(mode, from), arts, from, PLAIN);
    }
  }

  lemma {:induction false} LoadedSession(rows: seq<Row>, s: Id, stage: int)
    ensures Latest(rows, s, stage).Some? ==> Latest(rows, s, stage).value.session == s
  {
    if rows != [] {
      LoadedSession(rows[..|rows| - 1], s, stage);
    }
  }

  /** An edited text is stored but not used when reprocessing starts at stage 3 and stage 2 has a row:
      everything after the seed's own row is what any other seed, or none, would give. */
  lemma SeedIsIgnoredFromStageThree(env: Env, mode: Mode, rows: seq<Row>, s: Id, seed: string)
    requires Latest(rows, s, 1).Some? && Latest(rows, s, 2).Some?
    ensures ReprocessScript(env, mode, rows, s, 3, Some(seed)) ==
            [Do(Stored(Row(s, 1, seed, Latest(rows, s, 1).value.provider)))] + ReprocessScript(env, mode, rows, s, 3, None)
  {
    var arts := Load(rows, s);
    assert 1 in arts && 2 in arts;
    assert arts[1 := arts[1]] == arts;
    var later := LaterScript(env, Raised(mode, 3), arts, 3, PLAIN);
    assert [] + later == later;
  }
}
