/** What the repeats of a held key do: when they toggle, and when they start a recording nobody asked for. */
module HotkeyRepeats {
  import opened Wrappers
  import opened KeyBinding
  import opened HotkeySpec
  import opened HotkeyTheorems

  // ---------- toggle mode ----------

  function Repeats(vk: int, ts: seq<real>): seq<Event>
  {
    if ts == [] then [] else Repeats(vk, ts[..|ts| - 1]) + [Key(vk, true, true, ts[|ts| - 1])]
  }

  // The repeats that are let through: each at least the interval after the one before, or the press.
  datatype Taken = Taken(count: nat, last: real)

  function Take(t0: real, ts: seq<real>, intervalMs: int): Taken
  {
    if ts == [] then Taken(0, t0)
    else
      var k, t := Take(t0, ts[..|ts| - 1], intervalMs), ts[|ts| - 1];
      if (t - k.last) * 1000.0 >= intervalMs as real then Taken(k.count + 1, t) else k
  }

  function Ending(s: State): Signal { if ShouldAutoSend(s) then AutoSent else Stopped }

  // Starts and ends by turns.
  function Turns(n: nat, ending: Signal): seq<Signal>
  {
    if n == 0 then [] else Turns(n - 1, ending) + [if n % 2 == 1 then Started else ending]
  }

  // The state after the press and some repeats of which `k` were let through.
  predicate After(s: State, u: State, vk: int, k: Taken)
  {
    && u == s.(recordState := if k.count % 2 == 0 then RECORDING else IDLE,
               log := s.log + Turns(k.count + 1, Ending(s)), accepted := u.accepted)
    && vk in u.accepted && u.accepted[vk] == k.last
  }

  // A toggle key that can be pressed.
  predicate Ready(s: State, vk: int)
  {
    && s.running && s.mode == TOGGLE && s.recordState == IDLE && ModifierOf(vk).None?
    && HitsRecord(s, vk) && !Cancels(s, vk, true)
  }

  lemma PressStarts(w: World, vk: int, t0: real)
    requires Ready(w.s, vk)
    ensures After(w.s, Step(w, Key(vk, true, false, t0)).0.s, vk, Taken(0, t0))
  {
    assert Turns(1, Ending(w.s)) == [] + [Started] == [Started];
  }

  lemma RepeatToggles(s: State, w: World, vk: int, k: Taken, t: real)
    requires Ready(s, vk) && After(s, w.s, vk, k)
    ensures var m := if (t - k.last) * 1000.0 >= s.intervalMs as real then Taken(k.count + 1, t) else k;
            After(s, Step(w, Key(vk, true, true, t)).0.s, vk, m)
  {
    assert HitsRecord(w.s, vk) && !Cancels(w.s, vk, true) && ShouldAutoSend(w.s) == ShouldAutoSend(s);
    var next := if k.count % 2 == 1 then Started else Ending(s);
    assert (s.log + Turns(k.count + 1, Ending(s))) + [next] == s.log + Turns(k.count + 2, Ending(s));
  }

  lemma TakeSnoc(t0: real, init: seq<real>, t: real, intervalMs: int)
    ensures var k := Take(t0, init, intervalMs);
            Take(t0, init + [t], intervalMs) == if (t - k.last) * 1000.0 >= intervalMs as real then Taken(k.count + 1, t) else k
  {
    assert (init + [t])[..|init|] == init;
  }

  // One more repeat after a press and some.
  lemma OneMoreRepeat(w: World, es: seq<Event>, s: State, vk: int, k: Taken, m: Taken, t: real)
    requires Ready(s, vk) && After(s, Run(w, es).s, vk, k)
    requires m == if (t - k.last) * 1000.0 >= s.intervalMs as real then Taken(k.count + 1, t) else k
    ensures After(s, Run(w, es + [Key(vk, true, true, t)]).s, vk, m)
  {
    RepeatToggles(s, Run(w, es), vk, k, t);
    RunSnoc(w, es, Key(vk, true, true, t));
  }

  lemma AfterPress(w: World, vk: int, t0: real)
    requires Ready(w.s, vk)
    ensures After(w.s, Run(w, [Key(vk, true, false, t0)]).s, vk, Taken(0, t0))
  {
    assert [Key(vk, true, false, t0)] == [] + [Key(vk, true, false, t0)];
    RunSnoc(w, [], Key(vk, true, false, t0));
    PressStarts(w, vk, t0);
  }

  lemma {:induction false} HeldKeyAfter(w: World, vk: int, t0: real, ts: seq<real>)
    requires Ready(w.s, vk)
    ensures After(w.s, Run(w, [Key(vk, true, false, t0)] + Repeats(vk, ts)).s, vk, Take(t0, ts, w.s.intervalMs))
    decreases |ts|
  {
    var press := [Key(vk, true, false, t0)];
    if ts == [] {
      AfterPress(w, vk, t0);
      assert press + [] == press;
    } else {
      var init, t := ts[..|ts| - 1], ts[|ts| - 1];
      HeldKeyAfter(w, vk, t0, init);
      assert press + Repeats(vk, ts) == (press + Repeats(vk, init)) + [Key(vk, true, true, t)];
      assert ts == init + [t];
      TakeSnoc(t0, init, t, w.s.intervalMs);
      OneMoreRepeat(w, press + Repeats(vk, init), w.s, vk, Take(t0, init, w.s.intervalMs), Take(t0, ts, w.s.intervalMs), t);
    }
  }

  lemma AfterSays(s: State, u: State, vk: int, k: Taken)
    requires After(s, u, vk, k)
    ensures u.log == s.log + Turns(k.count + 1, Ending(s)) && (u.recordState == RECORDING <==> k.count % 2 == 0)
  {
  }

  /** In toggle mode a key that is simply held down toggles once more for every repeat that comes at least
      the debounce interval after the last one let through, whatever the times of the repeats. */
  lemma HeldKeyTogglesAgain(w: World, vk: int, t0: real, ts: seq<real>)
    requires Ready(w.s, vk)
    ensures var u, k := Run(w, [Key(vk, true, false, t0)] + Repeats(vk, ts)).s, Take(t0, ts, w.s.intervalMs).count;
            && u.log == w.s.log + Turns(k + 1, Ending(w.s))
            && (u.recordState == RECORDING <==> k % 2 == 0)
  {
    HeldKeyAfter(w, vk, t0, ts);
    AfterSays(w.s, Run(w, [Key(vk, true, false, t0)] + Repeats(vk, ts)).s, vk, Take(t0, ts, w.s.intervalMs));
  }

  lemma {:induction false} NoneTakenIff(t0: real, ts: seq<real>, intervalMs: int)
    ensures var k := Take(t0, ts, intervalMs);
            && (k.count == 0 <==> forall t :: t in ts ==> (t - t0) * 1000.0 < intervalMs as real)
            && (k.count == 0 ==> k.last == t0)
  {
    if ts != [] {
      var init, t := ts[..|ts| - 1], ts[|ts| - 1];
      NoneTakenIff(t0, init, intervalMs);
      assert ts == init + [t];
      assert t in ts && forall x :: x in ts <==> x in init || x == t;
    }
  }

  lemma {:induction false} TurnsCount(n: nat, ending: Signal)
    ensures |Turns(n, ending)| == n
  {
    if n > 0 {
      TurnsCount(n - 1, ending);
    }
  }

  /** So the press counts as one exactly if every repeat comes within the interval of it; otherwise there
      is more than one signal. */
  lemma HeldKeyIsOnePressIff(w: World, vk: int, t0: real, ts: seq<real>)
    requires Ready(w.s, vk)
    ensures var u := Run(w, [Key(vk, true, false, t0)] + Repeats(vk, ts)).s;
            var quick := forall t :: t in ts ==> (t - t0) * 1000.0 < w.s.intervalMs as real;
            && (quick <==> u.recordState == RECORDING && u.log == w.s.log + [Started])
            && (!quick ==> |u.log| > |w.s.log| + 1)
  {
    var k := Take(t0, ts, w.s.intervalMs).count;
    HeldKeyTogglesAgain(w, vk, t0, ts);
    NoneTakenIff(t0, ts, w.s.intervalMs);
    TurnsCount(k + 1, Ending(w.s));
    assert Turns(1, Ending(w.s)) == [] + [Started] == [Started];
  }

  // ---------- a recording nobody asked for ----------

  /** In either mode a mere repeat starts a recording exactly if nothing records, the record chord is down,
      it is not the cancel chord, and the interval since the key was last let through has passed. */
  lemma RepeatStartsIff(w: World, vk: int, now: real)
    requires w.s.running && ModifierOf(vk).None?
    ensures var u := Step(w, Key(vk, true, true, now)).0.s;
            u.log == w.s.log + [Started] <==>
              && w.s.recordState == IDLE && HitsRecord(w.s, vk) && !Cancels(w.s, vk, true)
              && Accepts(w.s.accepted, w.s.intervalMs, vk, true, now)
  {
    var u := Step(w, Key(vk, true, true, now)).0.s;
    if u.log == w.s.log + [Started] {
      assert u.log[|w.s.log|] == Started;
    }
  }

  // A record key pressed once and held, a setting of the mode it is in, and a repeat.
  function HeldThroughSettings(a: Attempt, t: real): seq<Event>
    requires ChordOf(a).Some?
  {
    [Start(true)] + [Register("record", RECORD, a)] + [Key(ChordOf(a).value.vk, true, false, 1.0)]
    + [SetMode(PTT)] + [Key(ChordOf(a).value.vk, true, true, t)]
  }

  /** The input: with any unmodified record key held, setting the mode stops the recording, and the next
      repeat after the interval starts one again. */
  lemma RepeatStartsAgain(intervalMs: int, autoSend: bool, a: Attempt, t: real)
    requires ChordOf(a).Some? && ChordOf(a).value.modifiers == {}
    ensures Run(Begin(intervalMs, autoSend, {}), HeldThroughSettings(a, t)).s.log ==
            [Started] + [Stopped] + if (t - 1.0) * 1000.0 >= intervalMs as real then [Started] else []
  {
    var c, w := ChordOf(a).value, Begin(intervalMs, autoSend, {});
    var es := [Start(true)] + [Register("record", RECORD, a)] + [Key(c.vk, true, false, 1.0)];
    PressedRun(intervalMs, autoSend, {}, a);
    RunSnoc(w, es, SetMode(PTT));
    RunSnoc(w, es + [SetMode(PTT)], Key(c.vk, true, true, t));
    AcceptedBindings(a.parts);
    RepeatOf(Run(w, es + [SetMode(PTT)]).s, Entry("record", RECORD, c), t);
  }

  // A repeat of an unmodified record key, when it is the only binding and nothing records.
  lemma RepeatOf(s: State, e: Entry, t: real)
    requires s.bindings == [e] && e.action == RECORD && e.chord.modifiers == {} && s.recordState == IDLE
    ensures var u := MainKeyEvent(s, e.chord.vk, true, true, t);
            u.log == s.log + if Accepts(s.accepted, s.intervalMs, e.chord.vk, true, t) then [Started] else []
  {
    assert s.bindings[0] == e && s.bindings[1..] == [];
    assert Find(s.bindings, CANCEL) == Find(s.bindings[1..], CANCEL) == None;
    assert !Cancels(s, e.chord.vk, true) && HitsRecord(s, e.chord.vk);
  }
}
