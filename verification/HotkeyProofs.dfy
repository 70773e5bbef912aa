/** What holds of every run of the hotkey manager. */
module HotkeyProofs {
  import opened Wrappers
  import opened KeyBinding
  import opened HotkeySpec

  // ---------- invariants ----------

  // Left and right variants of a modifier count as one, so the program may believe a modifier
  // released while its other key is down, but never the other way round.
  ghost predicate KeyFor(m: Modifier, held: set<int>)
  {
    exists vk :: vk in held && ModifierOf(vk) == Some(m)
  }

  ghost predicate PressedIsHeld(w: World)
  {
    forall m :: m in w.s.pressed ==> KeyFor(m, w.held)
  }

  predicate MainKeysOnly(bs: seq<Entry>)
  {
    forall e :: e in bs ==> ModifierOf(e.chord.vk).None?
  }

  // A recording has begun and not ended exactly when the last signal is its start.
  predicate LogInv(s: State)
  {
    && (s.recordState == RECORDING <==> s.log != [] && s.log[|s.log| - 1] == Started)
    && Alternates(s.log)
  }

  predicate Alternates(log: seq<Signal>)
  {
    forall i :: 0 <= i < |log| ==> Follows(log, i)
  }

  // No start directly follows a start, and a stop or auto-send directly follows one.
  predicate Follows(log: seq<Signal>, i: int)
    requires 0 <= i < |log|
  {
    && (log[i] == Started ==> i == 0 || log[i - 1] != Started)
    && (log[i] == Stopped || log[i] == AutoSent ==> i > 0 && log[i - 1] == Started)
  }

  ghost predicate Inv(w: World)
  {
    && PressedIsHeld(w)
    && MainKeysOnly(w.s.bindings)
    && LogInv(w.s)
    && (!w.s.running ==> w.s.recordState == IDLE && w.s.pressed == {})
  }

  predicate Talking(s: State) { s.mode == PTT && s.recordState == RECORDING }

  // The whole record chord is down, as far as the program and the keyboard are concerned.
  predicate ChordDown(w: World)
  {
    Talking(w.s) ==>
      var c := Find(w.s.bindings, RECORD);
      c.Some? && c.value.modifiers <= w.s.pressed && c.value.vk in w.held
  }

  // ---------- bindings ----------

  lemma {:induction false} FindInside(bs: seq<Entry>, action: Action)
    ensures Find(bs, action).Some? ==> exists e :: e in bs && e.action == action && e.chord == Find(bs, action).value
  {
    if bs != [] {
      if bs[0].action == action {
        assert bs[0] in bs;
      } else {
        FindInside(bs[1..], action);
      }
    }
  }

  lemma {:induction false} PutMembers(bs: seq<Entry>, e: Entry)
    ensures forall x :: x in Put(bs, e) ==> x in bs || x == e
  {
    if bs != [] && bs[0].id != e.id {
      PutMembers(bs[1..], e);
    }
  }

  lemma {:induction false} DropMembers(bs: seq<Entry>, id: string)
    ensures forall x :: x in Drop(bs, id) <==> x in bs && x.id != id
  {
    if bs != [] {
      DropMembers(bs[1..], id);
      assert bs == [bs[0]] + bs[1..];
    }
  }

  lemma {:induction false} UnreservedMembers(bs: seq<Entry>)
    ensures forall x :: x in Unreserved(bs) <==> x in bs && !Reserved(x.id)
  {
    if bs != [] {
      UnreservedMembers(bs[1..]);
      assert bs == [bs[0]] + bs[1..];
    }
  }

  lemma RegisteredKeeps(bs: seq<Entry>, id: string, action: Action, a: Attempt)
    requires MainKeysOnly(bs)
    ensures MainKeysOnly(Registered(bs, id, action, a))
  {
    if ChordOf(a).Some? {
      AcceptedBindings(a.parts);
      PutMembers(bs, Entry(id, action, ChordOf(a).value));
    }
  }

  lemma RegisteredOrKeeps(bs: seq<Entry>, id: string, action: Action, a: Attempt, fallback: Option<Attempt>)
    requires MainKeysOnly(bs)
    ensures MainKeysOnly(RegisteredOr(bs, id, action, a, fallback))
  {
    RegisteredKeeps(bs, id, action, a);
    if fallback.Some? {
      RegisteredKeeps(bs, id, action, fallback.value);
    }
  }

  lemma ConfiguredKeeps(s: State, c: Config)
    requires MainKeysOnly(s.bindings)
    ensures MainKeysOnly(Configured(s, c).bindings)
  {
    UnreservedMembers(s.bindings);
    var bs := Unreserved(s.bindings);
    RegisteredOrKeeps(bs, "record", RECORD, c.record, c.recordFallback);
    RegisteredOrKeeps(RegisteredOr(bs, "record", RECORD, c.record, c.recordFallback), "cancel", CANCEL, c.cancel, c.cancelFallback);
  }

  // ---------- the log ----------

  // What one step may add to the log.
  predicate Extends(s: State, t: State)
  {
    || (t.log == s.log && t.recordState == s.recordState)
    || (t.log == s.log + [Started] && s.recordState == IDLE && t.recordState == RECORDING)
    || ((t.log == s.log + [Stopped] || t.log == s.log + [AutoSent]) && s.recordState == RECORDING && t.recordState == IDLE)
    || ((t.log == s.log + [Canceled] || t.log == s.log + [Shutdown]) && t.recordState == IDLE)
  }

  lemma ModifierExtends(s: State, m: Modifier, down: bool)
    ensures Extends(s, ModifierEvent(s, m, down).0)
  {
  }

  lemma MainKeyExtends(s: State, vk: int, down: bool, repeat: bool, now: real)
    ensures Extends(s, MainKeyEvent(s, vk, down, repeat, now))
  {
  }

  lemma ConfiguredExtends(s: State, c: Config)
    ensures Configured(s, c).log == WithMode(s, c.mode).log && Configured(s, c).recordState == IDLE
    ensures Extends(s, Configured(s, c))
  {
  }

  lemma StepExtends(w: World, e: Event)
    ensures Extends(w.s, Step(w, e).0.s)
  {
    match e
    case Key(vk, down, repeat, now) =>
      if ModifierOf(vk).Some? {
        ModifierExtends(w.s, ModifierOf(vk).value, down);
      } else {
        MainKeyExtends(w.s, vk, down, repeat, now);
      }
    case ApplyConfig(c) => ConfiguredExtends(w.s, c);
    case _ =>
  }

  lemma ExtendedLog(s: State, t: State)
    requires LogInv(s) && Extends(s, t)
    ensures LogInv(t)
  {
    forall i | 0 <= i < |t.log| ensures Follows(t.log, i) {
      if i < |s.log| {
        assert Follows(s.log, i);
      }
    }
  }

  // ---------- one step ----------

  lemma PressedKeeps(w: World, m: Modifier, vk: int, down: bool)
    requires PressedIsHeld(w) && ModifierOf(vk) == Some(m)
    ensures forall n :: n in (if down then w.s.pressed + {m} else w.s.pressed - {m}) ==> KeyFor(n, Touched(w.held, vk, down))
  {
    forall n | n in (if down then w.s.pressed + {m} else w.s.pressed - {m})
      ensures KeyFor(n, Touched(w.held, vk, down))
    {
      if n == m {
        assert vk in Touched(w.held, vk, down);
      } else {
        assert KeyFor(n, w.held);
        var x :| x in w.held && ModifierOf(x) == Some(n);
        assert x in Touched(w.held, vk, down);
      }
    }
  }

  lemma OtherKeysKeep(w: World, vk: int, down: bool)
    requires PressedIsHeld(w) && ModifierOf(vk).None?
    ensures forall n :: n in w.s.pressed ==> KeyFor(n, Touched(w.held, vk, down))
  {
    forall n | n in w.s.pressed ensures KeyFor(n, Touched(w.held, vk, down)) {
      assert KeyFor(n, w.held);
      var x :| x in w.held && ModifierOf(x) == Some(n);
      assert x in Touched(w.held, vk, down);
    }
  }

  lemma StepKeeps(w: World, e: Event)
    requires Inv(w)
    ensures Inv(Step(w, e).0)
  {
    StepExtends(w, e);
    ExtendedLog(w.s, Step(w, e).0.s);
    match e
    case Key(vk, down, _, _) =>
      if ModifierOf(vk).Some? {
        PressedKeeps(w, ModifierOf(vk).value, vk, down);
      } else {
        OtherKeysKeep(w, vk, down);
      }
    case ApplyConfig(c) => ConfiguredKeeps(w.s, c);
    case Register(id, action, a) => RegisteredKeeps(w.s.bindings, id, action, a);
    case Unregister(id) => DropMembers(w.s.bindings, id);
    case _ =>
  }

  // The event does not take the record chord away, or change it, under a running push-to-talk.
  predicate Calm(w: World, e: Event)
  {
    (e.Register? || e.Unregister?) && Talking(w.s) ==>
      Find(Step(w, e).0.s.bindings, RECORD) == Find(w.s.bindings, RECORD)
  }

  lemma ModifierKeepsChord(s: State, held: set<int>, vk: int, down: bool)
    requires ChordDown(World(s, held)) && MainKeysOnly(s.bindings) && ModifierOf(vk).Some?
    ensures var (t, raised) := ModifierEvent(s, ModifierOf(vk).value, down);
            !raised && ChordDown(World(t, Touched(held, vk, down)))
  {
    FindInside(s.bindings, RECORD);
  }

  lemma MainKeyKeepsChord(s: State, held: set<int>, vk: int, down: bool, repeat: bool, now: real)
    requires ChordDown(World(s, held))
    ensures ChordDown(World(MainKeyEvent(s, vk, down, repeat, now), Touched(held, vk, down)))
  {
  }

  lemma StepKeepsChord(w: World, e: Event)
    requires Inv(w) && ChordDown(w) && Calm(w, e)
    ensures ChordDown(Step(w, e).0) && !Step(w, e).1
  {
    match e
    case Key(vk, down, repeat, now) =>
      if w.s.running {
        if ModifierOf(vk).Some? {
          ModifierKeepsChord(w.s, w.held, vk, down);
        } else {
          MainKeyKeepsChord(w.s, w.held, vk, down, repeat, now);
        }
      }
    case ApplyConfig(c) => ConfiguredExtends(w.s, c);
    case _ =>
  }

  // ---------- runs ----------

  predicate CalmRun(w: World, es: seq<Event>)
  {
    es == [] || (CalmRun(w, es[..|es| - 1]) && Calm(Run(w, es[..|es| - 1]), es[|es| - 1]))
  }

  lemma {:induction false} RunKeeps(w: World, es: seq<Event>)
    requires Inv(w)
    ensures Inv(Run(w, es))
  {
    if es != [] {
      RunKeeps(w, es[..|es| - 1]);
      StepKeeps(Run(w, es[..|es| - 1]), es[|es| - 1]);
    }
  }

  lemma {:induction false} RunKeepsChord(w: World, es: seq<Event>)
    requires Inv(w) && ChordDown(w) && CalmRun(w, es)
    ensures ChordDown(Run(w, es))
  {
    if es != [] {
      RunKeepsChord(w, es[..|es| - 1]);
      RunKeeps(w, es[..|es| - 1]);
      StepKeepsChord(Run(w, es[..|es| - 1]), es[|es| - 1]);
    }
  }

  lemma FreshInv(intervalMs: int, autoSend: bool, held: set<int>)
    ensures Inv(World(Fresh(intervalMs, autoSend), held)) && ChordDown(World(Fresh(intervalMs, autoSend), held))
  {
  }

  // Only keys and settings, no direct calls of register and unregister.
  predicate ByHand(es: seq<Event>) { forall e :: e in es ==> !e.Register? && !e.Unregister? }

  lemma {:induction false} ByHandIsCalm(w: World, es: seq<Event>)
    requires ByHand(es)
    ensures CalmRun(w, es)
  {
    if es != [] {
      ByHandIsCalm(w, es[..|es| - 1]);
    }
  }
}
