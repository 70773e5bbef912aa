/** Which signal every event gives, with its conditions written out, and what the manager believes is pressed,
    read off the key events. */
module HotkeySignals {
  import opened Wrappers
  import opened KeyBinding
  import opened HotkeySpec
  import opened HotkeyProofs
  import opened HotkeyTheorems

  /** The binding of an action is the first one registered for it that is still there. */
  lemma {:induction false} FindIsFirst(bs: seq<Entry>, action: Action)
    ensures Find(bs, action).None? <==> forall i :: 0 <= i < |bs| ==> bs[i].action != action
    ensures Find(bs, action).Some? ==>
              exists i :: 0 <= i < |bs| && bs[i].action == action && bs[i].chord == Find(bs, action).value
                          && forall j :: 0 <= j < i ==> bs[j].action != action
  {
    if bs != [] && bs[0].action != action {
      var rest := bs[1..];
      FindIsFirst(rest, action);
      if Find(rest, action).Some? {
        var i :| 0 <= i < |rest| && rest[i].action == action && rest[i].chord == Find(rest, action).value
                 && forall j :: 0 <= j < i ==> rest[j].action != action;
        assert bs[i + 1] == rest[i];
        assert forall j :: 1 <= j < i + 1 ==> bs[j] == rest[j - 1];
      } else {
        assert forall j :: 1 <= j < |bs| ==> bs[j] == rest[j - 1];
      }
    }
  }

  // ---------- one key event ----------

  // The chord's main key, with at least its modifiers pressed.
  predicate Strikes(s: State, action: Action, vk: int)
  {
    var c := Find(s.bindings, action);
    c.Some? && c.value.vk == vk && c.value.modifiers <= s.pressed
  }

  // A repeat that comes too soon after the key was last let through; a key never let through counts from zero.
  predicate TooSoon(s: State, vk: int, repeat: bool, now: real)
  {
    repeat && (now - if vk in s.accepted then s.accepted[vk] else 0.0) * 1000.0 < s.intervalMs as real
  }

  predicate StrikesCancel(s: State, vk: int, down: bool) { down && Strikes(s, CANCEL, vk) }

  predicate StrikesRecord(s: State, vk: int, down: bool)
  {
    !StrikesCancel(s, vk, down) && Strikes(s, RECORD, vk)
  }

  // A key of a modifier of the record chord, while talking.
  predicate BreaksChord(s: State, m: Modifier)
  {
    var c := Find(s.bindings, RECORD);
    s.mode == PTT && s.recordState == RECORDING && c.Some? && m in c.value.modifiers
  }

  // The record key ends a recording: let go in push to talk, pressed again in toggle mode.
  predicate EndsByKey(s: State, vk: int, down: bool, repeat: bool, now: real)
  {
    && s.recordState == RECORDING && StrikesRecord(s, vk, down)
    && if down then s.mode == TOGGLE && !TooSoon(s, vk, repeat, now) else s.mode == PTT
  }

  // An end has one signal: auto-send exactly with the setting on and Alt pressed after the event.
  predicate EndedWith(s: State, t: State)
  {
    && t.recordState == IDLE
    && t.log == s.log + [if s.autoSend && Alt in t.pressed then AutoSent else Stopped]
  }

  // Nothing else changes with a key event.
  predicate KeepsSettings(s: State, t: State)
  {
    t.mode == s.mode && t.bindings == s.bindings && t.autoSend == s.autoSend && t.running == s.running && t.intervalMs == s.intervalMs
  }

  /** A modifier key: it is remembered as pressed or not; it ends a push-to-talk recording exactly if the chord
      has that modifier; and it raises exactly if there is no record binding then. */
  lemma ModifierSignals(w: World, vk: int, down: bool, repeat: bool, now: real)
    requires w.s.running && ModifierOf(vk).Some?
    ensures var s, m := w.s, ModifierOf(vk).value;
            var (u, raised) := Step(w, Key(vk, down, repeat, now));
            && u.s.pressed == (if down then s.pressed + {m} else s.pressed - {m})
            && (if BreaksChord(s, m) then EndedWith(s, u.s) else u.s.log == s.log && u.s.recordState == s.recordState)
            && (raised <==> s.mode == PTT && s.recordState == RECORDING && Find(s.bindings, RECORD).None?)
            && KeepsSettings(s, u.s) && u.s.accepted == s.accepted
  {
  }

  /** Every other key: canceled exactly by the cancel chord; started exactly by the record chord going down while
      idle and not too soon; ended exactly as said above; otherwise nothing. */
  lemma MainKeySignals(w: World, vk: int, down: bool, repeat: bool, now: real)
    requires w.s.running && ModifierOf(vk).None?
    ensures var s := w.s;
            var (u, raised) := Step(w, Key(vk, down, repeat, now));
            && !raised && u.s.pressed == s.pressed && KeepsSettings(s, u.s)
            && (if StrikesCancel(s, vk, down) then u.s.recordState == IDLE && u.s.log == s.log + [Canceled]
                else if s.recordState == IDLE && down && StrikesRecord(s, vk, down) && !TooSoon(s, vk, repeat, now) then
                  u.s.recordState == RECORDING && u.s.log == s.log + [Started]
                else if EndsByKey(s, vk, down, repeat, now) then EndedWith(s, u.s)
                else u.s.recordState == s.recordState && u.s.log == s.log)
            && u.s.accepted == (if down && StrikesRecord(s, vk, down) && !TooSoon(s, vk, repeat, now) then s.accepted[vk := now]
                                else s.accepted)
  {
    var s, u := w.s, Step(w, Key(vk, down, repeat, now)).0.s;
    assert Cancels(s, vk, down) <==> StrikesCancel(s, vk, down);
    assert HitsRecord(s, vk) <==> Strikes(s, RECORD, vk);
    assert Accepts(s.accepted, s.intervalMs, vk, repeat, now) <==> !TooSoon(s, vk, repeat, now);
    assert u.log == s.log || |u.log| == |s.log| + 1;
  }

  /** Keys go by while the hook does not run. */
  lemma NothingUnhooked(w: World, vk: int, down: bool, repeat: bool, now: real)
    requires !w.s.running
    ensures Step(w, Key(vk, down, repeat, now)).0.s == w.s && !Step(w, Key(vk, down, repeat, now)).1
  {
  }

  /** Settings: each changes what it says, a mode or the whole configuration ends a recording with a stop and
      never an auto-send, and stopping the manager forgets what is pressed, recording and debounced. */
  lemma SettingSignals(w: World, e: Event)
    requires !e.Key? && !e.Register? && !e.Unregister?
    ensures var s, t := w.s, Step(w, e).0.s;
            && !Step(w, e).1
            && t.mode == (if e.SetMode? then e.mode else if e.ApplyConfig? then e.config.mode else s.mode)
            && t.autoSend == (if e.SetAutoSend? then e.on else if e.ApplyConfig? then e.config.autoSend else s.autoSend)
            && t.running == (if e.Start? then s.running || e.hooked else s.running && !e.Stop?)
            && t.pressed == (if e.Stop? && s.running then {} else s.pressed)
            && t.accepted == (if e.Stop? && s.running then map[] else s.accepted)
            && t.intervalMs == s.intervalMs
            && (!e.ApplyConfig? ==> t.bindings == s.bindings)
            && t.log == s.log + (if e.Stop? && s.running then [Shutdown]
                                 else if (e.SetMode? || e.ApplyConfig?) && s.recordState == RECORDING then [Stopped] else [])
            && t.recordState == (if e.SetMode? || e.ApplyConfig? || (e.Stop? && s.running) then IDLE else s.recordState)
  {
  }

  // ---------- runs ----------

  // Whether the hook runs, by the starts and stops.
  predicate Hooked(es: seq<Event>)
  {
    es != [] &&
    var init, e := es[..|es| - 1], es[|es| - 1];
    if e.Start? then Hooked(init) || e.hooked else !e.Stop? && Hooked(init)
  }

  // The keys of a modifier.
  function KeysOf(m: Modifier): set<int>
  {
    match m
    case Ctrl => {0x11, 0xA2, 0xA3}
    case Shift => {0x10, 0xA0, 0xA1}
    case Alt => {0x12, 0xA4, 0xA5}
    case Win => {0x5B, 0x5C, 0x5D}
  }

  lemma ModifierByKeys(vk: int, m: Modifier)
    ensures ModifierOf(vk) == Some(m) <==> vk in KeysOf(m)
  {
  }

  // The last event of any of the modifier's keys was a press, with the hook running ever since.
  predicate LastPressed(es: seq<Event>, m: Modifier)
  {
    es != [] &&
    var init, e := es[..|es| - 1], es[|es| - 1];
    if e.Key? && e.vk in KeysOf(m) && Hooked(init) then e.down
    else !e.Stop? && LastPressed(init, m)
  }

  // What was last said about auto-send.
  predicate AutoSendSet(es: seq<Event>, initial: bool)
  {
    if es == [] then initial
    else
      var init, e := es[..|es| - 1], es[|es| - 1];
      if e.SetAutoSend? then e.on else if e.ApplyConfig? then e.config.autoSend else AutoSendSet(init, initial)
  }

  predicate Matching(s: State, es: seq<Event>, initial: bool, m: Modifier)
  {
    && s.running == Hooked(es) && s.autoSend == AutoSendSet(es, initial)
    && (m in s.pressed <==> LastPressed(es, m)) && (!s.running ==> s.pressed == {})
  }

  lemma KeyMatches(w: World, init: seq<Event>, e: Event, initial: bool, m: Modifier)
    requires Matching(w.s, init, initial, m) && e.Key?
    ensures var t := Step(w, e).0.s;
            && t.running == w.s.running && t.autoSend == w.s.autoSend && (!t.running ==> t.pressed == {})
            && (m in t.pressed <==> if e.vk in KeysOf(m) && w.s.running then e.down else m in w.s.pressed)
  {
    ModifierByKeys(e.vk, m);
    if !w.s.running {
      NothingUnhooked(w, e.vk, e.down, e.repeat, e.now);
    } else if ModifierOf(e.vk).Some? {
      ModifierSignals(w, e.vk, e.down, e.repeat, e.now);
    } else {
      MainKeySignals(w, e.vk, e.down, e.repeat, e.now);
    }
  }

  lemma RegistrationMatches(w: World, e: Event)
    requires e.Register? || e.Unregister?
    ensures Step(w, e).0.s == w.s.(bindings := Step(w, e).0.s.bindings)
  {
  }

  lemma StepMatches(w: World, init: seq<Event>, e: Event, initial: bool, m: Modifier)
    requires Matching(w.s, init, initial, m)
    ensures Matching(Step(w, e).0.s, init + [e], initial, m)
  {
    assert (init + [e])[..|init|] == init;
    if e.Key? {
      KeyMatches(w, init, e, initial, m);
    } else if e.Register? || e.Unregister? {
      RegistrationMatches(w, e);
    } else {
      SettingSignals(w, e);
    }
  }

  /** Over every run from start-up: the manager believes a modifier pressed exactly if the last event of one of
      its keys was a press and the hook has not stopped since; and it runs and is set as was last said. */
  lemma {:induction false} PressedIff(intervalMs: int, initial: bool, held: set<int>, es: seq<Event>, m: Modifier)
    ensures Matching(Run(Begin(intervalMs, initial, held), es).s, es, initial, m)
  {
    if es != [] {
      var init, e := es[..|es| - 1], es[|es| - 1];
      PressedIff(intervalMs, initial, held, init, m);
      StepMatches(Run(Begin(intervalMs, initial, held), init), init, e, initial, m);
      assert es == init + [e];
    }
  }

  /** So over every run: a key event that ends a recording, other than by the cancel chord, signals an auto-send
      exactly if that was last switched on and the last event of an Alt key was a press, and a stop otherwise. */
  lemma AutoSendIff(intervalMs: int, initial: bool, held: set<int>, es: seq<Event>, vk: int, down: bool, repeat: bool, now: real)
    requires var s := Run(Begin(intervalMs, initial, held), es).s;
             && s.running
             && (if ModifierOf(vk).Some? then BreaksChord(s, ModifierOf(vk).value) else EndsByKey(s, vk, down, repeat, now))
    ensures var e := Key(vk, down, repeat, now);
            var s, t := Run(Begin(intervalMs, initial, held), es).s, Run(Begin(intervalMs, initial, held), es + [e]).s;
            && t.recordState == IDLE
            && t.log == s.log + [if AutoSendSet(es, initial) && LastPressed(es + [e], Alt) then AutoSent else Stopped]
  {
    var w, e := Begin(intervalMs, initial, held), Key(vk, down, repeat, now);
    PressedIff(intervalMs, initial, held, es, Alt);
    PressedIff(intervalMs, initial, held, es + [e], Alt);
    RunSnoc(w, es, e);
    if ModifierOf(vk).Some? {
      ModifierSignals(Run(w, es), vk, down, repeat, now);
    } else {
      MainKeySignals(Run(w, es), vk, down, repeat, now);
      NotBothEnds(Run(w, es).s, vk, down, repeat, now);
    }
  }

  // Ending is none of the cases before it.
  lemma NotBothEnds(s: State, vk: int, down: bool, repeat: bool, now: real)
    requires EndsByKey(s, vk, down, repeat, now)
    ensures !StrikesCancel(s, vk, down) && s.recordState != IDLE
  {
  }

  // ---------- bindings ----------

  predicate DistinctIds(bs: seq<Entry>) { forall i, j :: 0 <= i < j < |bs| ==> bs[i].id != bs[j].id }

  lemma {:induction false} PutTable(bs: seq<Entry>, e: Entry)
    requires DistinctIds(bs)
    ensures DistinctIds(Put(bs, e)) && forall x :: x in Put(bs, e) <==> x == e || (x in bs && x.id != e.id)
  {
    if bs != [] {
      var rest := bs[1..];
      assert DistinctIds(rest) by {
        assert forall i :: 0 <= i < |rest| ==> rest[i] == bs[i + 1];
      }
      assert forall x :: x in rest ==> x.id != bs[0].id;
      assert forall x :: x in bs <==> x == bs[0] || x in rest;
      PutTable(rest, e);
      if bs[0].id == e.id {
        assert Put(bs, e) == [e] + rest;
      } else {
        assert Put(bs, e) == [bs[0]] + Put(rest, e);
        assert forall i :: 0 <= i < |Put(rest, e)| ==> Put(rest, e)[i] in Put(rest, e);
      }
    }
  }

  /** A registration that is accepted replaces the binding of its identifier and touches no other; one that is
      refused changes nothing; and unregistering removes exactly the binding named. */
  lemma RegistrationTable(w: World, e: Event)
    requires (e.Register? || e.Unregister?) && DistinctIds(w.s.bindings)
    ensures var s, t := w.s, Step(w, e).0.s;
            && t == s.(bindings := t.bindings)
            && (e.Unregister? ==> forall x :: x in t.bindings <==> x in s.bindings && x.id != e.id)
            && (e.Register? && (!e.attempt.available || !Meaning(e.attempt.parts).Parsed?) ==> t.bindings == s.bindings)
            && (e.Register? && e.attempt.available && Meaning(e.attempt.parts).Parsed? ==>
                  forall x :: x in t.bindings <==>
                                x == Entry(e.id, e.action, Meaning(e.attempt.parts).chord) || (x in s.bindings && x.id != e.id))
  {
    if e.Unregister? {
      DropMembers(w.s.bindings, e.id);
    } else if ChordOf(e.attempt).Some? {
      PutTable(w.s.bindings, Entry(e.id, e.action, ChordOf(e.attempt).value));
    }
  }

  // ---------- key names ----------

  lemma NamedKeyShape(name: string)
    ensures name in NAMED_KEYS ==> |name| >= 2 && name[0] != 'f'
  {
  }

  /** The virtual keys of one-character names are those of the upper-case letter and of the digit. */
  lemma CharacterKeys(c: char)
    ensures 'a' <= c <= 'z' ==> VkByName([c]) == Some(c as int - 32)
    ensures '0' <= c <= '9' ==> VkByName([c]) == Some(c as int)
  {
    NamedKeyShape([c]);
  }

  /** The function keys f1 to f12 are numbered from 0x70. */
  lemma FunctionKeyNames(i: nat)
    requires i < 12
    ensures VkByName(["f1", "f2", "f3", "f4", "f5", "f6", "f7", "f8", "f9", "f10", "f11", "f12"][i]) == Some(0x70 + i)
  {
    NamedKeyShape(FUNCTION_KEYS[i]);
    FunctionKeys(i, 0);
  }

  lemma FunctionKeys(i: nat, from: nat)
    requires from <= i < 12
    ensures FunctionKey(["f1", "f2", "f3", "f4", "f5", "f6", "f7", "f8", "f9", "f10", "f11", "f12"][i], from) == Some(0x70 + i)
    decreases i - from
  {
    if from < i {
      FunctionKeys(i, from + 1);
    }
  }

  /** The keys of the navigation block stand in the order of their numbers. */
  lemma NavigationKeys(i: nat)
    requires i < 8
    ensures VkByName(["pageup", "pagedown", "end", "home", "left", "up", "right", "down"][i]) == Some(0x21 + i)
  {
  }

  /** Keys that type a space or a control character have its number, under each of their names. */
  lemma TypingKeys()
    ensures VkByName("space") == Some(' ' as int) && VkByName("tab") == Some('\t' as int) && VkByName("backspace") == Some(8)
  {
  }

  lemma EnterKeys()
    ensures VkByName("enter") == VkByName("return") == Some('\r' as int)
  {
  }

  lemma EscapeKeys()
    ensures VkByName("escape") == VkByName("esc") == Some(27)
  {
  }

  /** And the keys that edit and lock. */
  lemma EditingKeys()
    ensures VkByName("delete") == VkByName("del") == Some(46) && VkByName("insert") == Some(45)
  {
  }

  lemma LockKeys()
    ensures VkByName("pause") == Some(19) && VkByName("capslock") == Some(20) && VkByName("scrolllock") == Some(145)
  {
  }

  /** The names of each modifier; no other part of a binding is one. */
  lemma ModifierNames(name: string)
    ensures Alias(name) == (if name == "ctrl" || name == "control" then {Ctrl}
                            else if name == "shift" then {Shift}
                            else if name == "alt" || name == "menu" then {Alt}
                            else if name == "win" || name == "windows" then {Win} else {})
  {
  }
}
