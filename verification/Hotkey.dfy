/** `KeyDebouncer` and `HotkeyManager`, each method proved to perform its step of `HotkeySpec`. */
module Hotkey {
  import opened Wrappers
  import opened KeyBinding
  import opened HotkeySpec
  import HotkeyProofs

  class KeyDebouncer {
    const intervalMs: int
    var lastAccepted: map<int, real>

    constructor (intervalMs: int)
      ensures this.intervalMs == intervalMs && lastAccepted == map[]
    {
      this.intervalMs, lastAccepted := intervalMs, map[];
    }

    method Accept(vk: int, repeat: bool, now: real) returns (ok: bool)
      modifies this
      ensures ok == Accepts(old(lastAccepted), intervalMs, vk, repeat, now)
      ensures lastAccepted == if ok then old(lastAccepted)[vk := now] else old(lastAccepted)
    {
      if !repeat {
        lastAccepted := lastAccepted[vk := now];
        return true;
      }
      var last := if vk in lastAccepted then lastAccepted[vk] else 0.0;
      var elapsed := (now - last) * 1000.0;
      if elapsed < intervalMs as real {
        return false;
      }
      lastAccepted := lastAccepted[vk := now];
      return true;
    }

    method Reset()
      modifies this
      ensures lastAccepted == map[]
    {
      lastAccepted := map[];
    }
  }

  // What the attempts to install the keyboard hook come to.
  function Hooked(outcomes: nat -> bool, attempts: nat): bool
  {
    attempts > 0 && (outcomes(attempts - 1) || Hooked(outcomes, attempts - 1))
  }

  lemma {:induction false} HookedEarly(outcomes: nat -> bool, i: nat, attempts: nat)
    requires i < attempts && outcomes(i)
    ensures Hooked(outcomes, attempts)
  {
    if i < attempts - 1 {
      HookedEarly(outcomes, i, attempts - 1);
    }
  }

  class HotkeyManager {
    const debouncer: KeyDebouncer
    var mode: Mode
    var recordState: RecordState
    var bindings: seq<Entry>
    var pressedModifiers: set<Modifier>
    var autoSendEnabled: bool
    var started: bool
    ghost var log: seq<Signal>

    ghost function View(): State
      reads this, debouncer
    {
      State(mode, recordState, bindings, pressedModifiers, autoSendEnabled, started,
            debouncer.lastAccepted, debouncer.intervalMs, log)
    }

    constructor (debounceMs: int, autoSend: bool)
      ensures fresh(debouncer) && View() == Fresh(debounceMs, autoSend)
    {
      debouncer := new KeyDebouncer(debounceMs);
      mode, recordState, bindings, pressedModifiers := PTT, IDLE, [], {};
      autoSendEnabled, started, log := autoSend, false, [];
    }

    // `_binding_for_action` and the chord of the binding found.
    method BindingForAction(action: Action) returns (c: Option<KeyChord>)
      ensures c == Find(bindings, action)
    {
      var i := 0;
      while i < |bindings|
        invariant 0 <= i <= |bindings|
        invariant Find(bindings, action) == Find(bindings[i..], action)
      {
        if bindings[i].action == action {
          return Some(bindings[i].chord);
        }
        assert bindings[i..][1..] == bindings[i + 1..];
        i := i + 1;
      }
      return None;
    }

    method EmitRecordStart()
      modifies this`recordState, this`log
      ensures recordState == RECORDING && log == old(log) + [Started]
    {
      recordState := RECORDING;
      log := log + [Started];
    }

    method FinishRecording(autoSend: bool)
      modifies this`recordState, this`log
      ensures View() == Finished(old(View()), autoSend)
    {
      recordState := IDLE;
      if autoSend {
        log := log + [AutoSent];
      } else {
        log := log + [Stopped];
      }
    }

    method EmitCancel()
      modifies this`recordState, this`log
      ensures recordState == IDLE && log == old(log) + [Canceled]
    {
      recordState := IDLE;
      log := log + [Canceled];
    }

    method SetMode(mode: Mode)
      modifies this`mode, this`recordState, this`log
      ensures View() == WithMode(old(View()), mode)
    {
      this.mode := mode;
      if recordState == RECORDING {
        FinishRecording(false);
      }
    }

    method SetAutoSendEnabled(enabled: bool)
      modifies this`autoSendEnabled
      ensures View() == old(View()).(autoSend := enabled)
    {
      autoSendEnabled := enabled;
    }

    method Register(id: string, action: Action, a: Attempt) returns (ok: bool)
      modifies this`bindings
      ensures ok == ChordOf(a).Some?
      ensures bindings == Registered(old(bindings), id, action, a)
    {
      var parsed := ParseBinding(a.parts);
      if !parsed.Parsed? {
        return false;
      }
      if !a.available {
        return false;
      }
      bindings := Put(bindings, Entry(id, action, parsed.chord));
      return true;
    }

    method Unregister(id: string)
      modifies this`bindings
      ensures bindings == Drop(old(bindings), id)
    {
      bindings := Drop(bindings, id);
    }

    // Forgets the built-in bindings, whatever else is registered.
    method UnregisterReserved()
      modifies this`bindings
      ensures bindings == Unreserved(old(bindings))
    {
      var before := bindings;
      var i := 0;
      while i < |before|
        invariant 0 <= i <= |before|
        invariant Unreserved(bindings) == Unreserved(before)
        invariant forall e :: e in bindings && Reserved(e.id) ==> e in before[i..]
      {
        var id := before[i].id;
        assert before[i..] == [before[i]] + before[i + 1..];
        if Reserved(id) {
          UnreservedDrop(bindings, id);
          HotkeyProofs.DropMembers(bindings, id);
          Unregister(id);
        }
        i := i + 1;
      }
      NoneReserved(bindings);
    }

    method RegisterOr(id: string, action: Action, a: Attempt, fallback: Option<Attempt>)
      modifies this`bindings
      ensures bindings == RegisteredOr(old(bindings), id, action, a, fallback)
    {
      var ok := Register(id, action, a);
      if ok {
        return;
      }
      if fallback.None? {
        return;
      }
      var _ := Register(id, action, fallback.value);
    }

    method ApplyConfig(c: Config)
      modifies this
      ensures View() == Configured(old(View()), c)
    {
      SetMode(c.mode);
      SetAutoSendEnabled(c.autoSend);
      UnregisterReserved();
      RegisterOr("record", RECORD, c.record, c.recordFallback);
      RegisterOr("cancel", CANCEL, c.cancel, c.cancelFallback);
    }

    // False where HotkeyRegistrationError is raised.
    method Start(maxAttempts: int, outcomes: nat -> bool) returns (ok: bool)
      modifies this`started
      ensures ok == (old(started) || Hooked(outcomes, if maxAttempts < 1 then 1 else maxAttempts))
      ensures started == ok
    {
      if started {
        return true;
      }
      var attempts := if maxAttempts < 1 then 1 else maxAttempts;
      var attempt := 0;
      while attempt < attempts
        invariant 0 <= attempt <= attempts
        invariant !Hooked(outcomes, attempt) && !started
      {
        if outcomes(attempt) {
          HookedEarly(outcomes, attempt, attempts);
          started := true;
          return true;
        }
        attempt := attempt + 1;
      }
      return false;
    }

    method Stop()
      modifies this, debouncer
      ensures View() == Halted(old(View()))
    {
      if !started {
        return;
      }
      started := false;
      pressedModifiers := {};
      recordState := IDLE;
      log := log + [Shutdown];
      debouncer.Reset();
    }

    method HandleModifier(m: Modifier, down: bool) returns (raised: bool)
      modifies this
      ensures (View(), raised) == ModifierEvent(old(View()), m, down)
    {
      if down {
        pressedModifiers := pressedModifiers + {m};
      } else {
        pressedModifiers := pressedModifiers - {m};
      }
      raised := false;
      if mode == PTT && recordState == RECORDING {
        var c := BindingForAction(RECORD);
        if c.None? {
          return true;
        }
        if m in c.value.modifiers {
          FinishRecording(autoSendEnabled && Alt in pressedModifiers);
        }
      }
    }

    // The record key, with its chord down.
    method HandleRecordKey(vk: int, down: bool, repeat: bool, now: real)
      requires HitsRecord(View(), vk) && !Cancels(View(), vk, down)
      modifies this, debouncer
      ensures View() == MainKeyEvent(old(View()), vk, down, repeat, now)
    {
      if down {
        var accepted := debouncer.Accept(vk, repeat, now);
        if !accepted {
          return;
        }
        if mode == PTT {
          if recordState == IDLE {
            EmitRecordStart();
          }
        } else {
          if recordState == IDLE {
            EmitRecordStart();
          } else {
            FinishRecording(autoSendEnabled && Alt in pressedModifiers);
          }
        }
        return;
      }
      if mode == PTT && recordState == RECORDING {
        FinishRecording(autoSendEnabled && Alt in pressedModifiers);
      }
    }

    /** `_handle_key_event` */
    method HandleKeyEvent(vk: int, down: bool, repeat: bool, now: real) returns (raised: bool)
      modifies this, debouncer
      ensures (View(), raised) == KeyEvent(old(View()), vk, down, repeat, now)
    {
      var modifier := ModifierOf(vk);
      if modifier.Some? {
        raised := HandleModifier(modifier.value, down);
        return;
      }
      raised := false;
      var cancel := BindingForAction(CANCEL);
      if cancel.Some? && vk == cancel.value.vk && down && Matches(cancel.value, pressedModifiers) {
        EmitCancel();
        return;
      }
      var record := BindingForAction(RECORD);
      if record.None? || vk != record.value.vk || !Matches(record.value, pressedModifiers) {
        return;
      }
      HandleRecordKey(vk, down, repeat, now);
    }
  }

  lemma {:induction false} UnreservedDrop(bs: seq<Entry>, id: string)
    requires Reserved(id)
    ensures Unreserved(Drop(bs, id)) == Unreserved(bs)
  {
    if bs != [] {
      UnreservedDrop(bs[1..], id);
      if bs[0].id == id {
        assert Drop(bs, id) == Drop(bs[1..], id);
      } else {
        assert ([bs[0]] + Drop(bs[1..], id))[1..] == Drop(bs[1..], id);
      }
    }
  }

  lemma {:induction false} NoneReserved(bs: seq<Entry>)
    requires forall e :: e in bs ==> !Reserved(e.id)
    ensures Unreserved(bs) == bs
  {
    if bs != [] {
      NoneReserved(bs[1..]);
    }
  }
}
