/** The hotkey manager as steps over key events and settings changes, beside the physical keyboard.

    `held` is the set of keys down on the real keyboard, which the program cannot see; the manager sees
    an event for every change of it while its hook runs. */
module HotkeySpec {
  import opened Wrappers
  import opened KeyBinding

  datatype Mode = PTT | TOGGLE
  datatype RecordState = IDLE | RECORDING
  datatype Action = RECORD | CANCEL | AUTO_SEND

  // `_bindings` and `_chords`, which always have the same keys, in insertion order.
  datatype Entry = Entry(id: string, action: Action, chord: KeyChord)

  // The callbacks called, in order; `Shutdown` marks a stop of the manager, which calls none.
  datatype Signal = Started | Stopped | AutoSent | Canceled | Shutdown

  datatype State = State(
    mode: Mode,
    recordState: RecordState,
    bindings: seq<Entry>,
    pressed: set<Modifier>,
    autoSend: bool,
    running: bool,
    accepted: map<int, real>,      // when a main key was last accepted, in seconds
    intervalMs: int,
    log: seq<Signal>)

  datatype World = World(s: State, held: set<int>)

  // What a binding string says, and whether the system would let the manager have it.
  datatype Attempt = Attempt(parts: seq<string>, available: bool)
  datatype Config = Config(mode: Mode, autoSend: bool,
                           record: Attempt, recordFallback: Option<Attempt>,
                           cancel: Attempt, cancelFallback: Option<Attempt>)

  datatype Event =
    | Key(vk: int, down: bool, repeat: bool, now: real)
    | SetMode(mode: Mode)
    | SetAutoSend(on: bool)
    | ApplyConfig(config: Config)
    | Register(id: string, action: Action, attempt: Attempt)
    | Unregister(id: string)
    | Start(hooked: bool)
    | Stop

  // ---------- bindings ----------

  function Put(bs: seq<Entry>, e: Entry): seq<Entry>
  {
    if bs == [] then [e]
    else if bs[0].id == e.id then [e] + bs[1..]
    else [bs[0]] + Put(bs[1..], e)
  }

  function Drop(bs: seq<Entry>, id: string): seq<Entry>
  {
    if bs == [] then []
    else (if bs[0].id == id then [] else [bs[0]]) + Drop(bs[1..], id)
  }

  predicate Reserved(id: string) { id == "record" || id == "cancel" }

  function Unreserved(bs: seq<Entry>): seq<Entry>
  {
    if bs == [] then []
    else (if Reserved(bs[0].id) then [] else [bs[0]]) + Unreserved(bs[1..])
  }

  // `_binding_for_action`, as the chord of the binding found.
  function Find(bs: seq<Entry>, action: Action): Option<KeyChord>
  {
    if bs == [] then None
    else if bs[0].action == action then Some(bs[0].chord)
    else Find(bs[1..], action)
  }

  function ChordOf(a: Attempt): Option<KeyChord>
  {
    if a.available && Meaning(a.parts).Parsed? then Some(Meaning(a.parts).chord) else None
  }

  function Registered(bs: seq<Entry>, id: string, action: Action, a: Attempt): seq<Entry>
  {
    if ChordOf(a).Some? then Put(bs, Entry(id, action, ChordOf(a).value)) else bs
  }

  // With a fallback for when the first choice is refused.
  function RegisteredOr(bs: seq<Entry>, id: string, action: Action, a: Attempt, fallback: Option<Attempt>): seq<Entry>
  {
    if ChordOf(a).Some? || fallback.None? then Registered(bs, id, action, a)
    else Registered(bs, id, action, fallback.value)
  }

  // ---------- steps ----------

  function Finished(s: State, autoSend: bool): State
  {
    s.(recordState := IDLE, log := s.log + [if autoSend then AutoSent else Stopped])
  }

  predicate ShouldAutoSend(s: State) { s.autoSend && Alt in s.pressed }

  function WithMode(s: State, mode: Mode): State
  {
    var t := s.(mode := mode);
    if t.recordState == RECORDING then Finished(t, false) else t
  }

  function Configured(s: State, c: Config): State
  {
    var t := WithMode(s, c.mode).(autoSend := c.autoSend);
    var bs := RegisteredOr(Unreserved(t.bindings), "record", RECORD, c.record, c.recordFallback);
    t.(bindings := RegisteredOr(bs, "cancel", CANCEL, c.cancel, c.cancelFallback))
  }

  // The second result is whether HotkeyStateError is raised.
  function ModifierEvent(s: State, m: Modifier, down: bool): (State, bool)
  {
    var t := s.(pressed := if down then s.pressed + {m} else s.pressed - {m});
    if t.mode == PTT && t.recordState == RECORDING then
      var c := Find(t.bindings, RECORD);
      if c.None? then (t, true)
      else if m in c.value.modifiers then (Finished(t, ShouldAutoSend(t)), false)
      else (t, false)
    else (t, false)
  }

  // `KeyDebouncer.accept`
  predicate Accepts(accepted: map<int, real>, intervalMs: int, vk: int, repeat: bool, now: real)
  {
    !repeat || (now - if vk in accepted then accepted[vk] else 0.0) * 1000.0 >= intervalMs as real
  }

  predicate Cancels(s: State, vk: int, down: bool)
  {
    var c := Find(s.bindings, CANCEL);
    c.Some? && vk == c.value.vk && down && Matches(c.value, s.pressed)
  }

  predicate HitsRecord(s: State, vk: int)
  {
    var c := Find(s.bindings, RECORD);
    c.Some? && vk == c.value.vk && Matches(c.value, s.pressed)
  }

  function MainKeyEvent(s: State, vk: int, down: bool, repeat: bool, now: real): State
  {
    if Cancels(s, vk, down) then s.(recordState := IDLE, log := s.log + [Canceled])
    else if !HitsRecord(s, vk) then s
    else if down then
      if !Accepts(s.accepted, s.intervalMs, vk, repeat, now) then s
      else
        var t := s.(accepted := s.accepted[vk := now]);
        if t.recordState == IDLE then t.(recordState := RECORDING, log := t.log + [Started])
        else if t.mode == TOGGLE then Finished(t, ShouldAutoSend(t))
        else t
    else if s.mode == PTT && s.recordState == RECORDING then Finished(s, ShouldAutoSend(s))
    else s
  }

  function KeyEvent(s: State, vk: int, down: bool, repeat: bool, now: real): (State, bool)
  {
    if ModifierOf(vk).Some? then ModifierEvent(s, ModifierOf(vk).value, down)
    else (MainKeyEvent(s, vk, down, repeat, now), false)
  }

  function Halted(s: State): State
  {
    if !s.running then s
    else s.(running := false, pressed := {}, recordState := IDLE, accepted := map[], log := s.log + [Shutdown])
  }

  function Touched(held: set<int>, vk: int, down: bool): set<int>
  {
    if down then held + {vk} else held - {vk}
  }

  function Step(w: World, e: Event): (World, bool)
  {
    var s := w.s;
    match e
    case Key(vk, down, repeat, now) =>
      var held := Touched(w.held, vk, down);
      if s.running then
        var (t, raised) := KeyEvent(s, vk, down, repeat, now);
        (World(t, held), raised)
      else (World(s, held), false)
    case SetMode(mode) => (World(WithMode(s, mode), w.held), false)
    case SetAutoSend(on) => (World(s.(autoSend := on), w.held), false)
    case ApplyConfig(c) => (World(Configured(s, c), w.held), false)
    case Register(id, action, a) => (World(s.(bindings := Registered(s.bindings, id, action, a)), w.held), false)
    case Unregister(id) => (World(s.(bindings := Drop(s.bindings, id)), w.held), false)
    case Start(hooked) => (World(s.(running := s.running || hooked), w.held), false)
    case Stop => (World(Halted(s), w.held), false)
  }

  function Run(w: World, es: seq<Event>): World
  {
    if es == [] then w else Step(Run(w, es[..|es| - 1]), es[|es| - 1]).0
  }

  function Fresh(intervalMs: int, autoSend: bool): State
  {
    State(PTT, IDLE, [], {}, autoSend, false, map[], intervalMs, [])
  }
}
