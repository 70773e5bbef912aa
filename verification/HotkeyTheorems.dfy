/** What the hotkey manager promises its user, over runs from start-up. */
module HotkeyTheorems {
  import opened Wrappers
  import opened KeyBinding
  import opened HotkeySpec
  import opened HotkeyProofs

  function Begin(intervalMs: int, autoSend: bool, held: set<int>): World
  {
    World(Fresh(intervalMs, autoSend), held)
  }

  // ---------- push to talk ----------

  lemma {:induction false} CalmRunChord(intervalMs: int, autoSend: bool, held: set<int>, es: seq<Event>)
    requires CalmRun(Begin(intervalMs, autoSend, held), es)
    ensures var w := Run(Begin(intervalMs, autoSend, held), es); Inv(w) && ChordDown(w)
  {
    FreshInv(intervalMs, autoSend, held);
    RunKeeps(Begin(intervalMs, autoSend, held), es);
    RunKeepsChord(Begin(intervalMs, autoSend, held), es);
  }

  /** Push to talk records only while the whole chord is physically down: the main key and, for each of
      its modifiers, some key that is one.  With no key down at all nothing records. */
  lemma {:induction false} RecordingMeansHeld(intervalMs: int, autoSend: bool, held: set<int>, es: seq<Event>)
    requires CalmRun(Begin(intervalMs, autoSend, held), es)
    ensures var w := Run(Begin(intervalMs, autoSend, held), es);
            && (Talking(w.s) ==>
                  var c := Find(w.s.bindings, RECORD);
                  c.Some? && c.value.vk in w.held && forall m :: m in c.value.modifiers ==> KeyFor(m, w.held))
            && (w.held == {} ==> !Talking(w.s))
  {
    CalmRunChord(intervalMs, autoSend, held, es);
  }

  /** So letting go of the main key, or of any one key of a modifier of the chord, always ends it, with
      one signal. */
  lemma {:induction false} ReleaseEndsRecording(intervalMs: int, autoSend: bool, held: set<int>, es: seq<Event>, vk: int, now: real)
    requires CalmRun(Begin(intervalMs, autoSend, held), es)
    requires Talking(Run(Begin(intervalMs, autoSend, held), es).s)
    ensures var w := Run(Begin(intervalMs, autoSend, held), es);
            var c := Find(w.s.bindings, RECORD);
            && c.Some?
            && (vk == c.value.vk || (ModifierOf(vk).Some? && ModifierOf(vk).value in c.value.modifiers) ==>
                  var (u, raised) := Step(w, Key(vk, false, false, now));
                  && !raised && u.s.recordState == IDLE
                  && u.s.log == w.s.log + [if ShouldAutoSend(u.s) then AutoSent else Stopped])
  {
    CalmRunChord(intervalMs, autoSend, held, es);
    FindInside(Run(Begin(intervalMs, autoSend, held), es).s.bindings, RECORD);
  }

  /** The repeats of a held main key never start or end anything in a push-to-talk recording. */
  lemma RepeatsAreIgnoredWhileTalking(w: World, vk: int, now: real)
    requires Inv(w) && Talking(w.s) && ModifierOf(vk).None? && !Cancels(w.s, vk, true)
    ensures var (u, raised) := Step(w, Key(vk, true, true, now));
            !raised && u.s.log == w.s.log && u.s.recordState == RECORDING
  {
  }

  // The record chord after a registration.
  function NewChord(s: State, e: Event): Option<KeyChord>
  {
    match e
    case Register(id, action, a) => Find(Registered(s.bindings, id, action, a), RECORD)
    case Unregister(id) => Find(Drop(s.bindings, id), RECORD)
    case _ => Find(s.bindings, RECORD)
  }

  // Down on the keyboard, as far as the manager can tell.
  predicate IsDown(w: World, c: KeyChord) { c.modifiers <= w.s.pressed && c.vk in w.held }

  /** With direct registrations as well, a push-to-talk recording loses its chord exactly when one takes
      the chord away under it or puts one there that is not down. */
  lemma ChordBreaksIff(w: World, e: Event)
    requires Inv(w) && ChordDown(w)
    ensures !ChordDown(Step(w, e).0) <==>
              && (e.Register? || e.Unregister?) && Talking(w.s)
              && !(NewChord(w.s, e).Some? && IsDown(w, NewChord(w.s, e).value))
  {
    if !(e.Register? || e.Unregister?) {
      StepKeepsChord(w, e);
    }
  }

  // A record key held, another put in its place, and the first let go.
  function ReplacingRun(a: Attempt, b: Attempt): seq<Event>
    requires ChordOf(a).Some?
  {
    [Start(true)] + [Register("record", RECORD, a)] + [Key(ChordOf(a).value.vk, true, false, 1.0)]
    + [Register("record", RECORD, b)] + [Key(ChordOf(a).value.vk, false, false, 2.0)]
  }

  /** The input: after that it records with no key down at all. */
  lemma ReplacedKeySticks(intervalMs: int, autoSend: bool, a: Attempt, b: Attempt)
    requires ChordOf(a).Some? && ChordOf(a).value.modifiers == {}
    requires ChordOf(b).Some? && ChordOf(b).value.vk != ChordOf(a).value.vk
    ensures var w := Run(Begin(intervalMs, autoSend, {}), ReplacingRun(a, b));
            Talking(w.s) && w.held == {} && !ChordDown(w)
  {
    var c, d := ChordOf(a).value, ChordOf(b).value;
    var w := Begin(intervalMs, autoSend, {});
    var es := [Start(true)] + [Register("record", RECORD, a)] + [Key(c.vk, true, false, 1.0)];
    PressedRun(intervalMs, autoSend, {}, a);
    RunSnoc(w, es, Register("record", RECORD, b));
    RunSnoc(w, es + [Register("record", RECORD, b)], Key(c.vk, false, false, 2.0));
    var v := Run(w, es + [Register("record", RECORD, b)]);
    assert [Entry("record", RECORD, c)][1..] == [];
    assert v.s.bindings == [Entry("record", RECORD, d)];
    AcceptedBindings(a.parts);
    LetGo(v, c.vk, Entry("record", RECORD, d));
    assert Touched(Touched({}, c.vk, true), c.vk, false) == {};
  }

  // Letting go of a key that is not the only binding's does nothing.
  lemma LetGo(w: World, vk: int, e: Entry)
    requires w.s.running && w.s.bindings == [e] && e.action == RECORD && e.chord.vk != vk && ModifierOf(vk).None?
    ensures Step(w, Key(vk, false, false, 2.0)) == (World(w.s, Touched(w.held, vk, false)), false)
  {
    assert w.s.bindings[0] == e && w.s.bindings[1..] == [];
    assert Find(w.s.bindings, CANCEL) == Find(w.s.bindings[1..], CANCEL) == None;
  }

  // ---------- the state error ----------

  /** HotkeyStateError cannot arise from keys, settings, starting and stopping, in any order. */
  lemma NothingRaises(intervalMs: int, autoSend: bool, held: set<int>, es: seq<Event>, i: nat)
    requires ByHand(es) && i < |es|
    ensures !Step(Run(Begin(intervalMs, autoSend, held), es[..i]), es[i]).1
  {
    var w := Begin(intervalMs, autoSend, held);
    ByHandIsCalm(w, es[..i]);
    CalmRunChord(intervalMs, autoSend, held, es[..i]);
    StepKeepsChord(Run(w, es[..i]), es[i]);
  }

  predicate Lost(s: State) { Talking(s) && Find(s.bindings, RECORD).None? }

  /** With direct registrations as well it arises exactly at a modifier key, after the record binding
      has been lost under a running push-to-talk. */
  lemma RaisesWhenLost(intervalMs: int, autoSend: bool, held: set<int>, es: seq<Event>, e: Event)
    ensures var w := Run(Begin(intervalMs, autoSend, held), es);
            Step(w, e).1 <==> Lost(w.s) && e.Key? && ModifierOf(e.vk).Some?
  {
    FreshInv(intervalMs, autoSend, held);
    RunKeeps(Begin(intervalMs, autoSend, held), es);
  }

  // A record key held, and unregistered while it is.
  function LosingRun(a: Attempt): seq<Event>
    requires ChordOf(a).Some?
  {
    [Start(true)] + [Register("record", RECORD, a)] + [Key(ChordOf(a).value.vk, true, false, 1.0)] + [Unregister("record")]
  }

  /** The binding can be lost: with any unmodified record key, unregistering it while it is down is all
      it takes, and then pressing Ctrl raises. */
  lemma BindingCanBeLost(intervalMs: int, autoSend: bool, held: set<int>, a: Attempt)
    requires ChordOf(a).Some? && ChordOf(a).value.modifiers == {}
    ensures var w := Run(Begin(intervalMs, autoSend, held), LosingRun(a));
            Lost(w.s) && Step(w, Key(0xA2, true, false, 2.0)).1
  {
    var c := ChordOf(a).value;
    var w := Begin(intervalMs, autoSend, held);
    var es := [Start(true)] + [Register("record", RECORD, a)] + [Key(c.vk, true, false, 1.0)];
    PressedRun(intervalMs, autoSend, held, a);
    RunSnoc(w, es, Unregister("record"));
    assert [Entry("record", RECORD, c)][1..] == [];
    assert Drop([Entry("record", RECORD, c)], "record") == [];
  }

  // The record key registered and pressed.
  lemma PressedRun(intervalMs: int, autoSend: bool, held: set<int>, a: Attempt)
    requires ChordOf(a).Some? && ChordOf(a).value.modifiers == {}
    ensures var c := ChordOf(a).value;
            var w := Run(Begin(intervalMs, autoSend, held),
                         [Start(true)] + [Register("record", RECORD, a)] + [Key(c.vk, true, false, 1.0)]);
            && w.held == Touched(held, c.vk, true)
            && w.s == Fresh(intervalMs, autoSend).(recordState := RECORDING, running := true, log := [Started],
                        bindings := [Entry("record", RECORD, c)], accepted := map[c.vk := 1.0])
  {
    var c := ChordOf(a).value;
    var w := Begin(intervalMs, autoSend, held);
    var e1, e2, e3 := Start(true), Register("record", RECORD, a), Key(c.vk, true, false, 1.0);
    RunSnoc(w, [], e1);
    RunSnoc(w, [e1], e2);
    RunSnoc(w, [e1] + [e2], e3);
    assert [] + [e1] == [e1];
    AcceptedBindings(a.parts);
    PressOf(Run(w, [e1] + [e2]).s, Entry("record", RECORD, c));
  }

  // A press of an unmodified record key, when it is the only binding.
  lemma PressOf(s: State, e: Entry)
    requires s.bindings == [e] && e.action == RECORD && e.chord.modifiers == {} && s.recordState == IDLE
    ensures MainKeyEvent(s, e.chord.vk, true, false, 1.0)
            == s.(recordState := RECORDING, log := s.log + [Started], accepted := s.accepted[e.chord.vk := 1.0])
  {
    assert s.bindings[0] == e && s.bindings[1..] == [];
    assert Find(s.bindings, CANCEL) == Find(s.bindings[1..], CANCEL) == None;
    assert !Cancels(s, e.chord.vk, true);
    assert HitsRecord(s, e.chord.vk);
  }

  lemma RunSnoc(w: World, es: seq<Event>, e: Event)
    ensures Run(w, es + [e]) == Step(Run(w, es), e).0
  {
    assert (es + [e])[..|es|] == es;
  }

  /** And then no key ends the recording any more, only the cancel chord does. */
  lemma LostRecordingSticks(w: World, e: Event)
    requires Lost(w.s) && w.s.running && e.Key?
    ensures Step(w, e).0.s.recordState == IDLE <==> ModifierOf(e.vk).None? && Cancels(w.s, e.vk, e.down)
  {
  }

  // ---------- both modes ----------

  /** Over every run, whatever is registered: a start never follows a start, a stop or auto-send comes
      straight after a start, and a recording is on exactly when a start was the last signal. */
  lemma {:induction false} SignalsAlternate(intervalMs: int, autoSend: bool, held: set<int>, es: seq<Event>)
    ensures var s := Run(Begin(intervalMs, autoSend, held), es).s;
            && (s.recordState == RECORDING <==> s.log != [] && s.log[|s.log| - 1] == Started)
            && forall i :: 0 <= i < |s.log| ==> Follows(s.log, i)
  {
    FreshInv(intervalMs, autoSend, held);
    RunKeeps(Begin(intervalMs, autoSend, held), es);
  }

  /** The cancel chord comes first: pressing it with its modifiers down leaves nothing recording and says
      so, in either mode, repeated or not, also while idle and when it is the record chord too. */
  lemma CancelChordWins(w: World, c: KeyChord, repeat: bool, now: real)
    requires Inv(w) && w.s.running && Find(w.s.bindings, CANCEL) == Some(c) && c.modifiers <= w.s.pressed
    ensures var (u, raised) := Step(w, Key(c.vk, true, repeat, now));
            && !raised && u.s == w.s.(recordState := IDLE, log := w.s.log + [Canceled])
            && c.vk in u.held
  {
    FindInside(w.s.bindings, CANCEL);
  }

  /** A change of mode or of the settings always leaves nothing recording, also when the mode stays. */
  lemma SettingsEndRecording(w: World, e: Event)
    requires e.SetMode? || e.ApplyConfig?
    ensures var t := Step(w, e).0.s;
            && t.recordState == IDLE
            && t.log == w.s.log + (if w.s.recordState == RECORDING then [Stopped] else [])
  {
    if e.ApplyConfig? {
      ConfiguredExtends(w.s, e.config);
    }
  }

  /** A recording is sent on at once only when that is enabled and an Alt key is physically down; in
      particular letting go of the only Alt key of the chord never does it. */
  lemma {:induction false} AutoSendMeansAltHeld(intervalMs: int, autoSend: bool, held: set<int>, es: seq<Event>, e: Event)
    ensures var w := Run(Begin(intervalMs, autoSend, held), es);
            var u := Step(w, e).0;
            u.s.log == w.s.log + [AutoSent] ==> e.Key? && w.s.autoSend && KeyFor(Alt, u.held)
  {
    FreshInv(intervalMs, autoSend, held);
    RunKeeps(Begin(intervalMs, autoSend, held), es);
    AutoSendStep(Run(Begin(intervalMs, autoSend, held), es), e);
  }

  lemma AutoSendStep(w: World, e: Event)
    requires Inv(w)
    ensures var u := Step(w, e).0;
            u.s.log == w.s.log + [AutoSent] ==> e.Key? && w.s.autoSend && KeyFor(Alt, u.held)
  {
    var u := Step(w, e).0;
    if u.s.log == w.s.log + [AutoSent] {
      assert u.s.log[|w.s.log|] == AutoSent;
      if e.SetMode? || e.ApplyConfig? {
        SettingsEndRecording(w, e);
      } else if e.Key? {
        StepKeeps(w, e);
        assert ShouldAutoSend(u.s);
      }
    }
  }

  // ---------- settings ----------

  // A binding under a new identifier is found after all others.
  lemma {:induction false} FindPut(bs: seq<Entry>, e: Entry, action: Action)
    requires forall x :: x in bs ==> x.id != e.id
    ensures Find(Put(bs, e), action) == OrElse(Find(bs, action), if e.action == action then Some(e.chord) else None)
  {
    if bs != [] {
      assert bs[0] in bs;
      assert ([bs[0]] + Put(bs[1..], e))[1..] == Put(bs[1..], e);
      FindPut(bs[1..], e, action);
    } else {
      assert [e][1..] == [];
    }
  }

  function OrElse<T>(a: Option<T>, b: Option<T>): Option<T> { if a.Some? then a else b }

  function Chosen(a: Attempt, fallback: Option<Attempt>): Option<KeyChord>
  {
    if ChordOf(a).Some? || fallback.None? then ChordOf(a) else ChordOf(fallback.value)
  }

  lemma ChosenIsFound(bs: seq<Entry>, id: string, action: Action, a: Attempt, fallback: Option<Attempt>, other: Action)
    requires forall x :: x in bs ==> x.id != id
    requires other != action
    ensures Find(RegisteredOr(bs, id, action, a, fallback), action) == OrElse(Find(bs, action), Chosen(a, fallback))
    ensures Find(RegisteredOr(bs, id, action, a, fallback), other) == Find(bs, other)
    ensures forall x :: x in RegisteredOr(bs, id, action, a, fallback) ==> x in bs || x.id == id
  {
    if Chosen(a, fallback).Some? {
      var e := Entry(id, action, Chosen(a, fallback).value);
      FindPut(bs, e, action);
      FindPut(bs, e, other);
      PutMembers(bs, e);
    }
  }

  /** After new settings the two built-in actions have the chords chosen: the configured one, its fallback
      if that is refused, or none, with nothing left of the old ones; but a binding for the action under an
      identifier of its own goes before them. */
  lemma ConfiguredChords(s: State, c: Config)
    ensures var own := Unreserved(s.bindings);
            && Find(Configured(s, c).bindings, RECORD) == OrElse(Find(own, RECORD), Chosen(c.record, c.recordFallback))
            && Find(Configured(s, c).bindings, CANCEL) == OrElse(Find(own, CANCEL), Chosen(c.cancel, c.cancelFallback))
  {
    var bs := Unreserved(s.bindings);
    UnreservedMembers(s.bindings);
    ChosenIsFound(bs, "record", RECORD, c.record, c.recordFallback, CANCEL);
    ChosenIsFound(RegisteredOr(bs, "record", RECORD, c.record, c.recordFallback), "cancel", CANCEL, c.cancel, c.cancelFallback, RECORD);
  }
}
