/** Key chords: how a binding such as ctrl+shift+space is read, and which keys are modifiers. */
module KeyBinding {
  import opened Wrappers

  datatype Modifier = Ctrl | Shift | Alt | Win
  datatype KeyChord = KeyChord(modifiers: set<Modifier>, keyName: string, vk: int)

  datatype ParseResult = Parsed(chord: KeyChord) | Empty | ManyMainKeys | NoMainKey | UnknownKey

  const MODIFIER_ALIASES: map<string, Modifier> := map[
    "ctrl" := Ctrl, "control" := Ctrl, "shift" := Shift, "alt" := Alt, "menu" := Alt, "win" := Win, "windows" := Win]

  const NAMED_KEYS: map<string, int> := map[
    "space" := 0x20, "tab" := 0x09, "enter" := 0x0D, "return" := 0x0D, "escape" := 0x1B, "esc" := 0x1B,
    "backspace" := 0x08, "delete" := 0x2E, "del" := 0x2E, "pause" := 0x13, "capslock" := 0x14, "scrolllock" := 0x91,
    "insert" := 0x2D, "home" := 0x24, "end" := 0x23, "pageup" := 0x21, "pagedown" := 0x22,
    "left" := 0x25, "up" := 0x26, "right" := 0x27, "down" := 0x28]

  const FUNCTION_KEYS: seq<string> := ["f1", "f2", "f3", "f4", "f5", "f6", "f7", "f8", "f9", "f10", "f11", "f12"]

  // `VK_BY_NAME`
  function VkByName(name: string): Option<int>
  {
    if name in NAMED_KEYS then Some(NAMED_KEYS[name])
    else if |name| == 1 && 'a' <= name[0] <= 'z' then Some(name[0] as int - 'a' as int + 'A' as int)
    else if |name| == 1 && '0' <= name[0] <= '9' then Some(name[0] as int)
    else FunctionKey(name, 0)
  }

  function FunctionKey(name: string, i: nat): (vk: Option<int>)
    requires i <= |FUNCTION_KEYS|
    ensures vk.Some? ==> 0x70 <= vk.value <= 0x7B
    decreases |FUNCTION_KEYS| - i
  {
    if i == |FUNCTION_KEYS| then None
    else if name == FUNCTION_KEYS[i] then Some(0x70 + i)
    else FunctionKey(name, i + 1)
  }

  // `modifier_from_vk`: left, right and generic variants of a modifier are one.
  function ModifierOf(vk: int): Option<Modifier>
  {
    if vk in {0xA2, 0xA3, 0x11} then Some(Ctrl)
    else if vk in {0xA0, 0xA1, 0x10} then Some(Shift)
    else if vk in {0xA4, 0xA5, 0x12} then Some(Alt)
    else if vk in {0x5B, 0x5C, 0x5D} then Some(Win)
    else None
  }

  // `chord_matches_pressed`
  predicate Matches(chord: KeyChord, pressed: set<Modifier>)
  {
    chord.modifiers <= pressed
  }

  // ---------- parsing ----------

  // The parts that are not modifiers, in order.
  function MainKeys(parts: seq<string>): seq<string>
  {
    if parts == [] then []
    else MainKeys(parts[..|parts| - 1]) + if parts[|parts| - 1] in MODIFIER_ALIASES then [] else [parts[|parts| - 1]]
  }

  // The modifiers that parts name.
  function Modifiers(parts: seq<string>): set<Modifier>
  {
    if parts == [] then {} else Modifiers(parts[..|parts| - 1]) + Alias(parts[|parts| - 1])
  }

  function Alias(part: string): set<Modifier>
  {
    if part in MODIFIER_ALIASES then {MODIFIER_ALIASES[part]} else {}
  }

  lemma {:induction false} ModifiersMember(parts: seq<string>, m: Modifier)
    ensures m in Modifiers(parts) <==> exists p :: p in parts && m in Alias(p)
  {
    if parts != [] {
      var init, last := parts[..|parts| - 1], parts[|parts| - 1];
      ModifiersMember(init, m);
      assert parts == init + [last] && last in parts;
      assert forall p :: p in parts <==> p in init || p == last;
    }
  }

  function Named(modifiers: set<Modifier>, name: string): ParseResult
  {
    match VkByName(name)
    case None => UnknownKey
    case Some(vk) => Parsed(KeyChord(modifiers, name, vk))
  }

  // What a binding means, whatever the order it is written in.
  function Meaning(parts: seq<string>): ParseResult
  {
    if parts == [] then Empty
    else if |MainKeys(parts)| > 1 then ManyMainKeys
    else if |MainKeys(parts)| == 0 then NoMainKey
    else Named(Modifiers(parts), MainKeys(parts)[0])
  }

  lemma {:induction false} MainKeysCut(parts: seq<string>, n: nat)
    requires n <= |parts|
    ensures |MainKeys(parts[..n])| <= |MainKeys(parts)|
    decreases |parts|
  {
    if n < |parts| {
      MainKeysCut(parts[..|parts| - 1], n);
      assert parts[..|parts| - 1][..n] == parts[..n];
    } else {
      assert parts[..n] == parts;
    }
  }

  // One more part.
  lemma PartsSnoc(parts: seq<string>, i: nat)
    requires i < |parts|
    ensures Modifiers(parts[..i + 1]) == Modifiers(parts[..i]) + Alias(parts[i])
    ensures MainKeys(parts[..i + 1]) == MainKeys(parts[..i]) + if parts[i] in MODIFIER_ALIASES then [] else [parts[i]]
  {
    assert parts[..i + 1] == parts[..i] + [parts[i]] && (parts[..i] + [parts[i]])[..i] == parts[..i];
  }

  // What the parts read so far come to.
  predicate Read(parts: seq<string>, i: nat, modifiers: set<Modifier>, mainKey: Option<string>)
    requires i <= |parts|
  {
    && modifiers == Modifiers(parts[..i])
    && MainKeys(parts[..i]) == if mainKey.Some? then [mainKey.value] else []
  }

  lemma ReadNothing(parts: seq<string>)
    ensures Read(parts, 0, {}, None)
  {
    assert parts[..0] == [];
  }

  lemma ReadModifier(parts: seq<string>, i: nat, modifiers: set<Modifier>, mainKey: Option<string>)
    requires i < |parts| && Read(parts, i, modifiers, mainKey) && parts[i] in MODIFIER_ALIASES
    ensures Read(parts, i + 1, modifiers + {MODIFIER_ALIASES[parts[i]]}, mainKey)
  {
    PartsSnoc(parts, i);
  }

  lemma ReadMainKey(parts: seq<string>, i: nat, modifiers: set<Modifier>, mainKey: Option<string>)
    requires i < |parts| && Read(parts, i, modifiers, mainKey) && parts[i] !in MODIFIER_ALIASES
    ensures mainKey.None? ==> Read(parts, i + 1, modifiers, Some(parts[i]))
    ensures mainKey.Some? ==> Meaning(parts) == ManyMainKeys
  {
    PartsSnoc(parts, i);
    MainKeysCut(parts, i + 1);
  }

  lemma ReadAll(parts: seq<string>, modifiers: set<Modifier>, mainKey: Option<string>)
    requires parts != [] && Read(parts, |parts|, modifiers, mainKey)
    ensures Meaning(parts) == if mainKey.Some? then Named(modifiers, mainKey.value) else NoMainKey
  {
    assert parts[..|parts|] == parts;
  }

  /** `parse_binding`, from the trimmed, lower-case, non-empty parts on. */
  method ParseBinding(parts: seq<string>) returns (r: ParseResult)
    ensures r == Meaning(parts)
  {
    if parts == [] {
      return Empty;
    }
    var modifiers: set<Modifier> := {};
    var mainKey: Option<string> := None;
    var i := 0;
    ReadNothing(parts);
    while i < |parts|
      invariant 0 <= i <= |parts|
      invariant Read(parts, i, modifiers, mainKey)
    {
      var part := parts[i];
      if part in MODIFIER_ALIASES {
        ReadModifier(parts, i, modifiers, mainKey);
        modifiers := modifiers + {MODIFIER_ALIASES[part]};
      } else {
        ReadMainKey(parts, i, modifiers, mainKey);
        if mainKey.Some? {
          return ManyMainKeys;
        }
        mainKey := Some(part);
      }
      i := i + 1;
    }
    ReadAll(parts, modifiers, mainKey);
    if mainKey.None? {
      return NoMainKey;
    }
    return Named(modifiers, mainKey.value);
  }

  lemma NamedKeysAreNoModifiers(name: string)
    requires name in NAMED_KEYS
    ensures ModifierOf(NAMED_KEYS[name]).None?
  {
  }

  lemma NoModifierKey(name: string)
    requires VkByName(name).Some?
    ensures ModifierOf(VkByName(name).value).None?
  {
    if name in NAMED_KEYS {
      NamedKeysAreNoModifiers(name);
    }
  }

  /** A binding is accepted exactly when one of its parts, and only one, is not a modifier and that part
      names a key; the chord then has the modifiers named, in whatever spelling, and a main key that is
      itself no modifier. */
  lemma AcceptedBindings(parts: seq<string>)
    ensures Meaning(parts).Parsed? <==>
              |MainKeys(parts)| == 1 && VkByName(MainKeys(parts)[0]).Some?
    ensures Meaning(parts).Parsed? ==>
              var c := Meaning(parts).chord;
              && ModifierOf(c.vk).None? && VkByName(c.keyName) == Some(c.vk)
              && c.keyName in parts && c.keyName !in MODIFIER_ALIASES
              && (forall m :: m in c.modifiers <==> exists p :: p in parts && p in MODIFIER_ALIASES && MODIFIER_ALIASES[p] == m)
  {
    if |MainKeys(parts)| == 1 {
      MainKeysMember(parts, MainKeys(parts)[0]);
      if VkByName(MainKeys(parts)[0]).Some? {
        NoModifierKey(MainKeys(parts)[0]);
        forall m ensures m in Modifiers(parts) <==> exists p :: p in parts && m in Alias(p) {
          ModifiersMember(parts, m);
        }
      }
    }
  }

  lemma SnocCount<T>(a: seq<T>, last: T, p: T)
    ensures multiset(a + [last])[p] == multiset(a)[p] + if p == last then 1 else 0
  {
    assert multiset(a + [last]) == multiset(a) + multiset{last};
  }

  lemma {:induction false} MainKeysCount(parts: seq<string>, p: string)
    ensures multiset(MainKeys(parts))[p] == if p in MODIFIER_ALIASES then 0 else multiset(parts)[p]
  {
    if parts != [] {
      var init, last := parts[..|parts| - 1], parts[|parts| - 1];
      MainKeysCount(init, p);
      MainKeysLast(init, last);
      assert parts == init + [last];
      SnocCount(init, last, p);
      SnocCount(MainKeys(init), last, p);
    }
  }

  lemma MainKeysLast(init: seq<string>, last: string)
    ensures MainKeys(init + [last]) == if last in MODIFIER_ALIASES then MainKeys(init) else MainKeys(init) + [last]
  {
    assert (init + [last])[..|init|] == init;
  }

  lemma MainKeysMember(parts: seq<string>, p: string)
    ensures p in MainKeys(parts) ==> p in parts && p !in MODIFIER_ALIASES
  {
    MainKeysCount(parts, p);
    Counted(MainKeys(parts), p);
    Counted(parts, p);
  }

  lemma Counted<T>(a: seq<T>, p: T)
    ensures p in a <==> multiset(a)[p] > 0
  {
    assert p in a <==> p in multiset(a);
  }

  lemma SameMembers<T>(a: seq<T>, b: seq<T>)
    requires multiset(a) == multiset(b)
    ensures |a| == |b| && (|a| == 1 ==> a == b) && forall x :: x in a <==> x in b
  {
    assert |a| == |multiset(a)| && |b| == |multiset(b)|;
    assert forall x :: x in a <==> x in multiset(a);
    assert forall x :: x in b <==> x in multiset(b);
    if |a| == 1 {
      assert a[0] in b;
    }
  }

  lemma SameMainKeys(a: seq<string>, b: seq<string>)
    requires multiset(a) == multiset(b)
    ensures multiset(MainKeys(a)) == multiset(MainKeys(b))
  {
    forall p ensures multiset(MainKeys(a))[p] == multiset(MainKeys(b))[p] {
      MainKeysCount(a, p);
      MainKeysCount(b, p);
    }
  }

  /** The order in which a binding is written does not matter. */
  lemma OrderDoesNotMatter(a: seq<string>, b: seq<string>)
    requires multiset(a) == multiset(b)
    ensures Meaning(a) == Meaning(b)
  {
    SameMembers(a, b);
    SameMainKeys(a, b);
    SameMembers(MainKeys(a), MainKeys(b));
    forall m ensures m in Modifiers(a) <==> m in Modifiers(b) {
      ModifiersMember(a, m);
      ModifiersMember(b, m);
    }
    assert Modifiers(a) == Modifiers(b);
  }
}
