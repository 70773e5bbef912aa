/** `send_unicode_text`: typing a text as key events, in batches, to a system that may stop listening. */
module UnicodeInput {
  import opened Wrappers
  import opened Utf16Spec

  const UNICODE_CHUNK_SIZE: nat := 64

  datatype KeyInput = KeyInput(unit: Unit, up: bool)

  // One press and one release for every unit.
  function Presses(units: seq<Unit>): (es: seq<KeyInput>)
    ensures |es| == 2 * |units|
  {
    if units == [] then [] else [KeyInput(units[0], false), KeyInput(units[0], true)] + Presses(units[1..])
  }

  // What the window with the focus makes of key events: the units of the presses.
  function Typed(es: seq<KeyInput>): seq<Unit>
  {
    if es == [] then [] else (if es[0].up then [] else [es[0].unit]) + Typed(es[1..])
  }

  /** Each unit is pressed and then let go, in order. */
  lemma {:induction false} PressAt(units: seq<Unit>, i: nat)
    requires i < |units|
    ensures Presses(units)[2 * i] == KeyInput(units[i], false) && Presses(units)[2 * i + 1] == KeyInput(units[i], true)
  {
    if i > 0 {
      PressAt(units[1..], i - 1);
    }
  }

  lemma {:induction false} PressesConcat(a: seq<Unit>, b: seq<Unit>)
    ensures Presses(a + b) == Presses(a) + Presses(b)
  {
    if a == [] {
      assert a + b == b;
    } else {
      assert (a + b)[1..] == a[1..] + b;
      PressesConcat(a[1..], b);
      Regroup([KeyInput(a[0], false), KeyInput(a[0], true)], Presses(a[1..]), Presses(b));
    }
  }

  lemma Regroup<T>(a: seq<T>, b: seq<T>, c: seq<T>)
    ensures (a + b) + c == a + (b + c)
  {
  }

  lemma {:induction false} TypedConcat(a: seq<KeyInput>, b: seq<KeyInput>)
    ensures Typed(a + b) == Typed(a) + Typed(b)
  {
    if a == [] {
      assert a + b == b;
    } else {
      assert (a + b)[1..] == a[1..] + b;
      TypedConcat(a[1..], b);
      Regroup(if a[0].up then [] else [a[0].unit], Typed(a[1..]), Typed(b));
    }
  }

  lemma TypedPress(u: Unit, rest: seq<KeyInput>)
    ensures Typed([KeyInput(u, false), KeyInput(u, true)] + rest) == [u] + Typed(rest)
  {
    var es := [KeyInput(u, false), KeyInput(u, true)] + rest;
    assert es[1..][0] == KeyInput(u, true) && es[1..][1..] == rest;
    assert Typed(es[1..]) == [] + Typed(rest) == Typed(rest);
  }

  lemma {:induction false} TypedPresses(units: seq<Unit>)
    ensures Typed(Presses(units)) == units
  {
    if units != [] {
      TypedPresses(units[1..]);
      TypedPress(units[0], Presses(units[1..]));
      assert [units[0]] + units[1..] == units;
    }
  }

  // A run of events cut short has typed the units up to the cut.
  lemma {:induction false} TypedPrefix(units: seq<Unit>, k: nat)
    requires k <= 2 * |units|
    ensures Typed(Presses(units)[..k]) == units[..(k + 1) / 2]
  {
    if k >= 2 {
      var rest := Presses(units[1..]);
      assert Presses(units)[..k] == [KeyInput(units[0], false), KeyInput(units[0], true)] + rest[..k - 2];
      TypedPress(units[0], rest[..k - 2]);
      TypedPrefix(units[1..], k - 2);
      assert units[..(k + 1) / 2] == [units[0]] + units[1..][..(k - 1) / 2];
    } else if k == 1 {
      var one := [KeyInput(units[0], false)];
      assert Presses(units)[..1] == one && one[1..] == [];
      assert Typed(one) == [units[0]] + Typed([]) == [units[0]];
    }
  }

  // ---------- the program ----------

  class InputQueue {
    ghost var log: seq<KeyInput>
    ghost var largest: nat          // the most events offered at once

    constructor ()
      ensures log == [] && largest == 0
    {
      log, largest := [], 0;
    }

    // `SendInput`: the system takes some of the events, in order, and says how many.
    method SendInput(events: seq<KeyInput>) returns (sent: nat)
      modifies this
      ensures sent <= |events| && log == old(log) + events[..sent]
      ensures largest == if |events| > old(largest) then |events| else old(largest)
    {
      sent :| sent <= |events|;
      log := log + events[..sent];
      largest := if |events| > largest then |events| else largest;
    }
  }

  datatype Outcome = Sent(length: nat) | NotEncodable | InjectionFailed

  method BuildEvents(chunk: seq<Unit>) returns (events: seq<KeyInput>)
    ensures events == Presses(chunk)
  {
    events := [];
    var i := 0;
    while i < |chunk|
      invariant 0 <= i <= |chunk|
      invariant events == Presses(chunk[..i])
    {
      PressesConcat(chunk[..i], [chunk[i]]);
      assert chunk[..i + 1] == chunk[..i] + [chunk[i]];
      assert Presses([chunk[i]]) == [KeyInput(chunk[i], false), KeyInput(chunk[i], true)] by {
        assert [chunk[i]][1..] == [];
      }
      events := events + [KeyInput(chunk[i], false)];
      events := events + [KeyInput(chunk[i], true)];
      i := i + 1;
    }
    assert chunk[..i] == chunk;
  }

  // Chunk by chunk; a chunk border may fall inside a surrogate pair.
  method SendUnits(queue: InputQueue, units: seq<Unit>) returns (ok: bool)
    modifies queue
    ensures ok ==> queue.log == old(queue.log) + Presses(units)
    ensures !ok ==> exists k :: 0 <= k < 2 * |units| && queue.log == old(queue.log) + Presses(units)[..k]
    ensures queue.largest <= if old(queue.largest) > 128 then old(queue.largest) else 128
  {
    ghost var before := queue.log;
    var index := 0;
    assert before + Presses(units[..0]) == before;
    while index < |units|
      invariant 0 <= index <= |units|
      invariant queue.log == before + Presses(units[..index])
      invariant queue.largest <= if old(queue.largest) > 128 then old(queue.largest) else 128
    {
      var next := if index + UNICODE_CHUNK_SIZE < |units| then index + UNICODE_CHUNK_SIZE else |units|;
      var chunk := units[index..next];
      var events := BuildEvents(chunk);
      var sent := queue.SendInput(events);
      SentSoFar(before, units, index, next, sent);
      if sent != |events| {
        return false;
      }
      index := next;
    }
    assert units[..index] == units;
    return true;
  }

  // Part of a chunk after all before it is part of the whole.
  lemma SentSoFar(before: seq<KeyInput>, units: seq<Unit>, index: nat, next: nat, sent: nat)
    requires index <= next <= |units| && sent <= 2 * (next - index)
    ensures var events := Presses(units[index..next]);
            && (before + Presses(units[..index])) + events[..sent] == before + Presses(units)[..2 * index + sent]
            && (sent == |events| ==> Presses(units)[..2 * index + sent] == Presses(units[..next]))
  {
    var head, chunk, tail := units[..index], units[index..next], units[next..];
    var events := Presses(chunk);
    assert units[..next] == head + chunk;
    assert units == (head + chunk) + tail;
    PressesConcat(head, chunk);
    PressesConcat(head + chunk, tail);
    var all := Presses(units);
    assert all == (Presses(head) + events) + Presses(tail);
    assert all[..2 * index + sent] == Presses(head) + events[..sent];
    Regroup(before, Presses(head), events[..sent]);
  }

  /** `send_unicode_text`: all of the text is typed, or nothing because it cannot be encoded, or a proper
      part of it because the system stopped taking events; never more than 128 events at once. */
  method SendUnicodeText(queue: InputQueue, text: seq<CodePoint>) returns (r: Outcome)
    modifies queue
    ensures r == NotEncodable <==> !Encodable(text)
    ensures r == NotEncodable ==> queue.log == old(queue.log)
    ensures r != NotEncodable ==> Units(text).Some?
    ensures r.Sent? ==> r.length == |text| && queue.log == old(queue.log) + Presses(Units(text).value)
    ensures r == InjectionFailed ==>
              exists k :: 0 <= k < 2 * |Units(text).value| && queue.log == old(queue.log) + Presses(Units(text).value)[..k]
    ensures queue.largest <= if old(queue.largest) > 128 then old(queue.largest) else 128
  {
    DecodeEncode(text);
    if text == [] {
      assert old(queue.log) + [] == old(queue.log);
      return Sent(0);
    }
    var units := Units(text);
    if units.None? {
      return NotEncodable;
    }
    var ok := SendUnits(queue, units.value);
    return if ok then Sent(|text|) else InjectionFailed;
  }

  // ---------- end to end ----------

  /** Typed in full, the events decode to the very text, wherever the chunk borders fell. */
  lemma {:induction false} TypedTextIsTheText(text: seq<CodePoint>)
    requires Encodable(text)
    ensures Units(text).Some? && Decode(Typed(Presses(Units(text).value))) == Some(text)
    ensures |Presses(Units(text).value)| == 2 * (|text| + PairCount(text))
  {
    DecodeEncode(text);
    TypedPresses(Units(text).value);
    UnitsCount(text);
  }

  // A part of a text's units: those of its first j code points, and perhaps the first half of one more.
  predicate CutAt(text: seq<CodePoint>, j: nat, part: seq<Unit>)
  {
    && j <= |text| && Encodable(text[..j]) && Units(text[..j]).Some?
    && (|| part == Units(text[..j]).value
        || (j < |text| && text[j] > 0xFFFF && part == Units(text[..j]).value + [PointUnits(text[j])[0]]))
  }

  lemma CutStep(text: seq<CodePoint>, i: nat, part: seq<Unit>)
    requires text != [] && Encodable(text) && CutAt(text[1..], i, part)
    ensures CutAt(text, i + 1, PointUnits(text[0]) + part)
  {
    var whole := text[..i + 1];
    assert whole[1..] == text[1..][..i] && whole[0] == text[0];
    UnitsStep(whole);
    var first, rest := PointUnits(text[0]), Units(text[1..][..i]).value;
    if part != rest {
      assert first + part == (first + rest) + [PointUnits(text[i + 1])[0]];
    }
  }

  lemma {:induction false} UnitsPrefix(text: seq<CodePoint>, k: nat) returns (j: nat)
    requires Encodable(text) && Units(text).Some? && k <= |Units(text).value|
    ensures CutAt(text, j, Units(text).value[..k])
  {
    var units := Units(text).value;
    j := 0;
    assert text[..0] == [];
    if k > 0 {
      DecodeEncode(text);
      var first := PointUnits(text[0]);
      UnitsStep(text);
      if k < |first| {
        assert units[..k] == [] + [first[0]];
      } else {
        DecodeEncode(text[1..]);
        var i := UnitsPrefix(text[1..], k - |first|);
        j := i + 1;
        CutStep(text, i, Units(text[1..]).value[..k - |first|]);
        assert units[..k] == first + Units(text[1..]).value[..k - |first|];
      }
    }
  }

  /** Cut short, they type an initial part of the text, plus at most the first half of one character. */
  lemma CutTextIsAPrefix(text: seq<CodePoint>, k: nat)
    requires Encodable(text) && Units(text).Some? && k <= 2 * |Units(text).value|
    ensures exists j :: 0 <= j <= |text| &&
              var typed := Typed(Presses(Units(text).value)[..k]);
              || Decode(typed) == Some(text[..j])
              || (j < |text| && text[j] > 0xFFFF && typed != [] && typed[|typed| - 1] == PointUnits(text[j])[0]
                  && Decode(typed[..|typed| - 1]) == Some(text[..j]))
  {
    var units := Units(text).value;
    TypedPrefix(units, k);
    var j := UnitsPrefix(text, (k + 1) / 2);
    DecodeEncode(text[..j]);
    var typed := Typed(Presses(units)[..k]);
    var whole := Units(text[..j]).value;
    if typed != whole {
      assert typed[..|typed| - 1] == whole;
    }
  }
}
