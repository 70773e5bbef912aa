/** Text as UTF-16 (RFC 2781, section 2): code points to little-endian bytes to code units, and back. */
module Utf16Spec {
  import opened Wrappers

  // Python strings are sequences of code points, surrogates included.
  type CodePoint = c: int | 0 <= c <= 0x10FFFF
  type Unit = u: int | 0 <= u <= 0xFFFF
  type Byte = b: int | 0 <= b <= 0xFF

  predicate Surrogate(c: int) { 0xD800 <= c <= 0xDFFF }
  predicate High(u: int) { 0xD800 <= u <= 0xDBFF }
  predicate Low(u: int) { 0xDC00 <= u <= 0xDFFF }

  predicate Encodable(text: seq<CodePoint>) { forall c :: c in text ==> !Surrogate(c) }

  // ---------- encoding ----------

  function LittleEndian(u: Unit): seq<Byte> { [u % 0x100, u / 0x100] }

  // One code point; the high ten bits of what exceeds 0xFFFF go into the first unit, the low ten into
  // the second.
  function EncodePoint(c: CodePoint): seq<Byte>
  {
    if c <= 0xFFFF then LittleEndian(c)
    else LittleEndian(0xD800 + (c - 0x10000) / 0x400) + LittleEndian(0xDC00 + (c - 0x10000) % 0x400)
  }

  // `text.encode("utf-16-le")`, which refuses a lone surrogate.
  function EncodeText(text: seq<CodePoint>): Option<seq<Byte>>
  {
    if text == [] then Some([])
    else if Surrogate(text[0]) then None
    else match EncodeText(text[1..])
      case None => None
      case Some(rest) => Some(EncodePoint(text[0]) + rest)
  }

  function Word(lo: Byte, hi: Byte): Unit { (lo as int) + 0x100 * (hi as int) }

  // Two bytes at a time.
  function Pairs(bytes: seq<Byte>): seq<Unit>
  {
    if |bytes| < 2 then [] else [Word(bytes[0], bytes[1])] + Pairs(bytes[2..])
  }

  // `text_to_utf16_units`
  function Units(text: seq<CodePoint>): Option<seq<Unit>>
  {
    match EncodeText(text)
    case None => None
    case Some(bytes) => Some(Pairs(bytes))
  }

  // `surrogate_pair_count`
  function PairCount(text: seq<CodePoint>): nat
  {
    if text == [] then 0 else (if text[0] > 0xFFFF then 1 else 0) + PairCount(text[1..])
  }

  // ---------- decoding, as section 2.2 of RFC 2781 describes it ----------

  function PairPoint(hi: Unit, lo: Unit): CodePoint
    requires High(hi) && Low(lo)
  {
    0x10000 + ((hi as int) - 0xD800) * 0x400 + ((lo as int) - 0xDC00)
  }

  function Decode(units: seq<Unit>): Option<seq<CodePoint>>
  {
    if units == [] then Some([])
    else if !Surrogate(units[0]) then Then(units[0], Decode(units[1..]))
    else if High(units[0]) && |units| >= 2 && Low(units[1]) then
      Then(PairPoint(units[0], units[1]), Decode(units[2..]))
    else None
  }

  function Then(c: CodePoint, rest: Option<seq<CodePoint>>): Option<seq<CodePoint>>
  {
    match rest
    case None => None
    case Some(text) => Some([c] + text)
  }

  function PointUnits(c: CodePoint): seq<Unit>
  {
    if c <= 0xFFFF then [c] else [0xD800 + (c - 0x10000) / 0x400, 0xDC00 + (c - 0x10000) % 0x400]
  }

  lemma PairsOfPoint(c: CodePoint, rest: seq<Byte>)
    ensures Pairs(EncodePoint(c) + rest) == PointUnits(c) + Pairs(rest)
  {
    if c <= 0xFFFF {
      PairsOfUnit(c, rest);
    } else {
      PairsOfTwo(0xD800 + (c - 0x10000) / 0x400, 0xDC00 + (c - 0x10000) % 0x400, rest);
    }
  }

  lemma PairsOfTwo(hi: Unit, lo: Unit, rest: seq<Byte>)
    ensures Pairs((LittleEndian(hi) + LittleEndian(lo)) + rest) == [hi, lo] + Pairs(rest)
  {
    PairsOfUnit(lo, rest);
    PairsOfUnit(hi, LittleEndian(lo) + rest);
    assert (LittleEndian(hi) + LittleEndian(lo)) + rest == LittleEndian(hi) + (LittleEndian(lo) + rest);
    assert [hi] + ([lo] + Pairs(rest)) == [hi, lo] + Pairs(rest);
  }

  lemma PairsOfUnit(u: Unit, rest: seq<Byte>)
    ensures Pairs(LittleEndian(u) + rest) == [u] + Pairs(rest)
  {
    var bytes := LittleEndian(u) + rest;
    assert bytes[0] == u % 0x100 && bytes[1] == u / 0x100 && bytes[2..] == rest;
  }

  lemma DecodePoint(c: CodePoint, rest: seq<Unit>)
    requires !Surrogate(c)
    ensures Decode(PointUnits(c) + rest) == Then(c, Decode(rest))
  {
    var units := PointUnits(c) + rest;
    if c <= 0xFFFF {
      assert units[1..] == rest;
    } else {
      assert units[2..] == rest;
    }
  }

  lemma {:induction false} EncodableIsEncoded(text: seq<CodePoint>)
    ensures EncodeText(text).Some? <==> Encodable(text)
  {
    if text != [] {
      EncodableIsEncoded(text[1..]);
      assert text == [text[0]] + text[1..];
    }
  }

  // The units of a text, code point by code point.
  lemma UnitsStep(text: seq<CodePoint>)
    requires text != [] && Encodable(text)
    ensures Units(text[1..]).Some?
    ensures Units(text) == Some(PointUnits(text[0]) + Units(text[1..]).value)
  {
    EncodableIsEncoded(text);
    EncodableIsEncoded(text[1..]);
    PairsOfPoint(text[0], EncodeText(text[1..]).value);
  }

  /** Exactly the texts without surrogates have units, and decoding those gives the text back. */
  lemma {:induction false} DecodeEncode(text: seq<CodePoint>)
    ensures Units(text).Some? <==> Encodable(text)
    ensures Encodable(text) ==> Decode(Units(text).value) == Some(text)
  {
    EncodableIsEncoded(text);
    if text != [] && Encodable(text) {
      DecodeEncode(text[1..]);
      UnitsStep(text);
      DecodePoint(text[0], Units(text[1..]).value);
      assert [text[0]] + text[1..] == text;
    }
  }

  /** The units of one code point: itself below 0x10000, and above it a high surrogate with the upper ten bits of
      the rest and a low one with the lower ten. */
  lemma UnitsOfPoint(c: CodePoint)
    requires !(0xD800 <= c <= 0xDFFF)
    ensures Units([c]).Some?
    ensures var u := Units([c]).value;
            if c < 0x10000 then u == [c]
            else |u| == 2 && 0xD800 <= u[0] <= 0xDBFF && 0xDC00 <= u[1] <= 0xDFFF
                 && c as int == 0x10000 + (u[0] as int - 0xD800) * 0x400 + (u[1] as int - 0xDC00)
  {
    UnitsStep([c]);
    assert [c][1..] == [];
    assert PointUnits(c) + [] == PointUnits(c);
  }

  lemma EncodableParts(a: seq<CodePoint>, b: seq<CodePoint>)
    ensures Encodable(a + b) <==> Encodable(a) && Encodable(b)
  {
    assert forall c :: c in a ==> c in a + b;
    assert forall c :: c in b ==> c in a + b;
  }

  // The units of a text with one more code point in front.
  lemma UnitsCons(c: CodePoint, rest: seq<CodePoint>)
    requires Encodable([c] + rest)
    ensures Units(rest).Some? && Units([c] + rest) == Some(PointUnits(c) + Units(rest).value)
  {
    UnitsStep([c] + rest);
    assert ([c] + rest)[1..] == rest;
  }

  lemma NoUnits()
    ensures Units([]) == Some([])
  {
  }

  /** The units of a text are those of its parts. */
  lemma {:induction false} UnitsConcat(a: seq<CodePoint>, b: seq<CodePoint>)
    requires Encodable(a + b)
    ensures Units(a).Some? && Units(b).Some? && Units(a + b) == Some(Units(a).value + Units(b).value)
  {
    EncodableParts(a, b);
    EncodableIsEncoded(a);
    EncodableIsEncoded(b);
    if a == [] {
      NoUnits();
      assert a + b == b && [] + Units(b).value == Units(b).value;
    } else {
      var c, rest := a[0], a[1..];
      assert a == [c] + rest && a + b == [c] + (rest + b);
      EncodableParts([c], rest);
      EncodableParts([c], rest + b);
      UnitsConcat(rest, b);
      UnitsCons(c, rest);
      UnitsCons(c, rest + b);
      Regroup(PointUnits(c), Units(rest).value, Units(b).value);
    }
  }

  lemma Regroup(a: seq<Unit>, b: seq<Unit>, c: seq<Unit>)
    ensures (a + b) + c == a + (b + c)
  {
  }

  /** There is one unit for every code point and one more for every pair. */
  lemma {:induction false} UnitsCount(text: seq<CodePoint>)
    requires Encodable(text)
    ensures Units(text).Some? && |Units(text).value| == |text| + PairCount(text)
  {
    EncodableIsEncoded(text);
    if text != [] {
      UnitsCount(text[1..]);
      UnitsStep(text);
    }
  }

  /** Any units that decode at all are the units of the text they decode to. */
  lemma {:induction false} EncodeDecode(units: seq<Unit>)
    requires Decode(units).Some?
    ensures var text := Decode(units).value; Encodable(text) && Units(text) == Some(units)
    decreases |units|
  {
    if units != [] {
      var n := if Surrogate(units[0]) then 2 else 1;
      EncodeDecode(units[n..]);
      var text, rest := Decode(units).value, Decode(units[n..]).value;
      assert text[1..] == rest;
      UnitsStep(text);
      assert PointUnits(text[0]) == units[..n];
      assert units == units[..n] + units[n..];
    }
  }
}
