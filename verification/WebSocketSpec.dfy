/** Bytes as numbers, with the exclusive or that masking needs. */
module ByteArithmetic {
  type Byte = b: int | 0 <= b < 256

  function Pow2(bits: nat): (p: nat) ensures p > 0 { if bits == 0 then 1 else 2 * Pow2(bits - 1) }

  // Bit by bit, lowest first.
  function XorBits(a: nat, b: nat, bits: nat): (r: nat)
    ensures r < Pow2(bits)
  {
    if bits == 0 then 0 else 2 * XorBits(a / 2, b / 2, bits - 1) + XorBit(a % 2, b % 2)
  }

  // The exclusive or of two bits.
  function XorBit(a: nat, b: nat): (r: nat)
    ensures r < 2
  {
    (a + b) % 2
  }

  lemma XorBitTwice(a: nat, k: nat)
    requires a < 2
    ensures XorBit(XorBit(a, k), k) == a
  {
  }

  lemma Halves(high: nat, low: nat)
    requires low < 2
    ensures (2 * high + low) / 2 == high && (2 * high + low) % 2 == low
  {
  }

  lemma {:induction false} XorBitsTwice(a: nat, k: nat, bits: nat)
    requires a < Pow2(bits)
    ensures XorBits(XorBits(a, k, bits), k, bits) == a
  {
    if bits > 0 {
      Halves(XorBits(a / 2, k / 2, bits - 1), XorBit(a % 2, k % 2));
      XorBitTwice(a % 2, k % 2);
      XorBitsTwice(a / 2, k / 2, bits - 1);
    }
  }

  lemma Pow2Of8()
    ensures Pow2(8) == 256
  {
    assert Pow2(4) == 16;
  }

  function Xor(a: Byte, b: Byte): Byte
  {
    Pow2Of8();
    XorBits(a, b, 8)
  }

  lemma XorTwice(a: Byte, k: Byte)
    ensures Xor(Xor(a, k), k) == a
  {
    Pow2Of8();
    XorBitsTwice(a, k, 8);
  }
}

/** Printing a list of items one after the other, each with its own number. */
module Printing {
  function PrintAll<T, U>(items: seq<T>, print1: (T, nat) -> seq<U>, n: nat): seq<U>
  {
    if items == [] then [] else print1(items[0], n) + PrintAll(items[1..], print1, n + 1)
  }

  lemma Regroup<U>(a: seq<U>, b: seq<U>, c: seq<U>)
    ensures (a + b) + c == a + (b + c)
  {
  }

  lemma PrintCons<T, U>(item: T, items: seq<T>, print1: (T, nat) -> seq<U>, n: nat)
    ensures PrintAll([item] + items, print1, n) == print1(item, n) + PrintAll(items, print1, n + 1)
  {
    assert ([item] + items)[1..] == items;
  }

  lemma {:induction false} PrintConcat<T, U>(a: seq<T>, b: seq<T>, print1: (T, nat) -> seq<U>, n: nat)
    ensures PrintAll(a + b, print1, n) == PrintAll(a, print1, n) + PrintAll(b, print1, n + |a|)
    decreases |a|
  {
    if a == [] {
      assert a + b == b;
    } else {
      PrintConcat(a[1..], b, print1, n + 1);
      assert (a + b)[1..] == a[1..] + b;
    }
  }
}

/** WebSocket frames on the wire: sections 5.2 and 5.3 of RFC 6455, and the control frames of 5.5. */
module WebSocketSpec {
  import opened Wrappers
  import opened ByteArithmetic
  import opened Printing

  type Bytes = seq<Byte>
  type Key = k: Bytes | |k| == 4 witness [0, 0, 0, 0]
  // What a length field of eight bytes can announce.
  type Payload = p: Bytes | |p| < 0x1_0000_0000_0000_0000 witness []

  const OPCODE_TEXT: Byte := 0x1
  const OPCODE_CLOSE: Byte := 0x8
  const OPCODE_PING: Byte := 0x9
  const OPCODE_PONG: Byte := 0xA

  // ---------- the pieces of a frame ----------

  function Pow256(w: nat): nat { if w == 0 then 1 else 256 * Pow256(w - 1) }

  function BigEndian(n: nat, w: nat): (b: Bytes)
    ensures |b| == w
  {
    if w == 0 then [] else BigEndian(n / 256, w - 1) + [n % 256]
  }

  function FromBigEndian(b: Bytes): (n: nat)
    ensures n < Pow256(|b|)
  {
    if b == [] then 0 else FromBigEndian(b[..|b| - 1]) * 256 + b[|b| - 1]
  }

  lemma {:induction false} BigEndianRoundTrip(n: nat, w: nat)
    requires n < Pow256(w)
    ensures FromBigEndian(BigEndian(n, w)) == n
  {
    if w > 0 {
      Quotient(n, Pow256(w - 1));
      BigEndianRoundTrip(n / 256, w - 1);
      var high := BigEndian(n / 256, w - 1);
      FromBigEndianSnoc(high, n % 256);
    }
  }

  lemma Quotient(n: nat, p: nat)
    requires n < 256 * p
    ensures n / 256 < p
  {
  }

  lemma FromBigEndianSnoc(b: Bytes, last: Byte)
    ensures FromBigEndian(b + [last]) == FromBigEndian(b) * 256 + last
  {
    assert (b + [last])[..|b|] == b;
  }

  function Mask(payload: Bytes, key: Key): (m: Bytes)
    ensures |m| == |payload|
  {
    seq(|payload|, i requires 0 <= i < |payload| => Xor(payload[i], key[i % 4]))
  }

  lemma MaskTwice(payload: Bytes, key: Key)
    ensures Mask(Mask(payload, key), key) == payload
  {
    forall i | 0 <= i < |payload| ensures Mask(Mask(payload, key), key)[i] == payload[i] {
      XorTwice(payload[i], key[i % 4]);
    }
  }

  // The mask bit and the seven-bit length share a byte.
  function SecondByte(masked: bool, length: nat): Byte
    requires length < 128
  {
    if masked then 128 + length else length
  }

  lemma Pow256Values()
    ensures Pow256(2) == 0x1_0000 && Pow256(8) == 0x1_0000_0000_0000_0000
  {
    assert Pow256(4) == 0x1_0000_0000;
  }

  // ---------- printing ----------

  datatype LengthForm = SevenBit | Sixteen | SixtyFour

  // `first` carries FIN, the reserved bits and the opcode.
  datatype Frame = Frame(first: Byte, form: LengthForm, key: Option<Key>, payload: Payload)

  predicate WellFormed(f: Frame)
  {
    match f.form
    case SevenBit => |f.payload| < 126
    case Sixteen => |f.payload| < 0x1_0000
    case SixtyFour => true
  }

  function Opcode(f: Frame): Byte { f.first % 16 }

  function Width(form: LengthForm): nat
  {
    match form case SevenBit => 0 case Sixteen => 2 case SixtyFour => 8
  }

  // What stands in the seven length bits.
  function LengthCode(f: Frame): nat
    requires WellFormed(f)
    ensures LengthCode(f) < 128
  {
    match f.form case SevenBit => |f.payload| case Sixteen => 126 case SixtyFour => 127
  }

  function Body(f: Frame): Bytes
    requires WellFormed(f)
  {
    BigEndian(if f.form.SevenBit? then 0 else |f.payload|, Width(f.form))
    + if f.key.Some? then f.key.value + Mask(f.payload, f.key.value) else f.payload
  }

  function Encode(f: Frame): Bytes
    requires WellFormed(f)
  {
    [f.first, SecondByte(f.key.Some?, LengthCode(f))] + Body(f)
  }

  // ---------- parsing ----------

  datatype Parsed =
    | NoHeader                                           // the stream ends before a second byte
    | Truncated                                          // it ends inside the frame
    | Complete(opcode: Byte, payload: Payload, size: nat)

  // How many bytes spell the length, after the code in the seven length bits.
  function LengthWidth(code: nat): nat
  {
    if code == 126 then 2 else if code == 127 then 8 else 0
  }

  // The payload length, given the bytes that follow the second one.
  function LengthOf(code: nat, t: Bytes): (n: nat)
    requires code < 128 && |t| >= LengthWidth(code)
    ensures n < 0x1_0000_0000_0000_0000
  {
    Pow256Values();
    if LengthWidth(code) == 0 then code else FromBigEndian(t[..LengthWidth(code)])
  }

  // Everything after the two header bytes.
  function ParseBody(opcode: Byte, masked: bool, code: nat, t: Bytes): (p: Parsed)
    requires code < 128
    ensures p.Complete? ==> 2 <= p.size <= |t| + 2
  {
    var w := LengthWidth(code);
    if |t| < w then Truncated
    else
      var start := w + if masked then 4 else 0;
      var end := start + LengthOf(code, t);
      if |t| < end then Truncated
      else Complete(opcode, if masked then Mask(t[start..end], t[w..start]) else t[start..end], 2 + end)
  }

  function ParseFrame(b: Bytes): (p: Parsed)
    ensures p.Complete? ==> 2 <= p.size <= |b|
  {
    if |b| < 2 then NoHeader
    else ParseBody(b[0] % 16, b[1] >= 128, b[1] % 128, b[2..])
  }

  // The length bytes of a frame announce its payload, whatever follows them.
  lemma LengthParses(f: Frame, t: Bytes)
    requires WellFormed(f)
    requires BigEndian(if f.form.SevenBit? then 0 else |f.payload|, Width(f.form)) <= t
    ensures LengthWidth(LengthCode(f)) == Width(f.form) && LengthOf(LengthCode(f), t) == |f.payload|
  {
    Pow256Values();
    if !f.form.SevenBit? {
      BigEndianRoundTrip(|f.payload|, Width(f.form));
      assert t[..Width(f.form)] == BigEndian(|f.payload|, Width(f.form));
    }
  }

  lemma BodyParses(opcode: Byte, f: Frame, rest: Bytes)
    requires WellFormed(f)
    ensures ParseBody(opcode, f.key.Some?, LengthCode(f), Body(f) + rest) == Complete(opcode, f.payload, 2 + |Body(f)|)
  {
    var t := Body(f) + rest;
    LengthParses(f, t);
    var w := Width(f.form);
    if f.key.Some? {
      assert t[w..w + 4] == f.key.value;
      assert t[w + 4..|Body(f)|] == Mask(f.payload, f.key.value);
      MaskTwice(f.payload, f.key.value);
    } else {
      assert t[w..|Body(f)|] == f.payload;
    }
  }

  lemma CutBody(opcode: Byte, f: Frame, n: nat)
    requires WellFormed(f) && n < |Body(f)|
    ensures ParseBody(opcode, f.key.Some?, LengthCode(f), Body(f)[..n]) == Truncated
  {
    if n >= Width(f.form) {
      LengthParses(f, Body(f)[..n]);
    }
  }

  lemma SecondByteParses(masked: bool, code: nat)
    requires code < 128
    ensures (SecondByte(masked, code) >= 128) == masked && SecondByte(masked, code) % 128 == code
  {
  }

  // What the parser makes of the first two bytes, whatever comes after them.
  lemma {:induction false} HeaderThen(first: Byte, masked: bool, code: nat, t: Bytes)
    requires code < 128
    ensures ParseFrame([first, SecondByte(masked, code)] + t) == ParseBody(first % 16, masked, code, t)
  {
    SecondByteParses(masked, code);
    var b := [first, SecondByte(masked, code)] + t;
    assert b[2..] == t;
    assert b[0] == first && b[1] == SecondByte(masked, code);
  }

  /** Whatever follows it, a printed frame parses to its opcode and payload and to its own length. */
  lemma EncodeParses(f: Frame, rest: Bytes)
    requires WellFormed(f)
    ensures ParseFrame(Encode(f) + rest) == Complete(Opcode(f), f.payload, |Encode(f)|)
  {
    var masked, code, body := f.key.Some?, LengthCode(f), Body(f);
    var header := [f.first, SecondByte(masked, code)];
    assert Encode(f) == header + body;
    Regroup(header, body, rest);
    HeaderThen(f.first, masked, code, body + rest);
    assert ParseBody(Opcode(f), masked, code, body + rest) == Complete(Opcode(f), f.payload, 2 + |body|) by {
      BodyParses(Opcode(f), f, rest);
    }
  }

  /** A frame cut short is never taken for a complete one. */
  lemma CutParses(f: Frame, cut: Bytes)
    requires WellFormed(f) && cut < Encode(f)
    ensures ParseFrame(cut) == if |cut| < 2 then NoHeader else Truncated
  {
    if |cut| >= 2 {
      var t := cut[2..];
      assert cut == [f.first, SecondByte(f.key.Some?, LengthCode(f))] + t;
      assert t == Body(f)[..|t|];
      HeaderThen(f.first, f.key.Some?, LengthCode(f), t);
      CutBody(Opcode(f), f, |t|);
    }
  }

  // ---------- receiving ----------

  datatype Received =
    | Message(opcode: Byte, payload: Payload)
    | Closed                       // None: a CLOSE frame, or the stream ended between frames
    | BrokenFrame                  // EOFError: the stream ended inside a frame

  // One `recv_message`: its result, what is left, and the payloads of the PINGs answered on the way.
  datatype Reception = Reception(result: Received, rest: Bytes, pings: seq<Payload>)

  function Receive(b: Bytes): (r: Reception)
    ensures r.result.Message? ==> |r.rest| < |b|
    decreases |b|
  {
    match ParseFrame(b)
    case NoHeader => Reception(Closed, [], [])
    case Truncated => Reception(BrokenFrame, [], [])
    case Complete(opcode, payload, size) =>
      var rest := b[size..];
      if opcode == OPCODE_PING then
        var r := Receive(rest);
        r.(pings := [payload] + r.pings)
      else if opcode == OPCODE_CLOSE then Reception(Closed, rest, [])
      else Reception(Message(opcode, payload), rest, [])
  }

  // A reception by its first frame.
  lemma ReceiveByFrame(b: Bytes, p: Parsed)
    requires p == ParseFrame(b)
    ensures p.NoHeader? ==> Receive(b) == Reception(Closed, [], [])
    ensures p.Truncated? ==> Receive(b) == Reception(BrokenFrame, [], [])
    ensures p.Complete? && p.opcode == OPCODE_PING ==>
              Receive(b) == Receive(b[p.size..]).(pings := [p.payload] + Receive(b[p.size..]).pings)
    ensures p.Complete? && p.opcode == OPCODE_CLOSE ==> Receive(b) == Reception(Closed, b[p.size..], [])
    ensures p.Complete? && p.opcode != OPCODE_PING && p.opcode != OPCODE_CLOSE ==>
              Receive(b) == Reception(Message(p.opcode, p.payload), b[p.size..], [])
  {
  }

  // Receiving until something other than a message comes back.
  datatype Session = Session(messages: seq<Received>, pings: seq<Payload>, end: Received)

  function ReceiveAll(b: Bytes): Session
    decreases |b|
  {
    var r := Receive(b);
    if r.result.Message? then
      var s := ReceiveAll(r.rest);
      Session([r.result] + s.messages, r.pings + s.pings, s.end)
    else Session([], r.pings, r.result)
  }

  // ---------- what a peer's frames amount to ----------

  predicate AllWellFormed(fs: seq<Frame>) { forall f :: f in fs ==> WellFormed(f) }

  function EncodeAll(fs: seq<Frame>): Bytes
    requires AllWellFormed(fs)
  {
    if fs == [] then [] else Encode(fs[0]) + EncodeAll(fs[1..])
  }

  function BeforeClose(fs: seq<Frame>): seq<Frame>
  {
    if fs == [] || Opcode(fs[0]) == OPCODE_CLOSE then [] else [fs[0]] + BeforeClose(fs[1..])
  }

  function Messages(fs: seq<Frame>): seq<Received>
  {
    if fs == [] then []
    else (if Opcode(fs[0]) == OPCODE_PING then [] else [Message(Opcode(fs[0]), fs[0].payload)]) + Messages(fs[1..])
  }

  function Pings(fs: seq<Frame>): seq<Payload>
  {
    if fs == [] then []
    else (if Opcode(fs[0]) == OPCODE_PING then [fs[0].payload] else []) + Pings(fs[1..])
  }

  predicate HasClose(fs: seq<Frame>) { exists i :: 0 <= i < |fs| && Opcode(fs[i]) == OPCODE_CLOSE }

  /** The stream of any well-formed frames, followed by any bytes that are not a complete frame, is
      received as exactly the non-PING frames up to the first CLOSE, in order, and every PING among
      them is answered once; a cut inside a frame shows up only after all complete ones. */
  lemma {:induction false} ReceivesTheFrames(fs: seq<Frame>, tail: Bytes)
    requires AllWellFormed(fs) && !ParseFrame(tail).Complete?
    ensures ReceiveAll(EncodeAll(fs) + tail) ==
            Session(Messages(BeforeClose(fs)), Pings(BeforeClose(fs)),
                    if HasClose(fs) || ParseFrame(tail).NoHeader? then Closed else BrokenFrame)
    decreases |fs|
  {
    if fs == [] {
      assert EncodeAll(fs) + tail == tail;
    } else {
      var f := fs[0];
      assert EncodeAll(fs) + tail == Encode(f) + (EncodeAll(fs[1..]) + tail);
      TakeFrame(f, EncodeAll(fs[1..]) + tail);
      assert HasClose(fs) <==> Opcode(f) == OPCODE_CLOSE || HasClose(fs[1..]) by {
        assert fs == [f] + fs[1..];
      }
      if Opcode(f) != OPCODE_CLOSE {
        ReceivesTheFrames(fs[1..], tail);
        Cons(f, BeforeClose(fs[1..]));
      }
    }
  }

  // The effect of one more frame at the front of a stream.
  lemma TakeFrame(f: Frame, rest: Bytes)
    requires WellFormed(f)
    ensures var s := ReceiveAll(rest);
            ReceiveAll(Encode(f) + rest) ==
            if Opcode(f) == OPCODE_CLOSE then Session([], [], Closed)
            else if Opcode(f) == OPCODE_PING then s.(pings := [f.payload] + s.pings)
            else s.(messages := [Message(Opcode(f), f.payload)] + s.messages)
  {
    ReceiveFrame(f, rest);
    var b := Encode(f) + rest;
    assert ReceiveAll(b) == After(Receive(b)) && ReceiveAll(rest) == After(Receive(rest));
    if Opcode(f) == OPCODE_PING {
      AfterPing(Receive(rest), f.payload);
    } else if Opcode(f) != OPCODE_CLOSE {
      assert [] + ReceiveAll(rest).pings == ReceiveAll(rest).pings;
    }
  }

  lemma ReceiveFrame(f: Frame, rest: Bytes)
    requires WellFormed(f)
    ensures Receive(Encode(f) + rest) ==
            if Opcode(f) == OPCODE_PING then Receive(rest).(pings := [f.payload] + Receive(rest).pings)
            else if Opcode(f) == OPCODE_CLOSE then Reception(Closed, rest, [])
            else Reception(Message(Opcode(f), f.payload), rest, [])
  {
    EncodeParses(f, rest);
    assert (Encode(f) + rest)[|Encode(f)|..] == rest;
  }

  // What all receiving amounts to, given its first reception.
  function After(r: Reception): Session
  {
    if r.result.Message? then
      var s := ReceiveAll(r.rest);
      Session([r.result] + s.messages, r.pings + s.pings, s.end)
    else Session([], r.pings, r.result)
  }

  lemma AfterPing(r: Reception, payload: Payload)
    ensures After(r.(pings := [payload] + r.pings)) == After(r).(pings := [payload] + After(r).pings)
  {
    if r.result.Message? {
      var later := ReceiveAll(r.rest).pings;
      assert ([payload] + r.pings) + later == [payload] + (r.pings + later);
    }
  }

  lemma Cons(f: Frame, fs: seq<Frame>)
    ensures Messages([f] + fs) ==
            (if Opcode(f) == OPCODE_PING then [] else [Message(Opcode(f), f.payload)]) + Messages(fs)
    ensures Pings([f] + fs) == (if Opcode(f) == OPCODE_PING then [f.payload] else []) + Pings(fs)
  {
    assert ([f] + fs)[1..] == fs;
  }

  // ---------- frames the client sends ----------

  // `_send_frame` picks the shortest length form and always masks.
  function ClientFrame(opcode: Byte, payload: Payload, key: Key): (f: Frame)
    requires opcode < 128
    ensures WellFormed(f)
    ensures forall form :: WellFormed(f.(form := form)) ==> Width(f.form) <= Width(form)
  {
    var form := if |payload| < 126 then SevenBit else if |payload| < 65536 then Sixteen else SixtyFour;
    Frame(128 + opcode, form, Some(key), payload)
  }

  /** Anything the client sends parses back to the opcode and payload it was given. */
  lemma ClientFrameParses(opcode: Byte, payload: Payload, key: Key, rest: Bytes)
    requires opcode < 16
    ensures var f := ClientFrame(opcode, payload, key);
            Opcode(f) == opcode && ParseFrame(Encode(f) + rest) == Complete(opcode, payload, |Encode(f)|)
  {
    EncodeParses(ClientFrame(opcode, payload, key), rest);
  }

  // The PONG for a PING payload, masked with the key of one draw.
  function PongFor(keys: nat -> Key): (Payload, nat) -> Bytes
  {
    (ping: Payload, draw: nat) => Encode(ClientFrame(OPCODE_PONG, ping, keys(draw)))
  }

  // The PONG frames for these PINGs, under consecutive masking keys.
  function Pongs(pings: seq<Payload>, keys: nat -> Key, draw: nat): Bytes
  {
    PrintAll(pings, PongFor(keys), draw)
  }

  lemma PongsJoin(sent: Bytes, ping: Payload, pings: seq<Payload>, keys: nat -> Key, draw: nat, all: Bytes)
    requires all == (sent + PongFor(keys)(ping, draw)) + Pongs(pings, keys, draw + 1)
    ensures all == sent + Pongs([ping] + pings, keys, draw)
  {
    PrintCons(ping, pings, PongFor(keys), draw);
    Regroup(sent, PongFor(keys)(ping, draw), Pongs(pings, keys, draw + 1));
  }

  lemma PongComesFirst(ping: Payload, pings: seq<Payload>, keys: nat -> Key, draw: nat)
    ensures var s, later := ReceiveAll(Pongs([ping] + pings, keys, draw)), ReceiveAll(Pongs(pings, keys, draw + 1));
            s == Session([Message(OPCODE_PONG, ping)] + later.messages, later.pings, later.end)
  {
    var f, rest := ClientFrame(OPCODE_PONG, ping, keys(draw)), Pongs(pings, keys, draw + 1);
    PrintCons(ping, pings, PongFor(keys), draw);
    ClientFrameParses(OPCODE_PONG, ping, keys(draw), rest);
    TakeFrame(f, rest);
  }

  /** The peer reads back one PONG per PING, with the PING's own payload and in order. */
  lemma {:induction false} PongsEcho(pings: seq<Payload>, keys: nat -> Key, draw: nat)
    ensures var s := ReceiveAll(Pongs(pings, keys, draw));
            && s.end == Closed && s.pings == []
            && |s.messages| == |pings|
            && forall i :: 0 <= i < |pings| ==> s.messages[i] == Message(OPCODE_PONG, pings[i])
    decreases |pings|
  {
    if pings != [] {
      PongsEcho(pings[1..], keys, draw + 1);
      PongComesFirst(pings[0], pings[1..], keys, draw);
      assert pings == [pings[0]] + pings[1..];
    }
  }
}
