/** The bytes on the wire, bit by bit: frames in the terms of sections 5.2 and 5.3 of RFC 6455, without the
    functions that print or parse them. */
module WireFormat {
  import opened Wrappers
  import opened ByteArithmetic
  import opened Printing
  import opened WebSocketSpec

  // ---------- exclusive or ----------

  // The values of the eight bits of a byte, lowest first.
  const WEIGHTS: seq<nat> := [1, 2, 4, 8, 16, 32, 64, 128]

  predicate Bit(n: nat, j: nat)
    requires j < 8
  {
    n / WEIGHTS[j] % 2 == 1
  }

  lemma {:induction false} XorBitsAt(a: nat, b: nat, bits: nat, j: nat)
    requires j < bits
    ensures (XorBits(a, b, bits) / Pow2(j)) % 2 == 1 <==> (a / Pow2(j) % 2 == 1) != (b / Pow2(j) % 2 == 1)
    decreases bits
  {
    var high, low := XorBits(a / 2, b / 2, bits - 1), XorBit(a % 2, b % 2);
    Halves(high, low);
    if j == 0 {
      assert Pow2(0) == 1;
    } else {
      XorBitsAt(a / 2, b / 2, bits - 1, j - 1);
      HalfOf(XorBits(a, b, bits), j);
      HalfOf(a, j);
      HalfOf(b, j);
    }
  }

  lemma HalfOf(n: nat, j: nat)
    requires j > 0
    ensures n / Pow2(j) == (n / 2) / Pow2(j - 1)
  {
    Divided(n, Pow2(j - 1));
  }

  // Dividing by 2p is dividing by 2 and then by p.
  lemma Divided(n: nat, p: nat)
    requires p > 0
    ensures n / (2 * p) == (n / 2) / p
  {
    var q, r := n / (2 * p), n % (2 * p);
    assert n == 2 * p * q + r;
    assert n / 2 == p * q + r / 2 by {
      assert 2 * (p * q) == 2 * p * q;
    }
    assert r / 2 < p;
    Quotients(n / 2, p, q, r / 2);
  }

  lemma Quotients(n: nat, p: nat, q: nat, r: nat)
    requires n == p * q + r && r < p
    ensures n / p == q
  {
    var d := n / p;
    assert n == p * d + n % p;
    if d > q {
      Times(p, q + 1, d);
    } else if d < q {
      Times(p, d + 1, q);
    }
  }

  lemma Times(p: nat, a: nat, b: nat)
    requires a <= b
    ensures p * a <= p * b && p * a == p * (a - 1) + p
  {
  }

  lemma Weights(j: nat)
    requires j < 8
    ensures WEIGHTS[j] == Pow2(j)
  {
    assert Pow2(0) == 1 && Pow2(1) == 2 && Pow2(2) == 4 && Pow2(3) == 8;
    assert Pow2(4) == 16 && Pow2(5) == 32 && Pow2(6) == 64 && Pow2(7) == 128;
  }

  /** A bit of the mask flips the bit of the byte: it is set afterwards exactly if one of the two was. */
  lemma XorIsExclusive(a: Byte, b: Byte, j: nat)
    requires j < 8
    ensures Bit(Xor(a, b), j) <==> Bit(a, j) != Bit(b, j)
  {
    Weights(j);
    XorBitsAt(a, b, 8, j);
  }

  // Two bytes with the same bits are the same.
  predicate Differs(a: Byte, b: Byte, x: Byte) { forall j :: 0 <= j < 8 ==> (Bit(x, j) <==> Bit(a, j) != Bit(b, j)) }

  lemma XorDiffers(a: Byte, b: Byte)
    ensures Differs(a, b, Xor(a, b))
  {
    forall j | 0 <= j < 8 ensures Bit(Xor(a, b), j) <==> Bit(a, j) != Bit(b, j) {
      XorIsExclusive(a, b, j);
    }
  }

  // ---------- lengths ----------

  function Weight256(k: nat): (w: nat) ensures w > 0 { if k == 0 then 1 else 256 * Weight256(k - 1) }

  // n spelled with the most significant byte first.
  predicate Spells(b: Bytes, n: nat)
  {
    forall i :: 0 <= i < |b| ==> b[i] == n / Weight256(|b| - 1 - i) % 256
  }

  lemma {:induction false} BigEndianSpells(n: nat, w: nat)
    ensures Spells(BigEndian(n, w), n)
  {
    if w > 0 {
      var high := BigEndian(n / 256, w - 1);
      BigEndianSpells(n / 256, w - 1);
      forall i | 0 <= i < w ensures BigEndian(n, w)[i] == n / Weight256(w - 1 - i) % 256 {
        if i < w - 1 {
          assert BigEndian(n, w)[i] == high[i];
          Divided256(n, w - 2 - i);
        } else {
          assert Weight256(0) == 1;
        }
      }
    }
  }

  lemma Divided256(n: nat, k: nat)
    ensures n / Weight256(k + 1) == (n / 256) / Weight256(k)
  {
    DividedBy256(n, Weight256(k));
  }

  lemma DividedBy256(n: nat, p: nat)
    requires p > 0
    ensures n / (256 * p) == (n / 256) / p
  {
    var q, r := n / (256 * p), n % (256 * p);
    assert n == 256 * p * q + r;
    assert n / 256 == p * q + r / 256 by {
      assert 256 * (p * q) == 256 * p * q;
    }
    assert r / 256 < p;
    Quotients(n / 256, p, q, r / 256);
  }

  // ---------- frames ----------

  // Where the key of a frame stands, behind its length.
  function KeyAt(n: nat): nat { if n < 126 then 2 else if n < 65536 then 4 else 10 }

  // A masked frame of one piece: FIN and the opcode, the mask bit and the length in its shortest form, the
  // length bytes, the key, and the payload under the key.
  ghost predicate OnTheWire(b: Bytes, opcode: Byte, key: Key, payload: Payload)
  {
    var n := |payload|;
    var at := KeyAt(n);
    && |b| == at + 4 + n
    && b[0] == 0x80 + opcode
    && b[1] == 0x80 + (if n < 126 then n else if n < 65536 then 126 else 127)
    && Spells(b[2..at], n)
    && b[at..at + 4] == key
    && forall i :: 0 <= i < n ==> Differs(payload[i], key[i % 4], b[at + 4 + i])
  }

  /** A printed frame, whoever sends it, begins with its first byte, says whether it is masked and how long it
      is, spells the length where the seven bits do not hold it, and ends in its payload, under the key if
      there is one. */
  lemma FramesOnTheWire(f: Frame)
    requires WellFormed(f)
    ensures var b, n := Encode(f), |f.payload|;
            var at := match f.form case SevenBit => 2 case Sixteen => 4 case SixtyFour => 10;
            && |b| == at + (if f.key.Some? then 4 else 0) + n
            && b[0] == f.first
            && b[1] == (if f.key.Some? then 0x80 else 0)
                       + (match f.form case SevenBit => n case Sixteen => 126 case SixtyFour => 127)
            && Spells(b[2..at], n)
            && (f.key.None? ==> b[at..] == f.payload)
            && (f.key.Some? ==> b[at..at + 4] == f.key.value
                                && forall i :: 0 <= i < n ==> Differs(f.payload[i], f.key.value[i % 4], b[at + 4 + i]))
  {
    var b, n := Encode(f), |f.payload|;
    var at := 2 + Width(f.form);
    BigEndianSpells(if f.form.SevenBit? then 0 else n, Width(f.form));
    assert b[2..at] == BigEndian(if f.form.SevenBit? then 0 else n, Width(f.form));
    if f.key.Some? {
      var key := f.key.value;
      assert b[at..at + 4] == key;
      forall i | 0 <= i < n ensures Differs(f.payload[i], key[i % 4], b[at + 4 + i]) {
        assert b[at + 4 + i] == Mask(f.payload, key)[i];
        XorDiffers(f.payload[i], key[i % 4]);
      }
    } else {
      assert b[at..] == f.payload;
    }
  }

  /** Every frame the client sends has the bytes of a masked frame of one piece, for every opcode, key and
      payload. */
  lemma SentOnTheWire(opcode: Byte, key: Key, payload: Payload)
    requires opcode < 16
    ensures OnTheWire(Encode(ClientFrame(opcode, payload, key)), opcode, key, payload)
  {
    FramesOnTheWire(ClientFrame(opcode, payload, key));
  }

  // ---------- the opcodes that matter ----------

  // An unmasked frame of one piece with a short payload.
  lemma ShortFrame(first: Byte, payload: Payload)
    requires |payload| < 126
    ensures var f := Frame(first, SevenBit, None, payload);
            WellFormed(f) && Encode(f) == [first, |payload|] + payload
  {
    var f := Frame(first, SevenBit, None, payload);
    assert Body(f) == [] + payload == payload;
  }

  /** A CLOSE of the peer ends the conversation, a PING is answered and passed over, and every other frame of
      one piece is a message with its opcode. */
  lemma ReceivedOnTheWire(first: Byte, payload: Payload, rest: Bytes)
    requires |payload| < 126 && 0x80 <= first < 0x90
    ensures var r := Receive([first, |payload|] + payload + rest);
            && (first == 0x88 ==> r == Reception(Closed, rest, []))
            && (first == 0x89 ==> r == Receive(rest).(pings := [payload] + Receive(rest).pings))
            && (first != 0x88 && first != 0x89 ==> r == Reception(Message(first - 0x80, payload), rest, []))
  {
    ShortFrame(first, payload);
    ReceiveFrame(Frame(first, SevenBit, None, payload), rest);
  }

  /** The answer to a PING is the bytes of a PONG with its payload. */
  lemma PongOnTheWire(payload: Payload, keys: nat -> Key, draw: nat)
    ensures OnTheWire(Pongs([payload], keys, draw), 0xA, keys(draw), payload)
  {
    SentOnTheWire(0xA, keys(draw), payload);
    var pong := PongFor(keys)(payload, draw);
    PrintCons(payload, [], PongFor(keys), draw);
    assert [payload] + [] == [payload];
    assert Pongs([payload], keys, draw) == pong + [] == pong;
  }
}
