/** `_MinimalWebSocket` over a socket that hands out its bytes in pieces of any size. */
module WebSocket {
  import opened Wrappers
  import opened WebSocketSpec
  import opened TranscriptSpec
  import opened WireFormat
  import opened Printing
  import opened ByteArithmetic

  class Socket {
    var inbound: Bytes   // what the peer has sent and nobody has read; the peer then closes
    var sent: Bytes

    constructor (inbound: Bytes)
      ensures this.inbound == inbound && sent == []
    {
      this.inbound, sent := inbound, [];
    }

    /** Some of the next bytes, at most n of them; none only at the end of the stream. */
    method Recv(n: nat) returns (chunk: Bytes)
      requires n > 0
      modifies this`inbound
      ensures chunk + inbound == old(inbound) && |chunk| <= n
      ensures chunk == [] <==> old(inbound) == []
    {
      if inbound == [] {
        return [];
      }
      var k: nat :| 1 <= k <= n && k <= |inbound|;
      chunk := inbound[..k];
      inbound := inbound[k..];
    }

    method SendAll(data: Bytes)
      modifies this`sent
      ensures sent == old(sent) + data
    {
      sent := sent + data;
    }
  }

  class MinimalWebSocket {
    const sock: Socket
    const random: nat -> Key   // the masking keys os.urandom will yield
    var connected: bool
    var draws: nat

    constructor (sock: Socket, random: nat -> Key)
      ensures this.sock == sock && this.random == random && connected && draws == 0
    {
      this.sock, this.random, connected, draws := sock, random, true, 0;
    }

    /** False, and nothing sent, when there is no connection. */
    method SendFrame(opcode: Byte, payload: Payload) returns (ok: bool)
      requires opcode < 16
      modifies this`draws, sock`sent
      ensures ok == connected
      ensures sock.sent == old(sock.sent) + if ok then Encode(ClientFrame(opcode, payload, random(old(draws)))) else []
      ensures ok ==> |sock.sent| >= |old(sock.sent)|
                     && OnTheWire(sock.sent[|old(sock.sent)|..], opcode, random(old(draws)), payload)
      ensures draws == old(draws) + if ok then 1 else 0
    {
      if !connected {
        return false;
      }
      var finOpcode := 128 + opcode;
      var length := |payload|;
      var maskKey := random(draws);
      draws := draws + 1;
      var lengthBytes: Bytes;
      if length < 126 {
        lengthBytes := [128 + length];
      } else if length < 65536 {
        lengthBytes := [128 + 126] + BigEndian(length, 2);
      } else {
        lengthBytes := [128 + 127] + BigEndian(length, 8);
      }
      var maskedPayload := seq(length, i requires 0 <= i < length => Xor(payload[i], maskKey[i % 4]));
      assert maskedPayload == Mask(payload, maskKey);
      ghost var f := ClientFrame(opcode, payload, maskKey);
      var bytes := [finOpcode] + lengthBytes + maskKey + maskedPayload;
      assert bytes == Encode(f);
      SentOnTheWire(opcode, maskKey, payload);
      sock.SendAll(bytes);
      assert sock.sent[|old(sock.sent)|..] == bytes;
      return true;
    }

    /** The next n bytes, however the socket cuts them; None, with everything read, when the stream
        ends first. */
    method RecvExact(n: nat) returns (r: Option<Bytes>)
      modifies sock`inbound
      ensures if |old(sock.inbound)| >= n
              then r == Some(old(sock.inbound)[..n]) && sock.inbound == old(sock.inbound)[n..]
              else r == None && sock.inbound == []
    {
      var buf: Bytes := [];
      while |buf| < n
        invariant |buf| <= n
        invariant buf + sock.inbound == old(sock.inbound)
        decreases |sock.inbound|, n - |buf|
      {
        var chunk := sock.Recv(n - |buf|);
        if chunk == [] {
          assert old(sock.inbound) == buf;
          return None;
        }
        assert (buf + chunk) + sock.inbound == buf + (chunk + sock.inbound);
        buf := buf + chunk;
      }
      return Some(buf);
    }

    // The length, spelled out after the seven length bits when they say so.
    method RecvLength(code: nat) returns (r: Option<nat>)
      requires code < 128
      modifies sock`inbound
      ensures var t, w := old(sock.inbound), LengthWidth(code);
              if |t| < w then r == None && sock.inbound == []
              else r == Some(LengthOf(code, t)) && sock.inbound == t[w..]
    {
      if code == 126 {
        var b := RecvExact(2);
        return if b.None? then None else Some(FromBigEndian(b.value));
      } else if code == 127 {
        var b := RecvExact(8);
        return if b.None? then None else Some(FromBigEndian(b.value));
      }
      return Some(code);
    }

    // The rest of a frame after its first two bytes.
    method RecvBody(opcode: Byte, masked: bool, code: nat) returns (p: Parsed)
      requires code < 128
      modifies sock`inbound
      ensures p == ParseBody(opcode, masked, code, old(sock.inbound))
      ensures sock.inbound == if p.Complete? then old(sock.inbound)[p.size - 2..] else []
    {
      ghost var t, w := sock.inbound, LengthWidth(code);
      var length := RecvLength(code);
      if length.None? {
        return Truncated;
      }
      if masked {
        var payload := RecvMasked(length.value);
        if payload.None? {
          return Truncated;
        }
        ghost var end := w + 4 + length.value;
        assert t[w..][..4] == t[w..w + 4] && t[w..][4..][..length.value] == t[w + 4..end] && sock.inbound == t[end..];
        return Complete(opcode, payload.value, 2 + LengthWidth(code) + 4 + length.value);
      }
      var body := RecvExact(length.value);
      if body.None? {
        return Truncated;
      }
      assert t[w..][..length.value] == t[w..w + length.value] && sock.inbound == t[w + length.value..];
      return Complete(opcode, body.value, 2 + LengthWidth(code) + length.value);
    }

    // A masking key and n bytes, unmasked.
    method RecvMasked(n: nat) returns (r: Option<Payload>)
      requires n < 0x1_0000_0000_0000_0000
      modifies sock`inbound
      ensures var t := old(sock.inbound);
              if |t| < 4 + n then r == None && sock.inbound == []
              else r == Some(Mask(t[4..][..n], t[..4])) && sock.inbound == t[4..][n..]
    {
      var maskKey := RecvExact(4);
      if maskKey.None? {
        return None;
      }
      var body := RecvExact(n);
      if body.None? {
        return None;
      }
      var payload := seq(n, i requires 0 <= i < n => Xor(body.value[i], maskKey.value[i % 4]));
      assert payload == Mask(body.value, maskKey.value);
      return Some(payload);
    }

    /** One frame off the socket, as `ParseFrame` reads it from the bytes still to come. */
    method RecvFrame() returns (p: Parsed)
      modifies sock`inbound
      ensures p == ParseFrame(old(sock.inbound))
      ensures sock.inbound == if p.Complete? then old(sock.inbound)[p.size..] else []
    {
      ghost var b := sock.inbound;
      var header := RecvExact(2);
      if header.None? {
        return NoHeader;
      }
      var opcode := header.value[0] % 16;
      var masked := header.value[1] >= 128;
      var rawLength := header.value[1] % 128;
      p := RecvBody(opcode, masked, rawLength);
      assert p.Complete? ==> b[2..][p.size - 2..] == b[p.size..];
    }

    // `_send_frame(OPCODE_PONG, payload)` on an open connection.
    method SendPong(payload: Payload)
      requires connected
      modifies this`draws, sock`sent
      ensures sock.sent == old(sock.sent) + PongFor(random)(payload, old(draws)) && draws == old(draws) + 1
    {
      var ok := SendFrame(OPCODE_PONG, payload);
      assert ok;
    }

    // Answer one PING and go on receiving.
    method AnswerPing(payload: Payload) returns (r: Received)
      requires connected
      modifies this`draws, sock
      ensures connected
      ensures r == Receive(old(sock.inbound)).result && sock.inbound == Receive(old(sock.inbound)).rest
      ensures sock.sent == old(sock.sent) + Pongs([payload] + Receive(old(sock.inbound)).pings, random, old(draws))
      ensures draws == old(draws) + 1 + |Receive(old(sock.inbound)).pings|
      decreases |sock.inbound|, 1
    {
      ghost var sent, draw, pings := sock.sent, draws, Receive(sock.inbound).pings;
      SendPong(payload);
      PongsJoin(sent, payload, pings, random, draw, sock.sent + Pongs(pings, random, draws));
      r := RecvMessage();
    }

    /** One message, answering every PING before it. */
    method RecvMessage() returns (r: Received)
      modifies this`draws, sock
      ensures connected == old(connected)
      ensures !connected ==> r == Closed && sock.inbound == old(sock.inbound) && sock.sent == old(sock.sent)
      ensures connected ==> r == Receive(old(sock.inbound)).result && sock.inbound == Receive(old(sock.inbound)).rest
      ensures connected ==> sock.sent == old(sock.sent) + Pongs(Receive(old(sock.inbound)).pings, random, old(draws))
      ensures connected ==> draws == old(draws) + |Receive(old(sock.inbound)).pings|
      decreases |sock.inbound|, 0
    {
      if !connected {
        return Closed;
      }
      ghost var b := sock.inbound;
      var p := RecvFrame();
      ReceiveByFrame(b, p);
      if p.NoHeader? {
        return Closed;
      }
      if p.Truncated? {
        return BrokenFrame;
      }
      if p.opcode == OPCODE_PING {
        r := AnswerPing(p.payload);
        return;
      }
      if p.opcode == OPCODE_CLOSE {
        return Closed;
      }
      return Message(p.opcode, p.payload);
    }

    // One turn of the receive loop, after the PINGs answered so far.
    method ReceiveNext(ghost answered: seq<Payload>, ghost sent: Bytes, ghost draw: nat) returns (r: Received)
      requires connected
      requires sock.sent == sent + Pongs(answered, random, draw) && draws == draw + |answered|
      modifies this`draws, sock
      ensures connected
      ensures r == Receive(old(sock.inbound)).result && sock.inbound == Receive(old(sock.inbound)).rest
      ensures sock.sent == sent + Pongs(answered + Receive(old(sock.inbound)).pings, random, draw)
      ensures draws == draw + |answered + Receive(old(sock.inbound)).pings|
    {
      ghost var pings := Receive(sock.inbound).pings;
      PongsMore(answered, pings, sent, random, draw, sock.sent + Pongs(pings, random, draws));
      r := RecvMessage();
      assert |answered + pings| == |answered| + |pings|;
    }

    /** The receive loop of the streaming helper: the segments it yields, what ended it, and how far it read. */
    method Transcribe(read: Reader) returns (segments: seq<Segment>, stop: Stop)
      requires connected
      modifies this`draws, sock
      ensures Heard(segments, stop) == Hear(old(sock.inbound), read).heard
      ensures sock.inbound == Hear(old(sock.inbound), read).rest
      ensures sock.sent == old(sock.sent) + Pongs(Hear(old(sock.inbound), read).pings, random, old(draws))
    {
      ghost var whole, sent, draw := Hear(sock.inbound, read), sock.sent, draws;
      ghost var answered: seq<Payload> := [];
      segments := [];
      while true
        invariant connected
        invariant whole == Before(segments, answered, Hear(sock.inbound, read))
        invariant sock.sent == sent + Pongs(answered, random, draw) && draws == draw + |answered|
        decreases |sock.inbound|
      {
        ghost var b := sock.inbound;
        var m := ReceiveNext(answered, sent, draw);
        HearOne(segments, answered, b, read);
        answered := answered + Receive(b).pings;
        if !m.Message? {
          return segments, EndOf(m);
        }
        var r := ReadingOf(m, read);
        segments := segments + Yielded(r);
        if Stops(r) {
          return segments, StopOf(r);
        }
      }
    }
  }

  // What one more reception adds to the PONGs.
  lemma PongsMore(answered: seq<Payload>, pings: seq<Payload>, sent: Bytes, keys: nat -> Key, draw: nat, all: Bytes)
    requires all == (sent + Pongs(answered, keys, draw)) + Pongs(pings, keys, draw + |answered|)
    ensures all == sent + Pongs(answered + pings, keys, draw)
  {
    Regroup(sent, Pongs(answered, keys, draw), Pongs(pings, keys, draw + |answered|));
    PrintConcat(answered, pings, PongFor(keys), draw);
  }

  // What it adds to all that is heard.
  lemma HearOne(segments: seq<Segment>, answered: seq<Payload>, b: Bytes, read: Reader)
    ensures var m := Receive(b);
            var r := ReadingOf(m.result, read);
            Before(segments, answered, Hear(b, read)) ==
            if !m.result.Message? then Hearing(Heard(segments, EndOf(m.result)), answered + m.pings, m.rest)
            else if Stops(r) then Hearing(Heard(segments + Yielded(r), StopOf(r)), answered + m.pings, m.rest)
            else Before(segments + Yielded(r), answered + m.pings, Hear(m.rest, read))
  {
    var m := Receive(b);
    assert segments + [] == segments;
    if m.result.Message? {
      BeforeTwice(segments, answered, Yielded(ReadingOf(m.result, read)), m.pings, Hear(m.rest, read));
    }
  }
}
