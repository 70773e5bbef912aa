/** What the streaming helper makes of a server's messages.  The JSON of a text frame is an oracle. */
module TranscriptSpec {
  import opened WebSocketSpec
  import opened ByteArithmetic

  datatype Segment = Segment(text: string, startMs: int, endMs: int)

  // A text frame's payload as the helper takes it.
  datatype Reading =
    | Garbled                                        // not UTF-8, or not of the expected shape: an exception
    | Unknown                                        // not JSON, or an event of no interest
    | Failure                                        // an error message: TranscriptionError
    | NoAlternatives
    | Result(text: string, isFinal: bool, speechFinal: bool, startMs: int, durationMs: int)

  type Reader = Payload -> Reading

  datatype Stop = StreamEnded | CutShort | SpeechEnded | Rejected | Raised
  datatype Heard = Heard(segments: seq<Segment>, stop: Stop)

  function ReadingOf(m: Received, read: Reader): Reading
  {
    if m.Message? && m.opcode == OPCODE_TEXT then read(m.payload) else Unknown
  }

  function Yielded(r: Reading): seq<Segment>
  {
    if r.Result? && r.text != "" && r.isFinal then [Segment(r.text, r.startMs, r.startMs + r.durationMs)] else []
  }

  // A result ends the loop by its speech_final flag, even without a text.
  predicate Stops(r: Reading) { r.Garbled? || r.Failure? || (r.Result? && r.speechFinal) }

  function StopOf(r: Reading): Stop
    requires Stops(r)
  {
    if r.Garbled? then Raised else if r.Failure? then Rejected else SpeechEnded
  }

  function EndOf(end: Received): Stop { if end.BrokenFrame? then CutShort else StreamEnded }

  // The loop over a whole list of messages.
  function Listen(messages: seq<Received>, end: Received, read: Reader): Heard
  {
    if messages == [] then Heard([], EndOf(end))
    else
      var r := ReadingOf(messages[0], read);
      if Stops(r) then Heard(Yielded(r), StopOf(r))
      else
        var h := Listen(messages[1..], end, read);
        h.(segments := Yielded(r) + h.segments)
  }

  // The loop over a stream, which reads no further than the message that stops it.
  datatype Hearing = Hearing(heard: Heard, pings: seq<Payload>, rest: Bytes)

  function Hear(b: Bytes, read: Reader): Hearing
    decreases |b|
  {
    var m := Receive(b);
    var r := ReadingOf(m.result, read);
    if !m.result.Message? then Hearing(Heard([], EndOf(m.result)), m.pings, m.rest)
    else if Stops(r) then Hearing(Heard(Yielded(r), StopOf(r)), m.pings, m.rest)
    else Before(Yielded(r), m.pings, Hear(m.rest, read))
  }

  function Before(segments: seq<Segment>, pings: seq<Payload>, h: Hearing): Hearing
  {
    Hearing(Heard(segments + h.heard.segments, h.heard.stop), pings + h.pings, h.rest)
  }

  lemma BeforeTwice(s: seq<Segment>, p: seq<Payload>, t: seq<Segment>, q: seq<Payload>, h: Hearing)
    ensures Before(s, p, Before(t, q, h)) == Before(s + t, p + q, h)
  {
    assert s + (t + h.heard.segments) == (s + t) + h.heard.segments;
    assert p + (q + h.pings) == (p + q) + h.pings;
  }

  /** Reading a stream message by message comes to listening to all its messages, and only PINGs of the
      stream are answered, in order. */
  lemma {:induction false} HearIsListening(b: Bytes, read: Reader)
    ensures Hear(b, read).heard == Listen(ReceiveAll(b).messages, ReceiveAll(b).end, read)
    ensures Hear(b, read).pings <= ReceiveAll(b).pings
    decreases |b|
  {
    var m := Receive(b);
    if m.result.Message? {
      var s := ReceiveAll(m.rest);
      HearIsListening(m.rest, read);
      assert ([m.result] + s.messages)[1..] == s.messages;
    }
  }

  /** A single message, by its opcode and what its text says: only a final result with a text yields a
      segment, over its own span of time, and only the end of speech, an error message or an unreadable text
      stops the loop. */
  lemma OneMessage(opcode: Byte, payload: Payload, end: Received, read: Reader)
    requires !end.Message?
    ensures var h := Listen([Message(opcode, payload)], end, read);
            var closed := if end == Closed then StreamEnded else CutShort;
            if opcode != 0x1 then h == Heard([], closed)
            else match read(payload)
              case Garbled => h == Heard([], Raised)
              case Failure => h == Heard([], Rejected)
              case Unknown => h == Heard([], closed)
              case NoAlternatives => h == Heard([], closed)
              case Result(text, isFinal, speechFinal, start, duration) =>
                && h.segments == (if isFinal && text != "" then [Segment(text, start, start + duration)] else [])
                && h.stop == (if speechFinal then SpeechEnded else closed)
  {
    assert [Message(opcode, payload)][1..] == [];
  }

  /** A list of messages is heard one after the other, up to the one that stops the loop. */
  lemma MessagesInTurn(first: Received, others: seq<Received>, end: Received, read: Reader)
    requires first.Message? && !end.Message?
    ensures var one, h := Listen([first], end, read), Listen(others, end, read);
            Listen([first] + others, end, read) ==
            if one.stop in {SpeechEnded, Rejected, Raised} then one else Heard(one.segments + h.segments, h.stop)
  {
    assert ([first] + others)[1..] == others && [first][1..] == [];
  }

  // ---------- what is lost after the stop ----------

  function SegmentsOf(messages: seq<Received>, read: Reader): seq<Segment>
  {
    if messages == [] then [] else Yielded(ReadingOf(messages[0], read)) + SegmentsOf(messages[1..], read)
  }

  // The messages behind the first that stops the loop.
  function AfterStop(messages: seq<Received>, read: Reader): seq<Received>
  {
    if messages == [] then []
    else if Stops(ReadingOf(messages[0], read)) then messages[1..]
    else AfterStop(messages[1..], read)
  }

  lemma {:induction false} AllIsHeardAndLost(messages: seq<Received>, end: Received, read: Reader)
    ensures SegmentsOf(messages, read) == Listen(messages, end, read).segments + SegmentsOf(AfterStop(messages, read), read)
  {
    if messages != [] {
      var r := ReadingOf(messages[0], read);
      if !Stops(r) {
        AllIsHeardAndLost(messages[1..], end, read);
        var h := Listen(messages[1..], end, read);
        assert Yielded(r) + (h.segments + SegmentsOf(AfterStop(messages[1..], read), read))
            == (Yielded(r) + h.segments) + SegmentsOf(AfterStop(messages[1..], read), read);
      }
    }
  }

  /** Of any frames a server sends, the helper returns every final text in order exactly if none comes
      after the first result that is marked as the end of speech, the first error or the first unreadable
      text frame.  What comes after is never read. */
  lemma TextIsCompleteIff(fs: seq<Frame>, tail: Bytes, read: Reader)
    requires AllWellFormed(fs) && !ParseFrame(tail).Complete?
    ensures var all := Messages(BeforeClose(fs));
            var heard := Hear(EncodeAll(fs) + tail, read).heard;
            && heard.segments <= SegmentsOf(all, read)
            && (heard.segments == SegmentsOf(all, read) <==> SegmentsOf(AfterStop(all, read), read) == [])
  {
    var b, all := EncodeAll(fs) + tail, Messages(BeforeClose(fs));
    ReceivesTheFrames(fs, tail);
    HearIsListening(b, read);
    AllIsHeardAndLost(all, ReceiveAll(b).end, read);
  }

  // Each text frame is a final result; the first kind also ends an utterance.
  const UTTERANCES: Reader := payload => Result("a", true, payload != [], 0, 1)

  lemma TextFrameFirst(f: Frame, fs: seq<Frame>)
    requires Opcode(f) == OPCODE_TEXT
    ensures BeforeClose([f] + fs) == [f] + BeforeClose(fs)
    ensures Messages([f] + fs) == [Message(OPCODE_TEXT, f.payload)] + Messages(fs)
  {
    assert ([f] + fs)[1..] == fs;
  }

  lemma TwoUtterances(one: Payload, two: Payload, end: Received)
    requires one != []
    ensures var messages := [Message(OPCODE_TEXT, one)] + [Message(OPCODE_TEXT, two)];
            && SegmentsOf(messages, UTTERANCES) == [Segment("a", 0, 1), Segment("a", 0, 1)]
            && Listen(messages, end, UTTERANCES) == Heard([Segment("a", 0, 1)], SpeechEnded)
  {
    var first, second := Message(OPCODE_TEXT, one), Message(OPCODE_TEXT, two);
    assert ([first] + [second])[1..] == [second] && [second][1..] == [];
    assert SegmentsOf([second], UTTERANCES) == [Segment("a", 0, 1)];
  }

  /** The witness: of two utterances on one stream the second is lost. */
  lemma SecondUtteranceIsLost(first: Frame, second: Frame)
    requires WellFormed(first) && WellFormed(second) && Opcode(first) == Opcode(second) == OPCODE_TEXT
    requires first.payload != []
    ensures var fs := [first] + [second];
            && AllWellFormed(fs)
            && SegmentsOf(Messages(fs), UTTERANCES) == [Segment("a", 0, 1), Segment("a", 0, 1)]
            && Hear(EncodeAll(fs), UTTERANCES).heard == Heard([Segment("a", 0, 1)], SpeechEnded)
  {
    var fs := [first] + [second];
    var b := EncodeAll(fs);
    assert b + [] == b && [second] + [] == [second];
    TextFrameFirst(second, []);
    TextFrameFirst(first, [second]);
    ReceivesTheFrames(fs, []);
    HearIsListening(b, UTTERANCES);
    assert [Message(OPCODE_TEXT, second.payload)] + [] == [Message(OPCODE_TEXT, second.payload)];
    TwoUtterances(first.payload, second.payload, ReceiveAll(b).end);
  }
}
