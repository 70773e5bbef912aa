/** Splitting a stream of audio frames into speech segments: what the streaming tracker does frame
    by frame, and what that amounts to on the whole stream. */
module SegmentSpec {
  import opened Wrappers

  type Pcm = seq<int>

  datatype Frame = Frame(pcm: Pcm, speech: bool)

  // All times in milliseconds; a `maxSegmentMs` of zero or less means no limit.
  datatype Rules = Rules(minSpeechMs: int, hangoverMs: int, maxSegmentMs: int, frameMs: int)

  datatype Tracker = Tracker(frames: seq<Frame>, speechMs: int, silenceMs: int)

  const IDLE := Tracker([], 0, 0)

  // What becomes of frames: silence outside a segment, a segment, or one with too little speech.
  datatype Piece = Idle(frame: Frame) | Segment(frames: seq<Frame>) | TooShort(frames: seq<Frame>)

  // ---------- the tracker ----------

  function Finalize(r: Rules, t: Tracker): (Tracker, seq<Piece>)
  {
    (IDLE, [if t.speechMs < r.minSpeechMs then TooShort(t.frames) else Segment(t.frames)])
  }

  function Feed(r: Rules, t: Tracker, f: Frame): (Tracker, seq<Piece>)
  {
    if f.speech then
      var u := Tracker(t.frames + [f], t.speechMs + r.frameMs, 0);
      if r.maxSegmentMs > 0 && u.speechMs >= r.maxSegmentMs then Finalize(r, u) else (u, [])
    else
      var u := t.(silenceMs := t.silenceMs + r.frameMs);
      if t.frames == [] then (u, [Idle(f)])
      else
        var v := u.(frames := t.frames + [f]);
        if v.silenceMs >= r.hangoverMs then Finalize(r, v) else (v, [])
  }

  function FeedAll(r: Rules, t: Tracker, fs: seq<Frame>): (Tracker, seq<Piece>)
    decreases |fs|
  {
    if fs == [] then (t, [])
    else
      var (u, p) := Feed(r, t, fs[0]);
      var (v, q) := FeedAll(r, u, fs[1..]);
      (v, p + q)
  }

  // ---------- segments of a whole stream ----------

  function Speech(s: seq<Frame>): nat
  {
    if s == [] then 0 else Speech(s[..|s| - 1]) + if s[|s| - 1].speech then 1 else 0
  }

  // The length of the silence at the end.
  function Trailing(s: seq<Frame>): nat
  {
    if s == [] || s[|s| - 1].speech then 0 else Trailing(s[..|s| - 1]) + 1
  }

  /** Speech is the number of frames with speech. */
  lemma {:induction false} SpeechCounts(s: seq<Frame>)
    ensures Speech(s) == |set i | 0 <= i < |s| && s[i].speech|
  {
    var all := set i | 0 <= i < |s| && s[i].speech;
    if s != [] {
      var init := s[..|s| - 1];
      SpeechCounts(init);
      var before := set i | 0 <= i < |init| && init[i].speech;
      assert all == if s[|s| - 1].speech then before + {|s| - 1} else before;
    }
  }

  /** Trailing is the length of the silence at the end: that many frames without speech, and speech before. */
  lemma {:induction false} TrailingIsSilent(s: seq<Frame>)
    ensures var n := Trailing(s);
            && n <= |s| && (forall i :: |s| - n <= i < |s| ==> !s[i].speech)
            && (n < |s| ==> s[|s| - 1 - n].speech)
  {
    if s != [] && !s[|s| - 1].speech {
      TrailingIsSilent(s[..|s| - 1]);
    }
  }

  // A stretch is complete at its last frame: enough speech when that is speech, enough silence when not.
  predicate Closes(r: Rules, s: seq<Frame>)
    requires s != []
  {
    if s[|s| - 1].speech then r.maxSegmentMs > 0 && Speech(s) * r.frameMs >= r.maxSegmentMs
    else Trailing(s) * r.frameMs >= r.hangoverMs
  }

  // The shortest complete stretch at the front of fs with at least n frames.
  function FirstEnd(r: Rules, fs: seq<Frame>, n: nat): (e: Option<nat>)
    requires 0 < n
    ensures e.Some? ==> n <= e.value <= |fs|
    decreases |fs| - n
  {
    if n > |fs| then None
    else if Closes(r, fs[..n]) then Some(n)
    else FirstEnd(r, fs, n + 1)
  }

  function Classify(r: Rules, s: seq<Frame>): Piece
  {
    if Speech(s) * r.frameMs < r.minSpeechMs then TooShort(s) else Segment(s)
  }

  /** The reference: skip silence up to the next speech frame, cut the shortest complete stretch there,
      and go on behind it.  What never completes is left over. */
  function Split(r: Rules, fs: seq<Frame>): (seq<Piece>, seq<Frame>)
    decreases |fs|
  {
    if fs == [] then ([], [])
    else if !fs[0].speech then
      var (q, rest) := Split(r, fs[1..]);
      ([Idle(fs[0])] + q, rest)
    else match FirstEnd(r, fs, 1)
      case None => ([], fs)
      case Some(n) =>
        var (q, rest) := Split(r, fs[n..]);
        ([Classify(r, fs[..n])] + q, rest)
  }

  // A buffer the tracker can be in: it starts with speech and no part of it was complete.
  predicate Open(r: Rules, b: seq<Frame>)
  {
    b != [] ==> b[0].speech && forall n :: 0 < n <= |b| ==> !Closes(r, b[..n])
  }

  predicate Holds(r: Rules, t: Tracker, b: seq<Frame>)
  {
    && t.frames == b
    && t.speechMs == Speech(b) * r.frameMs
    && (b != [] ==> t.silenceMs == Trailing(b) * r.frameMs)
  }

  lemma Extend(b: seq<Frame>, f: Frame)
    ensures Speech(b + [f]) == Speech(b) + if f.speech then 1 else 0
    ensures Trailing(b + [f]) == if f.speech then 0 else Trailing(b) + 1
  {
    assert (b + [f])[..|b|] == b;
  }

  lemma Times(a: nat, m: int)
    ensures (a + 1) * m == a * m + m
  {
  }

  lemma OpenExtends(r: Rules, b: seq<Frame>, f: Frame)
    requires Open(r, b) && (b != [] || f.speech) && !Closes(r, b + [f])
    ensures Open(r, b + [f])
  {
    forall n | 0 < n <= |b| + 1 ensures !Closes(r, (b + [f])[..n]) {
      if n <= |b| {
        assert (b + [f])[..n] == b[..n];
      } else {
        assert (b + [f])[..n] == b + [f];
      }
    }
  }

  // One frame on an open buffer, in declarative terms.
  lemma {:induction false} FeedOpen(r: Rules, t: Tracker, b: seq<Frame>, f: Frame)
    requires Open(r, b) && Holds(r, t, b)
    ensures var (u, p) := Feed(r, t, f);
            if b == [] && !f.speech then p == [Idle(f)] && Holds(r, u, [])
            else if Closes(r, b + [f]) then p == [Classify(r, b + [f])] && Holds(r, u, [])
            else p == [] && Holds(r, u, b + [f]) && Open(r, b + [f])
  {
    Extend(b, f);
    Times(Speech(b), r.frameMs);
    Times(Trailing(b), r.frameMs);
    if (b != [] || f.speech) && !Closes(r, b + [f]) {
      OpenExtends(r, b, f);
    }
  }

  // The first complete stretch behind an open buffer.
  lemma FirstEndIs(r: Rules, fs: seq<Frame>, n: nat, e: nat)
    requires 0 < n <= e <= |fs| && Closes(r, fs[..e])
    requires forall k :: n <= k < e ==> !Closes(r, fs[..k])
    ensures FirstEnd(r, fs, n) == Some(e)
    decreases e - n
  {
    if n < e {
      FirstEndIs(r, fs, n + 1, e);
    }
  }

  lemma NoEnd(r: Rules, fs: seq<Frame>, n: nat)
    requires 0 < n && forall k :: n <= k <= |fs| ==> !Closes(r, fs[..k])
    ensures FirstEnd(r, fs, n) == None
    decreases |fs| - n
  {
    if n <= |fs| {
      NoEnd(r, fs, n + 1);
    }
  }

  lemma SplitAt(r: Rules, b: seq<Frame>, f: Frame, rest: seq<Frame>)
    requires Open(r, b) && (b != [] || f.speech) && Closes(r, b + [f])
    ensures var (q, left) := Split(r, rest);
            Split(r, (b + [f]) + rest) == ([Classify(r, b + [f])] + q, left)
  {
    var fs := (b + [f]) + rest;
    forall k | 1 <= k < |b| + 1 ensures !Closes(r, fs[..k]) {
      assert fs[..k] == b[..k];
    }
    assert fs[..|b| + 1] == b + [f] && fs[|b| + 1..] == rest;
    FirstEndIs(r, fs, 1, |b| + 1);
    assert fs[0].speech;
  }

  /** Streaming equals splitting the whole: fed frame by frame from any open buffer, the tracker
      produces exactly the pieces of buffer and input taken together, and is left with their rest. */
  lemma {:induction false} StreamingIsSplitting(r: Rules, t: Tracker, b: seq<Frame>, fs: seq<Frame>)
    requires Open(r, b) && Holds(r, t, b)
    ensures var (u, p) := FeedAll(r, t, fs);
            var (q, rest) := Split(r, b + fs);
            p == q && Holds(r, u, rest) && Open(r, rest)
    decreases |fs|
  {
    if fs == [] {
      assert b + fs == b;
      if b != [] {
        NoEnd(r, b, 1);
      }
    } else {
      var f, later := fs[0], fs[1..];
      FeedOpen(r, t, b, f);
      var u := Feed(r, t, f).0;
      assert b + fs == (b + [f]) + later;
      if b == [] && !f.speech {
        StreamingIsSplitting(r, u, [], later);
        assert [] + later == later && ((b + [f]) + later)[1..] == later;
      } else if Closes(r, b + [f]) {
        StreamingIsSplitting(r, u, [], later);
        assert [] + later == later;
        SplitAt(r, b, f, later);
      } else {
        StreamingIsSplitting(r, u, b + [f], later);
      }
    }
  }

  // ---------- what the pieces are ----------

  function FramesOf(p: Piece): seq<Frame>
  {
    match p case Idle(f) => [f] case Segment(s) => s case TooShort(s) => s
  }

  function AllFrames(ps: seq<Piece>): seq<Frame>
  {
    if ps == [] then [] else FramesOf(ps[0]) + AllFrames(ps[1..])
  }

  predicate GoodPiece(r: Rules, p: Piece)
  {
    match p
    case Idle(f) => !f.speech
    case Segment(s) => s != [] && s[0].speech && Speech(s) * r.frameMs >= r.minSpeechMs && Ends(r, s)
    case TooShort(s) => s != [] && s[0].speech && Speech(s) * r.frameMs < r.minSpeechMs && Ends(r, s)
  }

  // Complete at its end and nowhere before.
  predicate Ends(r: Rules, s: seq<Frame>)
    requires s != []
  {
    Closes(r, s) && forall n :: 0 < n < |s| ==> !Closes(r, s[..n])
  }

  lemma FirstEndEnds(r: Rules, fs: seq<Frame>, n: nat)
    requires 0 < n && forall k :: 0 < k < n && k <= |fs| ==> !Closes(r, fs[..k])
    ensures var e := FirstEnd(r, fs, n);
            if e.Some? then Ends(r, fs[..e.value]) else forall k :: 0 < k <= |fs| ==> !Closes(r, fs[..k])
    decreases |fs| - n
  {
    if n <= |fs| {
      if Closes(r, fs[..n]) {
        forall k | 0 < k < n ensures !Closes(r, fs[..n][..k]) {
          assert fs[..n][..k] == fs[..k];
        }
      } else {
        FirstEndEnds(r, fs, n + 1);
      }
    }
  }

  lemma AllFramesCons(p: Piece, ps: seq<Piece>, rest: seq<Frame>)
    ensures AllFrames([p] + ps) + rest == FramesOf(p) + (AllFrames(ps) + rest)
  {
    assert ([p] + ps)[1..] == ps;
  }

  /** Every frame lands exactly once and in order in a piece or in what is left over. */
  lemma {:induction false} SplitKeepsFrames(r: Rules, fs: seq<Frame>)
    ensures AllFrames(Split(r, fs).0) + Split(r, fs).1 == fs
    decreases |fs|
  {
    if fs == [] {
    } else if !fs[0].speech {
      SplitKeepsFrames(r, fs[1..]);
      var (q, rest) := Split(r, fs[1..]);
      AllFramesCons(Idle(fs[0]), q, rest);
    } else {
      var e := FirstEnd(r, fs, 1);
      if e.Some? {
        SplitKeepsFrames(r, fs[e.value..]);
        var (q, rest) := Split(r, fs[e.value..]);
        AllFramesCons(Classify(r, fs[..e.value]), q, rest);
      }
    }
  }

  predicate AllGood(r: Rules, ps: seq<Piece>) { forall i :: 0 <= i < |ps| ==> GoodPiece(r, ps[i]) }

  /** Pieces start with speech, end where they first complete, and are kept exactly when they hold
      enough speech; what is left over could still grow. */
  lemma {:induction false} SplitPieces(r: Rules, fs: seq<Frame>)
    ensures AllGood(r, Split(r, fs).0) && Open(r, Split(r, fs).1)
    decreases |fs|
  {
    if fs != [] {
      if !fs[0].speech {
        SplitPieces(r, fs[1..]);
      } else {
        FirstEndEnds(r, fs, 1);
        var e := FirstEnd(r, fs, 1);
        if e.Some? {
          SplitPieces(r, fs[e.value..]);
          assert GoodPiece(r, Classify(r, fs[..e.value]));
        }
      }
    }
  }

  /** A segment cut by the length limit is thrown away only if the limit is below the required speech. */
  lemma LimitDiscardsOnlyBelowMinimum(r: Rules, p: Piece)
    requires GoodPiece(r, p) && p.TooShort? && p.frames[|p.frames| - 1].speech
    ensures 0 < r.maxSegmentMs < r.minSpeechMs
  {
  }

  // ---------- how long a segment can get ----------

  // The smallest number of frames, but at least one, that fills the time: max(1, ceil(ms / frameMs)).
  function FramesFor(ms: int, frameMs: int): (n: nat)
    requires frameMs > 0
    ensures n >= 1
    decreases ms
  {
    if ms <= frameMs then 1 else 1 + FramesFor(ms - frameMs, frameMs)
  }

  lemma {:induction false} FramesForIsLeast(ms: int, frameMs: int)
    requires frameMs > 0
    ensures var n := FramesFor(ms, frameMs);
            n * frameMs >= ms && (n > 1 ==> (n - 1) * frameMs < ms)
    decreases ms
  {
    if ms > frameMs {
      var n := FramesFor(ms - frameMs, frameMs);
      FramesForIsLeast(ms - frameMs, frameMs);
      Times(n, frameMs);
      Times(n - 1, frameMs);
    }
  }

  lemma Monotone(a: nat, b: nat, m: int)
    requires a <= b && m >= 0
    ensures a * m <= b * m
  {
    assert b * m - a * m == (b - a) * m;
  }

  lemma Fewer(k: nat, ms: int, frameMs: int)
    requires frameMs > 0 && k * frameMs < ms
    ensures k < FramesFor(ms, frameMs)
  {
    FramesForIsLeast(ms, frameMs);
    if k >= FramesFor(ms, frameMs) {
      Monotone(FramesFor(ms, frameMs), k, frameMs);
    }
  }

  lemma OpenPrefix(r: Rules, b: seq<Frame>, f: Frame)
    requires Open(r, b + [f])
    ensures Open(r, b) && !Closes(r, b + [f])
  {
    assert (b + [f])[..|b| + 1] == b + [f];
    forall n | 0 < n <= |b| ensures !Closes(r, b[..n]) {
      assert (b + [f])[..n] == b[..n];
    }
  }

  // The last frame of an open buffer has not reached either limit.
  lemma OpenCounts(r: Rules, init: seq<Frame>, f: Frame)
    requires r.frameMs > 0 && Open(r, init + [f])
    ensures init == [] ==> f.speech && Speech(init) == 0
    ensures !f.speech ==> Trailing(init + [f]) < FramesFor(r.hangoverMs, r.frameMs)
    ensures f.speech && r.maxSegmentMs > 0 ==> Speech(init + [f]) < FramesFor(r.maxSegmentMs, r.frameMs)
  {
    var b := init + [f];
    OpenPrefix(r, init, f);
    Extend(init, f);
    if !f.speech {
      Fewer(Trailing(b), r.hangoverMs, r.frameMs);
    } else if r.maxSegmentMs > 0 {
      Fewer(Speech(b), r.maxSegmentMs, r.frameMs);
    }
  }

  // n times h, one h at a time.
  function Spread(n: nat, h: nat): nat { if n == 0 then 0 else Spread(n - 1, h) + h }

  lemma {:induction false} SpreadIs(n: nat, h: nat)
    ensures Spread(n, h) == n * h
  {
    if n > 0 {
      SpreadIs(n - 1, h);
      Times(n - 1, h);
    }
  }

  lemma {:induction false} OpenSpreads(r: Rules, b: seq<Frame>)
    requires r.frameMs > 0 && b != [] && Open(r, b)
    ensures var h := FramesFor(r.hangoverMs, r.frameMs);
            && 1 <= Speech(b)
            && |b| <= Spread(Speech(b) - 1, h) + 1 + Trailing(b)
            && Trailing(b) <= h - 1
            && (r.maxSegmentMs > 0 ==> Speech(b) <= FramesFor(r.maxSegmentMs, r.frameMs) - 1)
    decreases |b|
  {
    var init, f := b[..|b| - 1], b[|b| - 1];
    assert b == init + [f];
    Extend(init, f);
    OpenPrefix(r, init, f);
    OpenCounts(r, init, f);
    if init != [] {
      OpenSpreads(r, init);
    }
  }

  // In an open buffer every speech frame is followed by less than a hangover of silence.
  lemma {:induction false} OpenBufferSize(r: Rules, b: seq<Frame>)
    requires r.frameMs > 0 && b != [] && Open(r, b)
    ensures var h := FramesFor(r.hangoverMs, r.frameMs);
            && 1 <= Speech(b)
            && |b| <= (Speech(b) - 1) * h + 1 + Trailing(b)
            && Trailing(b) <= h - 1
            && (r.maxSegmentMs > 0 ==> Speech(b) <= FramesFor(r.maxSegmentMs, r.frameMs) - 1)
  {
    OpenSpreads(r, b);
    SpreadIs(Speech(b) - 1, FramesFor(r.hangoverMs, r.frameMs));
  }

  function MaxBuffer(r: Rules): nat
    requires r.frameMs > 0
  {
    (FramesFor(r.maxSegmentMs, r.frameMs) - 1) * FramesFor(r.hangoverMs, r.frameMs)
  }

  lemma OpenBufferBound(r: Rules, b: seq<Frame>)
    requires r.frameMs > 0 && r.maxSegmentMs > 0 && Open(r, b)
    ensures |b| <= MaxBuffer(r)
  {
    var h, m := FramesFor(r.hangoverMs, r.frameMs), FramesFor(r.maxSegmentMs, r.frameMs);
    if b != [] {
      OpenBufferSize(r, b);
      Times(Speech(b) - 1, h);
      Monotone(Speech(b), m - 1, h);
    }
  }

  lemma {:induction false} PieceBound(r: Rules, p: Piece)
    requires r.frameMs > 0 && r.maxSegmentMs > 0 && GoodPiece(r, p)
    ensures |FramesOf(p)| <= MaxBuffer(r) + 1
  {
    if !p.Idle? {
      var s := FramesOf(p);
      var init := s[..|s| - 1];
      forall n | 0 < n <= |init| ensures !Closes(r, init[..n]) {
        assert init[..n] == s[..n];
      }
      OpenBufferBound(r, init);
    }
  }

  /** With a length limit the live buffer never exceeds (M-1)*H frames and no piece (M-1)*H+1, silence
      included, where M and H are the limit and the hangover in frames. */
  lemma {:induction false} SegmentSizeBound(r: Rules, fs: seq<Frame>)
    requires r.frameMs > 0 && r.maxSegmentMs > 0
    ensures var (q, rest) := Split(r, fs);
            && |rest| <= MaxBuffer(r)
            && (forall i :: 0 <= i < |q| ==> |FramesOf(q[i])| <= MaxBuffer(r) + 1)
  {
    SplitPieces(r, fs);
    var (q, rest) := Split(r, fs);
    OpenBufferBound(r, rest);
    forall i | 0 <= i < |q| ensures |FramesOf(q[i])| <= MaxBuffer(r) + 1 {
      PieceBound(r, q[i]);
    }
  }

  // ---------- the bound is reached ----------

  function Silence(f: Frame, n: nat): seq<Frame>
  {
    if n == 0 then [] else Silence(f, n - 1) + [f.(speech := false)]
  }

  // k times: a speech frame and then as much silence as a segment survives.
  function Stretch(r: Rules, f: Frame, k: nat): seq<Frame>
    requires r.frameMs > 0
  {
    if k == 0 then []
    else Stretch(r, f, k - 1) + [f.(speech := true)] + Silence(f, FramesFor(r.hangoverMs, r.frameMs) - 1)
  }

  lemma OneSilence(r: Rules, b: seq<Frame>, f: Frame)
    requires r.frameMs > 0 && Open(r, b) && b != [] && !f.speech
    requires Trailing(b) + 1 < FramesFor(r.hangoverMs, r.frameMs)
    ensures Open(r, b + [f]) && Speech(b + [f]) == Speech(b) && Trailing(b + [f]) == Trailing(b) + 1
  {
    Extend(b, f);
    FramesForIsLeast(r.hangoverMs, r.frameMs);
    Monotone(Trailing(b) + 1, FramesFor(r.hangoverMs, r.frameMs) - 1, r.frameMs);
    OpenExtends(r, b, f);
  }

  lemma OneSpeech(r: Rules, b: seq<Frame>, f: Frame)
    requires r.frameMs > 0 && r.maxSegmentMs > 0 && Open(r, b) && f.speech
    requires Speech(b) + 1 < FramesFor(r.maxSegmentMs, r.frameMs)
    ensures Open(r, b + [f]) && Speech(b + [f]) == Speech(b) + 1 && Trailing(b + [f]) == 0
  {
    Extend(b, f);
    FramesForIsLeast(r.maxSegmentMs, r.frameMs);
    Monotone(Speech(b) + 1, FramesFor(r.maxSegmentMs, r.frameMs) - 1, r.frameMs);
    OpenExtends(r, b, f);
  }

  lemma {:induction false} SilenceStaysOpen(r: Rules, b: seq<Frame>, f: Frame, n: nat)
    requires r.frameMs > 0 && Open(r, b) && b != [] && Trailing(b) == 0
    requires n < FramesFor(r.hangoverMs, r.frameMs)
    ensures Open(r, b + Silence(f, n))
    ensures Speech(b + Silence(f, n)) == Speech(b) && Trailing(b + Silence(f, n)) == n
  {
    if n == 0 {
      assert b + Silence(f, 0) == b;
    } else {
      SilenceStaysOpen(r, b, f, n - 1);
      var s, g := Silence(f, n - 1), f.(speech := false);
      assert b + (s + [g]) == (b + s) + [g];
      assert |b + s| > 0;
      OneSilence(r, b + s, g);
    }
  }

  lemma {:induction false} SilenceLength(f: Frame, n: nat)
    ensures |Silence(f, n)| == n
  {
    if n > 0 {
      SilenceLength(f, n - 1);
    }
  }

  lemma {:induction false} StretchLength(r: Rules, f: Frame, k: nat)
    requires r.frameMs > 0
    ensures |Stretch(r, f, k)| == k * FramesFor(r.hangoverMs, r.frameMs)
  {
    if k > 0 {
      StretchLength(r, f, k - 1);
      SilenceLength(f, FramesFor(r.hangoverMs, r.frameMs) - 1);
      Times(k - 1, FramesFor(r.hangoverMs, r.frameMs));
    }
  }

  lemma {:induction false} StretchStaysOpen(r: Rules, f: Frame, k: nat)
    requires r.frameMs > 0 && r.maxSegmentMs > 0 && k < FramesFor(r.maxSegmentMs, r.frameMs)
    ensures Open(r, Stretch(r, f, k)) && Speech(Stretch(r, f, k)) == k
  {
    if k > 0 {
      StretchStaysOpen(r, f, k - 1);
      OneSpeech(r, Stretch(r, f, k - 1), f.(speech := true));
      SilenceStaysOpen(r, Stretch(r, f, k - 1) + [f.(speech := true)], f, FramesFor(r.hangoverMs, r.frameMs) - 1);
    }
  }

  lemma SplitWhole(r: Rules, b: seq<Frame>, f: Frame)
    requires Open(r, b) && (b != [] || f.speech) && Closes(r, b + [f])
    ensures Split(r, b + [f]) == ([Classify(r, b + [f])], [])
  {
    SplitAt(r, b, f, []);
    assert (b + [f]) + [] == b + [f];
    var p := Classify(r, b + [f]);
    assert [p] + [] == [p];
  }

  /** The bound is exact: under every set of rules there is an input whose only piece has (M-1)*H+1 frames. */
  lemma BoundIsReached(r: Rules, f: Frame)
    requires r.frameMs > 0 && r.maxSegmentMs > 0
    ensures var fs := Stretch(r, f, FramesFor(r.maxSegmentMs, r.frameMs) - 1) + [f.(speech := true)];
            |fs| == MaxBuffer(r) + 1 && Split(r, fs) == ([Classify(r, fs)], [])
  {
    var m := FramesFor(r.maxSegmentMs, r.frameMs);
    var b, g := Stretch(r, f, m - 1), f.(speech := true);
    StretchStaysOpen(r, f, m - 1);
    StretchLength(r, f, m - 1);
    Extend(b, g);
    FramesForIsLeast(r.maxSegmentMs, r.frameMs);
    SplitWhole(r, b, g);
  }
}
