/** `SegmentTracker`: the streaming form of `SegmentSpec`. */
module Segmenter {
  import opened Wrappers
  import opened SegmentSpec
  import opened Concatenation

  function Chunks(fs: seq<Frame>): seq<Pcm>
  {
    seq(|fs|, i requires 0 <= i < |fs| => fs[i].pcm)
  }

  function Join(chunks: seq<Pcm>): Pcm
  {
    if chunks == [] then [] else Join(chunks[..|chunks| - 1]) + chunks[|chunks| - 1]
  }

  /** The PCM of a segment is that of its frames, in order. */
  lemma {:induction false} PcmIsTheFrames(chunks: seq<Pcm>)
    ensures Join(chunks) == Concat(chunks)
  {
    if chunks != [] {
      PcmIsTheFrames(chunks[..|chunks| - 1]);
      ConcatSnoc(chunks[..|chunks| - 1], chunks[|chunks| - 1]);
      assert chunks == chunks[..|chunks| - 1] + [chunks[|chunks| - 1]];
    }
  }

  // The PCM a call returns for what became of its frame.
  function Returned(pieces: seq<Piece>): Option<Pcm>
  {
    if pieces != [] && pieces[0].Segment? then Some(Join(Chunks(pieces[0].frames))) else None
  }

  // `flush`: a forced one returns whatever is buffered.
  function Flushed(r: Rules, t: Tracker, force: bool): (Tracker, Option<Pcm>)
  {
    if t.frames == [] then (t, None)
    else (IDLE, if force || t.speechMs >= r.minSpeechMs then Some(Join(Chunks(t.frames))) else None)
  }

  /** What a flush gives, by the buffered frames: all of them when forced, otherwise only with the required
      speech among them; and nothing is left but a silence already counted. */
  lemma FlushTable(r: Rules, t: Tracker, b: seq<Frame>, force: bool)
    requires Holds(r, t, b)
    ensures var (u, pcm) := Flushed(r, t, force);
            && (pcm.Some? <==> b != [] && (force || Speech(b) * r.frameMs >= r.minSpeechMs))
            && (pcm.Some? ==> pcm.value == Concat(Chunks(b)))
            && u.frames == [] && Holds(r, u, [])
  {
    PcmIsTheFrames(Chunks(b));
  }

  class SegmentTracker {
    const rules: Rules
    var segmentFrames: seq<Pcm>
    var speechMs: int
    var silenceMs: int
    ghost var labelled: seq<Frame>   // the buffered frames with the detector's verdicts

    ghost predicate Valid()
      reads this
    {
      segmentFrames == Chunks(labelled)
    }

    ghost function View(): Tracker
      reads this
    {
      Tracker(labelled, speechMs, silenceMs)
    }

    constructor (rules: Rules)
      ensures this.rules == rules && Valid() && View() == IDLE
    {
      this.rules := rules;
      segmentFrames, speechMs, silenceMs, labelled := [], 0, 0, [];
    }

    method Reset()
      modifies this
      ensures Valid() && View() == IDLE
    {
      segmentFrames, speechMs, silenceMs, labelled := [], 0, 0, [];
    }

    method Feed(chunk: Pcm, isSpeech: bool) returns (r: Option<Pcm>)
      requires Valid()
      modifies this
      ensures Valid()
      ensures var (t, pieces) := SegmentSpec.Feed(rules, old(View()), Frame(chunk, isSpeech));
              View() == t && r == Returned(pieces)
    {
      if isSpeech {
        speechMs := speechMs + rules.frameMs;
        silenceMs := 0;
        segmentFrames := segmentFrames + [chunk];
        labelled := labelled + [Frame(chunk, isSpeech)];
        if rules.maxSegmentMs > 0 && speechMs >= rules.maxSegmentMs {
          r := FinalizeSegment(true);
          return;
        }
        return None;
      }
      silenceMs := silenceMs + rules.frameMs;
      if segmentFrames != [] {
        segmentFrames := segmentFrames + [chunk];
        labelled := labelled + [Frame(chunk, isSpeech)];
      }
      if segmentFrames != [] && silenceMs >= rules.hangoverMs {
        r := FinalizeSegment(true);
        return;
      }
      return None;
    }

    method Flush(force: bool) returns (r: Option<Pcm>)
      requires Valid()
      modifies this
      ensures Valid() && (View(), r) == Flushed(rules, old(View()), force)
    {
      if segmentFrames == [] {
        return None;
      }
      if force || speechMs >= rules.minSpeechMs {
        r := FinalizeSegment(!force);
        return;
      }
      Reset();
      return None;
    }

    method FinalizeSegment(requireMinSpeech: bool) returns (r: Option<Pcm>)
      requires Valid()
      modifies this
      ensures Valid()
      ensures old(labelled) == [] ==> View() == old(View()) && r == None
      ensures old(labelled) != [] ==>
                && View() == IDLE
                && r == if requireMinSpeech && old(speechMs) < rules.minSpeechMs then None
                        else Some(Join(Chunks(old(labelled))))
    {
      if segmentFrames == [] {
        return None;
      }
      if requireMinSpeech && speechMs < rules.minSpeechMs {
        Reset();
        return None;
      }
      var pcm: Pcm := [];
      for i := 0 to |segmentFrames|
        invariant pcm == Join(segmentFrames[..i]) && Valid() && View() == old(View())
      {
        assert segmentFrames[..i + 1][..i] == segmentFrames[..i];
        pcm := pcm + segmentFrames[i];
      }
      assert segmentFrames[..|segmentFrames|] == segmentFrames;
      Reset();
      return Some(pcm);
    }
  }

  // The PCM of the kept segments, in order.
  function Kept(pieces: seq<Piece>): seq<Pcm>
  {
    if pieces == [] then []
    else (if pieces[0].Segment? then [Join(Chunks(pieces[0].frames))] else []) + Kept(pieces[1..])
  }

  lemma {:induction false} KeptConcat(a: seq<Piece>, b: seq<Piece>)
    ensures Kept(a + b) == Kept(a) + Kept(b)
  {
    if a == [] {
      assert a + b == b;
    } else {
      assert (a + b)[1..] == a[1..] + b;
      KeptConcat(a[1..], b);
    }
  }

  lemma FeedGivesOnePiece(r: Rules, t: Tracker, f: Frame)
    ensures var p := SegmentSpec.Feed(r, t, f).1;
            |p| <= 1 && Kept(p) == if Returned(p).Some? then [Returned(p).value] else []
  {
    var p := SegmentSpec.Feed(r, t, f).1;
    if p != [] {
      assert p == [p[0]];
      assert Kept(p[1..]) == [];
    }
  }

  lemma {:induction false} FeedAllSnoc(r: Rules, t: Tracker, fs: seq<Frame>, f: Frame)
    ensures var (u, p) := FeedAll(r, t, fs);
            var (v, q) := SegmentSpec.Feed(r, u, f);
            FeedAll(r, t, fs + [f]) == (v, p + q)
    decreases |fs|
  {
    if fs == [] {
      assert fs + [f] == [f];
      var (v, q) := SegmentSpec.Feed(r, t, f);
      assert [f][1..] == [] && FeedAll(r, v, []) == (v, []);
      assert q + [] == q && [] + q == q;
    } else {
      assert (fs + [f])[0] == fs[0] && (fs + [f])[1..] == fs[1..] + [f];
      var (w, first) := SegmentSpec.Feed(r, t, fs[0]);
      FeedAllSnoc(r, w, fs[1..], f);
      var (u, others) := FeedAll(r, w, fs[1..]);
      assert (first + others) + SegmentSpec.Feed(r, u, f).1 == first + (others + SegmentSpec.Feed(r, u, f).1);
    }
  }

  /** A capture session: every frame fed to a new tracker, then a forced flush.  What comes out is the
      PCM of exactly the kept pieces of the whole stream, and then of whatever was left over. */
  method Session(rules: Rules, fs: seq<Frame>) returns (out: seq<Pcm>)
    ensures var (pieces, rest) := Split(rules, fs);
            out == Kept(pieces) + if rest == [] then [] else [Join(Chunks(rest))]
  {
    var tracker := new SegmentTracker(rules);
    out := [];
    for i := 0 to |fs|
      invariant tracker.Valid() && tracker.rules == rules && fresh(tracker)
      invariant tracker.View() == FeedAll(rules, IDLE, fs[..i]).0
      invariant out == Kept(FeedAll(rules, IDLE, fs[..i]).1)
    {
      ghost var before := FeedAll(rules, IDLE, fs[..i]);
      FeedAllSnoc(rules, IDLE, fs[..i], fs[i]);
      assert fs[..i + 1] == fs[..i] + [fs[i]];
      FeedGivesOnePiece(rules, before.0, fs[i]);
      KeptConcat(before.1, SegmentSpec.Feed(rules, before.0, fs[i]).1);
      var r := tracker.Feed(fs[i].pcm, fs[i].speech);
      if r.Some? {
        out := out + [r.value];
      }
    }
    assert fs[..|fs|] == fs && [] + fs == fs;
    StreamingIsSplitting(rules, IDLE, [], fs);
    var r := tracker.Flush(true);
    if r.Some? {
      out := out + [r.value];
    }
  }
}
