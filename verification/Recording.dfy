/** `BatchRecording`: the audio one push-to-talk recording keeps. */
module Recording {
  import opened Wrappers
  import opened Concatenation

  type Chunk = seq<bv8>

  // What is fixed when the driver stream opens; `limit` is the longest duration in milliseconds.
  datatype Format = Format(channels: nat, sampleRate: nat, limit: Option<nat>)

  // `width` is the size of one sample over all channels in bytes.
  function Frames(width: nat, chunks: seq<Chunk>): nat
    requires width > 0
  {
    if chunks == [] then 0 else Frames(width, chunks[..|chunks| - 1]) + |chunks[|chunks| - 1]| / width
  }

  // Whole milliseconds of the chunks; the program's division is exact and then truncated.
  function DurationMs(f: Format, chunks: seq<Chunk>): nat
    requires f.sampleRate > 0
  {
    if f.channels == 0 then 0 else Frames(2 * f.channels, chunks) * 1000 / f.sampleRate
  }

  predicate Over(f: Format, chunks: seq<Chunk>)
    requires f.sampleRate > 0
  {
    f.limit.Some? && DurationMs(f, chunks) > f.limit.value
  }

  function Join(chunks: seq<Chunk>): Chunk
  {
    if chunks == [] then [] else Join(chunks[..|chunks| - 1]) + chunks[|chunks| - 1]
  }

  datatype Tape = Tape(chunks: seq<Chunk>, closed: bool, exceeded: bool)

  const BLANK := Tape([], false, false)

  function Append(f: Format, t: Tape, chunk: Chunk): (Tape, bool)
    requires f.sampleRate > 0
  {
    if t.closed || t.exceeded then (t, false)
    else
      var kept := t.chunks + [chunk];
      (t.(chunks := kept, exceeded := Over(f, kept)), !Over(f, kept))
  }

  function AppendAll(f: Format, chunks: seq<Chunk>): Tape
    requires f.sampleRate > 0
  {
    if chunks == [] then BLANK
    else Append(f, AppendAll(f, chunks[..|chunks| - 1]), chunks[|chunks| - 1]).0
  }

  /** The first `k` chunks are what a recorder with this limit should keep: nothing shorter is over
      the limit, and nothing was dropped unless they are. */
  predicate IsCut(f: Format, chunks: seq<Chunk>, k: nat)
    requires f.sampleRate > 0
  {
    && k <= |chunks|
    && (forall j :: 0 < j < k ==> !Over(f, chunks[..j]))
    && (k < |chunks| ==> 0 < k && Over(f, chunks[..k]))
  }

  lemma CutIsUnique(f: Format, chunks: seq<Chunk>, k: nat, l: nat)
    requires f.sampleRate > 0 && IsCut(f, chunks, k) && IsCut(f, chunks, l)
    ensures k == l
  {
  }

  // A tape that holds the cut of what it was given, and knows whether it is over.
  predicate Cut(f: Format, chunks: seq<Chunk>, t: Tape)
    requires f.sampleRate > 0
  {
    && !t.closed
    && IsCut(f, chunks, |t.chunks|) && t.chunks == chunks[..|t.chunks|]
    && (t.exceeded <==> t.chunks != [] && Over(f, t.chunks))
  }

  lemma CutSnoc(f: Format, init: seq<Chunk>, chunk: Chunk, t: Tape)
    requires f.sampleRate > 0 && Cut(f, init, t)
    ensures Cut(f, init + [chunk], Append(f, t, chunk).0)
  {
    forall j | 0 <= j <= |init| ensures init[..j] == (init + [chunk])[..j] {
    }
    if !t.exceeded {
      assert t.chunks == init[..|init|] == init;
      assert (init + [chunk])[..|init| + 1] == init + [chunk];
    }
  }

  /** However the driver cuts its audio into chunks, the recording keeps exactly the chunks up to and
      including the first one that takes it over the limit. */
  lemma {:induction false} KeepsUpToTheLimit(f: Format, chunks: seq<Chunk>)
    requires f.sampleRate > 0
    ensures var t := AppendAll(f, chunks);
            && !t.closed
            && IsCut(f, chunks, |t.chunks|) && t.chunks == chunks[..|t.chunks|]
            && (t.exceeded <==> t.chunks != [] && Over(f, t.chunks))
  {
    if chunks != [] {
      var init := chunks[..|chunks| - 1];
      KeepsUpToTheLimit(f, init);
      CutSnoc(f, init, chunks[|chunks| - 1], AppendAll(f, init));
      assert init + [chunks[|chunks| - 1]] == chunks;
    }
  }

  // ---------- the limit in bytes ----------

  function Bytes(chunks: seq<Chunk>): nat
  {
    if chunks == [] then 0 else Bytes(chunks[..|chunks| - 1]) + |chunks[|chunks| - 1]|
  }

  // Every chunk holds whole frames of two bytes for each channel.
  predicate WholeFrames(f: Format, chunks: seq<Chunk>)
    requires f.channels > 0
  {
    forall c :: c in chunks ==> |c| % (2 * f.channels) == 0
  }

  lemma Exact(a: nat, w: nat)
    requires w > 0 && a % w == 0
    ensures w * (a / w) == a
  {
  }

  lemma Distributes(a: nat, b: nat, c: nat)
    ensures a * (b + c) == a * b + a * c
  {
  }

  lemma {:induction false} FramesFillBytes(width: nat, chunks: seq<Chunk>)
    requires width > 0 && forall c :: c in chunks ==> |c| % width == 0
    ensures width * Frames(width, chunks) == Bytes(chunks)
  {
    if chunks != [] {
      var init, last := chunks[..|chunks| - 1], chunks[|chunks| - 1];
      FramesFillBytes(width, init);
      assert last in chunks;
      Exact(|last|, width);
      Distributes(width, Frames(width, init), |last| / width);
    }
  }

  lemma DividedIff(a: nat, r: nat, l: nat)
    requires r > 0
    ensures a / r > l <==> a >= r * (l + 1)
  {
    var q := a / r;
    assert a == r * q + a % r;
    if q > l {
      assert r * q >= r * (l + 1) by {
        Grows(r, l + 1, q);
      }
    } else {
      Grows(r, q + 1, l + 1);
    }
  }

  lemma Grows(r: nat, a: nat, b: nat)
    requires a <= b
    ensures r * a <= r * b
  {
    assert r * b == r * a + r * (b - a);
  }

  lemma ScaledIff(w: nat, a: nat, b: nat)
    requires w > 0
    ensures a >= b <==> w * a >= w * b
  {
    if a >= b {
      Grows(w, b, a);
    } else {
      Grows(w, a + 1, b);
    }
  }

  /** A recording of whole frames is over its limit of L milliseconds exactly from 2 * channels * rate * (L + 1)
      thousandths of a byte on: two bytes a sample, and the millisecond that is not full does not count. */
  lemma OverInBytes(f: Format, chunks: seq<Chunk>)
    requires f.sampleRate > 0 && f.channels > 0 && f.limit.Some? && WholeFrames(f, chunks)
    ensures !Over(f, chunks) <==> Bytes(chunks) * 1000 < 2 * f.channels * f.sampleRate * (f.limit.value + 1)
  {
    FramesFillBytes(2 * f.channels, chunks);
    ScaledOver(2 * f.channels, Frames(2 * f.channels, chunks), f.sampleRate, f.limit.value);
  }

  lemma ScaledOver(w: nat, n: nat, r: nat, l: nat)
    requires w > 0 && r > 0
    ensures n * 1000 / r > l <==> (w * n) * 1000 >= w * r * (l + 1)
  {
    DividedIff(n * 1000, r, l);
    ScaledIff(w, n * 1000, r * (l + 1));
    Associates(w, n, 1000);
    Associates(w, r, l + 1);
  }

  lemma Associates(a: nat, b: nat, c: nat)
    ensures a * (b * c) == a * b * c
  {
  }

  /** Without a limit or without channels nothing is ever over. */
  lemma NeverOver(f: Format, chunks: seq<Chunk>)
    requires f.sampleRate > 0 && (f.limit.None? || f.channels == 0)
    ensures !Over(f, chunks)
  {
  }

  /** The audio is the chunks in the order they came. */
  lemma {:induction false} AudioIsTheChunks(chunks: seq<Chunk>)
    ensures Join(chunks) == Concat(chunks)
  {
    if chunks != [] {
      AudioIsTheChunks(chunks[..|chunks| - 1]);
      ConcatSnoc(chunks[..|chunks| - 1], chunks[|chunks| - 1]);
      assert chunks == chunks[..|chunks| - 1] + [chunks[|chunks| - 1]];
    }
  }

  class BatchRecording {
    const format: Format
    var chunks: seq<Chunk>
    var closed: bool
    var durationExceeded: bool

    ghost function View(): Tape
      reads this
    {
      Tape(chunks, closed, durationExceeded)
    }

    constructor (format: Format)
      ensures this.format == format && View() == BLANK
    {
      this.format := format;
      chunks, closed, durationExceeded := [], false, false;
    }

    method AppendChunk(chunk: Chunk) returns (more: bool)
      requires format.sampleRate > 0
      modifies this
      ensures (View(), more) == Append(format, old(View()), chunk)
    {
      if closed {
        return false;
      }
      if durationExceeded {
        return false;
      }
      chunks := chunks + [chunk];
      if format.limit.Some? {
        var ms := CurrentDurationMs();
        if ms > format.limit.value {
          durationExceeded := true;
          return false;
        }
      }
      return true;
    }

    method CurrentDurationMs() returns (ms: nat)
      requires format.sampleRate > 0
      ensures ms == DurationMs(format, chunks)
    {
      var frameBytes := 2 * format.channels;
      if frameBytes <= 0 {
        return 0;
      }
      var frames := 0;
      for i := 0 to |chunks|
        invariant frames == Frames(frameBytes, chunks[..i])
      {
        assert chunks[..i + 1][..i] == chunks[..i];
        frames := frames + |chunks[i]| / frameBytes;
      }
      assert chunks[..|chunks|] == chunks;
      return frames * 1000 / format.sampleRate;
    }

    /** The audio kept so far, once; None for a recording already closed. */
    method Finalize() returns (pcm: Option<Chunk>)
      modifies this
      ensures closed && durationExceeded == old(durationExceeded)
      ensures if old(closed) then pcm == None && chunks == old(chunks)
              else pcm == Some(Join(old(chunks))) && chunks == []
    {
      if closed {
        return None;
      }
      closed := true;
      var joined: Chunk := [];
      for i := 0 to |chunks|
        invariant joined == Join(chunks[..i])
        invariant chunks == old(chunks) && closed && durationExceeded == old(durationExceeded)
      {
        assert chunks[..i + 1][..i] == chunks[..i];
        joined := joined + chunks[i];
      }
      assert chunks[..|chunks|] == chunks;
      chunks := [];
      return Some(joined);
    }

    method Discard()
      modifies this
      ensures chunks == [] && closed && durationExceeded == old(durationExceeded)
    {
      chunks := [];
      closed := true;
    }
  }
}
