/** The tone generator itself: buffers filled in place from whole frames, with the unread part of the last
    frame kept for the next call. */
module ToneGenerator {
  import opened ToneStream

  /** `s` with `bytes` written over it at `at`. */
  function Splice(s: seq<Byte>, at: nat, bytes: seq<Byte>): (r: seq<Byte>)
    requires at + |bytes| <= |s|
    ensures |r| == |s|
  {
    s[..at] + bytes + s[at + |bytes|..]
  }

  function Zeros(n: nat): (r: seq<Byte>)
    ensures |r| == n && forall i :: 0 <= i < n ==> r[i] == 0
  {
    seq(n, _ => 0)
  }

  lemma SpliceTwice(s: seq<Byte>, at: nat, a: seq<Byte>, b: seq<Byte>)
    requires at + |a| + |b| <= |s|
    ensures Splice(Splice(s, at, a), at + |a|, b) == Splice(s, at, a + b)
  {
  }

  lemma SpliceAll(s: seq<Byte>, bytes: seq<Byte>)
    requires |bytes| == |s|
    ensures Splice(s, 0, bytes) == bytes
  {
  }

  lemma SpliceKeepsRest(s: seq<Byte>, bytes: seq<Byte>)
    requires |bytes| <= |s|
    ensures Splice(s, 0, bytes)[|bytes|..] == s[|bytes|..]
  {
  }

  lemma SpliceSlice(s: seq<Byte>, kept: seq<Byte>, offset: nat, n: nat)
    requires offset + n <= |kept| && n <= |s|
    ensures Splice(s, 0, kept[offset..offset + n])[..n] == kept[offset..][..n]
  {
  }

  /** Writing the front of a stretch leaves its rest as it was. */
  lemma SpliceFront(s: seq<Byte>, at: nat, size: nat, front: seq<Byte>)
    requires |front| <= size && at + size <= |s|
    ensures Splice(s, at, front + s[at..at + size][|front|..]) == Splice(s, at, front)
  {
  }

  /** Frames `j` to `k` of the stream. */
  function Suffix(t: Tone, j: nat, k: nat): (r: seq<Byte>)
    requires t.Valid() && t.FullyWritten() && j <= k
    ensures |r| == |Frames(t, k)| - |Frames(t, j)|
  {
    FramesGrow(t, j, k);
    Frames(t, k)[|Frames(t, j)|..]
  }

  lemma SuffixGrows(t: Tone, j: nat, k: nat)
    requires t.Valid() && t.FullyWritten() && j <= k
    ensures Suffix(t, j, k + 1) == Suffix(t, j, k) + Frame(t, PhaseAt(t, k))
  {
    FramesGrow(t, j, k);
  }

  lemma SampleSize(t: Tone, theta: real)
    requires t.Valid()
    ensures |t.sample(theta)| == t.bits / 8
  {
  }

  lemma FrameTail(t: Tone, k: nat, n: nat)
    requires t.Valid() && t.FullyWritten() && n <= t.frameSize
    ensures var all := Frames(t, k + 1);
      |all| >= n && all[|all| - n..] == Frame(t, PhaseAt(t, k))[t.frameSize - n..]
  {
  }

  /** What a call delivers, piece by piece: kept bytes, whole frames, and the beginning of one more. */
  function Pieces(t: Tone, p: Position, whole: nat, tail: nat): seq<Byte>
    requires t.Valid() && t.FullyWritten() && p.residual <= |Frames(t, p.frames)| && tail < t.frameSize
  {
    var kept := Frames(t, p.frames);
    kept[|kept| - p.residual..] + Suffix(t, p.frames, p.frames + whole) +
    Frame(t, PhaseAt(t, p.frames + whole))[..tail]
  }

  lemma PiecesJoin(first: seq<Byte>, middle: seq<Byte>, all: seq<Byte>, residual: nat, tail: seq<Byte>)
    requires first <= middle && residual <= |first| && middle + tail <= all
    ensures first[|first| - residual..] + middle[|first|..] + tail == all[|first| - residual..|middle| + |tail|]
  {
  }

  lemma FrontFits(a: seq<Byte>, b: seq<Byte>, n: nat)
    requires n <= |b|
    ensures a + b[..n] <= a + b
    ensures n == 0 ==> a + b[..n] == a
  {
  }

  lemma TailFits(t: Tone, k: nat, tail: nat, last: nat)
    requires t.Valid() && t.FullyWritten() && tail < t.frameSize && last == k + (if tail == 0 then 0 else 1)
    ensures Frames(t, k) + Frame(t, PhaseAt(t, k))[..tail] <= Frames(t, last)
  {
    FrontFits(Frames(t, k), Frame(t, PhaseAt(t, k)), tail);
    if tail != 0 {
      assert Frames(t, last) == Frames(t, k) + Frame(t, PhaseAt(t, k));
    }
  }

  lemma PiecesIs(t: Tone, p: Position, whole: nat, tail: nat)
    requires t.Valid() && t.FullyWritten() && p.residual <= |Frames(t, p.frames)| && tail < t.frameSize
    ensures var first, middle := Frames(t, p.frames), Frames(t, p.frames + whole);
      && |first| <= |middle|
      && Pieces(t, p, whole, tail) ==
           first[|first| - p.residual..] + middle[|first|..] + Frame(t, PhaseAt(t, p.frames + whole))[..tail]
  {
    FramesGrow(t, p.frames, p.frames + whole);
  }

  lemma PiecesAreStream(t: Tone, p: Position, whole: nat, tail: nat, last: nat)
    requires t.Valid() && t.FullyWritten() && p.residual <= |Frames(t, p.frames)| && tail < t.frameSize
    requires last == p.frames + whole + (if tail == 0 then 0 else 1)
    ensures var a, k := |Frames(t, p.frames)| - p.residual, |Frames(t, p.frames + whole)|;
      && a <= k + tail <= |Frames(t, last)|
      && Pieces(t, p, whole, tail) == Frames(t, last)[a..k + tail]
  {
    var m := p.frames + whole;
    PiecesIs(t, p, whole, tail);
    FramesGrow(t, p.frames, m);
    TailFits(t, m, tail, last);
    var end := Frame(t, PhaseAt(t, m))[..tail];
    assert |end| == tail;
    PiecesJoin(Frames(t, p.frames), Frames(t, m), Frames(t, last), p.residual, end);
  }

  /** `n` frame sizes. */
  function Span(n: nat, size: nat): nat {
    if n == 0 then 0 else Span(n - 1, size) + size
  }

  lemma {:induction false} SpanIsProduct(n: nat, size: nat)
    ensures Span(n, size) == n * size
  {
    if n > 0 {
      SpanIsProduct(n - 1, size);
    }
  }

  method FrameBytes(channels: nat, bits: nat) returns (size: nat)
    requires bits == 8 || bits == 16 || bits == 24 || bits == 32
    ensures size == BytesPerFrame(channels, bits)
  {
    size := channels * bits / 8;
    BytesPerFrameFormula(channels, bits);
  }

  lemma {:induction false} FramesSpan(t: Tone, j: nat, n: nat)
    requires t.Valid() && t.FullyWritten()
    ensures |Frames(t, j + n)| == |Frames(t, j)| + Span(n, t.frameSize)
  {
    if n > 0 {
      FramesSpan(t, j, n - 1);
    }
  }

  lemma {:induction false} ConsumeParts(frames: nat, size: nat, whole: nat, tail: nat)
    requires tail < size
    decreases whole
    ensures Consume(frames, Span(whole, size) + tail, size) ==
      Position(frames + whole + (if tail == 0 then 0 else 1), if tail == 0 then 0 else size - tail)
  {
    if whole > 0 {
      ConsumeParts(frames + 1, size, whole - 1, tail);
    }
  }

  /** The position after a sounding call that takes the whole residual, whole frames and a beginning. */
  lemma AfterParts(p: Position, c: Call, size: nat, whole: nat, tail: nat)
    requires tail < size && !c.silent && p.residual < c.length == p.residual + Span(whole, size) + tail
    ensures After(p, c, size) ==
      Position(p.frames + whole + (if tail == 0 then 0 else 1), if tail == 0 then 0 else size - tail)
  {
    ConsumeParts(p.frames, size, whole, tail);
  }

  lemma PiecesAreDelivered(t: Tone, p: Position, c: Call, whole: nat, tail: nat)
    requires t.Valid() && t.FullyWritten() && p.Fits(t.frameSize)
    requires tail < t.frameSize && !c.silent && p.residual < c.length == p.residual + Span(whole, t.frameSize) + tail
    ensures p.residual <= |Frames(t, p.frames)| && Pieces(t, p, whole, tail) == Delivered(t, p, c)
  {
    DeliveredIs(t, p, c);
    AfterParts(p, c, t.frameSize, whole, tail);
    PiecesAreStream(t, p, whole, tail, After(p, c, t.frameSize).frames);
    FramesSpan(t, p.frames, whole);
  }

  /** The end of a sounding call longer than what is kept, put together. */
  lemma PastKept(t: Tone, p: Position, c: Call, whole: nat, tail: nat, kept: seq<Byte>, out: seq<Byte>)
    requires t.Valid() && t.FullyWritten() && p.Fits(t.frameSize) && p.residual <= |Frames(t, p.frames)|
    requires tail < t.frameSize && !c.silent && p.residual < c.length == p.residual + Span(whole, t.frameSize) + tail
    requires kept == Frames(t, p.frames)[|Frames(t, p.frames)| - p.residual..]
    requires out == kept + Suffix(t, p.frames, p.frames + whole) + Frame(t, PhaseAt(t, p.frames + whole))[..tail]
    ensures out == Delivered(t, p, c)
  {
    assert out == Pieces(t, p, whole, tail);
    PiecesAreDelivered(t, p, c, whole, tail);
  }

  lemma KeptFits(t: Tone, p: Position)
    requires t.Valid() && t.FullyWritten() && p.Fits(t.frameSize)
    ensures p.residual <= |Frames(t, p.frames)|
  {
    BeginIsOffset(t, p);
  }

  /** Whole frames in `length` bytes, and what is left over. */
  method Divide(length: nat, size: nat) returns (whole: nat)
    requires size > 0
    ensures Span(whole, size) <= length < Span(whole, size) + size
  {
    whole := length / size;
    SpanIsProduct(whole, size);
  }

  /** Writes `bytes` into `to` from index `at` on. */
  method CopyMemory(to: array<Byte>, at: nat, bytes: seq<Byte>)
    requires at + |bytes| <= to.Length
    modifies to
    ensures to[..] == Splice(old(to[..]), at, bytes)
    ensures forall i :: 0 <= i < to.Length ==>
      to[i] == if at <= i < at + |bytes| then bytes[i - at] else old(to[i])
  {
    forall i | 0 <= i < |bytes| {
      to[at + i] := bytes[i];
    }
  }

  /** The bytes of a frame written into a buffer. */
  lemma FrameInPlace(t: Tone, theta: real, all: seq<Byte>, at: nat, before: seq<Byte>)
    requires t.Valid() && at + t.frameSize <= |all| && before == all[at..at + t.frameSize]
    ensures var now := Splice(all, at, FrameOver(t, theta, before));
      && (t.bits != 24 ==>
            forall k :: 0 <= k < t.frameSize ==> now[at + k] == t.sample(theta)[k % (t.bits / 8)])
      && (t.bits == 24 ==>
            forall k :: 0 <= k < t.frameSize ==> now[at + k] == if k < 3 then t.sample(theta)[k] else all[at + k])
  {
    var now := Splice(all, at, FrameOver(t, theta, before));
    forall k | 0 <= k < t.frameSize && t.bits != 24 ensures now[at + k] == t.sample(theta)[k % (t.bits / 8)] {
      assert FrameOver(t, theta, before) == Frame(t, theta);
      FrameByte(t, theta, k);
    }
    forall k | 0 <= k < t.frameSize && t.bits == 24
      ensures now[at + k] == if k < 3 then t.sample(theta)[k] else all[at + k]
    {
      PackedFrameAt(t, theta, before, k);
    }
  }

  /** `tone` holds what `Init` sets and nothing changes again; `frames` counts the frames generated. */
  class Generator {
    const tone: Tone
    var theta: real
    var mute: bool
    const partial: array<Byte>
    var partialBytes: nat
    ghost var frames: nat

    ghost function Position(): Position
      reads this
    {
      ToneStream.Position(frames, partialBytes)
    }

    /** The phase is where `frames` frames leave it, and the tail of the kept frame is the undelivered
        end of the stream so far. */
    ghost predicate Valid()
      reads this, partial
    {
      && tone.Valid()
      && partial.Length == tone.frameSize
      && Position().Fits(tone.frameSize)
      && theta == PhaseAt(tone, frames)
      && (tone.FullyWritten() ==>
            partial[tone.frameSize - partialBytes..] == Frames(tone, frames)[|Frames(tone, frames)| - partialBytes..])
    }

    /** `Init` for a PCM format; memory for the kept frame is granted. */
    constructor (sample: real -> seq<Byte>, twoPi: real, frequency: nat, phase: real, channels: nat, bits: nat,
                 samplesPerSecond: nat)
      requires channels > 0 && (bits == 8 || bits == 16 || bits == 24 || bits == 32) && samplesPerSecond > 0
      requires forall theta :: |sample(theta)| == bits / 8
      ensures Valid() && fresh(partial) && !mute && Position() == ToneStream.Position(0, 0)
      ensures tone == Tone(sample, channels, bits, BytesPerFrame(channels, bits), phase,
                           SampleIncrement(frequency, twoPi, samplesPerSecond), twoPi)
    {
      var size := FrameBytes(channels, bits);
      var increment := SampleIncrement(frequency, twoPi, samplesPerSecond);
      tone := Tone(sample, channels, bits, size, phase, increment, twoPi);
      theta, frames, mute := phase, 0, false;
      partial, partialBytes := new Byte[size], 0;
      new;
      assert tone.Valid();
      assert partial[size..] == [];
      assert tone.FullyWritten() ==> Frames(tone, 0) == [];
    }

    method SetMute(value: bool)
      modifies this`mute
      ensures mute == value
    {
      mute := value;
    }

    /** Writes one frame at `at` and advances the phase.  A size other than the format's is refused: the
        bytes are zeroed and the phase stays. */
    method InitNewFrame(frame: array<Byte>, at: nat, size: nat)
      requires tone.Valid() && at + size <= frame.Length
      modifies frame, this`theta
      ensures size == tone.frameSize ==>
        && theta == Advance(old(theta), tone.increment, tone.twoPi)
        && frame[..] == Splice(old(frame[..]), at, FrameOver(tone, old(theta), old(frame[..])[at..at + size]))
      ensures size == tone.frameSize && tone.bits != 24 ==>
        forall k :: 0 <= k < size ==> frame[..][at + k] == tone.sample(old(theta))[k % (tone.bits / 8)]
      ensures size == tone.frameSize && tone.bits == 24 ==>
        forall k :: 0 <= k < size ==>
          frame[..][at + k] == if k < 3 then tone.sample(old(theta))[k] else old(frame[..])[at + k]
      ensures size != tone.frameSize ==>
        theta == old(theta) && frame[..] == Splice(old(frame[..]), at, Zeros(size))
    {
      var expected := FrameBytes(tone.channels, tone.bits);
      if size != expected {
        CopyMemory(frame, at, Zeros(size));
        return;
      }
      ghost var all := frame[..];
      WriteFrame(frame, at);
      FrameInPlace(tone, theta, all, at, all[at..at + size]);
      theta := theta + tone.increment;
      if theta >= tone.twoPi {
        theta := theta - tone.twoPi;
      }
    }

    /** Writes the bytes of one frame at `at`. */
    method WriteFrame(frame: array<Byte>, at: nat)
      requires tone.Valid() && at + tone.frameSize <= frame.Length
      modifies frame
      ensures frame[..] ==
        Splice(old(frame[..]), at, FrameOver(tone, theta, old(frame[..])[at..at + tone.frameSize]))
    {
      ghost var all := frame[..];
      ghost var before := all[at..at + tone.frameSize];
      if tone.bits == 24 {
        WritePacked(frame, at);
        SpliceFront(all, at, tone.frameSize, tone.sample(theta));
        assert FrameOver(tone, theta, before) == tone.sample(theta) + before[3..];
      } else {
        WriteChannels(frame, at);
        assert FrameOver(tone, theta, before) == Repeat(tone.sample(theta), tone.channels);
      }
    }

    /** 8, 16 and 32 bits: channel `i` is written to the `i`th sample of the frame. */
    method WriteChannels(frame: array<Byte>, at: nat)
      requires tone.Valid() && tone.bits != 24 && at + tone.frameSize <= frame.Length
      modifies frame
      ensures |Repeat(tone.sample(theta), tone.channels)| == tone.frameSize
      ensures frame[..] == Splice(old(frame[..]), at, Repeat(tone.sample(theta), tone.channels))
    {
      SampleSize(tone, theta);
      RepeatLength(tone.sample(theta), tone.channels);
      WriteSamples(frame, at, tone.sample(theta), tone.channels);
    }

    /** Writes a sample `count` times over. */
    static method WriteSamples(frame: array<Byte>, at: nat, s: seq<Byte>, count: nat)
      requires at + |Repeat(s, count)| <= frame.Length
      modifies frame
      ensures frame[..] == Splice(old(frame[..]), at, Repeat(s, count))
    {
      ghost var before, done := frame[..], [];
      var next := at;
      assert frame[..] == Splice(before, at, []);
      for i := 0 to count
        invariant done == Repeat(s, i) && next == at + |done| <= frame.Length
        invariant frame[..] == Splice(before, at, done)
      {
        RepeatRoom(s, i, count);
        SpliceTwice(before, at, done, s);
        CopyMemory(frame, next, s);
        done, next := done + s, next + |s|;
      }
    }

    /** 24 bits: every channel is written to the first three bytes of the frame. */
    method WritePacked(frame: array<Byte>, at: nat)
      requires tone.Valid() && tone.bits == 24 && at + tone.frameSize <= frame.Length
      modifies frame
      ensures |tone.sample(theta)| == 3 <= tone.frameSize
      ensures frame[..] == Splice(old(frame[..]), at, tone.sample(theta))
    {
      SampleSize(tone, theta);
      var i := 0;
      while i < tone.channels
        invariant 0 <= i <= tone.channels
        invariant frame[..] == if i == 0 then old(frame[..]) else Splice(old(frame[..]), at, tone.sample(theta))
      {
        CopyMemory(frame, at, tone.sample(theta));
        i := i + 1;
      }
    }

    /** One more frame of the stream, written at `at`. */
    method NextFrame(to: array<Byte>, at: nat)
      requires Valid() && partialBytes == 0 && at + tone.frameSize <= to.Length
      modifies to, this`theta, this`frames
      ensures Valid() && frames == old(frames) + 1
      ensures tone.FullyWritten() ==>
        to[..] == Splice(old(to[..]), at, Frame(tone, PhaseAt(tone, old(frames))))
    {
      FrameIndependentIff(tone, theta);
      InitNewFrame(to, at, tone.frameSize);
      frames := frames + 1;
    }

    /** What is kept of the last frame. */
    ghost function Kept(): seq<Byte>
      requires Valid()
      reads this, partial
    {
      partial[tone.frameSize - partialBytes..]
    }

    /** Delivers what was kept of the last frame, as much of it as fits, and forgets the rest. */
    method DrainResidual(buffer: array<Byte>) returns (done: nat)
      requires Valid() && buffer != partial
      modifies buffer, partial, this`partialBytes
      ensures Valid() && partialBytes == 0
      ensures done == if old(partialBytes) <= buffer.Length then old(partialBytes) else buffer.Length
      ensures buffer[..done] == old(Kept())[..done]
    {
      done := 0;
      if partialBytes != 0 {
        var offset := tone.frameSize - partialBytes;
        done := if partialBytes <= buffer.Length then partialBytes else buffer.Length;
        ghost var kept := partial[..];
        CopyMemory(buffer, 0, partial[offset..offset + done]);
        SpliceSlice(old(buffer[..]), kept, offset, done);
        CopyMemory(partial, offset, Zeros(done));
        partialBytes := 0;
      }
      assert partial[tone.frameSize..] == [];
    }

    /** `now` is `before` with frames `first` to `k` of the stream written from `done` up to `at`. */
    ghost predicate Streamed(now: seq<Byte>, before: seq<Byte>, done: nat, at: nat, first: nat, k: nat)
      requires tone.Valid()
    {
      tone.FullyWritten() ==>
        && first <= k && at == done + |Suffix(tone, first, k)| <= |before|
        && now == Splice(before, done, Suffix(tone, first, k))
    }

    /** One more frame of the stream, written behind those written so far. */
    method AppendFrame(buffer: array<Byte>, at: nat, ghost before: seq<Byte>, ghost done: nat, ghost first: nat)
      requires Valid() && buffer != partial && partialBytes == 0 && at + tone.frameSize <= buffer.Length
      requires Streamed(buffer[..], before, done, at, first, frames)
      modifies buffer, this`theta, this`frames
      ensures Valid() && frames == old(frames) + 1
      ensures Streamed(buffer[..], before, done, at + tone.frameSize, first, frames)
    {
      if tone.FullyWritten() {
        SuffixGrows(tone, first, frames);
        SpliceTwice(before, done, Suffix(tone, first, frames), Frame(tone, PhaseAt(tone, frames)));
      }
      NextFrame(buffer, at);
    }

    /** Generates `whole` frames straight into the buffer. */
    method WholeFrames(buffer: array<Byte>, done: nat, whole: nat) returns (at: nat)
      requires Valid() && buffer != partial && partialBytes == 0 && done + Span(whole, tone.frameSize) <= buffer.Length
      modifies buffer, this`theta, this`frames
      ensures Valid() && frames == old(frames) + whole && at == done + Span(whole, tone.frameSize)
      ensures Streamed(buffer[..], old(buffer[..]), done, at, old(frames), frames)
    {
      at := done;
      ghost var first, before := frames, buffer[..];
      assert Streamed(before, before, done, at, first, first);
      for i := 0 to whole
        invariant Valid() && frames == first + i
        invariant at + Span(whole - i, tone.frameSize) == done + Span(whole, tone.frameSize)
        invariant Streamed(buffer[..], before, done, at, first, frames)
      {
        AppendFrame(buffer, at, before, done, first);
        at := at + tone.frameSize;
      }
    }

    /** Generates one more frame where the undelivered part of frames is kept. */
    method NewPartial()
      requires Valid() && partialBytes == 0
      modifies partial, this`theta, this`frames
      ensures Valid() && frames == old(frames) + 1
      ensures tone.FullyWritten() ==> partial[..] == Frame(tone, PhaseAt(tone, old(frames)))
    {
      NextFrame(partial, 0);
      if tone.FullyWritten() {
        SpliceAll(old(partial[..]), Frame(tone, PhaseAt(tone, old(frames))));
      }
    }

    /** Of the frame just generated, the first `length` bytes have been delivered. */
    method KeepPartial(length: nat)
      requires Valid() && partialBytes == 0 && frames > 0 && 0 < length < tone.frameSize
      requires tone.FullyWritten() ==> partial[..] == Frame(tone, PhaseAt(tone, frames - 1))
      modifies partial, this`partialBytes
      ensures Valid() && partialBytes == tone.frameSize - length
    {
      ghost var frame := partial[..];
      CopyMemory(partial, 0, Zeros(length));
      SpliceKeepsRest(frame, Zeros(length));
      partialBytes := tone.frameSize - length;
      assert partial[length..] == partial[..][length..] == frame[length..];
      if tone.FullyWritten() {
        FrameTail(tone, frames - 1, partialBytes);
      }
    }

    /** Generates one more frame, delivers its beginning and keeps the rest. */
    method LastFrame(buffer: array<Byte>, at: nat)
      requires Valid() && buffer != partial && partialBytes == 0 && at < buffer.Length < at + tone.frameSize
      modifies buffer, partial, this`theta, this`partialBytes, this`frames
      ensures Valid() && frames == old(frames) + 1 && partialBytes == tone.frameSize - (buffer.Length - at)
      ensures tone.FullyWritten() ==>
        buffer[..] == Splice(old(buffer[..]), at, Frame(tone, PhaseAt(tone, old(frames)))[..buffer.Length - at])
    {
      var length := buffer.Length - at;
      NewPartial();
      ghost var frame := partial[..];
      CopyMemory(buffer, at, partial[..length]);
      KeepPartial(length);
      if tone.FullyWritten() {
        assert buffer[..] == Splice(old(buffer[..]), at, frame[..length]);
      }
    }

    /** Fills the rest of a buffer once nothing is kept: whole frames, then a beginning. */
    method FillRest(buffer: array<Byte>, done: nat, ghost kept: seq<Byte>) returns (ghost whole: nat, ghost tail: nat)
      requires done <= buffer.Length && kept == buffer[..done]
      requires Valid() && buffer != partial && partialBytes == 0 && done < buffer.Length
      modifies buffer, partial, this`theta, this`partialBytes, this`frames
      ensures Valid() && done + Span(whole, tone.frameSize) + tail == buffer.Length && tail < tone.frameSize
      ensures Position() == ToneStream.Position(
                old(frames) + whole + (if tail == 0 then 0 else 1), if tail == 0 then 0 else tone.frameSize - tail)
      ensures tone.FullyWritten() ==>
        buffer[..] == kept + Suffix(tone, old(frames), old(frames) + whole) +
                      Frame(tone, PhaseAt(tone, old(frames) + whole))[..tail]
    {
      var n := Divide(buffer.Length - done, tone.frameSize);
      var at := WholeFrames(buffer, done, n);
      whole, tail := n, buffer.Length - at;
      ghost var front := buffer[..at];
      assert tone.FullyWritten() ==> front == kept + Suffix(tone, old(frames), old(frames) + whole);
      if at == buffer.Length {
        assert buffer[..] == front;
        return;
      }
      LastFrame(buffer, at);
    }

    /** Fills a buffer no longer than what is kept. */
    method FillFromKept(buffer: array<Byte>)
      requires Valid() && buffer != partial && buffer.Length <= partialBytes
      modifies buffer, partial, this`partialBytes
      ensures Valid() && Position() == After(old(Position()), Call(buffer.Length, false), tone.frameSize)
      ensures tone.FullyWritten() ==> buffer[..] == Delivered(tone, old(Position()), Call(buffer.Length, false))
    {
      ghost var p, c, kept := Position(), Call(buffer.Length, false), Kept();
      var done := DrainResidual(buffer);
      assert buffer[..] == buffer[..done] == kept[..done];
      if tone.FullyWritten() {
        DeliveredIs(tone, p, c);
      }
    }

    /** Fills a buffer longer than what is kept. */
    method FillPastKept(buffer: array<Byte>)
      requires Valid() && buffer != partial && partialBytes < buffer.Length
      modifies buffer, partial, this`theta, this`partialBytes, this`frames
      ensures Valid() && Position() == After(old(Position()), Call(buffer.Length, false), tone.frameSize)
      ensures tone.FullyWritten() ==> buffer[..] == Delivered(tone, old(Position()), Call(buffer.Length, false))
    {
      ghost var p, c, kept := Position(), Call(buffer.Length, false), Kept();
      var done := DrainResidual(buffer);
      assert buffer[..done] == kept;
      ghost var whole, tail;
      whole, tail := FillRest(buffer, done, kept);
      if tone.FullyWritten() {
        KeptFits(tone, p);
      }
      PastKeptCall(p, c, whole, tail, kept, buffer[..]);
    }

    /** What the two halves of such a call add up to. */
    lemma PastKeptCall(p: ToneStream.Position, c: Call, whole: nat, tail: nat, kept: seq<Byte>, out: seq<Byte>)
      requires tone.Valid() && p.Fits(tone.frameSize)
      requires tail < tone.frameSize && !c.silent
      requires p.residual < c.length == p.residual + Span(whole, tone.frameSize) + tail
      requires |kept| == p.residual
      requires tone.FullyWritten() ==> p.residual <= |Frames(tone, p.frames)|
      requires tone.FullyWritten() ==> kept == Frames(tone, p.frames)[|Frames(tone, p.frames)| - p.residual..]
      requires tone.FullyWritten() ==>
        out == kept + Suffix(tone, p.frames, p.frames + whole) + Frame(tone, PhaseAt(tone, p.frames + whole))[..tail]
      ensures After(p, c, tone.frameSize) == ToneStream.Position(
                p.frames + whole + (if tail == 0 then 0 else 1), if tail == 0 then 0 else tone.frameSize - tail)
      ensures tone.FullyWritten() ==> out == Delivered(tone, p, c)
    {
      AfterParts(p, c, tone.frameSize, whole, tail);
      if tone.FullyWritten() {
        PastKept(tone, p, c, whole, tail, kept, out);
      }
    }

    /** Fills a buffer with the next bytes of the stream. */
    method Sound(buffer: array<Byte>)
      requires Valid() && buffer != partial
      modifies buffer, partial, this`theta, this`partialBytes, this`frames
      ensures Valid() && Position() == After(old(Position()), Call(buffer.Length, false), tone.frameSize)
      ensures tone.FullyWritten() ==> buffer[..] == Delivered(tone, old(Position()), Call(buffer.Length, false))
      ensures tone.FullyWritten() ==>
        var start := old(Position()).Offset(tone.frameSize);
        start >= 0 && forall i :: 0 <= i < buffer.Length ==> buffer[i] == StreamByte(tone, start + i)
    {
      ghost var p := Position();
      if buffer.Length <= partialBytes {
        FillFromKept(buffer);
      } else {
        FillPastKept(buffer);
      }
      if tone.FullyWritten() {
        DeliveredBytes(tone, p, Call(buffer.Length, false));
        assert forall i :: 0 <= i < buffer.Length ==> buffer[i] == buffer[..][i];
      }
    }

    method Silence(buffer: array<Byte>)
      modifies buffer
      ensures buffer[..] == Zeros(buffer.Length) && forall i :: 0 <= i < buffer.Length ==> buffer[i] == 0
    {
      CopyMemory(buffer, 0, Zeros(buffer.Length));
      assert buffer[..] == Zeros(buffer.Length);
    }

    /** Fills a buffer.  `disabled` is the registry switch and `saved` the outcome of saving the
        floating-point state; silence is delivered when muted, disabled or not saved, and then nothing of
        the tone's progress changes. */
    method GenerateSine(buffer: array<Byte>, disabled: bool, saved: bool)
      requires Valid() && buffer != partial
      modifies buffer, partial, this`theta, this`partialBytes, this`frames
      ensures Valid()
      ensures var call := Call(buffer.Length, mute || disabled || !saved);
        && Position() == After(old(Position()), call, tone.frameSize)
        && (call.silent ==>
              buffer[..] == Zeros(buffer.Length) && theta == old(theta) && partial[..] == old(partial[..]))
        && (!call.silent && tone.FullyWritten() ==> buffer[..] == Delivered(tone, old(Position()), call))
      ensures mute || disabled || !saved ==> forall i :: 0 <= i < buffer.Length ==> buffer[i] == 0
      ensures !mute && !disabled && saved && tone.FullyWritten() ==>
        var start := old(Position()).Offset(tone.frameSize);
        start >= 0 && forall i :: 0 <= i < buffer.Length ==> buffer[i] == StreamByte(tone, start + i)
    {
      if mute || disabled || !saved {
        Silence(buffer);
      } else {
        Sound(buffer);
      }
    }
  }
}
