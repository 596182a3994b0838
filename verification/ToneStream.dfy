/** The stream the tone generator cuts its buffers from, and what cutting it into calls amounts to. */
module ToneStream {
  type Byte = x: int | 0 <= x < 256

  /** The size of a frame, a multiple of the channel count for each supported sample width. */
  function BytesPerFrame(channels: nat, bits: nat): nat {
    if bits == 8 then channels
    else if bits == 16 then 2 * channels
    else if bits == 24 then 3 * channels
    else 4 * channels
  }

  /** It is what the code computes. */
  lemma BytesPerFrameFormula(channels: nat, bits: nat)
    requires bits == 8 || bits == 16 || bits == 24 || bits == 32
    ensures BytesPerFrame(channels, bits) == channels * bits / 8
  {
    assert channels * 8 / 8 == channels && channels * 16 / 8 == 2 * channels;
    assert channels * 24 / 8 == 3 * channels && channels * 32 / 8 == 4 * channels;
  }

  /** A tone: the bytes of one sample as a function of the phase, the PCM format, and the phase's course. */
  datatype Tone = Tone(
    sample: real -> seq<Byte>,
    channels: nat,
    bits: nat,
    frameSize: nat,
    origin: real,
    increment: real,
    twoPi: real)
  {
    ghost predicate Valid() {
      && channels > 0
      && (bits == 8 || bits == 16 || bits == 24 || bits == 32)
      && frameSize == BytesPerFrame(channels, bits)
      && forall theta :: |sample(theta)| == bits / 8
    }

    /** Does `InitNewFrame` write every byte of a frame?  With 24 bits every channel is written to the
        first three bytes. */
    predicate FullyWritten() { bits != 24 || channels == 1 }
  }

  // ---------------------------------------------------------------- one frame

  /** `count` copies of a sample, one per channel. */
  function Repeat(s: seq<Byte>, count: nat): seq<Byte> {
    if count == 0 then [] else Repeat(s, count - 1) + s
  }

  lemma {:induction false} RepeatSize(s: seq<Byte>, count: nat)
    ensures |Repeat(s, count)| == count * |s|
  {
    if count > 0 {
      RepeatSize(s, count - 1);
      assert count * |s| == (count - 1) * |s| + |s|;
    }
  }

  lemma RepeatLength(s: seq<Byte>, count: nat)
    ensures |s| == 1 ==> |Repeat(s, count)| == count
    ensures |s| == 2 ==> |Repeat(s, count)| == 2 * count
    ensures |s| == 3 ==> |Repeat(s, count)| == 3 * count
    ensures |s| == 4 ==> |Repeat(s, count)| == 4 * count
  {
    RepeatSize(s, count);
  }

  lemma {:induction false} RepeatRoom(s: seq<Byte>, i: nat, count: nat)
    requires i < count
    ensures |Repeat(s, i)| + |s| <= |Repeat(s, count)|
  {
    if i < count - 1 {
      RepeatRoom(s, i, count - 1);
    }
  }

  /** Every copy is the sample itself. */
  lemma {:induction false} RepeatAt(s: seq<Byte>, count: nat, c: nat, j: nat)
    requires c < count && j < |s|
    ensures 0 <= c * |s| + j < |Repeat(s, count)| == count * |s|
    ensures Repeat(s, count)[c * |s| + j] == s[j]
  {
    RepeatSize(s, count - 1);
    RepeatSize(s, count);
    if c < count - 1 {
      RepeatAt(s, count - 1, c, j);
    }
  }

  /** The contents of a frame after it is initialised over the bytes `before`. */
  function FrameOver(t: Tone, theta: real, before: seq<Byte>): (r: seq<Byte>)
    requires t.Valid() && |before| == t.frameSize
    ensures |r| == t.frameSize
  {
    RepeatLength(t.sample(theta), t.channels);
    if t.bits == 24 then t.sample(theta) + before[3..] else Repeat(t.sample(theta), t.channels)
  }

  function Frame(t: Tone, theta: real): (r: seq<Byte>)
    requires t.Valid() && t.FullyWritten()
    ensures |r| == t.frameSize
  {
    RepeatLength(t.sample(theta), t.channels);
    Repeat(t.sample(theta), t.channels)
  }

  /** In a fully written frame every channel has the sample of the phase. */
  lemma FrameAt(t: Tone, theta: real, before: seq<Byte>, c: nat, j: nat)
    requires t.Valid() && (t.bits != 24 || t.channels == 1) && |before| == t.frameSize
    requires c < t.channels && j < t.bits / 8
    ensures c * (t.bits / 8) + j < t.frameSize
    ensures FrameOver(t, theta, before)[c * (t.bits / 8) + j] == t.sample(theta)[j]
    ensures Frame(t, theta)[c * (t.bits / 8) + j] == t.sample(theta)[j]
  {
    RepeatAt(t.sample(theta), t.channels, c, j);
  }

  lemma PartsOf(k: nat, w: nat, n: nat)
    requires w > 0 && k < n * w
    ensures 0 <= k / w < n && 0 <= k % w < w && k / w * w + k % w == k
  {
    assert w * (k / w) + k % w == k;
    assert w * (k / w) == k / w * w;
  }

  /** The same, byte by byte: a byte is that of the sample at its place in its channel. */
  lemma FrameByte(t: Tone, theta: real, k: nat)
    requires t.Valid() && t.FullyWritten() && k < t.frameSize
    ensures Frame(t, theta)[k] == t.sample(theta)[k % (t.bits / 8)]
  {
    RepeatSize(t.sample(theta), t.channels);
    PartsOf(k, t.bits / 8, t.channels);
    RepeatAt(t.sample(theta), t.channels, k / (t.bits / 8), k % (t.bits / 8));
  }

  /** With 24 bits and several channels the first three bytes are the sample and the rest is what was there. */
  lemma PackedFrameAt(t: Tone, theta: real, before: seq<Byte>, k: nat)
    requires t.Valid() && t.bits == 24 && |before| == t.frameSize && k < t.frameSize
    ensures FrameOver(t, theta, before)[k] == if k < 3 then t.sample(theta)[k] else before[k]
  {
  }

  /** A frame is a function of the phase alone exactly for the fully written formats. */
  lemma FrameIndependentIff(t: Tone, theta: real)
    requires t.Valid()
    ensures (forall a, b :: |a| == t.frameSize && |b| == t.frameSize ==>
               FrameOver(t, theta, a) == FrameOver(t, theta, b))
       <==> t.FullyWritten()
    ensures t.FullyWritten() ==> forall a :: |a| == t.frameSize ==> FrameOver(t, theta, a) == Frame(t, theta)
  {
    var n := t.frameSize;
    if t.FullyWritten() {
      if t.bits == 24 {
        assert n == 3;
        assert Repeat(t.sample(theta), 0) == [];
        assert Repeat(t.sample(theta), 1) == t.sample(theta);
        assert forall a: seq<Byte> :: |a| == n ==> a[3..] == [];
      }
    } else {
      var a: seq<Byte>, b: seq<Byte> := seq(n, _ => 0), seq(n, _ => 1);
      assert FrameOver(t, theta, a)[3] == 0 && FrameOver(t, theta, b)[3] == 1;
    }
  }

  // ---------------------------------------------------------------- the phase

  function Advance(theta: real, increment: real, twoPi: real): real {
    var next := theta + increment;
    if next >= twoPi then next - twoPi else next
  }

  /** The phase after `k` frames. */
  function PhaseAt(t: Tone, k: nat): real {
    if k == 0 then t.origin else Advance(PhaseAt(t, k - 1), t.increment, t.twoPi)
  }

  predicate InCircle(theta: real, twoPi: real) { 0.0 <= theta < twoPi }

  function SampleIncrement(frequency: nat, twoPi: real, samplesPerSecond: nat): real
    requires samplesPerSecond > 0
  {
    (frequency as real * twoPi) / samplesPerSecond as real
  }

  /** The increment is at most a full turn exactly when the frequency is at most the sample rate. */
  lemma IncrementIff(frequency: nat, twoPi: real, samplesPerSecond: nat)
    requires samplesPerSecond > 0 && twoPi > 0.0
    ensures SampleIncrement(frequency, twoPi, samplesPerSecond) * samplesPerSecond as real == frequency as real * twoPi
    ensures 0.0 <= SampleIncrement(frequency, twoPi, samplesPerSecond)
    ensures SampleIncrement(frequency, twoPi, samplesPerSecond) <= twoPi <==> frequency <= samplesPerSecond
  {
    var n, f := samplesPerSecond as real, frequency as real;
    var x := SampleIncrement(frequency, twoPi, samplesPerSecond);
    assert x * n == f * twoPi;
    ProductOrder(x, twoPi, n);
    ProductOrder(f, n, twoPi);
  }

  lemma ProductOrder(a: real, b: real, n: real)
    requires n > 0.0
    ensures a <= b <==> a * n <= b * n
  {
    assert b * n - a * n == (b - a) * n;
  }

  lemma {:induction false} PhaseStaysInCircle(t: Tone, k: nat)
    requires InCircle(t.origin, t.twoPi) && 0.0 <= t.increment <= t.twoPi
    ensures InCircle(PhaseAt(t, k), t.twoPi)
  {
    if k > 0 {
      PhaseStaysInCircle(t, k - 1);
    }
  }

  /** The single conditional subtraction keeps every phase in the circle exactly when the increment is
      between zero and a full turn, that is when the frequency is at most the sample rate. */
  lemma PhaseInvariantIff(t: Tone)
    requires t.twoPi > 0.0
    ensures (forall origin, k: nat :: InCircle(origin, t.twoPi) ==> InCircle(PhaseAt(t.(origin := origin), k), t.twoPi))
       <==> 0.0 <= t.increment <= t.twoPi
  {
    if 0.0 <= t.increment <= t.twoPi {
      forall origin, k: nat | InCircle(origin, t.twoPi)
        ensures InCircle(PhaseAt(t.(origin := origin), k), t.twoPi)
      {
        PhaseStaysInCircle(t.(origin := origin), k);
      }
    } else {
      var origin := if t.increment < 0.0 then 0.0
                    else if 2.0 * t.twoPi - t.increment > 0.0 then 2.0 * t.twoPi - t.increment else 0.0;
      var u := t.(origin := origin);
      assert PhaseAt(u, 0) == origin;
      assert !InCircle(PhaseAt(u, 1), t.twoPi);
    }
  }

  /** `x` added up `k` times. */
  function Times(k: nat, x: real): real {
    if k == 0 then 0.0 else Times(k - 1, x) + x
  }

  lemma {:induction false} TimesIsProduct(k: nat, x: real)
    ensures Times(k, x) == k as real * x
  {
    if k > 0 {
      TimesIsProduct(k - 1, x);
      var j := (k - 1) as real;
      assert k as real == j + 1.0;
      assert (j + 1.0) * x == j * x + x;
    }
  }

  lemma {:induction false} PhaseIsSum(t: Tone, k: nat) returns (turns: nat)
    ensures PhaseAt(t, k) == t.origin + Times(k, t.increment) - Times(turns, t.twoPi)
    ensures turns <= k
  {
    if k == 0 {
      turns := 0;
    } else {
      var before := PhaseIsSum(t, k - 1);
      turns := if PhaseAt(t, k - 1) + t.increment >= t.twoPi then before + 1 else before;
    }
  }

  /** After `k` frames the phase is the start plus `k` increments modulo a full turn: it lies in the
      circle and differs from that sum by a whole number of turns. */
  lemma PhaseIsModular(t: Tone, k: nat) returns (turns: nat)
    requires InCircle(t.origin, t.twoPi) && 0.0 <= t.increment <= t.twoPi
    ensures InCircle(PhaseAt(t, k), t.twoPi)
    ensures PhaseAt(t, k) == t.origin + k as real * t.increment - turns as real * t.twoPi
  {
    PhaseStaysInCircle(t, k);
    turns := PhaseIsSum(t, k);
    TimesIsProduct(k, t.increment);
    TimesIsProduct(turns, t.twoPi);
  }

  // ---------------------------------------------------------------- the unchunked stream

  /** The first `k` frames, one after the other. */
  function Frames(t: Tone, k: nat): seq<Byte>
    requires t.Valid() && t.FullyWritten()
  {
    if k == 0 then [] else Frames(t, k - 1) + Frame(t, PhaseAt(t, k - 1))
  }

  lemma {:induction false} FramesLength(t: Tone, k: nat)
    requires t.Valid() && t.FullyWritten()
    ensures |Frames(t, k)| == k * t.frameSize
  {
    if k > 0 {
      FramesLength(t, k - 1);
      assert k * t.frameSize == (k - 1) * t.frameSize + t.frameSize;
    }
  }

  lemma {:induction false} FramesGrow(t: Tone, j: nat, k: nat)
    requires t.Valid() && t.FullyWritten() && j <= k
    ensures Frames(t, j) <= Frames(t, k)
  {
    if j < k {
      FramesGrow(t, j, k - 1);
    }
  }

  /** The frame that byte `n` of the stream is in, and which byte of its sample it is. */
  function FrameOf(t: Tone, n: nat): nat
    requires t.Valid()
  {
    n / t.frameSize
  }

  function Place(t: Tone, n: nat): (j: nat)
    requires t.Valid()
    ensures j < t.bits / 8
  {
    n % t.frameSize % (t.bits / 8)
  }

  function SampleByte(t: Tone, theta: real, j: nat): Byte
    requires t.Valid() && j < t.bits / 8
  {
    t.sample(theta)[j]
  }

  /** Byte `n` of the stream: a frame has the phase of its number, and every channel of it the sample of that
      phase. */
  function StreamByte(t: Tone, n: nat): Byte
    requires t.Valid()
  {
    SampleByte(t, PhaseAt(t, FrameOf(t, n)), Place(t, n))
  }

  lemma QuotientOf(n: nat, f: nat, d: nat)
    requires d > 0 && f * d <= n < f * d + d
    ensures n / d == f && n % d == n - f * d
  {
    assert n == f * d + (n - f * d);
    DivModUnique(n, d, f, n - f * d);
  }

  /** Every byte of the stream, told by its index alone. */
  lemma {:induction false} FramesAt(t: Tone, k: nat, n: nat)
    requires t.Valid() && t.FullyWritten() && n < |Frames(t, k)|
    ensures Frames(t, k)[n] == StreamByte(t, n)
  {
    FramesLength(t, k);
    if k > 0 {
      FramesLength(t, k - 1);
      assert (k - 1) * t.frameSize + t.frameSize == k * t.frameSize;
      if n < |Frames(t, k - 1)| {
        FramesAt(t, k - 1, n);
      } else {
        QuotientOf(n, k - 1, t.frameSize);
        FrameByte(t, PhaseAt(t, k - 1), n - (k - 1) * t.frameSize);
      }
    }
  }

  /** Where a generator stands: how many frames it has generated, and how many bytes at the end of the
      last one it has not yet delivered. */
  datatype Position = Position(frames: nat, residual: nat) {
    predicate Fits(frameSize: nat) {
      residual < frameSize && (residual > 0 ==> frames > 0)
    }

    /** Bytes of the stream delivered or dropped. */
    function Offset(frameSize: nat): (r: int) {
      frames * frameSize - residual
    }
  }

  /** A call of `GenerateSine`: the buffer's length, and whether it delivers silence. */
  datatype Call = Call(length: nat, silent: bool)

  predicate Short(p: Position, c: Call) { !c.silent && c.length < p.residual }

  /** The position after `rest` more bytes, taken a frame at a time when nothing is kept. */
  function Consume(frames: nat, rest: nat, frameSize: nat): Position
    requires frameSize > 0
    decreases rest
  {
    if rest == 0 then Position(frames, 0)
    else if rest < frameSize then Position(frames + 1, frameSize - rest)
    else Consume(frames + 1, rest - frameSize, frameSize)
  }

  lemma {:induction false} ConsumeAdvances(frames: nat, rest: nat, frameSize: nat)
    requires frameSize > 0
    ensures var q := Consume(frames, rest, frameSize);
      && q.Fits(frameSize) && frames <= q.frames
      && q.Offset(frameSize) == frames * frameSize + rest
    decreases rest
  {
    if rest >= frameSize {
      ConsumeAdvances(frames + 1, rest - frameSize, frameSize);
      assert (frames + 1) * frameSize == frames * frameSize + frameSize;
    } else if rest > 0 {
      assert (frames + 1) * frameSize == frames * frameSize + frameSize;
    }
  }

  /** The position after a call.  A buffer shorter than the residual drops what it cannot hold. */
  function After(p: Position, c: Call, frameSize: nat): Position
    requires frameSize > 0
  {
    if c.silent then p
    else if c.length <= p.residual then Position(p.frames, 0)
    else Consume(p.frames, c.length - p.residual, frameSize)
  }

  lemma AfterAdvances(p: Position, c: Call, frameSize: nat)
    requires frameSize > 0 && p.Fits(frameSize)
    ensures var q := After(p, c, frameSize);
      && q.Fits(frameSize) && p.frames <= q.frames
      && q.Offset(frameSize) ==
           p.Offset(frameSize) + (if c.silent then 0 else if Short(p, c) then p.residual else c.length)
  {
    if !c.silent && c.length > p.residual {
      ConsumeAdvances(p.frames, c.length - p.residual, frameSize);
    }
  }

  lemma OffsetNonNegative(p: Position, frameSize: nat)
    requires p.Fits(frameSize)
    ensures 0 <= p.Offset(frameSize) <= p.frames * frameSize
  {
    if p.frames > 0 {
      assert p.frames * frameSize == (p.frames - 1) * frameSize + frameSize;
      assert (p.frames - 1) * frameSize >= 0;
    }
  }

  lemma Bounds(t: Tone, p: Position, c: Call)
    requires t.Valid() && t.FullyWritten() && p.Fits(t.frameSize)
    ensures var q := After(p, c, t.frameSize); var start := |Frames(t, p.frames)| - p.residual;
      && start == p.Offset(t.frameSize) >= 0
      && |Frames(t, q.frames)| - q.residual == q.Offset(t.frameSize) >= start
      && (!c.silent ==> start + c.length <= |Frames(t, q.frames)|)
  {
    var q := After(p, c, t.frameSize);
    AfterAdvances(p, c, t.frameSize);
    OffsetNonNegative(p, t.frameSize);
    FramesLength(t, p.frames);
    FramesLength(t, q.frames);
  }

  /** What a call delivers: the next bytes of the unchunked stream. */
  function Delivered(t: Tone, p: Position, c: Call): (r: seq<Byte>)
    requires t.Valid() && t.FullyWritten() && p.Fits(t.frameSize) && !c.silent
    ensures |r| == c.length
  {
    Bounds(t, p, c);
    var start := |Frames(t, p.frames)| - p.residual;
    Frames(t, After(p, c, t.frameSize).frames)[start..start + c.length]
  }

  lemma DeliveredIs(t: Tone, p: Position, c: Call)
    requires t.Valid() && t.FullyWritten() && p.Fits(t.frameSize) && !c.silent
    ensures var start, all := |Frames(t, p.frames)| - p.residual, Frames(t, After(p, c, t.frameSize).frames);
      0 <= start && start + c.length <= |all| && Delivered(t, p, c) == all[start..start + c.length]
  {
    Bounds(t, p, c);
  }

  /** Byte `i` of what a call delivers is the byte of the stream `i` past the position. */
  lemma DeliveredAt(t: Tone, p: Position, c: Call, i: nat)
    requires t.Valid() && t.FullyWritten() && p.Fits(t.frameSize) && !c.silent && i < c.length
    ensures p.Offset(t.frameSize) >= 0 && Delivered(t, p, c)[i] == StreamByte(t, p.Offset(t.frameSize) + i)
  {
    Bounds(t, p, c);
    FramesAt(t, After(p, c, t.frameSize).frames, p.Offset(t.frameSize) + i);
  }

  lemma DeliveredBytes(t: Tone, p: Position, c: Call)
    requires t.Valid() && t.FullyWritten() && p.Fits(t.frameSize) && !c.silent
    ensures p.Offset(t.frameSize) >= 0
    ensures forall i :: 0 <= i < c.length ==> Delivered(t, p, c)[i] == StreamByte(t, p.Offset(t.frameSize) + i)
  {
    Bounds(t, p, c);
    forall i | 0 <= i < c.length ensures Delivered(t, p, c)[i] == StreamByte(t, p.Offset(t.frameSize) + i) {
      DeliveredAt(t, p, c, i);
    }
  }

  // ---------------------------------------------------------------- sequences of calls

  function AfterAll(p: Position, calls: seq<Call>, frameSize: nat): Position
    requires frameSize > 0
    decreases |calls|
  {
    if calls == [] then p else AfterAll(After(p, calls[0], frameSize), calls[1..], frameSize)
  }

  /** Everything the sounding calls deliver, end to end. */
  function Played(t: Tone, p: Position, calls: seq<Call>): seq<Byte>
    requires t.Valid() && t.FullyWritten() && p.Fits(t.frameSize)
    decreases |calls|
  {
    if calls == [] then []
    else
      AfterAdvances(p, calls[0], t.frameSize);
      (if calls[0].silent then [] else Delivered(t, p, calls[0])) +
      Played(t, After(p, calls[0], t.frameSize), calls[1..])
  }

  function SoundingBytes(calls: seq<Call>): nat {
    if calls == [] then 0 else (if calls[0].silent then 0 else calls[0].length) + SoundingBytes(calls[1..])
  }

  /** No sounding buffer is shorter than the residual carried into it. */
  predicate NeverShort(p: Position, calls: seq<Call>, frameSize: nat)
    requires frameSize > 0
    decreases |calls|
  {
    calls == [] || (!Short(p, calls[0]) && NeverShort(After(p, calls[0], frameSize), calls[1..], frameSize))
  }

  /** The position advances by the bytes asked for, exactly when no call was short; a short call skips. */
  lemma {:induction false} OffsetIff(p: Position, calls: seq<Call>, frameSize: nat)
    requires frameSize > 0 && p.Fits(frameSize)
    ensures var q := AfterAll(p, calls, frameSize);
      && q.Fits(frameSize)
      && q.Offset(frameSize) >= p.Offset(frameSize) + SoundingBytes(calls)
      && (q.Offset(frameSize) == p.Offset(frameSize) + SoundingBytes(calls) <==> NeverShort(p, calls, frameSize))
    decreases |calls|
  {
    if calls != [] {
      AfterAdvances(p, calls[0], frameSize);
      OffsetIff(After(p, calls[0], frameSize), calls[1..], frameSize);
    }
  }

  /** Residual bytes lost to buffers too short for them. */
  function DroppedBytes(p: Position, calls: seq<Call>, frameSize: nat): nat
    requires frameSize > 0
    decreases |calls|
  {
    if calls == [] then 0
    else
      (if Short(p, calls[0]) then p.residual - calls[0].length else 0) +
      DroppedBytes(After(p, calls[0], frameSize), calls[1..], frameSize)
  }

  /** Whatever the calls, the position advances by the bytes delivered and the residuals dropped, no more. */
  lemma {:induction false} OffsetExact(p: Position, calls: seq<Call>, frameSize: nat)
    requires frameSize > 0 && p.Fits(frameSize)
    ensures AfterAll(p, calls, frameSize).Offset(frameSize) ==
      p.Offset(frameSize) + SoundingBytes(calls) + DroppedBytes(p, calls, frameSize)
    decreases |calls|
  {
    if calls != [] {
      AfterAdvances(p, calls[0], frameSize);
      OffsetExact(After(p, calls[0], frameSize), calls[1..], frameSize);
    }
  }

  lemma {:induction false} FramesMonotone(p: Position, calls: seq<Call>, frameSize: nat)
    requires frameSize > 0 && p.Fits(frameSize)
    ensures p.frames <= AfterAll(p, calls, frameSize).frames
    decreases |calls|
  {
    if calls != [] {
      AfterAdvances(p, calls[0], frameSize);
      FramesMonotone(After(p, calls[0], frameSize), calls[1..], frameSize);
    }
  }

  /** Where the undelivered part of the stream begins. */
  function Begin(t: Tone, p: Position): int
    requires t.Valid() && t.FullyWritten()
  {
    |Frames(t, p.frames)| - p.residual
  }

  lemma BeginIsOffset(t: Tone, p: Position)
    requires t.Valid() && t.FullyWritten() && p.Fits(t.frameSize)
    ensures Begin(t, p) == p.Offset(t.frameSize) >= 0
  {
    FramesLength(t, p.frames);
    OffsetNonNegative(p, t.frameSize);
  }

  // ---------------------------------------------------------------- short calls as well

  /** `n` times the same choice. */
  function All(n: nat, keep: bool): (r: seq<bool>)
    ensures |r| == n && forall i :: 0 <= i < n ==> r[i] == keep
  {
    seq(n, _ => keep)
  }

  /** The bytes of a stretch that a mask keeps. */
  function Selected(s: seq<Byte>, mask: seq<bool>): seq<Byte>
    requires |s| == |mask|
  {
    if s == [] then []
    else Selected(s[..|s| - 1], mask[..|s| - 1]) + if mask[|s| - 1] then [s[|s| - 1]] else []
  }

  lemma {:induction false} SelectedAll(s: seq<Byte>, keep: bool)
    ensures Selected(s, All(|s|, keep)) == if keep then s else []
  {
    if s != [] {
      SelectedAll(s[..|s| - 1], keep);
      assert All(|s|, keep)[..|s| - 1] == All(|s| - 1, keep);
      assert s[..|s| - 1] + [s[|s| - 1]] == s;
    }
  }

  lemma {:induction false} SelectedJoin(a: seq<Byte>, b: seq<Byte>, m: seq<bool>, n: seq<bool>)
    requires |a| == |m| && |b| == |n|
    ensures Selected(a + b, m + n) == Selected(a, m) + Selected(b, n)
    decreases |b|
  {
    if b == [] {
      assert a + b == a && m + n == m;
    } else {
      var k := |b| - 1;
      SelectedJoin(a, b[..k], m, n[..k]);
      assert (a + b)[..|a| + k] == a + b[..k] && (m + n)[..|a| + k] == m + n[..k];
      assert Selected(a, m) + Selected(b[..k], n[..k]) + (if n[k] then [b[k]] else []) ==
        Selected(a, m) + Selected(b, n);
    }
  }

  /** Of the stretch of the stream a call moves over, the bytes it delivers are kept and the end of a residual
      it has no room for is cut out. */
  function CallMask(p: Position, c: Call): seq<bool> {
    if c.silent then [] else All(c.length, true) + All(if Short(p, c) then p.residual - c.length else 0, false)
  }

  function Mask(p: Position, calls: seq<Call>, frameSize: nat): seq<bool>
    requires frameSize > 0
    decreases |calls|
  {
    if calls == [] then [] else CallMask(p, calls[0]) + Mask(After(p, calls[0], frameSize), calls[1..], frameSize)
  }

  lemma TwoSlices(all: seq<Byte>, from: nat, mid: nat, to: nat)
    requires from <= mid <= to <= |all|
    ensures all[from..to] == all[from..mid] + all[mid..to]
  {
  }

  lemma SelectedFront(all: seq<Byte>, from: nat, kept: nat, to: nat, mask: seq<bool>)
    requires from + kept <= to <= |all| && mask == All(kept, true) + All(to - from - kept, false)
    ensures |mask| == to - from && Selected(all[from..to], mask) == all[from..from + kept]
  {
    var front, back := all[from..from + kept], all[from + kept..to];
    TwoSlices(all, from, from + kept, to);
    SelectedJoin(front, back, All(|front|, true), All(|back|, false));
    SelectedAll(front, true);
    SelectedAll(back, false);
  }

  lemma BeginAdvances(t: Tone, p: Position, c: Call)
    requires t.Valid() && t.FullyWritten() && p.Fits(t.frameSize)
    ensures After(p, c, t.frameSize).Fits(t.frameSize) && Begin(t, p) >= 0
    ensures Begin(t, After(p, c, t.frameSize)) ==
      Begin(t, p) + (if c.silent then 0 else if Short(p, c) then p.residual else c.length)
  {
    AfterAdvances(p, c, t.frameSize);
    BeginIsOffset(t, p);
    BeginIsOffset(t, After(p, c, t.frameSize));
  }

  lemma CallBegins(t: Tone, p: Position, c: Call)
    requires t.Valid() && t.FullyWritten() && p.Fits(t.frameSize) && !c.silent
    ensures var q := After(p, c, t.frameSize);
      && 0 <= Begin(t, p) <= Begin(t, q) <= |Frames(t, q.frames)|
      && Begin(t, q) == Begin(t, p) + c.length + (if Short(p, c) then p.residual - c.length else 0)
      && Delivered(t, p, c) == Frames(t, q.frames)[Begin(t, p)..Begin(t, p) + c.length]
  {
    BeginAdvances(t, p, c);
    DeliveredIs(t, p, c);
  }

  lemma CallSelects(t: Tone, p: Position, c: Call)
    requires t.Valid() && t.FullyWritten() && p.Fits(t.frameSize) && !c.silent
    ensures var q := After(p, c, t.frameSize);
      && 0 <= Begin(t, p) <= Begin(t, q) <= |Frames(t, q.frames)|
      && Begin(t, q) - Begin(t, p) == |CallMask(p, c)|
      && Selected(Frames(t, q.frames)[Begin(t, p)..Begin(t, q)], CallMask(p, c)) == Delivered(t, p, c)
  {
    var q := After(p, c, t.frameSize);
    CallBegins(t, p, c);
    SelectedFront(Frames(t, q.frames), Begin(t, p), c.length, Begin(t, q), CallMask(p, c));
  }

  lemma MaskStep(t: Tone, p: Position, c: Call, q: Position, rest: seq<Byte>, mask: seq<bool>)
    requires t.Valid() && t.FullyWritten() && p.Fits(t.frameSize)
    requires var m := After(p, c, t.frameSize);
      && m.frames <= q.frames && 0 <= Begin(t, m) <= Begin(t, q) <= |Frames(t, q.frames)|
      && |mask| == Begin(t, q) - Begin(t, m)
      && rest == Selected(Frames(t, q.frames)[Begin(t, m)..Begin(t, q)], mask)
    ensures 0 <= Begin(t, p) <= Begin(t, q) && |CallMask(p, c) + mask| == Begin(t, q) - Begin(t, p)
    ensures (if c.silent then [] else Delivered(t, p, c)) + rest ==
      Selected(Frames(t, q.frames)[Begin(t, p)..Begin(t, q)], CallMask(p, c) + mask)
  {
    var m := After(p, c, t.frameSize);
    if c.silent {
      assert CallMask(p, c) + mask == mask;
      BeginIsOffset(t, p);
    } else {
      CallSelects(t, p, c);
      FramesGrow(t, m.frames, q.frames);
      Join(Frames(t, q.frames), Frames(t, m.frames), Begin(t, p), Begin(t, m), Begin(t, q));
      SelectedJoin(Frames(t, m.frames)[Begin(t, p)..Begin(t, m)], Frames(t, q.frames)[Begin(t, m)..Begin(t, q)],
                   CallMask(p, c), mask);
    }
  }

  /** Whatever the calls, what they deliver is the stretch of the stream they move over with exactly the
      residuals dropped by short buffers cut out. */
  lemma {:induction false} ShortCallsCutResiduals(t: Tone, p: Position, calls: seq<Call>)
    requires t.Valid() && t.FullyWritten() && p.Fits(t.frameSize)
    ensures var q := AfterAll(p, calls, t.frameSize); var mask := Mask(p, calls, t.frameSize);
      && 0 <= Begin(t, p) <= Begin(t, q) && |mask| == Begin(t, q) - Begin(t, p)
      && Played(t, p, calls) == Selected(Frames(t, q.frames)[Begin(t, p)..Begin(t, q)], mask)
    decreases |calls|
  {
    if calls == [] {
      BeginIsOffset(t, p);
    } else {
      var m := After(p, calls[0], t.frameSize);
      AfterAdvances(p, calls[0], t.frameSize);
      ShortCallsCutResiduals(t, m, calls[1..]);
      FramesMonotone(m, calls[1..], t.frameSize);
      MaskStep(t, p, calls[0], AfterAll(m, calls[1..], t.frameSize), Played(t, m, calls[1..]),
               Mask(m, calls[1..], t.frameSize));
    }
  }

  lemma {:induction false} NothingCut(p: Position, calls: seq<Call>, frameSize: nat)
    requires frameSize > 0 && NeverShort(p, calls, frameSize)
    ensures Mask(p, calls, frameSize) == All(|Mask(p, calls, frameSize)|, true)
    decreases |calls|
  {
    if calls != [] {
      NothingCut(After(p, calls[0], frameSize), calls[1..], frameSize);
    }
  }

  /** However a request is chunked, the chunks are the same bytes of the unchunked stream. */
  lemma ChunksAreTheStream(t: Tone, p: Position, calls: seq<Call>)
    requires t.Valid() && t.FullyWritten() && p.Fits(t.frameSize)
    requires NeverShort(p, calls, t.frameSize)
    ensures var q := AfterAll(p, calls, t.frameSize);
      && 0 <= Begin(t, p) <= Begin(t, q)
      && Played(t, p, calls) == Frames(t, q.frames)[Begin(t, p)..Begin(t, q)]
  {
    var q := AfterAll(p, calls, t.frameSize);
    ShortCallsCutResiduals(t, p, calls);
    NothingCut(p, calls, t.frameSize);
    SelectedAll(Frames(t, q.frames)[Begin(t, p)..Begin(t, q)], true);
  }

  lemma Join(whole: seq<Byte>, part: seq<Byte>, a: int, b: int, c: int)
    requires part <= whole && 0 <= a <= b <= |part| && b <= c <= |whole|
    ensures part[a..b] + whole[b..c] == whole[a..c]
  {
  }

  /** From a fresh generator: the output is a prefix of the stream as long as what was asked for, the
      residual is the negated total modulo the frame size, and the frames generated are the total divided
      by the frame size, rounded up. */
  lemma {:induction false} ChunkIndependence(t: Tone, calls: seq<Call>)
    requires t.Valid() && t.FullyWritten()
    requires NeverShort(Position(0, 0), calls, t.frameSize)
    ensures var f: nat, total: int := t.frameSize, SoundingBytes(calls); var q := AfterAll(Position(0, 0), calls, f);
      && total <= |Frames(t, q.frames)|
      && Played(t, Position(0, 0), calls) == Frames(t, q.frames)[..total]
      && q.residual == (-total) % f
      && q.frames == (total + f - 1) / f
  {
    var f, total := t.frameSize, SoundingBytes(calls);
    var q := AfterAll(Position(0, 0), calls, f);
    ChunksAreTheStream(t, Position(0, 0), calls);
    OffsetIff(Position(0, 0), calls, f);
    BeginIsOffset(t, q);
    CeilingDivision(total, f, q.frames, q.residual);
  }

  lemma CeilingDivision(total: int, f: nat, k: nat, r: nat)
    requires r < f && total == k * f - r
    ensures r == (-total) % f && k == (total + f - 1) / f
  {
    assert -total == (-(k as int)) * f + r;
    DivModUnique(-total, f, -(k as int), r);
    assert total + f - 1 == k * f + (f - 1 - r);
    DivModUnique(total + f - 1, f, k, f - 1 - r);
  }

  lemma MultipleAtLeast(d: int, f: nat)
    ensures d >= 1 ==> d * f >= f
    ensures d <= -1 ==> d * f + f <= 0
  {
    if d >= 1 {
      assert (d - 1) * f >= 0;
    } else if d <= -1 {
      assert (d + 1) * f <= 0;
    }
  }

  lemma DivModUnique(x: int, f: nat, q: int, r: nat)
    requires r < f && x == q * f + r
    ensures x / f == q && x % f == r
  {
    var q', r' := x / f, x % f;
    assert x == q' * f + r';
    assert (q - q') * f == r' - r;
    MultipleAtLeast(q - q', f);
  }

  /** A position is determined by its offset. */
  lemma OffsetDetermines(p: Position, q: Position, frameSize: nat)
    requires p.Fits(frameSize) && q.Fits(frameSize) && p.Offset(frameSize) == q.Offset(frameSize)
    ensures p == q
  {
    assert (p.frames - q.frames) * frameSize == p.residual - q.residual;
    MultipleAtLeast(p.frames - q.frames, frameSize);
  }

  /** Two ways of cutting the same number of bytes deliver the same bytes and leave the generator in the
      same place. */
  lemma {:induction false} ChunkingsAgree(t: Tone, p: Position, a: seq<Call>, b: seq<Call>)
    requires t.Valid() && t.FullyWritten() && p.Fits(t.frameSize)
    requires NeverShort(p, a, t.frameSize) && NeverShort(p, b, t.frameSize)
    requires SoundingBytes(a) == SoundingBytes(b)
    ensures Played(t, p, a) == Played(t, p, b)
    ensures AfterAll(p, a, t.frameSize) == AfterAll(p, b, t.frameSize)
  {
    OffsetIff(p, a, t.frameSize);
    OffsetIff(p, b, t.frameSize);
    OffsetDetermines(AfterAll(p, a, t.frameSize), AfterAll(p, b, t.frameSize), t.frameSize);
    ChunksAreTheStream(t, p, a);
    ChunksAreTheStream(t, p, b);
  }

  lemma FramesAfterCalls(t: Tone, calls: seq<Call>, k: nat)
    requires t.Valid() && t.FullyWritten() && NeverShort(Position(0, 0), calls, t.frameSize)
    requires k == (SoundingBytes(calls) + t.frameSize - 1) / t.frameSize
    ensures AfterAll(Position(0, 0), calls, t.frameSize).frames == k
  {
    ChunkIndependence(t, calls);
  }

  /** The phase after any calls none of which is short, `k` being their total in frames, rounded up: the start
      plus `k` increments, less a whole number of turns, and in the circle. */
  lemma PhaseAfterCalls(t: Tone, calls: seq<Call>, k: nat) returns (turns: nat)
    requires t.Valid() && t.FullyWritten() && NeverShort(Position(0, 0), calls, t.frameSize)
    requires InCircle(t.origin, t.twoPi) && 0.0 <= t.increment <= t.twoPi
    requires k == (SoundingBytes(calls) + t.frameSize - 1) / t.frameSize
    ensures var theta := PhaseAt(t, AfterAll(Position(0, 0), calls, t.frameSize).frames);
      InCircle(theta, t.twoPi) && theta == t.origin + k as real * t.increment - turns as real * t.twoPi
  {
    FramesAfterCalls(t, calls, k);
    turns := PhaseIsModular(t, k);
  }
}
