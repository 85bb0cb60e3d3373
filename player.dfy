/**
  The square-wave renderer behind playback and WAVE export: `generateSong`
  allocates a signed 8-bit stereo buffer for a song and `generateTone`
  fills one tone's frames in it, toggling the player's `lowWave` polarity
  whenever the per-tone period counter runs out.
*/
module Player {
  import opened JavaLang
  import opened Songs

  const SAMPLE_RATE: int := 44100

  /** `generateSong` renders two interleaved channels. */
  const CHANNELS: int := 2

  /** A Java `byte`. */
  newtype int8 = x: int | -128 <= x < 128

  /** Java's narrowing `(byte)` cast: the low eight bits, read as two's complement. */
  function ToByte(x: int): (b: int8)
    ensures -128 <= x < 128 ==> b as int == x
    ensures (x - b as int) % 256 == 0
  {
    ((x + 128) % 256 - 128) as int8
  }

  /**
    The tone's period in samples, `1.0 / pitch * SAMPLE_RATE`. A pitch of
    0 divides by zero, which Java's doubles turn into an infinite period.
  */
  datatype Period = Every(samples: real) | Never

  function PeriodOf(pitch: real): Period {
    if pitch == 0.0 then Never else Every(1.0 / pitch * SAMPLE_RATE as real)
  }

  /** `periodSamplesRemaining`; `Unbounded` is the infinity an infinite period leaves in it. */
  datatype Counter = At(samples: real) | Unbounded

  /** The state of the sample loop between two samples: the counter and the polarity. */
  datatype Wave = Wave(remaining: Counter, low: bool)

  /** Every tone starts with a counter of 0 and the polarity the player was left with. */
  function ToneStart(low: bool): Wave {
    Wave(At(0.0), low)
  }

  /**
    One pass of the sample loop: the counter drops by one sample but not
    below -1; once it is at or below 0 the period is added to it and the
    polarity flips.
  */
  function Next(w: Wave, period: Period): (n: Wave)
    ensures w.remaining.Unbounded? ==> n == w
    ensures w.remaining.At? && w.remaining.samples <= 1.0 ==> n.low == !w.low
    ensures w.remaining.At? && w.remaining.samples > 1.0 ==> n == Wave(At(w.remaining.samples - 1.0), w.low)
  {
    match w.remaining
    case Unbounded => w
    case At(r) =>
      var dropped := if r - 1.0 < -1.0 then -1.0 else r - 1.0;
      if dropped <= 0.0 then
        Wave(if period.Every? then At(dropped + period.samples) else Unbounded, !w.low)
      else
        Wave(At(dropped), w.low)
  }

  /** The polarities of the samples of a tone, in order, and the state after the last one. */
  datatype Sweep = Sweep(levels: seq<bool>, end: Wave)

  /** `n` passes of the sample loop from `w`: each sample takes the polarity from before its pass. */
  function SweepOf(w: Wave, period: Period, n: nat): (s: Sweep)
    ensures |s.levels| == n
  {
    if n == 0 then Sweep([], w)
    else
      var prev := SweepOf(w, period, n - 1);
      Sweep(prev.levels + [prev.end.low], Next(prev.end, period))
  }

  /** `volume`: 127 / 2 in Java's integer division. */
  const VOLUME: int := 127 / 2

  /** The byte written for a polarity: `-volume - 1` when low, `volume` otherwise. */
  function SampleByte(low: bool): (b: int8)
    ensures low ==> b == -64
    ensures !low ==> b == 63
  {
    ToByte(if low then -VOLUME - 1 else VOLUME)
  }

  /** `buf` with the indices in [from, to) set to `v`. */
  function Fill(buf: seq<int8>, from: int, to: int, v: int8): (r: seq<int8>)
    ensures |r| == |buf|
  {
    seq(|buf|, idx requires 0 <= idx < |buf| => if from <= idx < to then v else buf[idx])
  }

  /**
    `buf` with the frames of a tone written in order: frame `i` occupies the
    `channels` indices from `(offset + i) * channels` and holds the byte of
    `levels[i]` in each of them.
  */
  function Frames(buf: seq<int8>, offset: int, channels: int, levels: seq<bool>): (r: seq<int8>)
    ensures |r| == |buf|
  {
    if levels == [] then buf
    else
      var n := |levels| - 1;
      var base := (offset + n) * channels;
      Fill(Frames(buf, offset, channels, levels[..n]), base, base + channels, SampleByte(levels[n]))
  }

  /** The number of passes of `for (int i = 0; i < samples; i++)`. */
  function Count(samples: int): nat {
    if samples < 0 then 0 else samples
  }

  /**
    The indices a tone writes lie inside the buffer. The source does not
    check this: a tone that does not fit throws.
  */
  predicate Fits(length: int, samples: int, offset: int, channels: int) {
    samples <= 0 || channels <= 0 || (0 <= offset && (offset + samples) * channels <= length)
  }

  lemma FrameFits(length: int, samples: int, offset: int, channels: int, i: int)
    requires Fits(length, samples, offset, channels)
    requires 0 <= i < samples && channels > 0
    ensures 0 <= (offset + i) * channels
    ensures (offset + i) * channels + channels <= length
    ensures offset * channels + i * channels == (offset + i) * channels
  {
    assert (offset + samples) * channels - ((offset + i) * channels + channels) == (samples - i - 1) * channels;
  }

  /** Samples of one tone, `(int) (SAMPLE_RATE * duration)`. */
  function ToneSamples(e: Event): int {
    IntCast(SAMPLE_RATE as real * e.duration)
  }

  /** Frame offset of one tone, `(int) (SAMPLE_RATE * time * 1.05)`. */
  function ToneOffset(e: Event): int {
    IntCast(SAMPLE_RATE as real * e.time * 1.05)
  }

  /**
    The buffer length for a song: twice the stretched length in samples,
    truncated, plus one second of slack, in 32-bit `int` arithmetic.
  */
  function BufferLength(lengthSec: real): int {
    Wrap32(IntCast((CHANNELS * SAMPLE_RATE) as real * lengthSec * 1.05) + SAMPLE_RATE)
  }

  /** A rendered buffer and the polarity the player is left with. */
  datatype Rendering = Rendering(buffer: seq<int8>, low: bool)

  /** What one event does to a rendering: a tone writes its frames, a rest does nothing. */
  function RenderEvent(r: Rendering, e: Event): (next: Rendering)
    ensures |next.buffer| == |r.buffer|
  {
    if e.Tone? then
      var s := SweepOf(ToneStart(r.low), PeriodOf(e.pitch), Count(ToneSamples(e)));
      Rendering(Frames(r.buffer, ToneOffset(e), CHANNELS, s.levels), s.end.low)
    else r
  }

  /** The tones of `events`, rendered in list order into `buf`; rests are skipped. */
  function RenderEvents(buf: seq<int8>, low: bool, events: seq<Event>): (r: Rendering)
    ensures |r.buffer| == |buf|
  {
    if events == [] then Rendering(buf, low)
    else RenderEvent(RenderEvents(buf, low, events[..|events| - 1]), events[|events| - 1])
  }

  /** Every tone of the song fits the buffer. */
  predicate AllFit(length: int, events: seq<Event>) {
    forall k :: 0 <= k < |events| && events[k].Tone? ==>
      Fits(length, ToneSamples(events[k]), ToneOffset(events[k]), CHANNELS)
  }

  // ---------------------------------------------------------------- one tone

  lemma MulLeq(a: int, b: int, c: int)
    requires a <= b && c >= 0
    ensures a * c <= b * c
  {
    assert b * c - a * c == (b - a) * c;
  }

  lemma FramesStep(buf: seq<int8>, offset: int, channels: int, levels: seq<bool>, low: bool)
    ensures var base := (offset + |levels|) * channels;
      Frames(buf, offset, channels, levels + [low])
        == Fill(Frames(buf, offset, channels, levels), base, base + channels, SampleByte(low))
  {
    assert (levels + [low])[..|levels|] == levels;
  }

  /** A tone leaves every index outside [offset * channels, (offset + n) * channels) as it was. */
  lemma {:induction false} FramesOutside(buf: seq<int8>, offset: int, channels: int, levels: seq<bool>, idx: int)
    requires channels >= 0 && 0 <= idx < |buf|
    requires idx < offset * channels || (offset + |levels|) * channels <= idx
    ensures Frames(buf, offset, channels, levels)[idx] == buf[idx]
  {
    if levels != [] {
      var n := |levels| - 1;
      MulLeq(offset, offset + n, channels);
      MulLeq(offset + n + 1, offset + |levels|, channels);
      assert (offset + n + 1) * channels == (offset + n) * channels + channels;
      FramesOutside(buf, offset, channels, levels[..n], idx);
    }
  }

  /** Both channels of frame `i` hold the sample of the `i`-th polarity. */
  lemma {:induction false} FramesInside(buf: seq<int8>, offset: int, channels: int, levels: seq<bool>, i: int, c: int)
    requires 0 <= i < |levels| && 0 <= c < channels
    requires 0 <= (offset + i) * channels + c < |buf|
    ensures Frames(buf, offset, channels, levels)[(offset + i) * channels + c] == SampleByte(levels[i])
  {
    var n := |levels| - 1;
    if i < n {
      MulLeq(offset + i + 1, offset + n, channels);
      assert (offset + i + 1) * channels == (offset + i) * channels + channels;
      assert levels[..n][i] == levels[i];
      FramesInside(buf, offset, channels, levels[..n], i, c);
    }
  }

  /** Every index of the tone's range holds `volume` or `-volume - 1`. */
  lemma {:induction false} FramesInRange(buf: seq<int8>, offset: int, channels: int, levels: seq<bool>, idx: int)
    requires channels >= 0 && 0 <= idx < |buf|
    requires offset * channels <= idx < (offset + |levels|) * channels
    ensures Frames(buf, offset, channels, levels)[idx] == 63 || Frames(buf, offset, channels, levels)[idx] == -64
  {
    var n := |levels| - 1;
    assert (offset + n + 1) * channels == (offset + n) * channels + channels;
    if idx < (offset + n) * channels {
      FramesInRange(buf, offset, channels, levels[..n], idx);
    }
  }

  /** The first `m` samples of a longer run are the samples of a run of `m` passes. */
  lemma {:induction false} SweepPrefix(w: Wave, period: Period, n: nat, m: nat)
    requires m <= n
    ensures SweepOf(w, period, n).levels[..m] == SweepOf(w, period, m).levels
  {
    if m < n {
      SweepPrefix(w, period, n - 1, m);
      assert SweepOf(w, period, n).levels[..m] == SweepOf(w, period, n - 1).levels[..m];
    }
  }

  /** Sample `k` takes the polarity left by the first `k` passes. */
  lemma SweepLevel(w: Wave, period: Period, n: nat, k: nat)
    requires k < n
    ensures SweepOf(w, period, n).levels[k] == SweepOf(w, period, k).end.low
  {
    SweepPrefix(w, period, n, k + 1);
    assert SweepOf(w, period, n).levels[k] == SweepOf(w, period, n).levels[..k + 1][k];
  }

  /**
    The counter restarts at 0 for every tone, so whatever the period, the
    first sample of a tone keeps the polarity the previous tone left and
    the polarity flips right after it.
  */
  lemma FirstPassFlips(low: bool, period: Period, n: nat)
    requires n >= 1
    ensures SweepOf(ToneStart(low), period, n).levels[0] == low
    ensures SweepOf(ToneStart(low), period, 1).end.low == !low
    ensures n >= 2 ==> SweepOf(ToneStart(low), period, n).levels[1] == !low
  {
    SweepLevel(ToneStart(low), period, n, 0);
    if n >= 2 {
      SweepLevel(ToneStart(low), period, n, 1);
    }
  }

  lemma DivModNext(n: nat, p: int)
    requires p >= 2
    ensures n % p < p - 1 ==> (n + 1) / p == n / p && (n + 1) % p == n % p + 1
    ensures n % p == p - 1 ==> (n + 1) / p == n / p + 1 && (n + 1) % p == 0
  {
    var q, m := n / p, n % p;
    assert n + 1 == q * p + (m + 1);
    if m < p - 1 {
      DivModUnique(n + 1, p, q, m + 1);
    } else {
      DivModUnique(n + 1, p, q + 1, 0);
    }
  }

  lemma DivModUnique(a: int, p: int, q: int, r: int)
    requires p > 0 && a == q * p + r && 0 <= r < p
    ensures a / p == q && a % p == r
  {
    var q', r' := a / p, a % p;
    assert (q - q') * p == r' - r;
    if q > q' {
      MulLeq(1, q - q', p);
    } else if q < q' {
      MulLeq(1, q' - q, p);
    }
  }

  /**
    The counter and polarity after `n >= 1` passes with a whole period of
    `p >= 2` samples: the counter cycles through p, p - 1, ..., 1 and the
    polarity has flipped once for the first pass and once more for every
    full period since.
  */
  lemma {:induction false} SquareWaveState(low: bool, p: int, n: nat)
    requires p >= 2 && n >= 1
    ensures SweepOf(ToneStart(low), Every(p as real), n).end
              == Wave(At((if n % p == 0 then p else p - n % p) as real), low != ((n / p) % 2 == 0))
  {
    if n == 1 {
      DivModUnique(1, p, 0, 1);
    } else {
      SquareWaveState(low, p, n - 1);
      DivModNext(n - 1, p);
    }
  }

  /**
    With a whole period of `p >= 2` samples, the tone is a square wave: after
    its first sample the polarity is the flipped one for samples 1 to
    p - 1 and alternates every `p` samples from then on.
  */
  lemma SquareWave(low: bool, p: int, n: nat, k: nat)
    requires p >= 2 && 1 <= k < n
    ensures SweepOf(ToneStart(low), Every(p as real), n).levels[k] == (low != ((k / p) % 2 == 0))
  {
    SweepLevel(ToneStart(low), Every(p as real), n, k);
    SquareWaveState(low, p, k);
  }

  /** A period of one sample or less flips the polarity on every pass. */
  lemma {:induction false} ShortPeriodState(low: bool, period: real, n: nat)
    requires period <= 1.0
    ensures SweepOf(ToneStart(low), Every(period), n).end.low == (low != (n % 2 == 1))
    ensures n >= 1 ==> SweepOf(ToneStart(low), Every(period), n).end.remaining.At?
    ensures n >= 1 ==> SweepOf(ToneStart(low), Every(period), n).end.remaining.samples <= 1.0
  {
    if n >= 1 {
      ShortPeriodState(low, period, n - 1);
    }
  }

  /** With a period of one sample or less, consecutive samples alternate. */
  lemma ShortPeriod(low: bool, period: real, n: nat, k: nat)
    requires period <= 1.0 && k < n
    ensures SweepOf(ToneStart(low), Every(period), n).levels[k] == (low != (k % 2 == 1))
  {
    SweepLevel(ToneStart(low), Every(period), n, k);
    ShortPeriodState(low, period, k);
  }

  /**
    A tone of pitch 0 has an infinite period: the polarity flips after the
    first sample and never again.
  */
  lemma {:induction false} SilentPitchState(low: bool, n: nat)
    requires n >= 1
    ensures SweepOf(ToneStart(low), PeriodOf(0.0), n).end == Wave(Unbounded, !low)
  {
    if n > 1 {
      SilentPitchState(low, n - 1);
    }
  }

  lemma SilentPitch(low: bool, n: nat, k: nat)
    requires 1 <= k < n
    ensures SweepOf(ToneStart(low), PeriodOf(0.0), n).levels[k] == !low
  {
    SweepLevel(ToneStart(low), PeriodOf(0.0), n, k);
    SilentPitchState(low, k);
  }

  // ---------------------------------------------------------------- a whole song

  /** The byte range `e` writes: its frames, when it is a tone. */
  predicate Covers(e: Event, idx: int) {
    e.Tone? && ToneOffset(e) * CHANNELS <= idx < (ToneOffset(e) + Count(ToneSamples(e))) * CHANNELS
  }

  /** Events none of whose ranges hold `idx` leave it as it was; rests never touch anything. */
  lemma {:induction false} RenderOutside(buf: seq<int8>, low: bool, events: seq<Event>, idx: int)
    requires 0 <= idx < |buf|
    requires forall k :: 0 <= k < |events| ==> !Covers(events[k], idx)
    ensures RenderEvents(buf, low, events).buffer[idx] == buf[idx]
  {
    if events != [] {
      var n := |events| - 1;
      var prev := RenderEvents(buf, low, events[..n]);
      assert !Covers(events[n], idx);
      RenderOutside(buf, low, events[..n], idx);
      var e := events[n];
      if e.Tone? {
        var s := SweepOf(ToneStart(prev.low), PeriodOf(e.pitch), Count(ToneSamples(e)));
        FramesOutside(prev.buffer, ToneOffset(e), CHANNELS, s.levels, idx);
      }
    }
  }

  /**
    Tones are rendered in list order: where no later event writes, the byte
    is what the song up to an earlier event left there.
  */
  lemma {:induction false} LaterEventsKeep(buf: seq<int8>, low: bool, pre: seq<Event>, post: seq<Event>, idx: int)
    requires 0 <= idx < |buf|
    requires forall k :: 0 <= k < |post| ==> !Covers(post[k], idx)
    ensures RenderEvents(buf, low, pre + post).buffer[idx] == RenderEvents(buf, low, pre).buffer[idx]
  {
    if post == [] {
      assert pre + post == pre;
    } else {
      var n := |post| - 1;
      assert (pre + post)[..|pre + post| - 1] == pre + post[..n];
      assert !Covers(post[n], idx);
      LaterEventsKeep(buf, low, pre, post[..n], idx);
      var prev := RenderEvents(buf, low, pre + post[..n]);
      var e := post[n];
      if e.Tone? {
        var s := SweepOf(ToneStart(prev.low), PeriodOf(e.pitch), Count(ToneSamples(e)));
        FramesOutside(prev.buffer, ToneOffset(e), CHANNELS, s.levels, idx);
      }
    }
  }

  /** A byte that some tone's range holds is a square-wave sample, `volume` or `-volume - 1`. */
  lemma {:induction false} RenderCovered(buf: seq<int8>, low: bool, events: seq<Event>, idx: int, j: int)
    requires 0 <= idx < |buf|
    requires 0 <= j < |events| && Covers(events[j], idx)
    ensures RenderEvents(buf, low, events).buffer[idx] == 63 || RenderEvents(buf, low, events).buffer[idx] == -64
  {
    var n := |events| - 1;
    var prev := RenderEvents(buf, low, events[..n]);
    var e := events[n];
    if Covers(e, idx) {
      var s := SweepOf(ToneStart(prev.low), PeriodOf(e.pitch), Count(ToneSamples(e)));
      FramesInRange(prev.buffer, ToneOffset(e), CHANNELS, s.levels, idx);
    } else {
      assert j < n && events[..n][j] == events[j];
      RenderCovered(buf, low, events[..n], idx, j);
      if e.Tone? {
        var s := SweepOf(ToneStart(prev.low), PeriodOf(e.pitch), Count(ToneSamples(e)));
        FramesOutside(prev.buffer, ToneOffset(e), CHANNELS, s.levels, idx);
      }
    }
  }

  /** The tone events of a list, in order. */
  function TonesOf(events: seq<Event>): (r: seq<Event>)
    ensures |r| <= |events|
    ensures forall k :: 0 <= k < |r| ==> r[k].Tone?
  {
    if events == [] then []
    else if events[|events| - 1].Tone? then TonesOf(events[..|events| - 1]) + [events[|events| - 1]]
    else TonesOf(events[..|events| - 1])
  }

  /** Only tones are rendered: a song renders exactly as its tones alone do. */
  lemma {:induction false} OnlyTonesRendered(buf: seq<int8>, low: bool, events: seq<Event>)
    ensures RenderEvents(buf, low, events) == RenderEvents(buf, low, TonesOf(events))
  {
    if events != [] {
      var n := |events| - 1;
      OnlyTonesRendered(buf, low, events[..n]);
      if events[n].Tone? {
        var ts := TonesOf(events[..n]) + [events[n]];
        assert ts[..|ts| - 1] == TonesOf(events[..n]);
      }
    }
  }

  /**
    The buffer is big enough for every chained song whose durations are not
    negative and whose stretched length stays well inside `int`: each tone
    ends at or before the song's length, so its frames fit even without
    the extra second.
  */
  lemma ChainedSongFits(sv: SongValue)
    requires Chained(sv)
    requires forall k :: 0 <= k < |sv.events| ==> sv.events[k].duration >= 0.0
    requires (CHANNELS * SAMPLE_RATE) as real * sv.lengthSec * 1.05 < (INT_MAX - SAMPLE_RATE) as real
    ensures BufferLength(sv.lengthSec) >= SAMPLE_RATE
    ensures AllFit(BufferLength(sv.lengthSec), sv.events)
  {
    var x := (CHANNELS * SAMPLE_RATE) as real * sv.lengthSec * 1.05;
    if sv.events != [] {
      ChainedInTimeOrder(sv, 0, 0);
      ChainedWithinLength(sv, 0);
    }
    assert x >= 0.0;
    BufferLengthOf(sv.lengthSec, x);
    forall k | 0 <= k < |sv.events| && sv.events[k].Tone?
      ensures Fits(BufferLength(sv.lengthSec), ToneSamples(sv.events[k]), ToneOffset(sv.events[k]), CHANNELS)
    {
      ToneFits(sv, k, x);
    }
  }

  lemma ToneFits(sv: SongValue, k: int, x: real)
    requires Chained(sv)
    requires forall k :: 0 <= k < |sv.events| ==> sv.events[k].duration >= 0.0
    requires x == (CHANNELS * SAMPLE_RATE) as real * sv.lengthSec * 1.05
    requires 0.0 <= x < (INT_MAX - SAMPLE_RATE) as real
    requires 0 <= k < |sv.events|
    ensures Fits(BufferLength(sv.lengthSec), ToneSamples(sv.events[k]), ToneOffset(sv.events[k]), CHANNELS)
  {
    var e := sv.events[k];
    ChainedInTimeOrder(sv, 0, k);
    ChainedWithinLength(sv, k);
    assert 0.0 <= e.time && e.time + e.duration <= sv.lengthSec;
    TruncatedFrames(SAMPLE_RATE as real * e.time * 1.05, SAMPLE_RATE as real * e.duration, x);
    BufferLengthOf(sv.lengthSec, x);
  }

  lemma BufferLengthOf(lengthSec: real, x: real)
    requires x == (CHANNELS * SAMPLE_RATE) as real * lengthSec * 1.05
    requires 0.0 <= x < (INT_MAX - SAMPLE_RATE) as real
    ensures BufferLength(lengthSec) == IntCast(x) + SAMPLE_RATE
  {
    assert InInt(IntCast(x) + SAMPLE_RATE);
  }

  /** Truncation never rounds up: two truncated parts fit in the truncated whole. */
  lemma TruncatedFrames(t: real, d: real, x: real)
    requires 0.0 <= t && 0.0 <= d && 2.0 * (t + d) <= x < INT_MAX as real
    ensures 0 <= IntCast(t) && (IntCast(t) + IntCast(d)) * 2 <= IntCast(x)
  {
  }

  class SongPlayer {
    var lowWave: bool
    const volume: int := VOLUME

    /** A new player starts with the high polarity. */
    constructor ()
      ensures !lowWave
    {
      lowWave := false;
    }

    /**
      `generateSong`: a zeroed buffer of `BufferLength` bytes with every tone
      of the song rendered into it in list order. The polarity carries over
      from tone to tone and from one call to the next.
    */
    method GenerateSong(song: Song) returns (buffer: array<int8>)
      requires BufferLength(song.currLengthSec) >= 0
      requires AllFit(BufferLength(song.currLengthSec), song.Value().events)
      modifies this
      ensures fresh(buffer)
      ensures buffer.Length == BufferLength(old(song.currLengthSec))
      ensures RenderEvents(seq(buffer.Length, _ => 0), old(lowWave), song.Value().events)
                == Rendering(buffer[..], lowWave)
    {
      var length := BufferLength(song.currLengthSec);
      buffer := new int8[length](_ => 0);
      ghost var zeros := buffer[..];
      assert zeros == seq(buffer.Length, _ => 0);
      ghost var events := song.Value().events;
      ghost var low0 := lowWave;
      var songEvents := song.tones;
      for j := 0 to |songEvents|
        invariant RenderEvents(zeros, low0, events[..j]) == Rendering(buffer[..], lowWave)
      {
        assert events[..j + 1][..j] == events[..j];
        RenderSongEvent(buffer, songEvents[j], events[j]);
      }
      assert events[..|songEvents|] == events;
    }

    /** The body of `generateSong`'s loop: a tone is rendered at its offset, a rest is skipped. */
    method RenderSongEvent(buffer: array<int8>, e: SongEvent, ghost ev: Event)
      requires ev == e.Value()
      requires ev.Tone? ==> Fits(buffer.Length, ToneSamples(ev), ToneOffset(ev), CHANNELS)
      modifies this, buffer
      ensures Rendering(buffer[..], lowWave) == RenderEvent(Rendering(old(buffer[..]), old(lowWave)), ev)
    {
      if e.isTone {
        var samples := IntCast(SAMPLE_RATE as real * e.durationSeconds);
        var offset := IntCast(SAMPLE_RATE as real * e.timeSeconds * 1.05);
        assert samples == ToneSamples(ev) && offset == ToneOffset(ev);
        GenerateTone(buffer, samples, offset, CHANNELS, PeriodOf(e.pitch));
      }
    }

    /**
      `generateTone`: writes `samples` frames from frame `offset` on, each
      frame's `channels` bytes holding the sample of the polarity before
      that pass, and leaves the polarity where the last pass put it.
    */
    method GenerateTone(buffer: array<int8>, samples: int, offset: int, channels: int, period: Period)
      requires Fits(buffer.Length, samples, offset, channels)
      modifies this, buffer
      ensures var s := SweepOf(ToneStart(old(lowWave)), period, Count(samples));
        buffer[..] == Frames(old(buffer[..]), offset, channels, s.levels) && lowWave == s.end.low
    {
      var periodSamplesRemaining := At(0.0);
      ghost var levels: seq<bool> := [];
      ghost var start := ToneStart(lowWave);
      ghost var before := buffer[..];
      var i := 0;
      while i < samples
        invariant 0 <= i <= Count(samples)
        invariant SweepOf(start, period, i) == Sweep(levels, Wave(periodSamplesRemaining, lowWave))
        invariant buffer[..] == Frames(before, offset, channels, levels)
      {
        ghost var low := lowWave;
        periodSamplesRemaining := TonePass(buffer, samples, offset, channels, period, i, periodSamplesRemaining,
                                           before, start, levels);
        levels := levels + [low];
        i := i + 1;
      }
      assert i == Count(samples);
    }

    /** One pass of the sample loop: frame `offset + i` gets the sample of the polarity before the pass. */
    method TonePass(buffer: array<int8>, samples: int, offset: int, channels: int, period: Period, i: int,
                    remaining: Counter, ghost before: seq<int8>, ghost start: Wave, ghost levels: seq<bool>)
      returns (next: Counter)
      requires Fits(buffer.Length, samples, offset, channels)
      requires 0 <= i < samples
      requires SweepOf(start, period, i) == Sweep(levels, Wave(remaining, lowWave))
      requires buffer[..] == Frames(before, offset, channels, levels)
      modifies this, buffer
      ensures SweepOf(start, period, i + 1) == Sweep(levels + [old(lowWave)], Wave(next, lowWave))
      ensures buffer[..] == Frames(before, offset, channels, levels + [old(lowWave)])
    {
      FramesStep(before, offset, channels, levels, lowWave);
      var sampleValue := ToByte(if lowWave then -volume - 1 else volume);
      next := CountDown(remaining, period);
      if channels > 0 {
        FrameFits(buffer.Length, samples, offset, channels, i);
      } else {
        assert offset * channels + i * channels == (offset + i) * channels;
      }
      WriteFrame(buffer, offset * channels + i * channels, channels, sampleValue);
    }

    /** One pass of the counter: it drops by one, and the polarity flips when it runs out. */
    method CountDown(remaining: Counter, period: Period) returns (next: Counter)
      modifies this
      ensures Wave(next, lowWave) == Next(Wave(remaining, old(lowWave)), period)
    {
      next := remaining;
      if next.At? {
        var r := next.samples - 1.0;
        if r < -1.0 {
          r := -1.0;
        }
        if r <= 0.0 {
          next := if period.Every? then At(r + period.samples) else Unbounded;
          lowWave := !lowWave;
        } else {
          next := At(r);
        }
      }
    }

    /** The inner loop: all `channels` bytes of one frame get the same sample. */
    method WriteFrame(buffer: array<int8>, base: int, channels: int, sampleValue: int8)
      requires channels > 0 ==> 0 <= base && base + channels <= buffer.Length
      modifies buffer
      ensures buffer[..] == Fill(old(buffer[..]), base, base + channels, sampleValue)
    {
      for channel := 0 to if channels < 0 then 0 else channels
        invariant buffer[..] == Fill(old(buffer[..]), base, base + channel, sampleValue)
      {
        buffer[base + channel] := sampleValue;
      }
    }
  }
}
