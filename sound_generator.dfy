/** The placeholder sound-effect generator: three sample generators (tone,
    noise, frequency slide), zip-mixing and concatenation of buffers, and the
    quantise-and-pack step that turns float samples into 16-bit PCM frames.

    Floating-point samples are modelled as reals. `math.sin(2*pi*x)` is the
    parameter `sin2pi` and `random.uniform(-A, A)` for the i-th sample is the
    parameter `uniform(i)`; the lemmas that need their ranges say so. */
module SoundGenerator {
  import opened Common

  const SAMPLE_RATE: int := 44100
  /** `32767 // 2`, the peak amplitude of a single generator. */
  const AMPLITUDE: int := 16383
  /** The clamp bound of `write_wav`; -32768 is never produced. */
  const PCM_MAX: int := 32767

  newtype byte = x: int | 0 <= x < 256

  // ---------------------------------------------------------------------------
  // Quantisation and packing
  // ---------------------------------------------------------------------------

  /** Python's `int(x)` on a float: truncation toward zero. */
  function Trunc(x: real): (n: int)
    ensures x >= 0.0 ==> 0 <= n && n as real <= x < n as real + 1.0
    ensures x < 0.0 ==> n <= 0 && n as real - 1.0 < x <= n as real
  {
    if x >= 0.0 then x.Floor else -((-x).Floor)
  }

  /** The value `write_wav` emits for one sample:
      `max(-32767, min(32767, int(sample)))`. */
  function Quantize(sample: real): (v: int)
    ensures -PCM_MAX <= v <= PCM_MAX
    ensures -PCM_MAX <= Trunc(sample) <= PCM_MAX ==> v == Trunc(sample)
    ensures Trunc(sample) > PCM_MAX ==> v == PCM_MAX
    ensures Trunc(sample) < -PCM_MAX ==> v == -PCM_MAX
  {
    Max(-PCM_MAX, Min(PCM_MAX, Trunc(sample)))
  }

  /** An integer sample already in range passes through unchanged. */
  lemma QuantizeKeepsInRange(v: int)
    requires -PCM_MAX <= v <= PCM_MAX
    ensures Quantize(v as real) == v
  {
    assert Trunc(v as real) == v;
  }

  /** Quantising a quantised sample changes nothing. */
  lemma QuantizeIdempotent(sample: real)
    ensures Quantize(Quantize(sample) as real) == Quantize(sample)
  {
    QuantizeKeepsInRange(Quantize(sample));
  }

  /** `struct.pack('<h', v)`: two bytes, low byte first, two's complement. */
  function Pack16(v: int): (b: seq<byte>)
    requires -32768 <= v <= 32767
    ensures |b| == 2
    ensures Unpack16(b[0], b[1]) == v
  {
    var u := if v < 0 then v + 65536 else v;
    [(u % 256) as byte, (u / 256) as byte]
  }

  /** `struct.unpack('<h', ...)`: the inverse of Pack16. */
  function Unpack16(lo: byte, hi: byte): int
  {
    var u := lo as int + 256 * hi as int;
    if u >= 32768 then u - 65536 else u
  }

  /** The frame bytes `write_wav` builds for a sample list. */
  function Encode(samples: seq<real>): (data: seq<byte>)
    ensures |data| == 2 * |samples|
  {
    if samples == [] then []
    else Encode(samples[..|samples| - 1]) + Pack16(Quantize(samples[|samples| - 1]))
  }

  /** Reads 16-bit little-endian frames back, pair by pair. */
  function Decode(data: seq<byte>): (values: seq<int>)
    requires |data| % 2 == 0
    ensures |values| == |data| / 2
  {
    if data == [] then []
    else Decode(data[..|data| - 2]) + [Unpack16(data[|data| - 2], data[|data| - 1])]
  }

  function QuantizeAll(samples: seq<real>): (values: seq<int>)
    ensures |values| == |samples|
    ensures forall i :: 0 <= i < |samples| ==> values[i] == Quantize(samples[i])
  {
    seq(|samples|, i requires 0 <= i < |samples| => Quantize(samples[i]))
  }

  /** Decoding the written frames gives back the clamped values in order. */
  lemma {:induction false} DecodeEncode(samples: seq<real>)
    ensures Decode(Encode(samples)) == QuantizeAll(samples)
  {
    if samples != [] {
      var init := samples[..|samples| - 1];
      var last := samples[|samples| - 1];
      DecodeEncode(init);
      var data := Encode(samples);
      assert data == Encode(init) + Pack16(Quantize(last));
      assert data[..|data| - 2] == Encode(init);
      assert QuantizeAll(samples) == QuantizeAll(init) + [Quantize(last)];
    }
  }

  /** Every decoded frame lies in [-32767, 32767]: -32768 is never written. */
  lemma EncodedRange(samples: seq<real>)
    ensures forall v :: v in Decode(Encode(samples)) ==> -PCM_MAX <= v <= PCM_MAX
  {
    DecodeEncode(samples);
  }

  /** The sample loop of `write_wav`: extends the frame buffer two bytes per
      sample. The WAV header and file output are not modelled. */
  method WriteWav(samples: seq<real>) returns (data: seq<byte>)
    ensures data == Encode(samples)
    ensures |data| == 2 * |samples|
  {
    data := [];
    for i := 0 to |samples|
      invariant data == Encode(samples[..i])
    {
      assert samples[..i + 1][..i] == samples[..i];
      data := data + Pack16(Quantize(samples[i]));
    }
    assert samples[..|samples|] == samples;
  }

  // ---------------------------------------------------------------------------
  // Generators
  // ---------------------------------------------------------------------------

  /** `int(duration * SAMPLE_RATE)`. */
  function NumSamples(duration: real): int
  {
    Trunc(duration * SAMPLE_RATE as real)
  }

  /** The linear decay envelope `1 - i/num_samples`. */
  function Decay(i: int, n: int): real
    requires n != 0
  {
    1.0 - (i as real) / (n as real)
  }

  /** The envelope lies in (0, 1], is 1 at the first sample and 1/n at the
      last one. */
  lemma DecayRange(i: int, n: int)
    requires 0 <= i < n
    ensures 0.0 < Decay(i, n) <= 1.0
    ensures i == 0 ==> Decay(i, n) == 1.0
    ensures i == n - 1 ==> Decay(i, n) == 1.0 / (n as real)
  {
    assert (i as real) / (n as real) < 1.0 by {
      assert (i as real) < (n as real);
    }
    if i == n - 1 {
      assert (i as real) / (n as real) == (n as real) / (n as real) - 1.0 / (n as real);
    }
  }

  /** `t = i / SAMPLE_RATE`. */
  function Time(i: int): real
  {
    (i as real) / (SAMPLE_RATE as real)
  }

  function ToneSample(frequency: real, i: int, n: int, decay: bool, sin2pi: real -> real): real
    requires decay ==> n != 0
  {
    var val := AMPLITUDE as real * sin2pi(frequency * Time(i));
    if decay then val * Decay(i, n) else val
  }

  lemma ToneSampleUnfold(frequency: real, i: int, n: int, decay: bool, sin2pi: real -> real)
    requires decay ==> n != 0
    ensures !decay ==> ToneSample(frequency, i, n, decay, sin2pi) == AMPLITUDE as real * sin2pi(frequency * Time(i))
    ensures decay ==> ToneSample(frequency, i, n, decay, sin2pi) == AMPLITUDE as real * sin2pi(frequency * Time(i)) * Decay(i, n)
  {
  }

  /** `generate_tone`: `num_samples` samples of a sine, optionally decayed. */
  method GenerateTone(frequency: real, duration: real, decay: bool, sin2pi: real -> real)
    returns (samples: seq<real>)
    ensures |samples| == Max(0, NumSamples(duration))
    ensures forall i :: 0 <= i < |samples| ==>
      samples[i] == ToneSample(frequency, i, NumSamples(duration), decay, sin2pi)
  {
    var n := NumSamples(duration);
    samples := [];
    var i := 0;
    while i < n
      invariant 0 <= i && (n >= 0 ==> i <= n) && (n < 0 ==> i == 0)
      invariant |samples| == i
      invariant forall j :: 0 <= j < i ==> samples[j] == ToneSample(frequency, j, n, decay, sin2pi)
    {
      var tone := AMPLITUDE as real * sin2pi(frequency * Time(i));
      var val := tone;
      if decay {
        val := tone * Decay(i, n);
      }
      ToneSampleUnfold(frequency, i, n, decay, sin2pi);
      samples := samples + [val];
      i := i + 1;
    }
  }

  function NoiseSample(draw: real, i: int, n: int, decay: bool): real
    requires decay ==> n != 0
  {
    if decay then draw * Decay(i, n) else draw
  }

  /** `generate_noise`: sample i is the i-th uniform draw, optionally decayed. */
  method GenerateNoise(duration: real, decay: bool, uniform: nat -> real)
    returns (samples: seq<real>)
    ensures |samples| == Max(0, NumSamples(duration))
    ensures forall i :: 0 <= i < |samples| ==>
      samples[i] == NoiseSample(uniform(i), i, NumSamples(duration), decay)
  {
    var n := NumSamples(duration);
    samples := [];
    var i := 0;
    while i < n
      invariant 0 <= i && (n >= 0 ==> i <= n) && (n < 0 ==> i == 0)
      invariant |samples| == i
      invariant forall j :: 0 <= j < i ==> samples[j] == NoiseSample(uniform(j), j, n, decay)
    {
      var val := uniform(i);
      if decay {
        val := val * Decay(i, n);
      }
      samples := samples + [val];
      i := i + 1;
    }
  }

  /** The slide's instantaneous frequency `start + (end - start) * (i / n)`. */
  function SlideFrequency(startFreq: real, endFreq: real, i: int, n: int): real
    requires n != 0
  {
    startFreq + (endFreq - startFreq) * ((i as real) / (n as real))
  }

  /** The instantaneous frequency starts at `startFreq` and stays between the
      two endpoints, whichever way the slide goes. */
  lemma SlideFrequencyBetween(startFreq: real, endFreq: real, i: int, n: int)
    requires 0 <= i < n
    ensures SlideFrequency(startFreq, endFreq, 0, n) == startFreq
    ensures startFreq <= endFreq ==> startFreq <= SlideFrequency(startFreq, endFreq, i, n) <= endFreq
    ensures endFreq <= startFreq ==> endFreq <= SlideFrequency(startFreq, endFreq, i, n) <= startFreq
  {
    var r := (i as real) / (n as real);
    assert 0.0 <= r <= 1.0 by {
      assert (i as real) <= (n as real);
    }
    var d := endFreq - startFreq;
    assert SlideFrequency(startFreq, endFreq, i, n) == startFreq + d * r;
    assert d - d * r == d * (1.0 - r);
    if d >= 0.0 {
      MulNonneg(d, r);
      MulNonneg(d, 1.0 - r);
    } else {
      MulNonneg(-d, r);
      MulNonneg(-d, 1.0 - r);
    }
  }

  /** The phase argument of the slide's sine: instantaneous frequency times
      elapsed time (not the integral of the frequency). */
  function SlidePhase(startFreq: real, endFreq: real, i: int, n: int): real
    requires n != 0
  {
    SlideFrequency(startFreq, endFreq, i, n) * Time(i)
  }

  function SlideSample(startFreq: real, endFreq: real, i: int, n: int, sin2pi: real -> real): real
    requires n != 0
  {
    AMPLITUDE as real * sin2pi(SlidePhase(startFreq, endFreq, i, n)) * Decay(i, n)
  }

  /** `generate_slide`: a sweep whose phase is frequency times elapsed time,
      always with the linear volume envelope. */
  method GenerateSlide(startFreq: real, endFreq: real, duration: real, sin2pi: real -> real)
    returns (samples: seq<real>)
    ensures |samples| == Max(0, NumSamples(duration))
    ensures forall i :: 0 <= i < |samples| ==>
      samples[i] == SlideSample(startFreq, endFreq, i, NumSamples(duration), sin2pi)
  {
    var n := NumSamples(duration);
    samples := [];
    var i := 0;
    while i < n
      invariant 0 <= i && (n >= 0 ==> i <= n) && (n < 0 ==> i == 0)
      invariant |samples| == i
      invariant forall j :: 0 <= j < i ==> samples[j] == SlideSample(startFreq, endFreq, j, n, sin2pi)
    {
      var phase := SlidePhase(startFreq, endFreq, i, n);
      var val := AMPLITUDE as real * sin2pi(phase);
      var vol := Decay(i, n);
      samples := samples + [val * vol];
      i := i + 1;
    }
  }

  // ---------------------------------------------------------------------------
  // Amplitude bounds
  // ---------------------------------------------------------------------------

  ghost predicate BoundedWave(sin2pi: real -> real)
  {
    forall x :: -1.0 <= sin2pi(x) <= 1.0
  }

  /** With `sin` bounded by 1, a tone sample never exceeds AMPLITUDE. */
  lemma ToneSampleBounded(frequency: real, i: int, n: int, decay: bool, sin2pi: real -> real)
    requires BoundedWave(sin2pi)
    requires 0 <= i < n
    ensures -(AMPLITUDE as real) <= ToneSample(frequency, i, n, decay, sin2pi) <= AMPLITUDE as real
  {
    var s := sin2pi(frequency * Time(i));
    var a := AMPLITUDE as real;
    assert -a <= a * s <= a;
    if decay {
      DecayRange(i, n);
      var f := Decay(i, n);
      var v := a * s;
      assert -a * f <= v * f <= a * f;
      assert a * f <= a;
    }
  }

  // ---------------------------------------------------------------------------
  // Mixing and concatenation
  // ---------------------------------------------------------------------------

  /** `[a + b for a, b in zip(xs, ys)]`: pairs up to the shorter buffer. */
  function Mix(xs: seq<real>, ys: seq<real>): (r: seq<real>)
    ensures |r| == Min(|xs|, |ys|)
    ensures forall i :: 0 <= i < |r| ==> r[i] == xs[i] + ys[i]
  {
    if xs == [] || ys == [] then []
    else [xs[0] + ys[0]] + Mix(xs[1..], ys[1..])
  }

  /** `clip1 + clip2 + ...`: the clips end to end, in argument order. */
  function Concat(clips: seq<seq<real>>): (r: seq<real>)
    ensures |r| == TotalLength(clips)
    ensures clips != [] ==> r[..|clips[0]|] == clips[0] && r[|clips[0]|..] == Concat(clips[1..])
  {
    if clips == [] then [] else clips[0] + Concat(clips[1..])
  }

  function TotalLength(clips: seq<seq<real>>): nat
  {
    if clips == [] then 0 else |clips[0]| + TotalLength(clips[1..])
  }

  /** The sum of two samples of at most AMPLITUDE each is at most 32766, so
      quantising their mix never clips. */
  lemma MixNeverClips(xs: seq<real>, ys: seq<real>)
    requires forall i :: 0 <= i < |xs| ==> -(AMPLITUDE as real) <= xs[i] <= AMPLITUDE as real
    requires forall i :: 0 <= i < |ys| ==> -(AMPLITUDE as real) <= ys[i] <= AMPLITUDE as real
    ensures forall i :: 0 <= i < |Mix(xs, ys)| ==>
      -32766.0 <= Mix(xs, ys)[i] <= 32766.0 && Quantize(Mix(xs, ys)[i]) == Trunc(Mix(xs, ys)[i])
  {
  }

  // ---------------------------------------------------------------------------
  // The composed effects of `main`
  // ---------------------------------------------------------------------------

  /** Combat start: two decayed 1.5 s tones (110 Hz and 220 Hz) zip-mixed. */
  method CombatStart(sin2pi: real -> real) returns (samples: seq<real>)
    requires BoundedWave(sin2pi)
    ensures |samples| == 66150
    ensures samples == Mix(ToneClip(110.0, 66150, sin2pi), ToneClip(220.0, 66150, sin2pi))
    ensures forall i :: 0 <= i < |samples| ==> Quantize(samples[i]) == Trunc(samples[i])
  {
    var low := GenerateTone(110.0, 1.5, true, sin2pi);
    var high := GenerateTone(220.0, 1.5, true, sin2pi);
    ToneClipIs(low, 110.0, 66150, sin2pi);
    ToneClipIs(high, 220.0, 66150, sin2pi);
    forall i | 0 <= i < |low| ensures -(AMPLITUDE as real) <= low[i] <= AMPLITUDE as real {
      ToneSampleBounded(110.0, i, 66150, true, sin2pi);
    }
    forall i | 0 <= i < |high| ensures -(AMPLITUDE as real) <= high[i] <= AMPLITUDE as real {
      ToneSampleBounded(220.0, i, 66150, true, sin2pi);
    }
    samples := Mix(low, high);
    MixNeverClips(low, high);
  }

  /** Round victory: the C, E and G notes (0.15 s, 0.15 s, 0.4 s) in order. */
  method RoundVictory(sin2pi: real -> real) returns (samples: seq<real>)
    ensures |samples| == 6615 + 6615 + 17640
    ensures samples[..6615] == ToneClip(523.25, 6615, sin2pi)
    ensures samples[6615..13230] == ToneClip(659.25, 6615, sin2pi)
    ensures samples[13230..] == ToneClip(783.99, 17640, sin2pi)
  {
    var noteC := GenerateTone(523.25, 0.15, true, sin2pi);
    var noteE := GenerateTone(659.25, 0.15, true, sin2pi);
    var noteG := GenerateTone(783.99, 0.4, true, sin2pi);
    ToneClipIs(noteC, 523.25, 6615, sin2pi);
    ToneClipIs(noteE, 659.25, 6615, sin2pi);
    ToneClipIs(noteG, 783.99, 17640, sin2pi);
    samples := Concat([noteC, noteE, noteG]);
    assert Concat([noteC, noteE, noteG]) == noteC + (noteE + (noteG + []));
  }

  /** Round defeat: F# (0.2 s) followed by C (0.6 s). */
  method RoundDefeat(sin2pi: real -> real) returns (samples: seq<real>)
    ensures |samples| == 8820 + 26460
    ensures samples[..8820] == ToneClip(369.99, 8820, sin2pi)
    ensures samples[8820..] == ToneClip(261.63, 26460, sin2pi)
  {
    var bad1 := GenerateTone(369.99, 0.2, true, sin2pi);
    var bad2 := GenerateTone(261.63, 0.6, true, sin2pi);
    ToneClipIs(bad1, 369.99, 8820, sin2pi);
    ToneClipIs(bad2, 261.63, 26460, sin2pi);
    samples := Concat([bad1, bad2]);
    assert Concat([bad1, bad2]) == bad1 + (bad2 + []);
  }

  /** The decayed tone of n samples, as a value. */
  function ToneClip(frequency: real, n: nat, sin2pi: real -> real): seq<real>
  {
    seq(n, i requires 0 <= i < n => ToneSample(frequency, i, n, true, sin2pi))
  }

  lemma ToneClipIs(s: seq<real>, frequency: real, n: nat, sin2pi: real -> real)
    requires |s| == n
    requires forall i :: 0 <= i < |s| ==> s[i] == ToneSample(frequency, i, n, true, sin2pi)
    ensures s == ToneClip(frequency, n, sin2pi)
  {
  }
}
