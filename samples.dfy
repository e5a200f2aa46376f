/** Sample-buffer utilities of the audio module (src/audio.py): silence, the harmonic tone
    with its envelope, 16-bit clipping and little-endian packing, stereo downmix and
    linear-interpolation resampling. Buffers are sequences of integers at 44100 Hz. */
module Samples {
  import opened Wrappers
  import opened Constants

  type Byte = b: int | 0 <= b < 256

  /** Python `int()` on a real: rounds toward zero. */
  function Trunc(x: real): (n: int)
    ensures 0.0 <= x ==> n as real <= x < n as real + 1.0
    ensures x < 0.0 ==> n as real - 1.0 < x <= n as real
  {
    if x >= 0.0 then x.Floor else -((-x).Floor)
  }

  /** A truncated value that lies between two integers stays between them. */
  lemma TruncBetween(x: real, lo: int, hi: int)
    requires lo as real <= x <= hi as real
    ensures lo <= Trunc(x) <= hi
  {
  }

  /** Number of samples in `duration` seconds: `int(duration * rate)`, none for a
      non-positive duration (a list repeated a negative number of times is empty). */
  function SampleCount(duration: real): (n: nat)
    ensures duration >= 0.0 ==> n == (duration * SampleRate as real).Floor
    ensures duration <= 0.0 ==> n == 0
  {
    var t := Trunc(duration * SampleRate as real);
    if t < 0 then 0 else t
  }

  /** `generate_silence`: exactly `int(duration * 44100)` zeros. */
  function Silence(duration: real): (r: seq<int>)
    ensures |r| == SampleCount(duration)
    ensures forall i :: 0 <= i < |r| ==> r[i] == 0
  {
    seq(SampleCount(duration), _ => 0)
  }

  // ---------------------------------------------------------------- tone synthesis

  /** Envelope ramps: 20 ms attack, 50 ms release. */
  const AttackSamples: nat := (0.02 * SampleRate as real).Floor
  const ReleaseSamples: nat := (0.05 * SampleRate as real).Floor

  /** Attack-sustain-release envelope of sample i of n. */
  function Envelope(i: nat, n: nat): real
  {
    if i < AttackSamples then i as real / AttackSamples as real
    else if i > n - ReleaseSamples then (n - i) as real / ReleaseSamples as real
    else 1.0
  }

  /** The envelope never amplifies: it stays within [0, 1] on every sample of the tone. */
  lemma EnvelopeBounds(i: nat, n: nat)
    requires i < n
    ensures 0.0 <= Envelope(i, n) <= 1.0
  {
    assert AttackSamples == 882 && ReleaseSamples == 2205;
  }

  /** Fundamental plus second, third and fifth harmonics; `sine(x)` stands for sin(2 pi x). */
  function HarmonicTone(sine: real -> real, frequency: real, t: real): real
  {
    sine(frequency * t)
    + 0.3 * sine(frequency * 2.0 * t)
    + 0.15 * sine(frequency * 3.0 * t)
    + 0.08 * sine(frequency * 5.0 * t)
  }

  /** `int(amplitude * tone * envelope)`. */
  function Scaled(tone: real, envelope: real): int
  {
    Trunc(BeepAmplitude * tone * envelope)
  }

  /** Sample i of an n-sample tone. */
  function ToneSample(sine: real -> real, frequency: real, n: nat, i: nat): int
  {
    Scaled(HarmonicTone(sine, frequency, i as real / SampleRate as real), Envelope(i, n))
  }

  /** The tone `generate_sine_wave` produces, as a value. */
  function SineWave(sine: real -> real, duration: real, frequency: real): (r: seq<int>)
    ensures |r| == SampleCount(duration)
  {
    var n := SampleCount(duration);
    seq(n, i requires 0 <= i < n => ToneSample(sine, frequency, n, i))
  }

  /** `generate_sine_wave`: one sample per step of the loop. */
  method GenerateSineWave(sine: real -> real, duration: real, frequency: real) returns (samples: seq<int>)
    ensures samples == SineWave(sine, duration, frequency)
  {
    var numSamples := SampleCount(duration);
    samples := [];
    for i := 0 to numSamples
      invariant |samples| == i
      invariant forall j :: 0 <= j < i ==> samples[j] == ToneSample(sine, frequency, numSamples, j)
    {
      var t := i as real / SampleRate as real;
      var tone := HarmonicTone(sine, frequency, t);
      var envelope := 1.0;
      if i < AttackSamples {
        envelope := i as real / AttackSamples as real;
      } else if i > numSamples - ReleaseSamples {
        envelope := (numSamples - i) as real / ReleaseSamples as real;
      }
      assert envelope == Envelope(i, numSamples);
      var sample := Scaled(tone, envelope);
      samples := samples + [sample];
    }
  }

  lemma MulNonneg(x: real, y: real)
    requires 0.0 <= x && 0.0 <= y
    ensures 0.0 <= x * y
  {
  }

  lemma ScaledBound(a: real, bound: real, e: real)
    requires -bound <= a <= bound && 0.0 <= e <= 1.0
    ensures -bound <= a * e <= bound
  {
    if a >= 0.0 {
      MulNonneg(a, e);
      MulNonneg(a, 1.0 - e);
      MulNonneg(bound - a, e);
    } else {
      MulNonneg(-a, e);
      MulNonneg(-a, 1.0 - e);
      MulNonneg(bound + a, e);
    }
  }

  /** With a sine bounded by 1 every tone sample fits 16 bits (|sample| <= 15300), so the
      harmonic headroom of the amplitude means clipping never alters a tone. */
  lemma ToneFitsSixteenBits(sine: real -> real, duration: real, frequency: real, i: nat)
    requires forall x :: -1.0 <= sine(x) <= 1.0
    requires i < SampleCount(duration)
    ensures -15300 <= SineWave(sine, duration, frequency)[i] <= 15300
    ensures Clamp16(SineWave(sine, duration, frequency)[i]) == SineWave(sine, duration, frequency)[i]
  {
    var n := SampleCount(duration);
    var tone := HarmonicTone(sine, frequency, i as real / SampleRate as real);
    assert -1.53 <= tone <= 1.53;
    EnvelopeBounds(i, n);
    ScaledFits(tone, Envelope(i, n));
    assert SineWave(sine, duration, frequency)[i] == Scaled(tone, Envelope(i, n));
  }

  /** A tone value within the harmonics' peak 1.53, under an envelope in [0, 1], scales
      to at most 15300 in magnitude. */
  lemma ScaledFits(tone: real, envelope: real)
    requires -1.53 <= tone <= 1.53 && 0.0 <= envelope <= 1.0
    ensures -15300 <= Scaled(tone, envelope) <= 15300
  {
    ScaledBound(BeepAmplitude * tone, 15300.0, envelope);
    TruncBetween(BeepAmplitude * tone * envelope, -15300, 15300);
  }

  // ---------------------------------------------------------------- 16-bit output

  predicate InRange16(x: int)
  {
    MinSample <= x <= MaxSample
  }

  /** The clipping applied by `write_wav_file` to one sample. */
  function Clamp16(x: int): (r: int)
    ensures InRange16(r)
    ensures InRange16(x) ==> r == x
    ensures r != x ==> (x > MaxSample && r == MaxSample) || (x < MinSample && r == MinSample)
  {
    if x > MaxSample then MaxSample else if x < MinSample then MinSample else x
  }

  /** The clipping loop of `write_wav_file`. */
  method ClipSamples(samples: seq<int>) returns (clipped: seq<int>)
    ensures |clipped| == |samples|
    ensures forall i :: 0 <= i < |samples| ==> clipped[i] == Clamp16(samples[i])
  {
    clipped := [];
    for i := 0 to |samples|
      invariant |clipped| == i
      invariant forall j :: 0 <= j < i ==> clipped[j] == Clamp16(samples[j])
    {
      var sample := samples[i];
      if sample > MaxSample {
        clipped := clipped + [MaxSample];
      } else if sample < MinSample {
        clipped := clipped + [MinSample];
      } else {
        clipped := clipped + [sample];
      }
    }
  }

  /** One sample as two's-complement little-endian bytes (`struct.pack('<h', x)`). */
  function EncodeSample(x: int): (b: seq<Byte>)
    requires InRange16(x)
    ensures |b| == 2
    ensures (b[0] as int + 256 * b[1] as int) % 65536 == x % 65536
  {
    var u := if x < 0 then x + 65536 else x;
    [u % 256, u / 256]
  }

  /** `struct.unpack('<h', ...)` of two bytes. */
  function DecodeSample(lo: Byte, hi: Byte): (x: int)
    ensures InRange16(x)
    ensures (x - (lo as int + 256 * hi as int)) % 65536 == 0
  {
    var u := lo + 256 * hi;
    if u >= 32768 then u - 65536 else u
  }

  lemma DecodeEncode(x: int)
    requires InRange16(x)
    ensures DecodeSample(EncodeSample(x)[0], EncodeSample(x)[1]) == x
  {
  }

  lemma EncodeDecode(lo: Byte, hi: Byte)
    ensures EncodeSample(DecodeSample(lo, hi)) == [lo, hi]
  {
  }

  /** `struct.pack('<' + 'h' * n, ...)`: two bytes per sample, low byte first. */
  function Pack16(samples: seq<int>): (bytes: seq<Byte>)
    requires forall i :: 0 <= i < |samples| ==> InRange16(samples[i])
    ensures |bytes| == 2 * |samples|
    ensures forall i :: 0 <= i < |samples| ==> bytes[2 * i..2 * i + 2] == EncodeSample(samples[i])
  {
    if samples == [] then [] else EncodeSample(samples[0]) + Pack16(samples[1..])
  }

  /** `struct.unpack('<' + 'h' * (len // 2), frames)`. */
  function Unpack16(bytes: seq<Byte>): (samples: seq<int>)
    requires |bytes| % 2 == 0
    ensures |samples| == |bytes| / 2
    ensures forall i :: 0 <= i < |samples| ==> InRange16(samples[i])
    ensures forall i :: 0 <= i < |samples| ==> samples[i] == DecodeSample(bytes[2 * i], bytes[2 * i + 1])
  {
    if bytes == [] then [] else [DecodeSample(bytes[0], bytes[1])] + Unpack16(bytes[2..])
  }

  /** Unpacking what was packed gives back the samples. */
  lemma {:induction false} UnpackPack(samples: seq<int>)
    requires forall i :: 0 <= i < |samples| ==> InRange16(samples[i])
    ensures Unpack16(Pack16(samples)) == samples
  {
    if samples != [] {
      var bytes := Pack16(samples);
      assert bytes == EncodeSample(samples[0]) + Pack16(samples[1..]);
      assert bytes[2..] == Pack16(samples[1..]);
      DecodeEncode(samples[0]);
      UnpackPack(samples[1..]);
    }
  }

  /** Packing what was unpacked gives back the bytes. */
  lemma {:induction false} PackUnpack(bytes: seq<Byte>)
    requires |bytes| % 2 == 0
    ensures Pack16(Unpack16(bytes)) == bytes
  {
    if bytes != [] {
      var samples := Unpack16(bytes);
      assert samples[1..] == Unpack16(bytes[2..]);
      EncodeDecode(bytes[0], bytes[1]);
      PackUnpack(bytes[2..]);
      assert bytes == [bytes[0], bytes[1]] + bytes[2..];
    }
  }

  /** The clipped samples `write_wav_file` hands to the WAV writer, as frame bytes. */
  method EncodeWavFrames(samples: seq<int>) returns (frames: seq<Byte>)
    ensures |frames| == 2 * |samples|
    ensures Unpack16(frames) == seq(|samples|, i requires 0 <= i < |samples| => Clamp16(samples[i]))
  {
    var clipped := ClipSamples(samples);
    frames := Pack16(clipped);
    UnpackPack(clipped);
    assert clipped == seq(|samples|, i requires 0 <= i < |samples| => Clamp16(samples[i]));
  }

  // ---------------------------------------------------------------- stereo downmix

  /** Stereo to mono: each pair averaged with floor division, a trailing odd sample kept. */
  function Downmixed(stereo: seq<int>): (mono: seq<int>)
    ensures |mono| == (|stereo| + 1) / 2
  {
    if |stereo| < 2 then stereo else [(stereo[0] + stereo[1]) / 2] + Downmixed(stereo[2..])
  }

  /** Element k of the downmix: floor((s[2k] + s[2k+1]) / 2), or s[2k] for a trailing sample. */
  lemma {:induction false} DownmixedAt(stereo: seq<int>, k: nat)
    requires k < (|stereo| + 1) / 2
    ensures Downmixed(stereo)[k] ==
      if 2 * k + 1 < |stereo| then (stereo[2 * k] + stereo[2 * k + 1]) / 2 else stereo[2 * k]
  {
    if k > 0 && |stereo| >= 2 {
      DownmixedAt(stereo[2..], k - 1);
    }
  }

  /** The downmix loop of `generate_voice_announcement`. */
  method DownmixToMono(stereo: seq<int>) returns (mono: seq<int>)
    ensures mono == Downmixed(stereo)
  {
    mono := [];
    var i := 0;
    while i < |stereo|
      invariant 0 <= i <= |stereo| + 1 && i % 2 == 0
      invariant |mono| == i / 2
      invariant forall k :: 0 <= k < |mono| ==>
        mono[k] == if 2 * k + 1 < |stereo| then (stereo[2 * k] + stereo[2 * k + 1]) / 2 else stereo[2 * k]
    {
      if i + 1 < |stereo| {
        mono := mono + [(stereo[i] + stereo[i + 1]) / 2];
      } else {
        mono := mono + [stereo[i]];
      }
      i := i + 2;
    }
    forall k | 0 <= k < |mono|
      ensures mono[k] == Downmixed(stereo)[k]
    {
      DownmixedAt(stereo, k);
    }
  }

  // ---------------------------------------------------------------- resampling

  /** Output length `int(len * ratio)` of a resampling to a different rate. */
  function NewLength(n: nat, originalRate: nat, targetRate: nat): nat
    requires originalRate > 0
  {
    var ratio := targetRate as real / originalRate as real;
    MulNonneg(n as real, ratio);
    (n as real * ratio).Floor
  }

  /** Fractional source position `i / ratio` of output sample i. */
  function SourcePosition(i: nat, originalRate: nat, targetRate: nat): real
    requires originalRate > 0 && targetRate > 0
  {
    i as real / (targetRate as real / originalRate as real)
  }

  lemma PositionBelowLength(n: nat, originalRate: nat, targetRate: nat, i: nat)
    requires originalRate > 0
    requires i < NewLength(n, originalRate, targetRate)
    ensures targetRate > 0
    ensures 0.0 <= SourcePosition(i, originalRate, targetRate) < n as real
  {
    var ratio := targetRate as real / originalRate as real;
    assert ratio > 0.0;
    var p := i as real / ratio;
    assert p * ratio == i as real;
    assert i as real < n as real * ratio;
  }

  /** Lower bracketing source index, `int(i / ratio)`, and the upper one next to it. */
  function LowerIndex(n: nat, originalRate: nat, targetRate: nat, i: nat): (lo: nat)
    requires originalRate > 0
    requires i < NewLength(n, originalRate, targetRate)
    ensures lo < n
  {
    PositionBelowLength(n, originalRate, targetRate, i);
    SourcePosition(i, originalRate, targetRate).Floor
  }

  function UpperIndex(n: nat, originalRate: nat, targetRate: nat, i: nat): (hi: nat)
    requires originalRate > 0
    requires i < NewLength(n, originalRate, targetRate)
    ensures hi < n
  {
    var lo := LowerIndex(n, originalRate, targetRate, i);
    if lo + 1 < n - 1 then lo + 1 else n - 1
  }

  /** Linear interpolation `int(a * (1 - w) + b * w)`. */
  function Blend(a: int, b: int, weight: real): int
  {
    Trunc(a as real * (1.0 - weight) + b as real * weight)
  }

  /** Output sample i: the two bracketing samples blended by the fractional weight. */
  function ResampleAt(samples: seq<int>, originalRate: nat, targetRate: nat, i: nat): int
    requires originalRate > 0
    requires i < NewLength(|samples|, originalRate, targetRate)
  {
    PositionBelowLength(|samples|, originalRate, targetRate, i);
    var lo := LowerIndex(|samples|, originalRate, targetRate, i);
    var hi := UpperIndex(|samples|, originalRate, targetRate, i);
    if lo == hi then samples[lo]
    else
      Blend(samples[lo], samples[hi], SourcePosition(i, originalRate, targetRate) - lo as real)
  }

  /** `resample_audio` as a value; None stands for the division by a zero original rate. */
  function Resampled(samples: seq<int>, originalRate: nat, targetRate: nat): (r: Option<seq<int>>)
    ensures originalRate == targetRate ==> r == Some(samples)
    ensures originalRate != targetRate ==> (r.None? <==> originalRate == 0)
    ensures originalRate != targetRate && r.Some? ==>
      |r.value| == NewLength(|samples|, originalRate, targetRate)
  {
    if originalRate == targetRate then Some(samples)
    else if originalRate == 0 then None
    else
      var n := NewLength(|samples|, originalRate, targetRate);
      Some(seq(n, i requires 0 <= i < n => ResampleAt(samples, originalRate, targetRate, i)))
  }

  /** A blend with a weight in [0, 1] lies between its two end points. */
  lemma BlendBetween(a: int, b: int, w: real)
    requires 0.0 <= w <= 1.0
    ensures a <= b ==> a <= Blend(a, b, w) <= b
    ensures b <= a ==> b <= Blend(a, b, w) <= a
  {
    var x := a as real * (1.0 - w) + b as real * w;
    assert x == a as real + (b - a) as real * w;
    if a <= b {
      MulNonneg((b - a) as real, w);
      MulNonneg((b - a) as real, 1.0 - w);
      TruncBetween(x, a, b);
    } else {
      MulNonneg((a - b) as real, w);
      MulNonneg((a - b) as real, 1.0 - w);
      TruncBetween(x, b, a);
    }
  }

  /** Output sample i lies between its two bracketing source samples, which are both within
      bounds and adjacent (or the same last sample). */
  lemma ResampleAtBracketed(samples: seq<int>, originalRate: nat, targetRate: nat, i: nat)
    requires originalRate > 0
    requires i < NewLength(|samples|, originalRate, targetRate)
    ensures var lo := LowerIndex(|samples|, originalRate, targetRate, i);
            var hi := UpperIndex(|samples|, originalRate, targetRate, i);
            var v := ResampleAt(samples, originalRate, targetRate, i);
            && lo <= hi <= lo + 1
            && (samples[lo] <= v <= samples[hi] || samples[hi] <= v <= samples[lo])
  {
    var lo := LowerIndex(|samples|, originalRate, targetRate, i);
    var hi := UpperIndex(|samples|, originalRate, targetRate, i);
    if lo != hi {
      var w := SourcePosition(i, originalRate, targetRate) - lo as real;
      assert ResampleAt(samples, originalRate, targetRate, i) == Blend(samples[lo], samples[hi], w);
      BlendBetween(samples[lo], samples[hi], w);
    }
  }

  /** The same for the whole resampled buffer. */
  lemma ResampleBracketed(samples: seq<int>, originalRate: nat, targetRate: nat, i: nat)
    requires originalRate > 0 && originalRate != targetRate
    requires i < NewLength(|samples|, originalRate, targetRate)
    ensures var lo := LowerIndex(|samples|, originalRate, targetRate, i);
            var hi := UpperIndex(|samples|, originalRate, targetRate, i);
            var v := Resampled(samples, originalRate, targetRate).value[i];
            && lo <= hi <= lo + 1
            && (samples[lo] <= v <= samples[hi] || samples[hi] <= v <= samples[lo])
  {
    assert Resampled(samples, originalRate, targetRate).value[i] == ResampleAt(samples, originalRate, targetRate, i);
    ResampleAtBracketed(samples, originalRate, targetRate, i);
  }

  /** `resample_audio`: the identity for equal rates, else one interpolated sample per output
      index. */
  method ResampleAudio(samples: seq<int>, originalRate: nat, targetRate: nat) returns (r: Option<seq<int>>)
    ensures r == Resampled(samples, originalRate, targetRate)
  {
    if originalRate == targetRate {
      return Some(samples);
    }
    if originalRate == 0 {
      return None;   // ZeroDivisionError in `target_rate / original_rate`
    }
    var ratio := targetRate as real / originalRate as real;
    var newLength := (|samples| as real * ratio).Floor;
    assert newLength == NewLength(|samples|, originalRate, targetRate);
    var resampled := [];
    for i := 0 to newLength
      invariant |resampled| == i
      invariant forall j :: 0 <= j < i ==> resampled[j] == ResampleAt(samples, originalRate, targetRate, j)
    {
      PositionBelowLength(|samples|, originalRate, targetRate, i);
      var originalIndex := i as real / ratio;
      var indexFloor := originalIndex.Floor;
      var indexCeil := if indexFloor + 1 < |samples| - 1 then indexFloor + 1 else |samples| - 1;
      assert originalIndex == SourcePosition(i, originalRate, targetRate);
      assert indexFloor == LowerIndex(|samples|, originalRate, targetRate, i);
      assert indexCeil == UpperIndex(|samples|, originalRate, targetRate, i);
      if indexFloor == indexCeil {
        resampled := resampled + [samples[indexFloor]];
      } else {
        var weight := originalIndex - indexFloor as real;
        var interpolated := Blend(samples[indexFloor], samples[indexCeil], weight);
        resampled := resampled + [interpolated];
      }
    }
    assert resampled == seq(newLength, i requires 0 <= i < newLength => ResampleAt(samples, originalRate, targetRate, i));
    return Some(resampled);
  }
}
