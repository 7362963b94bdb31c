/** Audio conditioning (`audio.rs`): format validation, sample conversion,
    down-sampling to 16 kHz, channel mixing to mono and the microphone level
    meter. Samples are exact reals; `f32` rounding is not modelled. */
module Audio {
  import opened Wrappers
  import opened Ints
  import opened Strings
  import opened Signal
  import opened Arith

  const SAMPLE_RATE_HZ: int := 16000
  const CHANNELS: int := 1

  /** `validate_audio_format`: the sample rate is checked before the channel count. */
  function ValidateAudioFormat(sampleRateHz: u32, channels: u16): (r: Result<(), string>)
    ensures r.Ok? <==> sampleRateHz == SAMPLE_RATE_HZ && channels == CHANNELS
    ensures sampleRateHz != SAMPLE_RATE_HZ ==>
              r == Err("invalid sample rate: expected 16000, got " + NatToString(sampleRateHz))
    ensures sampleRateHz == SAMPLE_RATE_HZ && channels != CHANNELS ==>
              r == Err("invalid channel count: expected 1, got " + NatToString(channels))
  {
    if sampleRateHz != SAMPLE_RATE_HZ then
      Err("invalid sample rate: expected 16000, got " + NatToString(sampleRateHz))
    else if channels != CHANNELS then
      Err("invalid channel count: expected 1, got " + NatToString(channels))
    else
      Ok(())
  }

  lemma ValidateAudioFormatExamples()
    ensures ValidateAudioFormat(16000, 1).Ok?
    ensures ValidateAudioFormat(48000, 1).Err?
    ensures ValidateAudioFormat(16000, 2).Err?
  {
  }

  /** One `i16` sample scaled by `i16::MAX`. */
  function I16ToReal(x: i16): (r: real)
    ensures (r == 0.0 <==> x == 0) && (r < 0.0 <==> x < 0)
    ensures -1.0 - 1.0 / 32767.0 <= r <= 1.0
    ensures x == I16_MAX ==> r == 1.0
  {
    x as real / (I16_MAX as real)
  }

  /** One `u16` sample mapped onto [-1, 1]. */
  function U16ToReal(x: u16): (r: real)
    ensures -1.0 <= r <= 1.0
    ensures x == 0 ==> r == -1.0
    ensures x == U16_MAX ==> r == 1.0
  {
    (x as real / (U16_MAX as real)) * 2.0 - 1.0
  }

  /** `pcm_i16_to_f32`. */
  function PcmI16ToF32(samples: seq<i16>): (r: seq<real>)
    ensures |r| == |samples|
    ensures forall i :: 0 <= i < |r| ==>
      && -1.0 - 1.0 / 32767.0 <= r[i] <= 1.0
      && (r[i] == 0.0 <==> samples[i] == 0)
      && (r[i] < 0.0 <==> samples[i] < 0)
      && (samples[i] == I16_MAX ==> r[i] == 1.0)
    ensures forall i, j :: 0 <= i < |r| && 0 <= j < |r| && samples[i] <= samples[j] ==> r[i] <= r[j]
  {
    seq(|samples|, i requires 0 <= i < |samples| => I16ToReal(samples[i]))
  }

  /** The conversion applied per sample by `interleaved_u16_to_mono`. */
  function PcmU16ToF32(samples: seq<u16>): (r: seq<real>)
    ensures |r| == |samples|
    ensures forall i :: 0 <= i < |r| ==>
      && -1.0 <= r[i] <= 1.0
      && (samples[i] == 0 ==> r[i] == -1.0)
      && (samples[i] == U16_MAX ==> r[i] == 1.0)
    ensures forall i, j :: 0 <= i < |r| && 0 <= j < |r| && samples[i] <= samples[j] ==> r[i] <= r[j]
  {
    seq(|samples|, i requires 0 <= i < |samples| => U16ToReal(samples[i]))
  }

  /** The conversion example of the source: the extremes and zero. */
  lemma PcmI16Example()
    ensures var r := PcmI16ToF32([I16_MIN, 0, I16_MAX]);
      |r| == 3 && r[0] < 0.0 && r[1] == 0.0 && r[2] > 0.99
  {
  }

  // ----- Down-sampling -----

  /** Exclusive end of output bucket `k`: `floor(k * ratio)` with
      `ratio = source / 16000`, capped at the input length. */
  function BucketEnd(k: nat, len: nat, sourceRateHz: nat): (e: nat)
    ensures e <= len
  {
    Min(k * sourceRateHz / SAMPLE_RATE_HZ, len)
  }

  lemma BucketEndMonotone(k: nat, len: nat, sourceRateHz: nat)
    ensures BucketEnd(k, len, sourceRateHz) <= BucketEnd(k + 1, len, sourceRateHz)
  {
    DivMonotone(k * sourceRateHz, (k + 1) * sourceRateHz, SAMPLE_RATE_HZ);
  }

  /** `floor(len / ratio)`, the number of output samples above 16 kHz. */
  function DownsampledLength(len: nat, sourceRateHz: nat): nat
    requires sourceRateHz > 0
  {
    len * SAMPLE_RATE_HZ / sourceRateHz
  }

  /** Output sample `k`: the mean of its bucket, 0 for an empty bucket. */
  function BucketValue(input: seq<real>, k: nat, sourceRateHz: nat): real {
    BucketEndMonotone(k, |input|, sourceRateHz);
    Mean(input[BucketEnd(k, |input|, sourceRateHz)..BucketEnd(k + 1, |input|, sourceRateHz)])
  }

  /** What `downsample_to_16k` returns. */
  function Downsampled(input: seq<real>, sourceRateHz: u32): seq<real> {
    if sourceRateHz == SAMPLE_RATE_HZ then input
    else if sourceRateHz < SAMPLE_RATE_HZ then []
    else
      seq(DownsampledLength(|input|, sourceRateHz), k requires 0 <= k => BucketValue(input, k, sourceRateHz))
  }

  /** The inner loop of `downsample_to_16k`: sum and count one bucket. */
  method SumBucket(input: seq<real>, from: nat, to: nat) returns (sum: real, count: nat)
    requires from <= to <= |input|
    ensures sum == Sum(input[from..to]) && count == to - from
  {
    sum, count := 0.0, 0;
    for j := from to to
      invariant sum == Sum(input[from..j]) && count == j - from
    {
      assert input[from..j + 1][..j - from] == input[from..j];
      sum := sum + input[j];
      count := count + 1;
    }
  }

  /** `downsample_to_16k`: one pass over the buckets, summing and counting the
      samples of each. */
  method DownsampleTo16k(input: seq<real>, sourceRateHz: u32) returns (output: seq<real>)
    ensures output == Downsampled(input, sourceRateHz)
  {
    if sourceRateHz == SAMPLE_RATE_HZ {
      return input;
    }
    if sourceRateHz < SAMPLE_RATE_HZ {
      return [];
    }
    var outputLength := DownsampledLength(|input|, sourceRateHz);
    output := [];
    var position := 0;
    for index := 0 to outputLength
      invariant |output| == index
      invariant position == BucketEnd(index, |input|, sourceRateHz)
      invariant forall k :: 0 <= k < index ==> output[k] == BucketValue(input, k, sourceRateHz)
    {
      var nextPosition := Min((index + 1) * sourceRateHz / SAMPLE_RATE_HZ, |input|);
      assert nextPosition == BucketEnd(index + 1, |input|, sourceRateHz);
      BucketEndMonotone(index, |input|, sourceRateHz);
      var sum, count := SumBucket(input, position, nextPosition);
      var value := if count > 0 then sum / count as real else 0.0;
      assert value == BucketValue(input, index, sourceRateHz);
      output := output + [value];
      position := nextPosition;
    }
    DownsampledByBuckets(input, sourceRateHz, output);
  }

  lemma DownsampledByBuckets(input: seq<real>, sourceRateHz: u32, output: seq<real>)
    requires sourceRateHz > SAMPLE_RATE_HZ
    requires |output| == DownsampledLength(|input|, sourceRateHz)
    requires forall k :: 0 <= k < |output| ==> output[k] == BucketValue(input, k, sourceRateHz)
    ensures output == Downsampled(input, sourceRateHz)
  {
  }

  /** At 16 kHz the input is returned, below it nothing, and above it
      `floor(len * 16000 / source)` samples. */
  lemma DownsampledLengthIs(input: seq<real>, sourceRateHz: u32)
    ensures sourceRateHz == SAMPLE_RATE_HZ ==> Downsampled(input, sourceRateHz) == input
    ensures sourceRateHz < SAMPLE_RATE_HZ ==> Downsampled(input, sourceRateHz) == []
    ensures sourceRateHz > SAMPLE_RATE_HZ ==>
              |Downsampled(input, sourceRateHz)| == |input| * SAMPLE_RATE_HZ / sourceRateHz
  {
  }

  /** Above 16 kHz every bucket that produces an output sample lies inside the
      input and holds at least one sample, so the empty-bucket branch never fires. */
  lemma BucketsAreNonEmpty(len: nat, sourceRateHz: nat, k: nat)
    requires sourceRateHz > SAMPLE_RATE_HZ
    requires k < DownsampledLength(len, sourceRateHz)
    ensures k * sourceRateHz / SAMPLE_RATE_HZ < (k + 1) * sourceRateHz / SAMPLE_RATE_HZ <= len
    ensures BucketEnd(k, len, sourceRateHz) < BucketEnd(k + 1, len, sourceRateHz)
  {
    var n := DownsampledLength(len, sourceRateHz);
    var a, b := k * sourceRateHz, (k + 1) * sourceRateHz;
    assert b == a + sourceRateHz;
    var q := a / SAMPLE_RATE_HZ;
    DivBounds(a, SAMPLE_RATE_HZ);
    DivMonotone((q + 1) * SAMPLE_RATE_HZ, b, SAMPLE_RATE_HZ);
    DivOfMultiple(q + 1, SAMPLE_RATE_HZ);
    MulMonotone(k + 1, n, sourceRateHz);
    DivBounds(len * SAMPLE_RATE_HZ, sourceRateHz);
    DivMonotone(b, len * SAMPLE_RATE_HZ, SAMPLE_RATE_HZ);
    DivOfMultiple(len, SAMPLE_RATE_HZ);
  }

  /** Down-sampling a constant signal gives the same constant. */
  lemma DownsampleOfConstant(input: seq<real>, c: real, sourceRateHz: u32)
    requires forall i :: 0 <= i < |input| ==> input[i] == c
    ensures forall k :: 0 <= k < |Downsampled(input, sourceRateHz)| ==> Downsampled(input, sourceRateHz)[k] == c
  {
    if sourceRateHz > SAMPLE_RATE_HZ {
      var out := Downsampled(input, sourceRateHz);
      forall k | 0 <= k < |out|
        ensures out[k] == c
      {
        BucketsAreNonEmpty(|input|, sourceRateHz, k);
        BucketEndMonotone(k, |input|, sourceRateHz);
        var a, b := BucketEnd(k, |input|, sourceRateHz), BucketEnd(k + 1, |input|, sourceRateHz);
        MeanOfConstant(input[a..b], c);
      }
    }
  }

  /** The test of the source: 4800 samples at 48 kHz give 1600. */
  lemma DownsampleExample()
    ensures |Downsampled(Constant(4800, 0.5), 48000)| == 1600
    ensures |Downsampled(Constant(2400, 0.5), 8000)| == 0
  {
    DownsampledLengthIs(Constant(4800, 0.5), 48000);
  }

  // ----- Mixing to mono -----

  /** Frame `k` of an interleaved buffer: `channels` consecutive samples. */
  function Frame(input: seq<real>, k: nat, channels: nat): (f: seq<real>)
    requires channels > 0 && k < |input| / channels
    ensures |f| == channels
  {
    BlocksFit(k, channels, |input|);
    input[k * channels..(k + 1) * channels]
  }

  /** What `interleaved_f32_to_mono` returns: the input itself for one channel
      (or none), otherwise one average per complete frame. */
  function Mixed(input: seq<real>, channels: nat): seq<real> {
    if channels <= 1 then input
    else seq(|input| / channels, k requires 0 <= k < |input| / channels => Sum(Frame(input, k, channels)) / (channels as real))
  }

  /** `interleaved_f32_to_mono`, walking `chunks_exact(channels)`. */
  method InterleavedF32ToMono(input: seq<real>, channels: nat) returns (output: seq<real>)
    ensures output == Mixed(input, channels)
  {
    if channels <= 1 {
      return input;
    }
    output := [];
    var frames := |input| / channels;
    for k := 0 to frames
      invariant |output| == k
      invariant forall i :: 0 <= i < k ==> output[i] == Mixed(input, channels)[i]
    {
      var frame := Frame(input, k, channels);
      var sum := 0.0;
      for j := 0 to channels
        invariant sum == Sum(frame[..j])
      {
        assert frame[..j + 1][..j] == frame[..j];
        sum := sum + frame[j];
      }
      assert frame[..channels] == frame;
      output := output + [sum / channels as real];
    }
  }

  /** `interleaved_i16_to_mono`: each sample is scaled as in `pcm_i16_to_f32`
      before it is averaged. */
  method InterleavedI16ToMono(input: seq<i16>, channels: nat) returns (output: seq<real>)
    ensures output == Mixed(PcmI16ToF32(input), channels)
  {
    output := InterleavedF32ToMono(PcmI16ToF32(input), channels);
  }

  /** `interleaved_u16_to_mono`: each sample is mapped onto [-1, 1] before it is
      averaged. */
  method InterleavedU16ToMono(input: seq<u16>, channels: nat) returns (output: seq<real>)
    ensures output == Mixed(PcmU16ToF32(input), channels)
  {
    output := InterleavedF32ToMono(PcmU16ToF32(input), channels);
  }

  /** Interleaving: every mono sample repeated on all `channels` channels. */
  function Interleave(mono: seq<real>, channels: nat): (r: seq<real>)
    ensures |r| == |mono| * channels
  {
    if mono == [] then [] else Interleave(mono[..|mono| - 1], channels) + Constant(channels, mono[|mono| - 1])
  }

  lemma {:induction false} InterleaveFrame(mono: seq<real>, channels: nat, k: nat)
    requires channels > 0 && k < |mono|
    ensures (k + 1) * channels <= |Interleave(mono, channels)|
    ensures Interleave(mono, channels)[k * channels..(k + 1) * channels] == Constant(channels, mono[k])
  {
    var n := |mono|;
    var prefix := Interleave(mono[..n - 1], channels);
    assert |prefix| == (n - 1) * channels;
    MulMonotone(k + 1, n, channels);
    if k == n - 1 {
      assert k * channels == |prefix|;
    } else {
      InterleaveFrame(mono[..n - 1], channels, k);
    }
  }

  /** Mixing undoes interleaving: a frame of equal samples averages to that sample. */
  lemma MixedOfInterleaved(mono: seq<real>, channels: nat)
    requires channels > 1
    ensures Mixed(Interleave(mono, channels), channels) == mono
  {
    var x := Interleave(mono, channels);
    DivOfMultiple(|mono|, channels);
    forall k | 0 <= k < |mono|
      ensures Mixed(x, channels)[k] == mono[k]
    {
      InterleaveFrame(mono, channels, k);
      assert Frame(x, k, channels) == Constant(channels, mono[k]);
      ConstantFrameAverage(channels, mono[k]);
    }
  }

  lemma ConstantFrameAverage(channels: nat, c: real)
    requires channels > 0
    ensures Sum(Constant(channels, c)) / (channels as real) == c
  {
    SumOfConstant(Constant(channels, c), c);
    var n := channels as real;
    assert (n * c) / n == c;
  }

  /** A trailing partial frame is dropped. */
  lemma PartialFrameDropped(input: seq<real>, tail: seq<real>, channels: nat)
    requires channels > 1 && |input| % channels == 0 && |tail| < channels
    ensures Mixed(input + tail, channels) == Mixed(input, channels)
  {
    var x := input + tail;
    var q := |input| / channels;
    assert |input| == q * channels;
    DivOfMultiplePlus(q, channels, 0);
    DivOfMultiplePlus(q, channels, |tail|);
    forall k | 0 <= k < q
      ensures Frame(x, k, channels) == Frame(input, k, channels)
    {
      BlocksFit(k, channels, |input|);
    }
  }

  /** The stereo example of the source. */
  lemma MixedExample()
    ensures Mixed([0.2, 0.6, -0.2, 0.2], 2) == [0.4, 0.0]
  {
    var x := [0.2, 0.6, -0.2, 0.2];
    assert Frame(x, 0, 2) == [0.2, 0.6];
    assert Frame(x, 1, 2) == [-0.2, 0.2];
    assert [0.2, 0.6][..1] == [0.2] && [-0.2, 0.2][..1] == [-0.2];
    assert [0.2][..0] == [] && [-0.2][..0] == [];
    assert Sum([0.2, 0.6]) == 0.8 && Sum([-0.2, 0.2]) == 0.0;
  }

  // ----- Microphone level meter -----

  datatype MicLevel = MicLevel(level: real, peak: real, active: bool)

  const PEAK_DECAY: real := 0.96
  const RELEASE_KEEP: real := 0.84
  const RELEASE_TAKE: real := 0.16
  const LEVEL_GAIN: real := 14.0
  const ACTIVE_LEVEL: real := 0.08
  const ACTIVE_PEAK: real := 0.12

  /** What `measure_mic_level` returns, given the square root `rms` of the mean
      square of the samples. */
  function MicLevelOf(samples: seq<real>, previousLevel: real, previousPeak: real, rms: real): MicLevel {
    if samples == [] then MicLevel(0.0, previousPeak * PEAK_DECAY, false)
    else
      var scaled := RealClamp(rms * LEVEL_GAIN, 0.0, 1.0);
      var level := if scaled >= previousLevel then scaled
                   else previousLevel * RELEASE_KEEP + scaled * RELEASE_TAKE;
      var peak := PeakAbs(samples);
      MicLevel(level, RealMax(previousPeak * PEAK_DECAY, peak), level > ACTIVE_LEVEL || peak > ACTIVE_PEAK)
  }

  /** `measure_mic_level`: one pass accumulating the energy and the peak; the
      square root is a parameter. */
  method MeasureMicLevel(samples: seq<real>, previousLevel: real, previousPeak: real, sqrt: real -> real)
    returns (m: MicLevel)
    ensures samples == [] ==> m == MicLevelOf(samples, previousLevel, previousPeak, 0.0)
    ensures samples != [] ==> m == MicLevelOf(samples, previousLevel, previousPeak, sqrt(MeanSquare(samples)))
  {
    if samples == [] {
      return MicLevel(0.0, previousPeak * PEAK_DECAY, false);
    }
    var energySum := 0.0;
    var peak := 0.0;
    for i := 0 to |samples|
      invariant energySum == SumSquares(samples[..i])
      invariant peak == PeakAbs(samples[..i])
    {
      assert samples[..i + 1][..i] == samples[..i];
      var absolute := Abs(samples[i]);
      energySum := energySum + Square(samples[i]);
      if absolute > peak {
        peak := absolute;
      }
    }
    assert samples[..|samples|] == samples;
    var rms := sqrt(energySum / |samples| as real);
    var scaledLevel := RealClamp(rms * LEVEL_GAIN, 0.0, 1.0);
    var level := if scaledLevel >= previousLevel then scaledLevel
                 else previousLevel * RELEASE_KEEP + scaledLevel * RELEASE_TAKE;
    var combinedPeak := RealMax(previousPeak * PEAK_DECAY, peak);
    var active := level > ACTIVE_LEVEL || peak > ACTIVE_PEAK;
    m := MicLevel(level, combinedPeak, active);
  }

  /** Silence: level 0, the previous peak decays by 4 %, inactive. */
  lemma SilentMicLevel(previousLevel: real, previousPeak: real, rms: real)
    ensures var m := MicLevelOf([], previousLevel, previousPeak, rms);
      m.level == 0.0 && m.peak == previousPeak * 0.96 && !m.active
  {
  }

  /** On a non-empty frame the level attacks to the scaled RMS when that is not
      lower than the previous level and otherwise releases towards it; it stays
      between the two, so a level in [0, 1] stays in [0, 1]. */
  lemma MicLevelAttackRelease(samples: seq<real>, previousLevel: real, previousPeak: real, rms: real)
    requires samples != []
    ensures var m, scaled := MicLevelOf(samples, previousLevel, previousPeak, rms), RealClamp(rms * 14.0, 0.0, 1.0);
      && 0.0 <= scaled <= 1.0
      && (scaled >= previousLevel ==> m.level == scaled)
      && (scaled < previousLevel ==> m.level == previousLevel * 0.84 + scaled * 0.16 && scaled < m.level < previousLevel)
      && (0.0 <= previousLevel <= 1.0 ==> 0.0 <= m.level <= 1.0)
  {
  }

  /** The reported peak is the decayed previous peak or the frame's largest
      magnitude, whichever is larger. */
  lemma MicPeakBounds(samples: seq<real>, previousLevel: real, previousPeak: real, rms: real)
    requires samples != []
    ensures var m := MicLevelOf(samples, previousLevel, previousPeak, rms);
      && m.peak >= previousPeak * 0.96
      && (forall i :: 0 <= i < |samples| ==> m.peak >= Abs(samples[i]))
      && (m.peak == previousPeak * 0.96 || m.peak == PeakAbs(samples))
  {
  }

  /** Activity looks at the frame's own peak, not at the decayed combined peak:
      a quiet frame after a loud one is inactive although the reported peak is high. */
  lemma ActivityIgnoresDecayedPeak()
    ensures var m := MicLevelOf([0.0], 0.0, 1.0, 0.0);
      m.peak == 0.96 && !m.active
  {
  }

  /** The meter test of the source: a steady 0.2 signal from rest. */
  lemma SteadySignalIsActive()
    ensures var m := MicLevelOf(Constant(1024, 0.2), 0.0, 0.0, 0.2);
      m.level > 0.0 && m.peak > 0.0 && m.active
  {
    PeakAbsOfConstant(Constant(1024, 0.2), 0.2);
  }

  /** The decay test of the source. */
  lemma SilentPeakDecays()
    ensures var m := MicLevelOf([], 0.0, 0.75, 0.0);
      !m.active && 0.70 < m.peak < 0.75
  {
  }
}
