/** Energy-based voice-activity detection (`vad.rs`): a chunk is speech when it is
    long enough and its root-mean-square amplitude reaches the threshold. */
module Vad {
  import opened Signal

  datatype VadConfig = VadConfig(rmsThreshold: real, minSamples: nat)

  /** `VadConfig::default()`: threshold 0.015, at least 512 samples. */
  function DefaultConfig(): VadConfig
  {
    VadConfig(0.015, 512)
  }

  /** `has_speech`. The square root is compared through squares, which is exact on
      reals: for a non-negative threshold `t`, `sqrt(m) >= t` iff `m >= t * t`, and a
      negative threshold is met by every RMS. An empty chunk that passes the length
      gate (possible only with `minSamples == 0`) divides zero by zero in `f32`; the
      NaN it produces fails the comparison, so the chunk is not speech. */
  function HasSpeech(samples: seq<real>, config: VadConfig): bool {
    if |samples| < config.minSamples then false
    else if samples == [] then false
    else config.rmsThreshold < 0.0 || MeanSquare(samples) >= Square(config.rmsThreshold)
  }

  /** For any `rms` that is the square root of the mean square, the detector
      answers exactly `rms >= threshold` on chunks that pass the length gate. */
  lemma HasSpeechIsRmsComparison(samples: seq<real>, config: VadConfig, rms: real)
    requires samples != [] && |samples| >= config.minSamples
    requires rms >= 0.0 && Square(rms) == MeanSquare(samples)
    ensures HasSpeech(samples, config) <==> rms >= config.rmsThreshold
  {
    if config.rmsThreshold >= 0.0 {
      SquareMonotone(config.rmsThreshold, rms);
    }
  }

  /** Chunks shorter than the minimum are never speech. */
  lemma ShortChunksAreSilent(samples: seq<real>, config: VadConfig)
    requires |samples| < config.minSamples
    ensures !HasSpeech(samples, config)
  {
  }

  /** Digital silence is never speech under a positive threshold. */
  lemma SilenceIsNotSpeech(samples: seq<real>, config: VadConfig)
    requires config.rmsThreshold > 0.0
    requires forall i :: 0 <= i < |samples| ==> samples[i] == 0.0
    ensures !HasSpeech(samples, config)
  {
    SumSquaresOfZeros(samples);
    SquareMonotone(config.rmsThreshold, 0.0);
  }

  /** A chunk of constant amplitude `a` has RMS `|a|`, so it is speech exactly
      when `|a|` reaches the threshold. */
  lemma ConstantChunk(n: nat, a: real, config: VadConfig)
    requires n > 0 && n >= config.minSamples
    ensures HasSpeech(Constant(n, a), config) <==> Abs(a) >= config.rmsThreshold
  {
    SumSquaresOfConstant(Constant(n, a), a);
    assert MeanSquare(Constant(n, a)) == Square(a) == Square(Abs(a));
    HasSpeechIsRmsComparison(Constant(n, a), config, Abs(a));
  }

  lemma {:induction false} SumSquaresOfConstant(s: seq<real>, a: real)
    requires forall i :: 0 <= i < |s| ==> s[i] == a
    ensures SumSquares(s) == (|s| as real) * Square(a)
  {
    if s != [] {
      SumSquaresOfConstant(s[..|s| - 1], a);
    }
  }

  /** The source's examples: 32 samples are too short, 1024 zeros are silence,
      and a steady 0.12 amplitude over 1024 samples is speech. */
  lemma DefaultConfigExamples()
    ensures !HasSpeech(Constant(32, 0.2), DefaultConfig())
    ensures !HasSpeech(Constant(1024, 0.0), DefaultConfig())
    ensures HasSpeech(Constant(1024, 0.12), DefaultConfig())
  {
    SilenceIsNotSpeech(Constant(1024, 0.0), DefaultConfig());
    ConstantChunk(1024, 0.12, DefaultConfig());
  }
}
