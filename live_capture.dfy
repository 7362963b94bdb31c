/** The sequential core of live capture (`lib.rs`): which transcripts are fresh
    enough to emit, when a chunk of the pending 16 kHz backlog is handed to the
    pipeline and how large it is, how the backlog is bounded, and the small gain
    and meter helpers. Time is a count of nanoseconds passed in by the caller. */
module LiveCapture {
  import opened Wrappers
  import opened Ints
  import opened Strings
  import opened Signal
  import opened Config
  import opened Postprocess
  import opened Audio
  import opened Profile
  import opened Pipeline

  const NANOS_PER_MILLI: nat := 1_000_000

  function Millis(ms: nat): nat {
    ms * NANOS_PER_MILLI
  }

  // ---------------------------------------------------------------------------
  // Transcript freshness (`select_fresh_transcript`).
  // ---------------------------------------------------------------------------

  /** The transcript to emit for a raw engine result, given the last emitted one. */
  function FreshTranscript(last: Option<string>, raw: Option<string>): Option<string> {
    match raw
    case None => None
    case Some(value) =>
      var normalized := NormalizeTranscript(value);
      if normalized == [] || IsDuplicateTranscript(last, normalized) then None
      else Some(normalized)
  }

  /** A transcript is emitted exactly when the engine produced text whose
      normalised form is non-empty and not a duplicate of the last one; what is
      emitted is that normalised form. */
  lemma FreshCharacterisation(last: Option<string>, raw: Option<string>)
    ensures var r := FreshTranscript(last, raw);
      && (r.Some? <==> raw.Some? && !AllBlank(raw.value, RustBlanks)
                       && !IsDuplicateTranscript(last, NormalizeTranscript(raw.value)))
      && (r.Some? ==> r.value == NormalizeTranscript(raw.value))
  {
    if raw.Some? {
      NormalizeEmptyIff(raw.value);
    }
  }

  /** A normalised, non-empty transcript survives trimming. */
  lemma NormalizedIsNotBlank(value: string)
    requires !AllBlank(value, RustBlanks)
    ensures Trim(NormalizeTranscript(value)) != []
  {
    var n := NormalizeTranscript(value);
    NormalizeEmptyIff(value);
    NormalizeShape(value);
    TrimEmptyIff(n, RustBlanks);
    assert !Blank(RustBlanks, n[0]);
  }

  /** With nothing emitted yet (at start, after `cancel` or after `set_mode`),
      every engine result with some non-blank text is emitted. */
  lemma FirstTranscriptIsFresh(value: string)
    requires !AllBlank(value, RustBlanks)
    ensures FreshTranscript(None, Some(value)) == Some(NormalizeTranscript(value))
  {
    NormalizeEmptyIff(value);
    NormalizedIsNotBlank(value);
    DuplicateCharacterisation(None, NormalizeTranscript(value));
  }

  /** The same engine text is never emitted twice in a row, nor is an emitted
      transcript fed back in. */
  lemma FreshIsNotRepeated(last: Option<string>, value: string)
    requires FreshTranscript(last, Some(value)).Some?
    ensures var emitted := FreshTranscript(last, Some(value));
      && FreshTranscript(emitted, Some(value)) == None
      && FreshTranscript(emitted, emitted) == None
  {
    var n := NormalizeTranscript(value);
    DuplicateIsReflexive(n);
    NormalizeIdempotent(value);
  }

  /** The source's blank and absent cases. */
  lemma FreshBlankExamples(last: Option<string>)
    ensures FreshTranscript(last, Some("   ")) == None
    ensures FreshTranscript(last, None) == None
  {
    NormalizeEmptyIff("   ");
  }

  // ---------------------------------------------------------------------------
  // Chunk planning (`plan_live_capture_chunk`).
  // ---------------------------------------------------------------------------

  const MIN_LIVE_CHUNK_SAMPLES: nat := 8_000
  const MIN_PARTIAL_CADENCE_MS: nat := 300

  datatype LiveCaptureChunkPlan = LiveCaptureChunkPlan(nextChunkSize: usize, maxChunkSamples: usize)

  /** The chunk floor: the profile's minimum, but never below half a second. */
  function EffectiveMinChunk(tuning: ProfileTuning): usize {
    Max(tuning.minChunkSamples, MIN_LIVE_CHUNK_SAMPLES)
  }

  /** The cadence: the profile's, but never faster than every 300 ms. */
  function EffectiveCadenceMs(tuning: ProfileTuning): u64 {
    Max(tuning.partialCadenceMs, MIN_PARTIAL_CADENCE_MS)
  }

  function PlanLiveCaptureChunk(state: DictationState, tuning: ProfileTuning, pending: nat, elapsedNanos: nat)
    : (r: Option<LiveCaptureChunkPlan>)
    ensures r.Some? <==> state == Listening && pending >= EffectiveMinChunk(tuning)
                         && elapsedNanos >= Millis(EffectiveCadenceMs(tuning))
    ensures r.Some? ==> r.value.maxChunkSamples == SaturatingMulUsize(EffectiveMinChunk(tuning), 3)
    ensures r.Some? ==> r.value.nextChunkSize == Min(pending, r.value.maxChunkSamples)
    ensures r.Some? ==> EffectiveMinChunk(tuning) <= r.value.nextChunkSize <= r.value.maxChunkSamples
                        && r.value.nextChunkSize <= pending
  {
    if state != Listening then None
    else
      var minChunk := EffectiveMinChunk(tuning);
      if pending < minChunk then None
      else if elapsedNanos < Millis(EffectiveCadenceMs(tuning)) then None
      else
        var maxChunk := SaturatingMulUsize(minChunk, 3);
        Some(LiveCaptureChunkPlan(Min(pending, maxChunk), maxChunk))
  }

  /** Without saturation the largest chunk is three times the floor. */
  lemma MaxChunkIsThreeFloors(tuning: ProfileTuning, pending: nat, elapsedNanos: nat)
    requires 3 * EffectiveMinChunk(tuning) <= USIZE_MAX
    requires PlanLiveCaptureChunk(Listening, tuning, pending, elapsedNanos).Some?
    ensures PlanLiveCaptureChunk(Listening, tuning, pending, elapsedNanos).value.maxChunkSamples
            == 3 * EffectiveMinChunk(tuning)
  {
  }

  /** The source's examples, with tuning (32000 samples, 1400 ms). */
  lemma PlanExamples()
    ensures var t := ProfileTuning(32_000, 1_400);
      && PlanLiveCaptureChunk(Idle, t, 64_000, Millis(3_000)) == None
      && PlanLiveCaptureChunk(Listening, t, 31_999, Millis(3_000)) == None
      && PlanLiveCaptureChunk(Listening, t, 32_000, Millis(1_000)) == None
      && PlanLiveCaptureChunk(Listening, t, 80_000, Millis(1_600)) == Some(LiveCaptureChunkPlan(80_000, 96_000))
      && PlanLiveCaptureChunk(Listening, t, 150_000, Millis(2_000)) == Some(LiveCaptureChunkPlan(96_000, 96_000))
  {
  }

  /** Both bundled profiles are raised to the half-second floor and the 300 ms
      cadence floor only where they are below them. */
  lemma BundledProfilesUseFloors()
    ensures EffectiveMinChunk(TuningForProfile(Fast)) == 8_000 && EffectiveCadenceMs(TuningForProfile(Fast)) == 300
    ensures EffectiveMinChunk(TuningForProfile(Balanced)) == 8_000 && EffectiveCadenceMs(TuningForProfile(Balanced)) == 400
  {
  }

  // ---------------------------------------------------------------------------
  // The pending backlog.
  // ---------------------------------------------------------------------------

  /** How many samples may stay pending: five of the largest chunks. */
  function BacklogLimit(maxChunkSamples: usize): usize {
    SaturatingMulUsize(maxChunkSamples, 5)
  }

  /** The newest `n` samples of `s`, or all of it when it is no longer than `n`. */
  function NewestSuffix(s: seq<real>, n: nat): (r: seq<real>)
    ensures |r| == Min(|s|, n)
  {
    if |s| <= n then s else s[|s| - n..]
  }

  /** Trimming keeps the input's tail in order, drops only its oldest samples,
      and changes nothing when the input is within the bound. */
  lemma NewestSuffixIsTail(s: seq<real>, n: nat)
    ensures var r := NewestSuffix(s, n);
      && |r| <= n
      && s[..|s| - |r|] + r == s
      && (|s| <= n ==> r == s)
      && (|s| > n ==> |r| == n)
  {
  }

  /** Trimming twice is trimming once. */
  lemma NewestSuffixIdempotent(s: seq<real>, n: nat)
    ensures NewestSuffix(NewestSuffix(s, n), n) == NewestSuffix(s, n)
  {
  }

  /** Appending at least `n` new samples pushes every old one out. */
  lemma NewestSuffixOfAppend(older: seq<real>, newer: seq<real>, n: nat)
    requires |newer| >= n
    ensures NewestSuffix(older + newer, n) == NewestSuffix(newer, n)
  {
    var s := older + newer;
    if |newer| > n {
      assert s[|s| - n..] == newer[|newer| - n..];
    } else {
      assert s[|s| - n..] == newer;
    }
  }

  /** The source's example: 80 samples numbered 0..79 against a chunk size of
      10 keep the 50 newest, from 30 to 79. */
  lemma TrimExample()
    ensures var r := NewestSuffix(seq(80, i => i as real), BacklogLimit(10));
      |r| == 50 && r[0] == 30.0 && r[49] == 79.0
  {
  }

  // ---------------------------------------------------------------------------
  // One frame of the transcription worker.
  // ---------------------------------------------------------------------------

  /** What a frame does to the backlog: its pending samples, the instant of the
      last feed, and the chunk handed to the pipeline, if any. */
  datatype FrameOutcome = FrameOutcome(pending: seq<real>, lastFeedAt: int, chunk: Option<seq<real>>)

  /** `Instant::elapsed`, which never goes below zero. */
  function Elapsed(since: int, now: int): nat {
    if now >= since then now - since else 0
  }

  function OnFrameOutcome(pending: seq<real>, lastFeedAt: int, downsampled: seq<real>,
                          state: DictationState, tuning: ProfileTuning, now: int): FrameOutcome
  {
    if downsampled == [] then FrameOutcome(pending, lastFeedAt, None)
    else
      var grown := pending + downsampled;
      if state != Listening then FrameOutcome([], lastFeedAt, None)
      else match PlanLiveCaptureChunk(state, tuning, |grown|, Elapsed(lastFeedAt, now))
        case None => FrameOutcome(grown, lastFeedAt, None)
        case Some(plan) =>
          FrameOutcome(NewestSuffix(grown[plan.nextChunkSize..], BacklogLimit(plan.maxChunkSamples)), now,
                       Some(grown[..plan.nextChunkSize]))
  }

  /** A frame that down-samples to nothing changes nothing. */
  lemma EmptyFrameChangesNothing(pending: seq<real>, lastFeedAt: int, state: DictationState,
                                 tuning: ProfileTuning, now: int)
    ensures OnFrameOutcome(pending, lastFeedAt, [], state, tuning, now) == FrameOutcome(pending, lastFeedAt, None)
  {
  }

  /** Outside Listening a frame empties the backlog and feeds nothing. */
  lemma LeavingListeningClears(pending: seq<real>, lastFeedAt: int, downsampled: seq<real>,
                               state: DictationState, tuning: ProfileTuning, now: int)
    requires downsampled != [] && state != Listening
    ensures var o := OnFrameOutcome(pending, lastFeedAt, downsampled, state, tuning, now);
      o.pending == [] && o.chunk == None && o.lastFeedAt == lastFeedAt
  {
  }

  /** While listening, samples are never reordered or invented: a frame either
      only appends to the backlog, or feeds the oldest samples as the chunk and
      keeps a trimmed tail of the rest, within five maximal chunks, and restarts
      the cadence clock. */
  lemma FrameKeepsOrder(pending: seq<real>, lastFeedAt: int, downsampled: seq<real>,
                        tuning: ProfileTuning, now: int)
    requires downsampled != []
    ensures var o := OnFrameOutcome(pending, lastFeedAt, downsampled, Listening, tuning, now);
      var grown := pending + downsampled;
      && (o.chunk.None? ==> o.pending == grown && o.lastFeedAt == lastFeedAt)
      && (o.chunk.Some? ==>
            && EffectiveMinChunk(tuning) <= |o.chunk.value| <= SaturatingMulUsize(EffectiveMinChunk(tuning), 3)
            && o.chunk.value == grown[..|o.chunk.value|]
            && (exists dropped :: o.chunk.value + dropped + o.pending == grown)
            && |o.pending| <= BacklogLimit(SaturatingMulUsize(EffectiveMinChunk(tuning), 3))
            && o.lastFeedAt == now)
  {
    var grown := pending + downsampled;
    var plan := PlanLiveCaptureChunk(Listening, tuning, |grown|, Elapsed(lastFeedAt, now));
    if plan.Some? {
      EmissionSplits(grown, plan.value.nextChunkSize, BacklogLimit(plan.value.maxChunkSamples));
    }
  }

  /** Taking `next` samples from the front and trimming the rest loses only a
      middle stretch. */
  lemma EmissionSplits(grown: seq<real>, next: nat, limit: nat)
    requires next <= |grown|
    ensures exists dropped :: grown[..next] + dropped + NewestSuffix(grown[next..], limit) == grown
  {
    var rest := grown[next..];
    var kept := NewestSuffix(rest, limit);
    NewestSuffixIsTail(rest, limit);
    var dropped := rest[..|rest| - |kept|];
    PrefixThenRest(grown, next, dropped, kept);
  }

  /** A prefix followed by any split of the rest is the whole sequence. */
  lemma PrefixThenRest(s: seq<real>, i: nat, d: seq<real>, k: seq<real>)
    requires i <= |s| && d + k == s[i..]
    ensures s[..i] + d + k == s
  {
    assert s[..i] + (d + k) == s;
  }

  /** A frame arriving before the cadence has elapsed since the last feed only
      grows the backlog. */
  lemma TooSoonOnlyGrows(pending: seq<real>, lastFeedAt: int, downsampled: seq<real>,
                         tuning: ProfileTuning, now: int)
    requires downsampled != [] && Elapsed(lastFeedAt, now) < Millis(EffectiveCadenceMs(tuning))
    ensures OnFrameOutcome(pending, lastFeedAt, downsampled, Listening, tuning, now)
            == FrameOutcome(pending + downsampled, lastFeedAt, None)
  {
  }

  /** The backlog of the transcription worker: the pending down-sampled audio and
      when the pipeline was last fed. */
  class CaptureBacklog {
    const sourceSampleRateHz: u32
    var pending: seq<real>
    var lastFeedAt: int

    /** The worker starts with an empty backlog and a last feed 8 s in the past,
        so the first full chunk is not held back by the cadence. */
    constructor(sourceSampleRateHz: u32, now: int)
      ensures this.sourceSampleRateHz == sourceSampleRateHz
      ensures pending == [] && lastFeedAt == now - Millis(8_000)
    {
      this.sourceSampleRateHz := sourceSampleRateHz;
      pending := [];
      lastFeedAt := now - Millis(8_000);
    }

    /** `trim_pending_backlog`: drop from the front until at most five maximal
        chunks remain. */
    method TrimPendingBacklog(maxChunkSamples: usize)
      modifies this
      ensures pending == NewestSuffix(old(pending), BacklogLimit(maxChunkSamples))
      ensures lastFeedAt == old(lastFeedAt)
    {
      var limit := BacklogLimit(maxChunkSamples);
      ghost var original := pending;
      while |pending| > limit
        invariant |pending| <= |original| && pending == original[|original| - |pending|..]
        invariant |pending| >= Min(|original|, limit)
        invariant lastFeedAt == old(lastFeedAt)
        decreases |pending|
      {
        pending := pending[1..];
      }
    }

    /** The `pop_front` loop that fills the chunk: up to `n` samples from the
        front of the backlog. */
    method TakeFront(n: nat) returns (chunk: seq<real>)
      modifies this
      ensures var k := Min(n, |old(pending)|);
        chunk == old(pending)[..k] && pending == old(pending)[k..]
      ensures lastFeedAt == old(lastFeedAt)
    {
      chunk := [];
      ghost var original := pending;
      for i := 0 to n
        invariant |chunk| == Min(i, |original|)
        invariant chunk + pending == original
        invariant lastFeedAt == old(lastFeedAt)
      {
        if pending != [] {
          chunk := chunk + [pending[0]];
          pending := pending[1..];
        }
      }
      assert original[..|chunk|] == chunk;
    }

    /** The backlog steps of one frame of the worker: down-sample and append,
        clear outside Listening, and when a chunk is planned take it from the
        front, trim the rest and restart the cadence clock. The caller hands the
        chunk to `process_audio_chunk`. */
    method OnFrame(frame: seq<real>, state: DictationState, tuning: ProfileTuning, now: int)
      returns (chunk: Option<seq<real>>)
      modifies this
      ensures var o := OnFrameOutcome(old(pending), old(lastFeedAt), Downsampled(frame, sourceSampleRateHz),
                                      state, tuning, now);
        pending == o.pending && lastFeedAt == o.lastFeedAt && chunk == o.chunk
    {
      var downsampled := DownsampleTo16k(frame, sourceSampleRateHz);
      if downsampled == [] {
        return None;
      }
      pending := pending + downsampled;
      if state != Listening {
        pending := [];
        return None;
      }
      var plan := PlanLiveCaptureChunk(state, tuning, |pending|, Elapsed(lastFeedAt, now));
      if plan.None? {
        return None;
      }
      var taken := TakeFront(plan.value.nextChunkSize);
      TrimPendingBacklog(plan.value.maxChunkSamples);
      lastFeedAt := now;
      return Some(taken);
    }
  }

  // ---------------------------------------------------------------------------
  // The store shared by the commands: the pipeline and the last transcript.
  // ---------------------------------------------------------------------------

  class TranscriptStore {
    const pipeline: DictationPipeline
    var lastTranscript: Option<string>

    constructor(pipeline: DictationPipeline)
      ensures this.pipeline == pipeline && lastTranscript == None
    {
      this.pipeline := pipeline;
      lastTranscript := None;
    }

    /** `select_fresh_transcript` on the stored last transcript: only an emitted
        transcript replaces it. */
    method SelectFreshTranscript(raw: Option<string>) returns (emitted: Option<string>)
      modifies this
      ensures emitted == FreshTranscript(old(lastTranscript), raw)
      ensures lastTranscript == if emitted.Some? then emitted else old(lastTranscript)
    {
      if raw.None? {
        return None;
      }
      var normalized := NormalizeTranscript(raw.value);
      if normalized == [] || IsDuplicateTranscript(lastTranscript, normalized) {
        return None;
      }
      lastTranscript := Some(normalized);
      return Some(normalized);
    }

    /** `phase1_set_mode`: the pipeline switches mode and goes idle, and the
        duplicate filter forgets the last transcript. */
    method SetMode(mode: DictationMode) returns (status: PipelineStatus)
      modifies this, pipeline
      ensures pipeline.Status() == AfterSetMode(old(pipeline.Status()), mode) && status == pipeline.Status()
      ensures lastTranscript == None
      ensures pipeline.requests == old(pipeline.requests)
    {
      pipeline.SetMode(mode);
      lastTranscript := None;
      status := pipeline.Status();
    }

    /** `phase1_cancel`: the pipeline goes idle and the last transcript is
        forgotten. */
    method Cancel() returns (status: PipelineStatus)
      modifies this, pipeline
      ensures pipeline.Status() == AfterCancel(old(pipeline.Status())) && status == pipeline.Status()
      ensures lastTranscript == None
      ensures pipeline.requests == old(pipeline.requests)
    {
      pipeline.Cancel();
      lastTranscript := None;
      status := pipeline.Status();
    }
  }

  // ---------------------------------------------------------------------------
  // Microphone gain and meter cadence.
  // ---------------------------------------------------------------------------

  /** `mic_sensitivity_gain`: the percentage is clamped to [50, 300] and read as
      a factor. */
  function MicSensitivityGain(percent: u16): real {
    RealClamp((Clamp(percent, 50, 300) as real) / 100.0, 0.5, 3.0)
  }

  /** The gain is the clamped percentage over 100, always in [0.5, 3.0]; the
      outer clamp never changes it. */
  lemma MicGainIsClampedPercent(percent: u16)
    ensures MicSensitivityGain(percent) == (Clamp(percent, 50, 300) as real) / 100.0
    ensures 0.5 <= MicSensitivityGain(percent) <= 3.0
    ensures 50 <= percent <= 300 ==> MicSensitivityGain(percent) == (percent as real) / 100.0
  {
  }

  lemma MicGainExamples()
    ensures MicSensitivityGain(50) == 0.5 && MicSensitivityGain(140) == 1.4 && MicSensitivityGain(400) == 3.0
  {
    MicGainIsClampedPercent(50);
    MicGainIsClampedPercent(140);
    MicGainIsClampedPercent(400);
  }

  /** `f32::EPSILON`, 2^-23. */
  const F32_EPSILON: real := 1.0 / 8388608.0

  /** A gain this close to 1 leaves the samples untouched. */
  predicate IsUnityGain(gain: real) {
    Abs(gain - 1.0) < F32_EPSILON
  }

  /** One sample scaled by the gain and clipped to [-1, 1]. */
  function Gained(sample: real, gain: real): real {
    RealClamp(sample * gain, -1.0, 1.0)
  }

  /** What `apply_mic_gain` leaves in the buffer. */
  function GainApplied(samples: seq<real>, gain: real): seq<real>
  {
    if IsUnityGain(gain) then samples
    else seq(|samples|, i requires 0 <= i < |samples| => Gained(samples[i], gain))
  }

  /** The gain keeps the length, and away from unity it leaves every sample in
      [-1, 1] and is a plain product wherever that product is in range. */
  lemma GainKeepsRange(samples: seq<real>, gain: real)
    ensures |GainApplied(samples, gain)| == |samples|
    ensures IsUnityGain(gain) ==> GainApplied(samples, gain) == samples
    ensures !IsUnityGain(gain) ==> forall i :: 0 <= i < |samples| ==>
      -1.0 <= GainApplied(samples, gain)[i] <= 1.0
      && (-1.0 <= samples[i] * gain <= 1.0 ==> GainApplied(samples, gain)[i] == samples[i] * gain)
  {
  }

  /** The source's example: doubling [0.1, -0.3, 0.9] clips the last sample. */
  lemma GainExample()
    ensures GainApplied([0.1, -0.3, 0.9], 2.0) == [0.2, -0.6, 1.0]
  {
    var r := GainApplied([0.1, -0.3, 0.9], 2.0);
    assert r[0] == 0.2 && r[1] == -0.6 && r[2] == 1.0;
  }

  /** `apply_mic_gain`, in place. */
  method ApplyMicGain(samples: array<real>, gain: real)
    modifies samples
    ensures samples[..] == GainApplied(old(samples[..]), gain)
  {
    if Abs(gain - 1.0) < F32_EPSILON {
      return;
    }
    for i := 0 to samples.Length
      invariant forall k :: 0 <= k < i ==> samples[k] == Gained(old(samples[k]), gain)
      invariant forall k :: i <= k < samples.Length ==> samples[k] == old(samples[k])
    {
      samples[i] := Gained(samples[i], gain);
    }
  }

  const METER_EMIT_INTERVAL_MS: nat := 33

  /** `should_emit_meter_update`. */
  function ShouldEmitMeterUpdate(elapsedNanos: nat): bool {
    elapsedNanos >= Millis(METER_EMIT_INTERVAL_MS)
  }

  /** The meter is emitted at most about 30 times a second: never before 33 ms,
      always from then on. */
  lemma MeterCadence(a: nat, b: nat)
    requires a <= b
    ensures ShouldEmitMeterUpdate(a) ==> ShouldEmitMeterUpdate(b)
    ensures ShouldEmitMeterUpdate(a) <==> a >= 33_000_000
  {
  }

  lemma MeterExamples()
    ensures !ShouldEmitMeterUpdate(Millis(20)) && ShouldEmitMeterUpdate(Millis(33)) && ShouldEmitMeterUpdate(Millis(45))
  {
  }
}
