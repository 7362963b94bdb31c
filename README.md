# Sonora dictation core, modelled in Dafny

Sonora is a desktop dictation app. Holding or toggling a hotkey starts listening.
Microphone audio is down-sampled to 16 kHz mono and gated by an energy-based voice
detector. The audio is cut into chunks on a profile-dependent cadence and handed to a
speech engine. That engine is a `whisper.cpp` sidecar run once per chunk, or a
long-lived `faster-whisper` Python worker spoken to over JSON lines. Transcripts are
normalised into a capitalised, punctuated sentence. A transcript is dropped when it
repeats the last one, and the others are inserted into the focused application.
Settings, a crash-recovery checkpoint and an environment health report complete the
core.

This project models that core as Dafny values, functions and classes, and proves what
the code promises. It covers:

- the dictation state machine;
- the live-capture scheduler and its bounded backlog;
- audio conversion and mixing;
- the voice detector;
- transcript post-processing and duplicate detection;
- model and binary path resolution;
- the runtime engine builders and their diagnostics;
- the faster-whisper worker slot and the worker's own request loop;
- settings patches and normalisation;
- the recovery checkpoint;
- the insertion history;
- the environment report.

Every `.dfy` file is one module. Modules follow the source files:

| module (file) | models |
|---|---|
| `Pipeline` (`pipeline.dfy`) | `pipeline.rs` |
| `LiveCapture` (`live_capture.dfy`) | the sequential parts of `lib.rs` |
| `Audio` (`audio.dfy`) | `audio.rs` |
| `Vad` (`vad.dfy`) | `vad.rs` |
| `Postprocess` (`postprocess.dfy`) | `postprocess.rs` |
| `Profile` (`profile.dfy`) | `profile.rs` |
| `Config` (`config.dfy`) | `config.rs` |
| `SettingsStore` (`settings_store.dfy`) | `settings_store.rs` |
| `Recovery` (`recovery.dfy`) | `recovery.rs` |
| `Insertion` (`insertion.dfy`) | `insertion.rs` |
| `Environment` (`environment.dfy`) | `environment.rs` |
| `Transcriber` (`transcriber.dfy`) | `transcriber.rs` |
| `Worker` (`worker.dfy`) | `resources/faster-whisper/worker.py` |

The remaining modules supply what the Rust and Python standard libraries provide:

- `Wrappers`: `Option` and `Result`.
- `Ints`: fixed-width integers, `Clamp` and saturation.
- `Strings`: Rust's and Python's whitespace trims, ASCII case mapping, decimal rendering.
- `Paths`: Unix `Path` joining, file names and components, plus the shared de-duplication and first-match loops.
- `Signal`: sums, means and peaks over real samples.
- `Arith`: small facts about integer division.

Audio samples are `real`s. Integers are unbounded, with the source's widths (`u8` to
`u128`, `usize`) as subset types. Where the code saturates (`saturating_mul`,
`saturating_add`), the model saturates explicitly. Everything the code asks of the
outside world is passed in as a parameter:

- the filesystem's `exists`;
- environment variables;
- the clock;
- the GPU probe and the CPU count;
- the JSON decoder;
- the Whisper model loader and recogniser;
- the child process's spawn and pipe results;
- `sqrt`.

Where code works in place, the model is imperative:

- `DictationPipeline`, the capture backlog, the transcript store, the insertion history, the worker slot and `ModelRuntime` are classes with `modifies` clauses.
- The worker slot keeps a ghost log, `sent`, of the requests written to the worker's input, so the contracts can say what a transcription sends.
- `apply_mic_gain` works on an `array`.
- The loops of the source are proved against specification functions: down-sampling, mono mixing, the mic meter, backlog trimming, de-duplication, first match and the worker's line loop.

Where the code and its design text differ, the model follows the code:

- A failed pipe write keeps the dead faster-whisper worker in its slot.
- A `faster-whisper` runtime reports the chosen device as its compute backend even when the engine is unavailable.

## Model

| member | source | states |
|---|---|---|
| Pipeline.DictationPipeline.constructor | src-tauri/src/pipeline.rs:29-36 | a new pipeline is idle in the given mode, with the default voice detector and no engine calls yet |
| Pipeline.DictationPipeline.SetMode | src-tauri/src/pipeline.rs:45-48 | the pipeline takes the new mode and goes idle; the engine is not called |
| Pipeline.DictationPipeline.OnHotkeyDown | src-tauri/src/pipeline.rs:50-62 | a press starts listening from idle; in press-to-toggle a press while listening stops it; otherwise nothing changes |
| Pipeline.DictationPipeline.OnHotkeyUp | src-tauri/src/pipeline.rs:64-68 | a release stops listening only in push-to-talk |
| Pipeline.DictationPipeline.Cancel | src-tauri/src/pipeline.rs:70-72 | cancel always ends idle and keeps the mode |
| Pipeline.DictationPipeline.ProcessAudioChunk | src-tauri/src/pipeline.rs:74-87 | the engine is called on the chunk exactly when the pipeline is listening and the detector hears speech; the call's result and the state it leaves match the chunk outcome, and the engine-call log grows by exactly that chunk |
| Pipeline.ChunkOutcomes | src-tauri/src/pipeline.rs:74-87 | a chunk that is not heard returns no text and changes nothing; on engine success the text is returned and the pipeline keeps listening; on engine failure the error is returned and the pipeline is left in Transcribing; the mode never changes |
| Pipeline.OnlySetModeChangesMode | src-tauri/src/pipeline.rs:45-87 | over any sequence of events without a mode switch the mode is unchanged |
| Pipeline.TranscribingIsStuck | src-tauri/src/pipeline.rs:50-87 | once in Transcribing, only cancel or a mode switch leave it: hotkeys and chunks change nothing and return no text |
| Pipeline.TranscribingNeedsFailure | src-tauri/src/pipeline.rs:74-87 | Transcribing is reached only through a chunk on which the engine failed |
| Pipeline.ResetsEndIdle | src-tauri/src/pipeline.rs:45-72 | whatever came before, cancel ends idle and a mode switch ends idle in the new mode |
| Pipeline.HotkeyCycles | src-tauri/src/pipeline.rs:104-126 | press-to-toggle: a press starts, a second press stops and a release is ignored; push-to-talk: press starts and release stops |
| Pipeline.StubEngineExamples | src-tauri/src/pipeline.rs:127-149 | with the phase-1 stub engine, a silent chunk returns nothing and a speech chunk returns the stub text |
| LiveCapture.FreshCharacterisation | src-tauri/src/lib.rs:569-582 | a transcript is emitted exactly when the engine produced text that is not blank and whose normalised form does not repeat the last emitted one, and then it is that normalised form |
| LiveCapture.NormalizedIsNotBlank | src-tauri/src/lib.rs:573-575 | normalising non-blank text never gives an empty transcript |
| LiveCapture.FirstTranscriptIsFresh | src-tauri/src/lib.rs:569-582 | with nothing emitted yet, any non-blank engine text is emitted in normalised form |
| LiveCapture.FreshIsNotRepeated | src-tauri/src/lib.rs:569-582 | after a transcript is emitted, neither the same engine text nor the emitted text itself is emitted again next |
| LiveCapture.FreshBlankExamples | src-tauri/src/lib.rs:1108-1125 | blank and absent engine results are never emitted |
| LiveCapture.TranscriptStore.constructor | src-tauri/src/lib.rs:69-83 | the store starts with no last transcript |
| LiveCapture.TranscriptStore.SelectFreshTranscript | src-tauri/src/lib.rs:569-582 | the emitted transcript is the fresh one, and the last transcript is replaced exactly when something is emitted |
| LiveCapture.TranscriptStore.SetMode | src-tauri/src/lib.rs:1008-1025 | switching mode resets the pipeline and forgets the last transcript |
| LiveCapture.TranscriptStore.Cancel | src-tauri/src/lib.rs:1051-1066 | cancelling resets the pipeline to idle and forgets the last transcript |
| LiveCapture.PlanLiveCaptureChunk | src-tauri/src/lib.rs:592-617 | a chunk is planned exactly when listening, with at least the floor of pending samples and the cadence elapsed; the plan takes all pending samples up to three floors (saturating) |
| LiveCapture.MaxChunkIsThreeFloors | src-tauri/src/lib.rs:612-616 | without saturation the largest chunk is three times the floor |
| LiveCapture.PlanExamples | src-tauri/src/lib.rs:1126-1157 | not listening, too few samples or too early give no plan; otherwise the chunk is capped at three floors |
| LiveCapture.BundledProfilesUseFloors | src-tauri/src/lib.rs:601-606 | both bundled profiles are raised to the 8000-sample floor; the fast cadence is raised to 300 ms |
| LiveCapture.NewestSuffix | src-tauri/src/lib.rs:619-624 | the trimmed backlog holds the smaller of its length and the limit |
| LiveCapture.NewestSuffixIsTail | src-tauri/src/lib.rs:619-624 | trimming keeps the newest samples in order and drops only the oldest, never more than needed |
| LiveCapture.NewestSuffixIdempotent | src-tauri/src/lib.rs:619-624 | trimming twice is trimming once |
| LiveCapture.NewestSuffixOfAppend | src-tauri/src/lib.rs:619-624 | enough new samples push every old one out |
| LiveCapture.TrimExample | src-tauri/src/lib.rs:1158-1167 | 80 numbered samples against chunk size 10 keep the newest 50, from 30 to 79 |
| LiveCapture.CaptureBacklog.constructor | src-tauri/src/lib.rs:691-692 | the worker starts with an empty backlog and a last feed eight seconds ago |
| LiveCapture.CaptureBacklog.TrimPendingBacklog | src-tauri/src/lib.rs:619-624 | the pop-front loop leaves exactly the newest five maximal chunks |
| LiveCapture.CaptureBacklog.TakeFront | src-tauri/src/lib.rs:731-736 | the chunk is the oldest samples up to the planned size, and they leave the backlog |
| LiveCapture.CaptureBacklog.OnFrame | src-tauri/src/lib.rs:701-740 | one frame moves the backlog, the last feed instant and the chunk handed on exactly as the frame outcome says |
| LiveCapture.EmptyFrameChangesNothing | src-tauri/src/lib.rs:700-703 | a frame that down-samples to nothing changes nothing |
| LiveCapture.LeavingListeningClears | src-tauri/src/lib.rs:720-723 | outside Listening the backlog is cleared and nothing is fed |
| LiveCapture.FrameKeepsOrder | src-tauri/src/lib.rs:701-740 | while listening, samples are never reordered or invented: either the grown backlog is kept, or a chunk of at least the floor is taken from its front and the rest is trimmed from the old end |
| LiveCapture.EmissionSplits | src-tauri/src/lib.rs:731-738 | taking the chunk and trimming loses only a middle stretch of the backlog |
| LiveCapture.TooSoonOnlyGrows | src-tauri/src/lib.rs:725-729 | before the cadence has elapsed, a frame only grows the backlog |
| LiveCapture.MicGainIsClampedPercent | src-tauri/src/lib.rs:626-629 | the gain is the percentage clamped to 50..300, over 100, and so lies in 0.5..3.0 |
| LiveCapture.MicGainExamples | src-tauri/src/lib.rs:1168-1174 | 50 % gives 0.5, 140 % gives 1.4, 400 % gives 3.0 |
| LiveCapture.GainKeepsRange | src-tauri/src/lib.rs:631-640 | a near-unity gain changes nothing; any other gain leaves every sample in [-1, 1] and is exact where no clipping happens |
| LiveCapture.GainExample | src-tauri/src/lib.rs:1175-1184 | doubling [0.1, -0.3, 0.9] gives [0.2, -0.6, 1.0] |
| LiveCapture.ApplyMicGain | src-tauri/src/lib.rs:631-640 | the array afterwards holds the gained samples |
| LiveCapture.MeterCadence | src-tauri/src/lib.rs:645-651 | the meter is emitted exactly from 33 ms on, and a longer wait never suppresses it |
| LiveCapture.MeterExamples | src-tauri/src/lib.rs:1185-1191 | 20 ms is too soon; 33 ms and 45 ms emit |
| Audio.ValidateAudioFormat | src-tauri/src/audio.rs:13-25 | the format is accepted exactly at 16 kHz mono; a wrong rate is reported before a wrong channel count, with the expected and actual values |
| Audio.ValidateAudioFormatExamples | src-tauri/src/audio.rs:319-324 | 16 kHz mono passes; 48 kHz or stereo fails |
| Audio.I16ToReal | src-tauri/src/audio.rs:27-33 | scaling by `i16::MAX` keeps the sign and zero, maps the maximum to 1 and stays within [-1 - 1/32767, 1] |
| Audio.U16ToReal | src-tauri/src/audio.rs:296-313 | unsigned samples map onto [-1, 1], 0 to -1 and the maximum to 1 |
| Audio.PcmI16ToF32 | src-tauri/src/audio.rs:27-33 | the samples are mapped into a new sequence of the same length; every value lies in [-1 - 1/32767, 1], keeps the sign and zero of its sample, is 1 for `i16::MAX`, and the order of the samples is kept |
| Audio.PcmU16ToF32 | src-tauri/src/audio.rs:296-313 | the unsigned samples are mapped into a new sequence of the same length; every value lies in [-1, 1], 0 maps to -1 and `u16::MAX` to 1, and the order of the samples is kept |
| Audio.PcmI16Example | src-tauri/src/audio.rs:326-333 | the extremes and zero convert to negative, zero and almost one |
| Audio.BucketEnd | src-tauri/src/audio.rs:165-192 | a bucket never ends past the input |
| Audio.BucketEndMonotone | src-tauri/src/audio.rs:165-192 | buckets follow one another |
| Audio.SumBucket | src-tauri/src/audio.rs:178-186 | the inner loop sums and counts exactly the bucket's samples |
| Audio.DownsampleTo16k | src-tauri/src/audio.rs:165-192 | the loop returns the down-sampled signal |
| Audio.DownsampledByBuckets | src-tauri/src/audio.rs:165-192 | above 16 kHz the output is the bucket means, one per output sample |
| Audio.DownsampledLengthIs | src-tauri/src/audio.rs:165-192 | at 16 kHz the input is returned, below it nothing, above it floor(len / ratio) samples |
| Audio.BucketsAreNonEmpty | src-tauri/src/audio.rs:174-189 | every bucket that yields an output sample is non-empty and lies inside the input |
| Audio.DownsampleOfConstant | src-tauri/src/audio.rs:165-192 | a constant signal down-samples to the same constant |
| Audio.DownsampleExample | src-tauri/src/audio.rs:336-349 | 4800 samples at 48 kHz give 1600; a rate below the target gives none |
| Audio.Frame | src-tauri/src/audio.rs:264-275 | a frame holds exactly one sample per channel |
| Audio.InterleavedF32ToMono | src-tauri/src/audio.rs:264-275 | the loop returns the mono mix: one channel is returned as is, else the mean of every complete frame |
| Audio.InterleavedI16ToMono | src-tauri/src/audio.rs:278-293 | the mix of the scaled signed samples |
| Audio.InterleavedU16ToMono | src-tauri/src/audio.rs:296-313 | the mix of the mapped unsigned samples |
| Audio.MixedOfInterleaved | src-tauri/src/audio.rs:264-275 | mixing undoes interleaving: a signal copied onto every channel mixes back to itself |
| Audio.PartialFrameDropped | src-tauri/src/audio.rs:264-275 | a trailing partial frame is dropped |
| Audio.MixedExample | src-tauri/src/audio.rs:371-376 | the stereo example mixes to [0.4, 0.0] |
| Audio.MeasureMicLevel | src-tauri/src/audio.rs:195-229 | the loop returns the meter reading: level, peak and activity |
| Audio.SilentMicLevel | src-tauri/src/audio.rs:196-202 | an empty frame gives level 0, a 4 % decayed peak and no activity |
| Audio.MicLevelAttackRelease | src-tauri/src/audio.rs:204-228 | the level rises at once to a louder scaled RMS and falls smoothly toward a quieter one, staying in [0, 1] |
| Audio.MicPeakBounds | src-tauri/src/audio.rs:204-228 | the peak is at least the decayed previous peak and at least every sample's magnitude |
| Audio.ActivityIgnoresDecayedPeak | src-tauri/src/audio.rs:220-226 | activity looks at the frame's own peak, not the decayed one |
| Audio.SteadySignalIsActive | src-tauri/src/audio.rs:352-359 | a steady 0.2 signal from rest is active with a rising level and peak |
| Audio.SilentPeakDecays | src-tauri/src/audio.rs:362-368 | in silence the peak decays below its old value and the meter is inactive |
| Vad.HasSpeechIsRmsComparison | src-tauri/src/vad.rs:16-24 | a long enough chunk is speech exactly when its RMS reaches the threshold |
| Vad.ShortChunksAreSilent | src-tauri/src/vad.rs:16-19 | chunks shorter than the minimum are never speech |
| Vad.SilenceIsNotSpeech | src-tauri/src/vad.rs:16-24 | digital silence is never speech under a positive threshold |
| Vad.ConstantChunk | src-tauri/src/vad.rs:16-24 | a constant chunk is speech exactly when its amplitude reaches the threshold |
| Vad.DefaultConfigExamples | src-tauri/src/vad.rs:39-58 | 32 samples are too short, 1024 zeros are silence, 1024 samples of 0.12 are speech |
| Postprocess.WordsEmptyIff | src-tauri/src/postprocess.rs:1-26 | a text has no words exactly when it is blank |
| Postprocess.JoinSpacesIsCollapsed | src-tauri/src/postprocess.rs:2-6 | words joined by single spaces form a collapsed text |
| Postprocess.CollapseIsJoin | src-tauri/src/postprocess.rs:2-6 | whitespace collapsing joins the words with single spaces |
| Postprocess.WordsOfJoin | src-tauri/src/postprocess.rs:2-6 | splitting undoes joining |
| Postprocess.JoinOfWords | src-tauri/src/postprocess.rs:2-6 | joining undoes splitting on an already collapsed text |
| Postprocess.CollapseFixedPoints | src-tauri/src/postprocess.rs:2-6 | collapsing leaves a text unchanged exactly when it is already collapsed |
| Postprocess.CollapseKeepsWords | src-tauri/src/postprocess.rs:2-6 | collapsing keeps every word, in order |
| Postprocess.CollapseEmptyIff | src-tauri/src/postprocess.rs:7-9 | collapsing gives the empty text exactly for blank input |
| Postprocess.Capitalize | src-tauri/src/postprocess.rs:12-19 | the length and every character after the first are kept; the first character is no ASCII lower-case letter afterwards and has the same lower-case form as before; a first character that is not an ASCII lower-case letter is left alone |
| Postprocess.FinishSentenceEdits | src-tauri/src/postprocess.rs:12-25 | the first character is ASCII upper-cased, the rest kept, and a period is added unless the text already ends in `.`, `!` or `?` |
| Postprocess.FinishSentenceShape | src-tauri/src/postprocess.rs:12-25 | a finished sentence stays collapsed and ends in a terminal mark |
| Postprocess.NormalizeEmptyIff | src-tauri/src/postprocess.rs:1-26 | normalising gives the empty text exactly for blank input |
| Postprocess.NormalizeShape | src-tauri/src/postprocess.rs:1-26 | a non-empty normalised transcript is collapsed and ends in a terminal mark |
| Postprocess.NormalizeEdits | src-tauri/src/postprocess.rs:1-26 | normalising is collapsing, ASCII-capitalising the first character and adding a period when none ends the text |
| Postprocess.CollapseOfTwoWords | src-tauri/src/postprocess.rs:43-48 | two words in any surrounding whitespace collapse to the two words with one space |
| Postprocess.NormalizeIdempotent | src-tauri/src/postprocess.rs:1-26 | normalising twice is normalising once |
| Postprocess.FinishSentenceOfFinished | src-tauri/src/postprocess.rs:12-25 | finishing a finished sentence changes nothing |
| Postprocess.DuplicateCharacterisation | src-tauri/src/postprocess.rs:28-37 | blank text always counts as a duplicate; otherwise text is a duplicate exactly when a previous transcript exists and equals it after trimming, ignoring ASCII case |
| Postprocess.DuplicateIsReflexive | src-tauri/src/postprocess.rs:28-37 | every transcript duplicates itself |
| Postprocess.DuplicateIsSymmetric | src-tauri/src/postprocess.rs:28-37 | for non-blank texts, duplication is symmetric |
| Postprocess.DuplicateIgnoresCase | src-tauri/src/postprocess.rs:28-37 | ASCII lower-casing the current text never changes the verdict |
| Postprocess.DuplicateOfCaseVariant | src-tauri/src/postprocess.rs:54-58 | a text that differs only in the ASCII case of its first letter is a duplicate |
| Postprocess.DuplicateExamples | src-tauri/src/postprocess.rs:54-58 | "hello world." duplicates "Hello world." |
| Postprocess.DifferentTextExample | src-tauri/src/postprocess.rs:28-37 | "different" does not duplicate "Hello world." |
| Postprocess.BlankExample | src-tauri/src/postprocess.rs:29-32 | blank text with no previous transcript counts as a duplicate |
| Profile.TierIsMonotone | src-tauri/src/profile.rs:30-36 | more cores never give a lower tier |
| Profile.TierBoundaries | src-tauri/src/profile.rs:30-43 | up to 4 cores is Low, 5 to 8 Mid, more High; only Low recommends the fast profile |
| Profile.TierExamples | src-tauri/src/profile.rs:156-175 | 2 cores is Low and fast; 6 is Mid and 12 High, both balanced |
| Profile.FastTuningIsSmaller | src-tauri/src/profile.rs:45-56 | the fast profile feeds smaller chunks more often |
| Profile.DefaultModelRelativePath | src-tauri/src/profile.rs:58-63 | the default model paths are relative |
| Profile.DefaultModelFileName | src-tauri/src/profile.rs:76-80 | the file name of each default path is its bundled model file |
| Profile.ResolveModelCandidates | src-tauri/src/profile.rs:65-102 | the candidates contain no repeats and exactly the pushed paths; the explicit path, or else the profile default, comes first; the default relative path is always present |
| Profile.CandidatesKeepPushOrder | src-tauri/src/profile.rs:65-113 | the candidates keep the order in which they were first pushed |
| Profile.ResolvedModelPath | src-tauri/src/profile.rs:115-127 | the resolved path is a candidate; it exists exactly when some candidate exists; when it exists it is the first existing candidate in order; with none on disk it is the first candidate |
| Profile.ResolveModelPath | src-tauri/src/profile.rs:115-127 | the loop returns the resolved path: the first existing candidate, else the first candidate |
| Profile.BuildModelStatus | src-tauri/src/profile.rs:129-149 | the status reports the profile, the tier of the core count, every checked path and the resolved one, and whether it exists |
| Profile.ResolveExamples | src-tauri/src/profile.rs:176-206 | the fast default resolves to the bundled tiny model; an explicit path comes back as is |
| Profile.ResourceCandidateExample | src-tauri/src/profile.rs:207-219 | a resource directory adds its bundled model path |
| Config.DefaultsMatchPlan | src-tauri/src/config.rs:116-141 | the defaults: toggle mode on Ctrl/Cmd+Shift+U, English, balanced, whisper.cpp, 170 % mic, automatic backend and compute type, beam 1 |
| SettingsStore.ClampPercent | src-tauri/src/settings_store.rs:97-108 | the mic percentage ends in 50..300 and is kept when already there |
| SettingsStore.ClampBeam | src-tauri/src/settings_store.rs:97-108 | the beam size ends in 1..8 and is kept when already there |
| SettingsStore.TrimmedOrNone | src-tauri/src/settings_store.rs:97-108 | a text setting is trimmed, and blank means unset |
| SettingsStore.NormalizeRules | src-tauri/src/settings_store.rs:97-108 | normalised settings are in range, only the five normalised fields change, durations stay set or unset, and settings already in range keep their values |
| SettingsStore.NormalizeIdempotent | src-tauri/src/settings_store.rs:97-108 | with idempotent duration clamps, normalising twice is normalising once |
| SettingsStore.DefaultsAreNormalized | src-tauri/src/config.rs:89-110 | the defaults are already normal |
| SettingsStore.PatchRules | src-tauri/src/settings_store.rs:53-95 | a patch sets each given field and keeps the others; a blank hotkey is ignored; the result is normalised |
| SettingsStore.PatchDurations | src-tauri/src/settings_store.rs:53-95 | a given duration is clamped; a kept one is re-clamped; an unset one stays unset |
| SettingsStore.EmptyPatchNormalizes | src-tauri/src/settings_store.rs:53-95 | the empty patch only normalises |
| SettingsStore.PatchIdempotent | src-tauri/src/settings_store.rs:53-108 | applying the same patch twice is applying it once |
| SettingsStore.TrimmedOrNoneIdempotent | src-tauri/src/settings_store.rs:97-108 | trimming a text setting twice is trimming it once |
| SettingsStore.ClampExamples | src-tauri/src/settings_store.rs:175-204 | 255 % is kept, 2 % becomes 50 and 355 % becomes 300; a blank model and beam 90 are normalised |
| SettingsStore.DurationClampExample | src-tauri/src/settings_store.rs:206-220 | the patched durations are whatever the clamps return |
| Recovery.FirstLaunch | src-tauri/src/recovery.rs:16-57 | the first launch counts one and raises no notice |
| Recovery.StartRules | src-tauri/src/recovery.rs:49-57 | a start marks the session dirty, raises a notice exactly after a dirty session, counts the launch (saturating) and records the start time |
| Recovery.ShutdownRules | src-tauri/src/recovery.rs:59-70 | a clean shutdown clears the notice and records the time, keeping count and start |
| Recovery.AcknowledgeRules | src-tauri/src/recovery.rs:72-77 | acknowledging clears only the notice, and twice is once |
| Recovery.StartSequences | src-tauri/src/recovery.rs:49-77 | two starts in a row raise a notice even after an acknowledgement; a clean shutdown between starts raises none |
| Recovery.CheckpointExamples | src-tauri/src/recovery.rs:99-130 | the source's dirty-start and clean-shutdown cases |
| Insertion.ResolveStatus | src-tauri/src/insertion.rs:17-29 | success exactly when direct insertion worked; fallback exactly when it failed and an enabled fallback worked; failure otherwise |
| Insertion.StatusExamples | src-tauri/src/insertion.rs:40-60 | direct success wins; fallback is used when direct fails; both failing or a disabled fallback is failure |
| Insertion.Truncated | src-tauri/src/insertion.rs:31-34 | truncation keeps the first `max` records |
| Insertion.AppendRecentRules | src-tauri/src/insertion.rs:31-34 | the new record comes first, the old ones follow in order, and at most `max` are kept |
| Insertion.AppendKeepsBound | src-tauri/src/insertion.rs:31-34 | any number of appends stays within the bound, newest first |
| Insertion.AppendExample | src-tauri/src/insertion.rs:62-91 | appending "four" to three records with bound 3 gives "four", "one", "two" |
| Insertion.RecentInsertions.constructor | src-tauri/src/insertion.rs:31-34 | the history starts empty |
| Insertion.RecentInsertions.AppendRecent | src-tauri/src/insertion.rs:31-34 | the history afterwards is the old one with the record in front, truncated |
| Environment.SessionTypeFromEnv | src-tauri/src/environment.rs:27-33 | X11 and Wayland are recognised exactly by their names, ignoring ASCII case; anything else is unknown |
| Environment.SessionExamples | src-tauri/src/environment.rs:102-108 | "x11" and "X11" are X11, "wayland" Wayland, nothing unknown |
| Environment.PermissionRules | src-tauri/src/environment.rs:56-96 | injection is ready only on Linux under X11; macOS and other Linux sessions need setup; Windows and unknown systems are unknown; there is always one note |
| Environment.HealthNotes | src-tauri/src/environment.rs:35-54 | the report always has notes; a Wayland session adds exactly the Wayland note |
| Environment.LinuxExamples | src-tauri/src/environment.rs:110-122 | Linux under X11 is ready, under Wayland it needs setup |
| Transcriber.ParsePreferenceName | src-tauri/src/transcriber.rs:785-795 | every backend preference parses back from its own name |
| Transcriber.ParseCudaAliases | src-tauri/src/transcriber.rs:785-795 | "gpu" and "nvidia" also mean CUDA |
| Transcriber.ParseUpperCaseExample | src-tauri/src/transcriber.rs:1018-1038 | "NVIDIA" means CUDA |
| Transcriber.ParseIgnoresCaseAndPadding | src-tauri/src/transcriber.rs:785-795 | padding and ASCII case never change the parse |
| Transcriber.ParseExamples | src-tauri/src/transcriber.rs:1018-1038 | "", "unknown" and no value name no preference |
| Transcriber.MapPreferenceToComputeBackend | src-tauri/src/transcriber.rs:810-819 | only the CUDA preference maps to the CUDA backend |
| Transcriber.ComputeBackendPrecedence | src-tauri/src/transcriber.rs:764-783 | a parsable environment override beats the setting; an explicit preference is mapped; on auto the metadata file decides; without it the GPU probe decides |
| Transcriber.MetadataAutoMeansCpu | src-tauri/src/transcriber.rs:803-819 | metadata saying "auto" pins the CPU and "cuda" the GPU |
| Transcriber.DeviceAgreesWithBackend | src-tauri/src/transcriber.rs:651-665 | the faster-whisper device is the label of the backend resolved without metadata |
| Transcriber.ComputeTypeRules | src-tauri/src/transcriber.rs:667-683 | automatic compute type is float16 exactly on CUDA and int8 otherwise; explicit types ignore the device and stay distinct |
| Transcriber.ModelResolvability | src-tauri/src/transcriber.rs:717-751 | a blank model is never resolvable; known names always are; padding does not matter; both profile defaults are resolvable |
| Transcriber.RecommendedThreads | src-tauri/src/transcriber.rs:753-762 | fast uses 2..6 threads, balanced 4..8 |
| Transcriber.ThreadsFollowCpus | src-tauri/src/transcriber.rs:753-762 | within its band the CPU count is used, fast never exceeds balanced, and an unknown count gives 4 |
| Transcriber.CommandArgsRoundTrip | src-tauri/src/transcriber.rs:112-134 | a reader of the command line finds the model, audio file, language, thread count and output prefix after their flags, and the thread count reads back exactly |
| Transcriber.CommandArgsSwitches | src-tauri/src/transcriber.rs:112-134 | the fixed switches are always present and `-ng` appears exactly on the CPU backend |
| Transcriber.CommandArgsExamples | src-tauri/src/transcriber.rs:982-1016 | the CPU backend disables the GPU; CUDA does not |
| Transcriber.BinaryCandidates | src-tauri/src/transcriber.rs:828-888 | the binary candidates have no repeats, always include the bare binary name, and put a non-blank override first |
| Transcriber.BinaryAlwaysResolves | src-tauri/src/transcriber.rs:852-903 | a bare binary name is always usable, so resolution always finds a binary |
| Transcriber.DefaultBinariesAlwaysResolve | src-tauri/src/transcriber.rs:1086-1143 | both sidecar binaries always resolve |
| Transcriber.ResolveBinaryPath | src-tauri/src/transcriber.rs:890-903 | the loop finds the first usable whisper.cpp candidate, and one always exists |
| Transcriber.ResolveFasterWhisperBinaryPath | src-tauri/src/transcriber.rs:852-864 | the same for faster-whisper |
| Transcriber.ResolveModelCacheDir | src-tauri/src/transcriber.rs:685-715 | when some candidate directory exists, the result is the first existing one in probe order; when none exists, it is the per-user cache (or temporary) fallback |
| Transcriber.LabelsAgree | src-tauri/src/transcriber.rs:422-514 | GPU use means the label "cuda"; sidecar engines report their own engine label; the description names the variant |
| Transcriber.TranscribeDispatch | src-tauri/src/transcriber.rs:487-495 | unavailable returns its reason; the stub returns text; the whisper sidecar rejects empty audio and returns only trimmed, non-empty text |
| Transcriber.WhisperRuntimeOutcome | src-tauri/src/transcriber.rs:543-587 | a missing model makes the engine unavailable and not ready; otherwise it is the whisper sidecar with the resolved binary, the recommended threads and the model; GPU use agrees with the backend |
| Transcriber.FasterWhisperRuntimeOutcome | src-tauri/src/transcriber.rs:589-642 | an unresolvable model is unavailable; otherwise the beam is clamped to 1..8, and the compute type and device are resolved |
| Transcriber.MissingModelExample | src-tauri/src/transcriber.rs:1068-1084 | a missing model gives an unavailable transcriber saying so |
| Transcriber.InterpretResponseRules | src-tauri/src/transcriber.rs:313-327 | a response is accepted exactly when it is ok with non-blank text, which is returned trimmed; otherwise its error (or a generic one) is returned |
| Transcriber.SlotRules | src-tauri/src/transcriber.rs:273-412 | a worker is spawned only into an empty slot; a live worker is kept unless its output ends; a failed spawn leaves the slot empty; success needs a live worker and an accepted response |
| Transcriber.LiveWorkerIsReused | src-tauri/src/transcriber.rs:364-370 | requests to a live worker whose output never ends never start a new one |
| Transcriber.FasterWhisperSidecarTranscriber.constructor | src-tauri/src/transcriber.rs:239-245 | no worker until the first request |
| Transcriber.FasterWhisperSidecarTranscriber.EnsureWorker | src-tauri/src/transcriber.rs:364-412 | a live worker is reused; an empty slot is filled by a spawn or reports the spawn error |
| Transcriber.FasterWhisperSidecarTranscriber.SendRequest | src-tauri/src/transcriber.rs:273-329 | the slot and the result afterwards are the request outcome, and the request is written to the worker exactly when a worker is in the slot or was spawned |
| Transcriber.FasterWhisperSidecarTranscriber.Exchange | src-tauri/src/transcriber.rs:289-327 | with a worker in the slot: the request is written, end of output empties the slot, every other pipe failure keeps the worker, and the reply decides the result |
| Transcriber.FasterWhisperSidecarTranscriber.TranscribeImpl | src-tauri/src/transcriber.rs:247-271 | empty audio and a failed WAV write are rejected without touching the slot, the spawn count or the pipe; otherwise it is one request outcome, and the request written is op "transcribe" with the token as id, the WAV path `sonora-faster-<token>.wav` in the temporary directory, and the configured language, model, device, compute type and beam size |
| Worker.CacheRules | src-tauri/resources/faster-whisper/worker.py:17-32 | a cached key returns the cached model without loading; any other key loads and caches it; a failed load leaves the cache |
| Worker.SecondRequestIsCached | src-tauri/resources/faster-whisper/worker.py:17-32 | a second request for the same key is served from the cache; a different key loads again |
| Worker.ModelRuntime.constructor | src-tauri/resources/faster-whisper/worker.py:13-15 | a new runtime has no key and no model |
| Worker.ModelRuntime.GetModel | src-tauri/resources/faster-whisper/worker.py:17-32 | the runtime afterwards and the model returned are the cache step's |
| Worker.Field | src-tauri/resources/faster-whisper/worker.py:53-56 | an absent field takes its stripped default, or the raw default when that strips to nothing; the result is empty only for an empty default |
| Worker.FieldRules | src-tauri/resources/faster-whisper/worker.py:53-90 | a non-blank field is stripped; a blank or absent one takes the default; the result is never empty or padded |
| Worker.DefaultsOfEmptyRequest | src-tauri/resources/faster-whisper/worker.py:53-56 | an empty request uses small.en on the CPU with int8, in English |
| Worker.DefaultFieldsAreUnpadded | src-tauri/resources/faster-whisper/worker.py:53-56 | the defaults are already stripped |
| Worker.Pieces | src-tauri/resources/faster-whisper/worker.py:69-73 | every piece is stripped and non-empty, and there are none exactly when every segment is blank |
| Worker.TranscriptTextRules | src-tauri/resources/faster-whisper/worker.py:69-80 | the text is the pieces joined by spaces, and empty exactly when every segment is blank |
| Worker.JoinedPiecesAreUnpadded | src-tauri/resources/faster-whisper/worker.py:80 | the final strip changes nothing after joining stripped pieces |
| Worker.TranscriptTextExample | src-tauri/resources/faster-whisper/worker.py:71 | a segment's trailing space is stripped |
| Worker.MissingAudioPath | src-tauri/resources/faster-whisper/worker.py:40-51 | a blank audio path is answered with "missing audio_path", without loading |
| Worker.TranscribeRules | src-tauri/resources/faster-whisper/worker.py:40-83 | a transcription answers with the request's id and leaves the request's model cached; the only other answer is the missing-path failure |
| Worker.PreloadRules | src-tauri/resources/faster-whisper/worker.py:86-104 | a preload answers with the key it loaded and leaves that key cached |
| Worker.LineRules | src-tauri/resources/faster-whisper/worker.py:107-141 | exactly the non-blank lines are answered; bad JSON gets an "invalid json" failure with an empty id; other failures carry the request id |
| Worker.PreloadDispatch | src-tauri/resources/faster-whisper/worker.py:120-141 | "preload" in any case or padding runs the preload handler; its exceptions become failures |
| Worker.TranscribeDispatch | src-tauri/resources/faster-whisper/worker.py:120-141 | the same for "transcribe" |
| Worker.OpCaseExample | src-tauri/resources/faster-whisper/worker.py:120 | mixed-case operation names are lower-cased |
| Worker.NonBlankLines | src-tauri/resources/faster-whisper/worker.py:109-112 | no more lines are answered than were read |
| Worker.OneResponsePerLine | src-tauri/resources/faster-whisper/worker.py:107-141 | the loop writes exactly one response per non-blank line |
| Worker.Serve | src-tauri/resources/faster-whisper/worker.py:107-141 | the loop's responses are those of the line-by-line fold from an empty cache |
| Worker.HandleLine | src-tauri/resources/faster-whisper/worker.py:109-141 | one line updates the runtime and answers as the line step says |
| Worker.Transcribe | src-tauri/resources/faster-whisper/worker.py:40-83 | the runtime and the answer afterwards are the transcribe handler's |
| Paths.Dedupe | src-tauri/src/profile.rs:104-113 | de-duplication keeps every path once and adds none |
| Paths.DedupeKeepsFirst | src-tauri/src/transcriber.rs:921-930 | the first path survives de-duplication in front |
| Paths.DedupeOrdersByFirstOccurrence | src-tauri/src/profile.rs:104-113 | kept paths appear in the order of their first occurrence |
| Paths.DedupeOfDistinct | src-tauri/src/transcriber.rs:921-930 | a list without repeats is unchanged |
| Paths.DedupePaths | src-tauri/src/profile.rs:104-113 | the seen-set loop returns the de-duplicated list |
| Paths.FirstWhere | src-tauri/src/profile.rs:115-127 | the first element that passes, none exactly when none passes |
| Paths.FirstMatch | src-tauri/src/transcriber.rs:890-903 | the candidate loop returns the first element that passes |
| Paths.FileNameOfJoined | src-tauri/src/profile.rs:65-102 | the file name of `dir/name` is `name` |
| Paths.BareNameIsOneComponent | src-tauri/src/transcriber.rs:890-903 | a bare binary name is one path component |

## Left out

- Audio capture (cpal), device listing, input-stream building and hotkey registration: platform I/O; the capture callbacks are modelled only through the frames they deliver.
- The Tauri command layer, threads, channels, mutexes and lock poisoning: only the sequential steps are modelled. A failed lock only ends a loop or returns an error string.
- `DictationPipeline::new`, `PipelineStatus.tuning` and `set_model_profile`: `lib.rs` calls them with a model profile and reads a tuning from the status, but `pipeline.rs` has neither. The model follows `pipeline.rs`, and the chunk planner takes the tuning as a parameter.
- `build_runtime_transcriber`: `lib.rs` calls it with four arguments, while `transcriber.rs` declares five (with the backend preference). The model follows `transcriber.rs`.
- `clamp_chunk_duration_ms` and `clamp_partial_cadence_ms` are not among the files modelled. Their bodies are a parameter of the settings functions. Idempotence results assume idempotent clamps.
- Floating point: samples, gains and levels are exact reals. NaN, rounding to `f32`, the `as` casts' rounding and `sqrt` are left out; `sqrt` is a parameter of the mic meter.
- LiveCapture.ApplyMicGain: "near unity" is stated with `f32::EPSILON` on exact reals, so it does not model rounding.
- Postprocess.Capitalize: Rust's Unicode `char::to_uppercase` is modelled as ASCII upper-casing. A non-ASCII first letter ("élan") stays as it is, and a letter whose upper case is longer ("ß" to "SS") is not lengthened, so the length claim holds only for the ASCII mapping.
- Postprocess.FinishSentenceEdits: its first character is stated under the ASCII upper-casing of Postprocess.Capitalize, not Unicode `to_uppercase`.
- Postprocess.NormalizeEdits: the capitalisation it states is the ASCII one of Postprocess.Capitalize, not Unicode `to_uppercase`.
- Postprocess.DuplicateCharacterisation: the comparison key uses ASCII lower-casing where the source uses Unicode `str::to_lowercase`. Texts that differ only in non-ASCII case ("ÉCOLE" and "école") are duplicates in the source but not in the model.
- Postprocess.DuplicateIgnoresCase: proved for ASCII lower-casing only; invariance under Unicode lower-casing is not captured.
- Postprocess.DuplicateOfCaseVariant: covers ASCII case variants of the first letter only.
- LiveCapture.FreshCharacterisation: it inherits the ASCII duplicate check, so a repeat that differs only in non-ASCII case counts as fresh in the model while the application suppresses it.
- Worker.OpCaseExample: Python's `str.lower()` is modelled as ASCII lower-casing, so non-ASCII case mapping is not captured. Python's `strip()` uses its own whitespace set.
- JSON encoding and decoding: decoding is an injected function, and a non-object line is not modelled.
- Writing the settings, recovery and log files, and `runtime_log.rs`: persistence I/O. Loading with defaults is the `DefaultSettings` and `DefaultCheckpoint` values plus normalisation.
- WAV writing, temporary-file names and clean-up, and process spawning and piping are inputs to the model. The clean-up of the batch sidecar is left out; its code returns early and leaves the files behind when the spawn or the read fails. Windows process-creation flags and priorities are left out.
- Paths use Unix semantics, with the Unix binary names; Windows `.exe` names and drive paths are not modelled.
- The metadata file path next to a binary: the metadata backend is an input.
- Timing fields (`inference_ms`, `load_ms`, durations of chunks) and the clock: times are integers passed in.
- LiveCapture.CaptureBacklog.OnFrame: one instant `now` stands for both of the source's clock reads, the one that measures the time since the last feed (lib.rs:726) and the one stored as the new last-feed instant (lib.rs:740). The time that passes between the two reads is not modelled.
- Decoding a settings file in which fields are missing (serde's `default_*` functions) is not modelled. The model has only the constants those functions return and the `DefaultSettings` value.
- Transcriber.ModelLabel: the `Transcriber` trait's default `model_label` ("unknown") is not modelled, only the runtime transcriber's own one.
- Transcriber.FasterWhisperSidecarTranscriber: the runtime transcriber's faster-whisper variant carries only its configuration. The worker slot is this separate class, and the worker process is abstracted as a spawn outcome and a pipe outcome.
- A transcriber used by the pipeline is a pure engine function, so stateful engines are modelled only through the worker-slot class.
- Transcriber.FasterWhisperSidecarTranscriber.TranscribeImpl: the "worker was not initialized" branch after a successful spawn cannot happen and is not modelled.
- Serialisation failures of requests are not modelled.
