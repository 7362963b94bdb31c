/** Settings updates (`settings_store.rs`): merging a partial patch into the
    current settings, and the normalisation applied to every result and to
    every loaded file. The two duration clamps live in a file that is not part
    of this model, so they are parameters. */
module SettingsStore {
  import opened Wrappers
  import opened Ints
  import opened Strings
  import opened Config

  /** `AppSettingsPatch`: `None` leaves a field alone; for the optional settings
      `Some(None)` clears them. */
  datatype AppSettingsPatch = AppSettingsPatch(
    hotkey: Option<string>,
    mode: Option<DictationMode>,
    modelProfile: Option<ModelProfile>,
    sttEngine: Option<SttEngine>,
    modelPath: Option<Option<string>>,
    microphoneId: Option<Option<string>>,
    micSensitivityPercent: Option<u16>,
    chunkDurationMs: Option<u16>,
    partialCadenceMs: Option<u16>,
    whisperBackendPreference: Option<WhisperBackendPreference>,
    fasterWhisperModel: Option<Option<string>>,
    fasterWhisperComputeType: Option<FasterWhisperComputeType>,
    fasterWhisperBeamSize: Option<u8>,
    clipboardFallback: Option<bool>,
    launchAtStartup: Option<bool>)

  function EmptyPatch(): AppSettingsPatch {
    AppSettingsPatch(None, None, None, None, None, None, None, None, None, None, None, None, None, None, None)
  }

  /** `clamp_chunk_duration_ms` and `clamp_partial_cadence_ms`. */
  datatype DurationClamps = DurationClamps(chunk: u16 -> u16, cadence: u16 -> u16)

  /** Clamps that change nothing the second time. */
  predicate IdempotentClamps(clamps: DurationClamps) {
    (forall x: u16 :: clamps.chunk(clamps.chunk(x)) == clamps.chunk(x))
    && (forall x: u16 :: clamps.cadence(clamps.cadence(x)) == clamps.cadence(x))
  }

  function ClampPercent(value: u16): (r: u16)
    ensures 50 <= r <= 300
    ensures 50 <= value <= 300 ==> r == value
  {
    Clamp(value, 50, 300)
  }

  function ClampBeam(value: u8): (r: u8)
    ensures 1 <= r <= 8
    ensures 1 <= value <= 8 ==> r == value
  {
    Clamp(value, 1, 8)
  }

  /** A text field trimmed, with blank meaning unset. */
  function TrimmedOrNone(value: Option<string>): (r: Option<string>)
    ensures r.Some? ==> r.value != [] && Trim(r.value) == r.value
    ensures r.None? <==> value.None? || AllBlank(value.value, RustBlanks)
    ensures value.Some? && r.Some? ==> r.value == Trim(value.value)
  {
    match value
    case None => None
    case Some(v) =>
      TrimEmptyIff(v, RustBlanks);
      TrimIdempotent(v, RustBlanks);
      if Trim(v) == [] then None else Some(Trim(v))
  }

  /** `normalize_settings`. */
  function NormalizeSettings(s: AppSettings, clamps: DurationClamps): AppSettings {
    var chunk := match s.chunkDurationMs
      case None => None
      case Some(v) => Some(clamps.chunk(v));
    var cadence := match s.partialCadenceMs
      case None => None
      case Some(v) => Some(clamps.cadence(v));
    s.(micSensitivityPercent := ClampPercent(s.micSensitivityPercent),
       chunkDurationMs := chunk,
       partialCadenceMs := cadence,
       fasterWhisperModel := TrimmedOrNone(s.fasterWhisperModel),
       fasterWhisperBeamSize := ClampBeam(s.fasterWhisperBeamSize))
  }

  /** The shape normalisation establishes. */
  predicate IsNormalized(s: AppSettings) {
    && 50 <= s.micSensitivityPercent <= 300
    && 1 <= s.fasterWhisperBeamSize <= 8
    && (s.fasterWhisperModel.Some? ==> s.fasterWhisperModel.value != [] && Trim(s.fasterWhisperModel.value) == s.fasterWhisperModel.value)
  }

  /** Normalisation establishes that shape, touches only the five fields it
      clamps or trims, and leaves settings already in range alone. */
  lemma NormalizeRules(s: AppSettings, clamps: DurationClamps)
    ensures var n := NormalizeSettings(s, clamps);
      && IsNormalized(n)
      && n == s.(micSensitivityPercent := n.micSensitivityPercent, chunkDurationMs := n.chunkDurationMs,
                 partialCadenceMs := n.partialCadenceMs, fasterWhisperModel := n.fasterWhisperModel,
                 fasterWhisperBeamSize := n.fasterWhisperBeamSize)
      && (n.chunkDurationMs.Some? <==> s.chunkDurationMs.Some?)
      && (n.partialCadenceMs.Some? <==> s.partialCadenceMs.Some?)
      && (IsNormalized(s) ==>
            (n.micSensitivityPercent == s.micSensitivityPercent
             && n.fasterWhisperBeamSize == s.fasterWhisperBeamSize
             && n.fasterWhisperModel == s.fasterWhisperModel))
  {
    if s.fasterWhisperModel.Some? && IsNormalized(s) {
      TrimEmptyIff(s.fasterWhisperModel.value, RustBlanks);
    }
  }

  /** Normalising twice normalises once, given clamps that are themselves
      idempotent. */
  lemma NormalizeIdempotent(s: AppSettings, clamps: DurationClamps)
    requires IdempotentClamps(clamps)
    ensures NormalizeSettings(NormalizeSettings(s, clamps), clamps) == NormalizeSettings(s, clamps)
  {
    NormalizeRules(s, clamps);
    NormalizeRules(NormalizeSettings(s, clamps), clamps);
  }

  /** The defaults are already normal, whatever the clamps. */
  lemma DefaultsAreNormalized(clamps: DurationClamps)
    ensures NormalizeSettings(DefaultSettings(), clamps) == DefaultSettings()
  {
    DefaultsMatchPlan();
  }

  /** `apply_patch`. */
  function ApplyPatch(s: AppSettings, patch: AppSettingsPatch, clamps: DurationClamps): AppSettings {
    var hotkey := match patch.hotkey
      case Some(v) => if Trim(v) != [] then Trim(v) else s.hotkey
      case None => s.hotkey;
    var mic := match patch.micSensitivityPercent
      case Some(v) => ClampPercent(v)
      case None => s.micSensitivityPercent;
    var chunk := if patch.chunkDurationMs.Some? then patch.chunkDurationMs else s.chunkDurationMs;
    var cadence := if patch.partialCadenceMs.Some? then patch.partialCadenceMs else s.partialCadenceMs;
    NormalizeSettings(AppSettings(
      hotkey := hotkey,
      mode := patch.mode.GetOr(s.mode),
      language := s.language,
      modelProfile := patch.modelProfile.GetOr(s.modelProfile),
      sttEngine := patch.sttEngine.GetOr(s.sttEngine),
      modelPath := patch.modelPath.GetOr(s.modelPath),
      microphoneId := patch.microphoneId.GetOr(s.microphoneId),
      micSensitivityPercent := mic,
      chunkDurationMs := chunk,
      partialCadenceMs := cadence,
      whisperBackendPreference := patch.whisperBackendPreference.GetOr(s.whisperBackendPreference),
      fasterWhisperModel := patch.fasterWhisperModel.GetOr(s.fasterWhisperModel),
      fasterWhisperComputeType := patch.fasterWhisperComputeType.GetOr(s.fasterWhisperComputeType),
      fasterWhisperBeamSize := patch.fasterWhisperBeamSize.GetOr(s.fasterWhisperBeamSize),
      clipboardFallback := patch.clipboardFallback.GetOr(s.clipboardFallback),
      launchAtStartup := patch.launchAtStartup.GetOr(s.launchAtStartup)), clamps)
  }

  /** Field by field: a patched field takes the patch's value (a hotkey only
      when it is not blank, trimmed), an unpatched one keeps the old value, the
      language never changes, and the result is normal. */
  lemma PatchRules(s: AppSettings, patch: AppSettingsPatch, clamps: DurationClamps)
    ensures var r := ApplyPatch(s, patch, clamps);
      && IsNormalized(r)
      && r.language == s.language
      && (patch.hotkey.Some? && !AllBlank(patch.hotkey.value, RustBlanks) ==> r.hotkey == Trim(patch.hotkey.value))
      && (patch.hotkey.None? || AllBlank(patch.hotkey.value, RustBlanks) ==> r.hotkey == s.hotkey)
      && r.mode == patch.mode.GetOr(s.mode)
      && r.modelProfile == patch.modelProfile.GetOr(s.modelProfile)
      && r.sttEngine == patch.sttEngine.GetOr(s.sttEngine)
      && r.modelPath == patch.modelPath.GetOr(s.modelPath)
      && r.microphoneId == patch.microphoneId.GetOr(s.microphoneId)
      && r.micSensitivityPercent == ClampPercent(patch.micSensitivityPercent.GetOr(s.micSensitivityPercent))
      && r.whisperBackendPreference == patch.whisperBackendPreference.GetOr(s.whisperBackendPreference)
      && r.fasterWhisperModel == TrimmedOrNone(patch.fasterWhisperModel.GetOr(s.fasterWhisperModel))
      && r.fasterWhisperComputeType == patch.fasterWhisperComputeType.GetOr(s.fasterWhisperComputeType)
      && r.fasterWhisperBeamSize == ClampBeam(patch.fasterWhisperBeamSize.GetOr(s.fasterWhisperBeamSize))
      && r.clipboardFallback == patch.clipboardFallback.GetOr(s.clipboardFallback)
      && r.launchAtStartup == patch.launchAtStartup.GetOr(s.launchAtStartup)
  {
    if patch.hotkey.Some? {
      TrimEmptyIff(patch.hotkey.value, RustBlanks);
    }
    NormalizeRules(ApplyPatch(s, patch, clamps), clamps);
  }

  /** The durations: a patched one is clamped, an unpatched one is the old value
      clamped again. */
  lemma PatchDurations(s: AppSettings, patch: AppSettingsPatch, clamps: DurationClamps)
    ensures var r := ApplyPatch(s, patch, clamps);
      && (patch.chunkDurationMs.Some? ==> r.chunkDurationMs == Some(clamps.chunk(patch.chunkDurationMs.value)))
      && (patch.chunkDurationMs.None? && s.chunkDurationMs.Some? ==> r.chunkDurationMs == Some(clamps.chunk(s.chunkDurationMs.value)))
      && (patch.chunkDurationMs.None? && s.chunkDurationMs.None? ==> r.chunkDurationMs.None?)
      && (patch.partialCadenceMs.Some? ==> r.partialCadenceMs == Some(clamps.cadence(patch.partialCadenceMs.value)))
      && (patch.partialCadenceMs.None? && s.partialCadenceMs.Some? ==> r.partialCadenceMs == Some(clamps.cadence(s.partialCadenceMs.value)))
      && (patch.partialCadenceMs.None? && s.partialCadenceMs.None? ==> r.partialCadenceMs.None?)
  {
  }

  /** The empty patch only normalises. */
  lemma EmptyPatchNormalizes(s: AppSettings, clamps: DurationClamps)
    ensures ApplyPatch(s, EmptyPatch(), clamps) == NormalizeSettings(s, clamps)
  {
  }

  /** Applying the same patch twice is applying it once. */
  lemma PatchIdempotent(s: AppSettings, patch: AppSettingsPatch, clamps: DurationClamps)
    requires IdempotentClamps(clamps)
    ensures ApplyPatch(ApplyPatch(s, patch, clamps), patch, clamps) == ApplyPatch(s, patch, clamps)
  {
    var once := ApplyPatch(s, patch, clamps);
    PatchRules(s, patch, clamps);
    PatchRules(once, patch, clamps);
    PatchKeepsTextFields(s, patch, clamps);
    PatchKeepsDurations(s, patch, clamps);
  }

  /** The second application of a patch leaves the hotkey and the model name
      as the first one set them. */
  lemma PatchKeepsTextFields(s: AppSettings, patch: AppSettingsPatch, clamps: DurationClamps)
    ensures var once := ApplyPatch(s, patch, clamps);
      var twice := ApplyPatch(once, patch, clamps);
      twice.hotkey == once.hotkey && twice.fasterWhisperModel == once.fasterWhisperModel
  {
    var once := ApplyPatch(s, patch, clamps);
    PatchRules(s, patch, clamps);
    PatchRules(once, patch, clamps);
    if patch.hotkey.Some? && !AllBlank(patch.hotkey.value, RustBlanks) {
      TrimIdempotent(patch.hotkey.value, RustBlanks);
    }
    if patch.fasterWhisperModel.None? {
      TrimmedOrNoneIdempotent(s.fasterWhisperModel);
    } else {
      TrimmedOrNoneIdempotent(patch.fasterWhisperModel.value);
    }
  }

  /** With idempotent clamps, the second application of a patch leaves the
      durations as the first one set them. */
  lemma PatchKeepsDurations(s: AppSettings, patch: AppSettingsPatch, clamps: DurationClamps)
    requires IdempotentClamps(clamps)
    ensures var once := ApplyPatch(s, patch, clamps);
      var twice := ApplyPatch(once, patch, clamps);
      twice.chunkDurationMs == once.chunkDurationMs && twice.partialCadenceMs == once.partialCadenceMs
  {
    var once := ApplyPatch(s, patch, clamps);
    PatchDurations(s, patch, clamps);
    PatchDurations(once, patch, clamps);
    if patch.chunkDurationMs.None? && s.chunkDurationMs.Some? {
      assert clamps.chunk(clamps.chunk(s.chunkDurationMs.value)) == clamps.chunk(s.chunkDurationMs.value);
    }
    if patch.partialCadenceMs.None? && s.partialCadenceMs.Some? {
      assert clamps.cadence(clamps.cadence(s.partialCadenceMs.value)) == clamps.cadence(s.partialCadenceMs.value);
    }
  }

  lemma TrimmedOrNoneIdempotent(value: Option<string>)
    ensures TrimmedOrNone(TrimmedOrNone(value)) == TrimmedOrNone(value)
  {
    if TrimmedOrNone(value).Some? {
      TrimEmptyIff(TrimmedOrNone(value).value, RustBlanks);
    }
  }

  /** The source's examples: sensitivity 255 is kept, 2 becomes 50 and 355
      becomes 300; a blank model name is unset and beam size 90 becomes 8. */
  lemma ClampExamples(clamps: DurationClamps)
    ensures ApplyPatch(DefaultSettings(), EmptyPatch().(micSensitivityPercent := Some(255)), clamps).micSensitivityPercent == 255
    ensures ApplyPatch(DefaultSettings(), EmptyPatch().(micSensitivityPercent := Some(2)), clamps).micSensitivityPercent == 50
    ensures ApplyPatch(DefaultSettings(), EmptyPatch().(micSensitivityPercent := Some(355)), clamps).micSensitivityPercent == 300
    ensures NormalizeSettings(DefaultSettings().(micSensitivityPercent := 999, fasterWhisperModel := Some("   "),
                                                 fasterWhisperBeamSize := 90), clamps)
            == DefaultSettings().(micSensitivityPercent := 300, fasterWhisperBeamSize := 8)
  {
    DefaultsMatchPlan();
    assert AllBlank("   ", RustBlanks);
  }

  /** With clamps that map 100 ms to 500 ms and 9000 ms to 2500 ms, as the
      source's tests pin them, a patch carrying those values is clamped. */
  lemma DurationClampExample(clamps: DurationClamps)
    requires clamps.chunk(100) == 500 && clamps.cadence(9000) == 2500
    ensures var r := ApplyPatch(DefaultSettings(), EmptyPatch().(chunkDurationMs := Some(100), partialCadenceMs := Some(9000)), clamps);
      r.chunkDurationMs == Some(500) && r.partialCadenceMs == Some(2500)
  {
  }
}
