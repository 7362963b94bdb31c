/** The persisted application settings and their defaults (`config.rs`). */
module Config {
  import opened Wrappers
  import opened Ints

  datatype DictationMode = PushToToggle | PushToTalk
  datatype ModelProfile = Fast | Balanced
  datatype SttEngine = WhisperCpp | FasterWhisper
  datatype WhisperBackendPreference = Auto | Cpu | Cuda
  datatype FasterWhisperComputeType = Auto | Int8 | Float16 | Float32

  datatype AppSettings = AppSettings(
    hotkey: string,
    mode: DictationMode,
    language: string,
    modelProfile: ModelProfile,
    sttEngine: SttEngine,
    modelPath: Option<string>,
    microphoneId: Option<string>,
    micSensitivityPercent: u16,
    chunkDurationMs: Option<u16>,
    partialCadenceMs: Option<u16>,
    whisperBackendPreference: WhisperBackendPreference,
    fasterWhisperModel: Option<string>,
    fasterWhisperComputeType: FasterWhisperComputeType,
    fasterWhisperBeamSize: u8,
    clipboardFallback: bool,
    launchAtStartup: bool)

  /** The values of the settings file's `default_*` functions; decoding itself is not modelled. */
  const DEFAULT_MIC_SENSITIVITY_PERCENT: u16 := 170
  const DEFAULT_STT_ENGINE: SttEngine := WhisperCpp
  const DEFAULT_WHISPER_BACKEND_PREFERENCE: WhisperBackendPreference := WhisperBackendPreference.Auto
  const DEFAULT_FASTER_WHISPER_COMPUTE_TYPE: FasterWhisperComputeType := FasterWhisperComputeType.Auto
  const DEFAULT_FASTER_WHISPER_BEAM_SIZE: u8 := 1

  /** `AppSettings::default()`. */
  function DefaultSettings(): AppSettings
  {
    AppSettings(
      hotkey := "CtrlOrCmd+Shift+U",
      mode := PushToToggle,
      language := "en",
      modelProfile := Balanced,
      sttEngine := DEFAULT_STT_ENGINE,
      modelPath := None,
      microphoneId := None,
      micSensitivityPercent := DEFAULT_MIC_SENSITIVITY_PERCENT,
      chunkDurationMs := None,
      partialCadenceMs := None,
      whisperBackendPreference := DEFAULT_WHISPER_BACKEND_PREFERENCE,
      fasterWhisperModel := None,
      fasterWhisperComputeType := DEFAULT_FASTER_WHISPER_COMPUTE_TYPE,
      fasterWhisperBeamSize := DEFAULT_FASTER_WHISPER_BEAM_SIZE,
      clipboardFallback := true,
      launchAtStartup := false)
  }

  /** The v1 plan's defaults: toggle mode on Ctrl/Cmd+Shift+U, English, the
      balanced profile on whisper.cpp, no overrides, clipboard fallback on. */
  lemma DefaultsMatchPlan()
    ensures var s := DefaultSettings();
      && s.hotkey == "CtrlOrCmd+Shift+U" && s.mode == PushToToggle && s.language == "en"
      && s.modelProfile == Balanced && s.sttEngine == WhisperCpp
      && s.modelPath.None? && s.microphoneId.None? && s.micSensitivityPercent == 170
      && s.chunkDurationMs.None? && s.partialCadenceMs.None?
      && s.whisperBackendPreference == WhisperBackendPreference.Auto
      && s.fasterWhisperModel.None? && s.fasterWhisperComputeType == FasterWhisperComputeType.Auto
      && s.fasterWhisperBeamSize == 1 && s.clipboardFallback && !s.launchAtStartup
  {
  }
}
