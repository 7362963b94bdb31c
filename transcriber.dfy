/** Speech-engine configuration and protocol logic (`transcriber.rs`): the
    whisper.cpp command line, which compute backend and device are used, where the
    sidecar binaries are looked for, the `RuntimeTranscriber` variants and their
    labels, and the one-slot persistent faster-whisper worker. Environment
    variables, the filesystem, the GPU probe, the CPU count and the worker's pipes
    are inputs. */
module Transcriber {
  import opened Wrappers
  import opened Ints
  import opened Strings
  import opened Paths
  import opened Config

  // ---------------------------------------------------------------------------
  // Compute backends and the backend preference.
  // ---------------------------------------------------------------------------

  /** `WhisperComputeBackend::{Cpu, Cuda}`. */
  datatype WhisperComputeBackend = CpuBackend | CudaBackend

  function BackendLabel(b: WhisperComputeBackend): string {
    match b
    case CpuBackend => "cpu"
    case CudaBackend => "cuda"
  }

  /** The preference a normalised key names. */
  function PreferenceOfKey(key: string): Option<WhisperBackendPreference> {
    if key == "auto" then Some(WhisperBackendPreference.Auto)
    else if key == "cpu" then Some(WhisperBackendPreference.Cpu)
    else if key == "cuda" || key == "gpu" || key == "nvidia" then Some(WhisperBackendPreference.Cuda)
    else None
  }

  /** `parse_backend_preference`: trimmed and ASCII-lower-cased, then matched. */
  function ParseBackendPreference(value: Option<string>): Option<WhisperBackendPreference> {
    match value
    case None => None
    case Some(v) => PreferenceOfKey(AsciiLower(Trim(v)))
  }

  /** The serialised name of a preference. */
  function PreferenceName(p: WhisperBackendPreference): string {
    match p
    case Auto => "auto"
    case Cpu => "cpu"
    case Cuda => "cuda"
  }

  /** Such a string without upper-case ASCII letters is its own key. */
  lemma KeyOfLowerWord(s: string)
    requires s != [] && !IsWhitespace(s[0]) && !IsWhitespace(s[|s| - 1])
    requires forall i :: 0 <= i < |s| ==> !('A' <= s[i] <= 'Z')
    ensures ParseBackendPreference(Some(s)) == PreferenceOfKey(s)
  {
    TrimOfTrimmed(s, RustBlanks);
    assert AsciiLower(s) == s;
  }

  /** Every preference parses back from its own name. */
  lemma ParsePreferenceName(p: WhisperBackendPreference)
    ensures ParseBackendPreference(Some(PreferenceName(p))) == Some(p)
  {
    KeyOfLowerWord(PreferenceName(p));
  }

  /** "gpu" and "nvidia" are further names for CUDA. */
  lemma ParseCudaAliases()
    ensures ParseBackendPreference(Some("gpu")) == Some(WhisperBackendPreference.Cuda)
    ensures ParseBackendPreference(Some("nvidia")) == Some(WhisperBackendPreference.Cuda)
  {
    KeyOfLowerWord("gpu");
    KeyOfLowerWord("nvidia");
  }

  /** The source's example: the upper-case "NVIDIA" is CUDA too. */
  lemma ParseUpperCaseExample()
    ensures ParseBackendPreference(Some("NVIDIA")) == Some(WhisperBackendPreference.Cuda)
  {
    TrimOfTrimmed("NVIDIA", RustBlanks);
    var lower := AsciiLower("NVIDIA");
    assert lower[0] == 'n' && lower[1] == 'v' && lower[2] == 'i' && lower[3] == 'd' && lower[4] == 'i' && lower[5] == 'a';
    assert lower == "nvidia";
  }

  /** Surrounding whitespace and ASCII case never change the parse. */
  lemma ParseIgnoresCaseAndPadding(s: string)
    ensures ParseBackendPreference(Some(Trim(s))) == ParseBackendPreference(Some(s))
    ensures ParseBackendPreference(Some(AsciiLower(s))) == ParseBackendPreference(Some(s))
  {
    TrimIdempotent(s, RustBlanks);
    LowerTrimCommute(s, RustBlanks);
    AsciiLowerTwice(Trim(s));
  }

  lemma AsciiLowerTwice(s: string)
    ensures AsciiLower(AsciiLower(s)) == AsciiLower(s)
  {
    assert forall i :: 0 <= i < |s| ==> AsciiLowerChar(AsciiLowerChar(s[i])) == AsciiLowerChar(s[i]);
  }

  /** The source's examples: "" and "unknown" name no preference. */
  lemma ParseExamples()
    ensures ParseBackendPreference(Some("")) == None
    ensures ParseBackendPreference(Some("unknown")) == None
    ensures ParseBackendPreference(None) == None
  {
    assert Trim("") == "";
    KeyOfLowerWord("unknown");
  }

  /** `map_preference_to_compute_backend`: only CUDA means the CUDA backend. */
  function MapPreferenceToComputeBackend(p: WhisperBackendPreference): (b: WhisperComputeBackend)
    ensures b == CudaBackend <==> p == WhisperBackendPreference.Cuda
  {
    match p
    case Cuda => CudaBackend
    case Cpu | Auto => CpuBackend
  }

  /** `read_metadata_backend` after the file is read: the JSON `backend` field
      (absent when the file is missing or unreadable) parsed and mapped. */
  function MetadataBackend(backendField: Option<string>): Option<WhisperComputeBackend> {
    match ParseBackendPreference(backendField)
    case None => None
    case Some(p) => Some(MapPreferenceToComputeBackend(p))
  }

  /** The preference in force: a parsable environment override wins. */
  function EffectivePreference(envValue: Option<string>, preference: WhisperBackendPreference): WhisperBackendPreference {
    ParseBackendPreference(envValue).GetOr(preference)
  }

  /** `resolve_compute_backend`. */
  function ResolveComputeBackend(envValue: Option<string>, metadata: Option<WhisperComputeBackend>,
                                 hasNvidiaGpu: bool, preference: WhisperBackendPreference): WhisperComputeBackend
  {
    match EffectivePreference(envValue, preference)
    case Cpu => CpuBackend
    case Cuda => CudaBackend
    case Auto =>
      if metadata.Some? then metadata.value
      else if hasNvidiaGpu then CudaBackend
      else CpuBackend
  }

  /** The precedence: an explicit CPU or CUDA preference (from the environment,
      else from the settings) is final; under Auto the sidecar's metadata hint
      comes first, then the GPU probe, then the CPU. */
  lemma ComputeBackendPrecedence(envValue: Option<string>, metadata: Option<WhisperComputeBackend>,
                                 hasNvidiaGpu: bool, preference: WhisperBackendPreference)
    ensures var p := EffectivePreference(envValue, preference);
      var b := ResolveComputeBackend(envValue, metadata, hasNvidiaGpu, preference);
      && (ParseBackendPreference(envValue).Some? ==> p == ParseBackendPreference(envValue).value)
      && (ParseBackendPreference(envValue).None? ==> p == preference)
      && (p != WhisperBackendPreference.Auto ==> b == MapPreferenceToComputeBackend(p))
      && (p == WhisperBackendPreference.Auto && metadata.Some? ==> b == metadata.value)
      && (p == WhisperBackendPreference.Auto && metadata.None? ==> (b == CudaBackend <==> hasNvidiaGpu))
  {
  }

  /** A metadata file saying "auto" pins the CPU: it is mapped, not probed. */
  lemma MetadataAutoMeansCpu(hasNvidiaGpu: bool)
    ensures MetadataBackend(Some("auto")) == Some(CpuBackend)
    ensures MetadataBackend(Some("cuda")) == Some(CudaBackend)
    ensures ResolveComputeBackend(None, MetadataBackend(Some("auto")), hasNvidiaGpu, WhisperBackendPreference.Auto) == CpuBackend
  {
    ParsePreferenceName(WhisperBackendPreference.Auto);
    ParsePreferenceName(WhisperBackendPreference.Cuda);
  }

  /** `resolve_faster_whisper_device`. */
  function ResolveFasterWhisperDevice(envValue: Option<string>, preference: WhisperBackendPreference,
                                      hasNvidiaGpu: bool): string
  {
    match EffectivePreference(envValue, preference)
    case Cpu => "cpu"
    case Cuda => "cuda"
    case Auto => if hasNvidiaGpu then "cuda" else "cpu"
  }

  /** The faster-whisper device is the label of the whisper.cpp backend that the
      same inputs choose when there is no metadata hint. */
  lemma DeviceAgreesWithBackend(envValue: Option<string>, preference: WhisperBackendPreference, hasNvidiaGpu: bool)
    ensures ResolveFasterWhisperDevice(envValue, preference, hasNvidiaGpu)
            == BackendLabel(ResolveComputeBackend(envValue, None, hasNvidiaGpu, preference))
  {
  }

  /** `resolve_faster_whisper_compute_type`. */
  function ResolveFasterWhisperComputeType(device: string, preference: FasterWhisperComputeType): string {
    match preference
    case Auto => if device == "cuda" then "float16" else "int8"
    case Int8 => "int8"
    case Float16 => "float16"
    case Float32 => "float32"
  }

  /** Auto picks half precision exactly on CUDA; explicit types map one to one
      and ignore the device. */
  lemma ComputeTypeRules(device: string, p: FasterWhisperComputeType, q: FasterWhisperComputeType)
    ensures ResolveFasterWhisperComputeType(device, FasterWhisperComputeType.Auto) == "float16" <==> device == "cuda"
    ensures ResolveFasterWhisperComputeType(device, FasterWhisperComputeType.Auto) == "int8" <==> device != "cuda"
    ensures p != FasterWhisperComputeType.Auto ==>
      ResolveFasterWhisperComputeType(device, p) == ResolveFasterWhisperComputeType("cpu", p)
    ensures p != FasterWhisperComputeType.Auto && q != FasterWhisperComputeType.Auto && p != q ==>
      ResolveFasterWhisperComputeType(device, p) != ResolveFasterWhisperComputeType(device, q)
  {
  }

  // ---------------------------------------------------------------------------
  // Models and threads.
  // ---------------------------------------------------------------------------

  const FASTER_WHISPER_DEFAULT_MODEL_FAST: string := "tiny.en"
  const FASTER_WHISPER_DEFAULT_MODEL_BALANCED: string := "small.en"

  function DefaultFasterWhisperModel(profile: ModelProfile): string {
    match profile
    case Fast => FASTER_WHISPER_DEFAULT_MODEL_FAST
    case Balanced => FASTER_WHISPER_DEFAULT_MODEL_BALANCED
  }

  /** The model names faster-whisper can download by itself. */
  const KNOWN_FASTER_WHISPER_MODELS: set<string> := {
    "tiny", "tiny.en", "base", "base.en", "small", "small.en", "medium", "medium.en",
    "large-v1", "large-v2", "large-v3", "distil-large-v2", "distil-large-v3", "distil-medium.en"}

  predicate StartsWith(s: string, prefix: string) {
    |prefix| <= |s| && s[..|prefix|] == prefix
  }

  /** `is_resolvable_faster_whisper_model`: a non-blank local path that exists,
      a known name, or a hub id under `Systran/` or `openai/`. */
  function IsResolvableFasterWhisperModel(model: string, onDisk: string -> bool): bool {
    var normalized := Trim(model);
    if normalized == [] then false
    else if onDisk(normalized) then true
    else normalized in KNOWN_FASTER_WHISPER_MODELS || StartsWith(normalized, "Systran/") || StartsWith(normalized, "openai/")
  }

  /** A blank model is never resolvable, a known name always is whatever is on
      disk, both profile defaults are known, and padding is ignored. */
  lemma ModelResolvability(model: string, onDisk: string -> bool, profile: ModelProfile)
    ensures AllBlank(model, RustBlanks) ==> !IsResolvableFasterWhisperModel(model, onDisk)
    ensures Trim(model) in KNOWN_FASTER_WHISPER_MODELS ==> IsResolvableFasterWhisperModel(model, onDisk)
    ensures IsResolvableFasterWhisperModel(Trim(model), onDisk) == IsResolvableFasterWhisperModel(model, onDisk)
    ensures IsResolvableFasterWhisperModel(DefaultFasterWhisperModel(profile), onDisk)
  {
    TrimEmptyIff(model, RustBlanks);
    TrimIdempotent(model, RustBlanks);
    var d := DefaultFasterWhisperModel(profile);
    TrimOfTrimmed(d, RustBlanks);
  }

  /** `recommended_threads`: the logical CPU count (4 when unknown) clamped to
      [2, 6] for the fast profile and [4, 8] for the balanced one. */
  function RecommendedThreads(profile: ModelProfile, logicalCpus: Option<nat>): (t: usize)
    ensures profile == Fast ==> 2 <= t <= 6
    ensures profile == Balanced ==> 4 <= t <= 8
  {
    var logical := logicalCpus.GetOr(4);
    match profile
    case Fast => Clamp(logical, 2, 6)
    case Balanced => Clamp(logical, 4, 8)
  }

  /** The thread count follows the CPU count inside the band, and the balanced
      profile never uses fewer threads than the fast one. */
  lemma ThreadsFollowCpus(logical: nat)
    ensures 2 <= logical <= 6 ==> RecommendedThreads(Fast, Some(logical)) == logical
    ensures 4 <= logical <= 8 ==> RecommendedThreads(Balanced, Some(logical)) == logical
    ensures RecommendedThreads(Fast, Some(logical)) <= RecommendedThreads(Balanced, Some(logical))
    ensures RecommendedThreads(Fast, None) == 4 && RecommendedThreads(Balanced, None) == 4
  {
  }

  // ---------------------------------------------------------------------------
  // The whisper.cpp command line.
  // ---------------------------------------------------------------------------

  datatype WhisperSidecarConfig = WhisperSidecarConfig(
    binaryPath: string,
    modelPath: string,
    language: string,
    threads: usize,
    computeBackend: WhisperComputeBackend)

  /** `command_args`: fixed flag/value pairs, then `-ng` on the CPU backend. */
  function CommandArgs(config: WhisperSidecarConfig, audioFile: string, outputPrefix: string): seq<string> {
    var args := ["-m", config.modelPath, "-f", audioFile, "-l", config.language,
                 "-t", NatToString(config.threads), "-np", "--no-timestamps", "-otxt",
                 "-of", outputPrefix];
    if config.computeBackend == CpuBackend then args + ["-ng"] else args
  }

  /** Every flag of the command line. */
  const FLAGS: set<string> := {"-m", "-f", "-l", "-t", "-np", "--no-timestamps", "-otxt", "-of", "-ng"}

  /** What a command-line reader sees after the first occurrence of `flag`. */
  function ValueAfter(args: seq<string>, flag: string): Option<string> {
    if flag !in args then None
    else
      var i := FirstIndex(args, flag);
      if i + 1 < |args| then Some(args[i + 1]) else None
  }

  /** Reading the arguments back gives the configuration: each value follows its
      flag, and the thread count reads back as a number. (The values must not
      themselves look like flags.) */
  lemma CommandArgsRoundTrip(config: WhisperSidecarConfig, audioFile: string, outputPrefix: string)
    requires config.modelPath !in FLAGS && audioFile !in FLAGS && config.language !in FLAGS && outputPrefix !in FLAGS
    ensures var args := CommandArgs(config, audioFile, outputPrefix);
      && ValueAfter(args, "-m") == Some(config.modelPath)
      && ValueAfter(args, "-f") == Some(audioFile)
      && ValueAfter(args, "-l") == Some(config.language)
      && ValueAfter(args, "-t") == Some(NatToString(config.threads))
      && ValueAfter(args, "-of") == Some(outputPrefix)
      && DigitsValue(NatToString(config.threads)) == config.threads
  {
    var args := CommandArgs(config, audioFile, outputPrefix);
    var t := NatToString(config.threads);
    assert t[0] != '-';
    assert t !in FLAGS;
    CommandArgsLayout(config, audioFile, outputPrefix);
    FlagAt(args, "-m", 0);
    FlagAt(args, "-f", 2);
    FlagAt(args, "-l", 4);
    FlagAt(args, "-t", 6);
    FlagAt(args, "-of", 11);
    NatToStringRoundTrip(config.threads);
  }

  /** Where each flag and value sits, and that no flag occurs before its own slot. */
  lemma CommandArgsLayout(config: WhisperSidecarConfig, audioFile: string, outputPrefix: string)
    requires config.modelPath !in FLAGS && audioFile !in FLAGS && config.language !in FLAGS && outputPrefix !in FLAGS
    ensures var args := CommandArgs(config, audioFile, outputPrefix);
      && |args| >= 13
      && args[0] == "-m" && args[1] == config.modelPath && args[2] == "-f" && args[3] == audioFile
      && args[4] == "-l" && args[5] == config.language && args[6] == "-t" && args[7] == NatToString(config.threads)
      && args[11] == "-of" && args[12] == outputPrefix
      && (forall i :: 0 <= i < 2 ==> args[i] != "-f")
      && (forall i :: 0 <= i < 4 ==> args[i] != "-l")
      && (forall i :: 0 <= i < 6 ==> args[i] != "-t")
      && (forall i :: 0 <= i < 11 ==> args[i] != "-of")
  {
    assert NatToString(config.threads)[0] != '-';
  }

  /** The three output switches are always present, and `-ng` (no GPU) is
      present exactly on the CPU backend. */
  lemma CommandArgsSwitches(config: WhisperSidecarConfig, audioFile: string, outputPrefix: string)
    requires config.modelPath != "-ng" && audioFile != "-ng" && config.language != "-ng" && outputPrefix != "-ng"
    ensures var args := CommandArgs(config, audioFile, outputPrefix);
      && "-np" in args && "--no-timestamps" in args && "-otxt" in args
      && ("-ng" in args <==> config.computeBackend == CpuBackend)
  {
    var args := CommandArgs(config, audioFile, outputPrefix);
    assert args[8] == "-np" && args[9] == "--no-timestamps" && args[10] == "-otxt";
    if config.computeBackend == CpuBackend {
      assert args[13] == "-ng";
    } else {
      assert NatToString(config.threads)[0] != '-';
      assert forall i :: 0 <= i < |args| ==> args[i] != "-ng";
    }
  }

  lemma FlagAt(args: seq<string>, flag: string, k: nat)
    requires k + 1 < |args| && args[k] == flag
    requires forall i :: 0 <= i < k ==> args[i] != flag
    ensures ValueAfter(args, flag) == Some(args[k + 1])
  {
    assert flag !in args[..k];
    FirstIndexUnique(args, flag, k);
  }

  /** The source's examples: the CPU backend disables the GPU, CUDA does not. */
  lemma CommandArgsExamples()
    ensures "-ng" in CommandArgs(WhisperSidecarConfig("./bin/whisper", "./models/ggml-base.en-q5_1.bin", "en", 2, CpuBackend),
                                 "./tmp/chunk.wav", "./tmp/out")
    ensures "-ng" !in CommandArgs(WhisperSidecarConfig("./bin/whisper", "./models/ggml-base.en-q5_1.bin", "en", 6, CudaBackend),
                                  "./tmp/chunk.wav", "./tmp/out")
  {
    var cuda := CommandArgs(WhisperSidecarConfig("./bin/whisper", "./models/ggml-base.en-q5_1.bin", "en", 6, CudaBackend),
                            "./tmp/chunk.wav", "./tmp/out");
    assert NatToString(6) == "6";
    assert forall i :: 0 <= i < |cuda| ==> cuda[i] != "-ng";
  }

  // ---------------------------------------------------------------------------
  // Sidecar binaries.
  // ---------------------------------------------------------------------------

  const DEFAULT_BINARY_NAME: string := "whisper-cli"
  const DEFAULT_FASTER_WHISPER_BINARY_NAME: string := "faster-whisper-worker"

  /** The candidate list shared by `resolve_binary_candidates` and
      `resolve_faster_whisper_binary_candidates`: a non-blank override from the
      environment, the development and relative resource directories, the
      bundled resource directory, and last the bare name (found on `PATH`). */
  function BinaryCandidates(envOverride: Option<string>, resourceDir: Option<string>, binaryName: string)
    : (r: seq<string>)
    ensures binaryName in r
    ensures Distinct(r)
    ensures envOverride.Some? && Trim(envOverride.value) != [] ==> r[0] == Trim(envOverride.value)
  {
    var overrides := match envOverride
      case Some(v) => if Trim(v) != [] then [Trim(v)] else []
      case None => [];
    var bundled := match resourceDir
      case Some(res) => [Join(Join(res, "bin"), binaryName), Join(Join(Join(res, "resources"), "bin"), binaryName), Join(res, binaryName)]
      case None => [];
    var raw := overrides + [Join("src-tauri/resources/bin", binaryName), Join("resources/bin", binaryName)] + bundled + [binaryName];
    assert binaryName in raw by {
      assert raw[|raw| - 1] == binaryName;
    }
    DedupeKeepsFirst(raw);
    Dedupe(raw)
  }

  function ResolveBinaryCandidates(whisperBinEnv: Option<string>, resourceDir: Option<string>): seq<string> {
    BinaryCandidates(whisperBinEnv, resourceDir, DEFAULT_BINARY_NAME)
  }

  function ResolveFasterWhisperBinaryCandidates(fasterWhisperBinEnv: Option<string>, resourceDir: Option<string>): seq<string> {
    BinaryCandidates(fasterWhisperBinEnv, resourceDir, DEFAULT_FASTER_WHISPER_BINARY_NAME)
  }

  /** The resolver's test: a bare name is taken as found (on `PATH`), anything
      else must exist. */
  function Usable(onDisk: string -> bool): string -> bool {
    c => ComponentCount(c) == 1 || onDisk(c)
  }

  /** `resolve_binary_path` / `resolve_faster_whisper_binary_path`, as a value. */
  function ResolvedBinary(candidates: seq<string>, onDisk: string -> bool): Option<string> {
    FirstWhere(candidates, Usable(onDisk))
  }

  /** The resolver never comes back empty: the bare binary name is always a
      candidate, and it is a single component. */
  lemma BinaryAlwaysResolves(envOverride: Option<string>, resourceDir: Option<string>, binaryName: string,
                             onDisk: string -> bool)
    requires binaryName != [] && binaryName != "." && '/' !in binaryName
    ensures ResolvedBinary(BinaryCandidates(envOverride, resourceDir, binaryName), onDisk).Some?
  {
    var c := BinaryCandidates(envOverride, resourceDir, binaryName);
    BareNameIsOneComponent(binaryName);
    var k :| 0 <= k < |c| && c[k] == binaryName;
    assert Usable(onDisk)(c[k]);
  }

  lemma DefaultBinariesAlwaysResolve(envOverride: Option<string>, resourceDir: Option<string>, onDisk: string -> bool)
    ensures ResolvedBinary(ResolveBinaryCandidates(envOverride, resourceDir), onDisk).Some?
    ensures ResolvedBinary(ResolveFasterWhisperBinaryCandidates(envOverride, resourceDir), onDisk).Some?
  {
    BinaryNamesAreBare();
    BinaryAlwaysResolves(envOverride, resourceDir, DEFAULT_BINARY_NAME, onDisk);
    BinaryAlwaysResolves(envOverride, resourceDir, DEFAULT_FASTER_WHISPER_BINARY_NAME, onDisk);
  }

  /** Both default binary names are bare names, found on `PATH`. */
  lemma BinaryNamesAreBare()
    ensures DEFAULT_BINARY_NAME != [] && DEFAULT_BINARY_NAME != "." && '/' !in DEFAULT_BINARY_NAME
    ensures DEFAULT_FASTER_WHISPER_BINARY_NAME != [] && DEFAULT_FASTER_WHISPER_BINARY_NAME != "."
    ensures '/' !in DEFAULT_FASTER_WHISPER_BINARY_NAME
  {
  }

  /** `resolve_binary_path`: the first usable candidate. */
  method ResolveBinaryPath(whisperBinEnv: Option<string>, resourceDir: Option<string>, onDisk: string -> bool)
    returns (found: Option<string>)
    ensures found == ResolvedBinary(ResolveBinaryCandidates(whisperBinEnv, resourceDir), onDisk)
    ensures found.Some?
  {
    DefaultBinariesAlwaysResolve(whisperBinEnv, resourceDir, onDisk);
    found := FirstMatch(ResolveBinaryCandidates(whisperBinEnv, resourceDir), Usable(onDisk));
  }

  /** `resolve_faster_whisper_binary_path`. */
  method ResolveFasterWhisperBinaryPath(fasterWhisperBinEnv: Option<string>, resourceDir: Option<string>,
                                        onDisk: string -> bool)
    returns (found: Option<string>)
    ensures found == ResolvedBinary(ResolveFasterWhisperBinaryCandidates(fasterWhisperBinEnv, resourceDir), onDisk)
    ensures found.Some?
  {
    DefaultBinariesAlwaysResolve(fasterWhisperBinEnv, resourceDir, onDisk);
    found := FirstMatch(ResolveFasterWhisperBinaryCandidates(fasterWhisperBinEnv, resourceDir), Usable(onDisk));
  }

  /** The cache directories `resolve_faster_whisper_model_cache_dir` probes, in
      order: three under the bundled resources, then the development tree. */
  function ModelCacheCandidates(resourceDir: Option<string>): seq<string>
  {
    var bundled := match resourceDir
      case Some(res) => [Join(Join(res, "models"), "faster-whisper-cache"),
                         Join(Join(Join(res, "resources"), "models"), "faster-whisper-cache"),
                         Join(res, "faster-whisper-cache")]
      case None => [];
    bundled + [Join(Join(Join("src-tauri", "resources"), "models"), "faster-whisper-cache")]
  }

  /** The per-user cache (or the temporary directory) used when no candidate exists. */
  function FallbackModelCacheDir(userCacheDir: Option<string>, tempDir: string): string
  {
    Join(Join(userCacheDir.GetOr(tempDir), "sonora-dictation"), "faster-whisper-cache")
  }

  /** `resolve_faster_whisper_model_cache_dir`: the first existing candidate,
      else the per-user fallback. */
  function ResolveModelCacheDir(resourceDir: Option<string>, onDisk: string -> bool,
                                userCacheDir: Option<string>, tempDir: string): (d: string)
    ensures var cands := ModelCacheCandidates(resourceDir);
      (exists k :: 0 <= k < |cands| && onDisk(cands[k])) ==>
        exists k :: 0 <= k < |cands| && cands[k] == d && onDisk(d) && forall i :: 0 <= i < k ==> !onDisk(cands[i])
    ensures var cands := ModelCacheCandidates(resourceDir);
      (forall k :: 0 <= k < |cands| ==> !onDisk(cands[k])) ==> d == FallbackModelCacheDir(userCacheDir, tempDir)
  {
    match FirstWhere(ModelCacheCandidates(resourceDir), onDisk)
    case Some(c) => c
    case None => FallbackModelCacheDir(userCacheDir, tempDir)
  }

  // ---------------------------------------------------------------------------
  // The runtime transcriber and its labels.
  // ---------------------------------------------------------------------------

  datatype FasterWhisperSidecarConfig = FasterWhisperSidecarConfig(
    binaryPath: string,
    model: string,
    modelCacheDir: string,
    language: string,
    device: string,
    computeType: string,
    beamSize: u8)

  datatype RuntimeTranscriber =
    | Stub
    | Unavailable(reason: string)
    | Whisper(whisper: WhisperSidecarConfig)
    | FasterWhisper(faster: FasterWhisperSidecarConfig)

  const STUB_TRANSCRIPT: string := "phase-1 transcript"

  function Description(t: RuntimeTranscriber): string {
    match t
    case Stub => "stub"
    case Unavailable(reason) => "unavailable: " + reason
    case Whisper(c) => "whisper sidecar (" + c.binaryPath + ", backend " + BackendLabel(c.computeBackend) + ")"
    case FasterWhisper(c) => "faster-whisper sidecar (" + c.binaryPath + ", device " + c.device + ")"
  }

  function ComputeBackendLabel(t: RuntimeTranscriber): string {
    match t
    case Stub => "stub"
    case Unavailable(_) => "unavailable"
    case Whisper(c) => BackendLabel(c.computeBackend)
    case FasterWhisper(c) => c.device
  }

  function UsesGpu(t: RuntimeTranscriber): bool {
    match t
    case Whisper(c) => c.computeBackend == CudaBackend
    case FasterWhisper(c) => c.device == "cuda"
    case _ => false
  }

  function ActiveEngineLabel(t: RuntimeTranscriber): string {
    match t
    case Whisper(_) => "whisper_cpp"
    case FasterWhisper(_) => "faster_whisper"
    case _ => "unknown"
  }

  /** `Transcriber::engine_label` of the runtime transcriber. */
  function EngineLabel(t: RuntimeTranscriber): string {
    match t
    case Whisper(_) => "whisper_cpp"
    case FasterWhisper(_) => "faster_whisper"
    case Stub => "stub"
    case Unavailable(_) => "unavailable"
  }

  function ModelLabel(t: RuntimeTranscriber): string {
    match t
    case Whisper(c) => c.modelPath
    case FasterWhisper(c) => c.model
    case Stub => "stub"
    case Unavailable(_) => "unknown"
  }

  /** The labels agree with one another: the GPU is in use exactly when the
      compute label is "cuda"; the active-engine label is the engine label for
      the two sidecars and "unknown" otherwise; and every description names its
      variant. */
  lemma LabelsAgree(t: RuntimeTranscriber)
    ensures UsesGpu(t) <==> ComputeBackendLabel(t) == "cuda"
    ensures t.Whisper? || t.FasterWhisper? ==> ActiveEngineLabel(t) == EngineLabel(t)
    ensures !(t.Whisper? || t.FasterWhisper?) ==> ActiveEngineLabel(t) == "unknown" && EngineLabel(t) != "unknown"
    ensures t.Unavailable? ==> StartsWith(Description(t), "unavailable: ")
    ensures t.Whisper? ==> StartsWith(Description(t), "whisper sidecar (")
    ensures t.FasterWhisper? ==> StartsWith(Description(t), "faster-whisper sidecar (")
  {
    match t
    case Stub =>
    case Unavailable(reason) =>
      assert Description(t)[..13] == "unavailable: ";
    case Whisper(c) =>
      assert Description(t)[..17] == "whisper sidecar (";
    case FasterWhisper(c) =>
      assert Description(t)[..24] == "faster-whisper sidecar (";
  }

  /** What the whisper.cpp sidecar returns once its process has run (`output` is
      the text it produced, or the error of running it): an empty chunk is
      refused before anything runs, and an empty transcript is an error. */
  function WhisperSidecarResult(samples: seq<real>, output: Result<string, string>): Result<string, string> {
    if samples == [] then Err("cannot transcribe empty audio chunk")
    else match output
      case Err(e) => Err(e)
      case Ok(raw) =>
        var normalized := Trim(raw);
        if normalized == [] then Err("whisper sidecar returned empty transcript") else Ok(normalized)
  }

  /** `Transcriber::transcribe` of the runtime transcriber. For `Whisper`,
      `sidecar` is the raw output of running whisper.cpp, which this function
      checks (empty audio refused, transcript trimmed and non-empty). For
      `FasterWhisper` it is the whole result of `transcribe_impl`, returned as it
      is: that result already carries the empty-audio refusal, which the class
      `FasterWhisperSidecarTranscriber.TranscribeImpl` models. */
  function Transcribe(t: RuntimeTranscriber, samples: seq<real>, sidecar: Result<string, string>): Result<string, string> {
    match t
    case Stub => Ok(STUB_TRANSCRIPT)
    case Unavailable(reason) => Err(reason)
    case Whisper(_) => WhisperSidecarResult(samples, sidecar)
    case FasterWhisper(_) => sidecar
  }

  /** An unavailable transcriber always fails with its reason, the stub always
      succeeds with non-empty text, and a whisper.cpp transcript is never empty
      and never padded. */
  lemma TranscribeDispatch(t: RuntimeTranscriber, samples: seq<real>, sidecar: Result<string, string>)
    ensures t.Unavailable? ==> Transcribe(t, samples, sidecar) == Err(t.reason)
    ensures t.Stub? ==> Transcribe(t, samples, sidecar).Ok? && Transcribe(t, samples, sidecar).value != []
    ensures t.Whisper? && Transcribe(t, samples, sidecar).Ok? ==>
      var text := Transcribe(t, samples, sidecar).value;
      text != [] && Trim(text) == text && samples != []
    ensures t.Whisper? && samples == [] ==> Transcribe(t, samples, sidecar) == Err("cannot transcribe empty audio chunk")
  {
    if t.Whisper? && samples != [] && sidecar.Ok? {
      TrimIdempotent(sidecar.value, RustBlanks);
    }
  }

  // ---------------------------------------------------------------------------
  // Building the runtime engine.
  // ---------------------------------------------------------------------------

  datatype EngineSpec = EngineSpec(
    engine: SttEngine,
    language: string,
    modelProfile: ModelProfile,
    modelPath: string,
    whisperBackendPreference: WhisperBackendPreference,
    fasterWhisperComputeType: FasterWhisperComputeType,
    fasterWhisperBeamSize: u8,
    resourceDir: Option<string>)

  /** What the host answers when asked: environment variables, files, the GPU
      probe, the CPU count, a sidecar's metadata `backend` field, and the
      per-user cache and temporary directories. */
  datatype Host = Host(
    backendEnv: Option<string>,
    whisperBinEnv: Option<string>,
    fasterWhisperBinEnv: Option<string>,
    onDisk: string -> bool,
    hasNvidiaGpu: bool,
    logicalCpus: Option<nat>,
    metadataBackendField: string -> Option<string>,
    userCacheDir: Option<string>,
    tempDir: string)

  datatype RuntimeEngineDiagnostics = RuntimeEngineDiagnostics(
    ready: bool,
    activeEngine: string,
    description: string,
    computeBackend: string,
    usingGpu: bool,
    resolvedBinaryPath: Option<string>,
    checkedBinaryPaths: seq<string>,
    resolvedModelPath: string,
    modelExists: bool)

  datatype RuntimeEngine = RuntimeEngine(transcriber: RuntimeTranscriber, diagnostics: RuntimeEngineDiagnostics)

  function BuildWhisperRuntime(spec: EngineSpec, host: Host): RuntimeEngine {
    var modelExists := host.onDisk(spec.modelPath);
    var checked := ResolveBinaryCandidates(host.whisperBinEnv, spec.resourceDir);
    var binary := ResolvedBinary(checked, host.onDisk);
    var transcriber :=
      if !modelExists then Unavailable("model file not found: " + spec.modelPath)
      else if binary.Some? then
        Whisper(WhisperSidecarConfig(
          binary.value, spec.modelPath, spec.language, RecommendedThreads(spec.modelProfile, host.logicalCpus),
          ResolveComputeBackend(host.backendEnv, MetadataBackend(host.metadataBackendField(binary.value)),
                                host.hasNvidiaGpu, spec.whisperBackendPreference)))
      else Unavailable("whisper sidecar binary not found");
    RuntimeEngine(transcriber, RuntimeEngineDiagnostics(
      transcriber.Whisper?, "whisper_cpp", Description(transcriber), ComputeBackendLabel(transcriber),
      UsesGpu(transcriber), binary, checked, spec.modelPath, modelExists))
  }

  function BuildFasterWhisperRuntime(spec: EngineSpec, host: Host): RuntimeEngine {
    var resolvedModel := spec.modelPath;
    var checked := ResolveFasterWhisperBinaryCandidates(host.fasterWhisperBinEnv, spec.resourceDir);
    var binary := ResolvedBinary(checked, host.onDisk);
    var modelExists := IsResolvableFasterWhisperModel(resolvedModel, host.onDisk);
    var device := ResolveFasterWhisperDevice(host.backendEnv, spec.whisperBackendPreference, host.hasNvidiaGpu);
    var computeType := ResolveFasterWhisperComputeType(device, spec.fasterWhisperComputeType);
    var cacheDir := ResolveModelCacheDir(spec.resourceDir, host.onDisk, host.userCacheDir, host.tempDir);
    var transcriber :=
      if !modelExists then Unavailable("faster-whisper model target not found: " + resolvedModel)
      else if binary.Some? then
        RuntimeTranscriber.FasterWhisper(FasterWhisperSidecarConfig(
          binary.value, resolvedModel, cacheDir, spec.language, device, computeType,
          Clamp(spec.fasterWhisperBeamSize, 1, 8)))
      else Unavailable("faster-whisper worker binary not found (run pnpm sidecar:setup:faster-whisper)");
    RuntimeEngine(transcriber, RuntimeEngineDiagnostics(
      transcriber.FasterWhisper?, "faster_whisper", Description(transcriber), device,
      UsesGpu(transcriber), binary, checked, resolvedModel, modelExists))
  }

  /** `build_runtime_engine`: dispatch on the configured engine. */
  function BuildRuntimeEngine(spec: EngineSpec, host: Host): RuntimeEngine {
    match spec.engine
    case WhisperCpp => BuildWhisperRuntime(spec, host)
    case FasterWhisper => BuildFasterWhisperRuntime(spec, host)
  }

  /** A missing whisper.cpp model makes the engine unavailable with a reason
      naming the path; with the model present it is always ready (the binary
      always resolves), with the recommended thread count and the backend the
      precedence rules choose. */
  lemma WhisperRuntimeOutcome(spec: EngineSpec, host: Host)
    ensures var e := BuildWhisperRuntime(spec, host);
      && e.diagnostics.activeEngine == "whisper_cpp"
      && e.diagnostics.ready == e.transcriber.Whisper?
      && (!host.onDisk(spec.modelPath) ==>
            e.transcriber == Unavailable("model file not found: " + spec.modelPath) && !e.diagnostics.ready)
      && (host.onDisk(spec.modelPath) ==>
            e.transcriber.Whisper? && e.diagnostics.resolvedBinaryPath == Some(e.transcriber.whisper.binaryPath)
            && e.transcriber.whisper.threads == RecommendedThreads(spec.modelProfile, host.logicalCpus)
            && e.transcriber.whisper.modelPath == spec.modelPath)
      && e.diagnostics.usingGpu == (e.diagnostics.computeBackend == "cuda")
  {
    DefaultBinariesAlwaysResolve(host.whisperBinEnv, spec.resourceDir, host.onDisk);
    LabelsAgree(BuildWhisperRuntime(spec, host).transcriber);
  }

  /** An unresolvable faster-whisper model makes the engine unavailable; with a
      resolvable one it is ready, with the beam size clamped to [1, 8] and the
      compute type chosen for the resolved device. */
  lemma FasterWhisperRuntimeOutcome(spec: EngineSpec, host: Host)
    ensures var e := BuildFasterWhisperRuntime(spec, host);
      && e.diagnostics.activeEngine == "faster_whisper"
      && e.diagnostics.ready == e.transcriber.FasterWhisper?
      && (!IsResolvableFasterWhisperModel(spec.modelPath, host.onDisk) ==>
            e.transcriber == Unavailable("faster-whisper model target not found: " + spec.modelPath))
      && (IsResolvableFasterWhisperModel(spec.modelPath, host.onDisk) ==>
            && e.transcriber.FasterWhisper?
            && 1 <= e.transcriber.faster.beamSize <= 8
            && (1 <= spec.fasterWhisperBeamSize <= 8 ==> e.transcriber.faster.beamSize == spec.fasterWhisperBeamSize)
            && e.transcriber.faster.computeType
               == ResolveFasterWhisperComputeType(e.transcriber.faster.device, spec.fasterWhisperComputeType))
  {
    DefaultBinariesAlwaysResolve(host.fasterWhisperBinEnv, spec.resourceDir, host.onDisk);
  }

  /** `build_runtime_transcriber`: the whisper.cpp engine with the automatic
      faster-whisper settings. */
  function BuildRuntimeTranscriber(language: string, profile: ModelProfile, modelPath: string,
                                   preference: WhisperBackendPreference, resourceDir: Option<string>,
                                   host: Host): RuntimeTranscriber
  {
    BuildRuntimeEngine(EngineSpec(WhisperCpp, language, profile, modelPath, preference,
                                  FasterWhisperComputeType.Auto, 1, resourceDir), host).transcriber
  }

  /** The source's example: a missing model file gives an unavailable engine
      whose reason says so. */
  lemma MissingModelExample(host: Host)
    requires !host.onDisk("./missing.bin")
    ensures var t := BuildRuntimeTranscriber("en", Balanced, "./missing.bin", WhisperBackendPreference.Auto,
                                             Some("/tmp/resources"), host);
      t.Unavailable? && StartsWith(t.reason, "model file not found")
  {
    var spec := EngineSpec(WhisperCpp, "en", Balanced, "./missing.bin", WhisperBackendPreference.Auto,
                           FasterWhisperComputeType.Auto, 1, Some("/tmp/resources"));
    WhisperRuntimeOutcome(spec, host);
    var reason := "model file not found: " + "./missing.bin";
    assert reason[..20] == "model file not found";
  }

  // ---------------------------------------------------------------------------
  // The persistent faster-whisper worker.
  // ---------------------------------------------------------------------------

  /** A running worker process; `generation` tells successive spawns apart. */
  datatype WorkerHandle = WorkerHandle(generation: nat)

  /** What spawning the worker process gave. */
  datatype SpawnOutcome = Spawned | SpawnFailed(error: string) | NoStdin | NoStdout

  /** The worker's reply as decoded from JSON. */
  datatype FasterWhisperResponse = FasterWhisperResponse(ok: bool, text: Option<string>, error: Option<string>)

  /** What happened on the worker's pipes for one request. */
  datatype PipeOutcome =
    | WriteFailed(error: string)
    | FinalizeFailed(error: string)
    | FlushFailed(error: string)
    | ReadFailed(error: string)
    | EndOfStream
    | Line(response: Result<FasterWhisperResponse, string>)

  /** How a decoded reply becomes a transcript: a failure carries the worker's
      error (or a generic one), and success needs non-blank text, trimmed. */
  function InterpretResponse(response: FasterWhisperResponse): Result<string, string> {
    if !response.ok then Err(response.error.GetOr("unknown faster-whisper worker error"))
    else
      var normalized := Trim(response.text.GetOr(""));
      if normalized == [] then Err("faster-whisper worker returned empty transcript") else Ok(normalized)
  }

  /** A transcript is returned exactly for a successful reply with non-blank
      text, and it is that text without padding. */
  lemma InterpretResponseRules(response: FasterWhisperResponse)
    ensures var r := InterpretResponse(response);
      && (r.Ok? <==> response.ok && !AllBlank(response.text.GetOr(""), RustBlanks))
      && (r.Ok? ==> r.value == Trim(response.text.value) && r.value != [] && Trim(r.value) == r.value)
      && (!response.ok && response.error.Some? ==> r == Err(response.error.value))
      && (!response.ok && response.error.None? ==> r == Err("unknown faster-whisper worker error"))
  {
    TrimEmptyIff(response.text.GetOr(""), RustBlanks);
    TrimIdempotent(response.text.GetOr(""), RustBlanks);
  }

  /** The slot and the result after one `send_request`. */
  datatype SendOutcome = SendOutcome(worker: Option<WorkerHandle>, generations: nat, result: Result<string, string>)

  function SpawnError(binaryPath: string, spawn: SpawnOutcome): string
    requires !spawn.Spawned?
  {
    match spawn
    case SpawnFailed(e) => "failed to launch faster-whisper worker at '" + binaryPath + "': " + e
    case NoStdin => "faster-whisper worker stdin not available"
    case NoStdout => "faster-whisper worker stdout not available"
  }

  /** `send_request` on a slot: start a worker when the slot is empty, then
      write the request and read one reply line. Only end-of-stream empties the
      slot; a failed write or read leaves the old worker in it. */
  function SendRequestOutcome(worker: Option<WorkerHandle>, generations: nat, binaryPath: string,
                              spawn: SpawnOutcome, pipe: PipeOutcome): SendOutcome
  {
    if worker.None? && !spawn.Spawned? then SendOutcome(None, generations, Err(SpawnError(binaryPath, spawn)))
    else
      var live := if worker.Some? then worker.value else WorkerHandle(generations);
      var gens := if worker.Some? then generations else generations + 1;
      ExchangeOutcome(live, gens, pipe)
  }

  /** Writing the request to a running worker and reading its reply line. */
  function ExchangeOutcome(live: WorkerHandle, generations: nat, pipe: PipeOutcome): SendOutcome {
    match pipe
    case EndOfStream => SendOutcome(None, generations, Err("faster-whisper worker closed stdout unexpectedly"))
    case Line(Ok(response)) => SendOutcome(Some(live), generations, InterpretResponse(response))
    case _ => SendOutcome(Some(live), generations, Err(PipeError(pipe)))
  }

  /** The message for a pipe failure that leaves the worker running. */
  function PipeError(pipe: PipeOutcome): string
    requires !pipe.EndOfStream? && !(pipe.Line? && pipe.response.Ok?)
  {
    match pipe
    case WriteFailed(e) => "failed to write faster-whisper request: " + e
    case FinalizeFailed(e) => "failed to finalize faster-whisper request: " + e
    case FlushFailed(e) => "failed to flush faster-whisper request: " + e
    case ReadFailed(e) => "failed to read faster-whisper response: " + e
    case Line(Err(e)) => "invalid faster-whisper response: " + e
  }

  /** The slot rules: a worker is spawned only into an empty slot; a live worker
      is reused; end-of-stream empties the slot and fails; a failed spawn leaves
      the slot empty and never touches the pipes; a transcript is only ever
      returned with a worker in the slot. */
  lemma SlotRules(worker: Option<WorkerHandle>, generations: nat, binaryPath: string,
                  spawn: SpawnOutcome, pipe: PipeOutcome)
    ensures var o := SendRequestOutcome(worker, generations, binaryPath, spawn, pipe);
      && (o.generations != generations ==> worker.None? && spawn.Spawned? && o.generations == generations + 1)
      && (worker.Some? && !pipe.EndOfStream? ==> o.worker == worker)
      && (pipe.EndOfStream? ==> o.worker.None? && o.result.Err?)
      && (worker.None? && !spawn.Spawned? ==> o.worker.None? && o.result == Err(SpawnError(binaryPath, spawn)))
      && (o.result.Ok? ==> o.worker.Some? && pipe.Line? && pipe.response.Ok?
                            && o.result == InterpretResponse(pipe.response.value))
  {
    SpawnSlotRules(worker, generations, binaryPath, spawn, pipe);
    PipeSlotRules(worker, generations, binaryPath, spawn, pipe);
  }

  /** Only a spawn into an empty slot starts a new worker, and a failed spawn
      leaves the slot empty. */
  lemma SpawnSlotRules(worker: Option<WorkerHandle>, generations: nat, binaryPath: string,
                       spawn: SpawnOutcome, pipe: PipeOutcome)
    ensures var o := SendRequestOutcome(worker, generations, binaryPath, spawn, pipe);
      && (o.generations != generations ==> worker.None? && spawn.Spawned? && o.generations == generations + 1)
      && (worker.None? && !spawn.Spawned? ==> o.worker.None? && o.result == Err(SpawnError(binaryPath, spawn)))
  {
  }

  /** What the pipe does to the slot: end-of-stream empties it, anything else
      keeps a live worker, and only a decoded reply can give a transcript. */
  lemma PipeSlotRules(worker: Option<WorkerHandle>, generations: nat, binaryPath: string,
                      spawn: SpawnOutcome, pipe: PipeOutcome)
    ensures var o := SendRequestOutcome(worker, generations, binaryPath, spawn, pipe);
      && (worker.Some? && !pipe.EndOfStream? ==> o.worker == worker)
      && (pipe.EndOfStream? ==> o.worker.None? && o.result.Err?)
      && (o.result.Ok? ==> o.worker.Some? && pipe.Line? && pipe.response.Ok?
                            && o.result == InterpretResponse(pipe.response.value))
  {
  }

  /** Replies delivered one after another by a live worker never start a new one. */
  lemma {:induction false} LiveWorkerIsReused(worker: WorkerHandle, generations: nat, binaryPath: string,
                                              spawns: seq<SpawnOutcome>, pipes: seq<PipeOutcome>)
    requires |spawns| == |pipes|
    requires forall i :: 0 <= i < |pipes| ==> !pipes[i].EndOfStream?
    ensures RunRequests(Some(worker), generations, binaryPath, spawns, pipes) == (Some(worker), generations)
    decreases |pipes|
  {
    if pipes != [] {
      LiveWorkerIsReused(worker, generations, binaryPath, spawns[1..], pipes[1..]);
    }
  }

  /** The slot after a series of requests. */
  function RunRequests(worker: Option<WorkerHandle>, generations: nat, binaryPath: string,
                       spawns: seq<SpawnOutcome>, pipes: seq<PipeOutcome>): (Option<WorkerHandle>, nat)
    requires |spawns| == |pipes|
    decreases |pipes|
  {
    if pipes == [] then (worker, generations)
    else
      var o := SendRequestOutcome(worker, generations, binaryPath, spawns[0], pipes[0]);
      RunRequests(o.worker, o.generations, binaryPath, spawns[1..], pipes[1..])
  }

  /** The request line sent to the worker. */
  datatype FasterWhisperRequest = FasterWhisperRequest(
    op: string, id: string, audioPath: string, language: string,
    model: string, device: string, computeType: string, beamSize: u8)

  /** The faster-whisper transcriber with its worker slot. */
  class FasterWhisperSidecarTranscriber {
    const config: FasterWhisperSidecarConfig
    var worker: Option<WorkerHandle>
    var generations: nat
    /** The requests written to a worker's input, oldest first. */
    ghost var sent: seq<FasterWhisperRequest>

    /** `FasterWhisperSidecarTranscriber::new`: no worker until the first request. */
    constructor(config: FasterWhisperSidecarConfig)
      ensures this.config == config && worker == None && generations == 0 && sent == []
    {
      this.config := config;
      worker := None;
      generations := 0;
      sent := [];
    }

    /** `ensure_faster_whisper_worker`. */
    method EnsureWorker(spawn: SpawnOutcome) returns (r: Result<(), string>)
      modifies this
      ensures old(worker).Some? ==> r == Ok(()) && worker == old(worker) && generations == old(generations)
      ensures old(worker).None? && spawn.Spawned? ==>
        r == Ok(()) && worker == Some(WorkerHandle(old(generations))) && generations == old(generations) + 1
      ensures old(worker).None? && !spawn.Spawned? ==>
        r == Err(SpawnError(config.binaryPath, spawn)) && worker == None && generations == old(generations)
      ensures sent == old(sent)
    {
      if worker.Some? {
        return Ok(());
      }
      if !spawn.Spawned? {
        return Err(SpawnError(config.binaryPath, spawn));
      }
      worker := Some(WorkerHandle(generations));
      generations := generations + 1;
      return Ok(());
    }

    /** `send_request`. */
    method SendRequest(request: FasterWhisperRequest, spawn: SpawnOutcome, pipe: PipeOutcome)
      returns (r: Result<string, string>)
      modifies this
      ensures var o := SendRequestOutcome(old(worker), old(generations), config.binaryPath, spawn, pipe);
        worker == o.worker && generations == o.generations && r == o.result
      ensures sent == old(sent) + (if old(worker).Some? || spawn.Spawned? then [request] else [])
    {
      var ensured := EnsureWorker(spawn);
      if ensured.Err? {
        return Err(ensured.error);
      }
      r := Exchange(request, pipe);
    }

    /** The write-and-read half of `send_request`, with a worker in the slot. */
    method Exchange(request: FasterWhisperRequest, pipe: PipeOutcome) returns (r: Result<string, string>)
      requires worker.Some?
      modifies this
      ensures var o := ExchangeOutcome(old(worker).value, old(generations), pipe);
        worker == o.worker && generations == o.generations && r == o.result
      ensures sent == old(sent) + [request]
    {
      sent := sent + [request];
      match pipe
      case EndOfStream =>
        worker := None;
        return Err("faster-whisper worker closed stdout unexpectedly");
      case Line(Ok(response)) =>
        return InterpretResponse(response);
      case _ =>
        return Err(PipeError(pipe));
    }

    /** `transcribe_impl`: refuse an empty chunk, write the WAV file (`wavWrite`
        is how that went), then send a transcribe request naming it. */
    method TranscribeImpl(samples: seq<real>, token: string, tempDir: string, wavWrite: Result<(), string>,
                          spawn: SpawnOutcome, pipe: PipeOutcome)
      returns (r: Result<string, string>)
      modifies this
      ensures samples == [] ==>
        r == Err("cannot transcribe empty audio chunk") && worker == old(worker)
        && generations == old(generations) && sent == old(sent)
      ensures samples != [] && wavWrite.Err? ==>
        r == Err(wavWrite.error) && worker == old(worker) && generations == old(generations) && sent == old(sent)
      ensures samples != [] && wavWrite.Ok? ==>
        var o := SendRequestOutcome(old(worker), old(generations), config.binaryPath, spawn, pipe);
        worker == o.worker && generations == o.generations && r == o.result
      ensures samples != [] && wavWrite.Ok? && (old(worker).Some? || spawn.Spawned?) ==>
        sent == old(sent) + [FasterWhisperRequest("transcribe", token, Join(tempDir, "sonora-faster-" + token + ".wav"),
                                                  config.language, config.model, config.device,
                                                  config.computeType, config.beamSize)]
      ensures samples != [] && wavWrite.Ok? && old(worker).None? && !spawn.Spawned? ==> sent == old(sent)
    {
      if samples == [] {
        return Err("cannot transcribe empty audio chunk");
      }
      var wavPath := Join(tempDir, "sonora-faster-" + token + ".wav");
      if wavWrite.Err? {
        return Err(wavWrite.error);
      }
      var request := FasterWhisperRequest("transcribe", token, wavPath, config.language, config.model,
                                          config.device, config.computeType, config.beamSize);
      r := SendRequest(request, spawn, pipe);
    }
  }
}
