/** Hardware tiers, model profiles and where the model file is looked for
    (`profile.rs`). */
module Profile {
  import opened Wrappers
  import opened Ints
  import opened Config
  import opened Paths

  datatype HardwareTier = Low | Mid | High

  /** How often and how much audio the live scheduler hands to the engine. */
  datatype ProfileTuning = ProfileTuning(minChunkSamples: usize, partialCadenceMs: u64)

  datatype ModelStatus = ModelStatus(
    profile: ModelProfile,
    hardwareTier: HardwareTier,
    modelPath: string,
    modelExists: bool,
    checkedPaths: seq<string>,
    tuning: ProfileTuning)

  function DetectHardwareTier(logicalCores: nat): HardwareTier {
    if logicalCores <= 4 then Low
    else if logicalCores <= 8 then Mid
    else High
  }

  function TierRank(t: HardwareTier): nat {
    match t
    case Low => 0
    case Mid => 1
    case High => 2
  }

  function RecommendedProfileForTier(tier: HardwareTier): ModelProfile {
    match tier
    case Low => Fast
    case Mid | High => Balanced
  }

  /** More cores never give a lower tier. */
  lemma TierIsMonotone(a: nat, b: nat)
    requires a <= b
    ensures TierRank(DetectHardwareTier(a)) <= TierRank(DetectHardwareTier(b))
  {
  }

  /** The tier boundaries: up to 4 cores is Low, 5 to 8 is Mid, more is High; and
      the fast profile is recommended exactly on machines with at most 4 cores. */
  lemma TierBoundaries(cores: nat)
    ensures DetectHardwareTier(cores) == Low <==> cores <= 4
    ensures DetectHardwareTier(cores) == Mid <==> 5 <= cores <= 8
    ensures DetectHardwareTier(cores) == High <==> cores > 8
    ensures RecommendedProfileForTier(DetectHardwareTier(cores)) == Fast <==> cores <= 4
  {
  }

  lemma TierExamples()
    ensures DetectHardwareTier(2) == Low && RecommendedProfileForTier(Low) == Fast
    ensures DetectHardwareTier(6) == Mid && DetectHardwareTier(12) == High
    ensures RecommendedProfileForTier(Mid) == Balanced && RecommendedProfileForTier(High) == Balanced
  {
  }

  function TuningForProfile(profile: ModelProfile): ProfileTuning {
    match profile
    case Fast => ProfileTuning(1024, 250)
    case Balanced => ProfileTuning(2048, 400)
  }

  /** The fast profile feeds the engine smaller chunks, more often. */
  lemma FastTuningIsSmaller()
    ensures TuningForProfile(Fast).minChunkSamples < TuningForProfile(Balanced).minChunkSamples
    ensures TuningForProfile(Fast).partialCadenceMs < TuningForProfile(Balanced).partialCadenceMs
  {
  }

  function DefaultModelRelativePath(profile: ModelProfile): (p: string)
    ensures !IsAbsolute(p)
  {
    match profile
    case Fast => "models/ggml-tiny.en-q8_0.bin"
    case Balanced => "models/ggml-base.en-q5_1.bin"
  }

  const DEV_RESOURCES: string := "src-tauri/resources"

  /** The file name of the default path (`unwrap_or_default` gives ""). */
  function DefaultModelFileName(profile: ModelProfile): (n: string)
    ensures n == match profile
      case Fast => "ggml-tiny.en-q8_0.bin"
      case Balanced => "ggml-base.en-q5_1.bin"
  {
    FileNameOfFastModel();
    FileNameOfBalancedModel();
    FileName(DefaultModelRelativePath(profile)).GetOr("")
  }

  /** The candidates pushed for an explicit `model_path`: the path itself, and for
      a relative path also the development resource directory and the two
      bundled resource directories. */
  function OverrideCandidates(modelPath: Option<string>, resourceDir: Option<string>): seq<string> {
    match modelPath
    case None => []
    case Some(p) =>
      [p] + if IsAbsolute(p) then [] else
        [Join(DEV_RESOURCES, p)] +
        match resourceDir
        case None => []
        case Some(res) => [Join(res, p), Join(Join(res, "resources"), p)]
  }

  /** The candidates pushed for the profile's default model. */
  function DefaultCandidates(profile: ModelProfile, resourceDir: Option<string>): seq<string> {
    var rel := DefaultModelRelativePath(profile);
    var name := DefaultModelFileName(profile);
    [rel, Join(DEV_RESOURCES, rel)] +
    match resourceDir
    case None => []
    case Some(res) =>
      [Join(res, rel), Join(Join(res, "resources"), rel), Join(Join(res, "models"), name), Join(res, name)]
  }

  /** `resolve_model_candidates`: the pushed candidates with repeats removed. */
  function ResolveModelCandidates(settings: AppSettings, resourceDir: Option<string>): (r: seq<string>)
    ensures Distinct(r)
    ensures forall x :: x in r <==>
      x in OverrideCandidates(settings.modelPath, resourceDir) + DefaultCandidates(settings.modelProfile, resourceDir)
    ensures r != [] && r[0] == settings.modelPath.GetOr(DefaultModelRelativePath(settings.modelProfile))
    ensures DefaultModelRelativePath(settings.modelProfile) in r
    ensures settings.modelPath.Some? && !IsAbsolute(settings.modelPath.value) ==>
      Join(DEV_RESOURCES, settings.modelPath.value) in r
    ensures settings.modelPath.Some? && !IsAbsolute(settings.modelPath.value) && resourceDir.Some? ==>
      Join(resourceDir.value, settings.modelPath.value) in r &&
      Join(Join(resourceDir.value, "resources"), settings.modelPath.value) in r
  {
    var raw := OverrideCandidates(settings.modelPath, resourceDir) + DefaultCandidates(settings.modelProfile, resourceDir);
    DedupeKeepsFirst(raw);
    Dedupe(raw)
  }

  /** The candidates keep the order in which they were first pushed. */
  lemma CandidatesKeepPushOrder(settings: AppSettings, resourceDir: Option<string>, i: nat, j: nat)
    requires i < j < |ResolveModelCandidates(settings, resourceDir)|
    ensures var raw := OverrideCandidates(settings.modelPath, resourceDir) + DefaultCandidates(settings.modelProfile, resourceDir);
      var r := ResolveModelCandidates(settings, resourceDir);
      FirstIndex(raw, r[i]) < FirstIndex(raw, r[j])
  {
    var raw := OverrideCandidates(settings.modelPath, resourceDir) + DefaultCandidates(settings.modelProfile, resourceDir);
    DedupeOrdersByFirstOccurrence(raw, i, j);
  }

  /** `resolve_model_path` as a value: the first candidate that exists, else the
      first candidate. */
  function ResolvedModelPath(candidates: seq<string>, onDisk: string -> bool): (p: string)
    requires candidates != []
    ensures p in candidates
    ensures onDisk(p) <==> exists k :: 0 <= k < |candidates| && onDisk(candidates[k])
    ensures !onDisk(p) ==> p == candidates[0]
    ensures onDisk(p) ==> exists k :: 0 <= k < |candidates| && candidates[k] == p && forall i :: 0 <= i < k ==> !onDisk(candidates[i])
  {
    match FirstWhere(candidates, onDisk)
    case Some(c) => c
    case None => candidates[0]
  }

  /** `resolve_model_path`: the filesystem is the `exists` oracle. */
  method ResolveModelPath(settings: AppSettings, resourceDir: Option<string>, onDisk: string -> bool) returns (path: string)
    ensures path == ResolvedModelPath(ResolveModelCandidates(settings, resourceDir), onDisk)
  {
    var candidates := ResolveModelCandidates(settings, resourceDir);
    var found := FirstMatch(candidates, onDisk);
    if found.Some? {
      return found.value;
    }
    if candidates != [] {
      return candidates[0];
    }
    return DefaultModelRelativePath(settings.modelProfile);
  }

  /** `build_model_status`. */
  method BuildModelStatus(settings: AppSettings, logicalCores: nat, resourceDir: Option<string>, onDisk: string -> bool)
    returns (status: ModelStatus)
    ensures status.profile == settings.modelProfile
    ensures status.hardwareTier == DetectHardwareTier(logicalCores)
    ensures status.checkedPaths == ResolveModelCandidates(settings, resourceDir)
    ensures status.modelPath == ResolvedModelPath(status.checkedPaths, onDisk)
    ensures status.modelExists == onDisk(status.modelPath)
    ensures status.tuning == TuningForProfile(settings.modelProfile)
  {
    var path := ResolveModelPath(settings, resourceDir, onDisk);
    status := ModelStatus(settings.modelProfile, DetectHardwareTier(logicalCores), path, onDisk(path),
      ResolveModelCandidates(settings, resourceDir), TuningForProfile(settings.modelProfile));
  }

  /** With no model file anywhere, the fast profile resolves to its bundled
      relative path, and an explicit path wins and is one of several candidates. */
  lemma ResolveExamples()
    ensures var s := DefaultSettings().(modelProfile := Fast, modelPath := None);
      ResolvedModelPath(ResolveModelCandidates(s, None), _ => false) == "models/ggml-tiny.en-q8_0.bin"
    ensures var s := DefaultSettings().(modelProfile := Balanced, modelPath := Some("C:/models/custom.bin"));
      ResolvedModelPath(ResolveModelCandidates(s, None), _ => false) == "C:/models/custom.bin"
      && |ResolveModelCandidates(s, None)| > 1
  {
    var s := DefaultSettings().(modelProfile := Balanced, modelPath := Some("C:/models/custom.bin"));
    var r := ResolveModelCandidates(s, None);
    assert DefaultModelRelativePath(Balanced) in r;
    assert r[0] != DefaultModelRelativePath(Balanced);
  }

  /** A bundled resource directory adds `<resources>/models/<file name>`. */
  lemma ResourceCandidateExample()
    ensures var s := DefaultSettings().(modelProfile := Balanced, modelPath := None);
      "/app/resources/models/ggml-base.en-q5_1.bin" in ResolveModelCandidates(s, Some("/app/resources"))
  {
    var s := DefaultSettings().(modelProfile := Balanced, modelPath := None);
    BundledModelsPath();
    var raw := DefaultCandidates(Balanced, Some("/app/resources"));
    assert raw[4] == "/app/resources/models/ggml-base.en-q5_1.bin";
    assert OverrideCandidates(s.modelPath, Some("/app/resources")) + raw == raw;
  }

  lemma BundledModelsPath()
    ensures Join(Join("/app/resources", "models"), "ggml-base.en-q5_1.bin") == "/app/resources/models/ggml-base.en-q5_1.bin"
  {
    assert Join("/app/resources", "models") == "/app/resources/models" by {
      assert !IsAbsolute("models");
      assert "/app/resources"[13] != '/';
    }
    assert !IsAbsolute("ggml-base.en-q5_1.bin");
  }
}
