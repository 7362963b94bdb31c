/** The persistent faster-whisper worker script (`worker.py`): one JSON request
    per input line, one JSON response per non-blank line, a one-slot model
    cache, and the defaulting of request fields. JSON decoding, the model's
    loading and its transcription are inputs; timing fields are left out. */
module Worker {
  import opened Wrappers
  import opened Strings
  import opened Postprocess

  /** A request as decoded; every string field is already passed through
      `str(...)`. `beamSize` is what `int(...)` made of the field: absent, a
      number, or the message of the exception it raised. */
  datatype Request = Request(
    id: Option<string>,
    op: Option<string>,
    audioPath: Option<string>,
    model: Option<string>,
    device: Option<string>,
    computeType: Option<string>,
    language: Option<string>,
    beamSize: Option<Result<int, string>>)

  /** The responses the worker writes (timing fields omitted). */
  datatype Response =
    | Failure(id: string, error: string)
    | Transcribed(id: string, text: string)
    | Preloaded(id: string, model: string, device: string, computeType: string)

  /** The identity of a loaded model. */
  datatype ModelKey = ModelKey(modelName: string, device: string, computeType: string)

  /** A loaded `WhisperModel`. */
  datatype ModelHandle = ModelHandle(key: ModelKey, serial: nat)

  /** Constructing a model: a handle, or the message of the exception raised. */
  type Loader = ModelKey -> Result<ModelHandle, string>

  /** `model.transcribe(audio_path, language, beam_size)`: the segments' texts
      (`segment.text` may be None), or the message of the exception raised. */
  type Recognizer = (ModelHandle, string, string, int) -> Result<seq<Option<string>>, string>

  /** `json.loads` of a line: the request, or the decoder's message. */
  type Decoder = string -> Result<Request, string>

  // ---------------------------------------------------------------------------
  // The model cache.
  // ---------------------------------------------------------------------------

  datatype Cache = Cache(key: Option<ModelKey>, model: Option<ModelHandle>)

  datatype CacheOutcome = CacheOutcome(cache: Cache, result: Result<ModelHandle, string>)

  /** `get_model` on a cache: reuse the model when it was loaded for the same
      key; otherwise load, and on success replace both key and model. A load
      that raises leaves the cache as it was. */
  function GetModelStep(c: Cache, k: ModelKey, load: Loader): CacheOutcome {
    if c.model.Some? && c.key == Some(k) then CacheOutcome(c, Ok(c.model.value))
    else match load(k)
      case Ok(m) => CacheOutcome(Cache(Some(k), Some(m)), Ok(m))
      case Err(e) => CacheOutcome(c, Err(e))
  }

  /** The cache is hit exactly when the key is unchanged; a hit does not call
      the loader (any loader gives the same outcome); a miss answers what the
      loader answers; and a successful miss leaves the new key cached. */
  lemma CacheRules(c: Cache, k: ModelKey, load: Loader, other: Loader)
    ensures var o := GetModelStep(c, k, load);
      && (c.model.Some? && c.key == Some(k) ==>
            o == CacheOutcome(c, Ok(c.model.value)) && o == GetModelStep(c, k, other))
      && (!(c.model.Some? && c.key == Some(k)) ==> o.result == load(k))
      && (!(c.model.Some? && c.key == Some(k)) && load(k).Ok? ==> o.cache == Cache(Some(k), Some(load(k).value)))
      && (load(k).Err? ==> o.cache == c)
  {
  }

  /** Once a model is loaded for a key, asking again for that key gives the same
      model without loading, and asking for another key loads afresh. */
  lemma SecondRequestIsCached(c: Cache, k: ModelKey, k2: ModelKey, load: Loader, other: Loader)
    requires GetModelStep(c, k, load).result.Ok?
    ensures var first := GetModelStep(c, k, load);
      var again := GetModelStep(first.cache, k, other);
      again == CacheOutcome(first.cache, first.result)
    ensures var first := GetModelStep(c, k, load);
      k2 != k ==> GetModelStep(first.cache, k2, other).result == other(k2)
  {
  }

  /** `ModelRuntime`. */
  class ModelRuntime {
    var key: Option<ModelKey>
    var model: Option<ModelHandle>

    function State(): Cache
      reads this
    {
      Cache(key, model)
    }

    constructor()
      ensures key == None && model == None
    {
      key := None;
      model := None;
    }

    /** `get_model`. */
    method GetModel(modelName: string, device: string, computeType: string, load: Loader)
      returns (r: Result<ModelHandle, string>)
      modifies this
      ensures var o := GetModelStep(old(State()), ModelKey(modelName, device, computeType), load);
        State() == o.cache && r == o.result
    {
      var k := ModelKey(modelName, device, computeType);
      if model.Some? && key == Some(k) {
        return Ok(model.value);
      }
      var loaded := load(k);
      if loaded.Err? {
        return Err(loaded.error);
      }
      model := Some(loaded.value);
      key := Some(k);
      return Ok(loaded.value);
    }
  }

  // ---------------------------------------------------------------------------
  // Request fields.
  // ---------------------------------------------------------------------------

  /** `str(request.get(name, default)).strip() or default`. */
  function Field(value: Option<string>, default: string): (r: string)
    ensures value.None? ==> r == (if PyStrip(default) == [] then default else PyStrip(default))
    ensures r == [] ==> default == []
  {
    var s := PyStrip(value.GetOr(default));
    if s == [] then default else s
  }

  /** A present, non-blank field is used stripped; a missing or blank one takes
      the default. So a field with a non-blank, unpadded default is never blank
      and never padded. */
  lemma FieldRules(value: Option<string>, default: string)
    requires default != [] && PyStrip(default) == default
    ensures value.Some? && !AllBlank(value.value, PythonBlanks) ==> Field(value, default) == PyStrip(value.value)
    ensures value.None? || AllBlank(value.value, PythonBlanks) ==> Field(value, default) == default
    ensures Field(value, default) != [] && PyStrip(Field(value, default)) == Field(value, default)
  {
    TrimEmptyIff(value.GetOr(default), PythonBlanks);
    TrimIdempotent(value.GetOr(default), PythonBlanks);
  }

  const DEFAULT_MODEL: string := "small.en"
  const DEFAULT_DEVICE: string := "cpu"
  const DEFAULT_COMPUTE_TYPE: string := "int8"
  const DEFAULT_LANGUAGE: string := "en"
  const DEFAULT_BEAM_SIZE: int := 1

  function IdOf(request: Request): string {
    request.id.GetOr("")
  }

  function KeyOf(request: Request): ModelKey {
    ModelKey(Field(request.model, DEFAULT_MODEL), Field(request.device, DEFAULT_DEVICE),
             Field(request.computeType, DEFAULT_COMPUTE_TYPE))
  }

  /** The defaults: with nothing given, a request asks for `small.en` on the CPU
      in int8, in English, with beam size 1. */
  lemma DefaultsOfEmptyRequest(id: Option<string>, op: Option<string>, audioPath: Option<string>)
    ensures var r := Request(id, op, audioPath, None, None, None, None, None);
      && KeyOf(r) == ModelKey("small.en", "cpu", "int8")
      && Field(r.language, DEFAULT_LANGUAGE) == "en"
  {
    DefaultFieldsAreUnpadded();
    FieldRules(None, DEFAULT_MODEL);
    FieldRules(None, DEFAULT_DEVICE);
    FieldRules(None, DEFAULT_COMPUTE_TYPE);
    FieldRules(None, DEFAULT_LANGUAGE);
  }

  lemma DefaultFieldsAreUnpadded()
    ensures PyStrip(DEFAULT_MODEL) == DEFAULT_MODEL
    ensures PyStrip(DEFAULT_DEVICE) == DEFAULT_DEVICE
    ensures PyStrip(DEFAULT_COMPUTE_TYPE) == DEFAULT_COMPUTE_TYPE
    ensures PyStrip(DEFAULT_LANGUAGE) == DEFAULT_LANGUAGE
  {
    WordIsUnpadded(DEFAULT_MODEL);
    WordIsUnpadded(DEFAULT_DEVICE);
    WordIsUnpadded(DEFAULT_COMPUTE_TYPE);
    WordIsUnpadded(DEFAULT_LANGUAGE);
  }

  /** A string that starts and ends with a lower-case letter or a digit is
      already stripped. */
  lemma WordIsUnpadded(s: string)
    requires s != []
    requires 'a' <= s[0] <= 'z' || '0' <= s[0] <= '9'
    requires 'a' <= s[|s| - 1] <= 'z' || '0' <= s[|s| - 1] <= '9'
    ensures PyStrip(s) == s
  {
    assert !IsPyWhitespace(s[0]) && !IsPyWhitespace(s[|s| - 1]);
    TrimOfTrimmed(s, PythonBlanks);
  }

  // ---------------------------------------------------------------------------
  // The transcript text.
  // ---------------------------------------------------------------------------

  /** The `pieces` list: each segment's text stripped, blank ones dropped. */
  function Pieces(segments: seq<Option<string>>): (r: seq<string>)
    ensures forall k :: 0 <= k < |r| ==> r[k] != [] && PyStrip(r[k]) == r[k]
    ensures r == [] <==> forall k :: 0 <= k < |segments| ==> AllBlank(segments[k].GetOr(""), PythonBlanks)
    ensures |r| <= |segments|
  {
    if segments == [] then []
    else
      var t := PyStrip(segments[0].GetOr(""));
      TrimEmptyIff(segments[0].GetOr(""), PythonBlanks);
      TrimIdempotent(segments[0].GetOr(""), PythonBlanks);
      var rest := Pieces(segments[1..]);
      assert forall k :: 1 <= k < |segments| ==> segments[k] == segments[1..][k - 1];
      if t != [] then [t] + rest else rest
  }

  /** `" ".join(pieces).strip()`. */
  function TranscriptText(segments: seq<Option<string>>): string {
    PyStrip(JoinSpaces(Pieces(segments)))
  }

  /** Joining unpadded, non-empty pieces gives a text that starts with the first
      piece and ends with the last. */
  lemma {:induction false} JoinEnds(pieces: seq<string>)
    requires pieces != []
    requires forall k :: 0 <= k < |pieces| ==> pieces[k] != []
    ensures JoinSpaces(pieces) != []
    ensures JoinSpaces(pieces)[0] == pieces[0][0]
    ensures JoinSpaces(pieces)[|JoinSpaces(pieces)| - 1] == pieces[|pieces| - 1][|pieces[|pieces| - 1]| - 1]
    decreases |pieces|
  {
    if |pieces| > 1 {
      JoinEnds(pieces[1..]);
    }
  }

  /** The final `strip()` removes nothing: the pieces are already stripped and
      non-empty, and are joined with single spaces. The text is empty exactly
      when every segment is blank. */
  lemma TranscriptTextRules(segments: seq<Option<string>>)
    ensures TranscriptText(segments) == JoinSpaces(Pieces(segments))
    ensures TranscriptText(segments) == [] <==>
      forall k :: 0 <= k < |segments| ==> AllBlank(segments[k].GetOr(""), PythonBlanks)
  {
    var pieces := Pieces(segments);
    JoinedPiecesAreUnpadded(pieces);
  }

  lemma JoinedPiecesAreUnpadded(pieces: seq<string>)
    requires forall k :: 0 <= k < |pieces| ==> pieces[k] != [] && PyStrip(pieces[k]) == pieces[k]
    ensures PyStrip(JoinSpaces(pieces)) == JoinSpaces(pieces)
    ensures JoinSpaces(pieces) == [] <==> pieces == []
  {
    if pieces == [] {
      TrimOfTrimmed("", PythonBlanks);
    } else {
      UnpaddedEnds(pieces[0]);
      UnpaddedEnds(pieces[|pieces| - 1]);
      JoinOfUnpaddedEnds(pieces);
    }
  }

  /** Joining non-empty pieces whose outer ends are not blank leaves nothing to strip. */
  lemma JoinOfUnpaddedEnds(pieces: seq<string>)
    requires pieces != [] && forall k :: 0 <= k < |pieces| ==> pieces[k] != []
    requires !IsPyWhitespace(pieces[0][0]) && !IsPyWhitespace(pieces[|pieces| - 1][|pieces[|pieces| - 1]| - 1])
    ensures JoinSpaces(pieces) != [] && PyStrip(JoinSpaces(pieces)) == JoinSpaces(pieces)
  {
    JoinEnds(pieces);
    TrimOfTrimmed(JoinSpaces(pieces), PythonBlanks);
  }

  lemma UnpaddedEnds(s: string)
    requires s != [] && PyStrip(s) == s
    ensures !IsPyWhitespace(s[0]) && !IsPyWhitespace(s[|s| - 1])
  {
    var r := TrimBy(s, PythonBlanks);
    assert r == s;
  }

  /** A segment's trailing space is stripped from its piece. */
  lemma TranscriptTextExample()
    ensures Pieces([Some("world ")]) == ["world"]
  {
    assert PyStrip("world ") == "world" by {
      var s := "world ";
      assert LeadingBlanks(s, PythonBlanks) == 0;
      assert TrailingBlanks(s, PythonBlanks) == 1 by {
        assert Blank(PythonBlanks, s[5]);
        assert s[..5] == "world";
      }
      assert s[0..] == s;
      assert s[..5] == "world";
    }
  }

  // ---------------------------------------------------------------------------
  // The handlers and the dispatcher.
  // ---------------------------------------------------------------------------

  /** What a handler leaves behind: the cache, and the response it wrote or
      the message of the exception it raised. */
  datatype HandlerOutcome = HandlerOutcome(cache: Cache, result: Result<Response, string>)

  /** `handle_transcribe`. */
  function HandleTranscribe(c: Cache, request: Request, load: Loader, recognize: Recognizer): HandlerOutcome {
    var id := IdOf(request);
    var audioPath := PyStrip(request.audioPath.GetOr(""));
    if audioPath == [] then HandlerOutcome(c, Ok(Failure(id, "missing audio_path")))
    else
      var language := Field(request.language, DEFAULT_LANGUAGE);
      match request.beamSize.GetOr(Ok(DEFAULT_BEAM_SIZE))
      case Err(e) => HandlerOutcome(c, Err(e))
      case Ok(beam) =>
        var got := GetModelStep(c, KeyOf(request), load);
        match got.result
        case Err(e) => HandlerOutcome(got.cache, Err(e))
        case Ok(model) =>
          match recognize(model, audioPath, language, beam)
          case Err(e) => HandlerOutcome(got.cache, Err(e))
          case Ok(segments) => HandlerOutcome(got.cache, Ok(Transcribed(id, TranscriptText(segments))))
  }

  /** `handle_preload`. */
  function HandlePreload(c: Cache, request: Request, load: Loader): HandlerOutcome {
    var k := KeyOf(request);
    var got := GetModelStep(c, k, load);
    match got.result
    case Err(e) => HandlerOutcome(got.cache, Err(e))
    case Ok(_) => HandlerOutcome(got.cache, Ok(Preloaded(IdOf(request), k.modelName, k.device, k.computeType)))
  }

  /** A transcribe request without an audio path is refused before any model
      is touched. */
  lemma MissingAudioPath(c: Cache, request: Request, load: Loader, recognize: Recognizer)
    requires AllBlank(request.audioPath.GetOr(""), PythonBlanks)
    ensures HandleTranscribe(c, request, load, recognize) == HandlerOutcome(c, Ok(Failure(IdOf(request), "missing audio_path")))
  {
    TrimEmptyIff(request.audioPath.GetOr(""), PythonBlanks);
  }

  /** A transcript answers under the request's id, with the model for the
      request's key left in the cache; the only other response the handler
      writes itself is the missing-path failure. */
  lemma TranscribeRules(c: Cache, request: Request, load: Loader, recognize: Recognizer)
    ensures var o := HandleTranscribe(c, request, load, recognize);
      && (o.result.Ok? && o.result.value.Transcribed? ==>
            o.result.value.id == IdOf(request) && o.cache.key == Some(KeyOf(request)) && o.cache.model.Some?)
      && (o.result.Ok? ==> o.result.value.Transcribed? || o.result.value == Failure(IdOf(request), "missing audio_path"))
  {
    if PyStrip(request.audioPath.GetOr("")) != [] && request.beamSize.GetOr(Ok(DEFAULT_BEAM_SIZE)).Ok? {
      var k := KeyOf(request);
      if GetModelStep(c, k, load).result.Ok? {
        LoadedIsCached(c, k, load);
      }
    }
  }

  /** A successful `get_model` leaves its key and model cached. */
  lemma LoadedIsCached(c: Cache, k: ModelKey, load: Loader)
    requires GetModelStep(c, k, load).result.Ok?
    ensures GetModelStep(c, k, load).cache == Cache(Some(k), Some(GetModelStep(c, k, load).result.value))
  {
  }

  /** A preload answers with the key it loaded and leaves that key cached. */
  lemma PreloadRules(c: Cache, request: Request, load: Loader)
    ensures var o := HandlePreload(c, request, load);
      o.result.Ok? ==>
        && o.result.value == Preloaded(IdOf(request), KeyOf(request).modelName, KeyOf(request).device, KeyOf(request).computeType)
        && o.cache.key == Some(KeyOf(request)) && o.cache.model.Some?
  {
  }

  /** What one input line produces: the cache after it and the response line,
      if any. */
  datatype LineOutcome = LineOutcome(cache: Cache, response: Option<Response>)

  /** One iteration of `main`: blank lines are skipped, undecodable ones are
      answered with an empty id, the op is stripped and lower-cased before
      dispatch, and a handler's exception becomes a failure response. */
  function HandleLineStep(c: Cache, raw: string, decode: Decoder, load: Loader, recognize: Recognizer): LineOutcome {
    var line := PyStrip(raw);
    if line == [] then LineOutcome(c, None)
    else match decode(line)
      case Err(e) => LineOutcome(c, Some(Failure("", "invalid json: " + e)))
      case Ok(request) =>
        var op := AsciiLower(PyStrip(request.op.GetOr("")));
        var handled :=
          if op == "transcribe" then HandleTranscribe(c, request, load, recognize)
          else if op == "preload" then HandlePreload(c, request, load)
          else HandlerOutcome(c, Ok(Failure(IdOf(request), "unsupported op: " + op)));
        match handled.result
        case Ok(response) => LineOutcome(handled.cache, Some(response))
        case Err(e) => LineOutcome(handled.cache, Some(Failure(IdOf(request), e)))
  }

  /** A line is answered exactly when it is not blank; a line that does not
      decode is answered with a failure under an empty id and leaves the cache
      alone; any other failure answers under the request's id. */
  lemma LineRules(c: Cache, raw: string, decode: Decoder, load: Loader, recognize: Recognizer)
    ensures var o := HandleLineStep(c, raw, decode, load, recognize);
      && (o.response.Some? <==> !AllBlank(raw, PythonBlanks))
      && (!AllBlank(raw, PythonBlanks) && decode(PyStrip(raw)).Err? ==>
            o == LineOutcome(c, Some(Failure("", "invalid json: " + decode(PyStrip(raw)).error))))
      && (o.response.Some? && o.response.value.Failure? && decode(PyStrip(raw)).Ok? ==>
            o.response.value.id == IdOf(decode(PyStrip(raw)).value))
  {
    TrimEmptyIff(raw, PythonBlanks);
    FailureKeepsId(c, raw, decode, load, recognize);
  }

  /** A failure answering a decoded request carries the request's id. */
  lemma FailureKeepsId(c: Cache, raw: string, decode: Decoder, load: Loader, recognize: Recognizer)
    ensures var o := HandleLineStep(c, raw, decode, load, recognize);
      o.response.Some? && o.response.value.Failure? && decode(PyStrip(raw)).Ok? ==>
        o.response.value.id == IdOf(decode(PyStrip(raw)).value)
  {
    var line := PyStrip(raw);
    if line != [] && decode(line).Ok? {
      var request := decode(line).value;
      var op := AsciiLower(PyStrip(request.op.GetOr("")));
      if op == "transcribe" {
        TranscribeRules(c, request, load, recognize);
      } else if op == "preload" {
        PreloadRules(c, request, load);
      }
    }
  }

  /** The op is matched after stripping and ASCII lower-casing: any spelling
      that normalises to "preload" runs the preload handler. */
  lemma PreloadDispatch(c: Cache, raw: string, decode: Decoder, load: Loader, recognize: Recognizer)
    requires !AllBlank(raw, PythonBlanks) && decode(PyStrip(raw)).Ok?
    requires AsciiLower(PyStrip(decode(PyStrip(raw)).value.op.GetOr(""))) == "preload"
    ensures var request := decode(PyStrip(raw)).value;
      var h := HandlePreload(c, request, load);
      HandleLineStep(c, raw, decode, load, recognize)
        == LineOutcome(h.cache, Some(if h.result.Ok? then h.result.value else Failure(IdOf(request), h.result.error)))
  {
    TrimEmptyIff(raw, PythonBlanks);
  }

  /** Likewise for "transcribe". */
  lemma TranscribeDispatch(c: Cache, raw: string, decode: Decoder, load: Loader, recognize: Recognizer)
    requires !AllBlank(raw, PythonBlanks) && decode(PyStrip(raw)).Ok?
    requires AsciiLower(PyStrip(decode(PyStrip(raw)).value.op.GetOr(""))) == "transcribe"
    ensures var request := decode(PyStrip(raw)).value;
      var h := HandleTranscribe(c, request, load, recognize);
      HandleLineStep(c, raw, decode, load, recognize)
        == LineOutcome(h.cache, Some(if h.result.Ok? then h.result.value else Failure(IdOf(request), h.result.error)))
  {
    TrimEmptyIff(raw, PythonBlanks);
  }

  lemma OpCaseExample()
    ensures AsciiLower("PreLoad") == "preload" && AsciiLower("TRANSCRIBE") == "transcribe"
  {
  }

  /** `main` over the whole input: the cache and the responses, in order. */
  datatype Session = Session(cache: Cache, responses: seq<Response>)

  function RunLines(c: Cache, lines: seq<string>, decode: Decoder, load: Loader, recognize: Recognizer): Session
    decreases |lines|
  {
    if lines == [] then Session(c, [])
    else
      var before := RunLines(c, lines[..|lines| - 1], decode, load, recognize);
      var step := HandleLineStep(before.cache, lines[|lines| - 1], decode, load, recognize);
      Session(step.cache, before.responses + (if step.response.Some? then [step.response.value] else []))
  }

  /** The lines that get an answer. */
  function NonBlankLines(lines: seq<string>): (r: seq<string>)
    ensures |r| <= |lines|
    decreases |lines|
  {
    if lines == [] then []
    else
      var last := lines[|lines| - 1];
      NonBlankLines(lines[..|lines| - 1]) + (if AllBlank(last, PythonBlanks) then [] else [last])
  }

  /** Exactly one response per non-blank line. */
  lemma {:induction false} OneResponsePerLine(c: Cache, lines: seq<string>, decode: Decoder, load: Loader,
                                              recognize: Recognizer)
    ensures |RunLines(c, lines, decode, load, recognize).responses| == |NonBlankLines(lines)|
    decreases |lines|
  {
    if lines != [] {
      OneResponsePerLine(c, lines[..|lines| - 1], decode, load, recognize);
      var before := RunLines(c, lines[..|lines| - 1], decode, load, recognize);
      LineRules(before.cache, lines[|lines| - 1], decode, load, recognize);
    }
  }

  /** `main`: a fresh runtime, then every line in order. */
  method Serve(lines: seq<string>, decode: Decoder, load: Loader, recognize: Recognizer)
    returns (responses: seq<Response>)
    ensures responses == RunLines(Cache(None, None), lines, decode, load, recognize).responses
  {
    var runtime := new ModelRuntime();
    responses := [];
    var i := 0;
    while i < |lines|
      invariant 0 <= i <= |lines|
      invariant RunLines(Cache(None, None), lines[..i], decode, load, recognize)
                == Session(runtime.State(), responses)
    {
      assert lines[..i + 1][..i] == lines[..i];
      var response := HandleLine(runtime, lines[i], decode, load, recognize);
      if response.Some? {
        responses := responses + [response.value];
      }
      i := i + 1;
    }
    assert lines[..|lines|] == lines;
  }

  /** One iteration of `main` on a runtime. */
  method HandleLine(runtime: ModelRuntime, raw: string, decode: Decoder, load: Loader, recognize: Recognizer)
    returns (response: Option<Response>)
    modifies runtime
    ensures var o := HandleLineStep(old(runtime.State()), raw, decode, load, recognize);
      runtime.State() == o.cache && response == o.response
  {
    var line := PyStrip(raw);
    if line == [] {
      return None;
    }
    var decoded := decode(line);
    if decoded.Err? {
      return Some(Failure("", "invalid json: " + decoded.error));
    }
    var request := decoded.value;
    var op := AsciiLower(PyStrip(request.op.GetOr("")));
    if op == "transcribe" {
      var r := Transcribe(runtime, request, load, recognize);
      response := Some(if r.Ok? then r.value else Failure(IdOf(request), r.error));
    } else if op == "preload" {
      var k := KeyOf(request);
      var got := runtime.GetModel(k.modelName, k.device, k.computeType, load);
      response := Some(if got.Ok? then Preloaded(IdOf(request), k.modelName, k.device, k.computeType)
                       else Failure(IdOf(request), got.error));
    } else {
      response := Some(Failure(IdOf(request), "unsupported op: " + op));
    }
  }

  /** `handle_transcribe` on a runtime; an exception is returned as `Err`. */
  method Transcribe(runtime: ModelRuntime, request: Request, load: Loader, recognize: Recognizer)
    returns (r: Result<Response, string>)
    modifies runtime
    ensures var o := HandleTranscribe(old(runtime.State()), request, load, recognize);
      runtime.State() == o.cache && r == o.result
  {
    var id := IdOf(request);
    var audioPath := PyStrip(request.audioPath.GetOr(""));
    if audioPath == [] {
      return Ok(Failure(id, "missing audio_path"));
    }
    var language := Field(request.language, DEFAULT_LANGUAGE);
    var beam :- request.beamSize.GetOr(Ok(DEFAULT_BEAM_SIZE));
    var k := KeyOf(request);
    var model :- runtime.GetModel(k.modelName, k.device, k.computeType, load);
    var segments :- recognize(model, audioPath, language, beam);
    return Ok(Transcribed(id, TranscriptText(segments)));
  }
}
