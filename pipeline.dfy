/** The dictation state machine (`pipeline.rs`): three states, two hotkey modes,
    and the gate that sends a chunk of microphone audio to the speech engine only
    while listening and only when the voice-activity detector hears speech. */
module Pipeline {
  import opened Wrappers
  import opened Config
  import opened Vad
  import opened Signal

  datatype DictationState = Idle | Listening | Transcribing

  /** `PipelineStatus`: what the pipeline reports about itself. */
  datatype PipelineStatus = PipelineStatus(mode: DictationMode, state: DictationState)

  /** A speech engine, seen only through its `transcribe` call: it takes no
      mutable state of the pipeline and either yields text or fails. */
  type Engine = seq<real> -> Result<string, string>

  // ---------------------------------------------------------------------------
  // The transitions as functions of the status.
  // ---------------------------------------------------------------------------

  function AfterSetMode(s: PipelineStatus, mode: DictationMode): PipelineStatus {
    PipelineStatus(mode, Idle)
  }

  function AfterHotkeyDown(s: PipelineStatus): PipelineStatus {
    match s.state
    case Idle => s.(state := Listening)
    case Listening => if s.mode == PushToToggle then s.(state := Idle) else s
    case Transcribing => s
  }

  function AfterHotkeyUp(s: PipelineStatus): PipelineStatus {
    if s.mode == PushToTalk && s.state == Listening then s.(state := Idle) else s
  }

  function AfterCancel(s: PipelineStatus): PipelineStatus {
    s.(state := Idle)
  }

  /** Whether a chunk reaches the engine: the pipeline is listening and the
      detector hears speech. */
  predicate ReachesEngine(s: PipelineStatus, samples: seq<real>, vad: VadConfig) {
    s.state == Listening && HasSpeech(samples, vad)
  }

  /** What `process_audio_chunk` returns and the status it leaves behind. On an
      engine failure the error is passed on before the state is set back to
      Listening, so the pipeline is left in Transcribing. */
  datatype ChunkOutcome = ChunkOutcome(status: PipelineStatus, result: Result<Option<string>, string>)

  function AfterChunk(s: PipelineStatus, samples: seq<real>, vad: VadConfig, engine: Engine): ChunkOutcome {
    if !ReachesEngine(s, samples, vad) then ChunkOutcome(s, Ok(None))
    else match engine(samples)
      case Ok(text) => ChunkOutcome(s, Ok(Some(text)))
      case Err(e) => ChunkOutcome(s.(state := Transcribing), Err(e))
  }

  // ---------------------------------------------------------------------------
  // The pipeline object.
  // ---------------------------------------------------------------------------

  class DictationPipeline {
    var mode: DictationMode
    var state: DictationState
    const vadConfig: VadConfig
    const transcriber: Engine
    /** The chunks handed to the engine so far, in order. */
    ghost var requests: seq<seq<real>>

    /** `DictationPipeline::status`. */
    function Status(): PipelineStatus
      reads this
    {
      PipelineStatus(mode, state)
    }

    /** `DictationPipeline::new`: idle in the given mode, with the default detector. */
    constructor(mode: DictationMode, transcriber: Engine)
      ensures this.mode == mode && state == Idle
      ensures vadConfig == DefaultConfig() && this.transcriber == transcriber
      ensures requests == []
    {
      this.mode := mode;
      state := Idle;
      vadConfig := DefaultConfig();
      this.transcriber := transcriber;
      requests := [];
    }

    method SetMode(mode: DictationMode)
      modifies this
      ensures Status() == AfterSetMode(old(Status()), mode)
      ensures requests == old(requests)
    {
      this.mode := mode;
      state := Idle;
    }

    method OnHotkeyDown()
      modifies this
      ensures Status() == AfterHotkeyDown(old(Status()))
      ensures requests == old(requests)
    {
      match state
      case Idle =>
        state := Listening;
      case Listening =>
        if mode == PushToToggle {
          state := Idle;
        }
      case Transcribing =>
    }

    method OnHotkeyUp()
      modifies this
      ensures Status() == AfterHotkeyUp(old(Status()))
      ensures requests == old(requests)
    {
      if mode == PushToTalk && state == Listening {
        state := Idle;
      }
    }

    method Cancel()
      modifies this
      ensures Status() == AfterCancel(old(Status()))
      ensures requests == old(requests)
    {
      state := Idle;
    }

    /** `process_audio_chunk`. The engine is called exactly when the chunk
        reaches it, and then exactly once, on this chunk. */
    method ProcessAudioChunk(samples: seq<real>) returns (r: Result<Option<string>, string>)
      modifies this
      ensures var o := AfterChunk(old(Status()), samples, vadConfig, transcriber);
        Status() == o.status && r == o.result
      ensures requests == if ReachesEngine(old(Status()), samples, vadConfig)
        then old(requests) + [samples] else old(requests)
    {
      if state != Listening {
        return Ok(None);
      }
      if !HasSpeech(samples, vadConfig) {
        return Ok(None);
      }
      state := Transcribing;
      requests := requests + [samples];
      var transcript :- transcriber(samples);
      state := Listening;
      return Ok(Some(transcript));
    }
  }

  // ---------------------------------------------------------------------------
  // Properties over sequences of events.
  // ---------------------------------------------------------------------------

  datatype Event = SetModeTo(mode: DictationMode) | HotkeyDown | HotkeyUp | CancelEvent | Chunk(samples: seq<real>)

  function Apply(s: PipelineStatus, e: Event, vad: VadConfig, engine: Engine): PipelineStatus {
    match e
    case SetModeTo(m) => AfterSetMode(s, m)
    case HotkeyDown => AfterHotkeyDown(s)
    case HotkeyUp => AfterHotkeyUp(s)
    case CancelEvent => AfterCancel(s)
    case Chunk(samples) => AfterChunk(s, samples, vad, engine).status
  }

  function Run(s: PipelineStatus, events: seq<Event>, vad: VadConfig, engine: Engine): PipelineStatus
    decreases |events|
  {
    if events == [] then s
    else Apply(Run(s, events[..|events| - 1], vad, engine), events[|events| - 1], vad, engine)
  }

  /** Every transition keeps the mode except `set_mode`. */
  lemma {:induction false} OnlySetModeChangesMode(s: PipelineStatus, events: seq<Event>, vad: VadConfig, engine: Engine)
    requires forall i :: 0 <= i < |events| ==> !events[i].SetModeTo?
    ensures Run(s, events, vad, engine).mode == s.mode
    decreases |events|
  {
    if events != [] {
      OnlySetModeChangesMode(s, events[..|events| - 1], vad, engine);
    }
  }

  /** A pipeline left in Transcribing by an engine failure stays there, whatever
      hotkeys and chunks arrive, until `cancel` or `set_mode`; meanwhile every
      chunk is answered with `Ok(None)` and none reaches the engine. */
  lemma {:induction false} TranscribingIsStuck(s: PipelineStatus, events: seq<Event>, vad: VadConfig, engine: Engine)
    requires s.state == Transcribing
    requires forall i :: 0 <= i < |events| ==> !events[i].SetModeTo? && !events[i].CancelEvent?
    ensures Run(s, events, vad, engine) == s
    ensures forall samples ::
      AfterChunk(Run(s, events, vad, engine), samples, vad, engine) == ChunkOutcome(s, Ok(None))
    decreases |events|
  {
    if events != [] {
      TranscribingIsStuck(s, events[..|events| - 1], vad, engine);
    }
  }

  /** Transcribing is reached only through an engine failure: a run that starts
      outside it and ends in it handed some chunk to an engine that failed. */
  lemma {:induction false} TranscribingNeedsFailure(s: PipelineStatus, events: seq<Event>, vad: VadConfig, engine: Engine)
    requires s.state != Transcribing
    requires Run(s, events, vad, engine).state == Transcribing
    ensures exists i :: 0 <= i < |events| && events[i].Chunk? && engine(events[i].samples).Err?
    decreases |events|
  {
    var init := events[..|events| - 1];
    var last := events[|events| - 1];
    var before := Run(s, init, vad, engine);
    if before.state == Transcribing {
      TranscribingNeedsFailure(s, init, vad, engine);
      var i :| 0 <= i < |init| && init[i].Chunk? && engine(init[i].samples).Err?;
      assert events[i] == init[i];
    } else {
      assert last.Chunk? && engine(last.samples).Err?;
    }
  }

  /** `cancel` and `set_mode` always end idle, whatever came before. */
  lemma ResetsEndIdle(s: PipelineStatus, events: seq<Event>, vad: VadConfig, engine: Engine, mode: DictationMode)
    ensures Run(s, events + [CancelEvent], vad, engine).state == Idle
    ensures Run(s, events + [SetModeTo(mode)], vad, engine) == PipelineStatus(mode, Idle)
  {
    assert (events + [CancelEvent])[..|events|] == events;
    assert (events + [SetModeTo(mode)])[..|events|] == events;
  }

  /** Press-to-toggle: one press starts listening, a second stops it. Push-to-talk:
      a press starts listening, repeated presses change nothing, and the release
      stops it. */
  lemma HotkeyCycles(vad: VadConfig, engine: Engine)
    ensures Run(PipelineStatus(PushToToggle, Idle), [HotkeyDown], vad, engine).state == Listening
    ensures Run(PipelineStatus(PushToToggle, Idle), [HotkeyDown, HotkeyDown], vad, engine).state == Idle
    ensures Run(PipelineStatus(PushToToggle, Idle), [HotkeyDown, HotkeyUp], vad, engine).state == Listening
    ensures Run(PipelineStatus(PushToTalk, Idle), [HotkeyDown, HotkeyDown], vad, engine).state == Listening
    ensures Run(PipelineStatus(PushToTalk, Idle), [HotkeyDown, HotkeyUp], vad, engine).state == Idle
  {
    assert [HotkeyDown, HotkeyDown][..1] == [HotkeyDown];
    assert [HotkeyDown, HotkeyUp][..1] == [HotkeyDown];
    assert [HotkeyDown][..0] == [];
  }

  /** The outcomes of one chunk, case by case: a chunk that does not reach the
      engine changes nothing; a successful transcription returns the text and
      leaves the pipeline listening; a failure returns the error and leaves it
      transcribing. */
  lemma ChunkOutcomes(s: PipelineStatus, samples: seq<real>, vad: VadConfig, engine: Engine)
    ensures var o := AfterChunk(s, samples, vad, engine);
      && o.status.mode == s.mode
      && (!ReachesEngine(s, samples, vad) ==> o == ChunkOutcome(s, Ok(None)))
      && (ReachesEngine(s, samples, vad) && engine(samples).Ok? ==>
            o.result == Ok(Some(engine(samples).value)) && o.status.state == Listening)
      && (ReachesEngine(s, samples, vad) && engine(samples).Err? ==>
            o.result == Err(engine(samples).error) && o.status.state == Transcribing)
      && (o.result.Ok? && o.result.value.Some? ==> o.status.state == Listening)
  {
  }

  /** The shape of the source's tests with the phase-1 stub engine: after one
      press in press-to-toggle mode, 1024 samples of silence yield nothing, and a
      steady tone loud enough for the detector yields the stub's transcript and
      leaves the pipeline listening. */
  lemma StubEngineExamples()
    ensures var listening := AfterHotkeyDown(PipelineStatus(PushToToggle, Idle));
      var stub: Engine := _ => Ok("phase-1 transcript");
      && AfterChunk(listening, Constant(1024, 0.0), DefaultConfig(), stub) == ChunkOutcome(listening, Ok(None))
      && AfterChunk(listening, Constant(1024, 0.2), DefaultConfig(), stub)
           == ChunkOutcome(PipelineStatus(PushToToggle, Listening), Ok(Some("phase-1 transcript")))
  {
    DefaultConfigExamples();
    ConstantChunk(1024, 0.2, DefaultConfig());
  }
}
