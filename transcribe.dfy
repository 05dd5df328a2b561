/** The recognition engine wrapper: a single-slot cache of the loaded
    engine, keyed by (model size, device, compute type), and the shaping
    of the engine's output into a transcript. The engine itself
    (faster-whisper) is opaque: constructing it is a `Loader`, running it
    is a `Recognizer`, both supplied by the caller. */
module Transcribe {
  import opened Wrappers
  import opened Text

  /** The model sizes the service accepts. */
  const AllowedModels: seq<string> := ["base", "small", "medium", "large-v2", "large-v3"]

  /** An exception raised below the request handler: a `ValueError`, whose
      message reaches the client, or any other exception. */
  datatype Error = ValueError(message: string) | OtherError(message: string)

  /** The WHISPER_DEVICE and WHISPER_COMPUTE_TYPE environment variables
      (None when unset). */
  datatype Settings = Settings(whisperDevice: Option<string>, whisperComputeType: Option<string>)

  /** The triple that decides whether a loaded engine can be reused. */
  datatype EngineConfig = EngineConfig(modelSize: string, device: string, computeType: string)

  /** The `ValueError` for a model size outside `AllowedModels` (the
      tuple and the `!r` rendering written out for plain names). */
  function UnknownModel(modelSize: string): (r: Error)
    ensures r.ValueError?
    ensures |r.message| > |modelSize| + 1
    ensures r.message[|r.message| - |modelSize| - 2..] == "'" + modelSize + "'"
  {
    ValueError("model must be one of ('base', 'small', 'medium', 'large-v2', 'large-v3'), got '"
      + modelSize + "'")
  }

  /** Python's `x or fallback` on an optional string: None and "" are falsy. */
  function OrElse(x: Option<string>, fallback: string): (r: string)
    ensures x.Some? && x.value != "" ==> r == x.value
    ensures x.None? || x.value == "" ==> r == fallback
  {
    if x.Some? && x.value != "" then x.value else fallback
  }

  /** The device: an explicit non-empty argument wins, then the
      WHISPER_DEVICE setting (whatever its value), then "cpu". */
  function ResolveDevice(device: Option<string>, settings: Settings): (r: string)
    ensures device.Some? && device.value != "" ==> r == device.value
    ensures device.None? || device.value == "" ==> r == settings.whisperDevice.GetOr("cpu")
    ensures device.None? && settings.whisperDevice.None? ==> r == "cpu"
  {
    OrElse(device, settings.whisperDevice.GetOr("cpu"))
  }

  /** The compute type: an explicit non-empty argument wins, then the
      WHISPER_COMPUTE_TYPE setting; without either, "float16" exactly on
      the "cuda" device and "int8" on every other device. */
  function ResolveComputeType(device: string, computeType: Option<string>, settings: Settings): (r: string)
    ensures computeType.Some? && computeType.value != "" ==> r == computeType.value
    ensures (computeType.None? || computeType.value == "") && settings.whisperComputeType.Some?
      ==> r == settings.whisperComputeType.value
    ensures (computeType.None? || computeType.value == "") && settings.whisperComputeType.None?
      ==> (r == "float16" <==> device == "cuda") && (r == "int8" <==> device != "cuda")
  {
    if device == "cuda" then
      OrElse(computeType, settings.whisperComputeType.GetOr("float16"))
    else
      OrElse(computeType, settings.whisperComputeType.GetOr("int8"))
  }

  /** The configuration `get_model` settles on for a request. */
  function ResolveConfig(modelSize: string, device: Option<string>, computeType: Option<string>,
                         settings: Settings): (c: EngineConfig)
    ensures c.modelSize == modelSize
    ensures c.device == ResolveDevice(device, settings)
    ensures c.computeType == ResolveComputeType(c.device, computeType, settings)
  {
    var d := ResolveDevice(device, settings);
    EngineConfig(modelSize, d, ResolveComputeType(d, computeType, settings))
  }

  /** A loaded recognition engine (faster-whisper's `WhisperModel`). */
  class Engine {
    const config: EngineConfig

    constructor (config: EngineConfig)
      ensures this.config == config
    {
      this.config := config;
    }
  }

  /** How constructing an engine for a configuration turns out: the
      exception it raises (missing model files, unsupported device or
      compute type, exhausted memory), or None when it loads. */
  type Loader = EngineConfig -> Option<Error>

  /** `WhisperModel(model_size, device=..., compute_type=...)`: raises what
      the loader says, or returns a new engine built for `config`. */
  method Construct(config: EngineConfig, load: Loader) returns (r: Result<Engine, Error>)
    ensures load(config).Some? ==> r == Failure(load(config).value)
    ensures load(config).None? ==> r.Success? && fresh(r.value) && r.value.config == config
  {
    match load(config) {
      case Some(e) =>
        r := Failure(e);
      case None =>
        var engine := new Engine(config);
        r := Success(engine);
    }
  }

  /** The module globals `_model`, `_loaded_model_name`, `_loaded_device`
      and `_loaded_compute_type`: one slot holding at most one engine. */
  class EngineCache {
    var model: Engine?
    var loadedModelName: Option<string>
    var loadedDevice: Option<string>
    var loadedComputeType: Option<string>
    /** How many engines this cache has constructed. */
    ghost var constructions: nat

    /** The recorded triple is that of the engine held, and nothing is
        recorded while the slot is empty. */
    ghost predicate Valid()
      reads this
    {
      if model == null then
        loadedModelName.None? && loadedDevice.None? && loadedComputeType.None?
      else
        && loadedModelName == Some(model.config.modelSize)
        && loadedDevice == Some(model.config.device)
        && loadedComputeType == Some(model.config.computeType)
    }

    /** The empty slot the process starts with. */
    constructor ()
      ensures Valid() && model == null && constructions == 0
    {
      model := null;
      loadedModelName, loadedDevice, loadedComputeType := None, None, None;
      constructions := 0;
    }

    /** The loaded engine can serve `config`: one is held and all three
        recorded fields match. */
    predicate Holds(config: EngineConfig)
      reads this
    {
      && model != null
      && loadedModelName == Some(config.modelSize)
      && loadedDevice == Some(config.device)
      && loadedComputeType == Some(config.computeType)
    }

    /** What acquiring an engine for `config` raises: nothing when the slot
        already holds it, otherwise whatever constructing it raises. */
    ghost function LoadFailure(config: EngineConfig, load: Loader): Option<Error>
      reads this
    {
      if Holds(config) then None else load(config)
    }

    /** `get_model`: rejects an unknown size without touching the slot;
        reuses the held engine when the resolved triple matches; otherwise
        constructs exactly one engine and records its triple, leaving the
        slot as it was when the construction raises. */
    method GetModel(modelSize: string, device: Option<string>, computeType: Option<string>,
                    settings: Settings, load: Loader)
      returns (r: Result<Engine, Error>)
      requires Valid()
      modifies this
      ensures Valid()
      ensures constructions <= old(constructions) + 1
      ensures modelSize !in AllowedModels ==> r == Failure(UnknownModel(modelSize)) && unchanged(this)
      ensures modelSize in AllowedModels ==>
        var config := ResolveConfig(modelSize, device, computeType, settings);
        && (old(Holds(config)) ==> r == Success(old(model)) && unchanged(this))
        && (!old(Holds(config)) && load(config).Some? ==> r == Failure(load(config).value) && unchanged(this))
        && (!old(Holds(config)) && load(config).None? ==>
              && r.Success? && fresh(r.value) && r.value.config == config
              && model == r.value && Holds(config)
              && constructions == old(constructions) + 1)
    {
      if modelSize !in AllowedModels {
        return Failure(UnknownModel(modelSize));
      }
      var dev := ResolveDevice(device, settings);
      var ct := ResolveComputeType(dev, computeType, settings);
      var config := EngineConfig(modelSize, dev, ct);
      if model == null || loadedModelName != Some(modelSize) || loadedDevice != Some(dev)
         || loadedComputeType != Some(ct)
      {
        var built := Construct(config, load);
        if built.Failure? {
          return Failure(built.error);
        }
        model := built.value;
        loadedModelName, loadedDevice, loadedComputeType := Some(modelSize), Some(dev), Some(ct);
        constructions := constructions + 1;
      }
      r := Success(model);
    }
  }

  /** A segment as the engine emits it; its text may be missing. */
  datatype EngineSegment = EngineSegment(start: real, end: real, text: Option<string>)

  /** The engine's report: the audio duration when it knows it, and the
      detected (or forced) language. */
  datatype EngineInfo = EngineInfo(duration: Option<real>, language: Option<string>)

  datatype EngineOutput = EngineOutput(segments: seq<EngineSegment>, info: EngineInfo)

  /** What running an engine on (configuration, audio path, language hint)
      gives: its output, or the exception inference raises. */
  type Recognizer = (EngineConfig, string, Option<string>) -> Result<EngineOutput, Error>

  /** A segment of the returned transcript. */
  datatype Segment = Segment(start: real, end: real, text: string)

  /** `transcribe_file`'s result: (text, detected_language, duration_sec, segments). */
  datatype Transcript = Transcript(text: string, language: Option<string>, durationSec: real,
                                   segments: seq<Segment>)

  /** The segment texts in order, or None when one of them is missing. */
  function SegmentTexts(segments: seq<EngineSegment>): (r: Option<seq<string>>)
    ensures r.Some? <==> forall i :: 0 <= i < |segments| ==> segments[i].text.Some?
    ensures r.Some? ==> |r.value| == |segments|
    ensures r.Some? ==> forall i :: 0 <= i < |segments| ==> r.value[i] == segments[i].text.value
    decreases |segments|
  {
    if segments == [] then Some([])
    else
      var rest := SegmentTexts(segments[1..]);
      if segments[0].text.None? || rest.None? then
        assert rest.None? ==> exists i :: 0 <= i < |segments| - 1 && segments[1..][i].text.None?;
        None
      else
        Some([segments[0].text.value] + rest.value)
  }

  /** The reported duration: the engine's when it gives one; otherwise the
      end of the last segment; otherwise 0.0. */
  function Duration(segments: seq<EngineSegment>, info: EngineInfo): (d: real)
    ensures info.duration.Some? ==> d == info.duration.value
    ensures info.duration.None? && segments != [] ==> d == segments[|segments| - 1].end
    ensures info.duration.None? && segments == [] ==> d == 0.0
  {
    var reported := if info.duration.None? && segments != [] then Some(segments[|segments| - 1].end)
                    else info.duration;
    // float(duration_sec or 0.0): None and 0.0 are both falsy
    if reported.Some? && reported.value != 0.0 then reported.value else 0.0
  }

  /** The timestamped segments: one per engine segment, in the engine's
      order, times copied and text stripped (a missing text reads as ""). */
  function TimedSegments(segments: seq<EngineSegment>): (r: seq<Segment>)
    ensures |r| == |segments|
    ensures forall i :: 0 <= i < |segments| ==>
      r[i] == Segment(segments[i].start, segments[i].end, Strip(segments[i].text.GetOr("")))
  {
    seq(|segments|, i requires 0 <= i < |segments| =>
      Segment(segments[i].start, segments[i].end, Strip(segments[i].text.GetOr(""))))
  }

  /** The shaping half of `transcribe_file`. Joining the texts raises a
      `TypeError` when a segment has no text; otherwise the text is the
      stripped space-join of the segment texts, empty exactly when every
      segment text is blank; the language is the engine's; the duration
      follows the three-tier fallback; the segments are empty unless
      timestamps are wanted. */
  function ShapeTranscript(out: EngineOutput, includeTimestamps: bool): (r: Result<Transcript, Error>)
    ensures r.Success? <==> forall i :: 0 <= i < |out.segments| ==> out.segments[i].text.Some?
    ensures r.Failure? ==> r.error.OtherError?
    ensures r.Success? ==> r.value.text == Strip(JoinSpace(SegmentTexts(out.segments).value))
    ensures r.Success? ==> NoEdgeSpace(r.value.text)
    ensures r.Success? ==>
      (r.value.text == "" <==> forall i :: 0 <= i < |out.segments| ==> IsBlank(out.segments[i].text.value))
    ensures r.Success? ==> r.value.language == out.info.language
    ensures r.Success? ==> r.value.durationSec == Duration(out.segments, out.info)
    ensures r.Success? ==> r.value.segments == if includeTimestamps then TimedSegments(out.segments) else []
  {
    match SegmentTexts(out.segments)
    case None =>
      Failure(OtherError("sequence item: expected str instance, NoneType found"))
    case Some(texts) =>
      assert Strip(JoinSpace(texts)) == [] <==>
             forall i :: 0 <= i < |out.segments| ==> IsBlank(out.segments[i].text.value) by {
        JoinBlank(texts);
        assert forall i :: 0 <= i < |texts| ==> texts[i] == out.segments[i].text.value;
      }
      Success(Transcript(Strip(JoinSpace(texts)), out.info.language, Duration(out.segments, out.info),
                         if includeTimestamps then TimedSegments(out.segments) else []))
  }

  /** The timestamps flag decides the segment list and nothing else. */
  lemma TimestampsOnlySelectSegments(out: EngineOutput)
    ensures ShapeTranscript(out, true).Success? == ShapeTranscript(out, false).Success?
    ensures ShapeTranscript(out, true).Success? ==>
      ShapeTranscript(out, true).value.(segments := []) == ShapeTranscript(out, false).value
  {
  }

  /** What `transcribe_file` returns once the engine has been acquired
      (`loadFailure` is what acquiring it raised) and run. */
  function Outcome(loadFailure: Option<Error>, recognized: Result<EngineOutput, Error>,
                   includeTimestamps: bool): Result<Transcript, Error>
  {
    if loadFailure.Some? then Failure(loadFailure.value)
    else match recognized
         case Failure(e) => Failure(e)
         case Success(out) => ShapeTranscript(out, includeTimestamps)
  }

  /** `transcribe_file`: acquires the engine for `modelSize` with the
      default device and compute type, runs it on `path` (which must exist
      among the `staged` files) with the language hint, and shapes what it
      returns. Afterwards the cache holds that engine unless acquiring it
      raised, in which case the cache is as it was. */
  method TranscribeFile(cache: EngineCache, path: string, ghost staged: set<string>, language: Option<string>,
                        modelSize: string, includeTimestamps: bool, settings: Settings, load: Loader,
                        recognize: Recognizer)
    returns (r: Result<Transcript, Error>)
    requires cache.Valid()
    requires path in staged
    modifies cache
    ensures cache.Valid()
    ensures modelSize !in AllowedModels ==> r == Failure(UnknownModel(modelSize)) && unchanged(cache)
    ensures modelSize in AllowedModels ==>
      var config := ResolveConfig(modelSize, None, None, settings);
      && r == Outcome(old(cache.LoadFailure(config, load)), recognize(config, path, language), includeTimestamps)
      && (old(cache.LoadFailure(config, load)).Some? ==> unchanged(cache))
      && (old(cache.LoadFailure(config, load)).None? ==>
            cache.Holds(config) && cache.constructions <= old(cache.constructions) + 1)
      && (old(cache.Holds(config)) ==> unchanged(cache))
      && (old(cache.LoadFailure(config, load)).None? && !old(cache.Holds(config)) ==>
            cache.constructions == old(cache.constructions) + 1)
  {
    var engine := cache.GetModel(modelSize, None, None, settings, load);
    if engine.Failure? {
      return Failure(engine.error);
    }
    var output := recognize(engine.value.config, path, language);
    match output {
      case Failure(e) =>
        r := Failure(e);
      case Success(out) =>
        r := ShapeTranscript(out, includeTimestamps);
    }
  }

  /** Two requests in a row for the same model: once the first has an
      engine, the second gets that same engine and constructs nothing. */
  method RepeatedRequestReuses(cache: EngineCache, modelSize: string, settings: Settings, load: Loader)
    returns (first: Result<Engine, Error>, second: Result<Engine, Error>)
    requires cache.Valid()
    modifies cache
    ensures cache.Valid()
    ensures first.Success? ==> second == first
    ensures first.Success? ==> cache.constructions <= old(cache.constructions) + 1
    ensures first.Success? ==>
      var config := ResolveConfig(modelSize, None, None, settings);
      cache.constructions == old(cache.constructions) + (if old(cache.Holds(config)) then 0 else 1)
  {
    first := cache.GetModel(modelSize, None, None, settings, load);
    second := cache.GetModel(modelSize, None, None, settings, load);
  }
}
