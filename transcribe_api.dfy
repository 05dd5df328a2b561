/** The POST /v1/transcribe handler: API-key check, model check, upload
    read and size check, staging of the upload in a temporary file,
    recognition, response shaping and removal of the temporary file. */
module TranscribeApi {
  import opened Wrappers
  import opened Text
  import PurePath
  import opened Transcribe

  /** MAX_UPLOAD_BYTES when the environment does not set it: 50 MiB. */
  const DefaultMaxUploadBytes: int := 50 * 1024 * 1024

  /** The extensions a staged upload may carry. */
  const AllowedSuffixes: seq<string> := [".m4a", ".mp3", ".wav", ".webm", ".ogg", ".flac", ".bin"]

  const ModelListDetail: string := "model must be one of ['base', 'small', 'medium', 'large-v2', 'large-v3']"

  /** TRANSCRIBE_API_KEY ("" when unset), MAX_UPLOAD_BYTES and the engine
      settings, read from the environment at start-up. */
  datatype ServerConfig = ServerConfig(apiKey: string, maxUploadBytes: int, settings: Settings)

  /** The parts of a request the handler reads. `body` is None when
      reading the upload raises. */
  datatype Request = Request(apiKey: Option<string>, model: string, filename: Option<string>,
                             body: Option<seq<bv8>>, language: Option<string>, timestamps: bool)

  datatype HttpError = HttpError(status: int, detail: string)

  datatype Response = Response(language: string, durationSec: real, text: string, segments: seq<Segment>)

  /** What the client receives: a response body or an HTTP error. */
  datatype Reply = Ok(response: Response) | Fail(error: HttpError)

  /** `_require_api_key`: fails closed with 500 when no key is configured;
      otherwise passes exactly when the header is present and equal to the
      configured key, and answers 401 in every other case. */
  function RequireApiKey(configured: string, header: Option<string>): (r: Option<HttpError>)
    ensures r.None? <==> configured != "" && header == Some(configured)
    ensures configured == "" ==> r == Some(HttpError(500, "Server missing TRANSCRIBE_API_KEY"))
    ensures configured != "" && r.Some? ==> r == Some(HttpError(401, "Invalid or missing X-API-Key"))
  {
    if configured == "" then Some(HttpError(500, "Server missing TRANSCRIBE_API_KEY"))
    else if header.None? || header.value == "" || header.value != configured then
      Some(HttpError(401, "Invalid or missing X-API-Key"))
    else None
  }

  /** The 413 detail, with the limit in whole MiB (`//` floors; so does
      Dafny's `/` for a positive divisor). */
  function TooLargeDetail(maxUploadBytes: int): (r: string)
    ensures |r| >= 24 && r[..20] == "File too large (max " && r[|r| - 3..] == "MB)"
    ensures maxUploadBytes >= 0 ==>
      && (forall k :: 20 <= k < |r| - 3 ==> IsDigit(r[k]))
      && DigitsValue(r[20..|r| - 3]) == maxUploadBytes / (1024 * 1024)
  {
    var digits := IntToString(maxUploadBytes / (1024 * 1024));
    var r := "File too large (max " + digits + "MB)";
    assert r[..20] == "File too large (max " && r[20..|r| - 3] == digits;
    if maxUploadBytes >= 0 then
      NatToStringRoundTrip(maxUploadBytes / (1024 * 1024));
      r
    else r
  }

  /** The checks made before anything is staged, in their order: API key,
      model, reading the upload, size. None when all pass, which is when
      the key matches, the model is allowed, the upload was read and its
      size is at most the limit. */
  function EarlyRejection(req: Request, config: ServerConfig): (r: Option<HttpError>)
    ensures r.None? <==>
      && config.apiKey != "" && req.apiKey == Some(config.apiKey)
      && req.model in AllowedModels
      && req.body.Some? && |req.body.value| <= config.maxUploadBytes
    ensures RequireApiKey(config.apiKey, req.apiKey).Some? ==> r == RequireApiKey(config.apiKey, req.apiKey)
    ensures RequireApiKey(config.apiKey, req.apiKey).None? && req.model !in AllowedModels
      ==> r == Some(HttpError(400, ModelListDetail))
    ensures RequireApiKey(config.apiKey, req.apiKey).None? && req.model in AllowedModels && req.body.None?
      ==> r == Some(HttpError(400, "Failed to read upload"))
    ensures r.Some? && r.value.status == 413 <==>
      && RequireApiKey(config.apiKey, req.apiKey).None? && req.model in AllowedModels
      && req.body.Some? && |req.body.value| > config.maxUploadBytes
    ensures r.Some? && r.value.status == 413 ==> r == Some(HttpError(413, TooLargeDetail(config.maxUploadBytes)))
  {
    var auth := RequireApiKey(config.apiKey, req.apiKey);
    if auth.Some? then auth
    else if req.model !in AllowedModels then Some(HttpError(400, ModelListDetail))
    else if req.body.None? then Some(HttpError(400, "Failed to read upload"))
    else if |req.body.value| > config.maxUploadBytes then
      Some(HttpError(413, TooLargeDetail(config.maxUploadBytes)))
    else None
  }

  /** The staged file's extension: the filename's suffix (the filename
      defaulting to "audio") when it is one of the allowed extensions,
      ".bin" otherwise. */
  function SanitizeSuffix(filename: Option<string>): (r: string)
    ensures r in AllowedSuffixes
    ensures PurePath.Suffix(OrElse(filename, "audio")) in AllowedSuffixes
      ==> r == PurePath.Suffix(OrElse(filename, "audio"))
    ensures PurePath.Suffix(OrElse(filename, "audio")) !in AllowedSuffixes ==> r == ".bin"
  {
    var name := OrElse(filename, "audio");
    var suffix := OrElse(Some(PurePath.Suffix(name)), ".bin");
    if suffix in AllowedSuffixes then suffix else ".bin"
  }

  /** For a plain file name `stem.ext`, the staged extension is ".ext"
      when that is allowed, compared case-sensitively, and ".bin" otherwise. */
  lemma StagedExtensionOfFileName(stem: string, ext: string)
    requires stem != [] && '/' !in stem
    requires ext != [] && '.' !in ext && '/' !in ext
    ensures SanitizeSuffix(Some(stem + "." + ext)) == if "." + ext in AllowedSuffixes then "." + ext else ".bin"
  {
    var name := stem + "." + ext;
    assert OrElse(Some(name), "audio") == name;
    PurePath.NameOfFileInDirectory("", name);
    assert "" + name == name;
    PurePath.SplitExtension(stem, ext);
    assert PurePath.Suffix(name) == "." + ext;
  }

  /** A missing filename reads as "audio", which has no suffix. */
  lemma MissingFilenameStagesAsBin()
    ensures SanitizeSuffix(None) == ".bin"
  {
    var name := "audio";
    assert OrElse(None, "audio") == name;
    PurePath.NameOfFileInDirectory("", name);
    assert "" + name == name;
    PurePath.NoDotNoSuffix(name);
    assert PurePath.Suffix(name) == "";
  }

  /** The language hint passed to the engine: None for a missing or blank
      hint, otherwise the hint stripped, which is then non-empty. */
  function NormalizeLanguage(language: Option<string>): (r: Option<string>)
    ensures r.None? <==> language.None? || IsBlank(language.value)
    ensures r.Some? ==> r.value == Strip(language.value) && r.value != "" && NoEdgeSpace(r.value)
  {
    var s := if language.Some? then language.value else "";
    assert OrElse(language, "") == s;
    var stripped := Strip(s);
    if stripped == "" then None else Some(stripped)
  }

  /** The response body: the detected language, or "en" when the engine
      reported none or an empty one; text, duration and segments as
      transcribed. */
  function ShapeResponse(t: Transcript): (r: Response)
    ensures t.language.Some? && t.language.value != "" ==> r.language == t.language.value
    ensures t.language.None? || t.language.value == "" ==> r.language == "en"
    ensures r.text == t.text && r.durationSec == t.durationSec && r.segments == t.segments
  {
    Response(OrElse(t.language, "en"), t.durationSec, t.text, t.segments)
  }

  /** A `ValueError` becomes 400 carrying its message; any other exception
      becomes 500 with a fixed detail that reveals nothing. */
  function ErrorReply(e: Error): (r: HttpError)
    ensures e.ValueError? ==> r == HttpError(400, e.message)
    ensures e.OtherError? ==> r == HttpError(500, "Transcription failed")
  {
    match e
    case ValueError(message) => HttpError(400, message)
    case OtherError(_) => HttpError(500, "Transcription failed")
  }

  /** The reply for what `transcribe_file` returned. */
  function Finish(result: Result<Transcript, Error>): Reply {
    match result
    case Success(t) => Ok(ShapeResponse(t))
    case Failure(e) => Fail(ErrorReply(e))
  }

  /** How the operating system treats the temporary file: creating it
      fails, writing the upload fails, closing it (the final flush) fails,
      or all of these succeed. */
  datatype StageIo = Staged | CreateFails(reason: string) | WriteFails(reason: string) | CloseFails(reason: string)

  /** The temporary directory's paths after staging, the `tmp_path` the
      handler holds for its cleanup, and the exception staging raised. */
  datatype Staging = Staging(existing: set<string>, tmpPath: Option<string>, error: Option<Error>)

  /** `NamedTemporaryFile(delete=False, suffix=..., dir="/tmp")` names. */
  function TempPath(token: string, suffix: string): string {
    "/tmp/tmp" + token + suffix
  }

  /** The cleanup in `finally`: removes `tmp_path` when it is set and
      exists, unless the removal raises `OSError`, which is swallowed. */
  function Cleanup(existing: set<string>, tmpPath: Option<string>, unlinkFails: bool): (r: set<string>)
    ensures r <= existing
    ensures forall p :: p in existing && p !in r ==> tmpPath == Some(p)
    ensures tmpPath.Some? && !unlinkFails ==> tmpPath.value !in r
    ensures unlinkFails ==> r == existing
  {
    if tmpPath.Some? && tmpPath.value in existing && !unlinkFails then existing - {tmpPath.value}
    else existing
  }

  /** Staging as main.py writes it: `tmp_path` is assigned after the write,
      so a write that raises leaves a file the cleanup does not know of. */
  function StageAsWritten(existing: set<string>, path: string, io: StageIo): (r: Staging)
    ensures r.existing <= existing + {path}
    ensures io.CreateFails? ==> r.existing == existing
    ensures !io.CreateFails? ==> path in r.existing
    ensures r.tmpPath.Some? <==> io.CloseFails? || io.Staged?
    ensures r.tmpPath.Some? ==> r.tmpPath.value == path
    ensures r.error.None? <==> io.Staged?
    ensures path !in existing ==> (Cleanup(r.existing, r.tmpPath, false) == existing <==> !io.WriteFails?)
  {
    match io
    case CreateFails(why) => Staging(existing, None, Some(OtherError(why)))
    case WriteFails(why) => Staging(existing + {path}, None, Some(OtherError(why)))
    case CloseFails(why) => Staging(existing + {path}, Some(path), Some(OtherError(why)))
    case Staged => Staging(existing + {path}, Some(path), None)
  }

  /** A write that fails (a full disk, say) leaves the staged file behind
      after the cleanup of the code as written. */
  lemma StageAsWrittenLeaks(existing: set<string>, path: string, why: string)
    requires path !in existing
    ensures var s := StageAsWritten(existing, path, WriteFails(why));
      s.error.Some? && path in Cleanup(s.existing, s.tmpPath, false)
  {
  }

  /** Staging that records `tmp_path` as soon as the file exists: it
      creates at most the one file, and the cleanup removes it again on
      every outcome when the removal succeeds. */
  function Stage(existing: set<string>, path: string, io: StageIo): (r: Staging)
    ensures r.existing <= existing + {path}
    ensures io.CreateFails? ==> r.existing == existing && r.tmpPath.None?
    ensures !io.CreateFails? ==> r.existing == existing + {path} && r.tmpPath == Some(path)
    ensures r.error.None? <==> io.Staged?
    ensures r.error.Some? ==> r.error.value.OtherError?
    ensures path !in existing ==> Cleanup(r.existing, r.tmpPath, false) == existing
  {
    match io
    case CreateFails(why) => Staging(existing, None, Some(OtherError(why)))
    case WriteFails(why) => Staging(existing + {path}, Some(path), Some(OtherError(why)))
    case CloseFails(why) => Staging(existing + {path}, Some(path), Some(OtherError(why)))
    case Staged => Staging(existing + {path}, Some(path), None)
  }

  /** The temporary directory, seen as the set of paths that exist in it. */
  class TempDir {
    ghost var existing: set<string>

    constructor (ghost initial: set<string>)
      ensures existing == initial
    {
      existing := initial;
    }

    /** Entering `NamedTemporaryFile(...)`: the file exists afterwards
        unless creating it raised. */
    method Create(path: string, io: StageIo) returns (error: Option<Error>)
      modifies this
      ensures io.CreateFails? ==> error == Some(OtherError(io.reason)) && existing == old(existing)
      ensures !io.CreateFails? ==> error == None && existing == old(existing) + {path}
    {
      if io.CreateFails? {
        error := Some(OtherError(io.reason));
      } else {
        existing := existing + {path};
        error := None;
      }
    }

    /** `f.write(content)` and the close at the end of the `with` block;
        neither adds nor removes a path. */
    method WriteAndClose(path: string, io: StageIo) returns (error: Option<Error>)
      ensures io.WriteFails? || io.CloseFails? ==> error == Some(OtherError(io.reason))
      ensures !(io.WriteFails? || io.CloseFails?) ==> error == None
    {
      if io.WriteFails? || io.CloseFails? {
        error := Some(OtherError(io.reason));
      } else {
        error := None;
      }
    }

    /** `if os.path.exists(p): os.unlink(p)` with `OSError` swallowed. */
    method Remove(path: string, unlinkFails: bool)
      modifies this
      ensures existing == if unlinkFails then old(existing) else old(existing) - {path}
    {
      if !unlinkFails {
        existing := existing - {path};
      }
    }
  }

  /** Everything outside the handler that decides how a request goes: the
      temporary file's random name part, the file operations, the engine's
      construction and inference, and whether removing the file fails. */
  datatype World = World(tempToken: string, stage: StageIo, load: Loader, recognize: Recognizer,
                         unlinkFails: bool)

  /** Where the request's upload is staged. */
  function StagedPath(req: Request, world: World): string {
    TempPath(world.tempToken, SanitizeSuffix(req.filename))
  }

  /** The engine configuration the handler asks for. */
  function EngineFor(req: Request, config: ServerConfig): EngineConfig {
    ResolveConfig(req.model, None, None, config.settings)
  }

  /** The reply once the early checks have passed, given what acquiring
      the engine raises: 500 when staging fails; otherwise the shaped
      transcript or the mapped engine error. It does not depend on whether
      the cleanup's removal fails. */
  function ReplyAfterChecks(req: Request, config: ServerConfig, world: World, loadFailure: Option<Error>): Reply {
    if !world.stage.Staged? then Fail(HttpError(500, "Transcription failed"))
    else
      var engineConfig := EngineFor(req, config);
      Finish(Outcome(loadFailure,
                     world.recognize(engineConfig, StagedPath(req, world), NormalizeLanguage(req.language)),
                     req.timestamps))
  }

  /** `transcribe`: an early rejection touches neither the engine cache nor
      the temporary directory; past the checks, the reply is that of
      `ReplyAfterChecks`; and the staged file is gone again on every exit
      path unless its removal fails, in which case it is the only path
      added. */
  method HandleTranscribe(req: Request, config: ServerConfig, world: World, cache: EngineCache, tmp: TempDir)
    returns (reply: Reply)
    requires cache.Valid()
    requires StagedPath(req, world) !in tmp.existing
    modifies cache, tmp
    ensures cache.Valid()
    ensures EarlyRejection(req, config).Some? ==>
      reply == Fail(EarlyRejection(req, config).value) && unchanged(cache) && unchanged(tmp)
    ensures EarlyRejection(req, config).None? ==>
      reply == ReplyAfterChecks(req, config, world, old(cache.LoadFailure(EngineFor(req, config), world.load)))
    ensures EarlyRejection(req, config).None? && !world.stage.Staged? ==> unchanged(cache)
    ensures EarlyRejection(req, config).None? && world.stage.Staged? ==>
      var engineConfig := EngineFor(req, config);
      && (old(cache.LoadFailure(engineConfig, world.load)).Some? ==> unchanged(cache))
      && (old(cache.LoadFailure(engineConfig, world.load)).None? ==>
            cache.Holds(engineConfig) && cache.constructions <= old(cache.constructions) + 1)
      && (old(cache.Holds(engineConfig)) ==> unchanged(cache))
      && (old(cache.LoadFailure(engineConfig, world.load)).None? && !old(cache.Holds(engineConfig)) ==>
            cache.constructions == old(cache.constructions) + 1)
    ensures !world.unlinkFails ==> tmp.existing == old(tmp.existing)
    ensures tmp.existing <= old(tmp.existing) + {StagedPath(req, world)}
    ensures tmp.existing - {StagedPath(req, world)} == old(tmp.existing)
  {
    var auth := RequireApiKey(config.apiKey, req.apiKey);
    if auth.Some? {
      return Fail(auth.value);
    }
    if req.model !in AllowedModels {
      return Fail(HttpError(400, ModelListDetail));
    }
    if req.body.None? {
      return Fail(HttpError(400, "Failed to read upload"));
    }
    var content := req.body.value;
    if |content| > config.maxUploadBytes {
      return Fail(HttpError(413, TooLargeDetail(config.maxUploadBytes)));
    }
    var suffix := SanitizeSuffix(req.filename);
    var path := TempPath(world.tempToken, suffix);

    var tmpPath: Option<string> := None;
    var error := tmp.Create(path, world.stage);
    if error.None? {
      tmpPath := Some(path);
      error := tmp.WriteAndClose(path, world.stage);
    }
    assert tmp.existing == Stage(old(tmp.existing), path, world.stage).existing;
    assert tmpPath == Stage(old(tmp.existing), path, world.stage).tmpPath;

    if error.Some? {
      reply := Fail(ErrorReply(error.value));
    } else {
      var language := NormalizeLanguage(req.language);
      var result := TranscribeFile(cache, path, tmp.existing, language, req.model, req.timestamps,
                                   config.settings, world.load, world.recognize);
      reply := Finish(result);
    }

    if tmpPath.Some? {
      tmp.Remove(tmpPath.value, world.unlinkFails);
    }
  }
}
