# FLYR transcription service and helper scripts, modelled in Dafny

This project models the logic at the core of FLYR's transcription backend and its helper scripts:

- **The transcription API** (`backend/app/main.py`). The `POST /v1/transcribe` handler checks the API key, the model name, the upload and its size. It sanitises the upload's extension and stages the upload in a temporary file. It then runs recognition, shapes the JSON reply, maps exceptions to HTTP errors and removes the temporary file.
- **The engine wrapper** (`backend/app/transcribe.py`). A single-slot cache keeps the loaded faster-whisper engine, keyed by model size, device and compute type. The device and compute type fall back to the environment. The engine's segments and info are shaped into `(text, language, duration, segments)`.
- **The buildings diagnostic** (`test_buildings_api.py`). `analyze_geojson` checks and summarises a GeoJSON FeatureCollection. It counts geometry types and features with a `gers_id`. `test_buildings_endpoint` classifies one request's outcome, and `color` wraps text in ANSI escapes.
- **The App Store Connect token script** (`scripts/app_store_connect_jwt.py`). It reads the key id from an `AuthKey_<id>.p8` file name. It chooses the key path and issuer id from the command line and the environment, with a missing key file reported before a missing issuer.
- **The session-image script** (`scripts/process_session_summary_image.py`). It tests whether a pixel is checkerboard grey, and runs an in-place pass that makes those pixels transparent.

Layout:

| file | module | models |
|---|---|---|
| `wrappers.dfy` | `Wrappers` | `Option`, `Result` |
| `text.dfy` | `Text` | Python's `str.strip` (the full Unicode whitespace set), `" ".join`, decimal rendering of integers |
| `pure_path.dfy` | `PurePath` | `PurePosixPath.name`, `.suffix` and `.stem` |
| `json.dfy` | `Json` | a value as `json.loads` returns it; `dict.get`, `in`, truthiness, hashability |
| `transcribe.dfy` | `Transcribe` | `get_model` as the class `EngineCache` over the module globals; `transcribe_file` |
| `transcribe_api.dfy` | `TranscribeApi` | `_require_api_key`; the `transcribe` handler and its temporary file (class `TempDir`) |
| `buildings.dfy` | `BuildingsDiagnostic` | `analyze_geojson`, `test_buildings_endpoint`, `color` |
| `app_store_jwt.dfy` | `AppStoreJwt` | `key_id_from_path` and the argument resolution in `main` |
| `session_image.dfy` | `SessionImage` | `is_checker_grey` and the transparency pass over the pixel buffer |

The model takes the following as inputs:

- **The engine.** Constructing an engine is a function from its configuration to the exception it raises, if any. Running it is a function from (configuration, audio path, language hint) to its output or an exception.
- **The environment.** `TRANSCRIBE_API_KEY`, `MAX_UPLOAD_BYTES`, `WHISPER_DEVICE`, `WHISPER_COMPUTE_TYPE` and `APP_STORE_CONNECT_ISSUER_ID` are parameters.
- **The file system.** It is a set of existing paths. File operations either succeed or raise, as an input says. The random part of the temporary file's name is an input too, and it must be fresh.
- **The HTTP request in the diagnostic.** It arrives as its status, its parsed body and its connection error.

The handler's temporary-file cleanup in `main.py` misses one exit path. The model proves the leak on the code as written, and the handler uses the corrected staging (see "## Findings").

## Model

| member | source | states |
|---|---|---|
| `Text.Strip` | backend/app/transcribe.py:73 | the result is the input with a blank prefix and a blank suffix cut off; it is empty exactly when the input is all whitespace, and otherwise starts and ends with a non-space |
| `Text.StripIdempotent` | backend/app/main.py:95 | stripping twice gives the same as stripping once |
| `Text.JoinBlank` | backend/app/transcribe.py:73 | the space-join of the segment texts is blank exactly when every segment text is blank |
| `Text.NatToString` | test_buildings_api.py:21-23 | a decimal rendering is non-empty, all digits, and has no leading zero |
| `Text.NatToStringRoundTrip` | test_buildings_api.py:21-23 | the decimal rendering of a number reads back as that number |
| `PurePath.Name` | backend/app/main.py:85 | a path's name contains no '/' and is never "." |
| `PurePath.NameIgnoresTrailingSeparator` | backend/app/main.py:85 | a trailing '/' does not change a path's name |
| `PurePath.NameIgnoresTrailingDot` | backend/app/main.py:85 | a trailing "." component does not change a path's name |
| `PurePath.NameOfSeparatorsOnly` | backend/app/main.py:85 | a path of separators alone, the empty path included, has no name |
| `PurePath.NameOfCurrentDirectory` | backend/app/main.py:85 | "." alone has no name, so with the trailing lemmas neither has "./" or "./." |
| `PurePath.NameOfFileInDirectory` | scripts/app_store_connect_jwt.py:35 | a file name after a directory prefix is the path's name |
| `PurePath.NameSuffix` | backend/app/main.py:85 | the suffix is non-empty exactly when the name has a last dot that is neither its first nor its last character; it is then the name's tail from that dot, a dot followed by at least one character and no further dot |
| `PurePath.NameStem` | scripts/app_store_connect_jwt.py:35 | stem followed by suffix gives back the name |
| `PurePath.SplitExtension` | backend/app/main.py:85 | `stem.ext` splits into stem `stem` and suffix `.ext` |
| `PurePath.StemOfFileInDirectory` | scripts/app_store_connect_jwt.py:35 | the stem of `dir/stem.ext` is `stem` |
| `Json.Get` | test_buildings_api.py:69-70 | `d.get(key)` finds a value exactly when a member has that key, and the value is that member's |
| `Transcribe.UnknownModel` | backend/app/transcribe.py:28-29 | an unknown model size raises `ValueError` whose message ends with the size in quotes |
| `Transcribe.OrElse` | backend/app/transcribe.py:31-35 | `x or fallback` yields `x` when it is a non-empty string and the fallback when it is None or empty |
| `Transcribe.ResolveDevice` | backend/app/transcribe.py:31 | an explicit non-empty device wins; otherwise WHISPER_DEVICE, whatever its value; otherwise "cpu" |
| `Transcribe.ResolveComputeType` | backend/app/transcribe.py:32-35 | an explicit non-empty compute type wins, then WHISPER_COMPUTE_TYPE; without either it is "float16" exactly on "cuda" and "int8" on any other device |
| `Transcribe.ResolveConfig` | backend/app/transcribe.py:28-35 | the triple is the model size, the resolved device, and the compute type resolved for that device |
| `Transcribe.Engine.constructor` | backend/app/transcribe.py:44-48 | an engine is built for exactly the configuration it is given |
| `Transcribe.Construct` | backend/app/transcribe.py:44-48 | construction raises what the loader raises, or returns a fresh engine for that configuration |
| `Transcribe.EngineCache.constructor` | backend/app/transcribe.py:13-17 | the process starts with an empty slot and nothing recorded |
| `Transcribe.EngineCache.GetModel` | backend/app/transcribe.py:20-52 | an unknown size raises ValueError and leaves the slot. A held engine whose triple matches is returned unchanged. Otherwise exactly one engine is built and recorded with its triple. A construction that raises leaves the slot as it was. The recorded triple always matches the held engine |
| `Transcribe.SegmentTexts` | backend/app/transcribe.py:73 | the texts exist exactly when every segment has one, and they are the segments' texts in order |
| `Transcribe.Duration` | backend/app/transcribe.py:74-77 | the duration is the engine's when reported, else the last segment's end, else 0.0 |
| `Transcribe.TimedSegments` | backend/app/transcribe.py:79-83 | one segment per engine segment, in order, with times copied and text stripped (a missing text counts as "") |
| `Transcribe.ShapeTranscript` | backend/app/transcribe.py:72-86 | succeeds exactly when every segment has a text, and otherwise raises a non-ValueError. The text is the stripped space-join, with no edge whitespace, and is empty exactly when every segment text is blank. Language, duration and segments follow the engine's output and the timestamps flag |
| `Transcribe.TimestampsOnlySelectSegments` | backend/app/transcribe.py:79-86 | the timestamps flag changes the segment list and nothing else |
| `Transcribe.TranscribeFile` | backend/app/transcribe.py:55-86 | the result is what acquiring the engine raises, then what inference raises, then the shaped output. The audio path must be a staged file. Afterwards the cache holds the requested engine, building exactly one when it did not hold it already, unless acquiring it raised; then, like an unknown model or an engine already held, the cache is untouched |
| `Transcribe.RepeatedRequestReuses` | backend/app/transcribe.py:37-52 | a second request for the same model gets the same engine, and the pair builds one engine when the cache did not hold it and none when it did |
| `TranscribeApi.RequireApiKey` | backend/app/main.py:40-44 | passes exactly when a key is configured and the header equals it; 500 when none is configured, 401 otherwise |
| `TranscribeApi.EarlyRejection` | backend/app/main.py:60-83 | every check passes exactly when the key matches, the model is allowed, the upload was read and it fits the limit. The first failing check decides the error: key, then model (400), then read (400), then size (413), whose detail is the limit in MiB |
| `TranscribeApi.TooLargeDetail` | backend/app/main.py:79-83 | the 413 detail reads "File too large (max N MB)" with the digits of the limit floored to whole MiB |
| `TranscribeApi.SanitizeSuffix` | backend/app/main.py:85-87 | the staged extension is always allowed, and it is the filename's suffix exactly when that suffix is allowed |
| `TranscribeApi.StagedExtensionOfFileName` | backend/app/main.py:85-87 | `name.ext` stages as `.ext` when allowed, compared case-sensitively, and as `.bin` otherwise |
| `TranscribeApi.MissingFilenameStagesAsBin` | backend/app/main.py:69-87 | an upload without a filename stages as `.bin` |
| `TranscribeApi.NormalizeLanguage` | backend/app/main.py:95 | the hint is None exactly for a missing or blank language, and otherwise is the stripped language, non-empty |
| `TranscribeApi.ShapeResponse` | backend/app/main.py:108-113 | the language is the detected one, or "en" when none or empty was detected; text, duration and segments are passed through |
| `TranscribeApi.ErrorReply` | backend/app/main.py:114-118 | a ValueError becomes 400 with its message; any other exception becomes 500 "Transcription failed" |
| `TranscribeApi.StageAsWrittenLeaks` | backend/app/main.py:89-124 | as written, a failing write leaves the staged file in place after the cleanup |
| `TranscribeApi.StageAsWritten` | backend/app/main.py:89-93 | as written, staging adds at most the staged path and records it only once the write has returned; on a fresh path the cleanup restores the directory exactly when the write did not fail |
| `TranscribeApi.Cleanup` | backend/app/main.py:119-124 | the cleanup removes nothing but the recorded path; it removes that path when removal succeeds and nothing when removal fails |
| `TranscribeApi.Stage` | backend/app/main.py:89-124 | unless creating the file fails, staging adds exactly the staged path and records it, even when the write or close then fails; so the cleanup restores the directory on every outcome. Staging fails exactly when an I/O step fails |
| `TranscribeApi.TempDir.constructor` | backend/app/main.py:91 | the directory starts with the given paths |
| `TranscribeApi.TempDir.Create` | backend/app/main.py:91 | the file exists afterwards unless creating it raised |
| `TranscribeApi.TempDir.WriteAndClose` | backend/app/main.py:91-92 | writing or closing raises as the I/O outcome says |
| `TranscribeApi.TempDir.Remove` | backend/app/main.py:120-124 | the path is gone unless unlinking raised, which is swallowed |
| `TranscribeApi.HandleTranscribe` | backend/app/main.py:52-124 | an early rejection touches neither the cache nor the directory. Past the checks, the reply is the staging failure, the engine's error mapped to HTTP, or the shaped transcript. The engine runs only on a file that exists. The cache then holds the requested engine unless acquiring it raised or staging failed, in which case it is untouched. The directory is restored unless the removal fails, and apart from the staged file it is exactly as before. The cache builds an engine only when it did not hold the requested one |
| `BuildingsDiagnostic.ShapeOf` | test_buildings_api.py:66-76 | a non-object gives "not a JSON object"; a missing or null `features` gives "missing", and any other non-list `features` gives "not an array", both with the collection's type. Otherwise the features list is analysed |
| `BuildingsDiagnostic.ScanKeysSucceeds` | test_buildings_api.py:101-103 | counting succeeds exactly when every feature is an object with a hashable geometry type, and yields one key per feature in order |
| `BuildingsDiagnostic.ScanFailurePersists` | test_buildings_api.py:101-103 | the first exception in the loop is the one `analyze_geojson` raises |
| `BuildingsDiagnostic.FirstNotObjectFails` | test_buildings_api.py:88-89 | a first feature that is not an object makes the analysis raise `AttributeError` |
| `BuildingsDiagnostic.BumpTotal` | test_buildings_api.py:103 | one increment adds one to the sum of the counts |
| `BuildingsDiagnostic.BumpCount` | test_buildings_api.py:103 | an increment adds one to its key's count and leaves every other key's count |
| `BuildingsDiagnostic.TallyTotal` | test_buildings_api.py:100-104 | the geometry counts sum to the number of features |
| `BuildingsDiagnostic.TallyCount` | test_buildings_api.py:100-104 | each geometry type is counted as often as it occurs |
| `BuildingsDiagnostic.CountGeometryTypes` | test_buildings_api.py:100-104 | the loop yields the counts of the features' keys, or the exception of the first bad feature |
| `BuildingsDiagnostic.GeometryCounts` | test_buildings_api.py:100-104 | the counts the loop produces sum to the feature count and give every key its number of occurrences |
| `BuildingsDiagnostic.DescribeFirst` | test_buildings_api.py:88-97 | `first_feature` holds the first feature's geometry type, `has_id`, `has_gers_id` (key present) and its first min(5, n) properties in order |
| `BuildingsDiagnostic.CountGers` | test_buildings_api.py:106-108 | the features with a truthy `gers_id` number at most all features, and all of them exactly when every feature has one |
| `BuildingsDiagnostic.AnalyzeGeojson` | test_buildings_api.py:64-113 | the malformed shapes give their error results. `feature_count` is the list length and `empty` holds exactly when it is 0. The details appear exactly for a non-empty list. The sample is the first feature, present exactly when verbose and non-empty. The function raises exactly when some feature is not an object or has an unhashable geometry type |
| `BuildingsDiagnostic.TestBuildingsEndpoint` | test_buildings_api.py:124-199 | the statuses are tried in order: connection error (non-empty message), 404, other non-200, unparsable body, invalid GeoJSON with its message, empty, then success with a positive feature count |
| `BuildingsDiagnostic.ColorRoundTrip` | test_buildings_api.py:21-31 | the text and the colour code can be read back from a coloured string |
| `BuildingsDiagnostic.Color` | test_buildings_api.py:21-23 | a coloured string starts with the colour escape and its digits, ends with the reset escape, and holds the text unchanged in between |
| `BuildingsDiagnostic.Red` | test_buildings_api.py:26 | the text reads back with colour code 91 |
| `BuildingsDiagnostic.Green` | test_buildings_api.py:27 | the text reads back with colour code 92 |
| `BuildingsDiagnostic.Yellow` | test_buildings_api.py:28 | the text reads back with colour code 93 |
| `BuildingsDiagnostic.Blue` | test_buildings_api.py:29 | the text reads back with colour code 94 |
| `BuildingsDiagnostic.Magenta` | test_buildings_api.py:30 | the text reads back with colour code 95 |
| `BuildingsDiagnostic.Cyan` | test_buildings_api.py:31 | the text reads back with colour code 96 |
| `AppStoreJwt.KeyIdFromPath` | scripts/app_store_connect_jwt.py:22-38 | the key id is never empty. It is either the default or what follows "AuthKey_" in the stem, and it is the latter whenever the stem is longer than that prefix |
| `AppStoreJwt.KeyIdRoundTrip` | scripts/app_store_connect_jwt.py:33-38 | `dir/AuthKey_<id>.p8` yields `<id>` for any id without '/' |
| `AppStoreJwt.KeyIdOfStem` | scripts/app_store_connect_jwt.py:35-37 | a stem `AuthKey_<id>` with non-empty id yields `<id>` |
| `AppStoreJwt.ResolveArguments` | scripts/app_store_connect_jwt.py:41-62 | the step-by-step reassignment of key path and issuer gives the case-by-case resolution |
| `AppStoreJwt.SignedExactlyWhenChecksPass` | scripts/app_store_connect_jwt.py:54-62 | a token is signed exactly when the chosen key file exists and the issuer is non-empty; every exit has code 1 |
| `AppStoreJwt.Resolution` | scripts/app_store_connect_jwt.py:54-62 | every exit has code 1; the key file is reported missing exactly when it does not exist, the issuer exactly when the key exists but the issuer is empty; a token is signed only with an existing key file and a non-empty issuer |
| `AppStoreJwt.KeyFileCheckedBeforeIssuer` | scripts/app_store_connect_jwt.py:54-62 | a missing key file is reported even when the issuer is missing too |
| `AppStoreJwt.NoArgumentsUseDefaults` | scripts/app_store_connect_jwt.py:43-52 | with no arguments the default key, its key id and the environment's issuer are used |
| `AppStoreJwt.SecondArgumentIsIssuer` | scripts/app_store_connect_jwt.py:43-47 | with two or more arguments the issuer is the second one, even if it is empty |
| `AppStoreJwt.SingleKeyFileArgument` | scripts/app_store_connect_jwt.py:43-52 | a lone `AuthKey_<id>.p8` argument that is not UUID-like gives that key path, `<id>` and the environment's issuer |
| `AppStoreJwt.UuidArgumentIsIssuer` | scripts/app_store_connect_jwt.py:44-50 | a lone 36-character argument containing '-' is the issuer and the key path falls back to the default. The key id was already read from that argument |
| `SessionImage.IsCheckerGrey` | scripts/process_session_summary_image.py:22-27 | alpha below 200 always counts. Otherwise a pixel counts exactly when its channel sum is between 75 and 360 and no two channels differ by more than 25 |
| `SessionImage.Cleared` | scripts/process_session_summary_image.py:42-44 | a checkerboard pixel gets alpha 0 with its colour kept; any other pixel is unchanged |
| `SessionImage.ClearedIdempotent` | scripts/process_session_summary_image.py:22-44 | clearing a cleared pixel changes nothing, and clearing keeps whether a pixel is checkerboard |
| `SessionImage.ClearCheckerboard` | scripts/process_session_summary_image.py:40-44 | every pixel becomes its cleared form, the dimensions are kept, and a second pass would change nothing |

## Left out

- The faster-whisper engine (construction, inference, VAD parameters): foreign code. It enters as the `Loader` and `Recognizer` function parameters.
- `threading.Lock` and concurrent requests: the engine cache is modelled as a sequential state machine.
- FastAPI plumbing: routing, form and header binding, `UploadFile.read`, the startup warm-up hook and `/health`. A request is a datatype whose `body` is None when reading raises, and a reply is a status and detail or a response.
- `Json.Get`: a member list with a repeated key resolves to the first member, whereas `json.loads` keeps the last; objects are taken with each key once, as `json.loads` leaves them, and the model does not enforce this.
- Real files: the temporary directory is a ghost set of paths. That `tempfile` picks a fresh name is a precondition of `HandleTranscribe`. The name's random part is an input.
- `TranscribeApi.ShapeResponse`: does not model `round(duration_sec, 2)`, because floating-point rounding is not modelled; the duration is passed through as a real.
- Floating point in general: times and durations are `real`. `is_checker_grey`'s average is an exact real division, and it agrees with the integer form that is proved.
- `Transcribe.UnknownModel`: the model name is rendered as `'name'`. Python's `repr` escaping of quotes and control characters is not modelled.
- `PurePath.Name`: path normalisation is modelled only for trailing '/' and "." components (what `name` reads). The suffix follows the rule Python applied before 3.14: a name ending in '.' has no suffix.
- Logging and printing (`print`, request ids, `perf_counter`, `print_header`, `print_section`, the roads endpoint and the summary), which do not affect results.
- The network and `json.loads` in the diagnostic: a request arrives as its status, its parsed body (None when it does not parse) and its error message. JSON objects are taken with unique keys, as `json.loads` leaves them.
- `BuildingsDiagnostic.CountGeometryTypes`: does not model Python's equal hashing of `true` and `1` (or `false` and `0`) as dict keys; JSON values are compared structurally.
- JWT signing in the App Store Connect script: reading the key file, `time.time()`, pyjwt's ES256 encoding and `sys.exit`. The launch decision is modelled as `Exit(code, reason)` or `Sign(key path, key id, issuer)`. `Path.home()` enters as the default key path parameter, and whether a file exists as a function parameter.
- `AppStoreJwt.ResolveArguments`: `Path(arg)` normalisation of the key path (such as collapsing "//") is not modelled; the path is kept as the string given.
- `scripts/generate_app_icon.py`: PIL drawing with float geometry and font probing; there is no logic there to state.
- The image script's PIL operations (open, convert, bounding-box crop, resize, paste, save) and its fit and logo arithmetic: only the transparency pass over the RGBA buffer is modelled.

## Findings

| source | as written | input that shows it | evidently intended | confidence | as-written member | corrected member |
|---|---|---|---|---|---|---|
| backend/app/main.py:89-93 | `tmp_path` is assigned only after `f.write(content)` returns, so the `finally` cleanup does not know the file when the write raises | an upload whose write fails once the file exists (for example a full disk, `OSError` ENOSPC) | record the path as soon as the temporary file exists, so the cleanup removes it on every exit path | high, not executed | `TranscribeApi.StageAsWrittenLeaks` | `TranscribeApi.Stage` |
