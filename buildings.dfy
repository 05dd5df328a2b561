/** The buildings-endpoint diagnostic: `analyze_geojson`, which checks and
    summarises a GeoJSON FeatureCollection (whose "features" member must
    be an array, section 3.3 of RFC 7946), the classification of one
    request's outcome in `test_buildings_endpoint`, and the ANSI `color`
    helper. The request itself is an input: its HTTP status, its body as
    parsed (None when the body is not JSON) and its connection error. */
module BuildingsDiagnostic {
  import opened Wrappers
  import opened Text
  import opened Json

  /** An exception escaping `analyze_geojson`: `.get` on a feature that is
      not an object (AttributeError), or a geometry type that cannot be a
      dict key (TypeError). */
  datatype Crash = AttributeError | TypeError

  /** The `first_feature` entry. */
  datatype FirstFeature = FirstFeature(geometryType: Json, hasId: bool, hasGersId: bool,
                                       sampleProperties: seq<(string, Json)>)

  /** The entries added for a non-empty collection. */
  datatype Details = Details(firstFeature: FirstFeature, geometryTypes: seq<(Json, nat)>,
                             featuresWithGersId: nat)

  /** The dict `analyze_geojson` returns: one of its three error forms, or
      the summary. */
  datatype Analysis =
    | NotAnObject
    | MissingFeatures(geojsonType: Json)
    | FeaturesNotArray(geojsonType: Json)
    | Summary(geojsonType: Json, featureCount: nat, empty: bool, details: Option<Details>,
              sampleFeature: Option<Json>)
  {
    /** The result carries an "error" key. */
    predicate IsError() {
      !Summary?
    }

    function ErrorMessage(): string
      requires IsError()
    {
      if NotAnObject? then "Response is not a JSON object"
      else if MissingFeatures? then "Missing 'features' array"
      else "'features' is not an array"
    }
  }

  /** `data.get('type', 'unknown')`. */
  function TypeOf(members: seq<(string, Json)>): Json {
    Get(members, "type").GetOr(JString("unknown"))
  }

  /** What the analysis sees before it counts anything. */
  datatype Shape = Rejected(analysis: Analysis) | Collection(geojsonType: Json, features: seq<Json>)

  /** A non-object is rejected on its own; a missing or null "features"
      and a "features" that is not a list are rejected together with the
      collection's type; otherwise the feature list is analysed. */
  function ShapeOf(data: Json): (r: Shape)
    ensures r.Rejected? ==> r.analysis.IsError()
    ensures !data.JObject? ==> r == Rejected(NotAnObject)
    ensures data.JObject? && (Get(data.members, "features").None? || Get(data.members, "features") == Some(JNull))
      ==> r == Rejected(MissingFeatures(TypeOf(data.members)))
    ensures data.JObject? && Get(data.members, "features").Some?
      && !(Get(data.members, "features").value.JNull? || Get(data.members, "features").value.JArray?)
      ==> r == Rejected(FeaturesNotArray(TypeOf(data.members)))
    ensures r.Rejected? && data.JObject? ==>
      (r.analysis.MissingFeatures? || r.analysis.FeaturesNotArray?) && r.analysis.geojsonType == TypeOf(data.members)
    ensures r.Collection? <==>
      data.JObject? && HasKey(data.members, "features") && Get(data.members, "features").value.JArray?
    ensures r.Collection? ==>
      r.features == Get(data.members, "features").value.items && r.geojsonType == TypeOf(data.members)
  {
    if !data.JObject? then Rejected(NotAnObject)
    else
      var t := TypeOf(data.members);
      match Get(data.members, "features")
      case None => Rejected(MissingFeatures(t))
      case Some(JNull) => Rejected(MissingFeatures(t))
      case Some(JArray(fs)) => Collection(t, fs)
      case Some(_) => Rejected(FeaturesNotArray(t))
  }

  /** A feature's geometry type: the geometry's "type" ("unknown" when it
      has none) when the geometry is an object, "none" otherwise. */
  function GeometryType(feature: seq<(string, Json)>): Json {
    match Get(feature, "geometry")
    case Some(JObject(geometry)) => Get(geometry, "type").GetOr(JString("unknown"))
    case _ => JString("none")
  }

  /** The key a feature is counted under, or the exception counting it raises. */
  function FeatureKey(f: Json): Result<Json, Crash> {
    if !f.JObject? then Failure(AttributeError)
    else
      var t := GeometryType(f.members);
      if Hashable(t) then Success(t) else Failure(TypeError)
  }

  /** The keys of the features in order, or the first exception. */
  function ScanKeys(features: seq<Json>): Result<seq<Json>, Crash>
    decreases |features|
  {
    if features == [] then Success([])
    else
      match ScanKeys(features[..|features| - 1])
      case Failure(e) => Failure(e)
      case Success(keys) =>
        match FeatureKey(features[|features| - 1])
        case Failure(e) => Failure(e)
        case Success(k) => Success(keys + [k])
  }

  /** Scanning succeeds exactly when every feature has a key, and then
      yields one key per feature, in order. */
  lemma {:induction false} ScanKeysSucceeds(features: seq<Json>)
    ensures ScanKeys(features).Success? <==> forall i :: 0 <= i < |features| ==> FeatureKey(features[i]).Success?
    ensures ScanKeys(features).Success? ==>
      && |ScanKeys(features).value| == |features|
      && forall i :: 0 <= i < |features| ==> ScanKeys(features).value[i] == FeatureKey(features[i]).value
    decreases |features|
  {
    if features != [] {
      var n := |features| - 1;
      ScanKeysSucceeds(features[..n]);
      assert forall i :: 0 <= i < n ==> features[..n][i] == features[i];
    }
  }

  /** Once a prefix of the features fails to scan, the whole list fails
      with the same exception. */
  lemma {:induction false} ScanFailurePersists(features: seq<Json>, n: nat)
    requires n <= |features| && ScanKeys(features[..n]).Failure?
    ensures ScanKeys(features) == ScanKeys(features[..n])
    decreases |features| - n
  {
    if n < |features| {
      var m := n + 1;
      assert features[..m][..n] == features[..n];
      ScanFailurePersists(features, m);
    } else {
      assert features[..n] == features;
    }
  }

  /** A first feature that is not an object stops the scan with
      `AttributeError`, whatever follows it. */
  lemma FirstNotObjectFails(features: seq<Json>)
    requires |features| > 0 && !features[0].JObject?
    ensures ScanKeys(features) == Failure(AttributeError)
  {
    assert features[..1][..0] == [];
    ScanFailurePersists(features, 1);
  }

  /** `geom_types[gt] = geom_types.get(gt, 0) + 1` on a dict kept as its
      (key, count) entries in insertion order. */
  function Bump(counts: seq<(Json, nat)>, key: Json): seq<(Json, nat)>
    decreases |counts|
  {
    if counts == [] then [(key, 1)]
    else if counts[0].0 == key then [(key, counts[0].1 + 1)] + counts[1..]
    else [counts[0]] + Bump(counts[1..], key)
  }

  /** The count recorded for `key` (`geom_types.get(key, 0)`). */
  function CountOf(counts: seq<(Json, nat)>, key: Json): nat
    decreases |counts|
  {
    if counts == [] then 0
    else if counts[0].0 == key then counts[0].1
    else CountOf(counts[1..], key)
  }

  /** The sum of the recorded counts. */
  function Total(counts: seq<(Json, nat)>): nat
    decreases |counts|
  {
    if counts == [] then 0 else counts[0].1 + Total(counts[1..])
  }

  /** The counts of the keys in order of first appearance. */
  function Tally(keys: seq<Json>): seq<(Json, nat)>
    decreases |keys|
  {
    if keys == [] then [] else Bump(Tally(keys[..|keys| - 1]), keys[|keys| - 1])
  }

  /** How often `key` occurs in `keys`. */
  function Occurrences(keys: seq<Json>, key: Json): nat
    decreases |keys|
  {
    if keys == [] then 0
    else Occurrences(keys[..|keys| - 1], key) + (if keys[|keys| - 1] == key then 1 else 0)
  }

  /** Recording one more key adds one to the total. */
  lemma {:induction false} BumpTotal(counts: seq<(Json, nat)>, key: Json)
    ensures Total(Bump(counts, key)) == Total(counts) + 1
    decreases |counts|
  {
    if counts != [] && counts[0].0 != key {
      BumpTotal(counts[1..], key);
      assert Bump(counts, key)[1..] == Bump(counts[1..], key);
    }
  }

  /** Recording `key` adds one to its count and leaves every other count. */
  lemma {:induction false} BumpCount(counts: seq<(Json, nat)>, key: Json, other: Json)
    ensures CountOf(Bump(counts, key), other) == CountOf(counts, other) + (if key == other then 1 else 0)
    decreases |counts|
  {
    if counts != [] && counts[0].0 != key {
      BumpCount(counts[1..], key, other);
      assert Bump(counts, key)[1..] == Bump(counts[1..], key);
    }
  }

  /** The counts sum to the number of keys: every feature is counted once. */
  lemma {:induction false} TallyTotal(keys: seq<Json>)
    ensures Total(Tally(keys)) == |keys|
    decreases |keys|
  {
    if keys != [] {
      TallyTotal(keys[..|keys| - 1]);
      BumpTotal(Tally(keys[..|keys| - 1]), keys[|keys| - 1]);
    }
  }

  /** Each key's count is the number of its occurrences. */
  lemma {:induction false} TallyCount(keys: seq<Json>, key: Json)
    ensures CountOf(Tally(keys), key) == Occurrences(keys, key)
    decreases |keys|
  {
    if keys != [] {
      TallyCount(keys[..|keys| - 1], key);
      BumpCount(Tally(keys[..|keys| - 1]), keys[|keys| - 1], key);
    }
  }

  /** The feature's "properties" when it is an object, {} otherwise. */
  function Properties(feature: seq<(string, Json)>): seq<(string, Json)> {
    match Get(feature, "properties")
    case Some(JObject(props)) => props
    case _ => []
  }

  /** The `first_feature` entry: its geometry type, whether it has an "id"
      member and a "gers_id" property (present, whatever its value), and
      its first properties, at most five of them, in order. */
  function DescribeFirst(first: seq<(string, Json)>): (r: FirstFeature)
    ensures r.geometryType == GeometryType(first)
    ensures r.hasId <==> HasKey(first, "id")
    ensures r.hasGersId <==> HasKey(Properties(first), "gers_id")
    ensures |r.sampleProperties| == if |Properties(first)| < 5 then |Properties(first)| else 5
    ensures r.sampleProperties == Properties(first)[..|r.sampleProperties|]
  {
    var props := Properties(first);
    FirstFeature(GeometryType(first), HasKey(first, "id"), HasKey(props, "gers_id"),
                 if |props| <= 5 then props else props[..5])
  }

  /** The feature has a "properties" object whose "gers_id" is truthy. */
  predicate HasGersId(f: Json) {
    f.JObject? &&
    match Get(f.members, "properties")
    case Some(JObject(props)) => Truthy(Get(props, "gers_id").GetOr(JNull))
    case _ => false
  }

  /** `features_with_gers_id`: how many features have a truthy "gers_id"
      property; never more than there are features. */
  function CountGers(features: seq<Json>): (n: nat)
    ensures n <= |features|
    ensures n == |features| <==> forall i :: 0 <= i < |features| ==> HasGersId(features[i])
    decreases |features|
  {
    if features == [] then 0
    else
      var rest := CountGers(features[1..]);
      assert forall i :: 1 <= i < |features| ==> features[i] == features[1..][i - 1];
      (if HasGersId(features[0]) then 1 else 0) + rest
  }

  /** The geometry-type loop of `analyze_geojson`: the counts of the
      features' keys, or the exception the first bad feature raises. */
  method CountGeometryTypes(fs: seq<Json>) returns (r: Result<seq<(Json, nat)>, Crash>)
    ensures r.Failure? <==> ScanKeys(fs).Failure?
    ensures r.Failure? ==> r.error == ScanKeys(fs).error
    ensures r.Success? ==> r.value == Tally(ScanKeys(fs).value)
  {
    var geomTypes: seq<(Json, nat)> := [];
    ghost var keys: seq<Json> := [];
    var i := 0;
    while i < |fs|
      invariant 0 <= i <= |fs|
      invariant ScanKeys(fs[..i]) == Success(keys)
      invariant geomTypes == Tally(keys)
    {
      var f := fs[i];
      assert fs[..i + 1][..i] == fs[..i];
      if !f.JObject? {
        ScanFailurePersists(fs, i + 1);
        return Failure(AttributeError);
      }
      var gt := GeometryType(f.members);
      if !Hashable(gt) {
        ScanFailurePersists(fs, i + 1);
        return Failure(TypeError);
      }
      assert (keys + [gt])[..|keys|] == keys;
      geomTypes := Bump(geomTypes, gt);
      keys := keys + [gt];
      i := i + 1;
    }
    assert fs[..i] == fs;
    return Success(geomTypes);
  }

  /** The geometry counts of a list that scans sum to its length and give
      each key the number of features carrying it. */
  lemma GeometryCounts(fs: seq<Json>)
    requires ScanKeys(fs).Success?
    ensures Total(Tally(ScanKeys(fs).value)) == |fs|
    ensures forall k :: CountOf(Tally(ScanKeys(fs).value), k) == Occurrences(ScanKeys(fs).value, k)
  {
    ScanKeysSucceeds(fs);
    TallyTotal(ScanKeys(fs).value);
    forall k ensures CountOf(Tally(ScanKeys(fs).value), k) == Occurrences(ScanKeys(fs).value, k) {
      TallyCount(ScanKeys(fs).value, k);
    }
  }

  /** `analyze_geojson`. The three malformed shapes give their error
      entries; otherwise the count of features is the length of the list,
      `empty` holds exactly for none, the first-feature, geometry-type and
      gers_id entries appear exactly for a non-empty list, and the sample
      feature is the first feature, given exactly when verbose and
      non-empty. A feature that is not an object, or an unhashable
      geometry type, raises; the result is an exception exactly when some
      feature does one of these. */
  method AnalyzeGeojson(data: Json, verbose: bool) returns (r: Result<Analysis, Crash>)
    ensures ShapeOf(data).Rejected? ==> r == Success(ShapeOf(data).analysis)
    ensures ShapeOf(data).Collection? ==>
      (r.Failure? <==> exists i :: 0 <= i < |ShapeOf(data).features| && FeatureKey(ShapeOf(data).features[i]).Failure?)
    ensures ShapeOf(data).Collection? && r.Failure? ==>
      ScanKeys(ShapeOf(data).features).Failure? && r.error == ScanKeys(ShapeOf(data).features).error
    ensures ShapeOf(data).Collection? && r.Success? ==>
      var fs := ShapeOf(data).features;
      && r.value.Summary?
      && r.value.geojsonType == ShapeOf(data).geojsonType
      && r.value.featureCount == |fs|
      && (r.value.empty <==> |fs| == 0)
      && (r.value.details.Some? <==> |fs| > 0)
      && (r.value.sampleFeature.Some? <==> verbose && |fs| > 0)
      && (r.value.sampleFeature.Some? ==> r.value.sampleFeature.value == fs[0])
    ensures ShapeOf(data).Collection? && r.Success? && r.value.Summary? && r.value.details.Some? ==>
      var fs := ShapeOf(data).features;
      var d := r.value.details.value;
      && fs[0].JObject? && d.firstFeature == DescribeFirst(fs[0].members)
      && ScanKeys(fs).Success? && d.geometryTypes == Tally(ScanKeys(fs).value)
      && d.featuresWithGersId == CountGers(fs)
  {
    if !data.JObject? {
      return Success(NotAnObject);
    }
    var geojsonType := Get(data.members, "type").GetOr(JString("unknown"));
    var features := Get(data.members, "features").GetOr(JNull);
    if features.JNull? {
      return Success(MissingFeatures(geojsonType));
    }
    if !features.JArray? {
      return Success(FeaturesNotArray(geojsonType));
    }
    var fs := features.items;
    assert ShapeOf(data) == Collection(geojsonType, fs);
    ScanKeysSucceeds(fs);
    var featureCount := |fs|;
    var details: Option<Details> := None;
    if featureCount > 0 {
      var first := fs[0];
      if !first.JObject? {
        FirstNotObjectFails(fs);
        return Failure(AttributeError);
      }
      var firstFeature := DescribeFirst(first.members);
      var geomTypes := CountGeometryTypes(fs);
      if geomTypes.Failure? {
        return Failure(geomTypes.error);
      }
      var gersCount := CountGers(fs);
      details := Some(Details(firstFeature, geomTypes.value, gersCount));
    }
    var sample := if verbose && featureCount > 0 then Some(fs[0]) else None;
    r := Success(Summary(geojsonType, featureCount, featureCount == 0, details, sample));
  }

  /** A request's outcome as `make_request` reports it: the HTTP status
      (0 when the connection failed), the body parsed as JSON (None when it
      does not parse) and the connection error, if any. */
  datatype Fetch = Fetch(status: int, parsed: Option<Json>, error: Option<string>)

  /** The dict `test_buildings_endpoint` returns. */
  datatype EndpointResult =
    | ConnectionError(error: string)
    | NotFound
    | UnexpectedStatus(httpStatus: int)
    | ParseError
    | InvalidGeojson(error: string)
    | Empty
    | Found(featureCount: nat)
  {
    /** Its "status" entry. */
    function Status(): string {
      match this
      case ConnectionError(_) => "error"
      case NotFound => "not_found"
      case UnexpectedStatus(_) => "error"
      case ParseError => "parse_error"
      case InvalidGeojson(_) => "invalid_geojson"
      case Empty => "empty"
      case Found(_) => "success"
    }
  }

  /** The connection failed with a non-empty error message. */
  predicate ConnectionFailed(fetch: Fetch) {
    fetch.error.Some? && fetch.error.value != ""
  }

  /** `test_buildings_endpoint` after the request: a connection error, then
      404, then any other non-200 status, then an unparsable body, then a
      body that is not a FeatureCollection, then an empty one, each end the
      test with its status; otherwise it succeeds with a positive count. */
  method TestBuildingsEndpoint(fetch: Fetch, verbose: bool) returns (r: Result<EndpointResult, Crash>)
    ensures ConnectionFailed(fetch) ==> r == Success(ConnectionError(fetch.error.value))
    ensures !ConnectionFailed(fetch) && fetch.status == 404 ==> r == Success(NotFound)
    ensures !ConnectionFailed(fetch) && fetch.status != 404 && fetch.status != 200
      ==> r == Success(UnexpectedStatus(fetch.status))
    ensures !ConnectionFailed(fetch) && fetch.status == 200 && fetch.parsed.None? ==> r == Success(ParseError)
    ensures !ConnectionFailed(fetch) && fetch.status == 200 && fetch.parsed.Some? ==>
      var shape := ShapeOf(fetch.parsed.value);
      && (shape.Rejected? ==> r == Success(InvalidGeojson(shape.analysis.ErrorMessage())))
      && (shape.Collection? ==>
            && (ScanKeys(shape.features).Failure? ==> r == Failure(ScanKeys(shape.features).error))
            && (ScanKeys(shape.features).Success? && shape.features == [] ==> r == Success(Empty))
            && (ScanKeys(shape.features).Success? && shape.features != [] ==>
                  r == Success(Found(|shape.features|))))
    ensures r.Success? && r.value.Found? ==> r.value.featureCount > 0
  {
    if ConnectionFailed(fetch) {
      return Success(ConnectionError(fetch.error.value));
    }
    if fetch.status == 404 {
      return Success(NotFound);
    }
    if fetch.status != 200 {
      return Success(UnexpectedStatus(fetch.status));
    }
    if fetch.parsed.None? {
      return Success(ParseError);
    }
    var data := fetch.parsed.value;
    var analysis := AnalyzeGeojson(data, verbose);
    if analysis.Failure? {
      return Failure(analysis.error);
    }
    var a := analysis.value;
    if a.IsError() {
      return Success(InvalidGeojson(a.ErrorMessage()));
    }
    ScanKeysSucceeds(ShapeOf(data).features);
    if a.empty {
      return Success(Empty);
    }
    r := Success(Found(a.featureCount));
  }

  /** The ANSI escape character. */
  const Esc: char := '\U{1b}'

  /** `color(text, code)`: `text` between the escape that selects colour
      `code` and the escape that resets it. */
  function Color(text: string, code: nat): (r: string)
    ensures |r| >= |text| + 7
    ensures r[..2] == [Esc, '['] && r[|r| - 4..] == [Esc, '[', '0', 'm']
    ensures r[|r| - 4 - |text|..|r| - 4] == text && r[|r| - 5 - |text|] == 'm'
    ensures forall k :: 2 <= k < |r| - 5 - |text| ==> IsDigit(r[k])
  {
    [Esc, '['] + NatToString(code) + "m" + text + [Esc, '[', '0', 'm']
  }

  function Red(text: string): (r: string)
    ensures Uncolor(r) == Some((text, 91))
  {
    ColorRoundTrip(text, 91);
    Color(text, 91)
  }
  function Green(text: string): (r: string)
    ensures Uncolor(r) == Some((text, 92))
  {
    ColorRoundTrip(text, 92);
    Color(text, 92)
  }
  function Yellow(text: string): (r: string)
    ensures Uncolor(r) == Some((text, 93))
  {
    ColorRoundTrip(text, 93);
    Color(text, 93)
  }
  function Blue(text: string): (r: string)
    ensures Uncolor(r) == Some((text, 94))
  {
    ColorRoundTrip(text, 94);
    Color(text, 94)
  }
  function Magenta(text: string): (r: string)
    ensures Uncolor(r) == Some((text, 95))
  {
    ColorRoundTrip(text, 95);
    Color(text, 95)
  }
  function Cyan(text: string): (r: string)
    ensures Uncolor(r) == Some((text, 96))
  {
    ColorRoundTrip(text, 96);
    Color(text, 96)
  }

  /** Reads a coloured string back into its text and colour code. */
  function Uncolor(s: string): Option<(string, nat)> {
    if |s| < 7 || s[..2] != [Esc, '['] || s[|s| - 4..] != [Esc, '[', '0', 'm'] then None
    else
      match IndexOf(s, 'm', 2)
      case None => None
      case Some(j) =>
        if j <= 2 || j + 1 > |s| - 4 || !(forall k :: 2 <= k < j ==> IsDigit(s[k])) then None
        else
          assert forall k :: 0 <= k < j - 2 ==> s[2..j][k] == s[k + 2];
          Some((s[j + 1..|s| - 4], DigitsValue(s[2..j])))
  }

  /** Colouring loses nothing: the text and the code can be read back. */
  lemma ColorRoundTrip(text: string, code: nat)
    ensures Uncolor(Color(text, code)) == Some((text, code))
  {
    var digits := NatToString(code);
    var s := Color(text, code);
    var j := 2 + |digits|;
    assert s[j] == 'm';
    assert forall k :: 2 <= k < j ==> s[k] == digits[k - 2];
    assert IndexOf(s, 'm', 2) == Some(j);
    assert s[2..j] == digits;
    assert s[j + 1..|s| - 4] == text;
    NatToStringRoundTrip(code);
  }
}
