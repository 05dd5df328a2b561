/** A JSON value as `json.loads` hands it to Python: objects keep their
    members in order. `json.loads` keeps one member per key; objects here
    are taken to have each key once, which nothing below enforces. */
module Json {
  import opened Wrappers

  datatype Json =
    | JNull
    | JBool(b: bool)
    | JNumber(n: real)
    | JString(s: string)
    | JArray(items: seq<Json>)
    | JObject(members: seq<(string, Json)>)

  /** `d.get(key)`: the value of the member named `key`, if there is one. */
  function Get(members: seq<(string, Json)>, key: string): (r: Option<Json>)
    ensures r.Some? <==> exists i :: 0 <= i < |members| && members[i].0 == key
    ensures r.Some? ==> exists i :: 0 <= i < |members| && members[i] == (key, r.value)
    decreases |members|
  {
    if members == [] then None
    else if members[0].0 == key then Some(members[0].1)
    else
      var r := Get(members[1..], key);
      assert forall i :: 1 <= i < |members| ==> members[i] == members[1..][i - 1];
      r
  }

  /** `key in d`. */
  predicate HasKey(members: seq<(string, Json)>, key: string) {
    Get(members, key).Some?
  }

  /** Python truthiness of a parsed value: null, false, zero and empty
      strings, lists and objects are falsy. */
  predicate Truthy(j: Json) {
    match j
    case JNull => false
    case JBool(b) => b
    case JNumber(n) => n != 0.0
    case JString(s) => s != ""
    case JArray(items) => items != []
    case JObject(members) => members != []
  }

  /** Whether the value can be a dict key: lists and dicts cannot. */
  predicate Hashable(j: Json) {
    !j.JArray? && !j.JObject?
  }
}
