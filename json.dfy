/**
  Parsed JSON values as `JSONSerialization` produces them, and the
  conditional casts (`as? String`, `as? [String: Any]`, ...) the lock client
  applies to them.
 */
module Json {
  import opened Wrappers

  datatype Json =
    | JNull
    | JBool(b: bool)
    | JNumber(n: real)
    | JString(s: string)
    | JArray(items: seq<Json>)
    | JObject(fields: map<string, Json>)

  /** `value as? [String: Any]` */
  function AsObject(j: Json): (r: Option<map<string, Json>>)
    ensures r.Some? <==> j.JObject?
    ensures r.Some? ==> j == JObject(r.value)
  {
    if j.JObject? then Some(j.fields) else None
  }

  /** `value as? String` */
  function AsString(j: Json): (r: Option<string>)
    ensures r.Some? <==> j.JString?
    ensures r.Some? ==> j == JString(r.value)
  {
    if j.JString? then Some(j.s) else None
  }

  /** `value as? Bool` */
  function AsBool(j: Json): (r: Option<bool>)
    ensures r.Some? <==> j.JBool?
    ensures r.Some? ==> j == JBool(r.value)
  {
    if j.JBool? then Some(j.b) else None
  }

  /** `object[key]`, which is nil for a missing key. */
  function Member(obj: map<string, Json>, key: string): (r: Option<Json>)
    ensures r.Some? <==> key in obj
    ensures r.Some? ==> obj[key] == r.value
  {
    if key in obj then Some(obj[key]) else None
  }

  /** `value as? [[String: Any]]`: the cast succeeds only for an array every
      one of whose elements is an object. */
  function AsObjectArray(j: Json): (r: Option<seq<map<string, Json>>>)
    ensures r.Some? <==> j.JArray? && forall i :: 0 <= i < |j.items| ==> j.items[i].JObject?
    ensures r.Some? ==> |r.value| == |j.items| && forall i :: 0 <= i < |r.value| ==> j.items[i] == JObject(r.value[i])
  {
    if j.JArray? && forall i :: 0 <= i < |j.items| ==> j.items[i].JObject? then
      Some(seq(|j.items|, i requires 0 <= i < |j.items| => j.items[i].fields))
    else
      None
  }
}
