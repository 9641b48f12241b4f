/**
 * The JSON-shaped values that the tracker builds as `[String: Any]`
 * dictionaries, and the dictionary assignment it uses throughout.
 */
module Values {
  import opened Wrappers

  /** A value that can sit in the payload: a string, an integer, an array or a nested object. */
  datatype Json =
    | JString(str: string)
    | JInt(num: int)
    | JArray(items: seq<Json>)
    | JObject(fields: map<string, Json>)

  /** A Swift `[String]` stored as a payload value. */
  function StringArray(ss: seq<string>): (j: Json)
    ensures j.JArray? && |j.items| == |ss|
    ensures forall i :: 0 <= i < |ss| ==> j.items[i] == JString(ss[i])
  {
    JArray(seq(|ss|, i requires 0 <= i < |ss| => JString(ss[i])))
  }

  /** The value a Swift `as? [String]` cast accepts: an array whose items are all strings. */
  predicate IsStringArray(j: Json)
  {
    j.JArray? && forall i :: 0 <= i < |j.items| ==> j.items[i].JString?
  }

  /** A Swift `dict[key] as? [String]` that succeeds. */
  predicate HoldsStringArray(m: map<string, Json>, key: string)
  {
    key in m && IsStringArray(m[key])
  }

  /**
   * Swift's `dict[key] = value` where `value` is optional: a `nil` value
   * removes the key, any other value sets it.
   */
  function Assign<K(!new)>(m: map<K, Json>, key: K, value: Option<Json>): (r: map<K, Json>)
    ensures key in r <==> value.Some?
    ensures value.Some? ==> r[key] == value.value
    ensures forall k :: k != key ==> (k in r <==> k in m)
    ensures forall k :: k != key && k in m ==> r[k] == m[k]
  {
    match value
    case Some(v) => m[key := v]
    case None => m - {key}
  }
}
