/**
 * Parsed JSON values, as json.loads returns them and json.dumps writes
 * them, with Python's dict.get on such a value. Floating-point numbers
 * are not represented.
 */
module Json {
  import opened Wrappers

  datatype JsonValue =
    | JNull
    | JBool(b: bool)
    | JNum(n: int)
    | JStr(s: string)
    | JArray(items: seq<JsonValue>)
    | JObject(fields: map<string, JsonValue>)

  /** The outcome of an attribute access in Python: a value, or an AttributeError. */
  datatype Access<+T> = Got(value: T) | Raises

  /** `v.get(key, default)`: only a dict has .get, anything else raises. */
  function GetOr(v: JsonValue, key: string, default: JsonValue): Access<JsonValue> {
    if !v.JObject? then Raises
    else if key in v.fields then Got(v.fields[key])
    else Got(default)
  }

  /** `v.get(key)`: None for a missing key. */
  function GetOpt(v: JsonValue, key: string): Access<Option<JsonValue>> {
    if !v.JObject? then Raises
    else if key in v.fields then Got(Some(v.fields[key]))
    else Got(None)
  }

  /** Python truthiness of an optional string: present and non-empty. */
  predicate Truthy(o: Option<string>) {
    o.Some? && o.value != ""
  }

  /** An optional string as json.dumps writes it: a string or null. */
  function OptStr(o: Option<string>): JsonValue {
    if o.Some? then JStr(o.value) else JNull
  }
}
