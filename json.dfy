/**
 * Decoded JSON as the drivers use it: values compared with `==`, tested for truth
 * with Python's `if v:`, and fields read from an object with `dict.get`.
 */
module Json {
  import opened Common

  /** A decoded JSON value; arrays and objects are kept only as their size. */
  datatype JsonValue =
    | JNull
    | JBool(b: bool)
    | JNum(n: int)
    | JStr(s: string)
    | JCompound(size: nat)

  /** Python's truth test on a decoded value. */
  predicate Truthy(v: JsonValue) {
    match v
    case JNull => false
    case JBool(b) => b
    case JNum(n) => n != 0
    case JStr(s) => s != ""
    case JCompound(size) => size > 0
  }

  /** A decoded JSON object. */
  type Obj = map<string, JsonValue>

  /** Python's `obj.get(key, default)`. */
  function Get(o: Obj, key: string, default: JsonValue): (v: JsonValue)
    ensures key in o ==> v == o[key]
    ensures key !in o ==> v == default
  {
    if key in o then o[key] else default
  }

  /** The string a decoded value equals, when it is a non-empty string (usable as a report key). */
  function AsId(v: JsonValue): (r: Option<string>)
    ensures r.Some? <==> v.JStr? && v.s != ""
    ensures r.Some? ==> Truthy(v) && v == JStr(r.value)
  {
    if v.JStr? && v.s != "" then Some(v.s) else None
  }

  /**
   * What one `flow transactions send ... --output json` call gives back: the exit code,
   * both output streams, and `json.loads(stdout)` (`None` when stdout is not JSON).
   */
  datatype CliOutput = CliOutput(code: int, stdout: string, stderr: string, json: Option<Obj>)

  /** The output a call hands back: raw CLI text, or `str(error)` of a JSON error value. */
  datatype Message = Raw(text: string) | ErrorValue(error: JsonValue)
}
