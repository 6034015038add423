/**
 * The decoded form of a content payload, and the two library services the
 * parser relies on but whose behaviour is not part of this model: the JSON
 * decoder and Python's `str()` rendering of non-string values.
 */
module Json {
  import opened Wrappers

  /** A decoded JSON value, as `json.loads` hands it back (objects are dicts with string keys). */
  datatype Json =
    | JNull
    | JBool(b: bool)
    | JInt(i: int)
    | JFloat(f: real)
    | JStr(s: string)
    | JArr(items: seq<Json>)
    | JObj(fields: map<string, Json>)

  /**
   * The foreign services: `decode` is `json.loads` (None when it raises a
   * decode error) and `render` is `str()` on a value that is not a string.
   */
  datatype JsonRuntime = JsonRuntime(decode: string -> Option<Json>, render: Json -> string)

  /** `str(v)`: a string is kept as it is; every other value is rendered by the runtime. */
  function ToStr(v: Json, render: Json -> string): (r: string)
    ensures v.JStr? ==> r == v.s
    ensures !v.JStr? ==> r == render(v)
  {
    match v
    case JStr(s) => s
    case _ => render(v)
  }
}
