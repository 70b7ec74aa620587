/**
 * The values `json.loads` produces, and Python's truthiness on them. The parser and
 * the serializer themselves are collaborators: every module that needs them takes
 * `parse: string -> Option<Json>` (`None` when `json.loads` raises) and
 * `dumps: Json -> string` as parameters.
 */
module JsonValue {
  import opened Wrappers

  datatype Json =
    | JNull
    | JBool(b: bool)
    | JInt(i: int)
    | JFloat(r: real)
    | JStr(s: string)
    | JArr(items: seq<Json>)
    | JObj(fields: map<string, Json>)

  /** The exception `json.loads` raises on text it cannot parse (its message is not modelled). */
  const DecodeFailure := Error(JsonDecodeError, "invalid JSON")

  /** `bool(v)` in Python. */
  predicate Truthy(v: Json) {
    match v
    case JNull => false
    case JBool(b) => b
    case JInt(i) => i != 0
    case JFloat(r) => r != 0.0
    case JStr(s) => s != ""
    case JArr(xs) => xs != []
    case JObj(m) => m != map[]
  }

  /** `d.get(key, default)` on a dict. */
  function Get(m: map<string, Json>, key: string, default: Json): (r: Json)
    ensures key in m ==> r == m[key]
    ensures key !in m ==> r == default
  {
    if key in m then m[key] else default
  }

  /** `d[key]` on a missing key. */
  function MissingKey(key: string): Error {
    Error(KeyError, "'" + key + "'")
  }

  /**
   * `v[key]` with a string key: the value of a dict that has the key; a dict without it
   * raises `KeyError`, and every other type raises `TypeError`.
   */
  function Subscript(v: Json, key: string): (r: Result<Json>)
    ensures v.JObj? && key in v.fields ==> r == Ok(v.fields[key])
    ensures v.JObj? && key !in v.fields ==> r == Err(MissingKey(key))
    ensures !v.JObj? ==> r.Err? && r.error.kind == TypeError
  {
    match v
    case JObj(m) => if key in m then Ok(m[key]) else Err(MissingKey(key))
    case JStr(_) => Err(Error(TypeError, "string indices must be integers, not 'str'"))
    case JArr(_) => Err(Error(TypeError, "list indices must be integers or slices, not str"))
    case JNull => Err(Error(TypeError, "'NoneType' object is not subscriptable"))
    case JBool(_) => Err(Error(TypeError, "'bool' object is not subscriptable"))
    case JInt(_) => Err(Error(TypeError, "'int' object is not subscriptable"))
    case JFloat(_) => Err(Error(TypeError, "'float' object is not subscriptable"))
  }

  /** A one-entry dict `{key: "text"}`, the shape of the core's error and fallback objects. */
  function Single(key: string, text: string): (r: Json)
    ensures r.JObj? && r.fields.Keys == {key} && r.fields[key] == JStr(text)
    ensures Truthy(r)
  {
    JObj(map[key := JStr(text)])
  }

  /** `int(v)` on a parsed JSON value; `None` where Python raises. */
  function ToInt(v: Json, parseInt: string -> Option<int>): (r: Option<int>)
    ensures v.JInt? ==> r == Some(v.i)
    ensures v.JNull? || v.JArr? || v.JObj? ==> r.None?
  {
    match v
    case JInt(i) => Some(i)
    case JBool(b) => Some(if b then 1 else 0)
    case JFloat(x) => Some(if x >= 0.0 then x.Floor else 0 - (0.0 - x).Floor)
    case JStr(s) => parseInt(s)
    case _ => None
  }
}
