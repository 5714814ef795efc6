/** JSON values as the pipeline's Python code sees them after `json.loads`, and the dict helpers it uses on them. */
module Json {
  import opened Wrappers

  datatype Json =
    | JNull
    | JBool(b: bool)
    | JNum(n: real)
    | JStr(s: string)
    | JArr(items: seq<Json>)
    | JObj(fields: map<string, Json>)

  /** `d.get(key)` on a dict; any other value has no fields. */
  function Get(j: Json, key: string): Option<Json> {
    if j.JObj? && key in j.fields then Some(j.fields[key]) else None
  }

  /** `d.get(key, default)`. */
  function GetOr(j: Json, key: string, default: Json): Json {
    Get(j, key).GetOr(default)
  }

  /** Python truthiness of a JSON value. */
  predicate Truthy(j: Json) {
    match j
    case JNull => false
    case JBool(b) => b
    case JNum(n) => n != 0.0
    case JStr(s) => s != []
    case JArr(a) => a != []
    case JObj(m) => m != map[]
  }

  /**
   * Python's `float(x)`: numbers and booleans convert, strings go through
   * `parseReal` (Python's float parser, not modelled), anything else is a TypeError.
   */
  function ToFloat(j: Json, parseReal: string -> Option<real>): Result<real, string> {
    match j
    case JNum(n) => Ok(n)
    case JBool(b) => Ok(if b then 1.0 else 0.0)
    case JStr(s) =>
      (match parseReal(s)
       case Some(x) => Ok(x)
       case None => Err("ValueError: could not convert string to float"))
    case _ => Err("TypeError: float() argument must be a string or a number")
  }

  /** `d[key]`: a missing key is a KeyError, a value that is not a dict a TypeError. */
  function Field(j: Json, key: string): Result<Json, string> {
    if !j.JObj? then Err("TypeError: not subscriptable by a string")
    else if key in j.fields then Ok(j.fields[key])
    else Err("KeyError: " + key)
  }

  /** `xs[i]` for a non-negative index. */
  function Item(j: Json, i: nat): Result<Json, string> {
    if !j.JArr? then Err("TypeError: not subscriptable by an integer")
    else if i < |j.items| then Ok(j.items[i])
    else Err("IndexError: list index out of range")
  }

  /** A value used where the code calls a string method on it. */
  function AsString(j: Json): Result<string, string> {
    if j.JStr? then Ok(j.s) else Err("AttributeError: not a string")
  }

  /** `d.get(key, default)` where `d` must be a dict: on anything else the call is an AttributeError. */
  function DictGet(j: Json, key: string, default: Json): Result<Json, string> {
    if !j.JObj? then Err("AttributeError: no attribute 'get'")
    else if key in j.fields then Ok(j.fields[key])
    else Ok(default)
  }
}
