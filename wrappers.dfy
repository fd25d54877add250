// Shared value types: optional values, results that carry an error message in
// place of a Python exception, and a model of the values that YAML and JSON
// documents (and Python dicts built from them) hold.
module Wrappers {

  datatype Option<T> = None | Some(value: T)
  {
    function GetOr(default: T): T
    {
      match this
      case None => default
      case Some(v) => v
    }
  }

  /** A computation that either yields a value or fails the way the Python code
      raises or returns an error (the message names what was rejected). */
  datatype Result<T> = Ok(value: T) | Err(error: string)

  /** A parsed YAML/JSON value.  Python dicts become maps (key order is not
      modelled where it cannot influence a result); lists keep their order. */
  datatype Json =
    | JNull
    | JBool(b: bool)
    | JInt(i: int)
    | JReal(r: real)
    | JStr(s: string)
    | JList(items: seq<Json>)
    | JObj(fields: map<string, Json>)

  /** Python truthiness of a value. */
  predicate Truthy(j: Json)
  {
    match j
    case JNull => false
    case JBool(b) => b
    case JInt(i) => i != 0
    case JReal(r) => r != 0.0
    case JStr(s) => s != []
    case JList(items) => items != []
    case JObj(fields) => fields != map[]
  }

  /** `d.get(key)` for a dict: the stored value, or Python None when absent. */
  function Get(m: map<string, Json>, key: string): (r: Json)
    ensures key !in m ==> r == JNull
    ensures key in m ==> r == m[key]
  {
    if key in m then m[key] else JNull
  }
}
