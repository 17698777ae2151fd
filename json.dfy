/** Decoded JSON values as the Python `json` module hands them to the sync
    script, together with the two pieces of Python semantics the row mapping
    relies on: truthiness (used by `or`) and `dict.get`. */
module Json {

  /** A decoded JSON value: None, bool, int, float, str, list or dict. */
  datatype Value =
    | Null
    | Bool(b: bool)
    | Int(i: int)
    | Float(r: real)
    | Str(s: string)
    | Arr(items: seq<Value>)
    | Obj(fields: map<string, Value>)

  /** Python truthiness of a decoded value: None, False, 0, 0.0, "" and the
      empty list and dict are falsy, everything else is truthy. */
  predicate Truthy(v: Value)
  {
    match v
    case Null => false
    case Bool(b) => b
    case Int(i) => i != 0
    case Float(r) => r != 0.0
    case Str(s) => s != ""
    case Arr(items) => items != []
    case Obj(fields) => fields != map[]
  }

  /** `d.get(key, default)`: the stored value when the key is present, even
      a falsy one; the default only when the key is absent. */
  function GetOr(d: map<string, Value>, key: string, default: Value): (v: Value)
    ensures key in d ==> v == d[key]
    ensures key !in d ==> v == default
  {
    if key in d then d[key] else default
  }

  /** `d.get(key)`: as `GetOr` with the default None. */
  function Get(d: map<string, Value>, key: string): (v: Value)
    ensures key in d ==> v == d[key]
    ensures key !in d ==> v == Null
  {
    GetOr(d, key, Null)
  }

  /** Python `a or b`: `a` itself when it is truthy, otherwise `b`
      (which is returned as is, falsy or not). */
  function Or(a: Value, b: Value): (v: Value)
    ensures Truthy(a) ==> v == a
    ensures !Truthy(a) ==> v == b
  {
    if Truthy(a) then a else b
  }
}
