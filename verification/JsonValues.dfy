/** JSON values as Python's `json` module hands them to the code. */
module JsonValues {
  datatype Json =
    | Null
    | Bool(b: bool)
    | Int(n: int)
    | Float(x: real)
    | Str(s: string)
    | Arr(items: seq<Json>)
    | Obj(fields: map<string, Json>)

  /** `d.get(key)`: a missing key and an explicit null both give None. */
  function Get(fields: map<string, Json>, key: string): Json {
    if key in fields then fields[key] else Null
  }

  /** `d.get(key, fallback)`: the fallback is used for a missing key only. */
  function GetOr(fields: map<string, Json>, key: string, fallback: Json): Json {
    if key in fields then fields[key] else fallback
  }

  /** `isinstance(value, int)`: Python's bool is a subclass of int. */
  predicate IsInt(value: Json) {
    value.Int? || value.Bool?
  }

  /** `bool(value)`. */
  predicate Truthy(value: Json) {
    match value
    case Null => false
    case Bool(b) => b
    case Int(n) => n != 0
    case Float(x) => x != 0.0
    case Str(s) => s != ""
    case Arr(items) => items != []
    case Obj(fields) => fields != map[]
  }
}
