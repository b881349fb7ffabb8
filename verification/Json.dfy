/** JSON values and the dictionary accesses the program makes on them. */
module Json {

  datatype Value =
    | Null
    | Bool(flag: bool)
    | Int(number: int)
    | Real(fraction: real)
    | Str(text: string)
    | Arr(items: seq<Value>)
    | Obj(fields: map<string, Value>)

  type Fields = map<string, Value>

  datatype Option<+T> = None | Some(value: T)

  /** `d.get(key)` on a dictionary: an absent key reads as null. */
  function Get(fields: map<string, Value>, key: string): Value {
    GetOr(fields, key, Null)
  }

  /** `d.get(key, fallback)`. */
  function GetOr(fields: map<string, Value>, key: string, fallback: Value): Value {
    if key in fields then fields[key] else fallback
  }

  /** Python truthiness. */
  predicate Truthy(v: Value) {
    match v
    case Null => false
    case Bool(b) => b
    case Int(n) => n != 0
    case Real(x) => x != 0.0
    case Str(s) => s != ""
    case Arr(items) => items != []
    case Obj(fields) => fields != map[]
  }
}
