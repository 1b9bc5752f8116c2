/** The JSON values the library keeps in its queue, state files and agent
    responses, with Python's truthiness. Objects are maps: key order is not kept. */
module Json {
  datatype Value =
    | Null
    | Bool(b: bool)
    | Int(i: int)
    | Real(r: real)
    | Str(s: string)
    | List(items: seq<Value>)
    | Object(fields: map<string, Value>)

  type Obj = map<string, Value>

  /** `bool(v)` in Python. */
  predicate Truthy(v: Value) {
    match v
    case Null => false
    case Bool(b) => b
    case Int(i) => i != 0
    case Real(r) => r != 0.0
    case Str(s) => s != []
    case List(items) => items != []
    case Object(fields) => fields != map[]
  }

  /** `d.get(key, default)`. */
  function Get(d: Obj, key: string, default: Value): Value {
    if key in d then d[key] else default
  }
}
