/** The shape of the Python objects that YAML and JSON loading produce. */
module Values {

  /** A dynamically typed Python value; mappings are keyed by strings. */
  datatype Value =
    | Null
    | Bool(b: bool)
    | Int(i: int)
    | Float(f: real)
    | Str(s: string)
    | List(items: seq<Value>)
    | Dict(entries: map<string, Value>)

  /** Python truthiness: `None`, `False`, zero and empty containers are false. */
  predicate Truthy(v: Value) {
    match v
    case Null => false
    case Bool(b) => b
    case Int(i) => i != 0
    case Float(f) => f != 0.0
    case Str(s) => |s| > 0
    case List(items) => |items| > 0
    case Dict(entries) => |entries| > 0
  }

  /** `d.get(k)`: the stored value, or `None` when the key is absent. */
  function Lookup(m: map<string, Value>, k: string): (v: Value)
    ensures k !in m ==> v == Null
    ensures k in m ==> v == m[k]
  {
    if k in m then m[k] else Null
  }
}
