/**
 * JSON-like values: the contents of the configuration file, the work items
 * returned by `get_data`, keyword-argument contexts and hook results.
 */
module Json {

  datatype Value =
    | Null
    | Bool(b: bool)
    | Int(i: int)
    | Str(s: string)
    | Arr(items: seq<Value>)
    | Obj(members: map<string, Value>)

  /** Python truthiness: `None`, `False`, `0`, `""`, `[]` and `{}` are false. */
  predicate Truthy(v: Value) {
    match v
    case Null => false
    case Bool(b) => b
    case Int(i) => i != 0
    case Str(s) => s != ""
    case Arr(items) => items != []
    case Obj(members) => members != map[]
  }

  /** A dict lookup with a fallback: the value under `k`, or `default` when `k` is absent. */
  function DictGet(d: map<string, Value>, k: string, default: Value): Value {
    if k in d then d[k] else default
  }
}
