/**
 * The Python values that flow through the JSON helpers: what `json.loads`
 * produces and what the response builders hand to the serialiser.
 * Lists and tuples are kept apart because `api_response` tells them apart.
 */
module PyValues {
  import opened Common

  datatype Value =
    | PNone
    | PBool(b: bool)
    | PInt(i: int)
    | PStr(s: string)
    | PList(elems: seq<Value>)
    | PTuple(elems: seq<Value>)
    | PDict(entries: map<string, Value>)

  /** Python truthiness: `None`, `False`, `0` and empty containers are false. */
  predicate Truthy(v: Value) {
    match v
    case PNone => false
    case PBool(b) => b
    case PInt(i) => i != 0
    case PStr(s) => s != ""
    case PList(xs) => xs != []
    case PTuple(xs) => xs != []
    case PDict(m) => m != map[]
  }

  /** The value reached by following `path` through nested dicts, if there is one. */
  function At(v: Value, path: seq<string>): Option<Value>
    decreases |path|
  {
    if path == [] then Some(v)
    else if v.PDict? && path[0] in v.entries then At(v.entries[path[0]], path[1..])
    else None
  }
}
