/** Python values as they cross the JSON boundary of the client: decoded
    replies from the server and the bodies of requests sent to it. */
module Json {

  /** A Python value. `Dict` is a JSON object, `List` a JSON array. `Bytes` is a
      Python bytes object (holding ASCII text); a JSON encoder refuses it.
      Floating-point numbers are not modelled. */
  datatype Value =
    | Null
    | Bool(b: bool)
    | Int(i: int)
    | Str(s: string)
    | Bytes(ascii: string)
    | List(items: seq<Value>)
    | Dict(fields: map<string, Value>)

  /** Python truthiness: `None`, `False`, `0`, and empty strings, bytes, lists
      and dicts are false; everything else is true. */
  predicate Truthy(v: Value) {
    match v
    case Null => false
    case Bool(b) => b
    case Int(i) => i != 0
    case Str(s) => s != ""
    case Bytes(a) => a != ""
    case List(items) => items != []
    case Dict(fields) => fields != map[]
  }

  /** `d.get(key, default)` */
  function Get(d: map<string, Value>, key: string, default: Value): Value {
    if key in d then d[key] else default
  }

  /** Python's `a or b`: the first operand when it is truthy, else the second. */
  function Or(a: Value, b: Value): (r: Value)
    ensures Truthy(r) <==> Truthy(a) || Truthy(b)
    ensures Truthy(a) ==> r == a
    ensures !Truthy(a) ==> r == b
  {
    if Truthy(a) then a else b
  }

  /** The values `json.dumps` accepts: everything except bytes, at any depth. */
  predicate Serializable(v: Value) {
    match v
    case Bytes(_) => false
    case List(items) => forall i :: 0 <= i < |items| ==> Serializable(items[i])
    case Dict(fields) => forall k :: k in fields ==> Serializable(fields[k])
    case _ => true
  }
}
