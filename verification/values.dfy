/** JavaScript values as the access layer sees them: the payloads of documents,
    the operands of filters and cursors, and the truthiness tests the layer
    uses to decide which options are present. */
module Values {

  /** A JavaScript value. Numbers are integers here (floating point, and so
      NaN, is not modelled); `ServerTimestamp` is the backend's opaque
      "set the time on the server" sentinel. */
  datatype Value =
    | Undefined
    | Null
    | Bool(b: bool)
    | Num(n: int)
    | Str(s: string)
    | Arr(items: seq<Value>)
    | Obj(fields: map<string, Value>)
    | ServerTimestamp

  /** An optional value; `None` stands for an absent option or reference. */
  datatype Option<+T> = None | Some(value: T)

  /** A plain object used as document data: field name to value. */
  type Record = map<string, Value>

  /** JavaScript truthiness: `undefined`, `null`, `false`, `0` and `""` are
      falsy; every object and array (even an empty one) is truthy. */
  predicate Truthy(v: Value)
  {
    match v
    case Undefined => false
    case Null => false
    case Bool(b) => b
    case Num(n) => n != 0
    case Str(s) => s != ""
    case _ => true
  }

  /** Reading `r[key]` (or `r.key`): a missing own field reads as `undefined`. */
  function Property(r: Record, key: string): Value
  {
    if key in r then r[key] else Undefined
  }
}
