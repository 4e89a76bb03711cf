/** JSON values as JavaScript sees them, and the small helpers the rule engine needs. */
module Json {

  datatype Option<+T> = None | Some(value: T)

  /** A JavaScript number. JSON text such as 1e999 parses to Infinity, so all four shapes matter. */
  datatype Number = Finite(value: real) | PosInfinity | NegInfinity | NaN

  datatype Json =
    | Null
    | Bool(b: bool)
    | Num(n: Number)
    | Str(s: string)
    | Arr(items: seq<Json>)
    | Obj(fields: map<string, Json>)

  /** The property read value.key of an object; None is JavaScript's undefined. */
  function Get(v: Json, key: string): (r: Option<Json>)
  {
    if v.Obj? && key in v.fields then Some(v.fields[key]) else None
  }

  /** actual >= expected with JavaScript's treatment of the infinities and NaN. */
  predicate AtLeast(actual: int, expected: Number) {
    match expected
    case Finite(r) => actual as real >= r
    case PosInfinity => false
    case NegInfinity => true
    case NaN => false
  }
}
