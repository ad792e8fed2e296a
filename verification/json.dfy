/** The values `json.loads` produces, and Python's truthiness test on them. */
module Json {

  /** A decoded JSON document: Python's None, bool, int, float, str, list and dict. */
  datatype Json =
    | Null
    | Bool(b: bool)
    | Int(i: int)
    | Float(f: real)
    | Str(s: string)
    | Arr(items: seq<Json>)
    | Obj(fields: map<string, Json>)

  /** What `if value:` decides in Python: exactly `None`, `False`, the zeros and the empty
      string, list and dict are false. */
  predicate Truthy(j: Json): (b: bool)
    ensures !b <==> j in {Null, Bool(false), Int(0), Float(0.0), Str(""), Arr([]), Obj(map[])}
  {
    match j
    case Null => false
    case Bool(b) => b
    case Int(i) => i != 0
    case Float(f) => f != 0.0
    case Str(s) => s != ""
    case Arr(items) => items != []
    case Obj(fields) => fields != map[]
  }
}
