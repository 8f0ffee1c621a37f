/** JSON values as Python's `json` module and the payload readers see them. */
module JsonValues {

  type Object = map<string, Json>

  /** `NonFinite` stands for the float values nan and +-inf, which arrive in memory but never in JSON text. */
  datatype Json =
    | Null
    | Bool(bit: bool)
    | Int(i: int)
    | Float(x: real)
    | NonFinite
    | Str(s: string)
    | Arr(items: seq<Json>)
    | Obj(fields: Object)

  /** No nan or infinity anywhere inside the value. */
  predicate Finite(j: Json) {
    match j
    case NonFinite => false
    case Arr(items) => forall i | 0 <= i < |items| :: Finite(items[i])
    case Obj(fields) => forall k | k in fields :: Finite(fields[k])
    case _ => true
  }
}
