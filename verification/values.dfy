/** Values exchanged with the adaptor's peers: JSON scalars and Python's reading of them. */
module Values {

  datatype Option<+T> = None | Some(value: T)

  /** A JSON scalar as it arrives in a message field (the peers are dynamically typed). */
  datatype Scalar = Null | BoolVal(b: bool) | IntVal(i: int) | StrVal(s: string)

  /** Python's truth value of a scalar, as used by `if v:`. */
  predicate Truthy(v: Scalar) {
    match v
    case Null => false
    case BoolVal(b) => b
    case IntVal(i) => i != 0
    case StrVal(s) => s != ""
  }

  /** Python's `v == n` for an integer `n`: a bool compares as 0 or 1, a string or null never equals it. */
  predicate EqualsInt(v: Scalar, n: int) {
    match v
    case IntVal(i) => i == n
    case BoolVal(b) => (if b then 1 else 0) == n
    case _ => false
  }
}
