/** The few PHP value semantics the client depends on. */
module Php {

  /** A PHP scalar as it can appear in an options array or a decoded JSON payload.
      Floats and nested arrays are not modelled. */
  datatype Scalar = Null | Bool(b: bool) | Int(i: int) | Str(s: string)

  /** PHP's `empty()` on a scalar: null, false, 0, "" and "0" are empty. */
  predicate Empty(v: Scalar) {
    match v
    case Null => true
    case Bool(b) => !b
    case Int(i) => i == 0
    case Str(s) => s == "" || s == "0"
  }

  /** PHP truthiness, as used by `if ($x)`, is the negation of `empty()`. */
  predicate Truthy(v: Scalar) {
    !Empty(v)
  }
}
