/** A few JavaScript value rules the client depends on: truthiness, `Boolean(v)`, `v || d`
    and `parseInt(v)` applied to a value that is not necessarily a string. */
module Js {
  import opened Wrappers
  import opened Text

  /** A scalar JavaScript value as it sits in a form cell or a JSON field. */
  datatype Scalar = Undefined | Null | Str(s: string) | Num(n: int) | Bool(b: bool)

  /** JavaScript truthiness of a scalar. */
  predicate Truthy(v: Scalar) {
    match v
    case Undefined => false
    case Null => false
    case Str(s) => s != ""
    case Num(n) => n != 0
    case Bool(b) => b
  }

  /** Truthiness of an optional string (`null`/`undefined` or a string). */
  predicate Present(s: Option<string>) {
    s.Some? && s.value != ""
  }

  /** `a || b` for an optional string and a string fallback. */
  function OrText(a: Option<string>, b: string): string {
    if Present(a) then a.value else b
  }

  /** `String(v)`, the text `parseInt` reads. */
  function ToText(v: Scalar): string {
    match v
    case Undefined => "undefined"
    case Null => "null"
    case Str(s) => s
    case Num(n) => IntToString(n)
    case Bool(b) => if b then "true" else "false"
  }

  /** `parseInt(v)`; `None` is `NaN`. Stated by cases: `ParseIntOfScalar` shows it is
      `parseInt(String(v))`. */
  function ParseIntOf(v: Scalar): Option<int> {
    match v
    case Str(s) => ParseInt(s)
    case Num(n) => Some(n)
    case _ => None
  }

  /** `parseInt` reads the text `String(v)`: it gives back a number unchanged, and `NaN` for
      every non-numeric, non-text value. */
  lemma ParseIntOfScalar(v: Scalar)
    ensures ParseIntOf(v) == ParseInt(ToText(v))
  {
    match v
    case Num(n) => ParseIntOfIntToString(n);
    case Undefined => ParseIntOfWord("undefined");
    case Null => ParseIntOfWord("null");
    case Bool(b) => ParseIntOfWord(if b then "true" else "false");
    case Str(_) =>
  }

  /** `parseInt(v) || 0`: the integer read from `v`, with `NaN` (and `0`) giving 0. */
  function IntOrZero(v: Scalar): int {
    match ParseIntOf(v)
    case None => 0
    case Some(n) => n
  }
}
