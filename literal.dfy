/** Runtime values of the first interpreter generation (src/literal.rs):
    strings, numbers, nil and booleans. */
module Literal {

  datatype LiteralValue = Str(s: string) | Num(n: real) | Nil | Bool(b: bool)

  /** `nil` and `false` are falsy, everything else is truthy. */
  predicate IsTruthy(v: LiteralValue) {
    match v
    case Nil => false
    case Bool(b) => b
    case _ => true
  }

  /** Truthiness depends on nothing but the variant and a boolean payload:
      every string (even empty) and every number (even 0) is truthy. */
  lemma TruthyCases(v: LiteralValue)
    ensures IsTruthy(v) <==> !(v.Nil? || v == Bool(false))
    ensures v.Str? || v.Num? ==> IsTruthy(v)
    ensures v.Bool? ==> IsTruthy(v) == v.b
  {
  }

  /** `Display`. Number formatting (`to_string` with a trailing `.0`
      trimmed) is floating-point text the model takes from `showNum`. */
  function Display(v: LiteralValue, showNum: real -> string): (s: string)
    ensures v.Str? ==> s == v.s
    ensures v.Nil? ==> s == "nil"
    ensures v.Bool? ==> s == (if v.b then "true" else "false")
    ensures v.Num? ==> s == showNum(v.n)
  {
    match v
    case Str(s) => s
    case Num(n) => showNum(n)
    case Nil => "nil"
    case Bool(b) => if b then "true" else "false"
  }
}
