/** The first expression tree (src/expr.rs), which the first interpreter and
    the S-expression printer walk: five node kinds, with operator tokens and
    literal values of the first generation. */
module OldExpr {
  import opened LoxToken
  import opened Literal

  datatype Expr =
    | Binary(left: Expr, op: Token, right: Expr)
    | Unary(op: Token, right: Expr)
    | Grouping(expr: Expr)
    | Literal(value: LiteralValue)
    | Variable(name: Token)

  /** The number of nodes, a measure for walks that go through a list of
      children. */
  function Size(e: Expr): (n: nat)
    ensures n >= 1
  {
    match e
    case Binary(l, _, r) => 1 + Size(l) + Size(r)
    case Unary(_, r) => 1 + Size(r)
    case Grouping(inner) => 1 + Size(inner)
    case _ => 1
  }

  /** The nodes of a list of trees, at least one per tree. */
  function SizeAll(es: seq<Expr>): (n: nat)
    ensures n >= |es|
  {
    if es == [] then 0 else SizeAll(es[..|es| - 1]) + Size(es[|es| - 1])
  }

  /** A child of a list weighs no more than the list. */
  lemma {:induction false} SizeAllBound(es: seq<Expr>, i: nat)
    requires i < |es|
    ensures Size(es[i]) <= SizeAll(es)
    decreases |es|
  {
    if i < |es| - 1 {
      SizeAllBound(es[..|es| - 1], i);
      assert es[..|es| - 1][i] == es[i];
    }
  }
}
