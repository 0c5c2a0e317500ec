/** The S-expression printer of the first expression tree
    (src/ast_printer.rs). Number formatting is floating-point text, taken
    from `showNum`. The printer has no case for variables, so only trees
    without them can be printed. */
module AstPrinter {
  import opened LoxToken
  import opened Literal
  import opened OldExpr

  /** The trees the printer handles: it implements no `visit_var_expr`. */
  predicate NoVariables(e: Expr) {
    match e
    case Binary(l, _, r) => NoVariables(l) && NoVariables(r)
    case Unary(_, r) => NoVariables(r)
    case Grouping(inner) => NoVariables(inner)
    case Literal(_) => true
    case Variable(_) => false
  }

  /** Each part preceded by one space. */
  function Spaced(parts: seq<string>): (s: string)
    ensures |s| == SpacedLength(parts)
  {
    if parts == [] then "" else Spaced(parts[..|parts| - 1]) + " " + parts[|parts| - 1]
  }

  function SpacedLength(parts: seq<string>): nat {
    if parts == [] then 0 else SpacedLength(parts[..|parts| - 1]) + 1 + |parts[|parts| - 1]|
  }

  /** What `parenthesize` builds: `(`, the name, a space before each part,
      then `)`. */
  function Parenthesized(name: string, parts: seq<string>): (s: string)
    ensures |s| == |name| + 2 + SpacedLength(parts)
    ensures s[..|name| + 1] == "(" + name && s[|s| - 1] == ')'
  {
    "(" + name + Spaced(parts) + ")"
  }

  /** `visit_literal_expr`: strings in double quotes with no escaping. */
  function ShowLiteral(v: LiteralValue, showNum: real -> string): (s: string)
    ensures v.Str? ==> |s| == |v.s| + 2 && s[0] == '"' && s[|s| - 1] == '"' && s[1..|s| - 1] == v.s
    ensures v.Nil? ==> s == "nil"
    ensures v.Bool? ==> s == (if v.b then "true" else "false")
    ensures v.Num? ==> s == showNum(v.n)
  {
    match v
    case Num(n) => showNum(n)
    case Str(str) => "\"" + str + "\""
    case Nil => "nil"
    case Bool(b) => if b then "true" else "false"
  }

  /** The printed form of a tree: every node but a literal is
      parenthesized, with its name or operator lexeme first. */
  function Show(e: Expr, showNum: real -> string): (s: string)
    requires NoVariables(e)
    ensures !e.Literal? ==> |s| >= 2 && s[0] == '(' && s[|s| - 1] == ')'
    ensures e.Binary? || e.Unary? ==> |s| >= |e.op.lexeme| + 2 && s[..|e.op.lexeme| + 1] == "(" + e.op.lexeme
    ensures e.Grouping? ==> |s| >= 7 && s[..6] == "(group"
  {
    match e
    case Binary(l, op, r) => Parenthesized(op.lexeme, [Show(l, showNum), Show(r, showNum)])
    case Unary(op, r) => Parenthesized(op.lexeme, [Show(r, showNum)])
    case Grouping(inner) => Parenthesized("group", [Show(inner, showNum)])
    case Literal(v) => ShowLiteral(v, showNum)
  }

  /** The printed form of each tree of a list, in order. */
  function ShowAll(es: seq<Expr>, showNum: real -> string): (ss: seq<string>)
    requires forall i :: 0 <= i < |es| ==> NoVariables(es[i])
    ensures |ss| == |es|
    ensures forall i :: 0 <= i < |es| ==> ss[i] == Show(es[i], showNum)
  {
    if es == [] then [] else ShowAll(es[..|es| - 1], showNum) + [Show(es[|es| - 1], showNum)]
  }

  /** `print`: the printed form of a tree. */
  method Print(e: Expr, showNum: real -> string) returns (s: string)
    requires NoVariables(e)
    ensures s == Show(e, showNum)
    decreases Size(e), 0
  {
    match e
    case Binary(l, op, r) =>
      assert SizeAll([l, r]) == Size(l) + Size(r) by {
        assert [l, r][..1] == [l];
        assert [l][..0] == [];
      }
      s := Parenthesize(op.lexeme, [l, r], showNum);
      assert ShowAll([l, r], showNum) == [Show(l, showNum), Show(r, showNum)] by {
        assert [l, r][..1] == [l];
      }
    case Unary(op, r) =>
      assert SizeAll([r]) == Size(r) by { assert [r][..0] == []; }
      s := Parenthesize(op.lexeme, [r], showNum);
      assert ShowAll([r], showNum) == [Show(r, showNum)];
    case Grouping(inner) =>
      assert SizeAll([inner]) == Size(inner) by { assert [inner][..0] == []; }
      s := Parenthesize("group", [inner], showNum);
      assert ShowAll([inner], showNum) == [Show(inner, showNum)];
    case Literal(v) =>
      s := ShowLiteral(v, showNum);
  }

  /** `parenthesize`: the name and the printed children, built up by
      appending in a loop. */
  method Parenthesize(name: string, exprs: seq<Expr>, showNum: real -> string) returns (s: string)
    requires forall i :: 0 <= i < |exprs| ==> NoVariables(exprs[i])
    ensures s == Parenthesized(name, ShowAll(exprs, showNum))
    decreases SizeAll(exprs), 1
  {
    s := "(" + name;
    for i := 0 to |exprs|
      invariant s == "(" + name + Spaced(ShowAll(exprs[..i], showNum))
    {
      SizeAllBound(exprs, i);
      var part := Print(exprs[i], showNum);
      ghost var before := ShowAll(exprs[..i], showNum);
      assert exprs[..i + 1][..i] == exprs[..i];
      assert ShowAll(exprs[..i + 1], showNum) == before + [part];
      assert (before + [part])[..|before|] == before;
      Assoc("(" + name, Spaced(before) + " ", part);
      Assoc("(" + name, Spaced(before), " ");
      s := s + " ";
      s := s + part;
    }
    assert exprs[..|exprs|] == exprs;
    s := s + ")";
  }

  /** A binary node prints as `(op left right)`. */
  lemma BinaryForm(l: Expr, op: Token, r: Expr, showNum: real -> string)
    requires NoVariables(l) && NoVariables(r)
    ensures Show(Binary(l, op, r), showNum)
            == "(" + op.lexeme + " " + Show(l, showNum) + " " + Show(r, showNum) + ")"
  {
    var a, b := Show(l, showNum), Show(r, showNum);
    var p := "(" + op.lexeme;
    TwoSpaced(a, b);
    Assoc(p, " " + a + " ", b);
    Assoc(p, " " + a, " ");
    Assoc(p, " ", a);
    assert Show(Binary(l, op, r), showNum) == p + Spaced([a, b]) + ")";
  }

  lemma Assoc(x: string, y: string, z: string)
    ensures x + (y + z) == x + y + z
  {
  }

  lemma TwoSpaced(a: string, b: string)
    ensures Spaced([a, b]) == " " + a + " " + b
  {
    assert [a, b][..1] == [a];
    OneSpaced(a);
  }

  lemma OneSpaced(a: string)
    ensures Spaced([a]) == " " + a
  {
    assert [a][..0] == [];
  }

  /** A unary node prints as `(op right)`. */
  lemma UnaryForm(op: Token, r: Expr, showNum: real -> string)
    requires NoVariables(r)
    ensures Show(Unary(op, r), showNum) == "(" + op.lexeme + " " + Show(r, showNum) + ")"
  {
    OneSpaced(Show(r, showNum));
  }

  /** A grouping prints as `(group inner)`. */
  lemma GroupingForm(inner: Expr, showNum: real -> string)
    requires NoVariables(inner)
    ensures Show(Grouping(inner), showNum) == "(group " + Show(inner, showNum) + ")"
  {
    OneSpaced(Show(inner, showNum));
  }
}
