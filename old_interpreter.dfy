/** The first tree-walking interpreter (src/interpreter.rs): it evaluates
    the first expression tree to a first-generation value. The Rust code
    panics (`todo!`, `unimplemented!`, `unreachable!`) on operand types and
    operators it does not handle; here a panic is an error outcome. Numbers
    are exact reals. It implements no visitor for variables, so only trees
    without them are evaluated. */
module OldInterpreter {
  import opened Wrappers
  import opened LoxToken
  import opened Literal
  import opened OldExpr
  import Num
  import AstPrinter

  /** Which macro the Rust code panics in. */
  datatype Panic = Todo | Unimplemented | Unreachable

  /** A binary operator on two evaluated operands. `+` adds numbers and
      concatenates strings; the other arithmetic and comparison operators
      take numbers only; `==` and `!=` compare numbers and strings and
      treat every other pair as different. */
  function BinaryOp(op: TokenType, left: LiteralValue, right: LiteralValue): (r: Result<LiteralValue, Panic>)
    ensures !BinaryOperator(op) ==> r == Err(Unimplemented)
    ensures BinaryOperator(op) && r.Err? ==> r.error == Todo
    ensures r.Ok? && op != Plus && op != Minus && op != Star && op != Slash ==> r.value.Bool?
  {
    match op
    case Plus =>
      if left.Num? && right.Num? then Ok(Num(left.n + right.n))
      else if left.Str? && right.Str? then Ok(Str(left.s + right.s))
      else Err(Todo)
    case Minus => if left.Num? && right.Num? then Ok(Num(left.n - right.n)) else Err(Todo)
    case Star => if left.Num? && right.Num? then Ok(Num(left.n * right.n)) else Err(Todo)
    case Slash => if left.Num? && right.Num? then Ok(Num(Num.Div(left.n, right.n))) else Err(Todo)
    case Greater => if left.Num? && right.Num? then Ok(Bool(left.n > right.n)) else Err(Todo)
    case GreaterEqual => if left.Num? && right.Num? then Ok(Bool(left.n >= right.n)) else Err(Todo)
    case Less => if left.Num? && right.Num? then Ok(Bool(left.n < right.n)) else Err(Todo)
    case LessEqual => if left.Num? && right.Num? then Ok(Bool(left.n <= right.n)) else Err(Todo)
    case BangEqual =>
      if left.Num? && right.Num? then Ok(Bool(left.n != right.n))
      else if left.Str? && right.Str? then Ok(Bool(left.s != right.s))
      else Ok(Bool(true))
    case EqualEqual =>
      if left.Num? && right.Num? then Ok(Bool(left.n == right.n))
      else if left.Str? && right.Str? then Ok(Bool(left.s == right.s))
      else Ok(Bool(false))
    case _ => Err(Unimplemented)
  }

  /** A prefix operator on an evaluated operand. */
  function UnaryOp(op: TokenType, right: LiteralValue): (r: Result<LiteralValue, Panic>)
    ensures r.Ok? <==> op == Bang || (op == Minus && right.Num?)
    ensures r.Err? ==> r.error == (if op == Minus then Todo else Unreachable)
    ensures op == Bang ==> r.value.Bool?
  {
    match op
    case Minus => if right.Num? then Ok(Num(-right.n)) else Err(Todo)
    case Bang => Ok(Bool(!IsTruthy(right)))
    case _ => Err(Unreachable)
  }

  /** `evaluate`: both operands of a binary node are evaluated, the left one
      first, before the operator is applied; a grouping is its inner
      value and a literal its own value. In a tree of operators the
      evaluator knows, the only possible panic is the `todo!()` of a
      mismatched operand. */
  function Evaluate(e: Expr): (r: Result<LiteralValue, Panic>)
    requires AstPrinter.NoVariables(e)
    ensures KnownOperators(e) && r.Err? ==> r.error == Todo
  {
    match e
    case Binary(l, op, r) =>
      var left := Evaluate(l);
      if left.Err? then left
      else
        var right := Evaluate(r);
        if right.Err? then right else BinaryOp(op.tokenType, left.value, right.value)
    case Unary(op, r) =>
      var right := Evaluate(r);
      if right.Err? then right else UnaryOp(op.tokenType, right.value)
    case Grouping(inner) => Evaluate(inner)
    case Literal(v) => Ok(v)
  }

  /** The eleven binary operators `visit_binary_expr` has an arm for. */
  predicate BinaryOperator(op: TokenType) {
    op == Plus || NumericOnly(op) || op == BangEqual || op == EqualEqual
  }

  /** Every operator of the tree has an arm in its visitor. */
  predicate KnownOperators(e: Expr) {
    match e
    case Binary(l, op, r) => BinaryOperator(op.tokenType) && KnownOperators(l) && KnownOperators(r)
    case Unary(op, r) => (op.tokenType == Minus || op.tokenType == Bang) && KnownOperators(r)
    case Grouping(inner) => KnownOperators(inner)
    case Literal(_) => true
    case Variable(_) => true
  }

  /** The operators that take two numbers and nothing else. */
  predicate NumericOnly(op: TokenType) {
    op == Minus || op == Star || op == Slash
    || op == Greater || op == GreaterEqual || op == Less || op == LessEqual
  }

  /** `+`: the sum of two numbers, the left-then-right concatenation of two
      strings, and a panic for every other pair. */
  lemma PlusCases(left: LiteralValue, right: LiteralValue)
    ensures BinaryOp(Plus, left, right).Ok?
            <==> (left.Num? && right.Num?) || (left.Str? && right.Str?)
    ensures left.Num? && right.Num? ==> BinaryOp(Plus, left, right) == Ok(Num(left.n + right.n))
    ensures left.Str? && right.Str? ==> BinaryOp(Plus, left, right) == Ok(Str(left.s + right.s))
  {
  }

  /** The numeric operators succeed exactly on two numbers, and give a
      number for arithmetic and a boolean for comparisons. */
  lemma NumericCases(op: TokenType, left: LiteralValue, right: LiteralValue)
    requires NumericOnly(op)
    ensures BinaryOp(op, left, right).Ok? <==> left.Num? && right.Num?
    ensures BinaryOp(op, left, right).Ok? ==>
              (op == Minus || op == Star || op == Slash <==> BinaryOp(op, left, right).value.Num?)
  {
  }

  /** `==` never panics and holds only for two equal numbers or two equal
      strings: `nil == nil` and `true == true` are false. */
  lemma EqualityCases(left: LiteralValue, right: LiteralValue)
    ensures BinaryOp(EqualEqual, left, right).Ok? && BinaryOp(EqualEqual, left, right).value.Bool?
    ensures BinaryOp(EqualEqual, left, right).value.b
            <==> (left.Num? && right.Num? && left.n == right.n) || (left.Str? && right.Str? && left.s == right.s)
  {
  }

  lemma NilNotEqualNil()
    ensures BinaryOp(EqualEqual, Nil, Nil) == Ok(Bool(false))
    ensures BinaryOp(EqualEqual, Bool(true), Bool(true)) == Ok(Bool(false))
  {
  }

  /** For every pair of operands `!=` is the negation of `==`. */
  lemma NotEqualNegatesEqual(left: LiteralValue, right: LiteralValue)
    ensures BinaryOp(BangEqual, left, right).Ok? && BinaryOp(EqualEqual, left, right).Ok?
    ensures BinaryOp(BangEqual, left, right).value == Bool(!BinaryOp(EqualEqual, left, right).value.b)
  {
  }

  /** Equality is symmetric. */
  lemma EqualitySymmetric(left: LiteralValue, right: LiteralValue)
    ensures BinaryOp(EqualEqual, left, right) == BinaryOp(EqualEqual, right, left)
  {
  }

  /** `!` is the negated truthiness of any value; `-` negates numbers only. */
  lemma UnaryCases(v: LiteralValue)
    ensures UnaryOp(Bang, v) == Ok(Bool(!IsTruthy(v)))
    ensures UnaryOp(Minus, v).Ok? <==> v.Num?
    ensures v.Num? ==> UnaryOp(Minus, v) == Ok(Num(-v.n))
  {
  }

  /** A panic in an operand is the panic of the whole expression, the left
      operand's first; a successful binary node had both operands
      succeed. */
  lemma {:induction false} OperandsFirst(l: Expr, op: Token, r: Expr)
    requires AstPrinter.NoVariables(l) && AstPrinter.NoVariables(r)
    ensures Evaluate(l).Err? ==> Evaluate(Binary(l, op, r)) == Evaluate(l)
    ensures Evaluate(l).Ok? && Evaluate(r).Err? ==> Evaluate(Binary(l, op, r)) == Evaluate(r)
    ensures Evaluate(Binary(l, op, r)).Ok? ==> Evaluate(l).Ok? && Evaluate(r).Ok?
  {
  }

  /** Parentheses do not change a value, and a literal evaluates to itself. */
  lemma GroupingTransparent(e: Expr, v: LiteralValue)
    requires AstPrinter.NoVariables(e)
    ensures Evaluate(Grouping(e)) == Evaluate(e)
    ensures Evaluate(Literal(v)) == Ok(v)
  {
  }

  /** An expression built only from literals, groupings, `!` and `==`
      never panics, and one whose root is `!` or `==` yields a boolean. */
  predicate Logical(e: Expr) {
    match e
    case Binary(l, op, r) => op.tokenType == EqualEqual && Logical(l) && Logical(r)
    case Unary(op, r) => op.tokenType == Bang && Logical(r)
    case Grouping(inner) => Logical(inner)
    case Literal(_) => true
    case Variable(_) => false
  }

  lemma {:induction false} LogicalNeverPanics(e: Expr)
    requires Logical(e)
    ensures AstPrinter.NoVariables(e) && Evaluate(e).Ok?
    ensures e.Binary? || e.Unary? ==> Evaluate(e).value.Bool?
  {
    match e
    case Binary(l, op, r) =>
      LogicalNeverPanics(l);
      LogicalNeverPanics(r);
      EqualityCases(Evaluate(l).value, Evaluate(r).value);
    case Unary(op, r) =>
      LogicalNeverPanics(r);
    case Grouping(inner) =>
      LogicalNeverPanics(inner);
    case Literal(_) =>
  }
}
