/** The shape of what the parser builds: operator precedence and
    associativity as levels on expression trees, well-formed statements,
    and the `for` desugaring (src/parser.rs). */
module ParseTree {
  import opened Wrappers
  import opened LoxToken
  import opened Literal
  import opened Ast

  // ---- Precedence and associativity of the expression grammar ----

  predicate IsEqualityOp(t: TokenType) { t == BangEqual || t == EqualEqual }
  predicate IsComparisonOp(t: TokenType) { t == Greater || t == GreaterEqual || t == Less || t == LessEqual }
  predicate IsTermOp(t: TokenType) { t == Minus || t == Plus }
  predicate IsFactorOp(t: TokenType) { t == Slash || t == Star }

  predicate IsBinaryOp(t: TokenType) {
    IsEqualityOp(t) || IsComparisonOp(t) || IsTermOp(t) || IsFactorOp(t)
  }

  /** The grammar level an operator token belongs to, from loosest (3,
      equality) to tightest (6, factor). */
  function BinaryLevel(t: TokenType): nat {
    if IsEqualityOp(t) then 3 else if IsComparisonOp(t) then 4 else if IsTermOp(t) then 5 else 6
  }

  /** The level of an expression's outermost node: 0 assignment, 1 `or`,
      2 `and`, 3-6 the binary levels, 7 unary, 8 calls and primaries. */
  function Level(e: Expr): nat {
    match e
    case Assign(_, _) => 0
    case Logical(_, op, _) => if op.tokenType == KwOr then 1 else 2
    case Binary(_, op, _) => BinaryLevel(op.tokenType)
    case Unary(_, _) => 7
    case _ => 8
  }

  /** The grammar's rule for one node: a binary or logical node's left
      operand is at its own level or tighter and its right operand strictly
      tighter (left associativity), an assignment's value may be another
      assignment (right associativity) and its target is a name, a unary
      operand is unary or tighter, a callee is a call or primary, and a call
      has at most 256 arguments. */
  predicate LocalOk(e: Expr) {
    match e
    case Assign(name, _) => name.tokenType == Identifier
    case Binary(l, op, r) => IsBinaryOp(op.tokenType) && Level(l) >= Level(e) && Level(r) > Level(e)
    case Logical(l, op, r) =>
      (op.tokenType == KwOr || op.tokenType == KwAnd) && Level(l) >= Level(e) && Level(r) > Level(e)
    case Unary(op, r) => (op.tokenType == Bang || op.tokenType == Minus) && Level(r) >= 7
    case Grouping(_) => true
    case Literal(_) => true
    case Variable(name) => name.tokenType == Identifier
    case Call(callee, paren, args) => Level(callee) == 8 && paren.tokenType == RightParen && |args| <= 256
  }

  /** The tree respects the grammar: every node keeps the rule. */
  ghost predicate WellNested(e: Expr)
    decreases e
  {
    match e
    case Assign(_, value) => LocalOk(e) && WellNested(value)
    case Binary(l, _, r) => LocalOk(e) && WellNested(l) && WellNested(r)
    case Logical(l, _, r) => LocalOk(e) && WellNested(l) && WellNested(r)
    case Unary(_, r) => LocalOk(e) && WellNested(r)
    case Grouping(inner) => WellNested(inner)
    case Literal(_) => true
    case Variable(_) => LocalOk(e)
    case Call(callee, _, args) => LocalOk(e) && WellNested(callee) && forall a :: a in args ==> WellNested(a)
  }

  /** The grammar level of a well-nested expression, and -1 for one that is
      not well nested. */
  ghost function NestedLevel(e: Expr): int {
    if WellNested(e) then Level(e) else -1
  }

  /** A well-nested expression at grammar level `n` or tighter: what the
      production for level `n` returns. */
  ghost predicate AtLevel(e: Expr, n: nat) {
    NestedLevel(e) >= n
  }

  /** Statements as the parser builds them. */
  ghost predicate WellFormedStmt(s: Stmt) {
    match s
    case ParseError => true
    case Print(e) => WellNested(e)
    case Return(keyword, value) => keyword.tokenType == KwReturn && WellNested(value)
    case Expression(e) => WellNested(e)
    case VarDecl(name, init) => name.tokenType == Identifier && WellNested(init)
    case If(c, t, e) => WellNested(c) && WellFormedStmt(t) && (e.Some? ==> WellFormedStmt(e.value))
    case While(c, b) => WellNested(c) && WellFormedStmt(b)
    case Block(ss) => forall x :: x in ss ==> WellFormedStmt(x)
    case FunctionDecl(f) =>
      f.name.tokenType == Identifier && |f.parameters| <= 256
      && (forall p :: p in f.parameters ==> p.tokenType == Identifier)
      && forall x :: x in f.body ==> WellFormedStmt(x)
  }

  /** What every statement production returns: a well-formed statement
      that is not the `ParseError` placeholder, which only error recovery
      produces. */
  ghost predicate Parsed(s: Stmt) {
    !s.ParseError? && WellFormedStmt(s)
  }

  /** The `for` desugaring: `{ init; while (cond) { body; inc; } }`, where a
      missing condition is `true` and a missing initializer or increment
      drops its block. */
  function DesugarFor(init: Option<Stmt>, cond: Option<Expr>, inc: Option<Expr>, body: Stmt): (s: Stmt)
    ensures init.None? ==> s == ForLoop(cond, inc, body)
    ensures init.Some? ==> s == Block([init.value, ForLoop(cond, inc, body)])
    ensures ((init.Some? ==> WellFormedStmt(init.value)) && (cond.Some? ==> WellNested(cond.value))
             && (inc.Some? ==> WellNested(inc.value)) && WellFormedStmt(body)) ==> WellFormedStmt(s)
  {
    var loop := ForLoop(cond, inc, body);
    if init.Some? then
      assert forall x :: x in [init.value, loop] ==> x == init.value || x == loop;
      Block([init.value, loop])
    else loop
  }

  /** The `while` loop at the heart of a desugared `for`. */
  function ForLoop(cond: Option<Expr>, inc: Option<Expr>, body: Stmt): (s: Stmt)
    ensures s.While?
    ensures s.condition == (if cond.Some? then cond.value else Literal(Bool(true)))
    ensures inc.None? ==> s.body == body
    ensures inc.Some? ==> s.body == Block([body, Expression(inc.value)])
    ensures ((cond.Some? ==> WellNested(cond.value)) && (inc.Some? ==> WellNested(inc.value))
             && WellFormedStmt(body)) ==> WellFormedStmt(s)
  {
    var body' := if inc.Some? then
                   assert forall x :: x in [body, Expression(inc.value)] ==> x == body || x == Expression(inc.value);
                   Block([body, Expression(inc.value)])
                 else body;
    var condition := if cond.Some? then cond.value else Literal(Bool(true));
    While(condition, body')
  }

  /** Building a left-associative binary node from a left operand at level
      `BinaryLevel(op)` or tighter and a strictly tighter right operand. */
  lemma BinaryNested(l: Expr, op: Token, r: Expr)
    requires IsBinaryOp(op.tokenType)
    requires AtLevel(l, BinaryLevel(op.tokenType)) && AtLevel(r, BinaryLevel(op.tokenType) + 1)
    ensures AtLevel(Binary(l, op, r), BinaryLevel(op.tokenType))
  {
  }

  /** The same for `or` (level 1) and `and` (level 2). */
  lemma LogicalNested(l: Expr, op: Token, r: Expr, level: nat)
    requires level == (if op.tokenType == KwOr then 1 else 2)
    requires op.tokenType == KwOr || op.tokenType == KwAnd
    requires AtLevel(l, level) && AtLevel(r, level + 1)
    ensures AtLevel(Logical(l, op, r), level)
  {
  }

  /** A prefix operator applied to a unary or tighter operand. */
  lemma UnaryNested(op: Token, r: Expr)
    requires (op.tokenType == Bang || op.tokenType == Minus) && AtLevel(r, 7)
    ensures AtLevel(Unary(op, r), 7)
  {
  }

  /** An assignment to a name, whose value may itself be an assignment. */
  lemma AssignNested(name: Token, value: Expr)
    requires name.tokenType == Identifier && AtLevel(value, 0)
    ensures AtLevel(Assign(name, value), 0)
  {
  }

  /** Parentheses lift any expression to the tightest level. */
  lemma GroupingNested(inner: Expr)
    requires AtLevel(inner, 0)
    ensures AtLevel(Grouping(inner), 8)
  {
  }

  /** The root of a well-nested tree keeps the rule. */
  lemma RootOk(e: Expr)
    requires AtLevel(e, 0)
    ensures LocalOk(e)
  {
  }

  /** Literals and names are primaries. */
  lemma LeafNested(e: Expr)
    requires e.Literal? || (e.Variable? && e.name.tokenType == Identifier)
    ensures AtLevel(e, 8)
  {
  }

  /** A call on a call or primary, with at most 256 well-nested arguments. */
  lemma CallNested(callee: Expr, paren: Token, args: seq<Expr>)
    requires AtLevel(callee, 8) && paren.tokenType == RightParen && |args| <= 256
    requires forall a :: a in args ==> AtLevel(a, 0)
    ensures AtLevel(Call(callee, paren, args), 8)
  {
  }

  lemma IfParsed(c: Expr, t: Stmt, e: Option<Stmt>)
    requires AtLevel(c, 0) && Parsed(t) && (e.Some? ==> Parsed(e.value))
    ensures Parsed(If(c, t, e))
  {
  }
}
