/** The syntax tree the parser builds (src/types/expr.rs, src/types/stmt.rs),
    restricted to the nodes the parser produces. Class declarations, property
    access, `this` and `super` are declared by those files but never built by
    the parser nor handled by the resolver, so they are not part of this
    model. */
module Ast {
  import opened Wrappers
  import opened LoxToken
  import opened Literal

  datatype Expr =
    | Assign(name: Token, value: Expr)
    | Binary(left: Expr, op: Token, right: Expr)
    | Logical(left: Expr, op: Token, right: Expr)
    | Unary(op: Token, right: Expr)
    | Grouping(inner: Expr)
    | Literal(lit: LiteralValue)
    | Variable(name: Token)
    | Call(callee: Expr, paren: Token, arguments: seq<Expr>)

  /** A function declaration: name, parameters and body. The parser gives it
      a dummy closure, which is not modelled. */
  datatype Function = Function(name: Token, parameters: seq<Token>, body: seq<Stmt>)

  datatype Stmt =
    | ParseError
    | Print(expr: Expr)
    | Return(keyword: Token, value: Expr)
    | Expression(expr: Expr)
    | VarDecl(name: Token, initializer: Expr)
    | If(condition: Expr, thenBranch: Stmt, elseBranch: Option<Stmt>)
    | While(condition: Expr, body: Stmt)
    | Block(stmts: seq<Stmt>)
    | FunctionDecl(decl: Function)
}
