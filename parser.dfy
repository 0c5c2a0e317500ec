/** The recursive-descent parser (src/parser.rs): a cursor `current` over a
    token list that ends in `EOF`. Every production either fails with a
    `ParseError` or succeeds having consumed at least one token, which is
    what makes the mutual recursion and every loop terminate. */
module Parser {
  import opened Wrappers
  import opened LoxToken
  import opened Literal
  import opened Ast
  import opened ParseTree

  datatype ParseError =
    | TooManyArguments(at: Token)
    | InvalidAssignmentTarget(equals: Token)
    | ExpectedExpression
    | Expected(message: string, expected: TokenType, got: Token)

  /** Number and string tokens carry their literal, as `literal_num` and
      `literal_str` expect. */
  predicate LiteralAttached(t: Token) {
    (t.tokenType == Number ==> t.literal.NumLiteral?)
    && (t.tokenType == String ==> t.literal.StrLiteral?)
  }

  /** A token list the parser accepts: it ends in `EOF`, which `peek` relies
      on to stay inside the list. */
  predicate WellFormed(tokens: seq<Token>) {
    |tokens| >= 1 && tokens[|tokens| - 1].tokenType == EOF
    && forall i :: 0 <= i < |tokens| ==> LiteralAttached(tokens[i])
  }

  /** The keywords `synchronize` stops in front of. */
  predicate StartsDeclaration(t: TokenType) {
    t == KwClass || t == KwFun || t == KwFor || t == KwIf
    || t == KwPrint || t == KwReturn || t == KwVar || t == KwWhile
  }

  /** Errors only ever name the token they are about. */
  predicate ValidError(err: ParseError) {
    match err
    case InvalidAssignmentTarget(t) => t.tokenType == Equal
    case Expected(_, expected, got) => got.tokenType != expected || got.tokenType == EOF
    case _ => true
  }

  /** No `;` ends a token in `a..b-1` and no declaration keyword starts one
      in `a+1..b`: what `synchronize` skips over. */
  predicate NoBoundary(tokens: seq<Token>, a: int, b: int) {
    0 <= a && b <= |tokens|
    && (forall k :: a <= k < b - 1 ==> tokens[k].tokenType != Semicolon)
    && (forall k :: a < k < b ==> !StartsDeclaration(tokens[k].tokenType))
  }

  lemma NoBoundaryStep(tokens: seq<Token>, a: int, b: int)
    requires NoBoundary(tokens, a, b) && a < b < |tokens|
    requires tokens[b - 1].tokenType != Semicolon && !StartsDeclaration(tokens[b].tokenType)
    ensures NoBoundary(tokens, a, b + 1)
  {
  }

  /** The operators `comparison` matches are the level-4 binary operators. */
  lemma ComparisonOperator(t: TokenType)
    requires t in [Greater, GreaterEqual, Less, LessEqual]
    ensures IsBinaryOp(t) && BinaryLevel(t) == 4
  {
    assert t == Greater || t == GreaterEqual || t == Less || t == LessEqual;
  }

  /** The target rule of `assignment`: only a variable may be assigned to,
      and any other target is an error at the `=`. */
  function AssignTarget(target: Expr, equals: Token, value: Expr): (r: Result<Expr, ParseError>)
    ensures r.Ok? <==> target.Variable?
    ensures r.Ok? ==> r.value == Assign(target.name, value)
    ensures r.Err? ==> r.error == InvalidAssignmentTarget(equals)
  {
    match target
    case Variable(name) => Ok(Assign(name, value))
    case _ => Err(InvalidAssignmentTarget(equals))
  }

  /** How many `,` tokens a token list holds. */
  function Commas(ts: seq<Token>): (n: nat)
    ensures n <= |ts|
  {
    if ts == [] then 0
    else Commas(ts[..|ts| - 1]) + (if ts[|ts| - 1].tokenType == Comma then 1 else 0)
  }

  lemma {:induction false} CommasSplit(ts: seq<Token>, a: nat, b: nat, c: nat)
    requires a <= b <= c <= |ts|
    ensures Commas(ts[a..c]) == Commas(ts[a..b]) + Commas(ts[b..c])
    decreases c - b
  {
    if b < c {
      CommasSplit(ts, a, b, c - 1);
      assert ts[a..c][..c - 1 - a] == ts[a..c - 1];
      assert ts[b..c][..c - 1 - b] == ts[b..c - 1];
    } else {
      assert ts[b..c] == [];
    }
  }

  /** The token lists a parser is built over. */
  type TokenList = ts: seq<Token> | WellFormed(ts) witness [Token(EOF, "", NoLiteral, 0)]

  class Parser {
    const tokens: TokenList
    var current: nat

    ghost predicate Valid()
      reads this
    {
      current < |tokens|
    }

    constructor (tokens: seq<Token>)
      requires WellFormed(tokens)
      ensures Valid() && this.tokens == tokens && current == 0
    {
      this.tokens := tokens;
      current := 0;
    }

    /** A `TooManyArguments` error is raised only once 256 comma-separated
        arguments or parameters have been read since `from`. */
    ghost predicate LimitReached(err: ParseError, from: nat)
      reads this
    {
      err.TooManyArguments? ==> from <= current <= |tokens| && Commas(tokens[from..current]) >= 256
    }

    /** What holds of the tokens read since `mid` holds of those since an
        earlier `from`. */
    lemma LimitWidens(err: ParseError, from: nat, mid: nat)
      requires from <= mid && LimitReached(err, mid)
      ensures LimitReached(err, from)
    {
      if err.TooManyArguments? {
        CommasSplit(tokens, from, mid, current);
      }
    }

    /** A list item read from `mid` to `end` and followed by the comma at
        `end` adds at least one comma to what was read since `from`. */
    lemma CommaRead(from: nat, mid: nat, end: nat)
      requires from <= mid <= end && end + 1 == current <= |tokens|
      requires tokens[end].tokenType == Comma
      ensures Commas(tokens[from..current]) >= Commas(tokens[from..mid]) + 1
    {
      CommasSplit(tokens, from, mid, end);
      CommasSplit(tokens, from, end, current);
      assert tokens[end..current][..0] == [];
    }

    function Peek(): Token
      reads this
      requires Valid()
    {
      tokens[current]
    }

    function Previous(): Token
      reads this
      requires Valid() && current >= 1
    {
      tokens[current - 1]
    }

    predicate IsAtEnd()
      reads this
      requires Valid()
    {
      Peek().tokenType == EOF
    }

    /** `check`: the current token has type `t`; never at `EOF`. */
    predicate Check(t: TokenType)
      reads this
      requires Valid()
      ensures Check(t) ==> !IsAtEnd() && tokens[current].tokenType == t
      ensures !IsAtEnd() && tokens[current].tokenType == t ==> Check(t)
    {
      if IsAtEnd() then false else Peek().tokenType == t
    }

    /** `advance`: step over the current token unless it is `EOF`, and
        return the token just passed. */
    method Advance() returns (t: Token)
      requires Valid() && (current > 0 || !IsAtEnd())
      modifies this`current
      ensures Valid()
      ensures current == if tokens[old(current)].tokenType == EOF then old(current) else old(current) + 1
      ensures current >= 1 && t == tokens[current - 1]
    {
      if !IsAtEnd() {
        current := current + 1;
      }
      t := Previous();
    }

    /** `match_any`: consume the current token when its type is one of
        `types`. */
    method MatchAny(types: seq<TokenType>) returns (b: bool)
      requires Valid()
      modifies this`current
      ensures Valid()
      ensures b <==> tokens[old(current)].tokenType != EOF && tokens[old(current)].tokenType in types
      ensures current == old(current) + (if b then 1 else 0)
      ensures b ==> current >= 1 && Previous() == tokens[old(current)]
    {
      for i := 0 to |types|
        invariant current == old(current)
        invariant forall j :: 0 <= j < i ==> !Check(types[j])
      {
        if Check(types[i]) {
          var skipped := Advance();
          return true;
        }
      }
      return false;
    }

    /** `consume`: the current token when it has type `t`, else an error
        naming what was expected, without moving. */
    method Consume(t: TokenType, message: string) returns (r: Result<Token, ParseError>)
      requires Valid()
      modifies this`current
      ensures Valid()
      ensures r.Ok? <==> tokens[old(current)].tokenType != EOF && tokens[old(current)].tokenType == t
      ensures r.Ok? ==> r.value == tokens[old(current)] && current == old(current) + 1
      ensures r.Err? ==> current == old(current) && r.error == Expected(message, t, tokens[current])
      ensures r.Err? ==> ValidError(r.error)
    {
      if Check(t) {
        var token := Advance();
        return Ok(token);
      }
      return Err(Expected(message, t, Peek()));
    }

    /** `synchronize`: skip to the likely start of the next statement, just
        after a `;` or before a declaration keyword. */
    method Synchronize()
      requires Valid() && (current > 0 || !IsAtEnd())
      modifies this`current
      ensures Valid() && old(current) <= current && current >= 1
      ensures tokens[old(current)].tokenType != EOF ==> old(current) < current
      ensures IsAtEnd() || Previous().tokenType == Semicolon || StartsDeclaration(Peek().tokenType)
      ensures NoBoundary(tokens, old(current), current)
    {
      var skipped := Advance();
      SkipToBoundary();
    }

    /** The loop of `synchronize`, after its first `advance`. */
    method SkipToBoundary()
      requires Valid() && current >= 1
      modifies this`current
      ensures Valid() && old(current) <= current
      ensures IsAtEnd() || Previous().tokenType == Semicolon || StartsDeclaration(Peek().tokenType)
      ensures NoBoundary(tokens, old(current) - 1, current)
    {
      while !IsAtEnd() && Previous().tokenType != Semicolon && !StartsDeclaration(Peek().tokenType)
        invariant Valid() && old(current) <= current
        invariant NoBoundary(tokens, old(current) - 1, current)
        decreases |tokens| - current
      {
        SkipOne(old(current) - 1);
      }
    }

    /** One step of the `synchronize` loop: `advance` over a token that is
        neither `EOF` nor a declaration keyword, following one that is not
        `;`. */
    method SkipOne(ghost from: int)
      requires Valid() && current >= 1 && !IsAtEnd()
      requires Previous().tokenType != Semicolon && !StartsDeclaration(Peek().tokenType)
      requires from < current && NoBoundary(tokens, from, current)
      modifies this`current
      ensures Valid() && current == old(current) + 1
      ensures NoBoundary(tokens, from, current)
    {
      NoBoundaryStep(tokens, from, current);
      var skipped := Advance();
    }

    // ---- Expressions ----

    method Expression() returns (r: Result<Expr, ParseError>)
      requires Valid()
      modifies this`current
      ensures Valid() && old(current) <= current
      ensures r.Ok? ==> old(current) < current && AtLevel(r.value, 0)
      ensures r.Err? ==> ValidError(r.error) && LimitReached(r.error, old(current))
      decreases |tokens| - current, 11
    {
      var a, _ := Assignment();
      r := a;
    }

    /** `assignment`: right-associative. When an `=` follows the `or`
        operand, `target` records the operand, the `=` and the value, and
        the target rule decides the result. */
    method Assignment() returns (r: Result<Expr, ParseError>, ghost target: Option<(Expr, Token, Expr)>)
      requires Valid()
      modifies this`current
      ensures Valid() && old(current) <= current
      ensures r.Ok? ==> old(current) < current && AtLevel(r.value, 0)
      ensures r.Err? ==> ValidError(r.error) && LimitReached(r.error, old(current))
      ensures target.Some? ==> AtLevel(target.value.0, 1) && target.value.1.tokenType == Equal
      ensures target.Some? ==> r == AssignTarget(target.value.0, target.value.1, target.value.2)
      ensures r.Ok? && r.value.Assign? ==> target.Some?
      decreases |tokens| - current, 10
    {
      target := None;
      var e := LogicOr();
      if e.Err? {
        return e, None;
      }
      var b := MatchAny([Equal]);
      if b {
        var equals := Previous();
        ghost var mid := current;
        var value, _ := Assignment();
        if value.Err? {
          LimitWidens(value.error, old(current), mid);
          return value, None;
        }
        target := Some((e.value, equals, value.value));
        r := AssignTarget(e.value, equals, value.value);
        if e.value.Variable? {
          RootOk(e.value);
          AssignNested(e.value.name, value.value);
        }
        return;
      }
      return e, None;
    }

    method LogicOr() returns (r: Result<Expr, ParseError>)
      requires Valid()
      modifies this`current
      ensures Valid() && old(current) <= current
      ensures r.Ok? ==> old(current) < current && AtLevel(r.value, 1)
      ensures r.Err? ==> ValidError(r.error) && LimitReached(r.error, old(current))
      decreases |tokens| - current, 9
    {
      var e := LogicAnd();
      if e.Err? {
        return e;
      }
      var expr := e.value;
      while true
        invariant Valid() && old(current) < current && AtLevel(expr, 1)
        decreases |tokens| - current
      {
        var b := MatchAny([KwOr]);
        if !b {
          break;
        }
        var op := Previous();
        ghost var mid := current;
        var right := LogicAnd();
        if right.Err? {
          LimitWidens(right.error, old(current), mid);
          return right;
        }
        LogicalNested(expr, op, right.value, 1);
        expr := Logical(expr, op, right.value);
      }
      return Ok(expr);
    }

    method LogicAnd() returns (r: Result<Expr, ParseError>)
      requires Valid()
      modifies this`current
      ensures Valid() && old(current) <= current
      ensures r.Ok? ==> old(current) < current && AtLevel(r.value, 2)
      ensures r.Err? ==> ValidError(r.error) && LimitReached(r.error, old(current))
      decreases |tokens| - current, 8
    {
      var e := Equality();
      if e.Err? {
        return e;
      }
      var expr := e.value;
      while true
        invariant Valid() && old(current) < current && AtLevel(expr, 2)
        decreases |tokens| - current
      {
        var b := MatchAny([KwAnd]);
        if !b {
          break;
        }
        var op := Previous();
        ghost var mid := current;
        var right := Equality();
        if right.Err? {
          LimitWidens(right.error, old(current), mid);
          return right;
        }
        LogicalNested(expr, op, right.value, 2);
        expr := Logical(expr, op, right.value);
      }
      return Ok(expr);
    }

    method Equality() returns (r: Result<Expr, ParseError>)
      requires Valid()
      modifies this`current
      ensures Valid() && old(current) <= current
      ensures r.Ok? ==> old(current) < current && AtLevel(r.value, 3)
      ensures r.Err? ==> ValidError(r.error) && LimitReached(r.error, old(current))
      decreases |tokens| - current, 7
    {
      var e := Comparison();
      if e.Err? {
        return e;
      }
      var expr := e.value;
      while true
        invariant Valid() && old(current) < current && AtLevel(expr, 3)
        decreases |tokens| - current
      {
        var b := MatchAny([BangEqual, EqualEqual]);
        if !b {
          break;
        }
        var op := Previous();
        assert IsEqualityOp(op.tokenType);
        ghost var mid := current;
        var right := Comparison();
        if right.Err? {
          LimitWidens(right.error, old(current), mid);
          return right;
        }
        BinaryNested(expr, op, right.value);
        expr := Binary(expr, op, right.value);
      }
      return Ok(expr);
    }

    method Comparison() returns (r: Result<Expr, ParseError>)
      requires Valid()
      modifies this`current
      ensures Valid() && old(current) <= current
      ensures r.Ok? ==> old(current) < current && AtLevel(r.value, 4)
      ensures r.Err? ==> ValidError(r.error) && LimitReached(r.error, old(current))
      decreases |tokens| - current, 6
    {
      var e := Term();
      if e.Err? {
        return e;
      }
      var expr := e.value;
      while true
        invariant Valid() && old(current) < current && AtLevel(expr, 4)
        decreases |tokens| - current
      {
        var b := MatchAny([Greater, GreaterEqual, Less, LessEqual]);
        if !b {
          break;
        }
        var op := Previous();
        ComparisonOperator(op.tokenType);
        ghost var mid := current;
        var right := Term();
        if right.Err? {
          LimitWidens(right.error, old(current), mid);
          return right;
        }
        BinaryNested(expr, op, right.value);
        expr := Binary(expr, op, right.value);
      }
      return Ok(expr);
    }

    method Term() returns (r: Result<Expr, ParseError>)
      requires Valid()
      modifies this`current
      ensures Valid() && old(current) <= current
      ensures r.Ok? ==> old(current) < current && AtLevel(r.value, 5)
      ensures r.Err? ==> ValidError(r.error) && LimitReached(r.error, old(current))
      decreases |tokens| - current, 5
    {
      var e := Factor();
      if e.Err? {
        return e;
      }
      var expr := e.value;
      while true
        invariant Valid() && old(current) < current && AtLevel(expr, 5)
        decreases |tokens| - current
      {
        var b := MatchAny([Minus, Plus]);
        if !b {
          break;
        }
        var op := Previous();
        assert IsTermOp(op.tokenType);
        ghost var mid := current;
        var right := Factor();
        if right.Err? {
          LimitWidens(right.error, old(current), mid);
          return right;
        }
        BinaryNested(expr, op, right.value);
        expr := Binary(expr, op, right.value);
      }
      return Ok(expr);
    }

    method Factor() returns (r: Result<Expr, ParseError>)
      requires Valid()
      modifies this`current
      ensures Valid() && old(current) <= current
      ensures r.Ok? ==> old(current) < current && AtLevel(r.value, 6)
      ensures r.Err? ==> ValidError(r.error) && LimitReached(r.error, old(current))
      decreases |tokens| - current, 4
    {
      var e := UnaryExpr();
      if e.Err? {
        return e;
      }
      var expr := e.value;
      while true
        invariant Valid() && old(current) < current && AtLevel(expr, 6)
        decreases |tokens| - current
      {
        var b := MatchAny([Slash, Star]);
        if !b {
          break;
        }
        var op := Previous();
        assert IsFactorOp(op.tokenType);
        ghost var mid := current;
        var right := UnaryExpr();
        if right.Err? {
          LimitWidens(right.error, old(current), mid);
          return right;
        }
        BinaryNested(expr, op, right.value);
        expr := Binary(expr, op, right.value);
      }
      return Ok(expr);
    }

    method UnaryExpr() returns (r: Result<Expr, ParseError>)
      requires Valid()
      modifies this`current
      ensures Valid() && old(current) <= current
      ensures r.Ok? ==> old(current) < current && AtLevel(r.value, 7)
      ensures r.Err? ==> ValidError(r.error) && LimitReached(r.error, old(current))
      decreases |tokens| - current, 3
    {
      var b := MatchAny([Bang, Minus]);
      if b {
        var op := Previous();
        ghost var mid := current;
        var right := UnaryExpr();
        if right.Err? {
          LimitWidens(right.error, old(current), mid);
          return right;
        }
        UnaryNested(op, right.value);
        return Ok(Unary(op, right.value));
      }
      r := CallExpr();
    }

    method CallExpr() returns (r: Result<Expr, ParseError>)
      requires Valid()
      modifies this`current
      ensures Valid() && old(current) <= current
      ensures r.Ok? ==> old(current) < current && AtLevel(r.value, 8)
      ensures r.Err? ==> ValidError(r.error) && LimitReached(r.error, old(current))
      decreases |tokens| - current, 2
    {
      var e := Primary();
      if e.Err? {
        return e;
      }
      var expr := e.value;
      while true
        invariant Valid() && old(current) < current && AtLevel(expr, 8)
        decreases |tokens| - current
      {
        var b := MatchAny([LeftParen]);
        if !b {
          break;
        }
        ghost var mid := current;
        var c, _, _ := FinishCall(expr);
        if c.Err? {
          LimitWidens(c.error, old(current), mid);
          return c;
        }
        expr := c.value;
      }
      return Ok(expr);
    }

    /** `finish_call`: the arguments after `(`. The limit check runs before
        each argument, when more than 255 have been collected: up to 256
        arguments are accepted, and this call's own limit error comes only
        once 256 of its own arguments, each followed by a comma, have been
        read. `collected` counts this call's own arguments; `fromArgument`
        tells an error raised while parsing an argument (which may be the
        limit error of a call nested in it) from one of this call's own. */
    method FinishCall(callee: Expr) returns (r: Result<Expr, ParseError>, ghost collected: nat, ghost fromArgument: bool)
      requires Valid() && AtLevel(callee, 8)
      modifies this`current
      ensures Valid() && old(current) <= current && collected <= 256
      ensures r.Ok? ==> old(current) < current && AtLevel(r.value, 8)
      ensures r.Ok? ==> r.value.Call? && r.value.callee == callee && |r.value.arguments| == collected
      ensures fromArgument ==> r.Err? && collected < 256
      ensures r.Err? && r.error.TooManyArguments? && !fromArgument ==> collected == 256
      ensures r.Err? ==> ValidError(r.error) && LimitReached(r.error, old(current))
      decreases |tokens| - current, 12
    {
      var arguments: seq<Expr> := [];
      collected, fromArgument := 0, false;
      if !Check(RightParen) {
        while true
          invariant Valid() && old(current) <= current && |arguments| <= 256
          invariant collected == |arguments| && !fromArgument
          invariant |arguments| <= Commas(tokens[old(current)..current])
          invariant forall a :: a in arguments ==> AtLevel(a, 0)
          decreases |tokens| - current
        {
          if |arguments| > 255 {
            return Err(TooManyArguments(Peek())), collected, false;
          }
          ghost var mid := current;
          var e := Expression();
          if e.Err? {
            LimitWidens(e.error, old(current), mid);
            return Err(e.error), collected, true;
          }
          arguments := arguments + [e.value];
          collected := |arguments|;
          ghost var end := current;
          var more := MatchAny([Comma]);
          if !more {
            break;
          }
          CommaRead(old(current), mid, end);
        }
      }
      var paren := Consume(RightParen, "Expected ')' after arguments.");
      if paren.Err? {
        return Err(paren.error), collected, false;
      }
      CallNested(callee, paren.value, arguments);
      return Ok(Call(callee, paren.value, arguments)), collected, false;
    }

    method Primary() returns (r: Result<Expr, ParseError>)
      requires Valid()
      modifies this`current
      ensures Valid() && old(current) <= current
      ensures r.Ok? ==> old(current) < current && AtLevel(r.value, 8)
      ensures r.Err? ==> ValidError(r.error) && LimitReached(r.error, old(current))
      decreases |tokens| - current, 1
    {
      var b := MatchAny([KwFalse]);
      if b {
        r := Ok(Literal(Bool(false)));
      } else {
        b := MatchAny([KwTrue]);
        if b {
          r := Ok(Literal(Bool(true)));
        } else {
          b := MatchAny([KwNil]);
          if b {
            r := Ok(Literal(Nil));
          } else {
            r := PrimaryToken();
            return;
          }
        }
      }
      LeafNested(r.value);
    }

    /** The rest of `primary`, after the three keyword literals: a number,
        a string, a name, or a parenthesized expression. */
    method PrimaryToken() returns (r: Result<Expr, ParseError>)
      requires Valid()
      modifies this`current
      ensures Valid() && old(current) <= current
      ensures r.Ok? ==> old(current) < current && AtLevel(r.value, 8)
      ensures r.Err? ==> ValidError(r.error) && LimitReached(r.error, old(current))
      decreases |tokens| - current, 0
    {
      var b := MatchAny([Number]);
      if b {
        var t := Previous();
        assert LiteralAttached(t);
        r := Ok(Literal(Num(t.literal.num)));
        LeafNested(r.value);
        return;
      }
      b := MatchAny([String]);
      if b {
        var t := Previous();
        assert LiteralAttached(t);
        r := Ok(Literal(Str(t.literal.str)));
        LeafNested(r.value);
        return;
      }
      b := MatchAny([Identifier]);
      if b {
        r := Ok(Variable(Previous()));
        LeafNested(r.value);
        return;
      }
      if Check(LeftParen) {
        var skipped := Advance();
        ghost var mid := current;
        var e := Expression();
        if e.Err? {
          LimitWidens(e.error, old(current), mid);
          return e;
        }
        var close := Consume(RightParen, "Expected ')' after expression.");
        if close.Err? {
          return Err(close.error);
        }
        GroupingNested(e.value);
        return Ok(Grouping(e.value));
      }
      return Err(ExpectedExpression);
    }

    // ---- Statements ----

    method ExprStmt() returns (r: Result<Stmt, ParseError>)
      requires Valid()
      modifies this`current
      ensures Valid() && old(current) <= current
      ensures r.Ok? ==> old(current) < current && Parsed(r.value) && r.value.Expression?
      ensures r.Err? ==> ValidError(r.error)
      decreases |tokens| - current, 13
    {
      var e := Expression();
      if e.Err? {
        return Err(e.error);
      }
      var semi := Consume(Semicolon, "Expected ';' after expression.");
      if semi.Err? {
        return Err(semi.error);
      }
      return Ok(Stmt.Expression(e.value));
    }

    method PrintStmt() returns (r: Result<Stmt, ParseError>)
      requires Valid()
      modifies this`current
      ensures Valid() && old(current) <= current
      ensures r.Ok? ==> old(current) < current && Parsed(r.value) && r.value.Print?
      ensures r.Err? ==> ValidError(r.error)
      decreases |tokens| - current, 13
    {
      var e := Expression();
      if e.Err? {
        return Err(e.error);
      }
      var semi := Consume(Semicolon, "Expected ';' after expression.");
      if semi.Err? {
        return Err(semi.error);
      }
      return Ok(Print(e.value));
    }

    /** `return_stmt`, entered just after `return`; a missing value is
        `nil`. */
    method ReturnStmt() returns (r: Result<Stmt, ParseError>)
      requires Valid() && current >= 1 && tokens[current - 1].tokenType == KwReturn
      modifies this`current
      ensures Valid() && old(current) <= current
      ensures r.Ok? ==> old(current) < current && Parsed(r.value) && r.value.Return?
      ensures r.Ok? && tokens[old(current)].tokenType == Semicolon ==> r.value.value == Literal(Nil)
      ensures r.Err? ==> ValidError(r.error)
      decreases |tokens| - current, 13
    {
      var keyword := Previous();
      var value: Expr;
      if !Check(Semicolon) {
        var e := Expression();
        if e.Err? {
          return Err(e.error);
        }
        value := e.value;
      } else {
        value := Literal(Nil);
        LeafNested(value);
      }
      var semi := Consume(Semicolon, "Expected ';' after return value.");
      if semi.Err? {
        return Err(semi.error);
      }
      return Ok(Return(keyword, value));
    }

    /** `var_declaration`, entered just after `var`; a missing initializer
        is `nil`. */
    method VarDeclaration() returns (r: Result<Stmt, ParseError>)
      requires Valid()
      modifies this`current
      ensures Valid() && old(current) <= current
      ensures r.Ok? ==> old(current) < current && Parsed(r.value) && r.value.VarDecl?
      ensures r.Ok? ==> r.value.name == tokens[old(current)] && old(current) + 1 < |tokens|
      ensures r.Ok? ==> (tokens[old(current) + 1].tokenType != Equal ==> r.value.initializer == Literal(Nil))
      ensures r.Err? ==> ValidError(r.error)
      decreases |tokens| - current, 13
    {
      var head := VarHead();
      if head.Err? {
        return Err(head.error);
      }
      var semi := Consume(Semicolon, "Expected ';' after variable declaration.");
      if semi.Err? {
        return Err(semi.error);
      }
      return Ok(head.value);
    }

    /** The variable name and its initializer. */
    method VarHead() returns (r: Result<Stmt, ParseError>)
      requires Valid()
      modifies this`current
      ensures Valid() && old(current) <= current
      ensures r.Ok? ==> old(current) < current && Parsed(r.value) && r.value.VarDecl?
      ensures r.Ok? ==> r.value.name == tokens[old(current)] && old(current) + 1 < |tokens|
      ensures r.Ok? ==> (tokens[old(current) + 1].tokenType != Equal ==> r.value.initializer == Literal(Nil))
      ensures r.Err? ==> ValidError(r.error)
      decreases |tokens| - current, 13
    {
      var name := Consume(Identifier, "Expected variable name.");
      if name.Err? {
        return Err(name.error);
      }
      var initializer := VarInitializer();
      if initializer.Err? {
        return Err(initializer.error);
      }
      return Ok(VarDecl(name.value, initializer.value));
    }

    /** The initializer of a `var`: the expression after `=`, or `nil` when
        there is no `=`, reading nothing. */
    method VarInitializer() returns (r: Result<Expr, ParseError>)
      requires Valid()
      modifies this`current
      ensures Valid() && old(current) <= current
      ensures r.Ok? ==> WellNested(r.value)
      ensures tokens[old(current)].tokenType != Equal ==> r == Ok(Literal(Nil)) && current == old(current)
      ensures r.Err? ==> ValidError(r.error)
      decreases |tokens| - current, 12
    {
      var b := MatchAny([Equal]);
      if b {
        var e := Expression();
        if e.Err? {
          return Err(e.error);
        }
        return Ok(e.value);
      }
      LeafNested(Literal(Nil));
      return Ok(Literal(Nil));
    }

    method WhileStmt() returns (r: Result<Stmt, ParseError>)
      requires Valid()
      modifies this`current
      ensures Valid() && old(current) <= current
      ensures r.Ok? ==> old(current) < current && Parsed(r.value) && r.value.While?
      ensures r.Err? ==> ValidError(r.error)
      decreases |tokens| - current, 13
    {
      var open := Consume(LeftParen, "Expected '(' after 'while'.");
      if open.Err? {
        return Err(open.error);
      }
      var condition := Expression();
      if condition.Err? {
        return Err(condition.error);
      }
      var close := Consume(RightParen, "Expected ')' after 'while' condition.");
      if close.Err? {
        return Err(close.error);
      }
      var body := Statement();
      if body.Err? {
        return body;
      }
      return Ok(While(condition.value, body.value));
    }

    method IfStmt() returns (r: Result<Stmt, ParseError>)
      requires Valid()
      modifies this`current
      ensures Valid() && old(current) <= current
      ensures r.Ok? ==> old(current) < current && Parsed(r.value) && r.value.If?
      ensures r.Err? ==> ValidError(r.error)
      decreases |tokens| - current, 13
    {
      var open := Consume(LeftParen, "Expected '(' after 'if'.");
      if open.Err? {
        return Err(open.error);
      }
      var condition := Expression();
      if condition.Err? {
        return Err(condition.error);
      }
      var close := Consume(RightParen, "Expected ')' after 'if' condition.");
      if close.Err? {
        return Err(close.error);
      }
      var thenBranch := Statement();
      if thenBranch.Err? {
        return thenBranch;
      }
      var elseBranch: Option<Stmt> := None;
      var b := MatchAny([KwElse]);
      if b {
        var e := Statement();
        if e.Err? {
          return e;
        }
        elseBranch := Some(e.value);
      }
      IfParsed(condition.value, thenBranch.value, elseBranch);
      return Ok(If(condition.value, thenBranch.value, elseBranch));
    }

    /** The optional expression of a `for` condition or increment clause,
        as written: `match_any` consumes the delimiter of an empty clause. */
    method OptionalClauseAsWritten(delimiter: TokenType) returns (r: Result<Option<Expr>, ParseError>)
      requires Valid() && delimiter != EOF
      modifies this`current
      ensures Valid() && old(current) <= current
      ensures tokens[old(current)].tokenType == delimiter ==> r == Ok(None) && current == old(current) + 1
      ensures tokens[old(current)].tokenType != delimiter && r.Ok? ==>
                old(current) < current && r.value.Some? && AtLevel(r.value.value, 0)
      ensures r.Err? ==> ValidError(r.error)
      decreases |tokens| - current, 12
    {
      var b := MatchAny([delimiter]);
      if !b {
        var e := Expression();
        if e.Err? {
          return Err(e.error);
        }
        return Ok(Some(e.value));
      }
      return Ok(None);
    }

    /** A `for` clause as written: the optional expression, then `consume`
        of the delimiter, so an empty clause needs its delimiter twice. */
    method ClauseAsWritten(delimiter: TokenType, message: string) returns (r: Result<Option<Expr>, ParseError>)
      requires Valid() && delimiter != EOF
      modifies this`current
      ensures Valid() && old(current) <= current
      ensures r.Ok? ==> old(current) < current && (r.value.Some? ==> AtLevel(r.value.value, 0))
      ensures tokens[old(current)].tokenType == delimiter ==>
                (r.Ok? <==> tokens[old(current) + 1].tokenType == delimiter)
                && (r.Ok? ==> r.value.None? && current == old(current) + 2)
      ensures tokens[old(current)].tokenType != delimiter && r.Ok? ==> r.value.Some?
      ensures r.Err? ==> ValidError(r.error)
      decreases |tokens| - current, 13
    {
      var clause := OptionalClauseAsWritten(delimiter);
      if clause.Err? {
        return clause;
      }
      var close := Consume(delimiter, message);
      if close.Err? {
        return Err(close.error);
      }
      return clause;
    }

    /** The optional expression of a `for` clause as the grammar describes
        it: `check` looks at the delimiter and leaves it to `consume`. */
    method OptionalClause(delimiter: TokenType) returns (r: Result<Option<Expr>, ParseError>)
      requires Valid() && delimiter != EOF
      modifies this`current
      ensures Valid() && old(current) <= current
      ensures tokens[old(current)].tokenType == delimiter ==> r == Ok(None) && current == old(current)
      ensures tokens[old(current)].tokenType != delimiter && r.Ok? ==>
                old(current) < current && r.value.Some? && AtLevel(r.value.value, 0)
      ensures r.Err? ==> ValidError(r.error)
      decreases |tokens| - current, 12
    {
      if Check(delimiter) {
        return Ok(None);
      }
      var e := Expression();
      if e.Err? {
        return Err(e.error);
      }
      return Ok(Some(e.value));
    }

    /** A `for` clause as the grammar describes it: an optional expression
        and one delimiter. */
    method Clause(delimiter: TokenType, message: string) returns (r: Result<Option<Expr>, ParseError>)
      requires Valid() && delimiter != EOF
      modifies this`current
      ensures Valid() && old(current) <= current
      ensures r.Ok? ==> old(current) < current && (r.value.Some? ==> AtLevel(r.value.value, 0))
      ensures tokens[old(current)].tokenType == delimiter ==> r == Ok(None) && current == old(current) + 1
      ensures tokens[old(current)].tokenType != delimiter && r.Ok? ==> r.value.Some?
      ensures r.Err? ==> ValidError(r.error)
      decreases |tokens| - current, 13
    {
      var clause := OptionalClause(delimiter);
      if clause.Err? {
        return clause;
      }
      var close := Consume(delimiter, message);
      if close.Err? {
        return Err(close.error);
      }
      return clause;
    }

    /** `for_stmt`, entered just after `for`, as written: the clauses as
        `ForClauses` parses them, desugared into `while`. An empty condition
        clause needs a second `;`, so `for (;;)` is rejected. The ghost
        `clauses` and `body` are the parts that were desugared. */
    method ForStmt() returns (r: Result<Stmt, ParseError>, ghost clauses: (Option<Stmt>, Option<Expr>, Option<Expr>), ghost body: Stmt)
      requires Valid()
      modifies this`current
      ensures Valid() && old(current) <= current
      ensures r.Ok? ==> old(current) + 3 < current && Parsed(r.value) && Parsed(body)
      ensures r.Ok? ==> r.value == DesugarFor(clauses.0, clauses.1, clauses.2, body)
      ensures r.Ok? ==> (clauses.0.Some? ==> Parsed(clauses.0.value))
                        && (clauses.1.Some? ==> AtLevel(clauses.1.value, 0))
                        && (clauses.2.Some? ==> AtLevel(clauses.2.value, 0))
      ensures r.Ok? ==> (tokens[old(current) + 1].tokenType == Semicolon && tokens[old(current) + 2].tokenType == Semicolon
                         ==> tokens[old(current) + 3].tokenType == Semicolon)
      ensures r.Err? ==> ValidError(r.error)
      decreases |tokens| - current, 13
    {
      clauses, body := (None, None, None), ParseError;
      var parts := ForClauses();
      if parts.Err? {
        return Err(parts.error), clauses, body;
      }
      clauses := parts.value;
      var (initializer, condition, increment) := parts.value;
      var loopBody := Statement();
      if loopBody.Err? {
        return loopBody, clauses, body;
      }
      body := loopBody.value;
      return Ok(DesugarFor(initializer, condition, increment, loopBody.value)), clauses, body;
    }

    /** `for_stmt` with the clause parsing corrected (see `Clause`); the ghost
        `clauses` and `body` are the parts that were desugared. */
    method ForStmtCorrected() returns (r: Result<Stmt, ParseError>, ghost clauses: (Option<Stmt>, Option<Expr>, Option<Expr>), ghost body: Stmt)
      requires Valid()
      modifies this`current
      ensures Valid() && old(current) <= current
      ensures r.Ok? ==> old(current) + 3 < current && Parsed(r.value) && Parsed(body)
      ensures r.Ok? ==> r.value == DesugarFor(clauses.0, clauses.1, clauses.2, body)
      ensures r.Ok? ==> (clauses.0.Some? ==> Parsed(clauses.0.value))
                        && (clauses.1.Some? ==> AtLevel(clauses.1.value, 0))
                        && (clauses.2.Some? ==> AtLevel(clauses.2.value, 0))
      ensures (old(current) + 3 < |tokens| && tokens[old(current)].tokenType == LeftParen
               && tokens[old(current) + 1].tokenType == Semicolon && tokens[old(current) + 2].tokenType == Semicolon
               && tokens[old(current) + 3].tokenType == RightParen)
              ==> clauses == (None, None, None) && (r.Ok? ==> r.value == ForLoop(None, None, body))
      ensures r.Err? ==> ValidError(r.error)
      decreases |tokens| - current, 13
    {
      clauses, body := (None, None, None), ParseError;
      var parts := ForClausesCorrected();
      if parts.Err? {
        return Err(parts.error), clauses, body;
      }
      clauses := parts.value;
      var (initializer, condition, increment) := parts.value;
      var loopBody := Statement();
      if loopBody.Err? {
        return loopBody, clauses, body;
      }
      body := loopBody.value;
      return Ok(DesugarFor(initializer, condition, increment, loopBody.value)), clauses, body;
    }

    /** The `(` and the initializer clause of a `for`: `;`, a variable
        declaration or an expression statement. */
    method ForInitializer() returns (r: Result<Option<Stmt>, ParseError>)
      requires Valid()
      modifies this`current
      ensures Valid() && old(current) <= current
      ensures r.Ok? ==> old(current) + 1 < current && (r.value.Some? ==> Parsed(r.value.value))
      ensures r.Ok? ==> (tokens[old(current) + 1].tokenType == Semicolon ==> r.value.None? && current == old(current) + 2)
      ensures (old(current) + 1 < |tokens| && tokens[old(current)].tokenType == LeftParen
               && tokens[old(current) + 1].tokenType == Semicolon)
              ==> r == Ok(None) && current == old(current) + 2
      ensures r.Err? ==> ValidError(r.error)
      decreases |tokens| - current, 13
    {
      var open := Consume(LeftParen, "Expected '(' after 'for'.");
      if open.Err? {
        return Err(open.error);
      }
      var b := MatchAny([Semicolon]);
      if b {
        return Ok(None);
      }
      var d := InitializerStmt();
      if d.Err? {
        return Err(d.error);
      }
      return Ok(Some(d.value));
    }

    /** A `for` initializer that is not empty: a `var` declaration or an
        expression statement. */
    method InitializerStmt() returns (r: Result<Stmt, ParseError>)
      requires Valid()
      modifies this`current
      ensures Valid() && old(current) <= current
      ensures r.Ok? ==> old(current) < current && Parsed(r.value)
      ensures r.Err? ==> ValidError(r.error)
      decreases |tokens| - current, 12
    {
      var b := MatchAny([KwVar]);
      if b {
        r := VarDeclaration();
      } else {
        r := ExprStmt();
      }
    }

    /** The parenthesized clauses of a `for` as written: the initializer,
        then the condition and increment clauses as `ClauseAsWritten` parses
        them. */
    method ForClauses() returns (r: Result<(Option<Stmt>, Option<Expr>, Option<Expr>), ParseError>)
      requires Valid()
      modifies this`current
      ensures Valid() && old(current) <= current
      ensures r.Ok? ==> old(current) + 3 < current
      ensures r.Ok? ==> (r.value.0.Some? ==> Parsed(r.value.0.value))
                        && (r.value.1.Some? ==> AtLevel(r.value.1.value, 0))
                        && (r.value.2.Some? ==> AtLevel(r.value.2.value, 0))
      ensures r.Ok? ==> (tokens[old(current) + 1].tokenType == Semicolon && tokens[old(current) + 2].tokenType == Semicolon
                         ==> tokens[old(current) + 3].tokenType == Semicolon)
      ensures r.Err? ==> ValidError(r.error)
      decreases |tokens| - current, 13
    {
      var initializer := ForInitializer();
      if initializer.Err? {
        return Err(initializer.error);
      }
      var condition := ClauseAsWritten(Semicolon, "Expected ';' after for loop condition.");
      if condition.Err? {
        return Err(condition.error);
      }
      var increment := ClauseAsWritten(RightParen, "Expected ')' after for clauses.");
      if increment.Err? {
        return Err(increment.error);
      }
      return Ok((initializer.value, condition.value, increment.value));
    }

    /** The clauses of a `for` with the clause parsing corrected: `for (;;)`
        has three empty clauses and reads exactly its four tokens. */
    method ForClausesCorrected() returns (r: Result<(Option<Stmt>, Option<Expr>, Option<Expr>), ParseError>)
      requires Valid()
      modifies this`current
      ensures Valid() && old(current) <= current
      ensures r.Ok? ==> old(current) + 3 < current
      ensures r.Ok? ==> (r.value.0.Some? ==> Parsed(r.value.0.value))
                        && (r.value.1.Some? ==> AtLevel(r.value.1.value, 0))
                        && (r.value.2.Some? ==> AtLevel(r.value.2.value, 0))
      ensures (old(current) + 3 < |tokens| && tokens[old(current)].tokenType == LeftParen
               && tokens[old(current) + 1].tokenType == Semicolon && tokens[old(current) + 2].tokenType == Semicolon
               && tokens[old(current) + 3].tokenType == RightParen)
              ==> r == Ok((None, None, None)) && current == old(current) + 4
      ensures r.Err? ==> ValidError(r.error)
      decreases |tokens| - current, 13
    {
      var initializer := ForInitializer();
      if initializer.Err? {
        return Err(initializer.error);
      }
      var condition := Clause(Semicolon, "Expected ';' after for loop condition.");
      if condition.Err? {
        return Err(condition.error);
      }
      var increment := Clause(RightParen, "Expected ')' after for clauses.");
      if increment.Err? {
        return Err(increment.error);
      }
      return Ok((initializer.value, condition.value, increment.value));
    }

    method BlockStmt() returns (r: Result<Stmt, ParseError>)
      requires Valid()
      modifies this`current
      ensures Valid() && old(current) <= current
      ensures r.Ok? ==> old(current) < current && Parsed(r.value) && r.value.Block?
      ensures r.Err? ==> ValidError(r.error)
      decreases |tokens| - current, 18
    {
      var stmts := Block();
      if stmts.Err? {
        return Err(stmts.error);
      }
      return Ok(Stmt.Block(stmts.value));
    }

    /** `block`: declarations up to the closing `}`, each recovering from its
        own errors. */
    method Block() returns (r: Result<seq<Stmt>, ParseError>)
      requires Valid()
      modifies this`current
      ensures Valid() && old(current) <= current
      ensures r.Ok? ==> old(current) < current && forall x :: x in r.value ==> WellFormedStmt(x)
      ensures r.Err? ==> ValidError(r.error) && r.error.Expected?
      decreases |tokens| - current, 17
    {
      var stmts: seq<Stmt> := [];
      while !Check(RightBrace) && !IsAtEnd()
        invariant Valid() && old(current) <= current
        invariant forall x :: x in stmts ==> WellFormedStmt(x)
        decreases |tokens| - current
      {
        var s, _ := DeclarationWithErrorHandling();
        stmts := stmts + [s];
      }
      var close := Consume(RightBrace, "Expected '}' after block.");
      if close.Err? {
        return Err(close.error);
      }
      return Ok(stmts);
    }

    /** `function`, entered just after `fun`: a name, at most 256
        parameters in parentheses, and a block body. */
    method FunctionDeclaration(kind: string) returns (r: Result<Stmt, ParseError>)
      requires Valid()
      modifies this`current
      ensures Valid() && old(current) <= current
      ensures r.Ok? ==> old(current) < current && Parsed(r.value) && r.value.FunctionDecl?
      ensures r.Ok? ==> r.value.decl.name == tokens[old(current)] && |r.value.decl.parameters| <= 256
      ensures r.Err? ==> ValidError(r.error) && LimitReached(r.error, old(current))
      decreases |tokens| - current, 13
    {
      var name := Consume(Identifier, "Expected " + kind + " name.");
      if name.Err? {
        return Err(name.error);
      }
      var open := Consume(LeftParen, "Expected '(' after " + kind + " name.");
      if open.Err? {
        return Err(open.error);
      }
      ghost var mid := current;
      var parameters, _ := Parameters(kind);
      if parameters.Err? {
        LimitWidens(parameters.error, old(current), mid);
        return Err(parameters.error);
      }
      var brace := Consume(LeftBrace, "Expected '{' before " + kind + " body.");
      if brace.Err? {
        return Err(brace.error);
      }
      var body := Block();
      if body.Err? {
        return Err(body.error);
      }
      return Ok(FunctionDecl(Function(name.value, parameters.value, body.value)));
    }

    /** The parameter list of `function` after `(`, up to and including
        `)`. As for arguments, the limit error comes only once 256
        parameters, each followed by a comma, have been read; `collected`
        counts the parameters read. */
    method Parameters(kind: string) returns (r: Result<seq<Token>, ParseError>, ghost collected: nat)
      requires Valid()
      modifies this`current
      ensures Valid() && old(current) <= current && collected <= 256
      ensures r.Ok? ==> old(current) < current && |r.value| == collected
      ensures r.Err? && r.error.TooManyArguments? ==> collected == 256
      ensures r.Ok? ==> forall p :: p in r.value ==> p.tokenType == Identifier
      ensures r.Err? ==> ValidError(r.error) && LimitReached(r.error, old(current))
    {
      var parameters: seq<Token> := [];
      collected := 0;
      if !Check(RightParen) {
        while true
          invariant Valid() && old(current) <= current && |parameters| <= 256
          invariant |parameters| <= Commas(tokens[old(current)..current])
          invariant collected == |parameters|
          invariant forall p :: p in parameters ==> p.tokenType == Identifier
          decreases |tokens| - current
        {
          if |parameters| > 255 {
            return Err(TooManyArguments(Peek())), collected;
          }
          ghost var mid := current;
          var param := Consume(Identifier, "Expected parameter name.");
          if param.Err? {
            return Err(param.error), collected;
          }
          parameters := parameters + [param.value];
          collected := |parameters|;
          ghost var end := current;
          var more := MatchAny([Comma]);
          if !more {
            break;
          }
          CommaRead(old(current), mid, end);
        }
      }
      var close := Consume(RightParen, "Expected ')' after " + kind + " parameters.");
      if close.Err? {
        return Err(close.error), collected;
      }
      return Ok(parameters), collected;
    }

    method Statement() returns (r: Result<Stmt, ParseError>)
      requires Valid()
      modifies this`current
      ensures Valid() && old(current) <= current
      ensures r.Ok? ==> old(current) < current && Parsed(r.value)
      ensures r.Err? ==> ValidError(r.error)
      decreases |tokens| - current, 14
    {
      var b := MatchAny([KwFor]);
      if b {
        var s, _, _ := ForStmt();
        return s;
      }
      b := MatchAny([KwIf]);
      if b {
        r := IfStmt();
        return;
      }
      b := MatchAny([KwPrint]);
      if b {
        r := PrintStmt();
        return;
      }
      b := MatchAny([KwReturn]);
      if b {
        r := ReturnStmt();
        return;
      }
      b := MatchAny([KwWhile]);
      if b {
        r := WhileStmt();
        return;
      }
      b := MatchAny([LeftBrace]);
      if b {
        r := BlockStmt();
        return;
      }
      r := ExprStmt();
    }

    method Declaration() returns (r: Result<Stmt, ParseError>)
      requires Valid()
      modifies this`current
      ensures Valid() && old(current) <= current
      ensures r.Ok? ==> old(current) < current && Parsed(r.value)
      ensures r.Err? ==> ValidError(r.error)
      decreases |tokens| - current, 15
    {
      var b := MatchAny([KwFun]);
      if b {
        r := FunctionDeclaration("function");
        return;
      }
      b := MatchAny([KwVar]);
      if b {
        r := VarDeclaration();
        return;
      }
      r := Statement();
    }

    /** `declaration_with_error_handling`: a failing declaration is
        reported (`reported`, printed by the source), the parser
        resynchronizes, and `ParseError` stands in for it. It never fails and
        always makes progress. */
    method DeclarationWithErrorHandling() returns (s: Stmt, ghost reported: Option<ParseError>)
      requires Valid() && !IsAtEnd()
      modifies this`current
      ensures Valid() && old(current) < current
      ensures s.ParseError? <==> reported.Some?
      ensures reported.Some? ==> ValidError(reported.value)
      ensures s.ParseError? || Parsed(s)
      decreases |tokens| - current, 16
    {
      var d := Declaration();
      if d.Err? {
        reported := Some(d.error);
        Synchronize();
        return ParseError, reported;
      }
      return d.value, None;
    }

    /** `parse`/`program`: declarations until `EOF`. Each one consumes at
        least one token, so there are never more statements than tokens. */
    method Parse() returns (stmts: seq<Stmt>)
      requires Valid()
      modifies this`current
      ensures Valid() && IsAtEnd() && old(current) <= current
      ensures |stmts| <= current - old(current)
      ensures forall x :: x in stmts ==> WellFormedStmt(x)
    {
      stmts := [];
      while !IsAtEnd()
        invariant Valid() && old(current) <= current
        invariant |stmts| <= current - old(current)
        invariant forall x :: x in stmts ==> WellFormedStmt(x)
        decreases |tokens| - current
      {
        var s, _ := DeclarationWithErrorHandling();
        stmts := stmts + [s];
      }
    }
  }

  /** The clause parsing as written rejects `for (;;)`: after the empty
      initializer, the condition clause sees `;` then `)`. */
  method EmptyConditionRejected() returns (r: Result<Option<Expr>, ParseError>)
    ensures r.Err?
  {
    var semi := Token(Semicolon, ";", NoLiteral, 1);
    var close := Token(RightParen, ")", NoLiteral, 1);
    var tokens := [semi, close, Token(EOF, "", NoLiteral, 1)];
    assert tokens[0].tokenType == Semicolon && tokens[1].tokenType == RightParen;
    var p := new Parser(tokens);
    r := p.ClauseAsWritten(Semicolon, "Expected ';' after for loop condition.");
  }

  /** The clause parsing as written rejects an empty increment followed by a
      single `)`, as in `for (x; y;) body`. */
  method EmptyIncrementRejected() returns (r: Result<Option<Expr>, ParseError>)
    ensures r.Err?
  {
    var close := Token(RightParen, ")", NoLiteral, 1);
    var semi := Token(Semicolon, ";", NoLiteral, 1);
    var tokens := [close, semi, Token(EOF, "", NoLiteral, 1)];
    assert tokens[0].tokenType == RightParen && tokens[1].tokenType == Semicolon;
    var p := new Parser(tokens);
    r := p.ClauseAsWritten(RightParen, "Expected ')' after for clauses.");
  }

  /** The corrected clause accepts the empty condition of `for (;;)`. */
  method EmptyConditionAccepted() returns (r: Result<Option<Expr>, ParseError>)
    ensures r == Ok(None)
  {
    var semi := Token(Semicolon, ";", NoLiteral, 1);
    var close := Token(RightParen, ")", NoLiteral, 1);
    var tokens := [semi, close, Token(EOF, "", NoLiteral, 1)];
    assert tokens[0].tokenType == Semicolon;
    var p := new Parser(tokens);
    r := p.Clause(Semicolon, "Expected ';' after for loop condition.");
  }
}
