/** Static scope resolution (src/sema/resolver.rs). The resolver keeps a
    stack of scopes, each mapping a name to whether its initializer has
    been resolved. For every variable use or assignment it tells the
    interpreter at which depths the name is found; that side table is the
    `resolved` log here, in call order. A read of a name whose innermost
    entry is still unready is reported, and resolution goes on; the
    reports are the `reported` log. No visitor ever fails: every `?` in
    the Rust code passes on a success, so the methods return nothing. */
module Resolver {
  import opened Wrappers
  import opened LoxToken
  import opened Literal
  import opened Ast

  type Scope = map<string, bool>

  /** One call of `interpreter.resolve(name, depth)`; depth 0 is the
      innermost scope. */
  datatype Resolution = Resolution(name: Token, depth: nat)

  datatype ResolverState = ResolverState(scopes: seq<Scope>, resolved: seq<Resolution>, reported: seq<Token>)

  // ---------------------------------------------------------------------
  // The scope stack

  /** `declare` (ready = false) and `define` (ready = true): the name's
      flag in the innermost scope only, inserted or overwritten; nothing
      at global level. */
  function Mark(scopes: seq<Scope>, name: string, ready: bool): (r: seq<Scope>)
    ensures |r| == |scopes|
  {
    if scopes == [] then [] else scopes[..|scopes| - 1] + [scopes[|scopes| - 1][name := ready]]
  }

  /** `begin_scope`: a new empty innermost scope. */
  function Push(st: ResolverState): ResolverState {
    st.(scopes := st.scopes + [map[]])
  }

  /** `end_scope`: `Vec::pop`, which does nothing on an empty stack. */
  function Pop(st: ResolverState): ResolverState {
    if st.scopes == [] then st else st.(scopes := st.scopes[..|st.scopes| - 1])
  }

  /** Marking a name changes its flag in the innermost scope and nothing
      else; at global level it changes nothing. */
  lemma MarkEffect(scopes: seq<Scope>, name: string, ready: bool)
    ensures scopes == [] ==> Mark(scopes, name, ready) == []
    ensures scopes != [] ==>
              Mark(scopes, name, ready)[..|scopes| - 1] == scopes[..|scopes| - 1]
              && Mark(scopes, name, ready)[|scopes| - 1] == scopes[|scopes| - 1][name := ready]
              && name in Mark(scopes, name, ready)[|scopes| - 1]
              && Mark(scopes, name, ready)[|scopes| - 1][name] == ready
  {
  }

  /** Redeclaring a name in the same scope is no error: declaring it twice
      is declaring it once, and a later definition wins. */
  lemma MarkIdempotent(scopes: seq<Scope>, name: string, a: bool, b: bool)
    ensures Mark(Mark(scopes, name, a), name, b) == Mark(scopes, name, b)
  {
    if scopes != [] {
      var n := |scopes|;
      assert Mark(scopes, name, a)[..n - 1] == scopes[..n - 1];
      assert Mark(scopes, name, a)[n - 1] == scopes[n - 1][name := a];
      assert scopes[n - 1][name := a][name := b] == scopes[n - 1][name := b];
    }
  }

  // ---------------------------------------------------------------------
  // resolve_local

  /** The scope at depth `d`, counted from the innermost. */
  function At(scopes: seq<Scope>, d: nat): Scope
    requires d < |scopes|
  {
    scopes[|scopes| - 1 - d]
  }

  /** What `resolve_local` reports for the depths below `k`, innermost
      first: one resolution for every scope that contains the name. */
  function LocalTo(scopes: seq<Scope>, name: Token, k: nat): seq<Resolution>
    requires k <= |scopes|
  {
    if k == 0 then []
    else LocalTo(scopes, name, k - 1)
         + (if name.lexeme in At(scopes, k - 1) then [Resolution(name, k - 1)] else [])
  }

  function Local(scopes: seq<Scope>, name: Token): seq<Resolution> {
    LocalTo(scopes, name, |scopes|)
  }

  /** `resolve_local` reports the name at a depth exactly when the scope at
      that depth contains it, each such depth once and innermost first (not
      only the innermost match); a name in no local scope is not reported
      at all. */
  lemma {:induction false} LocalToExact(scopes: seq<Scope>, name: Token, k: nat)
    requires k <= |scopes|
    ensures forall r :: r in LocalTo(scopes, name, k)
              <==> r.name == name && r.depth < k && name.lexeme in At(scopes, r.depth)
    ensures forall i, j :: 0 <= i < j < |LocalTo(scopes, name, k)|
              ==> LocalTo(scopes, name, k)[i].depth < LocalTo(scopes, name, k)[j].depth
  {
    if k > 0 {
      LocalToExact(scopes, name, k - 1);
    }
  }

  lemma LocalExact(scopes: seq<Scope>, name: Token)
    ensures forall r :: r in Local(scopes, name)
              <==> r.name == name && r.depth < |scopes| && name.lexeme in At(scopes, r.depth)
    ensures forall i, j :: 0 <= i < j < |Local(scopes, name)|
              ==> Local(scopes, name)[i].depth < Local(scopes, name)[j].depth
    ensures (forall d :: 0 <= d < |scopes| ==> name.lexeme !in At(scopes, d)) ==> Local(scopes, name) == []
  {
    LocalToExact(scopes, name, |scopes|);
    if Local(scopes, name) != [] {
      var r := Local(scopes, name)[0];
      assert r in Local(scopes, name);
      assert name.lexeme in At(scopes, r.depth);
    }
  }

  // ---------------------------------------------------------------------
  // Expressions: they never change the scopes

  /** The resolutions an expression makes, in the order the visitors make
      them: operands left to right, an assignment's value before its
      target, the callee before the arguments. */
  function Resolutions(scopes: seq<Scope>, e: Expr): seq<Resolution>
    decreases e
  {
    match e
    case Assign(name, value) => Resolutions(scopes, value) + Local(scopes, name)
    case Binary(l, _, r) => Resolutions(scopes, l) + Resolutions(scopes, r)
    case Logical(l, _, r) => Resolutions(scopes, l) + Resolutions(scopes, r)
    case Unary(_, r) => Resolutions(scopes, r)
    case Grouping(inner) => Resolutions(scopes, inner)
    case Literal(_) => []
    case Variable(name) => Local(scopes, name)
    case Call(callee, _, args) => Resolutions(scopes, callee) + ResolutionsAll(scopes, args)
  }

  function ResolutionsAll(scopes: seq<Scope>, es: seq<Expr>): seq<Resolution>
    decreases es
  {
    if es == [] then [] else ResolutionsAll(scopes, es[..|es| - 1]) + Resolutions(scopes, es[|es| - 1])
  }

  /** A read of a name that the innermost scope holds as not yet ready:
      the only error the resolver reports. */
  predicate ReadsUnready(scopes: seq<Scope>, name: Token) {
    scopes != [] && name.lexeme in scopes[|scopes| - 1] && !scopes[|scopes| - 1][name.lexeme]
  }

  /** The reports an expression makes, in visiting order. */
  function Reports(scopes: seq<Scope>, e: Expr): seq<Token>
    decreases e
  {
    match e
    case Assign(_, value) => Reports(scopes, value)
    case Binary(l, _, r) => Reports(scopes, l) + Reports(scopes, r)
    case Logical(l, _, r) => Reports(scopes, l) + Reports(scopes, r)
    case Unary(_, r) => Reports(scopes, r)
    case Grouping(inner) => Reports(scopes, inner)
    case Literal(_) => []
    case Variable(name) => if ReadsUnready(scopes, name) then [name] else []
    case Call(callee, _, args) => Reports(scopes, callee) + ReportsAll(scopes, args)
  }

  function ReportsAll(scopes: seq<Scope>, es: seq<Expr>): seq<Token>
    decreases es
  {
    if es == [] then [] else ReportsAll(scopes, es[..|es| - 1]) + Reports(scopes, es[|es| - 1])
  }

  /** Resolving an expression: the scopes stay, both logs grow. */
  function ExprStep(st: ResolverState, e: Expr): ResolverState {
    ResolverState(st.scopes, st.resolved + Resolutions(st.scopes, e), st.reported + Reports(st.scopes, e))
  }

  /** Resolving a list of arguments, one after the other. */
  function ArgsStep(st: ResolverState, es: seq<Expr>): ResolverState {
    ResolverState(st.scopes, st.resolved + ResolutionsAll(st.scopes, es), st.reported + ReportsAll(st.scopes, es))
  }

  lemma ArgsStepSnoc(st: ResolverState, es: seq<Expr>, a: Expr)
    ensures ArgsStep(st, es + [a]) == ExprStep(ArgsStep(st, es), a)
  {
    assert (es + [a])[..|es|] == es;
  }

  /** A call resolves its callee, then its arguments. */
  lemma CallStep(st: ResolverState, e: Expr)
    requires e.Call?
    ensures ExprStep(st, e) == ArgsStep(ExprStep(st, e.callee), e.arguments)
  {
  }

  /** Every resolution names a depth that exists and whose scope holds the
      name. */
  predicate Sound(scopes: seq<Scope>, log: seq<Resolution>) {
    forall i :: 0 <= i < |log| ==> log[i].depth < |scopes| && log[i].name.lexeme in At(scopes, log[i].depth)
  }

  lemma SoundAppend(scopes: seq<Scope>, a: seq<Resolution>, b: seq<Resolution>)
    requires Sound(scopes, a) && Sound(scopes, b)
    ensures Sound(scopes, a + b)
  {
    forall i | 0 <= i < |a + b|
      ensures (a + b)[i].depth < |scopes| && (a + b)[i].name.lexeme in At(scopes, (a + b)[i].depth)
    {
      if i >= |a| {
        assert (a + b)[i] == b[i - |a|];
      }
    }
  }

  lemma LocalSound(scopes: seq<Scope>, name: Token)
    ensures Sound(scopes, Local(scopes, name))
  {
    LocalExact(scopes, name);
    forall i | 0 <= i < |Local(scopes, name)|
      ensures Local(scopes, name)[i].depth < |scopes|
              && Local(scopes, name)[i].name.lexeme in At(scopes, Local(scopes, name)[i].depth)
    {
      assert Local(scopes, name)[i] in Local(scopes, name);
    }
  }

  /** Whatever an expression resolves, it resolves soundly. */
  lemma {:induction false} ResolutionsSound(scopes: seq<Scope>, e: Expr)
    ensures Sound(scopes, Resolutions(scopes, e))
    decreases e
  {
    match e
    case Assign(name, value) =>
      ResolutionsSound(scopes, value);
      LocalSound(scopes, name);
      SoundAppend(scopes, Resolutions(scopes, value), Local(scopes, name));
    case Binary(l, _, r) =>
      ResolutionsSound(scopes, l);
      ResolutionsSound(scopes, r);
      SoundAppend(scopes, Resolutions(scopes, l), Resolutions(scopes, r));
    case Logical(l, _, r) =>
      ResolutionsSound(scopes, l);
      ResolutionsSound(scopes, r);
      SoundAppend(scopes, Resolutions(scopes, l), Resolutions(scopes, r));
    case Unary(_, r) =>
      ResolutionsSound(scopes, r);
    case Grouping(inner) =>
      ResolutionsSound(scopes, inner);
    case Literal(_) =>
    case Variable(name) =>
      LocalSound(scopes, name);
    case Call(callee, _, args) =>
      ResolutionsSound(scopes, callee);
      ResolutionsAllSound(scopes, args);
      SoundAppend(scopes, Resolutions(scopes, callee), ResolutionsAll(scopes, args));
  }

  lemma {:induction false} ResolutionsAllSound(scopes: seq<Scope>, es: seq<Expr>)
    ensures Sound(scopes, ResolutionsAll(scopes, es))
    decreases es
  {
    if es != [] {
      ResolutionsAllSound(scopes, es[..|es| - 1]);
      ResolutionsSound(scopes, es[|es| - 1]);
      SoundAppend(scopes, ResolutionsAll(scopes, es[..|es| - 1]), Resolutions(scopes, es[|es| - 1]));
    }
  }

  /** At global level an expression is neither resolved nor reported: the
      interpreter looks such names up among the globals. */
  lemma {:induction false} GlobalExprUntouched(e: Expr)
    ensures Resolutions([], e) == [] && Reports([], e) == []
    decreases e
  {
    match e
    case Assign(_, value) => GlobalExprUntouched(value);
    case Binary(l, _, r) => GlobalExprUntouched(l); GlobalExprUntouched(r);
    case Logical(l, _, r) => GlobalExprUntouched(l); GlobalExprUntouched(r);
    case Unary(_, r) => GlobalExprUntouched(r);
    case Grouping(inner) => GlobalExprUntouched(inner);
    case Literal(_) =>
    case Variable(_) =>
    case Call(callee, _, args) =>
      GlobalExprUntouched(callee);
      GlobalArgsUntouched(args);
  }

  lemma {:induction false} GlobalArgsUntouched(es: seq<Expr>)
    ensures ResolutionsAll([], es) == [] && ReportsAll([], es) == []
    decreases es
  {
    if es != [] {
      GlobalArgsUntouched(es[..|es| - 1]);
      GlobalExprUntouched(es[|es| - 1]);
    }
  }

  // ---------------------------------------------------------------------
  // Statements

  /** Resolving one statement, as the statement visitors do it. */
  function StmtStep(st: ResolverState, s: Stmt): ResolverState
    decreases s
  {
    match s
    case ParseError => st
    case Print(e) => ExprStep(st, e)
    case Return(_, value) => ExprStep(st, value)
    case Expression(e) => ExprStep(st, e)
    case VarDecl(name, init) =>
      var declared := st.(scopes := Mark(st.scopes, name.lexeme, false));
      var resolved := ExprStep(declared, init);
      resolved.(scopes := Mark(resolved.scopes, name.lexeme, true))
    case If(c, t, els) =>
      var afterThen := StmtStep(ExprStep(st, c), t);
      if els.Some? then StmtStep(afterThen, els.value) else afterThen
    case While(c, body) => StmtStep(ExprStep(st, c), body)
    case Block(ss) => Pop(StmtsStep(Push(st), ss))
    case FunctionDecl(f) =>
      var named := st.(scopes := Mark(Mark(st.scopes, f.name.lexeme, false), f.name.lexeme, true));
      FunctionStep(named, f)
  }

  /** `resolve_stmts`: the statements in order. */
  function StmtsStep(st: ResolverState, ss: seq<Stmt>): ResolverState
    decreases ss
  {
    if ss == [] then st else StmtStep(StmtsStep(st, ss[..|ss| - 1]), ss[|ss| - 1])
  }

  /** `resolve_function`: a new scope holding the parameters, each declared
      then defined, encloses the body. */
  function FunctionStep(st: ResolverState, f: Function): ResolverState
    decreases f
  {
    Pop(StmtsStep(Params(Push(st), f.parameters), f.body))
  }

  function Params(st: ResolverState, params: seq<Token>): ResolverState {
    if params == [] then st
    else
      var before := Params(st, params[..|params| - 1]);
      var name := params[|params| - 1].lexeme;
      before.(scopes := Mark(Mark(before.scopes, name, false), name, true))
  }

  /** A statement keeps the number of scopes and every scope but the
      innermost, and only appends to the logs. */
  predicate KeepsOuter(st: ResolverState, r: ResolverState) {
    |r.scopes| == |st.scopes|
    && (st.scopes != [] ==> r.scopes[..|st.scopes| - 1] == st.scopes[..|st.scopes| - 1])
    && st.resolved <= r.resolved
    && st.reported <= r.reported
  }

  lemma KeepsOuterTrans(a: ResolverState, b: ResolverState, c: ResolverState)
    requires KeepsOuter(a, b) && KeepsOuter(b, c)
    ensures KeepsOuter(a, c)
  {
    if a.scopes != [] {
      var n := |a.scopes| - 1;
      assert c.scopes[..n] == c.scopes[..n + 1][..n];
      assert b.scopes[..n] == b.scopes[..n + 1][..n];
    }
  }

  lemma MarkKeepsOuter(st: ResolverState, name: string, ready: bool)
    ensures KeepsOuter(st, st.(scopes := Mark(st.scopes, name, ready)))
  {
    MarkEffect(st.scopes, name, ready);
  }

  lemma ExprKeepsOuter(st: ResolverState, e: Expr)
    ensures KeepsOuter(st, ExprStep(st, e))
  {
  }

  /** The parameters land in the innermost scope. */
  lemma {:induction false} ParamsKeepOuter(st: ResolverState, params: seq<Token>)
    ensures KeepsOuter(st, Params(st, params))
    decreases params
  {
    if params != [] {
      var before := Params(st, params[..|params| - 1]);
      var name := params[|params| - 1].lexeme;
      ParamsKeepOuter(st, params[..|params| - 1]);
      var once := before.(scopes := Mark(before.scopes, name, false));
      MarkKeepsOuter(before, name, false);
      MarkKeepsOuter(once, name, true);
      KeepsOuterTrans(before, once, Params(st, params));
      KeepsOuterTrans(st, before, Params(st, params));
    }
  }

  /** A scope pushed, changed only innermost, and popped again leaves the
      stack exactly as it was. */
  lemma PushPop(st: ResolverState, inner: ResolverState)
    requires KeepsOuter(Push(st), inner)
    ensures Pop(inner).scopes == st.scopes
    ensures KeepsOuter(st, Pop(inner))
  {
    assert Push(st).scopes[..|st.scopes|] == st.scopes;
  }

  lemma {:induction false} StmtKeepsOuter(st: ResolverState, s: Stmt)
    ensures KeepsOuter(st, StmtStep(st, s))
    decreases s
  {
    match s
    case ParseError =>
    case Print(e) =>
    case Return(_, value) =>
    case Expression(e) =>
    case VarDecl(name, init) =>
      var declared := st.(scopes := Mark(st.scopes, name.lexeme, false));
      var resolved := ExprStep(declared, init);
      MarkKeepsOuter(st, name.lexeme, false);
      ExprKeepsOuter(declared, init);
      MarkKeepsOuter(resolved, name.lexeme, true);
      KeepsOuterTrans(st, declared, resolved);
      KeepsOuterTrans(st, resolved, StmtStep(st, s));
    case If(c, t, els) =>
      var cond := ExprStep(st, c);
      var afterThen := StmtStep(cond, t);
      ExprKeepsOuter(st, c);
      StmtKeepsOuter(cond, t);
      KeepsOuterTrans(st, cond, afterThen);
      if els.Some? {
        StmtKeepsOuter(afterThen, els.value);
        KeepsOuterTrans(st, afterThen, StmtStep(st, s));
      }
    case While(c, body) =>
      var cond := ExprStep(st, c);
      ExprKeepsOuter(st, c);
      StmtKeepsOuter(cond, body);
      KeepsOuterTrans(st, cond, StmtStep(st, s));
    case Block(ss) =>
      StmtsKeepOuter(Push(st), ss);
      PushPop(st, StmtsStep(Push(st), ss));
    case FunctionDecl(f) =>
      var once := st.(scopes := Mark(st.scopes, f.name.lexeme, false));
      var named := once.(scopes := Mark(once.scopes, f.name.lexeme, true));
      MarkKeepsOuter(st, f.name.lexeme, false);
      MarkKeepsOuter(once, f.name.lexeme, true);
      KeepsOuterTrans(st, once, named);
      FunctionKeepsOuter(named, f);
      KeepsOuterTrans(st, named, StmtStep(st, s));
  }

  lemma {:induction false} StmtsKeepOuter(st: ResolverState, ss: seq<Stmt>)
    ensures KeepsOuter(st, StmtsStep(st, ss))
    decreases ss
  {
    if ss != [] {
      var before := StmtsStep(st, ss[..|ss| - 1]);
      StmtsKeepOuter(st, ss[..|ss| - 1]);
      StmtKeepsOuter(before, ss[|ss| - 1]);
      KeepsOuterTrans(st, before, StmtsStep(st, ss));
    }
  }

  /** A function's own scope is gone once its body is resolved. */
  lemma {:induction false} FunctionKeepsOuter(st: ResolverState, f: Function)
    ensures FunctionStep(st, f).scopes == st.scopes
    ensures KeepsOuter(st, FunctionStep(st, f))
    decreases f
  {
    var params := Params(Push(st), f.parameters);
    ParamsKeepOuter(Push(st), f.parameters);
    StmtsKeepOuter(params, f.body);
    KeepsOuterTrans(Push(st), params, StmtsStep(params, f.body));
    PushPop(st, StmtsStep(params, f.body));
  }

  /** A block restores the scope stack exactly: its declarations do not
      outlive it. */
  lemma BlockRestoresScopes(st: ResolverState, ss: seq<Stmt>)
    ensures StmtStep(st, Block(ss)).scopes == st.scopes
  {
    StmtsKeepOuter(Push(st), ss);
    PushPop(st, StmtsStep(Push(st), ss));
  }

  /** A function declaration defines its name in the current scope before
      its body is resolved, so the body may call it; its parameters do
      not outlive it. */
  lemma FunctionDeclDefinesName(st: ResolverState, f: Function)
    requires st.scopes != []
    ensures var r := StmtStep(st, FunctionDecl(f));
            |r.scopes| == |st.scopes|
            && r.scopes[..|st.scopes| - 1] == st.scopes[..|st.scopes| - 1]
            && r.scopes[|st.scopes| - 1] == st.scopes[|st.scopes| - 1][f.name.lexeme := true]
  {
    var named := st.(scopes := Mark(Mark(st.scopes, f.name.lexeme, false), f.name.lexeme, true));
    FunctionKeepsOuter(named, f);
    MarkIdempotent(st.scopes, f.name.lexeme, false, true);
    MarkEffect(st.scopes, f.name.lexeme, true);
  }

  /** `var x = e`: `x` is unready while `e` is resolved, then ready. */
  lemma VarDeclStep(st: ResolverState, x: Token, init: Expr)
    ensures var declared := Mark(st.scopes, x.lexeme, false);
            StmtStep(st, VarDecl(x, init))
            == ResolverState(Mark(declared, x.lexeme, true),
                             st.resolved + Resolutions(declared, init),
                             st.reported + Reports(declared, init))
  {
  }

  /** A name held by the innermost scope is resolved at depth 0 first. */
  lemma {:induction false} LocalStartsInnermost(scopes: seq<Scope>, name: Token, k: nat)
    requires 1 <= k <= |scopes| && name.lexeme in At(scopes, 0)
    ensures |LocalTo(scopes, name, k)| > 0 && LocalTo(scopes, name, k)[0] == Resolution(name, 0)
  {
    if k > 1 {
      LocalStartsInnermost(scopes, name, k - 1);
    }
  }

  /** `var x = x;` in a local scope is reported, and yet resolution goes
      on: the initializer's `x` is resolved at depth 0 first, and `x` ends
      up defined. */
  lemma SelfReferenceReported(st: ResolverState, x: Token, use: Token)
    requires st.scopes != [] && use.lexeme == x.lexeme
    ensures var r := StmtStep(st, VarDecl(x, Variable(use)));
            r.reported == st.reported + [use]
            && |r.resolved| > |st.resolved| && r.resolved[|st.resolved|] == Resolution(use, 0)
            && r.scopes[|r.scopes| - 1][x.lexeme]
  {
    var declared := Mark(st.scopes, x.lexeme, false);
    VarDeclStep(st, x, Variable(use));
    MarkEffect(st.scopes, x.lexeme, false);
    assert ReadsUnready(declared, use);
    LocalStartsInnermost(declared, use, |declared|);
    MarkEffect(declared, x.lexeme, true);
  }

  /** Declaring the same variable twice is no error: it is the same as
      declaring it once with the second initializer. */
  lemma RedeclarationHarmless(st: ResolverState, x: Token, first: LiteralValue, second: LiteralValue)
    ensures StmtsStep(st, [VarDecl(x, Literal(first)), VarDecl(x, Literal(second))])
            == StmtStep(st, VarDecl(x, Literal(second)))
  {
    var s1 := StmtStep(st, VarDecl(x, Literal(first)));
    assert [VarDecl(x, Literal(first)), VarDecl(x, Literal(second))][..1] == [VarDecl(x, Literal(first))];
    assert StmtsStep(st, [VarDecl(x, Literal(first))]) == s1;
    MarkIdempotent(st.scopes, x.lexeme, false, true);
    MarkIdempotent(Mark(st.scopes, x.lexeme, false), x.lexeme, true, false);
    MarkIdempotent(st.scopes, x.lexeme, false, false);
  }

  /** A name declared in two enclosing scopes is resolved at both depths,
      not only at the innermost one. */
  lemma ShadowedNameResolvedTwice(x: Token)
    ensures Local([map[x.lexeme := true], map[x.lexeme := true]], x)
            == [Resolution(x, 0), Resolution(x, 1)]
  {
    var scopes := [map[x.lexeme := true], map[x.lexeme := true]];
    assert LocalTo(scopes, x, 1) == [Resolution(x, 0)];
  }

  // ---------------------------------------------------------------------
  // The resolver object

  class Resolver {
    var scopes: seq<Scope>
    /** The interpreter's side table, as the calls that fill it. */
    var resolved: seq<Resolution>
    /** The self-reference errors, in the order they are reported. */
    var reported: seq<Token>

    function Snapshot(): ResolverState
      reads this
    {
      ResolverState(scopes, resolved, reported)
    }

    /** `Resolver::new`: no scope, so resolution starts at global level. */
    constructor ()
      ensures scopes == [] && resolved == [] && reported == []
    {
      scopes := [];
      resolved := [];
      reported := [];
    }

    method BeginScope()
      modifies this
      ensures Snapshot() == Push(old(Snapshot()))
    {
      scopes := scopes + [map[]];
    }

    method EndScope()
      modifies this
      ensures Snapshot() == Pop(old(Snapshot()))
    {
      if scopes != [] {
        scopes := scopes[..|scopes| - 1];
      }
    }

    method Declare(name: Token)
      modifies this
      ensures scopes == Mark(old(scopes), name.lexeme, false)
      ensures resolved == old(resolved) && reported == old(reported)
    {
      if scopes != [] {
        var last := scopes[|scopes| - 1];
        scopes := scopes[..|scopes| - 1] + [last[name.lexeme := false]];
      }
    }

    method Define(name: Token)
      modifies this
      ensures scopes == Mark(old(scopes), name.lexeme, true)
      ensures resolved == old(resolved) && reported == old(reported)
    {
      if scopes != [] {
        var last := scopes[|scopes| - 1];
        scopes := scopes[..|scopes| - 1] + [last[name.lexeme := true]];
      }
    }

    /** `resolve_local`: walks the scopes from the innermost out. */
    method ResolveLocal(name: Token)
      modifies this
      ensures resolved == old(resolved) + Local(scopes, name)
      ensures scopes == old(scopes) && reported == old(reported)
    {
      var index := 0;
      while index < |scopes|
        invariant index <= |scopes|
        invariant resolved == old(resolved) + LocalTo(scopes, name, index)
        invariant scopes == old(scopes) && reported == old(reported)
      {
        if name.lexeme in scopes[|scopes| - 1 - index] {
          resolved := resolved + [Resolution(name, index)];
        }
        index := index + 1;
      }
    }

    /** `resolve_expr` and the expression visitors. */
    method ResolveExpr(e: Expr)
      modifies this
      ensures Snapshot() == ExprStep(old(Snapshot()), e)
      decreases e, 1
    {
      match e
      case Assign(name, value) =>
        ResolveExpr(value);
        ResolveLocal(name);
      case Binary(l, _, r) =>
        ResolveExpr(l);
        ResolveExpr(r);
      case Logical(l, _, r) =>
        ResolveExpr(l);
        ResolveExpr(r);
      case Unary(_, r) =>
        ResolveExpr(r);
      case Grouping(inner) =>
        ResolveExpr(inner);
      case Literal(_) =>
      case Variable(name) =>
        VisitVariable(name);
      case Call(_, _, _) =>
        VisitCall(e);
    }

    /** `visit_var_expr`: a read of a name not yet ready in the innermost
        scope is reported, then the name is resolved all the same. */
    method VisitVariable(name: Token)
      modifies this
      ensures Snapshot() == ExprStep(old(Snapshot()), Variable(name))
    {
      if scopes != [] && name.lexeme in scopes[|scopes| - 1] && scopes[|scopes| - 1][name.lexeme] == false {
        reported := reported + [name];
      }
      ResolveLocal(name);
    }

    /** `visit_call_expr`: the callee, then each argument in order. */
    method VisitCall(e: Expr)
      requires e.Call?
      modifies this
      ensures Snapshot() == ExprStep(old(Snapshot()), e)
      decreases e, 0
    {
      ResolveExpr(e.callee);
      ghost var afterCallee := Snapshot();
      var args := e.arguments;
      for i := 0 to |args|
        invariant Snapshot() == ArgsStep(afterCallee, args[..i])
      {
        ResolveExpr(args[i]);
        ArgsStepSnoc(afterCallee, args[..i], args[i]);
        assert args[..i + 1] == args[..i] + [args[i]];
      }
      assert args[..|args|] == args;
      CallStep(old(Snapshot()), e);
    }

    /** `resolve_stmt` and the statement visitors. */
    method ResolveStmt(s: Stmt)
      modifies this
      ensures Snapshot() == StmtStep(old(Snapshot()), s)
      decreases s
    {
      match s
      case ParseError =>
      case Print(e) =>
        ResolveExpr(e);
      case Return(_, value) =>
        ResolveExpr(value);
      case Expression(e) =>
        ResolveExpr(e);
      case VarDecl(name, init) =>
        Declare(name);
        ResolveExpr(init);
        Define(name);
      case If(c, t, els) =>
        ResolveExpr(c);
        ResolveStmt(t);
        if els.Some? {
          ResolveStmt(els.value);
        }
      case While(c, body) =>
        ResolveExpr(c);
        ResolveStmt(body);
      case Block(ss) =>
        BeginScope();
        ResolveStmts(ss);
        EndScope();
      case FunctionDecl(f) =>
        Declare(f.name);
        Define(f.name);
        ResolveFunction(f);
    }

    /** `resolve_stmts` (and `resolve`, which only calls it). */
    method ResolveStmts(ss: seq<Stmt>)
      modifies this
      ensures Snapshot() == StmtsStep(old(Snapshot()), ss)
      decreases ss
    {
      for i := 0 to |ss|
        invariant Snapshot() == StmtsStep(old(Snapshot()), ss[..i])
      {
        ResolveStmt(ss[i]);
        assert ss[..i + 1][..i] == ss[..i];
      }
      assert ss[..|ss|] == ss;
    }

    /** `resolve_function`. */
    method ResolveFunction(f: Function)
      modifies this
      ensures Snapshot() == FunctionStep(old(Snapshot()), f)
      decreases f
    {
      BeginScope();
      ghost var pushed := Snapshot();
      for i := 0 to |f.parameters|
        invariant Snapshot() == Params(pushed, f.parameters[..i])
      {
        Declare(f.parameters[i]);
        Define(f.parameters[i]);
        assert f.parameters[..i + 1][..i] == f.parameters[..i];
      }
      assert f.parameters[..|f.parameters|] == f.parameters;
      ResolveStmts(f.body);
      EndScope();
    }
  }
}
