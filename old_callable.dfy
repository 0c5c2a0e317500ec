/** The first generation's functions (src/callable.rs). They capture
    nothing: a call's environment is nested directly in the interpreter's
    globals. Running the body (`execute_block`) is not part of this model;
    how it ended is given to `Call` as its outcome. */
module OldCallable {
  import opened Wrappers
  import opened LoxToken
  import opened Literal
  import opened Ast
  import opened Frames

  /** The errors a call passes on; a `return` travels as `ReturnValue`. */
  datatype RuntimeError = UndefinedVariable(name: string) | ReturnValue(value: LiteralValue)

  datatype Function = Function(name: Token, parameters: seq<Token>, body: seq<Stmt>)

  datatype NativeFunction = NativeFunction(arity: nat, body: HostId)

  /** `arity`: one argument per parameter. */
  function Arity(f: Function): nat {
    |f.parameters|
  }

  /** What a call yields once its body has run: the returned value, `nil`
      when the body completes, and any other error unchanged. */
  function ReturnOf(outcome: Outcome<RuntimeError>): (r: Result<LiteralValue, RuntimeError>)
    ensures r.Ok? <==> outcome.Completed? || outcome.error.ReturnValue?
  {
    match outcome
    case Completed => Ok(Nil)
    case Raised(ReturnValue(v)) => Ok(v)
    case Raised(e) => Err(e)
  }

  /** A `return` ends exactly the call it is in: it never escapes as an
      error, and every other error does, unchanged. */
  lemma ReturnStopsAtCall(outcome: Outcome<RuntimeError>)
    ensures ReturnOf(outcome).Err? ==> !ReturnOf(outcome).error.ReturnValue?
    ensures outcome.Raised? && outcome.error.ReturnValue? ==> ReturnOf(outcome) == Ok(outcome.error.value)
    ensures outcome.Raised? && !outcome.error.ReturnValue? ==> ReturnOf(outcome) == Err(outcome.error)
    ensures outcome.Completed? ==> ReturnOf(outcome) == Ok(Nil)
  {
  }

  /** A call with as many arguments as the arity binds every parameter;
      with distinct parameter names each to its own argument. */
  lemma FullCallBindsAll(f: Function, arguments: seq<LiteralValue>)
    requires |arguments| == Arity(f)
    requires forall i, j :: 0 <= i < j < |f.parameters| ==> f.parameters[i].lexeme != f.parameters[j].lexeme
    ensures var n := Paired(|f.parameters|, |arguments|);
            var bound := DefineAll(map[], Lexemes(f.parameters)[..n], arguments[..n]);
            forall i :: 0 <= i < |f.parameters| ==>
              f.parameters[i].lexeme in bound && bound[f.parameters[i].lexeme] == arguments[i]
  {
    FullPairingBindsAll(f.parameters, arguments);
  }

  /** `call`: the parameters are defined, in order, in a fresh environment
      nested in the globals, pairing them with the arguments as `zip` does;
      then the body's outcome becomes the result. */
  method Call(f: Function, globals: Frame<LiteralValue>, arguments: seq<LiteralValue>, outcome: Outcome<RuntimeError>)
    returns (r: Result<LiteralValue, RuntimeError>, environment: Frame<LiteralValue>)
    ensures fresh(environment) && environment.enclosing == Some(globals)
    ensures var n := Paired(|f.parameters|, |arguments|);
            environment.values == DefineAll(map[], Lexemes(f.parameters)[..n], arguments[..n])
    ensures r == ReturnOf(outcome)
  {
    environment := new Frame.Nested(Some(globals));
    var n := Paired(|f.parameters|, |arguments|);
    ghost var names := Lexemes(f.parameters);
    for i := 0 to n
      invariant environment.values == DefineAll(map[], names[..i], arguments[..i])
    {
      environment.Define(f.parameters[i].lexeme, arguments[i]);
      assert names[..i + 1][..i] == names[..i] && arguments[..i + 1][..i] == arguments[..i];
    }
    r := ReturnOf(outcome);
  }

  /** A native function's arity is the one it was made with. */
  function NativeArity(nf: NativeFunction): nat {
    nf.arity
  }

  /** A native call is the host function's result, errors included. */
  function CallNative(nf: NativeFunction, arguments: seq<LiteralValue>,
                      host: (HostId, seq<LiteralValue>) -> Result<LiteralValue, RuntimeError>): Result<LiteralValue, RuntimeError>
  {
    host(nf.body, arguments)
  }
}
