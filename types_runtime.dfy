/** The second generation's runtime values, functions and classes
    (src/types/literal.rs, src/types/callable.rs, src/types/class.rs).
    Functions capture their closure; classes have a name and nothing else,
    and instances hold fields. Running a body (`execute_block`) is not part
    of this model; how it ended is given to a call as its outcome. */
module TypesRuntime {
  import opened Wrappers
  import opened LoxToken
  import opened Ast
  import opened Frames

  /** `LiteralValue`; its `Default` is `Nil`. */
  datatype Value =
    | Str(s: string)
    | Num(n: real)
    | Nil
    | Bool(b: bool)
    | Callable(callable: LochxCallable)
    | Instance(instance: LochxInstance)

  datatype LochxCallable =
    | FunctionCallable(fun: Function)
    | NativeCallable(native: NativeFunction)
    | ClassCallable(cls: Class)

  datatype Function = Function(name: Token, parameters: seq<Token>, body: seq<Stmt>, closure: Frame<Value>)

  datatype NativeFunction = NativeFunction(arity: nat, body: HostId)

  datatype Class = Class(name: string)

  /** The errors the callables raise or pass on; a `return` travels as
      `ReturnValue`. */
  datatype RuntimeError =
    | ReturnValue(value: Value)
    | EnvironmentError
    | UndefinedProperty(name: Token)

  /** `is_truthy`: `nil` and `false` are falsy, everything else, functions,
      classes and instances included, is truthy. */
  predicate IsTruthy(v: Value) {
    match v
    case Nil => false
    case Bool(b) => b
    case _ => true
  }

  /** `#[default]`: the value a field takes when `set` creates it
      (`or_default`), before it is overwritten. */
  const Default: Value := Nil

  lemma TruthyCases(v: Value)
    ensures IsTruthy(v) <==> !(v.Nil? || v == Bool(false))
    ensures v.Callable? || v.Instance? ==> IsTruthy(v)
    ensures !IsTruthy(Default)
  {
  }

  /** `Display`. Number text is floating-point formatting, taken from
      `showNum`; a function shows its name token by its lexeme. */
  function Display(v: Value, showNum: real -> string): (s: string)
    ensures v.Str? ==> s == v.s
    ensures v.Nil? ==> s == "nil"
    ensures v.Bool? ==> s == (if v.b then "true" else "false")
    ensures v.Num? ==> s == showNum(v.n)
    ensures v.Callable? && v.callable.FunctionCallable? ==> s == "<fun " + v.callable.fun.name.lexeme + ">"
    ensures v.Callable? && v.callable.NativeCallable? ==> s == "<native fun>"
    ensures v.Callable? && v.callable.ClassCallable? ==> s == "<class " + v.callable.cls.name + ">"
    ensures v.Instance? ==> s == "<" + v.instance.cls.name + " instance>"
  {
    match v
    case Str(str) => str
    case Num(n) => showNum(n)
    case Nil => "nil"
    case Bool(b) => if b then "true" else "false"
    case Callable(FunctionCallable(f)) => "<fun " + f.name.lexeme + ">"
    case Callable(NativeCallable(_)) => "<native fun>"
    case Callable(ClassCallable(c)) => "<class " + c.name + ">"
    case Instance(i) => "<" + i.cls.name + " instance>"
  }

  /** Functions, classes and instances print in angle brackets, so a
      string can print exactly like a function. */
  lemma DisplayBracketed(v: Value, showNum: real -> string)
    requires v.Callable? || v.Instance?
    ensures |Display(v, showNum)| >= 2
    ensures Display(v, showNum)[0] == '<' && Display(v, showNum)[|Display(v, showNum)| - 1] == '>'
  {
  }

  lemma DisplayAmbiguous(f: Function, showNum: real -> string)
    ensures Display(Str("<fun " + f.name.lexeme + ">"), showNum) == Display(Callable(FunctionCallable(f)), showNum)
  {
  }

  /** `arity` of each callable: one per parameter, a native's own, and 0 for
      a class, which takes no constructor arguments. */
  function Arity(c: LochxCallable): nat {
    match c
    case FunctionCallable(f) => |f.parameters|
    case NativeCallable(nf) => nf.arity
    case ClassCallable(_) => 0
  }

  /** A function called with as many arguments as its arity binds every
      parameter; with distinct parameter names each to its own argument. */
  lemma FullCallBindsAll(f: Function, arguments: seq<Value>)
    requires |arguments| == Arity(FunctionCallable(f))
    requires forall i, j :: 0 <= i < j < |f.parameters| ==> f.parameters[i].lexeme != f.parameters[j].lexeme
    ensures var n := Paired(|f.parameters|, |arguments|);
            var bound := DefineAll(map[], Lexemes(f.parameters)[..n], arguments[..n]);
            forall i :: 0 <= i < |f.parameters| ==>
              f.parameters[i].lexeme in bound && bound[f.parameters[i].lexeme] == arguments[i]
  {
    FullPairingBindsAll(f.parameters, arguments);
  }

  /** What a function call yields once its body has run. */
  function ReturnOf(outcome: Outcome<RuntimeError>): (r: Result<Value, RuntimeError>)
    ensures r.Ok? <==> outcome.Completed? || outcome.error.ReturnValue?
  {
    match outcome
    case Completed => Ok(Nil)
    case Raised(ReturnValue(v)) => Ok(v)
    case Raised(e) => Err(e)
  }

  /** A `return` ends exactly the call it is in; other errors pass on. */
  lemma ReturnStopsAtCall(outcome: Outcome<RuntimeError>)
    ensures ReturnOf(outcome).Err? ==> !ReturnOf(outcome).error.ReturnValue?
    ensures outcome.Raised? && outcome.error.ReturnValue? ==> ReturnOf(outcome) == Ok(outcome.error.value)
    ensures outcome.Raised? && !outcome.error.ReturnValue? ==> ReturnOf(outcome) == Err(outcome.error)
    ensures outcome.Completed? ==> ReturnOf(outcome) == Ok(Nil)
  {
  }

  /** `bind`: the same function over a fresh frame, nested in its closure,
      that defines `this` as the instance. */
  method Bind(f: Function, instance: LochxInstance) returns (g: Function)
    ensures fresh(g.closure) && g.closure.enclosing == Some(f.closure)
    ensures g.closure.values == map["this" := Instance(instance)]
    ensures g == f.(closure := g.closure)
  {
    var closure := new Frame.Nested(Some(f.closure));
    closure.Define("this", Instance(instance));
    g := f.(closure := closure);
  }

  /** `call`: a fresh environment nested in the closure receives the
      parameters paired with the arguments as `zip` pairs them. Each
      pairing takes the environment's write lock; a poisoned lock turns
      the first one into an `EnvironmentError` and ends the call. */
  method CallFunction(f: Function, arguments: seq<Value>, poisoned: bool, outcome: Outcome<RuntimeError>)
    returns (r: Result<Value, RuntimeError>, environment: Frame<Value>)
    ensures fresh(environment) && environment.enclosing == Some(f.closure)
    ensures var n := Paired(|f.parameters|, |arguments|);
            if poisoned && n > 0 then r == Err(EnvironmentError) && environment.values == map[]
            else r == ReturnOf(outcome)
                 && environment.values == DefineAll(map[], Lexemes(f.parameters)[..n], arguments[..n])
  {
    environment := new Frame.Nested(Some(f.closure));
    var n := Paired(|f.parameters|, |arguments|);
    ghost var names := Lexemes(f.parameters);
    for i := 0 to n
      invariant environment.values == DefineAll(map[], names[..i], arguments[..i])
      invariant poisoned ==> i == 0
    {
      if poisoned {
        r := Err(EnvironmentError);
        return;
      }
      environment.Define(f.parameters[i].lexeme, arguments[i]);
      assert names[..i + 1][..i] == names[..i] && arguments[..i + 1][..i] == arguments[..i];
    }
    r := ReturnOf(outcome);
  }

  /** A native call is the host function's result, errors included. */
  function CallNative(nf: NativeFunction, arguments: seq<Value>,
                      host: (HostId, seq<Value>) -> Result<Value, RuntimeError>): Result<Value, RuntimeError>
  {
    host(nf.body, arguments)
  }

  /** Calling a class ignores the arguments and yields a new instance with
      no fields. */
  method CallClass(c: Class, arguments: seq<Value>) returns (r: Value, instance: LochxInstance)
    ensures fresh(instance) && instance.cls == c && instance.fields == map[]
    ensures r == Instance(instance)
  {
    instance := new LochxInstance(c);
    r := Instance(instance);
  }

  /** The field a map holds for a property name, or `UndefinedProperty`. */
  function FieldOf(fields: map<string, Value>, name: Token): (r: Result<Value, RuntimeError>)
    ensures r.Ok? <==> name.lexeme in fields
    ensures r.Ok? ==> r.value == fields[name.lexeme]
    ensures r.Err? ==> r.error == UndefinedProperty(name)
  {
    if name.lexeme in fields then Ok(fields[name.lexeme]) else Err(UndefinedProperty(name))
  }

  /** A field that was set is what a later get of the same name finds;
      other names are unaffected. */
  lemma SetThenGet(fields: map<string, Value>, name: Token, value: Value, other: Token)
    ensures FieldOf(fields[name.lexeme := value], name) == Ok(value)
    ensures other.lexeme != name.lexeme ==> FieldOf(fields[name.lexeme := value], other) == FieldOf(fields, other)
  {
  }

  class LochxInstance {
    const cls: Class
    var fields: map<string, Value>

    /** `LochxInstanceImpl::new`: an instance of the class with no fields. */
    constructor (cls: Class)
      ensures this.cls == cls && fields == map[]
    {
      this.cls := cls;
      fields := map[];
    }

    /** `get`: the field of that name; there are no methods to fall back
        to. */
    function Get(name: Token): (r: Result<Value, RuntimeError>)
      reads this
      ensures r == FieldOf(fields, name)
    {
      if name.lexeme in fields then Ok(fields[name.lexeme]) else Err(UndefinedProperty(name))
    }

    /** `set`: inserts or overwrites the field (`or_default`, then the
        value). */
    method Set(name: Token, value: Value)
      modifies this
      ensures fields == old(fields)[name.lexeme := value]
    {
      fields := fields[name.lexeme := value];
    }
  }
}
