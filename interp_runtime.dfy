/** The third generation's functions and classes
    (interpreter/src/types/callable.rs, interpreter/src/types/class.rs):
    classes with methods and an optional superclass, initializers that
    yield their instance, and instances whose fields shadow their methods.
    The value type of this generation is not part of this model; it is
    taken to have the same variants as the second generation's. Running a
    body (`execute_block`) is not modelled; how it ended is given to a call
    as its outcome. */
module InterpRuntime {
  import opened Wrappers
  import opened LoxToken
  import opened Ast
  import opened Frames

  datatype Value =
    | Str(s: string)
    | Num(n: real)
    | Nil
    | Bool(b: bool)
    | Callable(callable: LochxCallable)
    | Instance(instance: LochxInstance)

  datatype LochxCallable =
    | FunctionCallable(fun: Function)
    | NativeCallable(native: NativeFunction)
    | ClassCallable(cls: Class)

  datatype Function = Function(name: Token, parameters: seq<Token>, body: seq<Stmt>,
                               closure: Frame<Value>, isInitializer: bool)

  datatype NativeFunction = NativeFunction(arity: nat, body: HostId)

  /** A class: its name, its superclass (the chain is finite, so it has no
      cycle) and its own methods by name. */
  datatype Class = Class(name: string, superclass: Option<Class>, methods: map<string, Function>)

  /** The errors the callables raise or pass on. `UndefinedVariable` stands
      for a failed lookup of `this`, whose error the environment module (not
      part of this model) decides. */
  datatype RuntimeError =
    | ReturnValue(value: Value)
    | UndefinedProperty(name: Token)
    | UndefinedVariable(variable: string)

  // ---------------------------------------------------------------------
  // Method lookup

  /** The class followed by its superclasses, nearest first. */
  function Ancestors(c: Class): (chain: seq<Class>)
    ensures |chain| >= 1 && chain[0] == c
    decreases c
  {
    if c.superclass.None? then [c] else [c] + Ancestors(c.superclass.value)
  }

  /** `find_method_by_name`: the class's own method, or else the
      superclass's, recursively. */
  function FindMethodByName(c: Class, name: string): (r: Option<Function>)
    ensures name in c.methods ==> r == Some(c.methods[name])
    ensures r.Some? ==> exists k :: 0 <= k < |Ancestors(c)| && name in Ancestors(c)[k].methods
                                   && r.value == Ancestors(c)[k].methods[name]
    decreases c
  {
    if name in c.methods then
      assert Ancestors(c)[0] == c;
      Some(c.methods[name])
    else if c.superclass.None? then None
    else
      var r := FindMethodByName(c.superclass.value, name);
      assert r.Some? ==> exists k :: 1 <= k < |Ancestors(c)| && name in Ancestors(c)[k].methods
                                     && r.value == Ancestors(c)[k].methods[name] by {
        if r.Some? {
          var k :| 0 <= k < |Ancestors(c.superclass.value)| && name in Ancestors(c.superclass.value)[k].methods
                   && r.value == Ancestors(c.superclass.value)[k].methods[name];
          assert Ancestors(c)[k + 1] == Ancestors(c.superclass.value)[k];
        }
      }
      r
  }

  /** A method is found exactly when some class of the chain defines it,
      and what is found is the definition of the nearest such class: a
      subclass's method overrides its superclasses'. */
  lemma {:induction false} FindMethodNearest(c: Class, name: string)
    ensures FindMethodByName(c, name).Some?
            <==> exists k :: 0 <= k < |Ancestors(c)| && name in Ancestors(c)[k].methods
    ensures FindMethodByName(c, name).Some? ==>
              exists k :: 0 <= k < |Ancestors(c)| && name in Ancestors(c)[k].methods
                && FindMethodByName(c, name).value == Ancestors(c)[k].methods[name]
                && forall j :: 0 <= j < k ==> name !in Ancestors(c)[j].methods
    decreases c
  {
    if name in c.methods {
      assert name in Ancestors(c)[0].methods;
    } else if c.superclass.None? {
      assert Ancestors(c) == [c];
    } else {
      var sup := c.superclass.value;
      FindMethodNearest(sup, name);
      assert Ancestors(c) == [c] + Ancestors(sup);
      if FindMethodByName(c, name).Some? {
        var k :| 0 <= k < |Ancestors(sup)| && name in Ancestors(sup)[k].methods
                 && FindMethodByName(sup, name).value == Ancestors(sup)[k].methods[name]
                 && forall j :: 0 <= j < k ==> name !in Ancestors(sup)[j].methods;
        assert Ancestors(c)[k + 1] == Ancestors(sup)[k];
        assert forall j :: 0 <= j < k + 1 ==> name !in Ancestors(c)[j].methods by {
          forall j | 0 < j < k + 1 ensures name !in Ancestors(c)[j].methods {
            assert Ancestors(c)[j] == Ancestors(sup)[j - 1];
          }
        }
      } else {
        forall k | 0 <= k < |Ancestors(c)| ensures name !in Ancestors(c)[k].methods {
          if k > 0 {
            assert Ancestors(c)[k] == Ancestors(sup)[k - 1];
          }
        }
      }
    }
  }

  /** `find_method`: a missing method is an `UndefinedProperty` error naming
      the token. */
  function FindMethod(c: Class, name: Token): (r: Result<Function, RuntimeError>)
    ensures r.Ok? <==> FindMethodByName(c, name.lexeme).Some?
    ensures r.Ok? ==> r.value == FindMethodByName(c, name.lexeme).value
    ensures r.Err? ==> r.error == UndefinedProperty(name)
  {
    match FindMethodByName(c, name.lexeme)
    case Some(f) => Ok(f)
    case None => Err(UndefinedProperty(name))
  }

  /** `is_init`: named `init`. */
  predicate IsInit(f: Function) {
    f.name.lexeme == "init"
  }

  /** `arity` of a class: that of the nearest `init` in its chain, and 0
      when no class of the chain has one. */
  function ClassArity(c: Class): (n: nat)
    ensures n > 0 ==> exists k :: 0 <= k < |Ancestors(c)| && "init" in Ancestors(c)[k].methods
                                 && n == |Ancestors(c)[k].methods["init"].parameters|
  {
    match FindMethodByName(c, "init")
    case Some(init) => |init.parameters|
    case None => 0
  }

  lemma ClassArityFromInit(c: Class)
    ensures (forall k :: 0 <= k < |Ancestors(c)| ==> "init" !in Ancestors(c)[k].methods) ==> ClassArity(c) == 0
    ensures "init" in c.methods ==> ClassArity(c) == |c.methods["init"].parameters|
    ensures "init" !in c.methods && c.superclass.Some? ==> ClassArity(c) == ClassArity(c.superclass.value)
  {
    FindMethodNearest(c, "init");
  }

  /** `arity` of each callable. */
  function Arity(c: LochxCallable): nat {
    match c
    case FunctionCallable(f) => |f.parameters|
    case NativeCallable(nf) => nf.arity
    case ClassCallable(cls) => ClassArity(cls)
  }

  /** A function called with as many arguments as its arity binds every
      parameter; with distinct parameter names each to its own argument. */
  lemma FullCallBindsAll(f: Function, arguments: seq<Value>)
    requires |arguments| == Arity(FunctionCallable(f))
    requires forall i, j :: 0 <= i < j < |f.parameters| ==> f.parameters[i].lexeme != f.parameters[j].lexeme
    ensures var n := Paired(|f.parameters|, |arguments|);
            var bound := DefineAll(map[], Lexemes(f.parameters)[..n], arguments[..n]);
            forall i :: 0 <= i < |f.parameters| ==>
              f.parameters[i].lexeme in bound && bound[f.parameters[i].lexeme] == arguments[i]
  {
    FullPairingBindsAll(f.parameters, arguments);
  }

  // ---------------------------------------------------------------------
  // Calls

  /** `get_at_by_name(0, "this")` on a closure: its own `this` binding. */
  function ThisOf(closure: Frame<Value>): (r: Result<Value, RuntimeError>)
    reads closure
    ensures r.Ok? <==> "this" in closure.values
    ensures r.Ok? ==> r.value == closure.values["this"]
  {
    if "this" in closure.values then Ok(closure.values["this"]) else Err(UndefinedVariable("this"))
  }

  /** What a call yields once its body has run, given the closure's `this`
      (`receiver`):
      an initializer yields `this` whether its body returned or completed;
      any other function yields its returned value, or `nil`; other errors
      pass on unchanged. */
  function CallResult(isInitializer: bool, outcome: Outcome<RuntimeError>, receiver: Result<Value, RuntimeError>): (r: Result<Value, RuntimeError>)
    ensures isInitializer ==> r == receiver || (outcome.Raised? && r == Err(outcome.error))
    ensures !isInitializer ==> r.Ok? || (outcome.Raised? && r == Err(outcome.error) && !outcome.error.ReturnValue?)
  {
    match outcome
    case Raised(ReturnValue(v)) => if isInitializer then receiver else Ok(v)
    case Raised(e) => Err(e)
    case Completed => if isInitializer then receiver else Ok(Nil)
  }

  lemma CallResultCases(isInitializer: bool, outcome: Outcome<RuntimeError>, receiver: Result<Value, RuntimeError>)
    ensures outcome.Raised? && !outcome.error.ReturnValue?
            ==> CallResult(isInitializer, outcome, receiver) == Err(outcome.error)
    ensures !(outcome.Raised? && !outcome.error.ReturnValue?) && isInitializer
            ==> CallResult(isInitializer, outcome, receiver) == receiver
    ensures outcome.Completed? && !isInitializer ==> CallResult(isInitializer, outcome, receiver) == Ok(Nil)
    ensures outcome.Raised? && outcome.error.ReturnValue? && !isInitializer
            ==> CallResult(isInitializer, outcome, receiver) == Ok(outcome.error.value)
    ensures !(receiver.Err? && receiver.error.ReturnValue?) && CallResult(isInitializer, outcome, receiver).Err?
            ==> !CallResult(isInitializer, outcome, receiver).error.ReturnValue?
  {
  }

  /** `bind`: the same function over a fresh frame, nested in its closure,
      that defines `this` as the instance. */
  method Bind(f: Function, instance: LochxInstance) returns (g: Function)
    ensures fresh(g.closure) && g.closure.enclosing == Some(f.closure)
    ensures g.closure.values == map["this" := Instance(instance)]
    ensures g == f.(closure := g.closure)
  {
    var closure := new Frame.Nested(Some(f.closure));
    closure.Define("this", Instance(instance));
    g := f.(closure := closure);
  }

  /** `call` of a function: the parameters, paired with the arguments as
      `zip` pairs them, are defined in a fresh environment nested in the
      closure; then the outcome of the body becomes the result. */
  method CallFunction(f: Function, arguments: seq<Value>, outcome: Outcome<RuntimeError>)
    returns (r: Result<Value, RuntimeError>, environment: Frame<Value>)
    ensures fresh(environment) && environment.enclosing == Some(f.closure)
    ensures var n := Paired(|f.parameters|, |arguments|);
            environment.values == DefineAll(map[], Lexemes(f.parameters)[..n], arguments[..n])
    ensures r == CallResult(f.isInitializer, outcome, ThisOf(f.closure))
  {
    environment := new Frame.Nested(Some(f.closure));
    var n := Paired(|f.parameters|, |arguments|);
    ghost var names := Lexemes(f.parameters);
    for i := 0 to n
      invariant environment.values == DefineAll(map[], names[..i], arguments[..i])
    {
      environment.Define(f.parameters[i].lexeme, arguments[i]);
      assert names[..i + 1][..i] == names[..i] && arguments[..i + 1][..i] == arguments[..i];
    }
    match outcome
    case Raised(ReturnValue(v)) =>
      if f.isInitializer {
        r := ThisOf(f.closure);
      } else {
        r := Ok(v);
      }
    case Raised(e) =>
      r := Err(e);
    case Completed =>
      if f.isInitializer {
        r := ThisOf(f.closure);
      } else {
        r := Ok(Nil);
      }
  }

  /** A native call is the host function's result, errors included. */
  function CallNative(nf: NativeFunction, arguments: seq<Value>,
                      host: (HostId, seq<Value>) -> Result<Value, RuntimeError>): Result<Value, RuntimeError>
  {
    host(nf.body, arguments)
  }

  /** `call` of a class: a new instance; its `init`, if the chain has one,
      is bound to that instance and called with the arguments; an error of
      the initializer's body is the call's error, and otherwise the result
      is the new instance, whatever the initializer returned. */
  method CallClass(c: Class, arguments: seq<Value>, outcome: Outcome<RuntimeError>)
    returns (r: Result<Value, RuntimeError>, instance: LochxInstance)
    ensures fresh(instance) && instance.cls == c && instance.fields == map[]
    ensures r == if FindMethodByName(c, "init").Some? && outcome.Raised? && !outcome.error.ReturnValue?
                 then Err(outcome.error) else Ok(Instance(instance))
  {
    instance := new LochxInstance(c);
    var init := FindMethodByName(c, "init");
    if init.Some? {
      var bound := Bind(init.value, instance);
      var result, _ := CallFunction(bound, arguments, outcome);
      if result.Err? {
        r := Err(result.error);
        return;
      }
    }
    r := Ok(Instance(instance));
  }

  // ---------------------------------------------------------------------
  // Instances

  class LochxInstance {
    const cls: Class
    var fields: map<string, Value>

    /** `LochxInstanceImpl::new`: an instance of the class with no fields. */
    constructor (cls: Class)
      ensures this.cls == cls && fields == map[]
    {
      this.cls := cls;
      fields := map[];
    }

    /** `wrapped`: a new shared instance holding a copy of this one. */
    method Wrapped() returns (copy: LochxInstance)
      ensures fresh(copy) && copy.cls == cls && copy.fields == fields
    {
      copy := new LochxInstance(cls);
      copy.fields := fields;
    }

    /** `get` as written: a field if there is one (fields shadow methods),
        else the nearest method of the class chain, bound to a fresh COPY
        of this instance made by `wrapped`; else `UndefinedProperty`. */
    method GetAsWritten(name: Token) returns (r: Result<Value, RuntimeError>)
      ensures name.lexeme in fields ==> r == Ok(fields[name.lexeme])
      ensures name.lexeme !in fields && FindMethodByName(cls, name.lexeme).None? ==> r == Err(UndefinedProperty(name))
      ensures name.lexeme !in fields && FindMethodByName(cls, name.lexeme).Some? ==>
                r.Ok? && r.value.Callable? && r.value.callable.FunctionCallable?
                && var g := r.value.callable.fun;
                   g == FindMethodByName(cls, name.lexeme).value.(closure := g.closure)
                   && fresh(g.closure) && "this" in g.closure.values
                   && g.closure.values == map["this" := g.closure.values["this"]]
                   && g.closure.values["this"].Instance?
                   && fresh(g.closure.values["this"].instance)
                   && g.closure.values["this"].instance.cls == cls
                   && g.closure.values["this"].instance.fields == fields
    {
      if name.lexeme in fields {
        r := Ok(fields[name.lexeme]);
      } else {
        var f := FindMethod(cls, name);
        if f.Err? {
          r := Err(f.error);
        } else {
          var copy := Wrapped();
          var g := Bind(f.value, copy);
          r := Ok(Callable(FunctionCallable(g)));
        }
      }
    }

    /** `get` as intended: as written, but the method is bound to this very
        instance, so that what it does to `this` is seen by the instance. */
    method Get(name: Token) returns (r: Result<Value, RuntimeError>)
      ensures name.lexeme in fields ==> r == Ok(fields[name.lexeme])
      ensures name.lexeme !in fields && FindMethodByName(cls, name.lexeme).None? ==> r == Err(UndefinedProperty(name))
      ensures name.lexeme !in fields && FindMethodByName(cls, name.lexeme).Some? ==>
                r.Ok? && r.value.Callable? && r.value.callable.FunctionCallable?
                && var g := r.value.callable.fun;
                   g == FindMethodByName(cls, name.lexeme).value.(closure := g.closure)
                   && fresh(g.closure) && g.closure.values == map["this" := Instance(this)]
    {
      if name.lexeme in fields {
        r := Ok(fields[name.lexeme]);
      } else {
        var f := FindMethod(cls, name);
        if f.Err? {
          r := Err(f.error);
        } else {
          var g := Bind(f.value, this);
          r := Ok(Callable(FunctionCallable(g)));
        }
      }
    }

    /** `set`: inserts or overwrites the field. */
    method Set(name: Token, value: Value)
      modifies this
      ensures fields == old(fields)[name.lexeme := value]
    {
      fields := fields[name.lexeme := value];
    }
  }

  /** A method `m` whose body would run `this.f = 1`: what that body does to
      its `this` is seen by the instance it was taken from only when `get`
      binds the instance itself. As written it is lost. */
  method MethodWriteLostAsWritten() returns (o: LochxInstance, receiver: LochxInstance)
    ensures "f" !in o.fields && "f" in receiver.fields && receiver.fields["f"] == Num(1.0)
  {
    var globals := new Frame<Value>.Nested(None);
    var m := Function.Function(Token(Identifier, "m", NoLiteral, 1), [], [], globals, false);
    var c := Class("C", None, map["m" := m]);
    o := new LochxInstance(c);
    var got := o.GetAsWritten(Token(Identifier, "m", NoLiteral, 1));
    receiver := got.value.callable.fun.closure.values["this"].instance;
    receiver.Set(Token(Identifier, "f", NoLiteral, 1), Num(1.0));
  }

  method MethodWriteSeen() returns (o: LochxInstance)
    ensures "f" in o.fields && o.fields["f"] == Num(1.0)
  {
    var globals := new Frame<Value>.Nested(None);
    var m := Function.Function(Token(Identifier, "m", NoLiteral, 1), [], [], globals, false);
    var c := Class("C", None, map["m" := m]);
    o := new LochxInstance(c);
    var got := o.Get(Token(Identifier, "m", NoLiteral, 1));
    var receiver := got.value.callable.fun.closure.values["this"].instance;
    receiver.Set(Token(Identifier, "f", NoLiteral, 1), Num(1.0));
  }
}
