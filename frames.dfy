/** The environments the callables build (`EnvironmentImpl::nested`,
    `define`). The environment modules themselves are not part of this
    model: a frame here is its own bindings and a link to the frame it is
    nested in, which is all the callables touch. Also the way a block run
    ends, which the callables turn into a call's result. */
module Frames {
  import opened Wrappers
  import opened LoxToken

  class Frame<V> {
    var values: map<string, V>
    const enclosing: Option<Frame<V>>

    /** `nested(enclosing)`: a fresh frame with no bindings of its own. */
    constructor Nested(enclosing: Option<Frame<V>>)
      ensures values == map[] && this.enclosing == enclosing
    {
      values := map[];
      this.enclosing := enclosing;
    }

    /** `define`: always binds in this frame, never in an enclosing one, and
        replaces an earlier binding of the same name. */
    method Define(name: string, value: V)
      modifies this
      ensures values == old(values)[name := value]
    {
      values := values[name := value];
    }
  }

  /** How running a body ended: normally, or by raising an error (a
      `return` raises the returned value). */
  datatype Outcome<E> = Completed | Raised(error: E)

  /** Which host (Rust) function a native function wraps; its behaviour is
      host code, given to the model as a parameter. */
  type HostId = nat

  function Lexemes(tokens: seq<Token>): (names: seq<string>)
    ensures |names| == |tokens|
    ensures forall i :: 0 <= i < |tokens| ==> names[i] == tokens[i].lexeme
  {
    if tokens == [] then [] else Lexemes(tokens[..|tokens| - 1]) + [tokens[|tokens| - 1].lexeme]
  }

  /** How many parameter/argument pairs `zip` forms: the shorter list
      decides. */
  function Paired(parameters: nat, arguments: nat): (n: nat)
    ensures n <= parameters && n <= arguments
    ensures n == parameters || n == arguments
  {
    if parameters <= arguments then parameters else arguments
  }

  /** The bindings after defining `names[i]` as `values[i]`, one after the
      other. */
  function DefineAll<V>(m: map<string, V>, names: seq<string>, values: seq<V>): map<string, V>
    requires |names| == |values|
  {
    if names == [] then m
    else DefineAll(m, names[..|names| - 1], values[..|values| - 1])[names[|names| - 1] := values[|values| - 1]]
  }

  /** After defining each name in turn: a name is bound exactly when it was
      bound before or is among the names; the last definition of a name is
      the one that holds; a name not among them keeps its old binding. */
  lemma {:induction false} DefineAllLookup<V>(m: map<string, V>, names: seq<string>, values: seq<V>, x: string)
    requires |names| == |values|
    ensures x in DefineAll(m, names, values) <==> x in m || x in names
    ensures x !in names && x in m ==> DefineAll(m, names, values)[x] == m[x]
    ensures forall i :: 0 <= i < |names| && names[i] == x && x !in names[i + 1..]
              ==> DefineAll(m, names, values)[x] == values[i]
  {
    if names != [] {
      var n := |names| - 1;
      DefineAllLookup(m, names[..n], values[..n], x);
      assert names == names[..n] + [names[n]];
      forall i | 0 <= i < |names| && names[i] == x && x !in names[i + 1..]
        ensures DefineAll(m, names, values)[x] == values[i]
      {
        if i < n {
          assert names[n] in names[i + 1..];
          assert names[..n][i] == x && names[..n][i + 1..] == names[i + 1..n];
        }
      }
    }
  }

  /** With distinct parameter names, each is bound to its own argument. */
  lemma DistinctNamesBindInOrder<V>(m: map<string, V>, names: seq<string>, values: seq<V>)
    requires |names| == |values|
    requires forall i, j :: 0 <= i < j < |names| ==> names[i] != names[j]
    ensures forall i :: 0 <= i < |names| ==>
              names[i] in DefineAll(m, names, values) && DefineAll(m, names, values)[names[i]] == values[i]
  {
    forall i | 0 <= i < |names|
      ensures names[i] in DefineAll(m, names, values) && DefineAll(m, names, values)[names[i]] == values[i]
    {
      DefineAllLookup(m, names, values, names[i]);
      assert names[i] !in names[i + 1..];
    }
  }

  /** A call with exactly one argument per parameter pairs them all, so
      with distinct parameter names each is bound to its own argument. */
  lemma FullPairingBindsAll<V>(parameters: seq<Token>, arguments: seq<V>)
    requires |arguments| == |parameters|
    requires forall i, j :: 0 <= i < j < |parameters| ==> parameters[i].lexeme != parameters[j].lexeme
    ensures var n := Paired(|parameters|, |arguments|);
            var bound := DefineAll(map[], Lexemes(parameters)[..n], arguments[..n]);
            forall i :: 0 <= i < |parameters| ==>
              parameters[i].lexeme in bound && bound[parameters[i].lexeme] == arguments[i]
  {
    var names := Lexemes(parameters);
    assert names[..|names|] == names && arguments[..|arguments|] == arguments;
    DistinctNamesBindInOrder(map[], names, arguments);
  }
}
