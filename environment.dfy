/** The first interpreter's variable store (src/environment.rs): one flat
    map from names to values, with no enclosing scope. */
module Environment {
  import opened Wrappers
  import opened LoxToken
  import opened Literal

  /** The binding a map holds for a token's lexeme. */
  function Lookup(values: map<string, LiteralValue>, name: Token): (r: Option<LiteralValue>)
    ensures r.Some? <==> name.lexeme in values
    ensures r.Some? ==> r.value == values[name.lexeme]
  {
    if name.lexeme in values then Some(values[name.lexeme]) else None
  }

  class Environment {
    var values: map<string, LiteralValue>

    /** `Environment::default()`: no bindings at all. */
    constructor ()
      ensures values == map[]
      ensures forall name :: Get(name).None?
    {
      values := map[];
    }

    /** `define`: binds `name` to `value`, replacing any earlier binding of
        the same name and leaving every other lookup as it was. */
    method Define(name: string, value: LiteralValue)
      modifies this
      ensures values == old(values)[name := value]
      ensures forall t: Token :: t.lexeme == name ==> Get(t) == Some(value)
      ensures forall t: Token :: t.lexeme != name ==> Get(t) == Lookup(old(values), t)
    {
      values := values[name := value];
    }

    /** `get`: the value bound to the token's lexeme, if any. */
    function Get(name: Token): (r: Option<LiteralValue>)
      reads this
      ensures r == Lookup(values, name)
    {
      if name.lexeme in values then Some(values[name.lexeme]) else None
    }
  }

  /** A definition is what a later lookup of the same name sees, whatever
      was bound before; lookups of other names do not see it. */
  lemma DefineThenLookup(values: map<string, LiteralValue>, name: string, value: LiteralValue, t: Token)
    ensures t.lexeme == name ==> Lookup(values[name := value], t) == Some(value)
    ensures t.lexeme != name ==> Lookup(values[name := value], t) == Lookup(values, t)
  {
  }

  /** Defining the same name twice keeps only the second value. */
  lemma DefineOverwrites(values: map<string, LiteralValue>, name: string, v1: LiteralValue, v2: LiteralValue)
    ensures values[name := v1][name := v2] == values[name := v2]
  {
  }
}
