/** The first scanner (src/scanner.rs): a stub that knows ten
    single-character tokens. Every other character reaches `todo!()`, so the
    model demands that the source holds only those ten. */
module OldScanner {

  /** The token kinds this scanner declares (it defines its own `Token`). */
  datatype Token =
    | EOF
    | LeftParen | RightParen | LeftBrace | RightBrace
    | Comma | Dot | Minus | Plus | Semicolon | Slash | Star
    | Bang | BangEqual | Equal | EqualEqual
    | Greater | GreaterEqual | Less | LessEqual
    | Identifier | String | Number
    | KwAnd | KwClass | KwElse | KwFalse | KwFun | KfFor | KwIf | KwNil | KwOr
    | KwPrint | KwReturn | KwSuper | KwThis | KwTrue | KwVar | KwWhile

  /** The characters `scan_token` handles. */
  predicate Recognised(c: char) {
    c in {'(', ')', '{', '}', ',', '.', '-', '+', ';', '*'}
  }

  predicate AllRecognised(s: string) {
    forall i :: 0 <= i < |s| ==> Recognised(s[i])
  }

  /** The token of a recognised character. */
  function TokenOf(c: char): (t: Token)
    requires Recognised(c)
    ensures t != EOF
  {
    if c == '(' then LeftParen else if c == ')' then RightParen
    else if c == '{' then LeftBrace else if c == '}' then RightBrace
    else if c == ',' then Comma else if c == '.' then Dot
    else if c == '-' then Minus else if c == '+' then Plus
    else if c == ';' then Semicolon else Star
  }

  /** One token per character, in input order. */
  function TokensOf(s: string): (ts: seq<Token>)
    requires AllRecognised(s)
    ensures |ts| == |s|
    ensures forall i :: 0 <= i < |s| ==> ts[i] == TokenOf(s[i])
  {
    if s == [] then [] else TokensOf(s[..|s| - 1]) + [TokenOf(s[|s| - 1])]
  }

  /** Different characters give different tokens. */
  lemma TokenOfInjective(a: char, b: char)
    requires Recognised(a) && Recognised(b) && TokenOf(a) == TokenOf(b)
    ensures a == b
  {
  }

  class Scanner {
    const source: string
    var line: nat
    var start: nat
    var current: nat

    constructor (source: string)
      ensures this.source == source && line == 1 && start == 0 && current == 0
    {
      this.source := source;
      line := 1;
      current := 0;
      start := 0;
    }

    predicate IsAtEnd()
      reads this
    {
      current >= |source|
    }

    /** The character at `current`, which moves one place. */
    method Advance() returns (c: char)
      requires current < |source|
      modifies this`current
      ensures c == source[old(current)] && current == old(current) + 1
    {
      c := source[current];
      current := current + 1;
    }

    /** Each call consumes exactly one character. */
    method ScanToken() returns (t: Token)
      requires current < |source| && Recognised(source[current])
      modifies this`current
      ensures current == old(current) + 1 && t == TokenOf(source[old(current)])
    {
      var c := Advance();
      t := TokenOf(c);
    }

    /** The tokens of the rest of the source, terminated by the only `EOF`. */
    method ScanTokens() returns (tokens: seq<Token>)
      requires forall i :: current <= i < |source| ==> Recognised(source[i])
      modifies this`current, this`start
      ensures old(current) >= |source| ==> tokens == [EOF] && current == old(current)
      ensures old(current) <= |source| ==> tokens == TokensOf(source[old(current)..]) + [EOF]
      ensures old(current) <= |source| ==> |tokens| == |source| - old(current) + 1 && current == |source|
      ensures tokens[|tokens| - 1] == EOF && forall i :: 0 <= i < |tokens| - 1 ==> tokens[i] != EOF
    {
      tokens := [];
      ghost var from := current;
      while !IsAtEnd()
        invariant from <= current <= |source| || (current == from && from > |source|)
        invariant current <= |source| ==> |tokens| == current - from
        invariant current > |source| ==> tokens == []
        invariant forall i :: 0 <= i < |tokens| ==> tokens[i] == TokenOf(source[from + i])
        decreases |source| - current
      {
        start := current;
        var t := ScanToken();
        tokens := tokens + [t];
      }
      if from <= |source| {
        assert AllRecognised(source[from..]);
        assert tokens == TokensOf(source[from..]);
      }
      tokens := tokens + [EOF];
    }
  }

  /** The empty source yields exactly `[EOF]`. */
  method ScanEmpty() returns (tokens: seq<Token>)
    ensures tokens == [EOF]
  {
    var s := new Scanner("");
    tokens := s.ScanTokens();
    assert TokensOf("") == [];
  }
}
