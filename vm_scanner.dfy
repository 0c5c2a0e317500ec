/** The bytecode front end's scanner (vm/src/scanner.rs): a cursor over the
    source text that hands out one token per `ScanToken` call.

    The model is restricted to ASCII text, where every character is one byte
    long, so the byte cursor and the character cursor always agree. */
module VmScanner {
  import opened VmToken
  import opened Utf8

  predicate IsDigit(c: char) { '0' <= c <= '9' }

  /** `char::is_alphabetic`, on ASCII characters. */
  predicate IsAlpha(c: char) { 'a' <= c <= 'z' || 'A' <= c <= 'Z' }

  /** `is_identifier`: alphanumeric or an underscore. */
  predicate IsIdentChar(c: char) { IsAlpha(c) || IsDigit(c) || c == '_' }

  predicate IsBlank(c: char) { c == ' ' || c == '\r' || c == '\t' }

  /** Every character of `src[a..b]` is a decimal digit. */
  predicate DigitsIn(src: string, a: nat, b: nat) {
    b <= |src| && forall k :: a <= k < b ==> IsDigit(src[k])
  }

  /** `src[a..b]` does not contain `c`. */
  predicate Lacks(src: string, c: char, a: nat, b: nat) {
    b <= |src| && forall k :: a <= k < b ==> src[k] != c
  }

  function CountNewlines(s: string): nat {
    if s == [] then 0
    else CountNewlines(s[..|s| - 1]) + (if s[|s| - 1] == '\n' then 1 else 0)
  }

  lemma CountNewlinesStep(s: string, i: nat, j: nat)
    requires i <= j < |s|
    ensures CountNewlines(s[i..j + 1]) == CountNewlines(s[i..j]) + (if s[j] == '\n' then 1 else 0)
  {
    assert s[i..j + 1][..j - i] == s[i..j];
  }

  lemma CountNewlinesEmpty(s: string, i: nat)
    requires i <= |s|
    ensures CountNewlines(s[i..i]) == 0
  {
  }

  /** Whitespace skipping stops at position `i`: the character there starts
      neither whitespace, a newline, nor a `//` comment. */
  predicate StopsSkipping(src: string, i: nat) {
    i < |src| && !IsBlank(src[i]) && src[i] != '\n'
    && !(src[i] == '/' && i + 1 < |src| && src[i + 1] == '/')
  }

  /** Position `k` lies inside a `//` comment that opened at or after `from`
      and has not yet reached its line end. */
  ghost predicate InComment(src: string, from: nat, k: nat) {
    exists j :: from <= j <= k && CommentRunsTo(src, j, k)
  }

  /** A `//` opens at `j` and no line end lies between `j` and `k`. */
  predicate CommentRunsTo(src: string, j: nat, k: nat) {
    j + 1 < |src| && src[j] == '/' && src[j + 1] == '/'
    && (forall m :: j <= m <= k && m < |src| ==> src[m] != '\n')
  }

  /** A character whitespace skipping may pass over. */
  ghost predicate Skippable(src: string, from: nat, k: nat)
    requires k < |src|
  {
    IsBlank(src[k]) || src[k] == '\n' || InComment(src, from, k)
  }

  /** `src[a..b]` is a number lexeme: digits, optionally followed by a dot
      and more digits. */
  ghost predicate NumberAt(src: string, a: nat, b: nat) {
    (a < b && DigitsIn(src, a, b))
    || exists d :: a < d < b - 1 && b <= |src| && src[d] == '.' && DigitsIn(src, a, d) && DigitsIn(src, d + 1, b)
  }

  /** A `.` at `i` followed by a digit: a fractional part would follow. */
  predicate FractionFollows(src: string, i: nat) {
    i + 1 < |src| && src[i] == '.' && IsDigit(src[i + 1])
  }

  /** The eleven characters that always form a token on their own. */
  predicate IsSingleChar(c: char) {
    c in {'(', ')', '{', '}', ';', ',', '.', '-', '+', '/', '*'}
  }

  function SingleKind(c: char): TokenKind
    requires IsSingleChar(c)
  {
    if c == '(' then LeftParen else if c == ')' then RightParen
    else if c == '{' then LeftBrace else if c == '}' then RightBrace
    else if c == ';' then Semicolon else if c == ',' then Comma
    else if c == '.' then Dot else if c == '-' then Minus
    else if c == '+' then Plus else if c == '/' then Slash
    else Star
  }

  /** The four characters that take an optional `=`. */
  predicate IsEqualsTaker(c: char) { c in {'!', '=', '<', '>'} }

  function WithEquals(c: char, eq: bool): TokenKind
    requires IsEqualsTaker(c)
  {
    if c == '!' then (if eq then BangEqual else Bang)
    else if c == '=' then (if eq then EqualEqual else Equal)
    else if c == '<' then (if eq then LessEqual else Less)
    else (if eq then GreaterEqual else Greater)
  }

  const UnexpectedCharacter := "Unexpected character."
  const UnterminatedString := "Unterminated string."

  class Scanner {
    const source: string
    var line: nat
    var startByte: nat
    var currentByte: nat
    var currentChar: nat
    const keywords: map<string, TokenKind>

    ghost predicate Valid()
      reads this
    {
      IsAscii(source) && keywords == Keywords && 1 <= line
      && startByte <= currentByte <= |source| && currentChar == currentByte
    }

    /** The scan offset is accepted and ignored: spans count from the start of
        `source` itself. */
    constructor (source: string, scanOffset: nat)
      requires IsAscii(source)
      ensures Valid() && this.source == source
      ensures line == 1 && startByte == 0 && currentByte == 0
    {
      this.source := source;
      line := 1;
      currentChar := 0;
      currentByte := 0;
      startByte := 0;
      keywords := Keywords;
    }

    predicate IsAtEnd()
      reads this
    {
      currentByte >= |source|
    }

    /** The character `offset` places ahead, or NUL past the end. */
    function PeekOffset(offset: nat): (c: char)
      reads this
      requires Valid()
      ensures currentByte + offset < |source| ==> c == source[currentByte + offset]
      ensures currentByte + offset >= |source| ==> c == '\0'
    {
      if currentByte + offset >= |source| then '\0' else source[currentChar + offset]
    }

    function Peek(): (c: char)
      reads this
      requires Valid()
      ensures c == if IsAtEnd() then '\0' else source[currentByte]
    {
      PeekOffset(0)
    }

    function PeekNext(): (c: char)
      reads this
      requires Valid()
      ensures c == if currentByte + 1 >= |source| then '\0' else source[currentByte + 1]
    {
      PeekOffset(1)
    }

    function CurrentPosition(): (p: SourcePosition)
      reads this
      requires Valid()
      ensures p.span.start <= p.span.end <= |source|
      ensures p.span.end - p.span.start == |source[startByte..currentByte]|
    {
      SourcePosition(line, Span(startByte, currentByte))
    }

    method Advance() returns (c: char)
      requires Valid() && currentChar < |source|
      modifies this`currentChar, this`currentByte
      ensures Valid()
      ensures c == source[old(currentChar)]
      ensures currentByte == old(currentByte) + 1
    {
      c := source[currentChar];
      currentChar := currentChar + 1;
      currentByte := currentByte + Utf8Len(c);
    }

    /** Consume the next character when it is `expected`. */
    method Matches(expected: char) returns (b: bool)
      requires Valid()
      modifies this`currentChar, this`currentByte
      ensures Valid()
      ensures b <==> old(currentByte) < |source| && source[old(currentByte)] == expected
      ensures currentByte == old(currentByte) + (if b then 1 else 0)
    {
      if IsAtEnd() {
        return false;
      }
      if source[currentChar] != expected {
        return false;
      }
      currentChar := currentChar + 1;
      currentByte := currentByte + Utf8Len(expected);
      b := true;
    }

    /** The rest of a `//` comment, up to but not including its line end. */
    method SkipComment()
      requires Valid() && currentByte + 1 < |source|
      requires source[currentByte] == '/' && source[currentByte + 1] == '/'
      modifies this`currentChar, this`currentByte
      ensures Valid() && old(currentByte) < currentByte
      ensures currentByte == |source| || source[currentByte] == '\n'
      ensures Lacks(source, '\n', old(currentByte), currentByte)
    {
      ghost var open := currentByte;
      while Peek() != '\n' && !IsAtEnd()
        invariant Valid() && open <= currentByte
        invariant Lacks(source, '\n', open, currentByte)
        invariant currentByte == open ==> currentByte < |source| && source[currentByte] == '/'
        decreases |source| - currentByte
      {
        var skipped := Advance();
      }
    }

    method SkipWhitespace()
      requires Valid()
      modifies this`currentChar, this`currentByte, this`line
      ensures Valid() && old(currentByte) <= currentByte
      ensures line == old(line) + CountNewlines(source[old(currentByte)..currentByte])
      ensures currentByte == |source| || StopsSkipping(source, currentByte)
      ensures Skipped(source, old(currentByte), currentByte)
    {
      ghost var from := currentByte;
      ghost var line0 := line;
      while true
        invariant Valid() && from <= currentByte
        invariant line == line0 + CountNewlines(source[from..currentByte])
        invariant Skipped(source, from, currentByte)
        decreases |source| - currentByte
      {
        var c := Peek();
        if IsAtEnd() {
          return;
        }
        if IsBlank(c) || c == '\n' {
          CountNewlinesStep(source, from, currentByte);
          SkippedStep(source, from, currentByte);
          if c == '\n' {
            line := line + 1;
          }
          var skipped := Advance();
        } else if c == '/' && PeekNext() == '/' {
          ghost var open := currentByte;
          SkipComment();
          CommentSkipped(source, from, open, currentByte);
          CountNewlinesAppend(source, from, open, currentByte);
          CountNewlinesNone(source, open, currentByte);
        } else {
          return;
        }
      }
    }

    /** A string literal, entered just after its opening quote. */
    method ScanString() returns (t: Token)
      requires Valid() && startByte + 1 == currentByte && source[startByte] == '"'
      modifies this`currentChar, this`currentByte, this`line
      ensures Valid() && startByte == old(startByte) && old(currentByte) <= currentByte
      ensures t.position == SourcePosition(line, Span(startByte, currentByte))
      ensures line == old(line) + CountNewlines(source[old(currentByte)..currentByte])
      ensures StringFacts(source, startByte, currentByte, t.kind)
    {
      ghost var from := currentByte;
      SkipStringBody();
      if IsAtEnd() {
        return Token(Error(UnterminatedString), CurrentPosition());
      }
      CountNewlinesStep(source, from, currentByte);
      var skipped := Advance();
      t := Token(String, CurrentPosition());
    }

    /** The characters of a string literal up to its closing quote or the
        end of the text, counting the lines they span. */
    method SkipStringBody()
      requires Valid()
      modifies this`currentChar, this`currentByte, this`line
      ensures Valid() && startByte == old(startByte) && old(currentByte) <= currentByte
      ensures line == old(line) + CountNewlines(source[old(currentByte)..currentByte])
      ensures Lacks(source, '"', old(currentByte), currentByte)
      ensures currentByte == |source| || source[currentByte] == '"'
    {
      ghost var from := currentByte;
      ghost var line0 := line;
      while Peek() != '"' && !IsAtEnd()
        invariant Valid() && startByte == old(startByte) && from <= currentByte
        invariant line == line0 + CountNewlines(source[from..currentByte])
        invariant Lacks(source, '"', from, currentByte)
        decreases |source| - currentByte
      {
        if Peek() == '\n' {
          line := line + 1;
        }
        CountNewlinesStep(source, from, currentByte);
        var skipped := Advance();
      }
    }

    /** A number literal, entered just after its first digit. */
    method ScanNumber() returns (t: Token)
      requires Valid() && startByte + 1 == currentByte && IsDigit(source[startByte])
      modifies this`currentChar, this`currentByte
      ensures Valid() && startByte == old(startByte)
      ensures t == Token(Number, SourcePosition(line, Span(startByte, currentByte)))
      ensures NumberFacts(source, startByte, currentByte)
    {
      while IsDigit(Peek())
        invariant Valid() && startByte == old(startByte) && startByte < currentByte
        invariant DigitsIn(source, startByte, currentByte)
        decreases |source| - currentByte
      {
        var skipped := Advance();
      }
      ghost var dot := currentByte;
      if Peek() == '.' && IsDigit(PeekNext()) {
        var skipped := Advance();
        while IsDigit(Peek())
          invariant Valid() && startByte == old(startByte) && dot + 1 <= currentByte
          invariant dot + 1 < |source| && source[dot] == '.' && IsDigit(source[dot + 1])
          invariant DigitsIn(source, dot + 1, currentByte)
          decreases |source| - currentByte
        {
          var skipped := Advance();
        }
      }
      t := Token(Number, CurrentPosition());
    }

    /** An identifier or keyword, entered just after its first letter. */
    method ScanIdentifier() returns (t: Token)
      requires Valid() && startByte + 1 == currentByte && IsAlpha(source[startByte])
      modifies this`currentChar, this`currentByte
      ensures Valid() && startByte == old(startByte)
      ensures t.position == SourcePosition(line, Span(startByte, currentByte))
      ensures IdentifierFacts(source, startByte, currentByte, t.kind)
    {
      while IsIdentChar(Peek())
        invariant Valid() && startByte == old(startByte) && startByte < currentByte
        invariant forall k :: startByte <= k < currentByte ==> IsIdentChar(source[k])
        decreases |source| - currentByte
      {
        var skipped := Advance();
      }
      var lexeme := source[startByte..currentByte];
      if lexeme in keywords {
        t := Token(keywords[lexeme], CurrentPosition());
      } else {
        t := Token(Identifier, CurrentPosition());
      }
    }

    /** The next token: whitespace and comments are skipped, then the first
        character decides the kind. */
    method ScanToken() returns (t: Token)
      requires Valid()
      modifies this`currentChar, this`currentByte, this`line, this`startByte
      ensures Valid()
      ensures old(currentByte) <= startByte <= currentByte <= |source|
      ensures t.position == SourcePosition(line, Span(startByte, currentByte))
      ensures line == old(line) + CountNewlines(source[old(currentByte)..currentByte])
        // What comes before the token is whitespace and comments only.
      ensures startByte == |source| || StopsSkipping(source, startByte)
      ensures Skipped(source, old(currentByte), startByte)
        // End of input: an empty span, and nothing moves on a later call.
      ensures t.kind.Eof? <==> startByte == |source|
      ensures t.kind.Eof? ==> startByte == currentByte
      ensures old(currentByte) == |source| ==> t.kind.Eof? && line == old(line) && currentByte == old(currentByte)
        // Every other token consumes at least one character.
      ensures !t.kind.Eof? ==> startByte < currentByte && TokenFacts(source, startByte, currentByte, t.kind)
    {
      SkipWhitespace();
      startByte := currentByte;
      if IsAtEnd() {
        return Token(Eof, CurrentPosition());
      }
      t := ScanLexeme();
      CountNewlinesAppend(source, old(currentByte), startByte, currentByte);
    }

    /** The token that starts at `startByte`, which is not the end. */
    method ScanLexeme() returns (t: Token)
      requires Valid() && startByte == currentByte && StopsSkipping(source, startByte)
      modifies this`currentChar, this`currentByte, this`line
      ensures Valid() && startByte < currentByte && startByte == old(startByte)
      ensures t.position == SourcePosition(line, Span(startByte, currentByte))
      ensures line == old(line) + CountNewlines(source[startByte..currentByte])
      ensures !t.kind.Eof? && TokenFacts(source, startByte, currentByte, t.kind)
    {
      var c := Advance();
      if c == '"' {
        t := ScanString();
        CountNewlinesAppend(source, startByte, startByte + 1, currentByte);
        CountNewlinesNone(source, startByte, startByte + 1);
        return;
      }
      t := ScanOperatorOrWord(c);
      CountNewlinesNone(source, startByte, currentByte);
    }

    /** A token that is not a string, whose first character `c` has just
        been consumed: an operator, a number, a word or an unexpected
        character. None of these spans a line break. */
    method ScanOperatorOrWord(c: char) returns (t: Token)
      requires Valid() && startByte + 1 == currentByte && c == source[startByte]
      requires c != '"' && c != '\n'
      modifies this`currentChar, this`currentByte
      ensures Valid() && startByte == old(startByte) && startByte < currentByte
      ensures t.position == SourcePosition(line, Span(startByte, currentByte))
      ensures !t.kind.Eof? && TokenFacts(source, startByte, currentByte, t.kind)
      ensures Lacks(source, '\n', startByte, currentByte)
    {
      if IsSingleChar(c) {
        t := Token(SingleKind(c), CurrentPosition());
      } else if IsEqualsTaker(c) {
        var eq := Matches('=');
        t := Token(WithEquals(c, eq), CurrentPosition());
      } else if IsDigit(c) {
        t := ScanNumber();
      } else if IsAlpha(c) {
        t := ScanIdentifier();
      } else {
        t := Token(Error(UnexpectedCharacter), CurrentPosition());
      }
      TokenLacksNewline(source, startByte, currentByte, t.kind);
    }
  }

  /** The kind an identifier-shaped lexeme receives from the keyword table:
      a reserved word gets the keyword kind that prints as that word, any
      other word is an `Identifier`. */
  function KeywordOrIdentifier(lexeme: string): (k: TokenKind)
    ensures k.Identifier? <==> lexeme !in Keywords
    ensures lexeme in Keywords ==> IsKeywordKind(k) && KeywordLexeme(k) == lexeme
  {
    KeywordWords();
    if lexeme in Keywords then Keywords[lexeme] else Identifier
  }

  /** Every character of `src[from..to]` may be passed over by whitespace
      skipping that started at `from`. */
  ghost predicate Skipped(src: string, from: nat, to: nat) {
    to <= |src| && forall k :: from <= k < to ==> Skippable(src, from, k)
  }

  lemma SkippedStep(src: string, from: nat, to: nat)
    requires Skipped(src, from, to) && to < |src| && (IsBlank(src[to]) || src[to] == '\n')
    ensures Skipped(src, from, to + 1)
  {
  }

  lemma CommentSkipped(src: string, from: nat, open: nat, to: nat)
    requires Skipped(src, from, open) && from <= open < to <= |src|
    requires open + 1 < |src| && src[open] == '/' && src[open + 1] == '/'
    requires Lacks(src, '\n', open, to)
    ensures Skipped(src, from, to)
  {
    forall k | open <= k < to
      ensures InComment(src, from, k)
    {
      assert CommentRunsTo(src, open, k);
    }
  }

  /** A string token: closed by a quote with none inside, or unterminated and
      running to the end of the text. */
  ghost predicate StringFacts(src: string, start: nat, end: nat, kind: TokenKind) {
    (kind == String && start + 2 <= end <= |src| && src[end - 1] == '"' && Lacks(src, '"', start + 1, end - 1))
    || (kind == Error(UnterminatedString) && end == |src| && Lacks(src, '"', start + 1, end))
  }

  /** A longest-match number lexeme: no digit follows it, and when it has no
      fraction, no `.digit` follows either. */
  ghost predicate NumberFacts(src: string, start: nat, end: nat) {
    NumberAt(src, start, end)
    && (end == |src| || !IsDigit(src[end]))
    && (DigitsIn(src, start, end) ==> !FractionFollows(src, end))
  }

  /** A longest-match identifier, classified through the keyword table. */
  ghost predicate IdentifierFacts(src: string, start: nat, end: nat, kind: TokenKind) {
    start <= end <= |src|
    && (forall k :: start <= k < end ==> IsIdentChar(src[k]))
    && (end == |src| || !IsIdentChar(src[end]))
    && kind == KeywordOrIdentifier(src[start..end])
  }

  /** What a non-EOF token starting at `start` and ending at `end` is, decided
      by its first character. */
  ghost predicate TokenFacts(src: string, start: nat, end: nat, kind: TokenKind)
    requires start < end <= |src|
  {
    var c := src[start];
    if IsSingleChar(c) then kind == SingleKind(c) && end == start + 1
    else if IsEqualsTaker(c) then
      var eq := start + 1 < |src| && src[start + 1] == '=';
      kind == WithEquals(c, eq) && end == start + (if eq then 2 else 1)
    else if c == '"' then StringFacts(src, start, end, kind)
    else if IsDigit(c) then kind == Number && NumberFacts(src, start, end)
    else if IsAlpha(c) then IdentifierFacts(src, start, end, kind)
    else kind == Error(UnexpectedCharacter) && end == start + 1
  }

  /** A token that does not start with a quote or a line end lies on one line. */
  lemma TokenLacksNewline(src: string, start: nat, end: nat, kind: TokenKind)
    requires start < end <= |src| && TokenFacts(src, start, end, kind)
    requires src[start] != '"' && src[start] != '\n'
    ensures Lacks(src, '\n', start, end)
  {
    var c := src[start];
    if IsDigit(c) {
      if !DigitsIn(src, start, end) {
        var d :| start < d < end - 1 && end <= |src| && src[d] == '.' && DigitsIn(src, start, d) && DigitsIn(src, d + 1, end);
        assert forall k :: start <= k < end ==> k == d || IsDigit(src[k]);
      }
    } else if IsAlpha(c) {
      assert !IsSingleChar(c) && !IsEqualsTaker(c);
      assert forall k :: start <= k < end ==> IsIdentChar(src[k]);
    }
  }

  lemma {:induction false} CountNewlinesAppend(s: string, a: nat, b: nat, d: nat)
    requires a <= b <= d <= |s|
    ensures CountNewlines(s[a..d]) == CountNewlines(s[a..b]) + CountNewlines(s[b..d])
    decreases d
  {
    if d > b {
      CountNewlinesAppend(s, a, b, d - 1);
      CountNewlinesStep(s, a, d - 1);
      CountNewlinesStep(s, b, d - 1);
    }
  }

  lemma {:induction false} CountNewlinesNone(s: string, a: nat, b: nat)
    requires a <= b <= |s|
    requires Lacks(s, '\n', a, b)
    ensures CountNewlines(s[a..b]) == 0
    decreases b
  {
    if b > a {
      CountNewlinesNone(s, a, b - 1);
      CountNewlinesStep(s, a, b - 1);
    }
  }
}
