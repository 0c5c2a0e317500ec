/** Tokens of the bytecode front end: a kind and a source position holding
    the line and the byte span `start..end` into the scanned text. */
module VmToken {

  datatype TokenKind =
    | Eof
    | Error(message: string)
      // Single-character tokens.
    | LeftParen | RightParen | LeftBrace | RightBrace
    | Comma | Dot | Minus | Plus | Semicolon | Slash | Star
      // One or two character tokens.
    | Bang | BangEqual | Equal | EqualEqual
    | Greater | GreaterEqual | Less | LessEqual
      // Literals.
    | Identifier | String | Number
      // Keywords.
    | KwAnd | KwClass | KwElse | KwFalse | KwFun | KwFor | KwIf | KwNil | KwOr
    | KwPrint | KwReturn | KwSuper | KwThis | KwTrue | KwVar | KwWhile

  /** A half-open byte range `start..end`. */
  datatype Span = Span(start: nat, end: nat)

  datatype SourcePosition = SourcePosition(line: nat, span: Span)

  datatype Token = Token(kind: TokenKind, position: SourcePosition)

  /** The keyword table the scanner is built with: sixteen reserved words. */
  const Keywords: map<string, TokenKind> := map[
    "and" := KwAnd, "class" := KwClass, "else" := KwElse, "false" := KwFalse,
    "for" := KwFor, "fun" := KwFun, "if" := KwIf, "nil" := KwNil,
    "or" := KwOr, "print" := KwPrint, "return" := KwReturn, "super" := KwSuper,
    "this" := KwThis, "true" := KwTrue, "var" := KwVar, "while" := KwWhile
  ]

  predicate IsKeywordKind(k: TokenKind) {
    k in {KwAnd, KwClass, KwElse, KwFalse, KwFor, KwFun, KwIf, KwNil,
          KwOr, KwPrint, KwReturn, KwSuper, KwThis, KwTrue, KwVar, KwWhile}
  }

  /** The reserved word of each keyword kind. */
  function KeywordLexeme(k: TokenKind): string
    requires IsKeywordKind(k)
  {
    match k
    case KwAnd => "and" case KwClass => "class" case KwElse => "else" case KwFalse => "false"
    case KwFor => "for" case KwFun => "fun" case KwIf => "if" case KwNil => "nil"
    case KwOr => "or" case KwPrint => "print" case KwReturn => "return" case KwSuper => "super"
    case KwThis => "this" case KwTrue => "true" case KwVar => "var" case KwWhile => "while"
  }

  /** The table and `KeywordLexeme` are inverse to each other: every word maps
      to a keyword kind whose lexeme is that word, and every keyword kind is
      reached from its lexeme. So no two words share a kind. */
  lemma KeywordTable()
    ensures forall w :: w in Keywords ==> IsKeywordKind(Keywords[w]) && KeywordLexeme(Keywords[w]) == w
    ensures forall k :: IsKeywordKind(k) ==> KeywordLexeme(k) in Keywords && Keywords[KeywordLexeme(k)] == k
  {
    KeywordWords();
  }

  lemma KeywordWords()
    ensures forall w :: w in Keywords ==> IsKeywordKind(Keywords[w]) && KeywordLexeme(Keywords[w]) == w
  {
    forall w | w in Keywords
      ensures IsKeywordKind(Keywords[w]) && KeywordLexeme(Keywords[w]) == w
    {
    }
  }

  /** The fixed lexeme of every operator and punctuation kind. */
  function FixedLexeme(k: TokenKind): (s: string)
    requires !(k.Eof? || k.Error? || k.Identifier? || k.String? || k.Number? || IsKeywordKind(k))
    ensures 1 <= |s| <= 2
  {
    match k
    case LeftParen => "(" case RightParen => ")" case LeftBrace => "{" case RightBrace => "}"
    case Comma => "," case Dot => "." case Minus => "-" case Plus => "+"
    case Semicolon => ";" case Slash => "/" case Star => "*"
    case Bang => "!" case BangEqual => "!=" case Equal => "=" case EqualEqual => "=="
    case Greater => ">" case GreaterEqual => ">=" case Less => "<" case LessEqual => "<="
  }
}
