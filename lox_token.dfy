/** Tokens of the tree-walking front end, as the parser and the resolver see
    them: a type, the lexeme text, and the literal payload the scanner
    attached to number and string tokens. */
module LoxToken {

  datatype TokenType =
    | LeftParen | RightParen | LeftBrace | RightBrace
    | Comma | Dot | Minus | Plus | Semicolon | Slash | Star
    | Bang | BangEqual | Equal | EqualEqual
    | Greater | GreaterEqual | Less | LessEqual
    | Identifier | String | Number
    | KwAnd | KwClass | KwElse | KwFalse | KwFun | KwFor | KwIf | KwNil | KwOr
    | KwPrint | KwReturn | KwSuper | KwThis | KwTrue | KwVar | KwWhile
    | EOF

  datatype TokenLiteral = NoLiteral | NumLiteral(num: real) | StrLiteral(str: string)

  datatype Token = Token(tokenType: TokenType, lexeme: string, literal: TokenLiteral, line: nat)
}
