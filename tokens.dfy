/** The token vocabulary of the jlox scanner: only the kinds the scanner
    itself produces, the literal values it attaches, and the diagnostics
    it reports while scanning. */
module Tokens {

  /** Every kind of token the scanner can emit. Keywords are absent: the
      scanner performs no reserved-word lookup, so every word is an
      `Identifier`. */
  datatype TokenType =
    // single-character punctuation
    | LeftParen | RightParen | LeftBrace | RightBrace
    | Comma | Dot | Minus | Plus | Semicolon | Star | Slash
    // one- or two-character operators
    | Bang | BangEqual
    | Equal | EqualEqual
    | Less | LessEqual
    | Greater | GreaterEqual
    // literals and names
    | String | Number | Identifier
    // end of input
    | Eof

  /** The literal value carried by a token. `NoLiteral` stands for Java's
      `null`. A number keeps its lexeme text instead of a floating-point
      value. */
  datatype Literal =
    | NoLiteral
    | StringValue(text: string)
    | NumberValue(text: string)

  /** An immutable token: its kind, the exact source text it was scanned
      from, its literal value and the (1-based) line it was emitted on. */
  datatype Token = Token(kind: TokenType, lexeme: string, literal: Literal, line: nat)

  /** A lexical diagnostic: the line it was reported on and its message. */
  datatype Diagnostic = Diagnostic(line: nat, message: string)

  const UnexpectedCharacter := "Unexpected character."
  const UnterminatedString := "Unterminated string"

  /** The end-of-input token appended once the whole source is consumed. */
  function EofToken(line: nat): Token {
    Token(Eof, "", NoLiteral, line)
  }
}
