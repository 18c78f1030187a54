/** The token record the scanner emits, and the closed set of token kinds. */
module Tokens {

  /** Every kind the scanner can classify a lexeme as. */
  datatype TokenType =
    // single-character punctuation
    | LeftParen | RightParen | LeftBrace | RightBrace
    | Comma | Dot | Minus | Plus | Semicolon | Star
    // one- or two-character operators
    | Bang | BangEqual | Equal | EqualEqual
    | Less | LessEqual | Greater | GreaterEqual | Slash
    // literal categories
    | String | Number | Identifier
    // reserved words
    | And | Class | Else | False | Fun | For | If | Nil
    | Or | Print | Return | Super | This | True | Var | While
    // end of input
    | Eof

  /** A token: its kind, the source text it was recognised from, its literal
      text ("null" for kinds without a literal value) and its line. */
  datatype Token = Token(kind: TokenType, lexeme: string, literal: string, line: nat)

  /** `Token::new`: builds a token from its four parts, storing each unchanged. */
  function NewToken(ki: TokenType, lex: string, lit: string, ln: nat): (t: Token)
    ensures t.kind == ki
    ensures t.lexeme == lex
    ensures t.literal == lit
    ensures t.line == ln
  {
    Token(ki, lex, lit, ln)
  }
}
