/**
 * Tokens as the scanner produces them and the parser consumes them, and the
 * diagnostic a parse error reports for a token.
 */
module Tokens {
  import opened Values

  /** The token kinds the scanner can produce (the source's `TokenType`). */
  datatype TokenType =
    // single-character tokens
    | LEFT_PAREN | RIGHT_PAREN | LEFT_BRACE | RIGHT_BRACE
    | COMMA | DOT | MINUS | PLUS | SEMICOLON | SLASH | STAR
    // one- or two-character tokens
    | BANG | BANG_EQUAL | EQUAL | EQUAL_EQUAL
    | GREATER | GREATER_EQUAL | LESS | LESS_EQUAL
    // literals
    | IDENTIFIER | STRING | NUMBER
    // reserved words
    | AND | CLASS | ELSE | FALSE | FUN | FOR | IF | NIL | OR
    | PRINT | RETURN | SUPER | THIS | TRUE | VAR | WHILE
    | EOF

  /** A token: kind, the exact source text, the decoded literal (`Nil` when
      the source stores `null`) and the line it was added on. */
  datatype Token = Token(kind: TokenType, lexeme: string, literal: Value, line: int)

  /** The diagnostic `Lox.error(Token, String)` reports: "at end" for the
      end-of-input token, otherwise the lexeme in single quotes. */
  function ErrorAt(token: Token, message: string): (d: Diagnostic)
    ensures d.line == token.line && d.message == message
    ensures token.kind == EOF <==> d.where == "at end"
  {
    if token.kind == EOF then Diagnostic(token.line, "at end", message)
    else
      var where := "at '" + token.lexeme + "'";
      assert where[3] != "at end"[3];
      Diagnostic(token.line, where, message)
  }
}
