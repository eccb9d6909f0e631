/**
 * The tokens the lexer produces (the `Token` enum of src/lexer.rs). It is
 * a module of its own because parser errors carry the token they found.
 */
module Tokens {
  import Ast

  datatype Token =
    // keywords
    | Value | Fn | Method | Validate | Normalize | Unique | True | False
    | Contains | Let | In | Match | Where
    | Arrow        // `=>`
    | ReturnArrow  // `->`
    // identifiers and literals; a string token holds the raw text between the quotes
    | Identifier(name: string)
    | String(text: string)
    | Integer(n: Ast.I64)
    // punctuation
    | LeftParen | RightParen | LeftBrace | RightBrace | Colon | Dot | Comma
    // comparison
    | Equal | NotEqual | Less | Greater | LessEqual | GreaterEqual
    | Assign
    // logical
    | And | Or | Not
    // arithmetic
    | Plus | Minus | Star | Slash | Percent
    | Pipeline
    | Eof
}
