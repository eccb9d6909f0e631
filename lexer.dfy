/**
 * The hand-written lexer (src/lexer.rs): a cursor over the input that
 * `advance` moves one character at a time, keeping the current character,
 * the line and the column up to date, and `next_token`, which skips
 * whitespace and comments and reads one token.
 *
 * The functions below say what the cursor state is after `n` steps and
 * which token `next_token` reads from a position; the `Lexer` class is the
 * step-by-step state machine, each method proved to agree with them.
 */
module Lexing {
  import opened Wrappers
  import opened Ascii
  import opened Errors
  import opened Tokens
  import Ast

  /** The character under the cursor at position `p`, if any. */
  function CharAt(input: string, p: nat): (r: Option<char>)
    ensures r.Some? <==> p < |input|
    ensures r.Some? ==> r.value == input[p]
  {
    if p < |input| then Some(input[p]) else None
  }

  /** The line after `p` steps: one, plus one for every line feed the
      cursor has stepped onto (the first character is not stepped onto). */
  function LineAt(input: string, p: nat): (line: nat)
    ensures 1 <= line <= p + 1
  {
    if p == 0 then 1
    else LineAt(input, p - 1) + (if p < |input| && input[p] == '\n' then 1 else 0)
  }

  /** The column after `p` steps: the steps since the cursor last stepped
      onto a line feed, or since the start. */
  function ColumnAt(input: string, p: nat): (column: nat)
    ensures column <= p
    ensures p < |input| && input[p] == '\n' ==> column == 0
  {
    if p == 0 then 0
    else if p < |input| && input[p] == '\n' then 0
    else ColumnAt(input, p - 1) + 1
  }

  /** A lexer error at the cursor state of position `p`. */
  function LexErr<T>(input: string, problem: LexProblem, p: nat): Result<T>
  {
    Err(LexerError(problem, LineAt(input, p), ColumnAt(input, p)))
  }

  predicate IsIdentChar(c: char) { IsAlphanumeric(c) || c == '_' }
  predicate NotLineFeed(c: char) { c != '\n' }

  /** The end of the longest run of characters satisfying `inSpan` that
      starts at `p`. */
  function SpanEnd(input: string, p: nat, inSpan: char -> bool): (q: nat)
    requires p <= |input|
    ensures p <= q <= |input|
    ensures forall i :: p <= i < q ==> inSpan(input[i])
    ensures q == |input| || !inSpan(input[q])
    decreases |input| - p
  {
    if p < |input| && inSpan(input[p]) then SpanEnd(input, p + 1, inSpan) else p
  }

  /** Where a block comment whose body starts at `p`, opened `depth` times,
      ends: `*` `/` closes one level, `/` `*` opens one more. */
  function CommentEnd(input: string, p: nat, depth: nat): (r: Result<nat>)
    requires p <= |input|
    ensures r.Ok? ==> p <= r.value <= |input|
    ensures r.Err? ==> r == LexErr(input, UnterminatedComment, |input|)
    ensures depth == 0 ==> r == Ok(p)
    decreases |input| - p
  {
    if depth == 0 then Ok(p)
    else if p == |input| then LexErr(input, UnterminatedComment, p)
    else if input[p] == '*' then
      if p + 1 < |input| && input[p + 1] == '/' then CommentEnd(input, p + 2, depth - 1)
      else CommentEnd(input, p + 1, depth)
    else if input[p] == '/' then
      if p + 1 < |input| && input[p + 1] == '*' then CommentEnd(input, p + 2, depth + 1)
      else CommentEnd(input, p + 1, depth)
    else CommentEnd(input, p + 1, depth)
  }

  /** The position of the quote closing a string whose text starts at `p`;
      a backslash makes the next character part of the text, whatever it
      is. */
  function StringClose(input: string, p: nat): (r: Result<nat>)
    requires p <= |input|
    ensures r.Ok? ==> p <= r.value < |input| && input[r.value] == '"'
    ensures r.Err? ==> r == LexErr(input, UnclosedString, |input|) ||
                       r == LexErr(input, UnexpectedEndOfString, |input|)
    decreases |input| - p
  {
    if p == |input| then LexErr(input, UnclosedString, p)
    else if input[p] == '"' then Ok(p)
    else if input[p] == '\\' then
      if p + 1 == |input| then LexErr(input, UnexpectedEndOfString, p + 1)
      else StringClose(input, p + 2)
    else StringClose(input, p + 1)
  }

  /** The thirteen keywords. */
  const Keywords: seq<string> :=
    ["value", "fn", "method", "validate", "normalize", "unique", "true", "false",
     "contains", "let", "in", "match", "where"]

  /** The token of a word: its keyword token, or an identifier. */
  function WordToken(word: string): (t: Token)
    ensures t.Identifier? <==> word !in Keywords
    ensures t.Identifier? ==> t.name == word
  {
    match word
    case "value" => Value
    case "fn" => Fn
    case "method" => Method
    case "validate" => Validate
    case "normalize" => Normalize
    case "unique" => Unique
    case "true" => True
    case "false" => False
    case "contains" => Contains
    case "let" => Let
    case "in" => In
    case "match" => Match
    case "where" => Where
    case _ => Identifier(word)
  }

  function DigitValue(c: char): (d: nat)
    ensures d <= 9
  {
    if IsDigit(c) then c as int - '0' as int else 0
  }

  /** The number a digit string denotes in decimal. */
  function DecimalValue(digits: string): nat
  {
    if digits == [] then 0
    else DecimalValue(digits[..|digits| - 1]) * 10 + DigitValue(digits[|digits| - 1])
  }

  /** What `read_number` yields for the digits between `p` and `q`: the
      integer, or an error when the text does not parse as an `i64`. The
      error's column is the cursor's column minus the length of the digits,
      a `usize` subtraction that panics (in a debug build) when it would go
      below zero. */
  function NumberToken(input: string, p: nat, q: nat): (r: Result<Token>)
    requires p <= q <= |input|
  {
    var digits := input[p..q];
    var v := DecimalValue(digits);
    if digits != [] && v <= Ast.MaxI64 then Ok(Integer(v))
    else if ColumnAt(input, q) < q - p then Err(Panic("attempt to subtract with overflow"))
    else Err(LexerError(InvalidNumber(digits), LineAt(input, q), ColumnAt(input, q) - (q - p)))
  }

  /** The tokens of a single character. */
  function OneCharToken(c: char): (r: Option<Token>)
    ensures r.Some? <==> c in "(){}:.,+-*/%=!<>"
    ensures r.Some? ==> r.value != Eof && !r.value.Identifier?
  {
    match c
    case '(' => Some(LeftParen)
    case ')' => Some(RightParen)
    case '{' => Some(LeftBrace)
    case '}' => Some(RightBrace)
    case ':' => Some(Colon)
    case '.' => Some(Dot)
    case ',' => Some(Comma)
    case '+' => Some(Plus)
    case '-' => Some(Minus)
    case '*' => Some(Star)
    case '/' => Some(Slash)
    case '%' => Some(Percent)
    case '=' => Some(Assign)
    case '!' => Some(Not)
    case '<' => Some(Less)
    case '>' => Some(Greater)
    case _ => None
  }

  /** The tokens of two characters, which win over their first character
      alone. */
  function TwoCharToken(c: char, next: Option<char>): (r: Option<Token>)
    ensures r.Some? ==> next.Some? && c in "-=!<>&|" && next.value in "=>&|"
    ensures r.Some? && c != '&' && c != '|' ==> OneCharToken(c).Some?
  {
    if next.None? then None
    else
      match (c, next.value)
      case ('-', '>') => Some(ReturnArrow)
      case ('=', '=') => Some(Equal)
      case ('=', '>') => Some(Arrow)
      case ('!', '=') => Some(NotEqual)
      case ('<', '=') => Some(LessEqual)
      case ('>', '=') => Some(GreaterEqual)
      case ('&', '&') => Some(And)
      case ('|', '|') => Some(Or)
      case ('|', '>') => Some(Pipeline)
      case _ => None
  }

  /** A token and the position right after it. */
  datatype Lexed = Lexed(token: Token, end: nat)

  /** What `next_token` reads from position `pos`. */
  function NextTokenSpec(input: string, pos: nat): (r: Result<Lexed>)
    requires pos <= |input|
    ensures r.Ok? ==> pos <= r.value.end <= |input|
    ensures r.Ok? && r.value.token != Eof ==> pos < r.value.end
    ensures r.Ok? && r.value.token == Eof ==> r.value.end == |input|
    decreases |input| - pos, 1
  {
    TokenAt(input, SpanEnd(input, pos, IsWhitespace))
  }

  /** The token starting at `p`, where whitespace has been skipped. */
  function TokenAt(input: string, p: nat): (r: Result<Lexed>)
    requires p <= |input|
    ensures r.Ok? ==> p <= r.value.end <= |input|
    ensures r.Ok? && r.value.token != Eof ==> p < r.value.end
    ensures r.Ok? && r.value.token == Eof ==> r.value.end == |input|
    decreases |input| - p, 0
  {
    if p == |input| then Ok(Lexed(Eof, p))
    else
      var c := input[p];
      var next := CharAt(input, p + 1);
      if c == '/' && next == Some('/') then
        NextTokenSpec(input, SpanEnd(input, p + 2, NotLineFeed))
      else if c == '/' && next == Some('*') then
        var close := CommentEnd(input, p + 2, 1);
        if close.Err? then Err(close.error) else NextTokenSpec(input, close.value)
      else if TwoCharToken(c, next).Some? then Ok(Lexed(TwoCharToken(c, next).value, p + 2))
      else if OneCharToken(c).Some? then Ok(Lexed(OneCharToken(c).value, p + 1))
      else if c == '&' then LexErr(input, LoneAmpersand, p + 1)
      else if c == '|' then LexErr(input, LoneBar, p + 1)
      else if c == '"' then
        var close := StringClose(input, p + 1);
        if close.Err? then Err(close.error) else Ok(Lexed(String(input[p + 1..close.value]), close.value + 1))
      else if IsAlpha(c) || c == '_' then
        var q := SpanEnd(input, p, IsIdentChar);
        Ok(Lexed(WordToken(input[p..q]), q))
      else if IsDigit(c) then
        var q := SpanEnd(input, p, IsDigit);
        var t := NumberToken(input, p, q);
        if t.Err? then Err(t.error) else Ok(Lexed(t.value, q))
      else LexErr(input, UnexpectedCharacter(c), p)
  }

  /** A method's result and the cursor position after it, in the shape of
      `NextTokenSpec`. */
  function Scanned(r: Result<Token>, position: nat): Result<Lexed>
  {
    if r.Ok? then Ok(Lexed(r.value, position)) else Err(r.error)
  }

  class Lexer {
    const input: string
    var position: nat
    var current: Option<char>
    var line: nat
    var column: nat

    /** The cursor fields agree with the position. */
    predicate Valid()
      reads this
    {
      position <= |input| && current == CharAt(input, position) &&
      line == LineAt(input, position) && column == ColumnAt(input, position)
    }

    /** `Lexer::new`: the cursor on the first character, line 1, column 0. */
    constructor(input: string)
      ensures Valid() && this.input == input && position == 0
    {
      this.input := input;
      position := 0;
      current := CharAt(input, 0);
      line := 1;
      column := 0;
    }

    /** One step forward; stepping onto a line feed starts a new line. */
    method Advance()
      requires Valid() && position < |input|
      modifies this
      ensures Valid() && position == old(position) + 1
    {
      position := position + 1;
      column := column + 1;
      if position >= |input| {
        current := None;
      } else {
        current := Some(input[position]);
        if current == Some('\n') {
          line := line + 1;
          column := 0;
        }
      }
    }

    method SkipWhitespace()
      requires Valid()
      modifies this
      ensures Valid() && position == SpanEnd(input, old(position), IsWhitespace)
    {
      while current.Some? && IsWhitespace(current.value)
        invariant Valid() && old(position) <= position
        invariant SpanEnd(input, position, IsWhitespace) == SpanEnd(input, old(position), IsWhitespace)
        decreases |input| - position
      {
        Advance();
      }
    }

    /** Skips a block comment whose opening `/` `*` has been read, counting
        the nesting depth. */
    method SkipMultilineComment() returns (r: Result<()>)
      requires Valid()
      modifies this
      ensures Valid()
      ensures r.Ok? <==> CommentEnd(input, old(position), 1).Ok?
      ensures r.Ok? ==> position == CommentEnd(input, old(position), 1).value
      ensures r.Err? ==> r.error == CommentEnd(input, old(position), 1).error
    {
      var depth: nat := 1;
      while depth > 0 && current.Some?
        invariant Valid() && CommentEnd(input, position, depth) == CommentEnd(input, old(position), 1)
        decreases |input| - position
      {
        if current == Some('*') {
          Advance();
          if current == Some('/') {
            Advance();
            depth := depth - 1;
          }
        } else if current == Some('/') {
          Advance();
          if current == Some('*') {
            Advance();
            depth := depth + 1;
          }
        } else {
          Advance();
        }
      }
      if depth > 0 {
        r := Err(LexerError(UnterminatedComment, line, column));
      } else {
        r := Ok(());
      }
    }

    method ReadIdentifier() returns (r: Result<Token>)
      requires Valid()
      modifies this
      ensures Valid() && position == SpanEnd(input, old(position), IsIdentChar)
      ensures r == Ok(WordToken(input[old(position)..position]))
    {
      var start := position;
      while current.Some? && IsIdentChar(current.value)
        invariant Valid() && start <= position
        invariant SpanEnd(input, position, IsIdentChar) == SpanEnd(input, start, IsIdentChar)
        decreases |input| - position
      {
        Advance();
      }
      r := Ok(WordToken(input[start..position]));
    }

    method ReadNumber() returns (r: Result<Token>)
      requires Valid()
      modifies this
      ensures Valid() && position == SpanEnd(input, old(position), IsDigit)
      ensures r == NumberToken(input, old(position), position)
    {
      var start := position;
      while current.Some? && IsDigit(current.value)
        invariant Valid() && start <= position
        invariant SpanEnd(input, position, IsDigit) == SpanEnd(input, start, IsDigit)
        decreases |input| - position
      {
        Advance();
      }
      var digits := input[start..position];
      var v := DecimalValue(digits);
      if digits != [] && v <= Ast.MaxI64 {
        r := Ok(Integer(v));
      } else if column < |digits| {
        r := Err(Panic("attempt to subtract with overflow"));
      } else {
        r := Err(LexerError(InvalidNumber(digits), line, column - |digits|));
      }
    }

    /** Reads a string literal; the cursor is on its opening quote. */
    method ReadString() returns (r: Result<Token>)
      requires Valid() && position < |input|
      modifies this
      ensures Valid()
      ensures r.Ok? <==> StringClose(input, old(position) + 1).Ok?
      ensures r.Ok? ==> var close := StringClose(input, old(position) + 1).value;
                        r.value == String(input[old(position) + 1..close]) && position == close + 1
      ensures r.Err? ==> r.error == StringClose(input, old(position) + 1).error
    {
      Advance();
      var start := position;
      while current.Some?
        invariant Valid() && start <= position
        invariant StringClose(input, position) == StringClose(input, start)
        decreases |input| - position
      {
        var ch := current.value;
        if ch == '"' {
          var text := input[start..position];
          Advance();
          return Ok(String(text));
        } else if ch == '\\' {
          Advance();
          if current.None? {
            return Err(LexerError(UnexpectedEndOfString, line, column));
          }
          Advance();
        } else {
          Advance();
        }
      }
      r := Err(LexerError(UnclosedString, line, column));
    }

    /** `next_token`: the token at the cursor, after whitespace and
        comments. */
    method NextToken() returns (r: Result<Token>)
      requires Valid()
      modifies this
      ensures Valid()
      ensures Scanned(r, position) == NextTokenSpec(input, old(position))
      decreases |input| - position, 2
    {
      SkipWhitespace();
      r := TokenHere();
    }

    /** The branches of `next_token` once whitespace is skipped. */
    method TokenHere() returns (r: Result<Token>)
      requires Valid()
      modifies this
      ensures Valid()
      ensures Scanned(r, position) == TokenAt(input, old(position))
      decreases |input| - position, 1
    {
      if current.None? {
        return Ok(Eof);
      }
      var ch := current.value;
      if ch == '/' {
        r := AfterSlash();
      } else if ch == '-' || ch == '=' || ch == '!' || ch == '<' || ch == '>' {
        r := ReadOperator(ch);
      } else if ch == '&' || ch == '|' {
        r := ReadLogical(ch);
      } else if OneCharToken(ch).Some? {
        Advance();
        r := Ok(OneCharToken(ch).value);
      } else if ch == '"' {
        r := ReadString();
      } else if IsAlpha(ch) || ch == '_' {
        r := ReadIdentifier();
      } else if IsDigit(ch) {
        r := ReadNumber();
      } else {
        r := Err(LexerError(UnexpectedCharacter(ch), line, column));
      }
    }

    /** The body of a line comment: everything up to the line feed. */
    method SkipLineComment()
      requires Valid()
      modifies this
      ensures Valid() && position == SpanEnd(input, old(position), NotLineFeed)
    {
      while current.Some? && current != Some('\n')
        invariant Valid() && old(position) <= position
        invariant SpanEnd(input, position, NotLineFeed) == SpanEnd(input, old(position), NotLineFeed)
        decreases |input| - position
      {
        Advance();
      }
    }

    /** The `/` branch: a line comment, a block comment (after either,
        lexing starts over) or the division operator. */
    method AfterSlash() returns (r: Result<Token>)
      requires Valid() && current == Some('/')
      modifies this
      ensures Valid()
      ensures Scanned(r, position) == TokenAt(input, old(position))
      decreases |input| - position, 0
    {
      Advance();
      if current == Some('/') {
        Advance();
        SkipLineComment();
        r := NextToken();
      } else if current == Some('*') {
        Advance();
        var skipped := SkipMultilineComment();
        if skipped.Err? {
          return Err(skipped.error);
        }
        r := NextToken();
      } else {
        r := Ok(Slash);
      }
    }

    /** `&&`, `||` and `|>`; a lone `&`, or a `|` followed by neither `|`
        nor `>`, is an error reported one step past it. */
    method ReadLogical(ch: char) returns (r: Result<Token>)
      requires Valid() && current == Some(ch) && (ch == '&' || ch == '|')
      modifies this
      ensures Valid()
      ensures Scanned(r, position) == TokenAt(input, old(position))
    {
      Advance();
      if ch == '&' {
        if current == Some('&') {
          Advance();
          r := Ok(And);
        } else {
          r := Err(LexerError(LoneAmpersand, line, column));
        }
      } else {
        if current == Some('|') {
          Advance();
          r := Ok(Or);
        } else if current == Some('>') {
          Advance();
          r := Ok(Pipeline);
        } else {
          r := Err(LexerError(LoneBar, line, column));
        }
      }
    }

    /** The operators `-`, `=`, `!`, `<` and `>`, each of which may be the
        first character of a two-character operator. */
    method ReadOperator(ch: char) returns (r: Result<Token>)
      requires Valid() && current == Some(ch)
      requires ch == '-' || ch == '=' || ch == '!' || ch == '<' || ch == '>'
      modifies this
      ensures Valid()
      ensures Scanned(r, position) == TokenAt(input, old(position))
    {
      Advance();
      if ch == '-' && current == Some('>') {
        Advance();
        r := Ok(ReturnArrow);
      } else if ch == '=' && current == Some('=') {
        Advance();
        r := Ok(Equal);
      } else if ch == '=' && current == Some('>') {
        Advance();
        r := Ok(Arrow);
      } else if (ch == '!' || ch == '<' || ch == '>') && current == Some('=') {
        Advance();
        r := Ok(if ch == '!' then NotEqual else if ch == '<' then LessEqual else GreaterEqual);
      } else {
        r := Ok(OneCharToken(ch).value);
      }
    }
  }
}
