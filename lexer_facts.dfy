/**
 * Properties of the lexer's token-reading function (src/lexer.rs).
 */
module LexingFacts {
  import opened Wrappers
  import opened Ascii
  import opened Errors
  import opened Tokens
  import opened Lexing
  import Ast

  /** Every token from `pos` on, up to and including `Eof`. */
  function Tokenize(input: string, pos: nat): (r: Result<seq<Token>>)
    requires pos <= |input|
    ensures r.Ok? ==> |r.value| >= 1 && r.value[|r.value| - 1] == Eof
    ensures r.Ok? ==> forall i :: 0 <= i < |r.value| - 1 ==> r.value[i] != Eof
    decreases |input| - pos
  {
    var t := NextTokenSpec(input, pos);
    if t.Err? then Err(t.error)
    else if t.value.token == Eof then Ok([Eof])
    else
      var rest := Tokenize(input, t.value.end);
      if rest.Err? then rest else Ok([t.value.token] + rest.value)
  }

  /** Once `next_token` has returned `Eof`, it returns `Eof` again and the
      cursor stays where it is. */
  lemma EofIsSticky(input: string, pos: nat)
    requires pos <= |input| && NextTokenSpec(input, pos).Ok? && NextTokenSpec(input, pos).value.token == Eof
    ensures NextTokenSpec(input, NextTokenSpec(input, pos).value.end) == Ok(Lexed(Eof, |input|))
  {
    assert SpanEnd(input, |input|, IsWhitespace) == |input|;
  }

  /** A two-character operator is read whole, never as its first
      character. */
  lemma TwoCharOperatorsAreGreedy(input: string, pos: nat)
    requires pos <= |input|
    requires var p := SpanEnd(input, pos, IsWhitespace);
             p + 1 < |input| && TwoCharToken(input[p], Some(input[p + 1])).Some?
    ensures var p := SpanEnd(input, pos, IsWhitespace);
            NextTokenSpec(input, pos) == Ok(Lexed(TwoCharToken(input[p], Some(input[p + 1])).value, p + 2))
  {
    var p := SpanEnd(input, pos, IsWhitespace);
    assert input[p] != '/';
  }

  /** A `&` that does not start `&&` is an error, located one step past
      it. */
  lemma LoneAmpersandIsAnError(input: string, pos: nat)
    requires pos <= |input|
    requires var p := SpanEnd(input, pos, IsWhitespace);
             p < |input| && input[p] == '&' && CharAt(input, p + 1) != Some('&')
    ensures var p := SpanEnd(input, pos, IsWhitespace);
            NextTokenSpec(input, pos) == LexErr(input, LoneAmpersand, p + 1)
  {
  }

  /** A `|` that starts neither `||` nor `|>` is an error, located one step
      past it. */
  lemma LoneBarIsAnError(input: string, pos: nat)
    requires pos <= |input|
    requires var p := SpanEnd(input, pos, IsWhitespace);
             p < |input| && input[p] == '|' && CharAt(input, p + 1) != Some('|') && CharAt(input, p + 1) != Some('>')
    ensures var p := SpanEnd(input, pos, IsWhitespace);
            NextTokenSpec(input, pos) == LexErr(input, LoneBar, p + 1)
  {
  }

  /** A character that starts no token, no comment and is not whitespace
      is an error at its own position, naming the character. */
  lemma UnexpectedCharacterIsAnError(input: string, pos: nat)
    requires pos <= |input|
    requires var p := SpanEnd(input, pos, IsWhitespace);
             p < |input| && OneCharToken(input[p]).None? && input[p] !in "&|\"_" &&
             !IsAlpha(input[p]) && !IsDigit(input[p])
    ensures var p := SpanEnd(input, pos, IsWhitespace);
            NextTokenSpec(input, pos) == LexErr(input, UnexpectedCharacter(input[p]), p)
  {
    var p := SpanEnd(input, pos, IsWhitespace);
    assert TwoCharToken(input[p], CharAt(input, p + 1)).None?;
  }

  /** A string is the text between its quote and the quote that closes
      it, escapes left as written; the token ends past the closing quote.
      A string that is never closed, or that ends in a backslash, is the
      error `StringClose` reports. */
  lemma StringsAreQuoted(input: string, pos: nat)
    requires pos <= |input|
    requires var p := SpanEnd(input, pos, IsWhitespace);
             p < |input| && input[p] == '"'
    ensures var p := SpanEnd(input, pos, IsWhitespace);
            var close := StringClose(input, p + 1);
            NextTokenSpec(input, pos) ==
              if close.Ok? then Ok(Lexed(String(input[p + 1..close.value]), close.value + 1))
              else Err(close.error)
  {
    var p := SpanEnd(input, pos, IsWhitespace);
    assert OneCharToken(input[p]).None? && TwoCharToken(input[p], CharAt(input, p + 1)).None?;
  }

  /** A word is the longest run of letters, digits and `_` starting with a
      letter or `_`; it is a keyword token exactly when it is one of the
      thirteen keywords. */
  lemma WordsAreMaximal(input: string, pos: nat)
    requires pos <= |input|
    requires var p := SpanEnd(input, pos, IsWhitespace);
             p < |input| && (IsAlpha(input[p]) || input[p] == '_')
    ensures var p := SpanEnd(input, pos, IsWhitespace);
            var r := NextTokenSpec(input, pos);
            r.Ok? && (r.value.end == |input| || !IsIdentChar(input[r.value.end])) &&
            (forall i :: p <= i < r.value.end ==> IsIdentChar(input[i])) &&
            (r.value.token.Identifier? <==> input[p..r.value.end] !in Keywords)
  {
  }

  /** Stepping over characters none of which is a line feed adds one
      column per step. */
  lemma {:induction false} ColumnsAcrossALine(input: string, p: nat, q: nat)
    requires p <= q
    requires forall i :: p < i <= q && i < |input| ==> input[i] != '\n'
    ensures ColumnAt(input, q) == ColumnAt(input, p) + (q - p)
    decreases q - p
  {
    if q > p {
      ColumnsAcrossALine(input, p, q - 1);
    }
  }

  /** A digit run is an `Integer` token exactly when its value fits in an
      `i64`. When it does not, the error carries the column where the digits
      start, unless the digits are followed by a line feed: the cursor's
      column is then 0 and computing the error column panics. */
  lemma NumbersInRange(input: string, pos: nat)
    requires pos <= |input|
    requires var p := SpanEnd(input, pos, IsWhitespace);
             p < |input| && IsDigit(input[p])
    ensures var p := SpanEnd(input, pos, IsWhitespace);
            var q := SpanEnd(input, p, IsDigit);
            var v := DecimalValue(input[p..q]);
            var r := NextTokenSpec(input, pos);
            (v <= Ast.MaxI64 ==> r == Ok(Lexed(Integer(v), q))) &&
            (v > Ast.MaxI64 && q < |input| && input[q] == '\n' ==>
               r == Err(Panic("attempt to subtract with overflow"))) &&
            (v > Ast.MaxI64 && (q == |input| || input[q] != '\n') ==>
               r == Err(LexerError(InvalidNumber(input[p..q]), LineAt(input, q), ColumnAt(input, p))))
  {
    var p := SpanEnd(input, pos, IsWhitespace);
    var q := SpanEnd(input, p, IsDigit);
    assert input[p] != '/' && OneCharToken(input[p]).None?;
    if q == |input| || input[q] != '\n' {
      ColumnsAcrossALine(input, p, q);
    }
  }

  /** The run that `SpanEnd` finds is the only run ending where the
      predicate first fails. */
  lemma {:induction false} SpanEndIs(input: string, p: nat, q: nat, inSpan: char -> bool)
    requires p <= q <= |input|
    requires forall i :: p <= i < q ==> inSpan(input[i])
    requires q == |input| || !inSpan(input[q])
    ensures SpanEnd(input, p, inSpan) == q
    decreases q - p
  {
    if p < q {
      SpanEndIs(input, p + 1, q, inSpan);
    }
  }

  /** A word between `p` and `q`. */
  lemma WordAt(input: string, p: nat, q: nat)
    requires p < q <= |input| && (IsAlpha(input[p]) || input[p] == '_')
    requires forall i :: p <= i < q ==> IsIdentChar(input[i])
    requires q == |input| || !IsIdentChar(input[q])
    ensures TokenAt(input, p) == Ok(Lexed(WordToken(input[p..q]), q))
  {
    SpanEndIs(input, p, q, IsIdentChar);
    assert OneCharToken(input[p]).None?;
  }

  /** A digit run between `p` and `q` whose value fits in an `i64`. */
  lemma NumberAt(input: string, p: nat, q: nat)
    requires p < q <= |input| && forall i :: p <= i < q ==> IsDigit(input[i])
    requires q == |input| || !IsDigit(input[q])
    requires DecimalValue(input[p..q]) <= Ast.MaxI64
    ensures TokenAt(input, p) == Ok(Lexed(Integer(DecimalValue(input[p..q])), q))
  {
    SpanEndIs(input, p, q, IsDigit);
    assert OneCharToken(input[p]).None?;
  }

  /** An operator of one or two characters at `p`. */
  lemma OperatorAt(input: string, p: nat)
    requires p < |input| && input[p] != '/'
    requires TwoCharToken(input[p], CharAt(input, p + 1)).Some? || OneCharToken(input[p]).Some?
    ensures var two := TwoCharToken(input[p], CharAt(input, p + 1));
            TokenAt(input, p) == if two.Some? then Ok(Lexed(two.value, p + 2)) else Ok(Lexed(OneCharToken(input[p]).value, p + 1))
  {
  }

  /** Whitespace from `pos` to `p`, then the token at `p`: `next_token`
      from `pos` reads that token. */
  lemma SkippedTo(input: string, pos: nat, p: nat, t: Token, end: nat)
    requires pos <= p <= |input| && forall i :: pos <= i < p ==> IsWhitespace(input[i])
    requires p == |input| || !IsWhitespace(input[p])
    requires TokenAt(input, p) == Ok(Lexed(t, end))
    ensures NextTokenSpec(input, pos) == Ok(Lexed(t, end))
  {
    SpanEndIs(input, pos, p, IsWhitespace);
  }

  /** One step of `Tokenize`: a token other than `Eof` read from `pos`,
      followed by the tokens from where it ends. */
  lemma TokenizeStep(input: string, pos: nat, t: Token, end: nat, rest: seq<Token>)
    requires pos <= |input| && NextTokenSpec(input, pos) == Ok(Lexed(t, end)) && t != Eof
    requires Tokenize(input, end) == Ok(rest)
    ensures Tokenize(input, pos) == Ok([t] + rest)
  {
  }

  /** The end of the input, reached after whitespace from `pos`. */
  lemma TokenizeEnd(input: string, pos: nat)
    requires pos <= |input| && forall i :: pos <= i < |input| ==> IsWhitespace(input[i])
    ensures Tokenize(input, pos) == Ok([Eof])
  {
    SpanEndIs(input, pos, |input|, IsWhitespace);
    assert NextTokenSpec(input, pos) == Ok(Lexed(Eof, |input|));
  }
}
