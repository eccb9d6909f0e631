/**
 * The token stream a parser reads (src/parser.rs pulls tokens from the
 * lexer one `advance` at a time). The stream lists the tokens `next_token`
 * returns before `Eof`, and the lexer error that ended it if one did; a
 * cursor is an index into it, and index `|toks|` stands for `Eof`.
 */
module Streams {
  import opened Wrappers
  import opened Errors
  import T = Tokens
  import opened Lexing
  import opened Ascii

  datatype Stream = Stream(toks: seq<T.Token>, failure: Option<Error>)

  /** The token under the cursor; past the listed tokens it is `Eof`. */
  function Current(s: Stream, i: nat): T.Token
  {
    if i < |s.toks| then s.toks[i] else T.Eof
  }

  /** `advance`: the following token, or the lexer error that ended the
      stream. `Eof` stays `Eof`. */
  function Next(s: Stream, i: nat): (r: Result<nat>)
    requires i <= |s.toks|
    ensures r.Ok? ==> i <= r.value <= |s.toks|
    ensures r.Ok? && Current(s, i) != T.Eof ==> i < r.value
    ensures r.Ok? && i < r.value == |s.toks| ==> s.failure.None?
    ensures r.Err? ==> Some(r.error) == s.failure && i + 1 == |s.toks|
    ensures i + 1 < |s.toks| ==> r == Ok(i + 1)
  {
    if i == |s.toks| then Ok(i)
    else if i + 1 < |s.toks| then Ok(i + 1)
    else if s.failure.Some? then Err(s.failure.value)
    else Ok(|s.toks|)
  }

  /** The tokens `next_token` returns from `pos` on, each with the position
      after it, up to but not including `Eof`, and the lexer error that
      stopped them if one did. */
  function LexFrom(input: string, pos: nat): (r: (seq<Lexed>, Option<Error>))
    requires pos <= |input|
    ensures forall k :: 0 <= k < |r.0| ==> r.0[k].token != T.Eof && pos < r.0[k].end <= |input|
    decreases |input| - pos
  {
    var n := NextTokenSpec(input, pos);
    if n.Err? then ([], Some(n.error))
    else if n.value.token == T.Eof then ([], None)
    else
      var rest := LexFrom(input, n.value.end);
      ([n.value] + rest.0, rest.1)
  }

  function TokensOf(items: seq<Lexed>): (r: seq<T.Token>)
    ensures |r| == |items| && forall k :: 0 <= k < |items| ==> r[k] == items[k].token
  {
    if items == [] then [] else [items[0].token] + TokensOf(items[1..])
  }

  /** The stream a lexer at `pos` yields. */
  function StreamFrom(input: string, pos: nat): (s: Stream)
    requires pos <= |input|
    ensures forall k :: 0 <= k < |s.toks| ==> s.toks[k] != T.Eof
  {
    var (items, failure) := LexFrom(input, pos);
    Stream(TokensOf(items), failure)
  }

  /** Where the lexer stands once it has returned `k` tokens from `pos`. */
  function PositionAfter(input: string, pos: nat, k: nat): (p: nat)
    requires pos <= |input| && k <= |LexFrom(input, pos).0|
    ensures pos <= p <= |input|
  {
    if k == 0 then pos else LexFrom(input, pos).0[k - 1].end
  }

  /** Reading a token at the position after `k` tokens yields the next
      element of the stream, the error that ended it, or `Eof` at the end
      of the input. */
  lemma {:induction false} LexFromNext(input: string, pos: nat, k: nat)
    requires pos <= |input| && k <= |LexFrom(input, pos).0|
    ensures var (items, failure) := LexFrom(input, pos);
            NextTokenSpec(input, PositionAfter(input, pos, k)) ==
              if k < |items| then Ok(items[k])
              else if failure.Some? then Err(failure.value)
              else Ok(Lexed(T.Eof, |input|))
    decreases k
  {
    var n := NextTokenSpec(input, pos);
    if k > 0 {
      var rest := LexFrom(input, n.value.end);
      LexFromNext(input, n.value.end, k - 1);
      assert PositionAfter(input, pos, k) == PositionAfter(input, n.value.end, k - 1);
    }
  }

  /** What `next_token` returns after the `k` tokens of `items`: the
      next of them, the lexer error, or `Eof` at the end of the input. */
  function After(input: string, items: seq<Lexed>, failure: Option<Error>, k: nat): Result<Lexed>
  {
    if k < |items| then Ok(items[k])
    else if failure.Some? then Err(failure.value)
    else Ok(Lexed(T.Eof, |input|))
  }

  /** Where the lexer stands after the first `k` tokens of `items`. */
  function PositionIn(start: nat, items: seq<Lexed>, k: nat): nat
    requires k <= |items|
  {
    if k == 0 then start else items[k - 1].end
  }

  /** `items` and `failure` are what a lexer at `start` yields: none of the
      tokens is `Eof`, and reading at the start and after each token gives
      the next one. */
  ghost predicate Yields(input: string, start: nat, items: seq<Lexed>, failure: Option<Error>)
  {
    start <= |input| &&
    (forall k :: 0 <= k < |items| ==> items[k].token != T.Eof && items[k].end <= |input|) &&
    (forall k :: 0 <= k <= |items| ==>
       NextTokenSpec(input, PositionIn(start, items, k)) == After(input, items, failure, k))
  }

  /** `LexFrom` lists what the lexer yields. */
  lemma LexFromYields(input: string, start: nat)
    requires start <= |input|
    ensures Yields(input, start, LexFrom(input, start).0, LexFrom(input, start).1)
  {
    var (items, failure) := LexFrom(input, start);
    forall k | 0 <= k <= |items|
      ensures NextTokenSpec(input, PositionIn(start, items, k)) == After(input, items, failure, k)
    {
      LexFromNext(input, start, k);
    }
  }

  lemma YieldsNext(input: string, start: nat, items: seq<Lexed>, failure: Option<Error>, k: nat)
    requires Yields(input, start, items, failure) && k < |items|
    ensures NextTokenSpec(input, items[k].end) == After(input, items, failure, k + 1)
  {
    assert PositionIn(start, items, k + 1) == items[k].end;
  }

  /** One `advance` over the stream a lexer yields: what `next_token`
      returns next is what `Next` moves to, and the lexer then stands after
      the token it moved to. */
  lemma {:induction false} AdvanceStep(input: string, start: nat, items: seq<Lexed>, s: Stream, k: nat, r: Result<Lexed>)
    requires Yields(input, start, items, s.failure) && s.toks == TokensOf(items)
    requires k <= |items| && (k == |items| ==> s.failure.None?)
    requires r == NextTokenSpec(input, if k < |items| then items[k].end else |input|)
    ensures r.Err? ==> Next(s, k) == Err(r.error)
    ensures r.Ok? ==> var k' := if k < |items| then k + 1 else k;
                      Next(s, k) == Ok(k') && r.value.token == Current(s, k') &&
                      r.value.end == (if k' < |items| then items[k'].end else |input|) &&
                      (k' == |items| ==> s.failure.None?)
  {
    if k < |items| {
      YieldsNext(input, start, items, s.failure, k);
    } else {
      EofAtEnd(input);
    }
  }

  /** At the end of the input the lexer keeps returning `Eof`. */
  lemma EofAtEnd(input: string)
    ensures NextTokenSpec(input, |input|) == Ok(Lexed(T.Eof, |input|))
  {
    assert SpanEnd(input, |input|, IsWhitespace) == |input|;
    assert TokenAt(input, |input|) == Ok(Lexed(T.Eof, |input|));
  }
}
