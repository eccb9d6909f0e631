/**
 * Concrete inputs of the lexer (src/lexer.rs) and the tokens they read
 * as: string escapes, nested comments and the two token sequences its own
 * examples list.
 */
module LexingExamples {
  import opened Wrappers
  import opened Ascii
  import opened Errors
  import opened Tokens
  import opened Lexing
  import opened LexingFacts

  /** A string token is the raw text between the quotes: a backslash and
      the character after it are both kept. */
  lemma StringsAreRaw()
    ensures NextTokenSpec("\"a\\\"b\"", 0) == Ok(Lexed(String("a\\\"b"), 6))
  {
    var input := "\"a\\\"b\"";
    assert SpanEnd(input, 0, IsWhitespace) == 0;
    assert StringClose(input, 1) == Ok(5) by {
      assert StringClose(input, 4) == Ok(5);
      assert StringClose(input, 2) == StringClose(input, 4);
    }
    assert input[1..5] == "a\\\"b";
  }

  /** The body of the outer comment of `/*/**/*/x`: the inner comment
      opens and closes, and the last `*` `/` closes the outer one. */
  lemma InnerCommentCloses(input: string)
    requires |input| >= 8
    requires input[2] == '/' && input[3] == '*' && input[4] == '*' && input[5] == '/'
    requires input[6] == '*' && input[7] == '/'
    ensures CommentEnd(input, 2, 1) == Ok(8)
  {
    assert CommentEnd(input, 6, 1) == Ok(8);
    assert CommentEnd(input, 4, 2) == CommentEnd(input, 6, 1);
  }

  /** Block comments nest: in `/*/**/*/x` the first `*` `/` closes only
      the inner comment, and the token after the outer one is `x`. */
  lemma CommentsNest(input: string)
    requires |input| == 9
    requires input[0] == '/' && input[1] == '*' && input[2] == '/' && input[3] == '*'
    requires input[4] == '*' && input[5] == '/' && input[6] == '*' && input[7] == '/'
    requires input[8] == 'x'
    ensures NextTokenSpec(input, 0) == Ok(Lexed(Identifier("x"), 9))
  {
    InnerCommentCloses(input);
    WordAt(input, 8, 9);
    assert input[8..9] == "x";
    SkippedTo(input, 8, 8, Identifier("x"), 9);
    assert TokenAt(input, 0) == Ok(Lexed(Identifier("x"), 9));
    SkippedTo(input, 0, 0, Identifier("x"), 9);
  }

  /** A nested comment left open after its inner one closed is
      unterminated, reported where the input ends. */
  lemma NestedCommentLeftOpen()
    ensures NextTokenSpec("/*/**/", 0) == Err(LexerError(UnterminatedComment, 1, 6))
  {
    var open := "/*/**/";
    assert SpanEnd(open, 0, IsWhitespace) == 0;
    assert CommentEnd(open, 2, 1) == LexErr(open, UnterminatedComment, 6) by {
      assert CommentEnd(open, 6, 1) == LexErr(open, UnterminatedComment, 6);
      assert CommentEnd(open, 4, 2) == CommentEnd(open, 6, 1);
    }
    assert LineAt(open, 6) == 1 && ColumnAt(open, 6) == 6;
  }

  /** The input is `x |> f`, stated character by character. */
  predicate IsPipelineText(input: string)
  {
    |input| == 6 && input[0] == 'x' && input[1] == ' ' && input[2] == '|' &&
    input[3] == '>' && input[4] == ' ' && input[5] == 'f'
  }

  lemma PipelineLast(input: string)
    requires IsPipelineText(input)
    ensures Tokenize(input, 4) == Ok([Identifier("f"), Eof])
  {
    TokenizeEnd(input, 6);
    WordAt(input, 5, 6);
    assert input[5..6] == "f";
    SkippedTo(input, 4, 5, Identifier("f"), 6);
    TokenizeStep(input, 4, Identifier("f"), 6, [Eof]);
    assert [Identifier("f")] + [Eof] == [Identifier("f"), Eof];
  }

  lemma PipelineTail(input: string)
    requires IsPipelineText(input)
    ensures Tokenize(input, 1) == Ok([Pipeline, Identifier("f"), Eof])
  {
    PipelineLast(input);
    OperatorAt(input, 2);
    assert CharAt(input, 3) == Some('>');
    SkippedTo(input, 1, 2, Pipeline, 4);
    TokenizeStep(input, 1, Pipeline, 4, [Identifier("f"), Eof]);
    assert [Pipeline] + [Identifier("f"), Eof] == [Pipeline, Identifier("f"), Eof];
  }

  /** `x |> f` reads as an identifier, the pipeline operator and another
      identifier. */
  lemma PipelineExample(input: string)
    requires IsPipelineText(input)
    ensures Tokenize(input, 0) == Ok([Identifier("x"), Pipeline, Identifier("f"), Eof])
  {
    PipelineTail(input);
    WordAt(input, 0, 1);
    assert input[0..1] == "x";
    SkippedTo(input, 0, 0, Identifier("x"), 1);
    TokenizeStep(input, 0, Identifier("x"), 1, [Pipeline, Identifier("f"), Eof]);
    assert [Identifier("x")] + [Pipeline, Identifier("f"), Eof] == [Identifier("x"), Pipeline, Identifier("f"), Eof];
  }

  /** The input is `let x = 5 in x + 1`, stated character by character. */
  predicate IsLetText(input: string)
  {
    |input| == 18 &&
    input[0] == 'l' && input[1] == 'e' && input[2] == 't' && input[3] == ' ' &&
    input[4] == 'x' && input[5] == ' ' && input[6] == '=' && input[7] == ' ' &&
    input[8] == '5' && input[9] == ' ' && input[10] == 'i' && input[11] == 'n' &&
    input[12] == ' ' && input[13] == 'x' && input[14] == ' ' && input[15] == '+' &&
    input[16] == ' ' && input[17] == '1'
  }

  /** The token read from each position of `let x = 5 in x + 1` where
      one starts, from the characters it spans and the one after it. */
  lemma LetAt0(input: string)
    requires |input| == 18
    requires input[0] == 'l' && input[1] == 'e' && input[2] == 't' && input[3] == ' '
    ensures NextTokenSpec(input, 0) == Ok(Lexed(Let, 3))
  {
    WordAt(input, 0, 3);
    assert input[0..3] == "let";
    SkippedTo(input, 0, 0, Let, 3);
  }

  lemma LetAt3(input: string)
    requires |input| == 18
    requires input[3] == ' ' && input[4] == 'x' && input[5] == ' '
    ensures NextTokenSpec(input, 3) == Ok(Lexed(Identifier("x"), 5))
  {
    WordAt(input, 4, 5);
    assert input[4..5] == "x";
    SkippedTo(input, 3, 4, Identifier("x"), 5);
  }

  lemma LetAt5(input: string)
    requires |input| == 18
    requires input[5] == ' ' && input[6] == '=' && input[7] == ' '
    ensures NextTokenSpec(input, 5) == Ok(Lexed(Assign, 7))
  {
    OperatorAt(input, 6);
    assert CharAt(input, 7) == Some(' ');
    SkippedTo(input, 5, 6, Assign, 7);
  }

  lemma LetAt7(input: string)
    requires |input| == 18
    requires input[7] == ' ' && input[8] == '5' && input[9] == ' '
    ensures NextTokenSpec(input, 7) == Ok(Lexed(Integer(5), 9))
  {
    assert input[8..9] == "5";
    assert DecimalValue("5") == 5 by { assert "5"[..0] == []; }
    NumberAt(input, 8, 9);
    SkippedTo(input, 7, 8, Integer(5), 9);
  }

  lemma LetAt9(input: string)
    requires |input| == 18
    requires input[9] == ' ' && input[10] == 'i' && input[11] == 'n' && input[12] == ' '
    ensures NextTokenSpec(input, 9) == Ok(Lexed(In, 12))
  {
    WordAt(input, 10, 12);
    assert input[10..12] == "in";
    SkippedTo(input, 9, 10, In, 12);
  }

  lemma LetAt12(input: string)
    requires |input| == 18
    requires input[12] == ' ' && input[13] == 'x' && input[14] == ' '
    ensures NextTokenSpec(input, 12) == Ok(Lexed(Identifier("x"), 14))
  {
    WordAt(input, 13, 14);
    assert input[13..14] == "x";
    SkippedTo(input, 12, 13, Identifier("x"), 14);
  }

  lemma LetAt14(input: string)
    requires |input| == 18
    requires input[14] == ' ' && input[15] == '+' && input[16] == ' '
    ensures NextTokenSpec(input, 14) == Ok(Lexed(Plus, 16))
  {
    OperatorAt(input, 15);
    assert CharAt(input, 16) == Some(' ');
    SkippedTo(input, 14, 15, Plus, 16);
  }

  lemma LetAt16(input: string)
    requires |input| == 18
    requires input[16] == ' ' && input[17] == '1'
    ensures NextTokenSpec(input, 16) == Ok(Lexed(Integer(1), 18))
  {
    assert input[17..18] == "1";
    assert DecimalValue("1") == 1 by { assert "1"[..0] == []; }
    NumberAt(input, 17, 18);
    SkippedTo(input, 16, 17, Integer(1), 18);
  }

  /** Eight tokens put one by one in front of `Eof` form the list of the
      nine. */
  lemma ConsEight(t0: Token, t1: Token, t2: Token, t3: Token, t4: Token, t5: Token, t6: Token, t7: Token)
    ensures [t0] + ([t1] + ([t2] + ([t3] + ([t4] + ([t5] + ([t6] + ([t7] + [Eof])))))))
            == [t0, t1, t2, t3, t4, t5, t6, t7, Eof]
  {
  }

  /** `Tokenize` collects the tokens read from the positions where those
      of `let x = 5 in x + 1` start, whatever they are. */
  lemma LetChain(input: string, t0: Token, t1: Token, t2: Token, t3: Token, t4: Token, t5: Token, t6: Token, t7: Token)
    requires |input| == 18
    requires t0 != Eof && t1 != Eof && t2 != Eof && t3 != Eof
    requires t4 != Eof && t5 != Eof && t6 != Eof && t7 != Eof
    requires NextTokenSpec(input, 0) == Ok(Lexed(t0, 3))
    requires NextTokenSpec(input, 3) == Ok(Lexed(t1, 5))
    requires NextTokenSpec(input, 5) == Ok(Lexed(t2, 7))
    requires NextTokenSpec(input, 7) == Ok(Lexed(t3, 9))
    requires NextTokenSpec(input, 9) == Ok(Lexed(t4, 12))
    requires NextTokenSpec(input, 12) == Ok(Lexed(t5, 14))
    requires NextTokenSpec(input, 14) == Ok(Lexed(t6, 16))
    requires NextTokenSpec(input, 16) == Ok(Lexed(t7, 18))
    ensures Tokenize(input, 0) == Ok([t0, t1, t2, t3, t4, t5, t6, t7, Eof])
  {
    var r8 := [Eof];
    var r7 := [t7] + r8;
    var r6 := [t6] + r7;
    var r5 := [t5] + r6;
    var r4 := [t4] + r5;
    var r3 := [t3] + r4;
    var r2 := [t2] + r3;
    var r1 := [t1] + r2;
    TokenizeEnd(input, 18);
    TokenizeStep(input, 16, t7, 18, r8);
    TokenizeStep(input, 14, t6, 16, r7);
    TokenizeStep(input, 12, t5, 14, r6);
    TokenizeStep(input, 9, t4, 12, r5);
    TokenizeStep(input, 7, t3, 9, r4);
    TokenizeStep(input, 5, t2, 7, r3);
    TokenizeStep(input, 3, t1, 5, r2);
    TokenizeStep(input, 0, t0, 3, r1);
    ConsEight(t0, t1, t2, t3, t4, t5, t6, t7);
  }

  /** `let x = 5 in x + 1` reads as the `let` and `in` keywords around an
      identifier, `=`, integers and `+`. */
  lemma LetExample(input: string)
    requires IsLetText(input)
    ensures Tokenize(input, 0) ==
            Ok([Let, Identifier("x"), Assign, Integer(5), In, Identifier("x"), Plus, Integer(1), Eof])
  {
    LetAt0(input);
    LetAt3(input);
    LetAt5(input);
    LetAt7(input);
    LetAt9(input);
    LetAt12(input);
    LetAt14(input);
    LetAt16(input);
    LetChain(input, Let, Identifier("x"), Assign, Integer(5), In, Identifier("x"), Plus, Integer(1));
  }
}
