/**
 * Properties of the expression grammar of src/parser.rs: how a single
 * token becomes an operand at every precedence level, and the trees the
 * parser builds for pipelines, mixed operators and `let`.
 */
module GrammarFacts {
  import opened Wrappers
  import opened Errors
  import opened Ast
  import T = Tokens
  import opened Streams
  import opened Grammar

  /** A token that no binary level and no postfix selector continues
      with: after it, an operand is complete up to the `||` level. */
  predicate EndsOperand(t: T.Token)
  {
    !t.Dot? && MultiplicativeOf(t).None? && AdditiveOf(t).None? &&
    ComparisonOf(t).None? && !t.And? && !t.Or?
  }

  /** A parse that yields `e` and stops before token `j`. */
  function Yield(e: Expression, j: nat): Parsed<Expression>
  {
    Ok((e, j))
  }

  /** A literal or identifier token is an operand on its own at every
      level up to the first operator that level continues with. */
  lemma AtomOperand(s: Stream, i: nat)
    requires s.failure.None? && i < |s.toks| && Atom(s.toks[i]).Some?
    ensures var e := Atom(s.toks[i]).value;
            var t := Current(s, i + 1);
            (!t.Dot? ==> UnaryAt(s, i) == Yield(e, i + 1)) &&
            (!t.Dot? && MultiplicativeOf(t).None? ==> MultiplicativeAt(s, i) == Yield(e, i + 1)) &&
            (!t.Dot? && MultiplicativeOf(t).None? && AdditiveOf(t).None? ==>
               AdditiveAt(s, i) == Yield(e, i + 1)) &&
            (!t.Dot? && MultiplicativeOf(t).None? && AdditiveOf(t).None? && ComparisonOf(t).None? ==>
               ComparisonAt(s, i) == Yield(e, i + 1)) &&
            (!t.Dot? && MultiplicativeOf(t).None? && AdditiveOf(t).None? && ComparisonOf(t).None? && !t.And? ==>
               AndAt(s, i) == Yield(e, i + 1)) &&
            (EndsOperand(t) ==> OrAt(s, i) == Yield(e, i + 1))
  {
    var e := Atom(s.toks[i]).value;
    var t := Current(s, i + 1);
    assert Next(s, i) == Ok(i + 1);
    assert PrimaryAt(s, i) == Yield(e, i + 1);
    if !t.Dot? {
      assert PostfixRest(s, e, i + 1) == Yield(e, i + 1);
      assert UnaryAt(s, i) == Yield(e, i + 1);
      if MultiplicativeOf(t).None? {
        assert MultiplicativeRest(s, e, i + 1) == Yield(e, i + 1);
        if AdditiveOf(t).None? {
          assert AdditiveRest(s, e, i + 1) == Yield(e, i + 1);
          if ComparisonOf(t).None? {
            assert ComparisonRest(s, e, i + 1) == Yield(e, i + 1);
            if !t.And? {
              assert AndRest(s, e, i + 1) == Yield(e, i + 1);
              if !t.Or? {
                assert OrRest(s, e, i + 1) == Yield(e, i + 1);
              }
            }
          }
        }
      }
    }
  }

  /** An atom followed by a token that ends an operand is a whole
      `||`-level operand. */
  lemma AtomOr(s: Stream, i: nat)
    requires s.failure.None? && i < |s.toks| && Atom(s.toks[i]).Some? && EndsOperand(Current(s, i + 1))
    ensures OrAt(s, i) == Yield(Atom(s.toks[i]).value, i + 1)
  {
    AtomOperand(s, i);
  }

  /** An atom followed by neither a selector nor an operator of the `+`,
      `-`, `*` or `/` levels is a whole additive-level operand. */
  lemma AtomAdditive(s: Stream, i: nat)
    requires s.failure.None? && i < |s.toks| && Atom(s.toks[i]).Some?
    requires var t := Current(s, i + 1); !t.Dot? && MultiplicativeOf(t).None? && AdditiveOf(t).None?
    ensures AdditiveAt(s, i) == Yield(Atom(s.toks[i]).value, i + 1)
  {
    AtomOperand(s, i);
  }

  /** An atom followed by neither a selector nor `*` or `/` is a whole
      multiplicative-level operand. */
  lemma AtomMultiplicative(s: Stream, i: nat)
    requires s.failure.None? && i < |s.toks| && Atom(s.toks[i]).Some?
    requires var t := Current(s, i + 1); !t.Dot? && MultiplicativeOf(t).None?
    ensures MultiplicativeAt(s, i) == Yield(Atom(s.toks[i]).value, i + 1)
  {
    AtomOperand(s, i);
  }

  /** An atom not followed by a selector is a whole unary operand. */
  lemma AtomUnary(s: Stream, i: nat)
    requires s.failure.None? && i < |s.toks| && Atom(s.toks[i]).Some? && !Current(s, i + 1).Dot?
    ensures UnaryAt(s, i) == Yield(Atom(s.toks[i]).value, i + 1)
  {
    AtomOperand(s, i);
  }

  /** At `Eof` every `...Rest` function returns its left operand unchanged. */
  lemma RestAtEnd(s: Stream, e: Expression)
    ensures PipelineRest(s, e, |s.toks|) == Yield(e, |s.toks|)
    ensures OrRest(s, e, |s.toks|) == Yield(e, |s.toks|)
    ensures AndRest(s, e, |s.toks|) == Yield(e, |s.toks|)
    ensures ComparisonRest(s, e, |s.toks|) == Yield(e, |s.toks|)
    ensures AdditiveRest(s, e, |s.toks|) == Yield(e, |s.toks|)
    ensures MultiplicativeRest(s, e, |s.toks|) == Yield(e, |s.toks|)
    ensures PostfixRest(s, e, |s.toks|) == Yield(e, |s.toks|)
  {
    assert Current(s, |s.toks|) == T.Eof;
  }

  /** Each level starts with an operand of the next tighter level and
      continues in its `...Rest` function. */
  lemma PipelineEntry(s: Stream, i: nat, e: Expression, j: nat)
    requires i <= |s.toks| && OrAt(s, i) == Yield(e, j)
    ensures j <= |s.toks| && ExpressionAt(s, i) == PipelineRest(s, e, j)
  {
  }

  lemma AdditiveEntry(s: Stream, i: nat, e: Expression, j: nat)
    requires i <= |s.toks| && MultiplicativeAt(s, i) == Yield(e, j)
    ensures j <= |s.toks| && AdditiveAt(s, i) == AdditiveRest(s, e, j)
  {
  }

  lemma MultiplicativeEntry(s: Stream, i: nat, e: Expression, j: nat)
    requires i <= |s.toks| && UnaryAt(s, i) == Yield(e, j)
    ensures j <= |s.toks| && MultiplicativeAt(s, i) == MultiplicativeRest(s, e, j)
  {
  }

  /** One `|>` step: the stage after the operator is an `||`-level
      operand, and the pipeline built so far becomes its left side. */
  lemma PipelineStep(s: Stream, left: Expression, j: nat, right: Expression, k: nat)
    requires j < |s.toks| && s.toks[j].Pipeline? && Next(s, j) == Ok(j + 1)
    requires OrAt(s, j + 1) == Yield(right, k)
    ensures k <= |s.toks| && PipelineRest(s, left, j) == PipelineRest(s, Pipeline(left, right), k)
  {
  }

  /** One comparison step: the operand after the operator is an
      additive-level operand. */
  lemma ComparisonStep(s: Stream, left: Expression, j: nat, right: Expression, k: nat)
    requires j < |s.toks| && ComparisonOf(s.toks[j]).Some? && Next(s, j) == Ok(j + 1)
    requires AdditiveAt(s, j + 1) == Yield(right, k)
    ensures k <= |s.toks|
    ensures ComparisonRest(s, left, j) == ComparisonRest(s, Comparison(ComparisonOf(s.toks[j]).value, left, right), k)
  {
  }

  /** One additive step: the operand after `+` or `-` is a
      multiplicative-level operand. */
  lemma AdditiveStep(s: Stream, left: Expression, j: nat, right: Expression, k: nat)
    requires j < |s.toks| && AdditiveOf(s.toks[j]).Some? && Next(s, j) == Ok(j + 1)
    requires MultiplicativeAt(s, j + 1) == Yield(right, k)
    ensures k <= |s.toks|
    ensures AdditiveRest(s, left, j) == AdditiveRest(s, Binary(AdditiveOf(s.toks[j]).value, left, right), k)
  {
  }

  /** One multiplicative step: the operand after `*` or `/` is a unary
      operand. */
  lemma MultiplicativeStep(s: Stream, left: Expression, j: nat, right: Expression, k: nat)
    requires j < |s.toks| && MultiplicativeOf(s.toks[j]).Some? && Next(s, j) == Ok(j + 1)
    requires UnaryAt(s, j + 1) == Yield(right, k)
    ensures k <= |s.toks|
    ensures MultiplicativeRest(s, left, j) == MultiplicativeRest(s, Binary(MultiplicativeOf(s.toks[j]).value, left, right), k)
  {
  }

  /** One `||` step: the operand after the operator is an `&&`-level
      operand. */
  lemma OrStep(s: Stream, left: Expression, j: nat, right: Expression, k: nat)
    requires j < |s.toks| && s.toks[j].Or? && Next(s, j) == Ok(j + 1)
    requires AndAt(s, j + 1) == Yield(right, k)
    ensures k <= |s.toks| && OrRest(s, left, j) == OrRest(s, Binary(BinaryOp.Or, left, right), k)
  {
  }

  /** One `&&` step: the operand after the operator is a comparison-level
      operand. */
  lemma AndStep(s: Stream, left: Expression, j: nat, right: Expression, k: nat)
    requires j < |s.toks| && s.toks[j].And? && Next(s, j) == Ok(j + 1)
    requires ComparisonAt(s, j + 1) == Yield(right, k)
    ensures k <= |s.toks| && AndRest(s, left, j) == AndRest(s, Binary(BinaryOp.And, left, right), k)
  {
  }

  lemma OrEntry(s: Stream, i: nat, e: Expression, j: nat)
    requires i <= |s.toks| && AndAt(s, i) == Yield(e, j)
    ensures j <= |s.toks| && OrAt(s, i) == OrRest(s, e, j)
  {
  }

  lemma AndEntry(s: Stream, i: nat, e: Expression, j: nat)
    requires i <= |s.toks| && ComparisonAt(s, i) == Yield(e, j)
    ensures j <= |s.toks| && AndAt(s, i) == AndRest(s, e, j)
  {
  }

  lemma ComparisonEntry(s: Stream, i: nat, e: Expression, j: nat)
    requires i <= |s.toks| && AdditiveAt(s, i) == Yield(e, j)
    ensures j <= |s.toks| && ComparisonAt(s, i) == ComparisonRest(s, e, j)
  {
  }

  /** A token that no level continues with, `|>` included: `}`, `in`,
      `)` and the like. */
  predicate EndsExpression(t: T.Token)
  {
    EndsOperand(t) && !t.Pipeline?
  }

  /** Before a token that ends an expression, every `...Rest` function
      returns its left operand. */
  lemma RestsStop(s: Stream, e: Expression, k: nat)
    requires k <= |s.toks| && EndsExpression(Current(s, k))
    ensures PostfixRest(s, e, k) == Yield(e, k)
    ensures MultiplicativeRest(s, e, k) == Yield(e, k)
    ensures AdditiveRest(s, e, k) == Yield(e, k)
    ensures ComparisonRest(s, e, k) == Yield(e, k)
    ensures AndRest(s, e, k) == Yield(e, k)
    ensures OrRest(s, e, k) == Yield(e, k)
    ensures PipelineRest(s, e, k) == Yield(e, k)
  {
  }

  /** A unary operand followed by a token that ends an expression is the
      whole expression. */
  lemma UnaryCompletes(s: Stream, i: nat, e: Expression, k: nat)
    requires i <= |s.toks| && UnaryAt(s, i) == Yield(e, k) && EndsExpression(Current(s, k))
    ensures ExpressionAt(s, i) == Yield(e, k)
  {
    RestsStop(s, e, k);
    MultiplicativeEntry(s, i, e, k);
    AdditiveEntry(s, i, e, k);
    ComparisonEntry(s, i, e, k);
    AndEntry(s, i, e, k);
    OrEntry(s, i, e, k);
    PipelineEntry(s, i, e, k);
  }

  /** A primary that no unary operator precedes, followed by a token that
      ends an expression, is the whole expression. */
  lemma PrimaryCompletes(s: Stream, i: nat, e: Expression, k: nat)
    requires i <= |s.toks| && !Current(s, i).Not? && !Current(s, i).Minus?
    requires PrimaryAt(s, i) == Yield(e, k) && EndsExpression(Current(s, k))
    ensures ExpressionAt(s, i) == Yield(e, k)
  {
    RestsStop(s, e, k);
    assert UnaryAt(s, i) == Yield(e, k);
    UnaryCompletes(s, i, e, k);
  }

  /** An `&&`-level operand followed by a token that ends an expression is
      the whole expression. */
  lemma AndCompletes(s: Stream, i: nat, e: Expression, k: nat)
    requires i <= |s.toks| && AndAt(s, i) == Yield(e, k) && EndsExpression(Current(s, k))
    ensures ExpressionAt(s, i) == Yield(e, k)
  {
    RestsStop(s, e, k);
    OrEntry(s, i, e, k);
    PipelineEntry(s, i, e, k);
  }

  /** `let name = bound in body` for any bound and body: the bound is a
      whole expression ending at `in`, and the body a whole expression
      after it. */
  lemma LetAt(s: Stream, i: nat, bound: Expression, k: nat, body: Expression, m: nat)
    requires s.failure.None? && i + 3 <= |s.toks|
    requires s.toks[i] == T.Let && s.toks[i + 1].Identifier? && s.toks[i + 2] == T.Assign
    requires ExpressionAt(s, i + 3) == Yield(bound, k) && Current(s, k) == T.In
    requires ExpressionAt(s, k + 1) == Yield(body, m)
    ensures PrimaryAt(s, i) == Yield(Let(s.toks[i + 1].name, bound, body), m)
  {
    var name := s.toks[i + 1].name;
    var whole := Let(name, bound, body);
    assert LetBodyRest(s, name, bound, k) == Yield(whole, m) by {
      assert ExpectAt(s, k, T.In) == Ok(k + 1);
    }
    assert LetRest(s, i + 1) == Yield(whole, m) by {
      var i2: nat := i + 2;
      assert IdentifierAt(s, i + 1) == Ok((name, i2));
      assert ExpectAt(s, i + 2, T.Assign) == Ok(i + 3);
    }
    assert Next(s, i) == Ok(i + 1);
  }

  /** A `let` whose body reaches a token that ends an expression is the
      whole expression. */
  lemma LetExpression(s: Stream, i: nat, bound: Expression, k: nat, body: Expression, m: nat)
    requires s.failure.None? && i + 3 <= |s.toks|
    requires s.toks[i] == T.Let && s.toks[i + 1].Identifier? && s.toks[i + 2] == T.Assign
    requires ExpressionAt(s, i + 3) == Yield(bound, k) && Current(s, k) == T.In
    requires ExpressionAt(s, k + 1) == Yield(body, m) && EndsExpression(Current(s, m))
    ensures ExpressionAt(s, i) == Yield(Let(s.toks[i + 1].name, bound, body), m)
  {
    LetAt(s, i, bound, k, body, m);
    PrimaryCompletes(s, i, Let(s.toks[i + 1].name, bound, body), m);
  }

  /** A comparison-level expression followed by a token that neither `&&`,
      `||` nor `|>` continues with is a whole expression. */
  lemma Completes(s: Stream, i: nat, e: Expression, k: nat)
    requires i <= k <= |s.toks| && ComparisonAt(s, i) == Yield(e, k)
    requires var t := Current(s, k); !t.And? && !t.Or? && !t.Pipeline?
    ensures OrAt(s, i) == Yield(e, k)
    ensures ExpressionAt(s, i) == Yield(e, k)
  {
    assert AndRest(s, e, k) == Yield(e, k);
    assert AndAt(s, i) == Yield(e, k);
    assert OrRest(s, e, k) == Yield(e, k);
    assert PipelineRest(s, e, k) == Yield(e, k);
  }

  function Id(name: string): Expression { Identifier(name) }
  function Int(n: I64): Expression { Literal(IntegerLit(n)) }

  /** The stages of `s |> trim |> length |> isPositive`, each an operand on
      its own. */
  lemma ChainStages(s: Stream)
    requires s.failure.None? && |s.toks| == 7
    requires s.toks[0] == T.Identifier("s") && s.toks[1] == T.Pipeline && s.toks[2] == T.Identifier("trim")
    requires s.toks[3] == T.Pipeline && s.toks[4] == T.Identifier("length") && s.toks[5] == T.Pipeline
    requires s.toks[6] == T.Identifier("isPositive")
    ensures OrAt(s, 0) == Yield(Id("s"), 1) && OrAt(s, 2) == Yield(Id("trim"), 3)
    ensures OrAt(s, 4) == Yield(Id("length"), 5) && OrAt(s, 6) == Yield(Id("isPositive"), 7)
  {
    AtomOr(s, 0);
    AtomOr(s, 2);
    AtomOr(s, 4);
    AtomOr(s, 6);
  }

  /** Pipelines fold to the left: `s |> trim |> length |> isPositive` has
      the last stage as the right operand of the outermost `Pipeline`. */
  lemma PipelinesNestLeft(s: Stream)
    requires s.failure.None? && |s.toks| == 7
    requires s.toks[0] == T.Identifier("s") && s.toks[1] == T.Pipeline && s.toks[2] == T.Identifier("trim")
    requires s.toks[3] == T.Pipeline && s.toks[4] == T.Identifier("length") && s.toks[5] == T.Pipeline
    requires s.toks[6] == T.Identifier("isPositive")
    ensures ExpressionAt(s, 0) ==
            Yield(Pipeline(Pipeline(Pipeline(Id("s"), Id("trim")), Id("length")), Id("isPositive")), 7)
  {
    var st := Pipeline(Id("s"), Id("trim"));
    var stl := Pipeline(st, Id("length"));
    var all := Pipeline(stl, Id("isPositive"));
    ChainStages(s);
    PipelineStep(s, Id("s"), 1, Id("trim"), 3);
    PipelineStep(s, st, 3, Id("length"), 5);
    PipelineStep(s, stl, 5, Id("isPositive"), 7);
    RestAtEnd(s, all);
    PipelineEntry(s, 0, Id("s"), 1);
  }

  /** `length > 5` at the end of the stream is a whole `||`-level operand. */
  lemma ComparedLast(s: Stream)
    requires s.failure.None? && |s.toks| == 7
    requires s.toks[4] == T.Identifier("length") && s.toks[5] == T.Greater && s.toks[6] == T.Integer(5)
    ensures OrAt(s, 4) == Yield(Comparison(ComparisonOp.Greater, Id("length"), Int(5)), 7)
  {
    var cmp := Comparison(ComparisonOp.Greater, Id("length"), Int(5));
    AtomAdditive(s, 4);
    AtomAdditive(s, 6);
    ComparisonStep(s, Id("length"), 5, Int(5), 7);
    RestAtEnd(s, cmp);
    Completes(s, 4, cmp, 7);
  }

  /** The pipeline binds loosest: in `x |> toLowerCase |> length > 5` the
      comparison is the last stage, and the top of the tree is a
      `Pipeline`. */
  lemma PipelineBindsLoosest(s: Stream)
    requires s.failure.None? && |s.toks| == 7
    requires s.toks[0] == T.Identifier("x") && s.toks[1] == T.Pipeline && s.toks[2] == T.Identifier("toLowerCase")
    requires s.toks[3] == T.Pipeline && s.toks[4] == T.Identifier("length") && s.toks[5] == T.Greater
    requires s.toks[6] == T.Integer(5)
    ensures ExpressionAt(s, 0) ==
            Yield(Pipeline(Pipeline(Id("x"), Id("toLowerCase")),
                           Comparison(ComparisonOp.Greater, Id("length"), Int(5))), 7)
  {
    var cmp := Comparison(ComparisonOp.Greater, Id("length"), Int(5));
    var xl := Pipeline(Id("x"), Id("toLowerCase"));
    var all := Pipeline(xl, cmp);
    ComparedLast(s);
    AtomOr(s, 0);
    AtomOr(s, 2);
    PipelineStep(s, Id("x"), 1, Id("toLowerCase"), 3);
    PipelineStep(s, xl, 3, cmp, 7);
    RestAtEnd(s, all);
    PipelineEntry(s, 0, Id("x"), 1);
  }

  /** A binary level folds to the left: `a - b - c` is `(a - b) - c`. */
  lemma SubtractionIsLeftAssociative(s: Stream)
    requires s.failure.None? && |s.toks| == 5
    requires s.toks[0] == T.Identifier("a") && s.toks[1] == T.Minus && s.toks[2] == T.Identifier("b")
    requires s.toks[3] == T.Minus && s.toks[4] == T.Identifier("c")
    ensures AdditiveAt(s, 0) ==
            Yield(Binary(Subtract, Binary(Subtract, Id("a"), Id("b")), Id("c")), 5)
  {
    var ab := Binary(Subtract, Id("a"), Id("b"));
    var abc := Binary(Subtract, ab, Id("c"));
    calc {
      AdditiveAt(s, 0);
    == { AtomMultiplicative(s, 0); AdditiveEntry(s, 0, Id("a"), 1); }
      AdditiveRest(s, Id("a"), 1);
    == { AtomMultiplicative(s, 2); AdditiveStep(s, Id("a"), 1, Id("b"), 3); }
      AdditiveRest(s, ab, 3);
    == { AtomMultiplicative(s, 4); AdditiveStep(s, ab, 3, Id("c"), 5); }
      AdditiveRest(s, abc, 5);
    == { assert Current(s, 5) == T.Eof; }
      Yield(abc, 5);
    }
  }

  /** `*` binds tighter than `+`: `a + b * c` is `a + (b * c)`. */
  lemma ProductBindsTighter(s: Stream)
    requires s.failure.None? && |s.toks| == 5
    requires s.toks[0] == T.Identifier("a") && s.toks[1] == T.Plus && s.toks[2] == T.Identifier("b")
    requires s.toks[3] == T.Star && s.toks[4] == T.Identifier("c")
    ensures AdditiveAt(s, 0) ==
            Yield(Binary(Add, Id("a"), Binary(Multiply, Id("b"), Id("c"))), 5)
  {
    var bc := Binary(Multiply, Id("b"), Id("c"));
    var abc := Binary(Add, Id("a"), bc);
    assert MultiplicativeAt(s, 2) == Yield(bc, 5) by {
      AtomUnary(s, 2);
      AtomUnary(s, 4);
      MultiplicativeStep(s, Id("b"), 3, Id("c"), 5);
      assert MultiplicativeRest(s, bc, 5) == Yield(bc, 5);
      MultiplicativeEntry(s, 2, Id("b"), 3);
    }
    calc {
      AdditiveAt(s, 0);
    == { AtomMultiplicative(s, 0); AdditiveEntry(s, 0, Id("a"), 1); }
      AdditiveRest(s, Id("a"), 1);
    == { AdditiveStep(s, Id("a"), 1, bc, 5); }
      AdditiveRest(s, abc, 5);
    == { assert Current(s, 5) == T.Eof; }
      Yield(abc, 5);
    }
  }

  /** `x + 10` before `in`, a whole expression. */
  lemma LetBound(s: Stream)
    requires s.failure.None? && |s.toks| == 10
    requires s.toks[3] == T.Identifier("x") && s.toks[4] == T.Plus && s.toks[5] == T.Integer(10) && s.toks[6] == T.In
    ensures ExpressionAt(s, 3) == Yield(Binary(Add, Id("x"), Int(10)), 6)
  {
    var bound := Binary(Add, Id("x"), Int(10));
    AtomMultiplicative(s, 3);
    AtomMultiplicative(s, 5);
    AdditiveStep(s, Id("x"), 4, Int(10), 6);
    assert AdditiveRest(s, bound, 6) == Yield(bound, 6);
    assert ComparisonRest(s, bound, 6) == Yield(bound, 6);
    Completes(s, 3, bound, 6);
  }

  /** `y > 20` at the end of the stream, a whole expression. */
  lemma LetBody(s: Stream)
    requires s.failure.None? && |s.toks| == 10
    requires s.toks[7] == T.Identifier("y") && s.toks[8] == T.Greater && s.toks[9] == T.Integer(20)
    ensures ExpressionAt(s, 7) == Yield(Comparison(ComparisonOp.Greater, Id("y"), Int(20)), 10)
  {
    var body := Comparison(ComparisonOp.Greater, Id("y"), Int(20));
    AtomAdditive(s, 7);
    AtomAdditive(s, 9);
    ComparisonStep(s, Id("y"), 8, Int(20), 10);
    RestAtEnd(s, body);
    Completes(s, 7, body, 10);
  }

  /** `let` binds a full expression and its body extends over a full
      expression: `let y = x + 10 in y > 20`. */
  lemma LetSpansExpressions(s: Stream)
    requires s.failure.None? && |s.toks| == 10
    requires s.toks[0] == T.Let && s.toks[1] == T.Identifier("y") && s.toks[2] == T.Assign
    requires s.toks[3] == T.Identifier("x") && s.toks[4] == T.Plus && s.toks[5] == T.Integer(10)
    requires s.toks[6] == T.In && s.toks[7] == T.Identifier("y") && s.toks[8] == T.Greater
    requires s.toks[9] == T.Integer(20)
    ensures ExpressionAt(s, 0) ==
            Yield(Let("y", Binary(Add, Id("x"), Int(10)), Comparison(ComparisonOp.Greater, Id("y"), Int(20))), 10)
  {
    var bound := Binary(Add, Id("x"), Int(10));
    var body := Comparison(ComparisonOp.Greater, Id("y"), Int(20));
    var whole := Let("y", bound, body);
    LetBound(s);
    LetBody(s);
    assert LetBodyRest(s, "y", bound, 6) == Yield(whole, 10) by {
      assert Next(s, 6) == Ok(7);
    }
    assert LetRest(s, 1) == Yield(whole, 10) by {
      assert IdentifierAt(s, 1) == Ok(("y", 2));
      assert Next(s, 2) == Ok(3);
    }
    assert PrimaryAt(s, 0) == Yield(whole, 10) by {
      assert Next(s, 0) == Ok(1);
    }
    RestAtEnd(s, whole);
    assert ComparisonAt(s, 0) == Yield(whole, 10) by {
      assert UnaryAt(s, 0) == Yield(whole, 10);
      assert MultiplicativeAt(s, 0) == Yield(whole, 10);
      assert AdditiveAt(s, 0) == Yield(whole, 10);
    }
    Completes(s, 0, whole, 10);
  }

  /** The head `value N ( p : T )`: the name, and the parameter with the
      type its name denotes. */
  lemma HeadOf(s: Stream, i: nat)
    requires s.failure.None? && i + 7 <= |s.toks|
    requires s.toks[i] == T.Value && s.toks[i + 1].Identifier? && s.toks[i + 2] == T.LeftParen
    requires s.toks[i + 3].Identifier? && s.toks[i + 4] == T.Colon && s.toks[i + 5].Identifier?
    requires s.toks[i + 6] == T.RightParen
    ensures HeadAt(s, i) ==
            Ok(((s.toks[i + 1].name, Parameter(s.toks[i + 3].name, TypeNamed(s.toks[i + 5].name))), i + 7))
  {
    var parameter := Parameter(s.toks[i + 3].name, TypeNamed(s.toks[i + 5].name));
    var i2: nat, i4: nat, i6: nat := i + 2, i + 4, i + 6;
    assert ParameterAt(s, i + 3) == Ok((parameter, i6)) by {
      assert IdentifierAt(s, i + 3) == Ok((s.toks[i + 3].name, i4));
      assert ExpectAt(s, i + 4, T.Colon) == Ok(i + 5);
      assert TypeAt(s, i + 5) == Ok((TypeNamed(s.toks[i + 5].name), i6));
    }
    assert ExpectAt(s, i, T.Value) == Ok(i + 1);
    assert IdentifierAt(s, i + 1) == Ok((s.toks[i + 1].name, i2));
    assert ExpectAt(s, i + 2, T.LeftParen) == Ok(i + 3);
    assert ExpectAt(s, i + 6, T.RightParen) == Ok(i + 7);
  }

  /** A body `validate : e` up to `}` holds the validation `e` only. */
  lemma ValidateOnlyBody(s: Stream, i: nat, e: Expression, k: nat)
    requires s.failure.None? && i + 2 <= |s.toks| && s.toks[i] == T.Validate && s.toks[i + 1] == T.Colon
    requires ExpressionAt(s, i + 2) == Yield(e, k) && Current(s, k) == T.RightBrace
    ensures BodyRest(s, ValueBody(None, None, None), i) == Ok((ValueBody(Some(e), None, None), k))
  {
    var body := ValueBody(Some(e), None, None);
    assert ClauseRest(s, i + 1) == Yield(e, k) by {
      assert ExpectAt(s, i + 1, T.Colon) == Ok(i + 2);
    }
    assert ClauseAt(s, ValueBody(None, None, None), i) == Ok((body, k)) by {
      assert Next(s, i) == Ok(i + 1);
    }
    assert BodyRest(s, body, k) == Ok((body, k));
  }

  /** `parse_value_declaration` on `value N ( p : T ) { validate : e }`:
      the name, the parameter and its type as named, and a body holding
      only the validation `e`, for every expression `e` that ends at the
      closing brace. */
  lemma ValidateOnlyDeclaration(s: Stream, i: nat, e: Expression, k: nat)
    requires s.failure.None? && i + 10 <= |s.toks|
    requires s.toks[i] == T.Value && s.toks[i + 1].Identifier? && s.toks[i + 2] == T.LeftParen
    requires s.toks[i + 3].Identifier? && s.toks[i + 4] == T.Colon && s.toks[i + 5].Identifier?
    requires s.toks[i + 6] == T.RightParen && s.toks[i + 7] == T.LeftBrace
    requires s.toks[i + 8] == T.Validate && s.toks[i + 9] == T.Colon
    requires ExpressionAt(s, i + 10) == Yield(e, k) && Current(s, k) == T.RightBrace
    ensures ValueDeclarationAt(s, i) ==
            Ok((ValueDeclaration(s.toks[i + 1].name,
                                 Parameter(s.toks[i + 3].name, TypeNamed(s.toks[i + 5].name)),
                                 ValueBody(Some(e), None, None)), k + 1))
  {
    HeadOf(s, i);
    assert ExpectAt(s, i + 7, T.LeftBrace) == Ok(i + 8);
    ValidateOnlyBody(s, i + 8, e, k);
    assert ExpectAt(s, k, T.RightBrace) == Ok(k + 1);
  }

  /** `parse_program` on a stream holding one value declaration: a program
      of that declaration alone. */
  lemma SingleDeclarationProgram(s: Stream, d: ValueDeclaration, n: nat)
    requires s.failure.None? && ValueDeclarationAt(s, 0) == Ok((d, n)) && Current(s, n) == T.Eof
    ensures ProgramOf(s) == Ok(Program([ValueDecl(d)]))
  {
    assert DeclarationAt(s, 0) == Ok((ValueDecl(d), n));
    assert DeclarationsRest(s, [ValueDecl(d)], n) == Ok(Program([ValueDecl(d)]));
    assert [] + [ValueDecl(d)] == [ValueDecl(d)];
  }
}
