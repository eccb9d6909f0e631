/**
 * Two unit tests of src/parser.rs stated as whole programs: the token
 * stream of each source text parses to the one value declaration the test
 * inspects, with the full expression tree of its validation.
 */
module ParserExamples {
  import opened Wrappers
  import opened Errors
  import opened Ast
  import T = Tokens
  import opened Streams
  import opened Grammar
  import opened GrammarFacts

  function Str(text: string): Expression { Literal(StringLit(text)) }
  function Contains(name: string, text: string): Expression
  {
    Comparison(ComparisonOp.Contains, Id(name), Str(text))
  }

  // -------------------------------------------------------------------
  // test_nested_let_bindings
  // -------------------------------------------------------------------

  /** The stream holds exactly the tokens of
      `value Temperature(celsius: Int) { validate: let fahrenheit =
       celsius * 9 / 5 + 32 in fahrenheit > -459 && fahrenheit < 1000 }`. */
  predicate TemperatureStream(s: Stream)
  {
    |s.toks| == 30 && TemperatureFrame(s) && FahrenheitLetTokens(s, 10)
  }

  /** `value Temperature(celsius: Int) {`, `validate:` and the closing brace. */
  predicate TemperatureFrame(s: Stream)
  {
    30 <= |s.toks| &&
    s.toks[0] == T.Value && s.toks[1] == T.Identifier("Temperature") && s.toks[2] == T.LeftParen &&
    s.toks[3] == T.Identifier("celsius") && s.toks[4] == T.Colon && s.toks[5] == T.Identifier("Int") &&
    s.toks[6] == T.RightParen && s.toks[7] == T.LeftBrace && s.toks[8] == T.Validate &&
    s.toks[9] == T.Colon && s.toks[29] == T.RightBrace
  }

  /** The `let` from `let fahrenheit` at `i` to a token that ends an
      expression at `i + 19`. */
  predicate FahrenheitLetTokens(s: Stream, i: nat)
  {
    LetHead(s, i, "fahrenheit") && FahrenheitTokens(s, i + 3) && InRangeTokens(s, i + 11) &&
    i + 19 < |s.toks| && EndsExpression(s.toks[i + 19])
  }

  /** `celsius * 9 / 5 + 32 in` at `i`. */
  predicate FahrenheitTokens(s: Stream, i: nat)
  {
    i + 8 <= |s.toks| &&
    s.toks[i] == T.Identifier("celsius") && s.toks[i + 1] == T.Star && s.toks[i + 2] == T.Integer(9) &&
    s.toks[i + 3] == T.Slash && s.toks[i + 4] == T.Integer(5) && s.toks[i + 5] == T.Plus &&
    s.toks[i + 6] == T.Integer(32) && s.toks[i + 7] == T.In
  }

  /** `fahrenheit > -459 && fahrenheit < 1000` at `i`. */
  predicate InRangeTokens(s: Stream, i: nat)
  {
    i + 8 <= |s.toks| &&
    s.toks[i] == T.Identifier("fahrenheit") && s.toks[i + 1] == T.Greater && s.toks[i + 2] == T.Minus &&
    s.toks[i + 3] == T.Integer(459) && s.toks[i + 4] == T.And &&
    s.toks[i + 5] == T.Identifier("fahrenheit") && s.toks[i + 6] == T.Less && s.toks[i + 7] == T.Integer(1000)
  }

  function Fahrenheit(): Expression
  {
    Binary(Add, Binary(Divide, Binary(Multiply, Id("celsius"), Int(9)), Int(5)), Int(32))
  }

  function InRange(): Expression
  {
    Binary(BinaryOp.And,
           Comparison(ComparisonOp.Greater, Id("fahrenheit"), Unary(UnaryOp.Minus, Int(459))),
           Comparison(ComparisonOp.Less, Id("fahrenheit"), Int(1000)))
  }

  /** `celsius * 9 / 5 + 32` before `in`: `*` and `/` fold left below `+`. */
  lemma FahrenheitBound(s: Stream, i: nat)
    requires s.failure.None? && FahrenheitTokens(s, i)
    ensures ExpressionAt(s, i) == Yield(Fahrenheit(), i + 7)
  {
    var c9 := Binary(Multiply, Id("celsius"), Int(9));
    var c95 := Binary(Divide, c9, Int(5));
    assert MultiplicativeAt(s, i) == Yield(c95, i + 5) by {
      AtomUnary(s, i);
      AtomUnary(s, i + 2);
      AtomUnary(s, i + 4);
      MultiplicativeEntry(s, i, Id("celsius"), i + 1);
      MultiplicativeStep(s, Id("celsius"), i + 1, Int(9), i + 3);
      MultiplicativeStep(s, c9, i + 3, Int(5), i + 5);
      assert MultiplicativeRest(s, c95, i + 5) == Yield(c95, i + 5);
    }
    AdditiveEntry(s, i, c95, i + 5);
    AtomMultiplicative(s, i + 6);
    AdditiveStep(s, c95, i + 5, Int(32), i + 7);
    RestsStop(s, Fahrenheit(), i + 7);
    ComparisonEntry(s, i, Fahrenheit(), i + 7);
    Completes(s, i, Fahrenheit(), i + 7);
  }

  /** `- 459` before `&&`: a negated literal. */
  lemma NegatedOperand(s: Stream, i: nat)
    requires s.failure.None? && i + 3 <= |s.toks|
    requires s.toks[i] == T.Minus && s.toks[i + 1] == T.Integer(459) && s.toks[i + 2] == T.And
    ensures AdditiveAt(s, i) == Yield(Unary(UnaryOp.Minus, Int(459)), i + 2)
  {
    var neg := Unary(UnaryOp.Minus, Int(459));
    AtomUnary(s, i + 1);
    assert UnaryAt(s, i) == Yield(neg, i + 2) by {
      assert Next(s, i) == Ok(i + 1);
    }
    MultiplicativeEntry(s, i, neg, i + 2);
    assert MultiplicativeRest(s, neg, i + 2) == Yield(neg, i + 2);
    AdditiveEntry(s, i, neg, i + 2);
    assert AdditiveRest(s, neg, i + 2) == Yield(neg, i + 2);
  }

  /** `fahrenheit > -459 && fahrenheit < 1000` before a token that ends an
      expression: `&&` joins the two comparisons. */
  lemma InRangeBody(s: Stream, i: nat)
    requires s.failure.None? && InRangeTokens(s, i) && i + 8 < |s.toks| && EndsExpression(s.toks[i + 8])
    ensures ExpressionAt(s, i) == Yield(InRange(), i + 8)
  {
    var low := Comparison(ComparisonOp.Greater, Id("fahrenheit"), Unary(UnaryOp.Minus, Int(459)));
    var high := Comparison(ComparisonOp.Less, Id("fahrenheit"), Int(1000));
    assert ComparisonAt(s, i) == Yield(low, i + 4) by {
      AtomAdditive(s, i);
      ComparisonEntry(s, i, Id("fahrenheit"), i + 1);
      NegatedOperand(s, i + 2);
      ComparisonStep(s, Id("fahrenheit"), i + 1, Unary(UnaryOp.Minus, Int(459)), i + 4);
      assert ComparisonRest(s, low, i + 4) == Yield(low, i + 4);
    }
    assert ComparisonAt(s, i + 5) == Yield(high, i + 8) by {
      AtomAdditive(s, i + 5);
      AtomAdditive(s, i + 7);
      ComparisonEntry(s, i + 5, Id("fahrenheit"), i + 6);
      ComparisonStep(s, Id("fahrenheit"), i + 6, Int(1000), i + 8);
      RestsStop(s, high, i + 8);
    }
    AndEntry(s, i, low, i + 4);
    AndStep(s, low, i + 4, high, i + 8);
    RestsStop(s, InRange(), i + 8);
    AndCompletes(s, i, InRange(), i + 8);
  }

  /** The validation of the Temperature declaration: a `let` at `i` whose
      body reaches a token that ends an expression. */
  lemma TemperatureValidation(s: Stream, i: nat)
    requires s.failure.None? && FahrenheitLetTokens(s, i)
    ensures ExpressionAt(s, i) == Yield(Let("fahrenheit", Fahrenheit(), InRange()), i + 19)
  {
    FahrenheitBound(s, i + 3);
    InRangeBody(s, i + 11);
    LetExpression(s, i, Fahrenheit(), i + 10, InRange(), i + 19);
  }

  function TemperatureDeclaration(): ValueDeclaration
  {
    ValueDeclaration("Temperature", Parameter("celsius", IntT),
                     ValueBody(Some(Let("fahrenheit", Fahrenheit(), InRange())), None, None))
  }

  /** The declaration, from `value` to the closing brace, once its
      validation is known. */
  lemma TemperatureDeclarationAt(s: Stream)
    requires s.failure.None? && TemperatureFrame(s)
    requires ExpressionAt(s, 10) == Yield(Let("fahrenheit", Fahrenheit(), InRange()), 29)
    ensures ValueDeclarationAt(s, 0) == Ok((TemperatureDeclaration(), 30))
  {
    ValidateOnlyDeclaration(s, 0, Let("fahrenheit", Fahrenheit(), InRange()), 29);
  }

  /** The whole program, once the validation is known. */
  lemma TemperatureProgram(s: Stream)
    requires s.failure.None? && |s.toks| == 30 && TemperatureFrame(s)
    ensures ExpressionAt(s, 10) == Yield(Let("fahrenheit", Fahrenheit(), InRange()), 29) ==>
            ProgramOf(s) == Ok(Program([ValueDecl(TemperatureDeclaration())]))
  {
    if ExpressionAt(s, 10) == Yield(Let("fahrenheit", Fahrenheit(), InRange()), 29) {
      TemperatureDeclarationAt(s);
      SingleDeclarationProgram(s, TemperatureDeclaration(), 30);
    }
  }

  /** test_nested_let_bindings: one declaration `Temperature` over an
      `Int`, validated by `let fahrenheit = ((celsius * 9) / 5) + 32 in
      (fahrenheit > -459) && (fahrenheit < 1000)`; the bound value has
      `+` at the top and the body `&&`. */
  lemma NestedLetBindings(s: Stream)
    requires s.failure.None? && TemperatureStream(s)
    ensures ProgramOf(s) ==
            Ok(Program([ValueDecl(ValueDeclaration("Temperature", Parameter("celsius", IntT),
                                                   ValueBody(Some(Let("fahrenheit", Fahrenheit(), InRange())),
                                                             None, None)))]))
  {
    TemperatureProgram(s);
    TemperatureValidation(s, 10);
  }

  // -------------------------------------------------------------------
  // test_let_bindings_with_string_operations
  // -------------------------------------------------------------------

  /** The stream holds exactly the tokens of
      `value Password(raw: String) { validate: let len = raw.length in
       let hasUpperCase = raw contains "A" || raw contains "B" || raw contains "C" in
       let hasNumber = raw contains "0" || raw contains "1" || raw contains "2" in
       len > 8 && hasUpperCase && hasNumber }`. */
  predicate PasswordStream(s: Stream)
  {
    |s.toks| == 55 && PasswordFrame(s) && PasswordCheckTokens(s, 10)
  }

  /** The three `let`s, from `let len` at `i` to a token that ends an
      expression at `i + 44`. */
  predicate PasswordCheckTokens(s: Stream, i: nat)
  {
    LetHead(s, i, "len") && LengthTokens(s, i + 3) && i + 6 < |s.toks| && s.toks[i + 6] == T.In &&
    UpperCaseLetTokens(s, i + 7)
  }

  /** The two inner `let`s, from `let hasUpperCase` at `i` to a token that
      ends an expression at `i + 37`. */
  predicate UpperCaseLetTokens(s: Stream, i: nat)
  {
    LetHead(s, i, "hasUpperCase") && AnyOfTokens(s, i + 3, "A", "B", "C") &&
    i + 14 < |s.toks| && s.toks[i + 14] == T.In &&
    LetHead(s, i + 15, "hasNumber") && AnyOfTokens(s, i + 18, "0", "1", "2") &&
    StrongEnoughTokens(s, i + 30) && s.toks[i + 29] == T.In &&
    i + 37 < |s.toks| && EndsExpression(s.toks[i + 37])
  }

  /** `let name =` at `i`. */
  predicate LetHead(s: Stream, i: nat, name: string)
  {
    i + 3 <= |s.toks| && s.toks[i] == T.Let && s.toks[i + 1] == T.Identifier(name) && s.toks[i + 2] == T.Assign
  }

  /** `raw . length` at `i`. */
  predicate LengthTokens(s: Stream, i: nat)
  {
    i + 3 <= |s.toks| &&
    s.toks[i] == T.Identifier("raw") && s.toks[i + 1] == T.Dot && s.toks[i + 2] == T.Identifier("length")
  }

  /** `raw contains "a" || raw contains "b" || raw contains "c"` at `i`. */
  predicate AnyOfTokens(s: Stream, i: nat, a: string, b: string, c: string)
  {
    i + 11 <= |s.toks| &&
    s.toks[i] == T.Identifier("raw") && s.toks[i + 1] == T.Contains && s.toks[i + 2] == T.String(a) &&
    s.toks[i + 3] == T.Or &&
    s.toks[i + 4] == T.Identifier("raw") && s.toks[i + 5] == T.Contains && s.toks[i + 6] == T.String(b) &&
    s.toks[i + 7] == T.Or &&
    s.toks[i + 8] == T.Identifier("raw") && s.toks[i + 9] == T.Contains && s.toks[i + 10] == T.String(c)
  }

  /** `len > 8 && hasUpperCase && hasNumber` at `i`. */
  predicate StrongEnoughTokens(s: Stream, i: nat)
  {
    i + 7 <= |s.toks| &&
    s.toks[i] == T.Identifier("len") && s.toks[i + 1] == T.Greater && s.toks[i + 2] == T.Integer(8) &&
    s.toks[i + 3] == T.And && s.toks[i + 4] == T.Identifier("hasUpperCase") &&
    s.toks[i + 5] == T.And && s.toks[i + 6] == T.Identifier("hasNumber")
  }



  function AnyOf(a: string, b: string, c: string): Expression
  {
    Binary(BinaryOp.Or, Binary(BinaryOp.Or, Contains("raw", a), Contains("raw", b)), Contains("raw", c))
  }

  function StrongEnough(): Expression
  {
    Binary(BinaryOp.And,
           Binary(BinaryOp.And, Comparison(ComparisonOp.Greater, Id("len"), Int(8)), Id("hasUpperCase")),
           Id("hasNumber"))
  }

  function PasswordCheck(): Expression
  {
    Let("len", MemberAccess(Id("raw"), "length"),
        Let("hasUpperCase", AnyOf("A", "B", "C"),
            Let("hasNumber", AnyOf("0", "1", "2"), StrongEnough())))
  }

  /** `raw.length` before `in`: a member access. */
  lemma LengthBound(s: Stream, i: nat)
    requires s.failure.None? && LengthTokens(s, i) && i + 4 <= |s.toks| && s.toks[i + 3] == T.In
    ensures ExpressionAt(s, i) == Yield(MemberAccess(Id("raw"), "length"), i + 3)
  {
    var length := MemberAccess(Id("raw"), "length");
    assert PostfixRest(s, Id("raw"), i + 1) == Yield(length, i + 3) by {
      var i3: nat := i + 3;
      assert Next(s, i + 1) == Ok(i + 2);
      assert IdentifierAt(s, i + 2) == Ok(("length", i3));
      assert PostfixRest(s, length, i + 3) == Yield(length, i + 3);
    }
    assert UnaryAt(s, i) == Yield(length, i + 3) by {
      assert Next(s, i) == Ok(i + 1);
      assert PrimaryAt(s, i) == Yield(Id("raw"), i + 1);
    }
    UnaryCompletes(s, i, length, i + 3);
  }

  /** `raw contains "x"` before `||` or `in`: a whole `&&`-level operand. */
  lemma ContainsOperand(s: Stream, i: nat, x: string)
    requires s.failure.None? && i + 4 <= |s.toks|
    requires s.toks[i] == T.Identifier("raw") && s.toks[i + 1] == T.Contains && s.toks[i + 2] == T.String(x)
    requires s.toks[i + 3] == T.Or || s.toks[i + 3] == T.In
    ensures AndAt(s, i) == Yield(Contains("raw", x), i + 3)
  {
    var c := Contains("raw", x);
    AtomAdditive(s, i);
    AtomAdditive(s, i + 2);
    ComparisonEntry(s, i, Id("raw"), i + 1);
    ComparisonStep(s, Id("raw"), i + 1, Str(x), i + 3);
    assert ComparisonRest(s, c, i + 3) == Yield(c, i + 3);
    AndEntry(s, i, c, i + 3);
    assert AndRest(s, c, i + 3) == Yield(c, i + 3);
  }

  /** `raw contains "a" || raw contains "b" || raw contains "c"` before
      `in`: `||` folds left over the three comparisons. */
  lemma AnyOfBound(s: Stream, i: nat, a: string, b: string, c: string)
    requires s.failure.None? && AnyOfTokens(s, i, a, b, c) && i + 12 <= |s.toks| && s.toks[i + 11] == T.In
    ensures ExpressionAt(s, i) == Yield(AnyOf(a, b, c), i + 11)
  {
    var ab := Binary(BinaryOp.Or, Contains("raw", a), Contains("raw", b));
    ContainsOperand(s, i, a);
    ContainsOperand(s, i + 4, b);
    ContainsOperand(s, i + 8, c);
    OrEntry(s, i, Contains("raw", a), i + 3);
    OrStep(s, Contains("raw", a), i + 3, Contains("raw", b), i + 7);
    OrStep(s, ab, i + 7, Contains("raw", c), i + 11);
    RestsStop(s, AnyOf(a, b, c), i + 11);
    PipelineEntry(s, i, AnyOf(a, b, c), i + 11);
  }

  /** `len > 8 && hasUpperCase && hasNumber` before a token that ends an
      expression: `&&` folds left. */
  lemma StrongEnoughBody(s: Stream, i: nat)
    requires s.failure.None? && StrongEnoughTokens(s, i) && i + 7 < |s.toks| && EndsExpression(s.toks[i + 7])
    ensures ExpressionAt(s, i) == Yield(StrongEnough(), i + 7)
  {
    var long := Comparison(ComparisonOp.Greater, Id("len"), Int(8));
    var first := Binary(BinaryOp.And, long, Id("hasUpperCase"));
    assert ComparisonAt(s, i) == Yield(long, i + 3) by {
      AtomAdditive(s, i);
      AtomAdditive(s, i + 2);
      ComparisonEntry(s, i, Id("len"), i + 1);
      ComparisonStep(s, Id("len"), i + 1, Int(8), i + 3);
      assert ComparisonRest(s, long, i + 3) == Yield(long, i + 3);
    }
    assert ComparisonAt(s, i + 4) == Yield(Id("hasUpperCase"), i + 5) by {
      AtomAdditive(s, i + 4);
      ComparisonEntry(s, i + 4, Id("hasUpperCase"), i + 5);
      assert ComparisonRest(s, Id("hasUpperCase"), i + 5) == Yield(Id("hasUpperCase"), i + 5);
    }
    assert ComparisonAt(s, i + 6) == Yield(Id("hasNumber"), i + 7) by {
      AtomAdditive(s, i + 6);
      ComparisonEntry(s, i + 6, Id("hasNumber"), i + 7);
      RestsStop(s, Id("hasNumber"), i + 7);
    }
    AndEntry(s, i, long, i + 3);
    AndStep(s, long, i + 3, Id("hasUpperCase"), i + 5);
    AndStep(s, first, i + 5, Id("hasNumber"), i + 7);
    RestsStop(s, StrongEnough(), i + 7);
    AndCompletes(s, i, StrongEnough(), i + 7);
  }

  /** The innermost `let` of the Password validation. */
  lemma NumberLet(s: Stream, i: nat)
    requires s.failure.None? && LetHead(s, i, "hasNumber") && AnyOfTokens(s, i + 3, "0", "1", "2")
    requires StrongEnoughTokens(s, i + 15) && s.toks[i + 14] == T.In
    requires i + 22 < |s.toks| && EndsExpression(s.toks[i + 22])
    ensures ExpressionAt(s, i) == Yield(Let("hasNumber", AnyOf("0", "1", "2"), StrongEnough()), i + 22)
  {
    StrongEnoughBody(s, i + 15);
    AnyOfBound(s, i + 3, "0", "1", "2");
    LetExpression(s, i, AnyOf("0", "1", "2"), i + 14, StrongEnough(), i + 22);
  }

  /** The middle `let` of the Password validation. */
  lemma UpperCaseLet(s: Stream, i: nat)
    requires s.failure.None? && UpperCaseLetTokens(s, i)
    ensures ExpressionAt(s, i) ==
            Yield(Let("hasUpperCase", AnyOf("A", "B", "C"), Let("hasNumber", AnyOf("0", "1", "2"), StrongEnough())), i + 37)
  {
    NumberLet(s, i + 15);
    AnyOfBound(s, i + 3, "A", "B", "C");
    LetExpression(s, i, AnyOf("A", "B", "C"), i + 14, Let("hasNumber", AnyOf("0", "1", "2"), StrongEnough()), i + 37);
  }

  /** The whole Password validation, from the outer `let` at `i` to a
      token that ends an expression. */
  lemma PasswordValidation(s: Stream, i: nat)
    requires s.failure.None? && PasswordCheckTokens(s, i)
    ensures ExpressionAt(s, i) == Yield(PasswordCheck(), i + 44)
  {
    var upper := Let("hasUpperCase", AnyOf("A", "B", "C"), Let("hasNumber", AnyOf("0", "1", "2"), StrongEnough()));
    UpperCaseLet(s, i + 7);
    LengthBound(s, i + 3);
    LetExpression(s, i, MemberAccess(Id("raw"), "length"), i + 6, upper, i + 44);
  }

  function PasswordDeclaration(): ValueDeclaration
  {
    ValueDeclaration("Password", Parameter("raw", StringT), ValueBody(Some(PasswordCheck()), None, None))
  }

  /** `value Password(raw: String) {`, `validate:` and the closing brace. */
  predicate PasswordFrame(s: Stream)
  {
    55 <= |s.toks| &&
    s.toks[0] == T.Value && s.toks[1] == T.Identifier("Password") && s.toks[2] == T.LeftParen &&
    s.toks[3] == T.Identifier("raw") && s.toks[4] == T.Colon && s.toks[5] == T.Identifier("String") &&
    s.toks[6] == T.RightParen && s.toks[7] == T.LeftBrace && s.toks[8] == T.Validate &&
    s.toks[9] == T.Colon && s.toks[54] == T.RightBrace
  }

  /** The declaration, from `value` to the closing brace, once its
      validation is known. */
  lemma PasswordDeclarationAt(s: Stream)
    requires s.failure.None? && PasswordFrame(s) && ExpressionAt(s, 10) == Yield(PasswordCheck(), 54)
    ensures ValueDeclarationAt(s, 0) == Ok((PasswordDeclaration(), 55))
  {
    ValidateOnlyDeclaration(s, 0, PasswordCheck(), 54);
  }

  /** The whole program, once the validation is known. */
  lemma PasswordProgram(s: Stream)
    requires s.failure.None? && |s.toks| == 55 && PasswordFrame(s)
    ensures ExpressionAt(s, 10) == Yield(PasswordCheck(), 54) ==>
            ProgramOf(s) == Ok(Program([ValueDecl(PasswordDeclaration())]))
  {
    if ExpressionAt(s, 10) == Yield(PasswordCheck(), 54) {
      PasswordDeclarationAt(s);
      SingleDeclarationProgram(s, PasswordDeclaration(), 55);
    }
  }

  /** test_let_bindings_with_string_operations: one declaration `Password`
      over a `String`, validated by three nested `let`s; the first binds a
      member access, the next two a `||` of `contains` comparisons, and the
      innermost body is `(len > 8 && hasUpperCase) && hasNumber`. */
  lemma LetBindingsWithStringOperations(s: Stream)
    requires s.failure.None? && PasswordStream(s)
    ensures ProgramOf(s) ==
            Ok(Program([ValueDecl(ValueDeclaration("Password", Parameter("raw", StringT),
                                                   ValueBody(Some(PasswordCheck()), None, None)))]))
  {
    PasswordProgram(s);
    PasswordValidation(s, 10);
  }
}
