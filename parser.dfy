/**
 * The parser of src/parser.rs: a lexer, the current token and a line and
 * column that are set to 1 and never changed. Every method is proved to
 * return what the matching function of the `Grammar` module computes from
 * the token stream the lexer yields, and to leave the parser on the token
 * that function stops at.
 */
module Parsing {
  import opened Wrappers
  import opened Errors
  import opened Ast
  import T = Tokens
  import opened Lexing
  import opened Streams
  import opened Grammar

  /** A method's outcome paired with the index it stopped at. */
  function Done<X>(r: Result<X>, i: nat): Parsed<X>
  {
    if r.Ok? then Ok((r.value, i)) else Err(r.error)
  }

  /** A step's outcome as the index it moved to. */
  function Moved(r: Result<()>, i: nat): Result<nat>
  {
    if r.Ok? then Ok(i) else Err(r.error)
  }

  class Parser {
    const lexer: Lexer
    var current: T.Token
    var line: nat
    var column: nat

    /** Where the lexer stood when the parser was made, the tokens it
        yields from there (with the position after each) and the index of
        the current token among them. */
    ghost const start: nat
    ghost const items: seq<Lexed>
    ghost const stream: Stream
    ghost var index: nat

    /** The lexer's own invariant, with its line and column stated under a
        quantifier so that they are only unfolded where a method needs
        them. */
    ghost predicate LexerReady()
      reads lexer
    {
      lexer.position <= |lexer.input| &&
      forall q {:trigger LineAt(lexer.input, q)} :: q == lexer.position ==>
        lexer.current == CharAt(lexer.input, q) &&
        lexer.line == LineAt(lexer.input, q) && lexer.column == ColumnAt(lexer.input, q)
    }

    ghost predicate Valid()
      reads this, lexer
    {
      LexerReady() && Yields(lexer.input, start, items, stream.failure) &&
      stream.toks == TokensOf(items) &&
      index <= |items| && current == Current(stream, index) &&
      lexer.position == (if index < |items| then items[index].end else |lexer.input|) &&
      (index == |items| ==> stream.failure.None?) &&
      line == 1 && column == 1
    }

    /** The parser once the first token has been read. */
    constructor Init(lexer: Lexer, first: T.Token, ghost start: nat)
      requires lexer.Valid() && start <= |lexer.input|
      requires NextTokenSpec(lexer.input, start) == Ok(Lexed(first, lexer.position))
      ensures Valid() && this.lexer == lexer && this.start == start && index == 0
      ensures stream == StreamFrom(lexer.input, start)
    {
      this.lexer := lexer;
      this.start := start;
      current := first;
      line := 1;
      column := 1;
      items := LexFrom(lexer.input, start).0;
      stream := StreamFrom(lexer.input, start);
      index := 0;
      new;
      LexFromYields(lexer.input, start);
    }

    /** `Parser::new`: reads the first token, which can fail. */
    static method New(lexer: Lexer) returns (r: Result<Parser>)
      requires lexer.Valid()
      modifies lexer
      ensures r.Ok? ==> fresh(r.value) && r.value.Valid() && r.value.lexer == lexer &&
                        r.value.start == old(lexer.position) && r.value.index == 0 &&
                        r.value.stream == StreamFrom(lexer.input, old(lexer.position))
      ensures r.Err? <==> StreamFrom(lexer.input, old(lexer.position)).toks == [] &&
                          StreamFrom(lexer.input, old(lexer.position)).failure.Some?
      ensures r.Err? ==> Some(r.error) == StreamFrom(lexer.input, old(lexer.position)).failure
    {
      ghost var start := lexer.position;
      LexFromNext(lexer.input, start, 0);
      var t := lexer.NextToken();
      if t.Err? {
        return Err(t.error);
      }
      var p := new Parser.Init(lexer, t.value, start);
      return Ok(p);
    }

    /** `advance`: the lexer's next token becomes the current one. */
    method Advance() returns (r: Result<()>)
      requires Valid()
      modifies this, lexer
      ensures r.Ok? ==> Valid()
      ensures Moved(r, index) == Next(stream, old(index))
    {
      assert lexer.Valid() by {
        assert lexer.line == LineAt(lexer.input, lexer.position);
      }
      var t := lexer.NextToken();
      AdvanceStep(lexer.input, start, items, stream, index, Scanned(t, lexer.position));
      if t.Err? {
        return Err(t.error);
      }
      current := t.value;
      if index < |items| {
        index := index + 1;
      }
      return Ok(());
    }

    /** `expect`: advances only when the current token is `expected`. */
    method Expect(expected: T.Token) returns (r: Result<()>)
      requires Valid()
      modifies this, lexer
      ensures r.Ok? ==> Valid()
      ensures Moved(r, index) == ExpectAt(stream, old(index), expected)
    {
      if current == expected {
        r := Advance();
      } else {
        r := Err(ParserError(ExpectedToken(expected, current), line, column));
      }
    }

    /** `expect_identifier`. */
    method ExpectIdentifier() returns (r: Result<string>)
      requires Valid()
      modifies this, lexer
      ensures r.Ok? ==> Valid()
      ensures Done(r, index) == IdentifierAt(stream, old(index))
    {
      if current.Identifier? {
        var name := current.name;
        var _ :- Advance();
        return Ok(name);
      }
      return Err(ParserError(ExpectedIdentifier(current), line, column));
    }

    /** `parse_program`: declarations until `Eof`. */
    method ParseProgram() returns (r: Result<Program>)
      requires Valid()
      modifies this, lexer
      ensures r.Ok? ==> Valid()
      ensures r == DeclarationsRest(stream, [], old(index))
    {
      var declarations: seq<Declaration> := [];
      while !current.Eof?
        invariant Valid()
        invariant DeclarationsRest(stream, declarations, index) == DeclarationsRest(stream, [], old(index))
        decreases |stream.toks| - index
      {
        var d :- ParseDeclaration();
        declarations := declarations + [d];
      }
      return Ok(Program(declarations));
    }

    /** `parse_declaration`. */
    method ParseDeclaration() returns (r: Result<Declaration>)
      requires Valid()
      modifies this, lexer
      ensures r.Ok? ==> Valid()
      ensures Done(r, index) == DeclarationAt(stream, old(index))
    {
      if current.Value? {
        var v :- ParseValueDeclaration();
        return Ok(ValueDecl(v));
      }
      return Err(ParserError(ExpectedValueKeyword(current), line, column));
    }

    /** `parse_value_declaration`. */
    method ParseValueDeclaration() returns (r: Result<ValueDeclaration>)
      requires Valid()
      modifies this, lexer
      ensures r.Ok? ==> Valid()
      ensures Done(r, index) == ValueDeclarationAt(stream, old(index))
    {
      var _ :- Expect(T.Value);
      var name :- ExpectIdentifier();
      var _ :- Expect(T.LeftParen);
      var parameter :- ParseParameter();
      var _ :- Expect(T.RightParen);
      var _ :- Expect(T.LeftBrace);
      var body :- ParseValueBody();
      var _ :- Expect(T.RightBrace);
      return Ok(ValueDeclaration(name, parameter, body));
    }

    /** `parse_parameter`. */
    method ParseParameter() returns (r: Result<Parameter>)
      requires Valid()
      modifies this, lexer
      ensures r.Ok? ==> Valid()
      ensures Done(r, index) == ParameterAt(stream, old(index))
    {
      var name :- ExpectIdentifier();
      var _ :- Expect(T.Colon);
      var ty :- ParseType();
      return Ok(Parameter(name, ty));
    }

    /** `parse_type`. */
    method ParseType() returns (r: Result<Type>)
      requires Valid()
      modifies this, lexer
      ensures r.Ok? ==> Valid()
      ensures Done(r, index) == TypeAt(stream, old(index))
    {
      if current.Identifier? {
        var name := current.name;
        var ty := if name == "String" then StringT
                  else if name == "Int" then IntT
                  else if name == "Bool" then BoolT
                  else ValueT(name);
        var _ :- Advance();
        return Ok(ty);
      }
      return Err(ParserError(ExpectedTypeName(current), line, column));
    }

    /** `parse_value_body`. */
    method ParseValueBody() returns (r: Result<ValueBody>)
      requires Valid()
      modifies this, lexer
      ensures r.Ok? ==> Valid()
      ensures Done(r, index) == BodyRest(stream, ValueBody(None, None, None), old(index))
    {
      var body := ValueBody(None, None, None);
      while !current.RightBrace?
        invariant Valid() && old(index) <= index
        invariant BodyRest(stream, body, index) == BodyRest(stream, ValueBody(None, None, None), old(index))
        decreases |stream.toks| - index
      {
        body :- ParseBodyClause(body);
      }
      return Ok(body);
    }

    /** One pass of the clause loop of `parse_value_body`. */
    method ParseBodyClause(body: ValueBody) returns (r: Result<ValueBody>)
      requires Valid()
      modifies this, lexer
      ensures r.Ok? ==> Valid()
      ensures Done(r, index) == ClauseAt(stream, body, old(index))
    {
      if current.Validate? {
        var _ :- Advance();
        var e :- ParseClause();
        return Ok(body.(validate := Some(e)));
      } else if current.Normalize? {
        var _ :- Advance();
        var e :- ParseClause();
        return Ok(body.(normalize := Some(e)));
      } else if current.Unique? {
        var _ :- Advance();
        var b :- ParseUnique();
        return Ok(body.(unique := Some(b)));
      }
      return Err(ParserError(ExpectedClause(current), line, column));
    }

    /** The `: expression` of a `validate` or `normalize` clause. */
    method ParseClause() returns (r: Result<Expression>)
      requires Valid()
      modifies this, lexer
      ensures r.Ok? ==> Valid()
      ensures Done(r, index) == ClauseRest(stream, old(index))
      decreases |stream.toks| - index, 17
    {
      var _ :- Expect(T.Colon);
      r := ParseExpression();
    }

    /** The `: true` or `: false` of a `unique` clause. */
    method ParseUnique() returns (r: Result<bool>)
      requires Valid()
      modifies this, lexer
      ensures r.Ok? ==> Valid()
      ensures Done(r, index) == UniqueRest(stream, old(index))
    {
      var _ :- Expect(T.Colon);
      r := ParseBoolean();
    }

    /** `parse_boolean`. */
    method ParseBoolean() returns (r: Result<bool>)
      requires Valid()
      modifies this, lexer
      ensures r.Ok? ==> Valid()
      ensures Done(r, index) == BooleanAt(stream, old(index))
    {
      if current.True? || current.False? {
        var b := current.True?;
        var _ :- Advance();
        return Ok(b);
      }
      return Err(ParserError(ExpectedBoolean(current), line, column));
    }

    /** `parse_expression`. */
    method ParseExpression() returns (r: Result<Expression>)
      requires Valid()
      modifies this, lexer
      ensures r.Ok? ==> Valid()
      ensures Done(r, index) == ExpressionAt(stream, old(index))
      decreases |stream.toks| - index, 16
    {
      r := ParsePipeline();
    }

    method ParsePipeline() returns (r: Result<Expression>)
      requires Valid()
      modifies this, lexer
      ensures r.Ok? ==> Valid()
      ensures Done(r, index) == PipelineAt(stream, old(index))
      decreases |stream.toks| - index, 15
    {
      var left :- ParseOr();
      while current.Pipeline?
        invariant Valid() && old(index) <= index
        invariant PipelineRest(stream, left, index) == PipelineAt(stream, old(index))
        decreases |stream.toks| - index
      {
        var _ :- Advance();
        var right :- ParseOr();
        left := Pipeline(left, right);
      }
      return Ok(left);
    }

    method ParseOr() returns (r: Result<Expression>)
      requires Valid()
      modifies this, lexer
      ensures r.Ok? ==> Valid()
      ensures Done(r, index) == OrAt(stream, old(index))
      decreases |stream.toks| - index, 13
    {
      var left :- ParseAnd();
      while current.Or?
        invariant Valid() && old(index) <= index
        invariant OrRest(stream, left, index) == OrAt(stream, old(index))
        decreases |stream.toks| - index
      {
        var _ :- Advance();
        var right :- ParseAnd();
        left := Binary(BinaryOp.Or, left, right);
      }
      return Ok(left);
    }

    method ParseAnd() returns (r: Result<Expression>)
      requires Valid()
      modifies this, lexer
      ensures r.Ok? ==> Valid()
      ensures Done(r, index) == AndAt(stream, old(index))
      decreases |stream.toks| - index, 11
    {
      var left :- ParseComparison();
      while current.And?
        invariant Valid() && old(index) <= index
        invariant AndRest(stream, left, index) == AndAt(stream, old(index))
        decreases |stream.toks| - index
      {
        var _ :- Advance();
        var right :- ParseComparison();
        left := Binary(BinaryOp.And, left, right);
      }
      return Ok(left);
    }

    method ParseComparison() returns (r: Result<Expression>)
      requires Valid()
      modifies this, lexer
      ensures r.Ok? ==> Valid()
      ensures Done(r, index) == ComparisonAt(stream, old(index))
      decreases |stream.toks| - index, 9
    {
      var left :- ParseAdditive();
      while ComparisonOf(current).Some?
        invariant Valid() && old(index) <= index
        invariant ComparisonRest(stream, left, index) == ComparisonAt(stream, old(index))
        decreases |stream.toks| - index
      {
        var op := ComparisonOf(current).value;
        var _ :- Advance();
        var right :- ParseAdditive();
        left := Comparison(op, left, right);
      }
      return Ok(left);
    }

    method ParseAdditive() returns (r: Result<Expression>)
      requires Valid()
      modifies this, lexer
      ensures r.Ok? ==> Valid()
      ensures Done(r, index) == AdditiveAt(stream, old(index))
      decreases |stream.toks| - index, 7
    {
      var left :- ParseMultiplicative();
      while AdditiveOf(current).Some?
        invariant Valid() && old(index) <= index
        invariant AdditiveRest(stream, left, index) == AdditiveAt(stream, old(index))
        decreases |stream.toks| - index
      {
        var op := AdditiveOf(current).value;
        var _ :- Advance();
        var right :- ParseMultiplicative();
        left := Binary(op, left, right);
      }
      return Ok(left);
    }

    method ParseMultiplicative() returns (r: Result<Expression>)
      requires Valid()
      modifies this, lexer
      ensures r.Ok? ==> Valid()
      ensures Done(r, index) == MultiplicativeAt(stream, old(index))
      decreases |stream.toks| - index, 5
    {
      var left :- ParseUnary();
      while MultiplicativeOf(current).Some?
        invariant Valid() && old(index) <= index
        invariant MultiplicativeRest(stream, left, index) == MultiplicativeAt(stream, old(index))
        decreases |stream.toks| - index
      {
        var op := MultiplicativeOf(current).value;
        var _ :- Advance();
        var right :- ParseUnary();
        left := Binary(op, left, right);
      }
      return Ok(left);
    }

    method ParseUnary() returns (r: Result<Expression>)
      requires Valid()
      modifies this, lexer
      ensures r.Ok? ==> Valid()
      ensures Done(r, index) == UnaryAt(stream, old(index))
      decreases |stream.toks| - index, 3
    {
      if current.Not? {
        var _ :- Advance();
        var operand :- ParseUnary();
        return Ok(Unary(UnaryOp.Not, operand));
      } else if current.Minus? {
        var _ :- Advance();
        var operand :- ParseUnary();
        return Ok(Unary(UnaryOp.Minus, operand));
      }
      r := ParsePostfix();
    }

    method ParsePostfix() returns (r: Result<Expression>)
      requires Valid()
      modifies this, lexer
      ensures r.Ok? ==> Valid()
      ensures Done(r, index) == PostfixAt(stream, old(index))
      decreases |stream.toks| - index, 2
    {
      var e :- ParsePrimary();
      while current.Dot?
        invariant Valid() && old(index) <= index
        invariant PostfixRest(stream, e, index) == PostfixAt(stream, old(index))
        decreases |stream.toks| - index
      {
        var _ :- Advance();
        var member :- ExpectIdentifier();
        e :- ParseSelector(e, member);
      }
      return Ok(e);
    }

    /** The part of `parse_postfix_expression` after `.name`. */
    method ParseSelector(e: Expression, name: string) returns (r: Result<Expression>)
      requires Valid()
      modifies this, lexer
      ensures r.Ok? ==> Valid()
      ensures Done(r, index) == SelectorRest(stream, e, name, old(index))
      decreases |stream.toks| - index, 1
    {
      if current.LeftParen? {
        var _ :- Advance();
        var args: seq<Expression> := [];
        if !current.RightParen? {
          args :- ParseArguments();
        }
        var _ :- Expect(T.RightParen);
        return Ok(MethodCall(e, name, args));
      }
      return Ok(MemberAccess(e, name));
    }

    /** The argument loop of `parse_postfix_expression`. */
    method ParseArguments() returns (r: Result<seq<Expression>>)
      requires Valid()
      modifies this, lexer
      ensures r.Ok? ==> Valid()
      ensures Done(r, index) == ArgumentsRest(stream, [], old(index))
      decreases |stream.toks| - index, 17
    {
      var args: seq<Expression> := [];
      while true
        invariant Valid() && old(index) <= index
        invariant ArgumentsRest(stream, args, index) == ArgumentsRest(stream, [], old(index))
        decreases |stream.toks| - index
      {
        var arg :- ParseExpression();
        args := args + [arg];
        if !current.Comma? {
          return Ok(args);
        }
        var _ :- Advance();
      }
    }

    /** `parse_primary_expression`. */
    method ParsePrimary() returns (r: Result<Expression>)
      requires Valid()
      modifies this, lexer
      ensures r.Ok? ==> Valid()
      ensures Done(r, index) == PrimaryAt(stream, old(index))
      decreases |stream.toks| - index, 0
    {
      if current.Let? {
        var _ :- Advance();
        r := ParseLet();
      } else if current.LeftParen? {
        var _ :- Advance();
        var e :- ParseExpression();
        var _ :- Expect(T.RightParen);
        return Ok(e);
      } else if Atom(current).Some? {
        var e := Atom(current).value;
        var _ :- Advance();
        return Ok(e);
      } else {
        return Err(ParserError(UnexpectedInExpression(current), line, column));
      }
    }
  
    /** The `let` branch of `parse_primary_expression` after the keyword. */
    method ParseLet() returns (r: Result<Expression>)
      requires Valid()
      modifies this, lexer
      ensures r.Ok? ==> Valid()
      ensures Done(r, index) == LetRest(stream, old(index))
      decreases |stream.toks| - index, 0
    {
      var name :- ExpectIdentifier();
      var _ :- Expect(T.Assign);
      var bound :- ParseExpression();
      r := ParseLetBody(name, bound);
    }

    /** The `in body` that ends a `let`. */
    method ParseLetBody(name: string, bound: Expression) returns (r: Result<Expression>)
      requires Valid()
      modifies this, lexer
      ensures r.Ok? ==> Valid()
      ensures Done(r, index) == LetBodyRest(stream, name, bound, old(index))
      decreases |stream.toks| - index, 0
    {
      var _ :- Expect(T.In);
      var body :- ParseExpression();
      return Ok(Let(name, bound, body));
    }
  }
}
