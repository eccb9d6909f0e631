/**
 * What the recursive-descent parser of src/parser.rs accepts and builds,
 * as functions over the token stream. A cursor is an index into the
 * stream; each function returns what it parsed with the index of the first
 * token after it. The precedence ladder, loosest first, is pipeline `|>`,
 * `||`, `&&`, comparison, `+ -`, `* /`, unary, postfix; each binary level
 * is a loop that folds to the left, written here as a `...Rest` function
 * that carries the left operand built so far.
 *
 * The parser never updates its line and column fields, so every parser
 * error carries line 1, column 1.
 */
module Grammar {
  import opened Wrappers
  import opened Errors
  import opened Ast
  import T = Tokens
  import opened Streams

  /** A parsed item and the index after it. */
  type Parsed<X> = Result<(X, nat)>

  function Fail<X>(problem: ParseProblem): (r: Parsed<X>)
    ensures r.Err? && r.error == ParserError(problem, 1, 1)
  {
    Err(ParserError(problem, 1, 1))
  }

  /** What every parsing function guarantees: it never moves back or past
      `Eof`, and it fails only with a parser error at line 1, column 1 or
      with the lexer error that ended the stream. */
  predicate Sound<X>(s: Stream, i: nat, r: Parsed<X>)
  {
    (r.Ok? ==> i <= r.value.1 <= |s.toks|) &&
    (r.Err? ==> (r.error.ParserError? && r.error.line == 1 && r.error.column == 1) ||
                Some(r.error) == s.failure)
  }

  /** `expect`: advances over `t` when it is the current token, otherwise
      fails where it stands. */
  function ExpectAt(s: Stream, i: nat, t: T.Token): (r: Result<nat>)
    requires i <= |s.toks|
    ensures r.Ok? ==> Current(s, i) == t && r == Next(s, i)
    ensures Current(s, i) == t ==> r == Next(s, i)
    ensures Current(s, i) != t ==> r == Err(ParserError(ExpectedToken(t, Current(s, i)), 1, 1))
  {
    if Current(s, i) == t then Next(s, i)
    else Err(ParserError(ExpectedToken(t, Current(s, i)), 1, 1))
  }

  /** `expect_identifier`. */
  function IdentifierAt(s: Stream, i: nat): (r: Parsed<string>)
    requires i <= |s.toks|
    ensures Sound(s, i, r)
    ensures r.Ok? ==> Current(s, i) == T.Identifier(r.value.0) && Next(s, i) == Ok(r.value.1)
    ensures !Current(s, i).Identifier? ==> r == Fail(ExpectedIdentifier(Current(s, i)))
  {
    var t := Current(s, i);
    if t.Identifier? then
      var j :- Next(s, i);
      Ok((t.name, j))
    else Fail(ExpectedIdentifier(t))
  }

  /** The type a name denotes: the three primitive names, otherwise a
      value type of that name. */
  function TypeNamed(name: string): (ty: Type)
    ensures ty.ValueT? <==> name !in {"String", "Int", "Bool"}
    ensures ty.ValueT? ==> ty.name == name
  {
    if name == "String" then StringT
    else if name == "Int" then IntT
    else if name == "Bool" then BoolT
    else ValueT(name)
  }

  /** `parse_type`. */
  function TypeAt(s: Stream, i: nat): (r: Parsed<Type>)
    requires i <= |s.toks|
    ensures Sound(s, i, r)
  {
    var t := Current(s, i);
    if t.Identifier? then
      var j :- Next(s, i);
      Ok((TypeNamed(t.name), j))
    else Fail(ExpectedTypeName(t))
  }

  /** `parse_parameter`: a name, a colon and a type. */
  function ParameterAt(s: Stream, i: nat): (r: Parsed<Parameter>)
    requires i <= |s.toks|
    ensures Sound(s, i, r)
  {
    var name :- IdentifierAt(s, i);
    var j :- ExpectAt(s, name.1, T.Colon);
    var ty :- TypeAt(s, j);
    Ok((Parameter(name.0, ty.0), ty.1))
  }

  /** `parse_boolean`. */
  function BooleanAt(s: Stream, i: nat): (r: Parsed<bool>)
    requires i <= |s.toks|
    ensures Sound(s, i, r)
  {
    var t := Current(s, i);
    if t.True? || t.False? then
      var j :- Next(s, i);
      Ok((t.True?, j))
    else Fail(ExpectedBoolean(t))
  }

  /** `parse_expression`. */
  function ExpressionAt(s: Stream, i: nat): (r: Parsed<Expression>)
    requires i <= |s.toks|
    ensures Sound(s, i, r)
    decreases |s.toks| - i, 16
  {
    PipelineAt(s, i)
  }

  /** `parse_pipeline_expression`: `||`-level operands joined by `|>`. */
  function PipelineAt(s: Stream, i: nat): (r: Parsed<Expression>)
    requires i <= |s.toks|
    ensures Sound(s, i, r)
    decreases |s.toks| - i, 15
  {
    var left :- OrAt(s, i);
    PipelineRest(s, left.0, left.1)
  }

  function PipelineRest(s: Stream, left: Expression, i: nat): (r: Parsed<Expression>)
    requires i <= |s.toks|
    ensures Sound(s, i, r)
    decreases |s.toks| - i, 14
  {
    if Current(s, i).Pipeline? then
      var j :- Next(s, i);
      var right :- OrAt(s, j);
      PipelineRest(s, Pipeline(left, right.0), right.1)
    else Ok((left, i))
  }

  /** `parse_or_expression`. */
  function OrAt(s: Stream, i: nat): (r: Parsed<Expression>)
    requires i <= |s.toks|
    ensures Sound(s, i, r)
    decreases |s.toks| - i, 13
  {
    var left :- AndAt(s, i);
    OrRest(s, left.0, left.1)
  }

  function OrRest(s: Stream, left: Expression, i: nat): (r: Parsed<Expression>)
    requires i <= |s.toks|
    ensures Sound(s, i, r)
    decreases |s.toks| - i, 12
  {
    if Current(s, i).Or? then
      var j :- Next(s, i);
      var right :- AndAt(s, j);
      OrRest(s, Binary(BinaryOp.Or, left, right.0), right.1)
    else Ok((left, i))
  }

  /** `parse_and_expression`. */
  function AndAt(s: Stream, i: nat): (r: Parsed<Expression>)
    requires i <= |s.toks|
    ensures Sound(s, i, r)
    decreases |s.toks| - i, 11
  {
    var left :- ComparisonAt(s, i);
    AndRest(s, left.0, left.1)
  }

  function AndRest(s: Stream, left: Expression, i: nat): (r: Parsed<Expression>)
    requires i <= |s.toks|
    ensures Sound(s, i, r)
    decreases |s.toks| - i, 10
  {
    if Current(s, i).And? then
      var j :- Next(s, i);
      var right :- ComparisonAt(s, j);
      AndRest(s, Binary(BinaryOp.And, left, right.0), right.1)
    else Ok((left, i))
  }

  /** The comparison a token stands for. */
  function ComparisonOf(t: T.Token): (r: Option<ComparisonOp>)
    ensures r.Some? <==> t.Equal? || t.NotEqual? || t.Less? || t.Greater? || t.LessEqual? || t.GreaterEqual? || t.Contains?
    ensures t.Contains? <==> r == Some(ComparisonOp.Contains)
  {
    if t.Equal? then Some(ComparisonOp.Equal)
    else if t.NotEqual? then Some(ComparisonOp.NotEqual)
    else if t.Less? then Some(ComparisonOp.Less)
    else if t.Greater? then Some(ComparisonOp.Greater)
    else if t.LessEqual? then Some(ComparisonOp.LessEqual)
    else if t.GreaterEqual? then Some(ComparisonOp.GreaterEqual)
    else if t.Contains? then Some(ComparisonOp.Contains)
    else None
  }

  /** `parse_comparison_expression`. */
  function ComparisonAt(s: Stream, i: nat): (r: Parsed<Expression>)
    requires i <= |s.toks|
    ensures Sound(s, i, r)
    decreases |s.toks| - i, 9
  {
    var left :- AdditiveAt(s, i);
    ComparisonRest(s, left.0, left.1)
  }

  function ComparisonRest(s: Stream, left: Expression, i: nat): (r: Parsed<Expression>)
    requires i <= |s.toks|
    ensures Sound(s, i, r)
    decreases |s.toks| - i, 8
  {
    var op := ComparisonOf(Current(s, i));
    if op.Some? then
      var j :- Next(s, i);
      var right :- AdditiveAt(s, j);
      ComparisonRest(s, Comparison(op.value, left, right.0), right.1)
    else Ok((left, i))
  }

  /** The additive operator a token stands for. */
  function AdditiveOf(t: T.Token): (r: Option<BinaryOp>)
    ensures r.Some? <==> t.Plus? || t.Minus?
    ensures r.Some? ==> r.value in {Add, Subtract}
  {
    if t.Plus? then Some(Add)
    else if t.Minus? then Some(Subtract)
    else None
  }

  /** `parse_additive_expression`. */
  function AdditiveAt(s: Stream, i: nat): (r: Parsed<Expression>)
    requires i <= |s.toks|
    ensures Sound(s, i, r)
    decreases |s.toks| - i, 7
  {
    var left :- MultiplicativeAt(s, i);
    AdditiveRest(s, left.0, left.1)
  }

  function AdditiveRest(s: Stream, left: Expression, i: nat): (r: Parsed<Expression>)
    requires i <= |s.toks|
    ensures Sound(s, i, r)
    decreases |s.toks| - i, 6
  {
    var op := AdditiveOf(Current(s, i));
    if op.Some? then
      var j :- Next(s, i);
      var right :- MultiplicativeAt(s, j);
      AdditiveRest(s, Binary(op.value, left, right.0), right.1)
    else Ok((left, i))
  }

  /** The multiplicative operator a token stands for; `%` is not one. */
  function MultiplicativeOf(t: T.Token): (r: Option<BinaryOp>)
    ensures r.Some? <==> t.Star? || t.Slash?
    ensures r != Some(Modulo)
  {
    if t.Star? then Some(Multiply)
    else if t.Slash? then Some(Divide)
    else None
  }

  /** `parse_multiplicative_expression`. */
  function MultiplicativeAt(s: Stream, i: nat): (r: Parsed<Expression>)
    requires i <= |s.toks|
    ensures Sound(s, i, r)
    decreases |s.toks| - i, 5
  {
    var left :- UnaryAt(s, i);
    MultiplicativeRest(s, left.0, left.1)
  }

  function MultiplicativeRest(s: Stream, left: Expression, i: nat): (r: Parsed<Expression>)
    requires i <= |s.toks|
    ensures Sound(s, i, r)
    decreases |s.toks| - i, 4
  {
    var op := MultiplicativeOf(Current(s, i));
    if op.Some? then
      var j :- Next(s, i);
      var right :- UnaryAt(s, j);
      MultiplicativeRest(s, Binary(op.value, left, right.0), right.1)
    else Ok((left, i))
  }

  /** `parse_unary_expression`: `!` and `-` nest to the right. */
  function UnaryAt(s: Stream, i: nat): (r: Parsed<Expression>)
    requires i <= |s.toks|
    ensures Sound(s, i, r)
    decreases |s.toks| - i, 3
  {
    var t := Current(s, i);
    if t.Not? || t.Minus? then
      var j :- Next(s, i);
      var operand :- UnaryAt(s, j);
      Ok((Unary(if t.Not? then UnaryOp.Not else UnaryOp.Minus, operand.0), operand.1))
    else PostfixAt(s, i)
  }

  /** `parse_postfix_expression`. */
  function PostfixAt(s: Stream, i: nat): (r: Parsed<Expression>)
    requires i <= |s.toks|
    ensures Sound(s, i, r)
    decreases |s.toks| - i, 2
  {
    var e :- PrimaryAt(s, i);
    PostfixRest(s, e.0, e.1)
  }

  /** `.name(args)` is a method call and `.name` a member access, applied
      left to right. */
  function PostfixRest(s: Stream, e: Expression, i: nat): (r: Parsed<Expression>)
    requires i <= |s.toks|
    ensures Sound(s, i, r)
    decreases |s.toks| - i, 1
  {
    if Current(s, i).Dot? then
      var j :- Next(s, i);
      var member :- IdentifierAt(s, j);
      var e' :- SelectorRest(s, e, member.0, member.1);
      PostfixRest(s, e'.0, e'.1)
    else Ok((e, i))
  }

  /** What follows `.name`: an argument list in parentheses makes a method
      call, anything else leaves a member access. */
  function SelectorRest(s: Stream, e: Expression, name: string, i: nat): (r: Parsed<Expression>)
    requires i <= |s.toks|
    ensures Sound(s, i, r)
    ensures r.Ok? ==> r.value.0 == MemberAccess(e, name) || (r.value.0.MethodCall? && r.value.0.receiver == e && r.value.0.mname == name)
    ensures !Current(s, i).LeftParen? ==> r == Ok((MemberAccess(e, name), i))
    decreases |s.toks| - i, 1
  {
    if Current(s, i).LeftParen? then
      var k :- Next(s, i);
      var args :- if !Current(s, k).RightParen? then ArgumentsRest(s, [], k) else Ok(([], k));
      var l :- ExpectAt(s, args.1, T.RightParen);
      Ok((MethodCall(e, name, args.0), l))
    else Ok((MemberAccess(e, name), i))
  }

  /** Comma-separated arguments, each a full expression. */
  function ArgumentsRest(s: Stream, args: seq<Expression>, i: nat): (r: Parsed<seq<Expression>>)
    requires i <= |s.toks|
    ensures Sound(s, i, r)
    ensures r.Ok? ==> |r.value.0| > |args| && r.value.0[..|args|] == args
    decreases |s.toks| - i, 17
  {
    var arg :- ExpressionAt(s, i);
    var args' := args + [arg.0];
    if Current(s, arg.1).Comma? then
      var j :- Next(s, arg.1);
      var r := ArgumentsRest(s, args', j);
      assert r.Ok? ==> r.value.0[..|args|] == r.value.0[..|args'|][..|args|];
      r
    else Ok((args', arg.1))
  }

  /** The expression a single token stands for: a string, integer or
      boolean literal, or an identifier. */
  function Atom(t: T.Token): (r: Option<Expression>)
    ensures r.Some? <==> t.String? || t.Integer? || t.True? || t.False? || t.Identifier?
  {
    if t.String? then Some(Literal(StringLit(t.text)))
    else if t.Integer? then Some(Literal(IntegerLit(t.n)))
    else if t.True? then Some(Literal(BooleanLit(true)))
    else if t.False? then Some(Literal(BooleanLit(false)))
    else if t.Identifier? then Some(Identifier(t.name))
    else None
  }

  /** `parse_primary_expression`. */
  function PrimaryAt(s: Stream, i: nat): (r: Parsed<Expression>)
    requires i <= |s.toks|
    ensures Sound(s, i, r)
    ensures r.Ok? ==> i < r.value.1
    decreases |s.toks| - i, 0
  {
    var t := Current(s, i);
    if t.Let? then
      var j :- Next(s, i);
      LetRest(s, j)
    else if t.LeftParen? then
      var j :- Next(s, i);
      var e :- ExpressionAt(s, j);
      var k :- ExpectAt(s, e.1, T.RightParen);
      Ok((e.0, k))
    else if Atom(t).Some? then
      var j :- Next(s, i);
      Ok((Atom(t).value, j))
    else Fail(UnexpectedInExpression(t))
  }

  /** `name = bound in body` after `let`; both the bound expression and the
      body are full expressions. */
  function LetRest(s: Stream, i: nat): (r: Parsed<Expression>)
    requires i <= |s.toks|
    ensures Sound(s, i, r)
    ensures r.Ok? ==> r.value.0.Let? && i < r.value.1
    decreases |s.toks| - i, 0
  {
    var name :- IdentifierAt(s, i);
    var k :- ExpectAt(s, name.1, T.Assign);
    var bound :- ExpressionAt(s, k);
    LetBodyRest(s, name.0, bound.0, bound.1)
  }

  /** The `in body` that ends a `let`. */
  function LetBodyRest(s: Stream, name: string, bound: Expression, i: nat): (r: Parsed<Expression>)
    requires i <= |s.toks|
    ensures Sound(s, i, r)
    ensures r.Ok? ==> r.value.0.Let? && r.value.0.bound == name && r.value.0.binding == bound && i < r.value.1
    decreases |s.toks| - i, 0
  {
    var l :- ExpectAt(s, i, T.In);
    var body :- ExpressionAt(s, l);
    Ok((Let(name, bound, body.0), body.1))
  }

  /** A clause's `: expression` after its keyword. */
  function ClauseRest(s: Stream, i: nat): (r: Parsed<Expression>)
    requires i <= |s.toks|
    ensures Sound(s, i, r)
    ensures r.Ok? ==> Current(s, i).Colon? && i < r.value.1
  {
    var k :- ExpectAt(s, i, T.Colon);
    ExpressionAt(s, k)
  }

  /** A `unique` clause's `: true` or `: false` after its keyword. */
  function UniqueRest(s: Stream, i: nat): (r: Parsed<bool>)
    requires i <= |s.toks|
    ensures Sound(s, i, r)
    ensures r.Ok? ==> Current(s, i).Colon? && i < r.value.1
  {
    var k :- ExpectAt(s, i, T.Colon);
    BooleanAt(s, k)
  }

  /** One clause of a value body: `validate` or `normalize` with an
      expression, `unique` with a boolean. The clause sets its own field
      of `body`, replacing what an earlier clause of the same kind set, and
      leaves the other two alone. */
  function ClauseAt(s: Stream, body: ValueBody, i: nat): (r: Parsed<ValueBody>)
    requires i <= |s.toks|
    ensures Sound(s, i, r)
    ensures r.Ok? ==> i < r.value.1
    ensures r.Ok? && Current(s, i).Validate? ==>
              r.value.0.validate.Some? && r.value.0.normalize == body.normalize && r.value.0.unique == body.unique
    ensures r.Ok? && Current(s, i).Normalize? ==>
              r.value.0.normalize.Some? && r.value.0.validate == body.validate && r.value.0.unique == body.unique
    ensures r.Ok? && Current(s, i).Unique? ==>
              r.value.0.unique.Some? && r.value.0.validate == body.validate && r.value.0.normalize == body.normalize
    ensures !(Current(s, i).Validate? || Current(s, i).Normalize? || Current(s, i).Unique?) ==>
              r == Fail(ExpectedClause(Current(s, i)))
  {
    var t := Current(s, i);
    if t.Validate? then
      var j :- Next(s, i);
      var e :- ClauseRest(s, j);
      Ok((body.(validate := Some(e.0)), e.1))
    else if t.Normalize? then
      var j :- Next(s, i);
      var e :- ClauseRest(s, j);
      Ok((body.(normalize := Some(e.0)), e.1))
    else if t.Unique? then
      var j :- Next(s, i);
      var b :- UniqueRest(s, j);
      Ok((body.(unique := Some(b.0)), b.1))
    else Fail(ExpectedClause(t))
  }

  /** `parse_value_body`: clauses in any order up to `}`. */
  function BodyRest(s: Stream, body: ValueBody, i: nat): (r: Parsed<ValueBody>)
    requires i <= |s.toks|
    ensures Sound(s, i, r)
    ensures r.Ok? ==> Current(s, r.value.1).RightBrace?
    decreases |s.toks| - i
  {
    if Current(s, i).RightBrace? then Ok((body, i))
    else
      var c :- ClauseAt(s, body, i);
      BodyRest(s, c.0, c.1)
  }

  /** The head `value Name ( parameter )` of a value declaration. */
  function HeadAt(s: Stream, i: nat): (r: Parsed<(string, Parameter)>)
    requires i <= |s.toks|
    ensures Sound(s, i, r)
    ensures r.Ok? ==> Current(s, i).Value? && i < r.value.1
  {
    var j :- ExpectAt(s, i, T.Value);
    var name :- IdentifierAt(s, j);
    var k :- ExpectAt(s, name.1, T.LeftParen);
    var parameter :- ParameterAt(s, k);
    var l :- ExpectAt(s, parameter.1, T.RightParen);
    Ok(((name.0, parameter.0), l))
  }

  /** `parse_value_declaration`: `value Name ( parameter ) { body }`. */
  function ValueDeclarationAt(s: Stream, i: nat): (r: Parsed<ValueDeclaration>)
    requires i <= |s.toks|
    ensures Sound(s, i, r)
    ensures r.Ok? ==> Current(s, i).Value? && i < r.value.1
  {
    var head :- HeadAt(s, i);
    var m :- ExpectAt(s, head.1, T.LeftBrace);
    var body :- BodyRest(s, ValueBody(None, None, None), m);
    var n :- ExpectAt(s, body.1, T.RightBrace);
    Ok((ValueDeclaration(head.0.0, head.0.1, body.0), n))
  }

  /** `parse_declaration`: only value declarations are parsed. */
  function DeclarationAt(s: Stream, i: nat): (r: Parsed<Declaration>)
    requires i <= |s.toks|
    ensures Sound(s, i, r)
    ensures r.Ok? ==> i < r.value.1 && r.value.0.ValueDecl?
    ensures !Current(s, i).Value? ==> r == Fail(ExpectedValueKeyword(Current(s, i)))
  {
    if Current(s, i).Value? then
      var d :- ValueDeclarationAt(s, i);
      Ok((ValueDecl(d.0), d.1))
    else Fail(ExpectedValueKeyword(Current(s, i)))
  }

  /** Every declaration is a value declaration. */
  predicate AllValues(decls: seq<Declaration>)
  {
    forall k :: 0 <= k < |decls| ==> decls[k].ValueDecl?
  }

  /** `parse_program`: declarations until `Eof`. */
  function DeclarationsRest(s: Stream, decls: seq<Declaration>, i: nat): (r: Result<Program>)
    requires i <= |s.toks|
    ensures r.Ok? ==> decls <= r.value.declarations
    ensures r.Ok? && AllValues(decls) ==> AllValues(r.value.declarations)
    ensures r.Err? ==> (r.error.ParserError? && r.error.line == 1 && r.error.column == 1) ||
                       Some(r.error) == s.failure
    decreases |s.toks| - i
  {
    if Current(s, i).Eof? then Ok(Program(decls))
    else
      var d :- DeclarationAt(s, i);
      DeclarationsRest(s, decls + [d.0], d.1)
  }

  /** `Parser::new` followed by `parse_program`: reading the first token
      can fail already. */
  function ProgramOf(s: Stream): (r: Result<Program>)
    ensures r.Ok? ==> AllValues(r.value.declarations)
    ensures r.Err? ==> (r.error.ParserError? && r.error.line == 1 && r.error.column == 1) ||
                       Some(r.error) == s.failure
  {
    if s.toks == [] && s.failure.Some? then Err(s.failure.value)
    else DeclarationsRest(s, [], 0)
  }
}
