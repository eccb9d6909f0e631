/**
 * What the constructor-validation interpreters and the compiler promise,
 * and how the interpreters relate to the evaluator.
 */
module CompilationFacts {
  import opened Wrappers
  import opened Ast
  import opened Errors
  import opened Ascii
  import opened Values
  import opened Evaluator
  import opened Compilation

  function IntLit(n: I64): Expression { Literal(IntegerLit(n)) }

  // ---------------------------------------------------------------------
  // The interpreters
  // ---------------------------------------------------------------------

  /** `&&` and `||` decide from the left side when they can; the right
      side, and any error in it, is reached only when the left side does
      not decide. An error on the left is the result. */
  lemma ShortCircuit(value: I64, text: string, l: Expression, r: Expression, param: string, ctx: Bindings)
    ensures IntValidation(value, l, param, ctx) == Ok(false) ==>
      IntValidation(value, Binary(And, l, r), param, ctx) == Ok(false) &&
      IntValidation(value, Binary(Or, l, r), param, ctx) == IntValidation(value, r, param, ctx)
    ensures IntValidation(value, l, param, ctx) == Ok(true) ==>
      IntValidation(value, Binary(Or, l, r), param, ctx) == Ok(true) &&
      IntValidation(value, Binary(And, l, r), param, ctx) == IntValidation(value, r, param, ctx)
    ensures IntValidation(value, l, param, ctx).Err? ==>
      IntValidation(value, Binary(And, l, r), param, ctx) == IntValidation(value, l, param, ctx) &&
      IntValidation(value, Binary(Or, l, r), param, ctx) == IntValidation(value, l, param, ctx)
    ensures StringValidation(text, l, param, ctx) == Ok(false) ==>
      StringValidation(text, Binary(And, l, r), param, ctx) == Ok(false) &&
      StringValidation(text, Binary(Or, l, r), param, ctx) == StringValidation(text, r, param, ctx)
    ensures StringValidation(text, l, param, ctx) == Ok(true) ==>
      StringValidation(text, Binary(Or, l, r), param, ctx) == Ok(true) &&
      StringValidation(text, Binary(And, l, r), param, ctx) == StringValidation(text, r, param, ctx)
    ensures StringValidation(text, l, param, ctx).Err? ==>
      StringValidation(text, Binary(And, l, r), param, ctx) == StringValidation(text, l, param, ctx) &&
      StringValidation(text, Binary(Or, l, r), param, ctx) == StringValidation(text, l, param, ctx)
  {
  }

  /** An integer comparison holds exactly when both sides evaluate and the
      values compare; the left side's error comes first. */
  lemma IntComparison(value: I64, op: ComparisonOp, l: Expression, r: Expression, param: string, ctx: Bindings)
    requires op != Contains
    ensures IntValidation(value, Comparison(op, l, r), param, ctx).Ok? <==>
      IntExpr(l, value, param, ctx).Ok? && IntExpr(r, value, param, ctx).Ok?
    ensures IntValidation(value, Comparison(op, l, r), param, ctx).Ok? ==>
      IntValidation(value, Comparison(op, l, r), param, ctx).value ==
        CompareInts(op, IntExpr(l, value, param, ctx).value, IntExpr(r, value, param, ctx).value)
    ensures IntExpr(l, value, param, ctx).Err? ==>
      IntValidation(value, Comparison(op, l, r), param, ctx) == Err(IntExpr(l, value, param, ctx).error)
    ensures IntExpr(l, value, param, ctx).Ok? && IntExpr(r, value, param, ctx).Err? ==>
      IntValidation(value, Comparison(op, l, r), param, ctx) == Err(IntExpr(r, value, param, ctx).error)
  {
  }

  /** The expression shapes the interpreters do not know validate as
      `true`: literals, unary operators, arithmetic, member accesses, calls
      and type literals in both; `contains` for integers; the orderings
      other than `>` for strings. */
  lemma UnknownShapesAccept(value: I64, text: string, e: Expression, param: string, ctx: Bindings)
    requires e.Literal? || e.Unary? || e.MemberAccess? || e.FunctionCall? || e.MethodCall? || e.TypeLiteral? ||
      (e.Binary? && e.bop !in {And, Or})
    ensures IntValidation(value, e, param, ctx) == Ok(true)
    ensures StringValidation(text, e, param, ctx) == Ok(true)
  {
  }

  lemma UnknownComparisonsAccept(value: I64, text: string, op: ComparisonOp, l: Expression, r: Expression,
                                 param: string, ctx: Bindings)
    ensures IntValidation(value, Comparison(Contains, l, r), param, ctx) == Ok(true)
    ensures op in {Less, LessEqual, GreaterEqual} ==> StringValidation(text, Comparison(op, l, r), param, ctx) == Ok(true)
  {
  }

  /** A pipeline validates by its left side alone; a `let` binds its value
      for the body only, and an error in the bound expression is the
      result. */
  lemma PipelineAndLet(value: I64, text: string, l: Expression, r: Expression, x: string, b: Expression,
                       param: string, ctx: Bindings)
    ensures IntValidation(value, Pipeline(l, r), param, ctx) == IntValidation(value, l, param, ctx)
    ensures StringValidation(text, Pipeline(l, r), param, ctx) == StringValidation(text, l, param, ctx)
    ensures var v := LetValue(b, param, SInteger(value), ctx);
      IntValidation(value, Let(x, b, l), param, ctx) ==
        if v.Ok? then IntValidation(value, l, param, ctx[x := v.value]) else Err(v.error)
    ensures var v := LetValue(b, param, SString(text), ctx);
      StringValidation(text, Let(x, b, l), param, ctx) ==
        if v.Ok? then StringValidation(text, l, param, ctx[x := v.value]) else Err(v.error)
  {
  }

  /** String `contains` never fails; it is true exactly when the left side
      names the parameter (or a bound string), the right side is a string
      literal, and that literal occurs in the named text. */
  lemma ContainsSpec(text: string, l: Expression, r: Expression, param: string, ctx: Bindings)
    ensures StringValidation(text, Comparison(Contains, l, r), param, ctx).Ok?
    ensures StringValidation(text, Comparison(Contains, l, r), param, ctx).value <==>
      l.Identifier? && (l.name == param || (l.name in ctx && ctx[l.name].SString?)) &&
      r.Literal? && r.lit.StringLit? &&
      (var subject := if l.name == param then text else ctx[l.name].s;
       exists i :: OccursAt(subject, r.lit.s, i))
  {
  }

  /** The parameter's `.length` in an integer validation is the
      placeholder 0, so `n.length > 0` rejects every integer. */
  lemma IntLengthIsZero(value: I64, ctx: Bindings)
    ensures IntValidation(value, Comparison(Greater, MemberAccess(Identifier("n"), "length"), IntLit(0)), "n", ctx) ==
      Ok(false)
  {
  }

  /** `let` arithmetic: sums and products of integers in the i64 range,
      truncating division, division by zero an error, overflow a panic. */
  lemma LetArithmetic(a: I64, b: I64, param: string, pv: Scalar, ctx: Bindings)
    requires pv.SString? || pv.SInteger?
    ensures LetValue(Binary(Add, IntLit(a), IntLit(b)), param, pv, ctx) ==
      if InI64(a + b) then Ok(SInteger(a + b)) else Err(Overflow())
    ensures LetValue(Binary(Multiply, IntLit(a), IntLit(b)), param, pv, ctx) ==
      if InI64(a * b) then Ok(SInteger(a * b)) else Err(Overflow())
    ensures b == 0 ==>
      LetValue(Binary(Divide, IntLit(a), IntLit(b)), param, pv, ctx) == Err(ValidationError(DivisionByZero, ""))
    ensures b != 0 && InI64(TruncDiv(a, b)) ==>
      LetValue(Binary(Divide, IntLit(a), IntLit(b)), param, pv, ctx) == Ok(SInteger(TruncDiv(a, b)))
    ensures LetValue(Binary(Subtract, IntLit(a), IntLit(b)), param, pv, ctx) == Err(ValidationError(UnsupportedInLet, ""))
  {
  }

  // ---------------------------------------------------------------------
  // Agreement with the evaluator
  // ---------------------------------------------------------------------

  /** An integer literal or the parameter. */
  predicate IntAtom(e: Expression, param: string)
  {
    (e.Literal? && e.lit.IntegerLit?) || e == Identifier(param)
  }

  /** Integer comparisons between literals and the parameter, combined
      with `&&` and `||`: the conditions both the validator and the
      evaluator understand. */
  predicate IntCondition(e: Expression, param: string)
  {
    match e
    case Binary(op, l, r) => op in {And, Or} && IntCondition(l, param) && IntCondition(r, param)
    case Comparison(op, l, r) => op != Contains && IntAtom(l, param) && IntAtom(r, param)
    case _ => false
  }

  lemma AtomAgrees(fuel: nat, value: I64, e: Expression, param: string, env: Registry, cache: DispatchCache)
    requires IntAtom(e, param)
    ensures IntExpr(e, value, param, map[]).Ok?
    ensures Eval(fuel, e, map[param := IntegerVal(value)], env, cache) ==
      Outcome(Ok(IntegerVal(IntExpr(e, value, param, map[]).value)), cache)
  {
  }

  lemma ComparisonAgrees(fuel: nat, value: I64, op: ComparisonOp, l: Expression, r: Expression, param: string,
                         env: Registry, cache: DispatchCache)
    requires op != Contains && IntAtom(l, param) && IntAtom(r, param)
    ensures IntValidation(value, Comparison(op, l, r), param, map[]).Ok?
    ensures Eval(fuel, Comparison(op, l, r), map[param := IntegerVal(value)], env, cache).result ==
      Ok(BooleanVal(IntValidation(value, Comparison(op, l, r), param, map[]).value))
  {
    AtomAgrees(fuel, value, l, param, env, cache);
    AtomAgrees(fuel, value, r, param, env, cache);
  }

  /** On integer conditions, the validator and the evaluator (run with
      the parameter bound to the input) reach the same verdict, whatever
      the registry and dispatch cache. The validator short-circuits and the
      evaluator does not, which makes no difference here: neither side can
      fail. */
  lemma {:induction false} ValidationAgreesWithEvaluator(fuel: nat, value: I64, e: Expression, param: string,
                                                         env: Registry, cache: DispatchCache)
    requires IntCondition(e, param)
    ensures IntValidation(value, e, param, map[]).Ok?
    ensures Eval(fuel, e, map[param := IntegerVal(value)], env, cache).result ==
      Ok(BooleanVal(IntValidation(value, e, param, map[]).value))
  {
    match e {
      case Comparison(op, l, r) => ComparisonAgrees(fuel, value, op, l, r, param, env, cache);
      case Binary(op, l, r) =>
        var ctx := map[param := IntegerVal(value)];
        ValidationAgreesWithEvaluator(fuel, value, l, param, env, cache);
        var lo := Eval(fuel, l, ctx, env, cache);
        ValidationAgreesWithEvaluator(fuel, value, r, param, env, lo.cache);
        BinaryAgrees(fuel, value, op, l, r, param, env, cache);
    }
  }

  /** The `&&`/`||` step of the agreement, given the agreement of both
      sides. */
  lemma BinaryAgrees(fuel: nat, value: I64, op: BinaryOp, l: Expression, r: Expression, param: string,
                     env: Registry, cache: DispatchCache)
    requires op in {And, Or}
    requires IntValidation(value, l, param, map[]).Ok? && IntValidation(value, r, param, map[]).Ok?
    requires Eval(fuel, l, map[param := IntegerVal(value)], env, cache).result ==
      Ok(BooleanVal(IntValidation(value, l, param, map[]).value))
    requires var lo := Eval(fuel, l, map[param := IntegerVal(value)], env, cache);
      Eval(fuel, r, map[param := IntegerVal(value)], env, lo.cache).result ==
        Ok(BooleanVal(IntValidation(value, r, param, map[]).value))
    ensures IntValidation(value, Binary(op, l, r), param, map[]).Ok?
    ensures Eval(fuel, Binary(op, l, r), map[param := IntegerVal(value)], env, cache).result ==
      Ok(BooleanVal(IntValidation(value, Binary(op, l, r), param, map[]).value))
  {
  }

  // ---------------------------------------------------------------------
  // Validators and construction
  // ---------------------------------------------------------------------

  /** Constructing a value through a compiled constructor: the object is
      created, with the input unchanged, exactly when the validator accepts;
      otherwise the validator's error is the result. */
  lemma CompiledConstruct(constructors: map<string, ValueConstructor>, d: ValueDeclaration, input: Input)
    requires d.name in constructors && constructors[d.name] == CompiledConstructor(d)
    ensures Construct(constructors, d.name, input).Ok? <==> RunValidator(d, input).Ok?
    ensures Construct(constructors, d.name, input).Ok? ==>
      Construct(constructors, d.name, input).value == GenericValueObject(d.name, input)
    ensures RunValidator(d, input).Err? ==> Construct(constructors, d.name, input) == Err(RunValidator(d, input).error)
  {
  }

  function PositiveDecl(): ValueDeclaration
  {
    ValueDeclaration("Positive", Parameter("n", IntT),
      ValueBody(Some(Comparison(Greater, Identifier("n"), IntLit(0))), None, None))
  }

  /** `value Positive(n: Int) { validate: n > 0 }`, compiled into an empty
      registry: 5 is accepted, 0 is rejected with an error naming the
      type, and a string input is not checked at all. */
  lemma PositiveExample()
    ensures var cs := CompileAll(Registry(map[], map[]), [ValueDecl(PositiveDecl())]).constructors;
      Construct(cs, "Positive", InputInt(5)) == Ok(GenericValueObject("Positive", InputInt(5))) &&
      Construct(cs, "Positive", InputInt(0)) == Err(ValidationError(ValidationFailed, "Positive")) &&
      Construct(cs, "Positive", InputString("x")) == Ok(GenericValueObject("Positive", InputString("x")))
  {
    var ds := [ValueDecl(PositiveDecl())];
    var reg := Registry(map["Positive" := CompiledConstructor(PositiveDecl())], map[]);
    assert CompileDecl(Registry(map[], map[]), ds[0]) == reg;
    assert ds[1..] == [];
    var cs := reg.constructors;
    CompiledConstruct(cs, PositiveDecl(), InputInt(5));
    CompiledConstruct(cs, PositiveDecl(), InputInt(0));
    CompiledConstruct(cs, PositiveDecl(), InputString("x"));
  }

  /** Compiling declarations never drops or reorders a recorded
      implementation: every earlier list is a prefix of the later one. */
  lemma {:induction false} CompileAllKeepsImplementations(reg: Registry, ds: seq<Declaration>, name: string)
    requires name in reg.functions
    ensures name in CompileAll(reg, ds).functions
    ensures reg.functions[name] <= CompileAll(reg, ds).functions[name]
    decreases |ds|
  {
    if ds != [] {
      var next := CompileDecl(reg, ds[0]);
      assert name in next.functions && reg.functions[name] <= next.functions[name];
      CompileAllKeepsImplementations(next, ds[1..], name);
    }
  }
}
