/**
 * What the static checker promises, and how far its verdict carries over
 * to evaluation.
 */
module TypeCheckerFacts {
  import opened Wrappers
  import opened Ast
  import opened Errors
  import opened Types
  import opened TypeChecker
  import opened Evaluator

  // ---------------------------------------------------------------------
  // Typing rules
  // ---------------------------------------------------------------------

  /** Logical operators need two `Bool`s and give `Bool`; arithmetic needs
      two `Int`s and gives `Int`. */
  lemma BinaryTyping(op: BinaryOp, l: Expression, r: Expression, fs: FunctionTable,
                     values: map<string, ValueType>, locals: Locals)
    ensures Check(Binary(op, l, r), fs, values, locals).Ok? <==>
      Check(l, fs, values, locals).Ok? && Check(r, fs, values, locals).Ok? &&
      (var want := if op in {And, Or} then BoolT else IntT;
       Check(l, fs, values, locals).value == want && Check(r, fs, values, locals).value == want)
    ensures Check(Binary(op, l, r), fs, values, locals).Ok? ==>
      Check(Binary(op, l, r), fs, values, locals).value == if op in {And, Or} then BoolT else IntT
  {
  }

  /** `not` needs and gives `Bool`; unary minus needs and gives `Int`. */
  lemma UnaryTyping(op: UnaryOp, x: Expression, fs: FunctionTable, values: map<string, ValueType>, locals: Locals)
    ensures Check(Unary(op, x), fs, values, locals).Ok? <==>
      Check(x, fs, values, locals).Ok? && Check(x, fs, values, locals).value == (if op == Not then BoolT else IntT)
    ensures Check(Unary(op, x), fs, values, locals).Ok? ==>
      Check(Unary(op, x), fs, values, locals).value == if op == Not then BoolT else IntT
  {
  }

  /** `contains` needs two `String`s; every other comparison needs two
      operands of one type, whatever it is. */
  lemma ComparisonTyping(op: ComparisonOp, l: Expression, r: Expression, fs: FunctionTable,
                         values: map<string, ValueType>, locals: Locals)
    ensures Check(Comparison(op, l, r), fs, values, locals).Ok? <==>
      Check(l, fs, values, locals).Ok? && Check(r, fs, values, locals).Ok? &&
      (if op == Contains
       then Check(l, fs, values, locals).value == StringT && Check(r, fs, values, locals).value == StringT
       else Check(l, fs, values, locals).value == Check(r, fs, values, locals).value)
  {
  }

  /** The argument types of a call are the types of its arguments. */
  lemma {:induction false} CheckArgsTypes(args: seq<Expression>, fs: FunctionTable, values: map<string, ValueType>,
                                          locals: Locals)
    ensures CheckArgs(args, fs, values, locals).Ok? <==>
      forall i :: 0 <= i < |args| ==> Check(args[i], fs, values, locals).Ok?
    ensures CheckArgs(args, fs, values, locals).Ok? ==>
      forall i :: 0 <= i < |args| ==> CheckArgs(args, fs, values, locals).value[i] == Check(args[i], fs, values, locals).value
  {
    if args != [] {
      CheckArgsTypes(args[1..], fs, values, locals);
      assert forall i :: 1 <= i < |args| ==> args[1..][i - 1] == args[i];
    }
  }

  /** A call of a name with one implementation type-checks exactly when its
      argument types equal the parameter types, and has the return type. */
  lemma SoleCallTyping(name: string, args: seq<Expression>, ft: FunctionType, fs: FunctionTable,
                       values: map<string, ValueType>, locals: Locals)
    requires name in fs && fs[name] == [ft]
    ensures Check(FunctionCall(name, args), fs, values, locals).Ok? <==>
      CheckArgs(args, fs, values, locals) == Ok(ft.parameterTypes)
    ensures Check(FunctionCall(name, args), fs, values, locals).Ok? ==>
      Check(FunctionCall(name, args), fs, values, locals).value == ft.returnType
  {
  }

  /** With several implementations, a call takes the return type of the
      first implementation whose parameter types equal the argument types,
      and fails when there is none. */
  lemma OverloadTyping(name: string, args: seq<Expression>, fs: FunctionTable,
                       values: map<string, ValueType>, locals: Locals)
    requires name in fs && |fs[name]| != 1 && CheckArgs(args, fs, values, locals).Ok?
    ensures var ats := CheckArgs(args, fs, values, locals).value;
      var res := Check(FunctionCall(name, args), fs, values, locals);
      (res.Ok? <==> exists k :: 0 <= k < |fs[name]| && fs[name][k].parameterTypes == ats) &&
      (res.Ok? ==> exists k ::
                     0 <= k < |fs[name]| && fs[name][k].parameterTypes == ats &&
                     res.value == fs[name][k].returnType &&
                     forall j :: 0 <= j < k ==> fs[name][j].parameterTypes != ats)
  {
    var ats := CheckArgs(args, fs, values, locals).value;
    var i := FirstExact(fs[name], ats);
    if i.Some? {
      assert fs[name][i.value].parameterTypes == ats;
    }
  }

  /** `receiver.m(args)` type-checks exactly as `m(receiver, args..)` does
      when `m` is a declared function. */
  lemma UniformCallTyping(o: Expression, m: string, args: seq<Expression>, fs: FunctionTable,
                          values: map<string, ValueType>, locals: Locals)
    requires m in fs
    ensures Check(MethodCall(o, m, args), fs, values, locals).Ok? <==>
      Check(FunctionCall(m, [o] + args), fs, values, locals).Ok?
    ensures Check(MethodCall(o, m, args), fs, values, locals).Ok? ==>
      Check(MethodCall(o, m, args), fs, values, locals).value == Check(FunctionCall(m, [o] + args), fs, values, locals).value
  {
    var all := [o] + args;
    assert all[0] == o && all[1..] == args;
    var ot := Check(o, fs, values, locals);
    var ats := CheckArgs(args, fs, values, locals);
    if ot.Ok? && ats.Ok? {
      assert CheckArgs(all, fs, values, locals) == Ok([ot.value] + ats.value);
    }
  }

  /** Every arm of an accepted match names the scrutinee's value type and
      has the match's type, with its binding at the value type's parameter
      type. */
  lemma {:induction false} ArmsAgree(arms: seq<MatchArm>, valueName: string, paramType: Type, sofar: Option<Type>,
                                     fs: FunctionTable, values: map<string, ValueType>, locals: Locals)
    requires CheckArms(arms, valueName, paramType, sofar, fs, values, locals).Ok?
    requires arms != [] || sofar.Some?
    ensures var t := CheckArms(arms, valueName, paramType, sofar, fs, values, locals).value;
      t.Some? && forall k :: 0 <= k < |arms| ==>
        arms[k].pattern.ctor == valueName &&
        Check(arms[k].body, fs, values, locals[arms[k].pattern.binding := paramType]) == Ok(t.value)
  {
    if arms != [] {
      var t0 := Check(arms[0].body, fs, values, locals[arms[0].pattern.binding := paramType]);
      ArmsAgree(arms[1..], valueName, paramType, Some(t0.value), fs, values, locals);
      assert forall k :: 1 <= k < |arms| ==> arms[k] == arms[1..][k - 1];
    }
  }

  lemma MatchTyping(s: Expression, arms: seq<MatchArm>, fs: FunctionTable, values: map<string, ValueType>,
                    locals: Locals)
    requires Check(Match(s, arms), fs, values, locals).Ok?
    ensures arms != []
    ensures Check(s, fs, values, locals).Ok? && Check(s, fs, values, locals).value.ValueT?
    ensures var n := Check(s, fs, values, locals).value.name;
      n in values && forall k :: 0 <= k < |arms| ==>
        arms[k].pattern.ctor == n &&
        Check(arms[k].body, fs, values, locals[arms[k].pattern.binding := values[n].parameterType]) ==
          Check(Match(s, arms), fs, values, locals)
  {
    var n := Check(s, fs, values, locals).value.name;
    ArmsAgree(arms, n, values[n].parameterType, None, fs, values, locals);
  }

  // ---------------------------------------------------------------------
  // Concrete consequences
  // ---------------------------------------------------------------------

  function IntLit(n: I64): Expression { Literal(IntegerLit(n)) }

  /** `Any` is no wildcard for the checker: `f(x: Any)` does not accept
      `f(5)`. */
  lemma AnyIsNoWildcard()
    ensures Check(FunctionCall("f", [IntLit(5)]), map["f" := [FunctionType("f", [AnyT], IntT)]], map[], map[]) ==
      Problem(CallParameterMismatch("f", 1))
  {
    var fs := map["f" := [FunctionType("f", [AnyT], IntT)]];
    assert [IntLit(5)][1..] == [];
    assert Check(IntLit(5), fs, map[], map[]) == Ok(IntT);
    assert CheckArgs([], fs, map[], map[]) == Ok([]);
    assert [IntT] + [] == [IntT];
    assert CheckArgs([IntLit(5)], fs, map[], map[]) == Ok([IntT]);
  }

  /** A `let` binding is visible in its body only. */
  lemma LetScope()
    ensures Check(Let("y", IntLit(1), Identifier("y")), map[], map[], map[]) == Ok(IntT)
    ensures Check(Binary(Add, Let("y", IntLit(1), Identifier("y")), Identifier("y")), map[], map[], map[]) ==
      Problem(UndefinedIdentifier("y"))
  {
  }

  /** The checker accepts an ordering of two booleans (both sides have one
      type), which the evaluator rejects. */
  lemma OrderedBooleansAccepted()
    ensures Check(Comparison(Less, Literal(BooleanLit(true)), Literal(BooleanLit(false))), map[], map[], map[]) == Ok(BoolT)
    ensures Eval(0, Comparison(Less, Literal(BooleanLit(true)), Literal(BooleanLit(false))), map[], Registry(map[], map[]), map[]).result ==
      Err(ValidationError(ComparisonTypeMismatch, ""))
  {
  }

  function IdentityF(): FunctionDeclaration
  {
    FunctionDeclaration("id", [ParameterWithGuard("x", IntT, None)], IntT, Identifier("x"))
  }

  /** Declaring the same function twice is accepted; both implementations
      are recorded. */
  lemma DuplicateFunctionAccepted()
    ensures DeclareAll([FunctionDecl(IdentityF()), FunctionDecl(IdentityF())], Env(map[], map[])) ==
      Ok(Env(map["id" := [FunctionType("id", [IntT], IntT), FunctionType("id", [IntT], IntT)]], map[]))
  {
    var ft := FunctionType("id", [IntT], IntT);
    var ds := [FunctionDecl(IdentityF()), FunctionDecl(IdentityF())];
    assert IdentityF().parameters[..0] == [];
    assert ParamLocals(IdentityF().parameters) == map["x" := IntT];
    assert ParamTypes(IdentityF().parameters) == [IntT];
    assert Check(Identifier("x"), map[], map[], map["x" := IntT]) == Ok(IntT);
    assert Check(Identifier("x"), map["id" := [ft]], map[], map["x" := IntT]) == Ok(IntT);
    assert CheckCallable(IdentityF().parameters, IntT, Identifier("x"), Env(map[], map[])) == Ok(());
    assert CheckCallable(IdentityF().parameters, IntT, Identifier("x"), Env(map["id" := [ft]], map[])) == Ok(());
    assert [] + [ft] == [ft];
    assert Append(map[], "id", ft) == map["id" := [ft]];
    assert Append(map["id" := [ft]], "id", ft) == map["id" := [ft] + [ft]];
    assert Declare(ds[0], Env(map[], map[])) == Ok(Env(map["id" := [ft]], map[]));
    assert Declare(ds[1], Env(map["id" := [ft]], map[])) == Ok(Env(map["id" := [ft] + [ft]], map[]));
    var e2 := Env(map["id" := [ft] + [ft]], map[]);
    assert ds[1..][1..] == [];
    assert DeclareAll(ds[1..][1..], e2) == Ok(e2);
    assert DeclareAll(ds[1..], Env(map["id" := [ft]], map[])) == Ok(e2);
    assert [ft] + [ft] == [ft, ft];
  }

  /** A value type cannot be declared twice. */
  lemma ValueRedeclarationRejected(v: ValueDeclaration)
    requires v.body.validate.None? && v.body.normalize.None?
    ensures DeclareAll([ValueDecl(v), ValueDecl(v)], Env(map[], map[])) == Problem(ValueAlreadyDefined(v.name))
  {
    var ds := [ValueDecl(v), ValueDecl(v)];
    assert ds[1..] == [ValueDecl(v)];
    assert Declare(ds[0], Env(map[], map[])) == Ok(Env(map[], map[v.name := ValueTypeOf(v)]));
  }

  // ---------------------------------------------------------------------
  // Type safety of the operator fragment
  // ---------------------------------------------------------------------

  /** Expressions built from literals, variables, operators, comparisons,
      string lengths and `let`. */
  predicate Simple(e: Expression)
  {
    match e
    case Literal(_) => true
    case Identifier(_) => true
    case Binary(_, l, r) => Simple(l) && Simple(r)
    case Unary(_, x) => Simple(x)
    case Comparison(_, l, r) => Simple(l) && Simple(r)
    case MemberAccess(o, _) => Simple(o)
    case Let(_, b, body) => Simple(b) && Simple(body)
    case _ => false
  }

  /** Every local has a run-time value of its static type. */
  predicate Typed(locals: Locals, ctx: Context)
  {
    forall x :: x in locals ==> x in ctx && TypeFromValue(ctx[x]) == locals[x]
  }

  /** The run-time errors a well-typed simple expression can still raise:
      overflow, division or remainder by zero, and a comparison the checker
      allows but the evaluator does not define (booleans ordered, value
      objects, types or lists compared). */
  predicate RuntimeOnly(err: Error)
  {
    err.Panic? || err == ValidationError(DivisionByZero, "") || err == ValidationError(ModuloByZero, "") ||
    err == ValidationError(ComparisonTypeMismatch, "")
  }

  predicate Safe(o: Outcome<EvalValue>, t: Type)
  {
    (o.result.Ok? ==> TypeFromValue(o.result.value) == t) && (o.result.Err? ==> RuntimeOnly(o.result.error))
  }

  /** A simple expression the checker gives type `t`, evaluated where
      every local holds a value of its type, yields a value of type `t` or
      one of the run-time errors above. */
  lemma TypeSafety(fuel: nat, e: Expression, ctx: Context, env: Registry, cache: DispatchCache,
                   fs: FunctionTable, values: map<string, ValueType>, locals: Locals)
    requires Simple(e) && Typed(locals, ctx) && Check(e, fs, values, locals).Ok?
    ensures Safe(Eval(fuel, e, ctx, env, cache), Check(e, fs, values, locals).value)
    decreases Size(e), 1
  {
    match e {
      case Literal(_) =>
      case Identifier(_) =>
      case Binary(op, l, r) => BinarySafety(fuel, op, l, r, ctx, env, cache, fs, values, locals);
      case Unary(op, x) => UnarySafety(fuel, op, x, ctx, env, cache, fs, values, locals);
      case Comparison(op, l, r) => ComparisonSafety(fuel, op, l, r, ctx, env, cache, fs, values, locals);
      case MemberAccess(o, m) => MemberSafety(fuel, o, m, ctx, env, cache, fs, values, locals);
      case Let(x, b, body) => LetSafety(fuel, x, b, body, ctx, env, cache, fs, values, locals);
    }
  }

  lemma BinarySafety(fuel: nat, op: BinaryOp, l: Expression, r: Expression, ctx: Context, env: Registry,
                     cache: DispatchCache, fs: FunctionTable, values: map<string, ValueType>, locals: Locals)
    requires Simple(l) && Simple(r) && Typed(locals, ctx) && Check(Binary(op, l, r), fs, values, locals).Ok?
    ensures Safe(Eval(fuel, Binary(op, l, r), ctx, env, cache), Check(Binary(op, l, r), fs, values, locals).value)
    decreases Size(Binary(op, l, r)), 0
  {
    BinaryTyping(op, l, r, fs, values, locals);
    var lo := Eval(fuel, l, ctx, env, cache);
    TypeSafety(fuel, l, ctx, env, cache, fs, values, locals);
    if lo.result.Ok? {
      var ro := Eval(fuel, r, ctx, env, lo.cache);
      TypeSafety(fuel, r, ctx, env, lo.cache, fs, values, locals);
      if ro.result.Ok? {
        BinaryOpSpec(op, lo.result.value, ro.result.value);
      }
    }
  }

  lemma UnarySafety(fuel: nat, op: UnaryOp, x: Expression, ctx: Context, env: Registry,
                    cache: DispatchCache, fs: FunctionTable, values: map<string, ValueType>, locals: Locals)
    requires Simple(x) && Typed(locals, ctx) && Check(Unary(op, x), fs, values, locals).Ok?
    ensures Safe(Eval(fuel, Unary(op, x), ctx, env, cache), Check(Unary(op, x), fs, values, locals).value)
    decreases Size(Unary(op, x)), 0
  {
    UnaryTyping(op, x, fs, values, locals);
    TypeSafety(fuel, x, ctx, env, cache, fs, values, locals);
  }

  lemma ComparisonSafety(fuel: nat, op: ComparisonOp, l: Expression, r: Expression, ctx: Context, env: Registry,
                         cache: DispatchCache, fs: FunctionTable, values: map<string, ValueType>, locals: Locals)
    requires Simple(l) && Simple(r) && Typed(locals, ctx) && Check(Comparison(op, l, r), fs, values, locals).Ok?
    ensures Safe(Eval(fuel, Comparison(op, l, r), ctx, env, cache), Check(Comparison(op, l, r), fs, values, locals).value)
    decreases Size(Comparison(op, l, r)), 0
  {
    ComparisonTyping(op, l, r, fs, values, locals);
    var lo := Eval(fuel, l, ctx, env, cache);
    TypeSafety(fuel, l, ctx, env, cache, fs, values, locals);
    if lo.result.Ok? {
      TypeSafety(fuel, r, ctx, env, lo.cache, fs, values, locals);
    }
  }

  lemma MemberSafety(fuel: nat, o: Expression, m: string, ctx: Context, env: Registry,
                     cache: DispatchCache, fs: FunctionTable, values: map<string, ValueType>, locals: Locals)
    requires Simple(o) && Typed(locals, ctx) && Check(MemberAccess(o, m), fs, values, locals).Ok?
    ensures Safe(Eval(fuel, MemberAccess(o, m), ctx, env, cache), Check(MemberAccess(o, m), fs, values, locals).value)
    decreases Size(MemberAccess(o, m)), 0
  {
    TypeSafety(fuel, o, ctx, env, cache, fs, values, locals);
  }

  lemma LetTyping(x: string, b: Expression, body: Expression, fs: FunctionTable, values: map<string, ValueType>, locals: Locals)
    ensures Check(Let(x, b, body), fs, values, locals).Ok? ==>
      Check(b, fs, values, locals).Ok? &&
      Check(body, fs, values, locals[x := Check(b, fs, values, locals).value]) == Check(Let(x, b, body), fs, values, locals)
  {
  }

  lemma LetSafety(fuel: nat, x: string, b: Expression, body: Expression, ctx: Context, env: Registry,
                  cache: DispatchCache, fs: FunctionTable, values: map<string, ValueType>, locals: Locals)
    requires Simple(b) && Simple(body) && Typed(locals, ctx) && Check(Let(x, b, body), fs, values, locals).Ok?
    ensures Safe(Eval(fuel, Let(x, b, body), ctx, env, cache), Check(Let(x, b, body), fs, values, locals).value)
    decreases Size(Let(x, b, body)), 0
  {
    var bo := Eval(fuel, b, ctx, env, cache);
    LetTyping(x, b, body, fs, values, locals);
    TypeSafety(fuel, b, ctx, env, cache, fs, values, locals);
    if bo.result.Ok? {
      var bt := Check(b, fs, values, locals).value;
      assert Typed(locals[x := bt], ctx[x := bo.result.value]);
      TypeSafety(fuel, body, ctx[x := bo.result.value], env, bo.cache, fs, values, locals[x := bt]);
    }
  }
}
