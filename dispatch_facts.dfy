/**
 * How the three ways of choosing an implementation relate: run-time
 * dispatch (`Evaluator`), compile-time specialisation (`Specialization`)
 * and the optimised evaluator's fast path that trusts the specialisation
 * cache (`OptimizedEvaluator`).
 */
module DispatchFacts {
  import opened Wrappers
  import opened Ast
  import opened Errors
  import opened Ranking
  import opened Evaluator
  import opened Specialization
  import opened OptimizedEvaluator
  import opened EvaluatorFacts

  // ---------------------------------------------------------------------
  // Static and dynamic scores and types
  // ---------------------------------------------------------------------

  /** The number of guarded parameters. */
  function GuardCount(params: seq<ParameterWithGuard>): (n: nat)
    ensures n <= |params|
  {
    if params == [] then 0
    else GuardCount(params[..|params| - 1]) + (if params[|params| - 1].guard.Some? then 1 else 0)
  }

  /** When every parameter is paired with an argument, run-time dispatch
      scores an implementation exactly one point per guarded parameter
      higher than specialisation does (2 per guard against 1). */
  lemma {:induction false} DynamicScoreIsStaticPlusGuards(params: seq<ParameterWithGuard>, n: nat)
    requires |params| <= n
    ensures Specificity(params, n) == StaticScore(params) + GuardCount(params)
  {
    if params != [] {
      DynamicScoreIsStaticPlusGuards(params[..|params| - 1], n);
    }
  }

  /** The static type of each run-time value. */
  function RuntimeTypes(vals: seq<EvalValue>): (ts: seq<Type>)
    ensures |ts| == |vals| && forall i :: 0 <= i < |vals| ==> ts[i] == TypeFromValue(vals[i])
  {
    if vals == [] then [] else [TypeFromValue(vals[0])] + RuntimeTypes(vals[1..])
  }

  /** On the run-time type of a value, static compatibility and dynamic
      matching agree, except that an `Unknown` parameter is compatible but
      matches nothing, and `Type` and list parameters match their kind of
      value but are never statically compatible. */
  lemma CompatibleVersusMatches(p: Type, v: EvalValue)
    ensures p != UnknownT && p != TypeT && !p.ListT? ==>
      (TypesCompatible(p, TypeFromValue(v)) <==> MatchesType(p, v))
    ensures p == UnknownT ==> TypesCompatible(p, TypeFromValue(v)) && !MatchesType(p, v)
    ensures p == TypeT || p.ListT? ==> !TypesCompatible(p, TypeFromValue(v))
    ensures p == TypeT ==> (MatchesType(p, v) <==> v.TypeVal?)
    ensures p.ListT? ==> (MatchesType(p, v) <==> v.ListVal?)
  {
    match p {
      case ListT(_) =>
        assert TypeFromValue(v) != UnknownT;
      case _ =>
    }
  }

  /** No parameter is declared `Unknown`, `Type` or a list. */
  predicate PlainParameters(params: seq<ParameterWithGuard>)
  {
    forall k :: 0 <= k < |params| ==> params[k].ty != UnknownT && params[k].ty != TypeT && !params[k].ty.ListT?
  }

  /** For declarations with plain parameter types, an implementation is
      applicable to the argument values exactly when it is statically
      compatible with their run-time types. */
  lemma ApplicableIffCompatible(f: FunctionDeclaration, vals: seq<EvalValue>)
    requires PlainParameters(f.parameters)
    ensures Applicable(f, vals) <==> AllCompatible(f.parameters, RuntimeTypes(vals))
  {
    var ts := RuntimeTypes(vals);
    if |f.parameters| == |vals| {
      forall k | 0 <= k < |vals|
        ensures TypesCompatible(f.parameters[k].ty, ts[k]) <==> MatchesType(f.parameters[k].ty, vals[k])
      {
        CompatibleVersusMatches(f.parameters[k].ty, vals[k]);
      }
    }
  }

  // ---------------------------------------------------------------------
  // Soundness of the static inference
  // ---------------------------------------------------------------------

  /** Every name the type environment knows is bound in the context to a
      value of that type. */
  predicate Agrees(tenv: map<string, Type>, ctx: Context)
  {
    forall x :: x in tenv ==> x in ctx && tenv[x] == TypeFromValue(ctx[x])
  }

  /** A known type inferred for an expression is the type of the value it
      evaluates to. */
  lemma InferenceSound(fuel: nat, e: Expression, ctx: Context, env: Registry, cache: DispatchCache,
                       tenv: map<string, Type>)
    requires Agrees(tenv, ctx)
    requires Eval(fuel, e, ctx, env, cache).result.Ok? && InferExpressionType(e, tenv) != UnknownT
    ensures TypeFromValue(Eval(fuel, e, ctx, env, cache).result.value) == InferExpressionType(e, tenv)
  {
    match e {
      case Binary(op, l, r) =>
        var lo := Eval(fuel, l, ctx, env, cache);
        var ro := Eval(fuel, r, ctx, env, lo.cache);
        BinaryOpSpec(op, lo.result.value, ro.result.value);
      case Unary(op, x) =>
      case Comparison(op, l, r) =>
      case Literal(lit) =>
      case Identifier(x) =>
      case TypeLiteral(n) =>
      case _ =>
    }
  }

  /** The same for the optimised evaluator's run-time inference, on the
      forms it does not guess at (a call is guessed from its name). */
  lemma RuntimeInferenceSound(fuel: nat, e: Expression, ctx: Context, env: Registry, cache: DispatchCache,
                              tenv: TypeEnv)
    requires Agrees(tenv, ctx) && !e.FunctionCall?
    requires Eval(fuel, e, ctx, env, cache).result.Ok? && InferRuntimeType(e, ctx, tenv) != UnknownT
    ensures TypeFromValue(Eval(fuel, e, ctx, env, cache).result.value) == InferRuntimeType(e, ctx, tenv)
  {
  }

  // ---------------------------------------------------------------------
  // The optimised evaluator
  // ---------------------------------------------------------------------

  /** A method call that misses the specialisation cache is evaluated by
      the plain evaluator as the call `m(receiver, args..)`; the receiver
      and arguments already evaluated by the optimised evaluator are
      evaluated again. */
  lemma MethodCallMiss(fuel: nat, recv: Expression, m: string, args: seq<Expression>, ctx: Context,
                       env: Registry, spec: map<SpecKey, nat>, tenv: TypeEnv, cache: DispatchCache)
    requires EvalOpt(fuel, recv, ctx, env, spec, tenv, cache).result.Ok?
    requires EvalOptArgs(fuel, args, ctx, env, spec, tenv, EvalOpt(fuel, recv, ctx, env, spec, tenv, cache).cache).result.Ok?
    requires Specialized(spec, env, m, [InferRuntimeType(recv, ctx, tenv)] + InferRuntimeTypes(args, ctx, tenv)).None?
    ensures
      var after := EvalOptArgs(fuel, args, ctx, env, spec, tenv, EvalOpt(fuel, recv, ctx, env, spec, tenv, cache).cache).cache;
      EvalOpt(fuel, MethodCall(recv, m, args), ctx, env, spec, tenv, cache) ==
        Eval(fuel, FunctionCall(m, [recv] + args), ctx, env, after)
  {
  }

  /** A function call that misses the specialisation cache is the plain
      evaluator's call, after the arguments have been evaluated once. */
  lemma FunctionCallMiss(fuel: nat, name: string, args: seq<Expression>, ctx: Context,
                         env: Registry, spec: map<SpecKey, nat>, tenv: TypeEnv, cache: DispatchCache)
    requires EvalOptArgs(fuel, args, ctx, env, spec, tenv, cache).result.Ok?
    requires Specialized(spec, env, name, InferRuntimeTypes(args, ctx, tenv)).None?
    ensures EvalOpt(fuel, FunctionCall(name, args), ctx, env, spec, tenv, cache) ==
      Eval(fuel, FunctionCall(name, args), ctx, env, EvalOptArgs(fuel, args, ctx, env, spec, tenv, cache).cache)
  {
  }

  /** A fast-path hit runs the cached implementation's body on the
      arguments, with no arity, type or guard check. */
  lemma FunctionCallHit(fuel: nat, name: string, args: seq<Expression>, ctx: Context,
                        env: Registry, spec: map<SpecKey, nat>, tenv: TypeEnv, cache: DispatchCache)
    requires fuel > 0
    requires EvalOptArgs(fuel, args, ctx, env, spec, tenv, cache).result.Ok?
    requires Specialized(spec, env, name, InferRuntimeTypes(args, ctx, tenv)).Some?
    ensures
      var ao := EvalOptArgs(fuel, args, ctx, env, spec, tenv, cache);
      var f := env.functions[name][spec[SpecKey(name, InferRuntimeTypes(args, ctx, tenv))]];
      EvalOpt(fuel, FunctionCall(name, args), ctx, env, spec, tenv, cache) ==
        EvalOpt(fuel - 1, f.body, Bind(f.parameters, ao.result.value), env, spec, tenv, ao.cache)
  {
  }

  /** A `let` runs its body with the bound value added to the context and
      that value's type added to the type environment, so an environment
      that agrees with the context still agrees inside the body, where the
      bound name is inferred at the type of its value. */
  lemma LetExtendsBoth(fuel: nat, x: string, b: Expression, body: Expression, ctx: Context, env: Registry,
                       spec: map<SpecKey, nat>, tenv: TypeEnv, cache: DispatchCache)
    requires Agrees(tenv, ctx)
    requires EvalOpt(fuel, b, ctx, env, spec, tenv, cache).result.Ok?
    ensures var bo := EvalOpt(fuel, b, ctx, env, spec, tenv, cache);
      var v := bo.result.value;
      Agrees(tenv[x := TypeFromValue(v)], ctx[x := v]) &&
      InferRuntimeType(Identifier(x), ctx[x := v], tenv[x := TypeFromValue(v)]) == TypeFromValue(v) &&
      EvalOpt(fuel, Let(x, b, body), ctx, env, spec, tenv, cache) ==
        EvalOpt(fuel, body, ctx[x := v], env, spec, tenv[x := TypeFromValue(v)], bo.cache)
  {
  }

  // ---------------------------------------------------------------------
  // Concrete consequences
  // ---------------------------------------------------------------------

  lemma OptArgsLiteral(fuel: nat, n: I64, ctx: Context, env: Registry, spec: map<SpecKey, nat>,
                       tenv: TypeEnv, cache: DispatchCache)
    ensures EvalOptArgs(fuel, [Literal(IntegerLit(n))], ctx, env, spec, tenv, cache) ==
      Outcome(Ok([IntegerVal(n)]), cache)
  {
    var args := [Literal(IntegerLit(n))];
    assert args[1..] == [];
    assert EvalOptArgs(fuel, [], ctx, env, spec, tenv, cache) == Outcome(Ok([]), cache);
    assert [IntegerVal(n)] + [] == [IntegerVal(n)];
    assert EvalOpt(fuel, args[0], ctx, env, spec, tenv, cache) == Outcome(Ok(IntegerVal(n)), cache);
  }

  lemma OptArgsLiterals(fuel: nat, a: I64, b: I64, ctx: Context, env: Registry, spec: map<SpecKey, nat>,
                        tenv: TypeEnv, cache: DispatchCache)
    ensures EvalOptArgs(fuel, [Literal(IntegerLit(a)), Literal(IntegerLit(b))], ctx, env, spec, tenv, cache) ==
      Outcome(Ok([IntegerVal(a), IntegerVal(b)]), cache)
  {
    var args := [Literal(IntegerLit(a)), Literal(IntegerLit(b))];
    assert args[1..] == [Literal(IntegerLit(b))];
    OptArgsLiteral(fuel, b, ctx, env, spec, tenv, cache);
    assert EvalOpt(fuel, args[0], ctx, env, spec, tenv, cache) == Outcome(Ok(IntegerVal(a)), cache);
    assert [IntegerVal(a)] + [IntegerVal(b)] == [IntegerVal(a), IntegerVal(b)];
  }

  /** The specialisation of `f` for an `Int` argument (see `EvaluatorFacts`
      for the two implementations of `f`). */
  function SpecF(): map<SpecKey, nat> { map[SpecKey("f", [IntT]) := 1] }

  lemma StaticScoresOfF()
    ensures StaticScore(PlainF().parameters) == 3
    ensures StaticScore(GuardedF().parameters) == 4
  {
    assert PlainF().parameters[..0] == [];
    assert GuardedF().parameters[..0] == [];
  }

  lemma DecideF()
    ensures Decide([PlainF(), GuardedF()], [IntT]) == Some(1)
  {
    var fns := [PlainF(), GuardedF()];
    StaticScoresOfF();
    assert AllCompatible(PlainF().parameters, [IntT]) && AllCompatible(GuardedF().parameters, [IntT]);
    assert fns[..1] == [PlainF()];
    assert [PlainF()][..0] == [];
    assert StaticCandidates([PlainF()], [IntT]) == [Candidate(0, 3)];
    var cs := StaticCandidates(fns, [IntT]);
    assert cs == [Candidate(0, 3), Candidate(1, 4)];
    assert MaxScore(cs) == 4;
    assert Resolve(cs) == Winner(1);
  }

  lemma SpecFSound()
    ensures Sound(SpecF(), TwoFs().functions)
  {
    DecideF();
  }

  /** With `SpecF` the fast path runs the guarded `f` for every integer. */
  lemma OptRunF(n: I64)
    ensures EvalOpt(2, CallF(n), map[], TwoFs(), SpecF(), map[], map[]) == Outcome(Ok(IntegerVal(1)), map[])
  {
    var args := [Literal(IntegerLit(n))];
    OptArgsLiteral(2, n, map[], TwoFs(), SpecF(), map[], map[]);
    assert InferRuntimeTypes(args, map[], map[]) == [IntT];
    assert Specialized(SpecF(), TwoFs(), "f", [IntT]) == Some(GuardedF());
    BindX(GuardedF(), n);
    assert EvalOpt(2, CallF(n), map[], TwoFs(), SpecF(), map[], map[]) ==
      EvalOpt(1, Literal(IntegerLit(1)), XIs(n), TwoFs(), SpecF(), map[], map[]);
  }

  /** Specialisation never evaluates guards, so it resolves `f` on an
      `Int` argument to the guarded implementation; the optimised evaluator
      then runs it for `f(-5)` and yields 1, although its guard `x > 0` is
      false and run-time dispatch from an empty cache yields 0
      (`EvaluatorFacts.CacheHitSkipsGuard`). */
  lemma StaticChoiceIgnoresGuard()
    ensures Decide([PlainF(), GuardedF()], [IntT]) == Some(1) && Sound(SpecF(), TwoFs().functions)
    ensures EvalOpt(2, CallF(-5), map[], TwoFs(), SpecF(), map[], map[]).result == Ok(IntegerVal(1))
    ensures Eval(2, CallF(-5), map[], TwoFs(), map[]).result == Ok(IntegerVal(0))
  {
    DecideF();
    SpecFSound();
    OptRunF(-5);
    CacheHitSkipsGuard();
  }

  // A lone implementation `g(x: Int) => x`.

  function LoneG(): FunctionDeclaration
  {
    FunctionDeclaration("g", [ParameterWithGuard("x", IntT, None)], IntT, Identifier("x"))
  }

  function OneG(): Registry { Registry(map[], map["g" := [LoneG()]]) }

  function SpecG(): map<SpecKey, nat> { map[SpecKey("g", [IntT, IntT]) := 0] }

  function CallG(a: I64, b: I64): Expression
  {
    FunctionCall("g", [Literal(IntegerLit(a)), Literal(IntegerLit(b))])
  }

  lemma EvalArgsLiterals(fuel: nat, a: I64, b: I64, env: Registry, cache: DispatchCache)
    ensures EvalArgs(fuel, [Literal(IntegerLit(a)), Literal(IntegerLit(b))], map[], env, cache) ==
      Outcome(Ok([IntegerVal(a), IntegerVal(b)]), cache)
  {
    var args := [Literal(IntegerLit(a)), Literal(IntegerLit(b))];
    assert args[1..] == [Literal(IntegerLit(b))];
    assert args[1..][1..] == [];
    assert EvalArgs(fuel, [], map[], env, cache) == Outcome(Ok([]), cache);
    assert [IntegerVal(b)] + [] == [IntegerVal(b)];
    assert [IntegerVal(a)] + [IntegerVal(b)] == [IntegerVal(a), IntegerVal(b)];
    assert Eval(fuel, args[1], map[], env, cache) == Outcome(Ok(IntegerVal(b)), cache);
    assert EvalArgs(fuel, args[1..], map[], env, cache) == Outcome(Ok([IntegerVal(b)]), cache);
    assert Eval(fuel, args[0], map[], env, cache) == Outcome(Ok(IntegerVal(a)), cache);
  }

  /** Specialisation caches index 0 for a lone implementation whatever the
      argument types, and the fast path binds parameters to arguments pair by
      pair without comparing their numbers: `g(a, b)` runs `g`'s body with
      `x = a`, where the plain evaluator reports an arity error. */
  lemma FastPathSkipsArity(a: I64, b: I64)
    ensures Sound(SpecG(), OneG().functions)
    ensures EvalOpt(1, CallG(a, b), map[], OneG(), SpecG(), map[], map[]).result == Ok(IntegerVal(a))
    ensures Eval(1, CallG(a, b), map[], OneG(), map[]).result ==
      Err(ValidationError(FunctionArity("g", 1, 2), "function"))
  {
    var args := [Literal(IntegerLit(a)), Literal(IntegerLit(b))];
    OptArgsLiterals(1, a, b, map[], OneG(), SpecG(), map[], map[]);
    assert InferRuntimeTypes(args, map[], map[]) == [IntT, IntT];
    assert Specialized(SpecG(), OneG(), "g", [IntT, IntT]) == Some(LoneG());
    var ctx := Bind(LoneG().parameters, [IntegerVal(a), IntegerVal(b)]);
    assert LoneG().parameters[..0] == [];
    assert ctx == map["x" := IntegerVal(a)];
    assert EvalOpt(1, CallG(a, b), map[], OneG(), SpecG(), map[], map[]) ==
      EvalOpt(0, Identifier("x"), ctx, OneG(), SpecG(), map[], map[]);
    EvalArgsLiterals(1, a, b, OneG(), map[]);
    assert Eval(1, CallG(a, b), map[], OneG(), map[]) ==
      EvalCall(1, "g", [IntegerVal(a), IntegerVal(b)], OneG(), map[]);
  }
}
