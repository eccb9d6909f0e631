/**
 * The evaluator that consults compile-time specialisations
 * (src/optimized_evaluator.rs). Function and method calls whose inferred
 * argument types have a cached specialisation run the cached
 * implementation's body directly; every other call and every other
 * expression form goes to the plain evaluator. The dispatch cache of the
 * plain evaluator is threaded through as in `Evaluator`; the specialisation
 * cache is only read.
 */
module OptimizedEvaluator {
  import opened Wrappers
  import opened Ast
  import opened Errors
  import opened Ascii
  import opened Evaluator
  import opened Specialization

  type TypeEnv = map<string, Type>

  /** `infer_runtime_type`: literals by kind; an identifier from the type
      environment, else from the type of its run-time value, else
      `Unknown`; a call whose name starts with an upper-case letter is taken
      to build a value of that name; anything else is `Unknown`. */
  function InferRuntimeType(e: Expression, ctx: Context, tenv: TypeEnv): (t: Type)
    ensures e.Literal? ==> t == LiteralType(e.lit)
    ensures e.Identifier? && e.name in tenv ==> t == tenv[e.name]
    ensures e.Identifier? && e.name !in tenv ==>
      t == (if e.name in ctx then TypeFromValue(ctx[e.name]) else UnknownT)
    ensures e.FunctionCall? ==> t == (if |e.fname| > 0 && IsUpper(e.fname[0]) then ValueT(e.fname) else UnknownT)
    ensures !(e.Literal? || e.Identifier? || e.FunctionCall?) ==> t == UnknownT
  {
    match e
    case Literal(lit) => LiteralType(lit)
    case Identifier(x) =>
      if x in tenv then tenv[x]
      else if x in ctx then TypeFromValue(ctx[x])
      else UnknownT
    case FunctionCall(name, _) =>
      if |name| > 0 && IsUpper(name[0]) then ValueT(name) else UnknownT
    case _ => UnknownT
  }

  function InferRuntimeTypes(es: seq<Expression>, ctx: Context, tenv: TypeEnv): (ts: seq<Type>)
    ensures |ts| == |es| && forall i :: 0 <= i < |es| ==> ts[i] == InferRuntimeType(es[i], ctx, tenv)
  {
    if es == [] then [] else [InferRuntimeType(es[0], ctx, tenv)] + InferRuntimeTypes(es[1..], ctx, tenv)
  }

  /** The implementation a specialisation points at, when the name is
      registered and the cached index is in range. */
  function Specialized(spec: map<SpecKey, nat>, env: Registry, name: string, types: seq<Type>)
    : (r: Option<FunctionDeclaration>)
    ensures r.Some? <==> (SpecKey(name, types) in spec && name in env.functions &&
      spec[SpecKey(name, types)] < |env.functions[name]|)
    ensures r.Some? ==> r.value == env.functions[name][spec[SpecKey(name, types)]]
  {
    var key := SpecKey(name, types);
    if key in spec && name in env.functions && spec[key] < |env.functions[name]| then
      Some(env.functions[name][spec[key]])
    else None
  }

  /** `evaluate_expression_optimized`. */
  function EvalOpt(fuel: nat, e: Expression, ctx: Context, env: Registry, spec: map<SpecKey, nat>,
                   tenv: TypeEnv, cache: DispatchCache): Outcome<EvalValue>
    decreases fuel, Size(e), 0
  {
    match e
    case FunctionCall(name, args) =>
      var ao := EvalOptArgs(fuel, args, ctx, env, spec, tenv, cache);
      if ao.result.Err? then Outcome(Err(ao.result.error), ao.cache)
      else
        var target := Specialized(spec, env, name, InferRuntimeTypes(args, ctx, tenv));
        if target.None? then Eval(fuel, e, ctx, env, ao.cache)
        else if fuel == 0 then Outcome(Err(OutOfFuel), ao.cache)
        else
          var f := target.value;
          EvalOpt(fuel - 1, f.body, Bind(f.parameters, ao.result.value), env, spec, tenv, ao.cache)
    case MethodCall(recv, m, args) =>
      var ro := EvalOpt(fuel, recv, ctx, env, spec, tenv, cache);
      if ro.result.Err? then ro
      else
        var ao := EvalOptArgs(fuel, args, ctx, env, spec, tenv, ro.cache);
        if ao.result.Err? then Outcome(Err(ao.result.error), ao.cache)
        else
          var types := [InferRuntimeType(recv, ctx, tenv)] + InferRuntimeTypes(args, ctx, tenv);
          var target := Specialized(spec, env, m, types);
          if target.None? then
            SizeListCons(recv, args);
            Eval(fuel, FunctionCall(m, [recv] + args), ctx, env, ao.cache)
          else if fuel == 0 then Outcome(Err(OutOfFuel), ao.cache)
          else
            var f := target.value;
            EvalOpt(fuel - 1, f.body, Bind(f.parameters, [ro.result.value] + ao.result.value),
                    env, spec, tenv, ao.cache)
    case Binary(op, l, r) =>
      var lo := EvalOpt(fuel, l, ctx, env, spec, tenv, cache);
      if lo.result.Err? then lo
      else
        var ro := EvalOpt(fuel, r, ctx, env, spec, tenv, lo.cache);
        if ro.result.Err? then ro
        else Outcome(ApplyBinary(op, lo.result.value, ro.result.value), ro.cache)
    case Let(x, b, body) =>
      var bo := EvalOpt(fuel, b, ctx, env, spec, tenv, cache);
      if bo.result.Err? then bo
      else
        var v := bo.result.value;
        EvalOpt(fuel, body, ctx[x := v], env, spec, tenv[x := TypeFromValue(v)], bo.cache)
    case _ => Eval(fuel, e, ctx, env, cache)
  }

  /** The argument loop: left to right, the first error stops. */
  function EvalOptArgs(fuel: nat, args: seq<Expression>, ctx: Context, env: Registry,
                       spec: map<SpecKey, nat>, tenv: TypeEnv, cache: DispatchCache)
    : (o: Outcome<seq<EvalValue>>)
    ensures o.result.Ok? ==> |o.result.value| == |args|
    decreases fuel, SizeList(args), 1
  {
    if args == [] then Outcome(Ok([]), cache)
    else
      var first := EvalOpt(fuel, args[0], ctx, env, spec, tenv, cache);
      if first.result.Err? then Outcome(Err(first.result.error), first.cache)
      else
        var rest := EvalOptArgs(fuel, args[1..], ctx, env, spec, tenv, first.cache);
        if rest.result.Err? then rest
        else Outcome(Ok([first.result.value] + rest.result.value), rest.cache)
  }
}
