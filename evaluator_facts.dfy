/**
 * Properties of the evaluator in src/evaluator.rs that relate several
 * evaluations: the rewrites behind uniform call syntax and pipelines, the
 * candidate filter, the score arithmetic, and how the dispatch cache can
 * answer differently from a fresh resolution.
 */
module EvaluatorFacts {
  import opened Wrappers
  import opened Ast
  import opened Errors
  import opened Evaluator
  import opened Ranking

  // ---------------------------------------------------------------------
  // Argument lists
  // ---------------------------------------------------------------------

  /** Evaluating `[e] + es` evaluates `e` first and then `es` with the cache
      `e` left behind. */
  lemma EvalArgsCons(fuel: nat, e: Expression, es: seq<Expression>, ctx: Context, env: Registry,
                     cache: DispatchCache)
    ensures EvalArgs(fuel, [e] + es, ctx, env, cache) ==
      var first := Eval(fuel, e, ctx, env, cache);
      if first.result.Err? then Outcome(Err(first.result.error), first.cache)
      else
        var rest := EvalArgs(fuel, es, ctx, env, first.cache);
        if rest.result.Err? then rest
        else Outcome(Ok([first.result.value] + rest.result.value), rest.cache)
  {
    assert ([e] + es)[0] == e;
    assert ([e] + es)[1..] == es;
  }

  /** The literal a value becomes in a pipeline evaluates back to the value
      itself, in any context, leaving the cache alone. */
  lemma LiteralRoundTrip(fuel: nat, v: EvalValue, ctx: Context, env: Registry, cache: DispatchCache)
    requires ValueToExpression(v).Ok?
    ensures Eval(fuel, ValueToExpression(v).value, ctx, env, cache) == Outcome(Ok(v), cache)
  {
  }

  // ---------------------------------------------------------------------
  // Uniform call syntax and pipelines
  // ---------------------------------------------------------------------

  /** `obj.m(a1..an)`, when `m` is a registered function and the receiver
      is not a bare type name or an unbound name, is the call `m(obj,
      a1..an)`: the receiver is evaluated first, then the arguments, and
      `m` is called on all of them. */
  lemma UniformCallSyntax(fuel: nat, o: Expression, m: string, args: seq<Expression>,
                          ctx: Context, env: Registry, cache: DispatchCache)
    requires m in env.functions
    requires !(o.Identifier? && (o.name in env.constructors || o.name !in ctx))
    ensures Eval(fuel, MethodCall(o, m, args), ctx, env, cache) ==
      Eval(fuel, FunctionCall(m, [o] + args), ctx, env, cache)
    ensures Eval(fuel, MethodCall(o, m, args), ctx, env, cache) ==
      var ro := Eval(fuel, o, ctx, env, cache);
      if ro.result.Err? then Outcome(Err(ro.result.error), ro.cache)
      else
        var ao := EvalArgs(fuel, args, ctx, env, ro.cache);
        if ao.result.Err? then Outcome(Err(ao.result.error), ao.cache)
        else EvalCall(fuel, m, [ro.result.value] + ao.result.value, env, ao.cache)
  {
    EvalArgsCons(fuel, o, args, ctx, env, cache);
  }

  /** A call evaluates its arguments, then calls. */
  lemma CallEval(fuel: nat, f: string, args: seq<Expression>, ctx: Context, env: Registry, cache: DispatchCache)
    ensures Eval(fuel, FunctionCall(f, args), ctx, env, cache) ==
      var ao := EvalArgs(fuel, args, ctx, env, cache);
      if ao.result.Err? then Outcome(Err(ao.result.error), ao.cache)
      else EvalCall(fuel, f, ao.result.value, env, ao.cache)
  {
  }

  /** `a |> f(b1..bn)` is the call `f(a, b1..bn)` once `a` has a literal
      form. */
  lemma PipelineIsCall(fuel: nat, a: Expression, f: string, bs: seq<Expression>,
                       ctx: Context, env: Registry, cache: DispatchCache)
    requires
      var lo := Eval(fuel, a, ctx, env, cache);
      lo.result.Ok? && !lo.result.value.ValueObj? && !lo.result.value.ListVal?
    ensures
      var lo := Eval(fuel, a, ctx, env, cache);
      var ao := EvalArgs(fuel, bs, ctx, env, lo.cache);
      Eval(fuel, Pipeline(a, FunctionCall(f, bs)), ctx, env, cache) ==
        if ao.result.Err? then Outcome(Err(ao.result.error), ao.cache)
        else EvalCall(fuel, f, [lo.result.value] + ao.result.value, env, ao.cache)
  {
    var lo := Eval(fuel, a, ctx, env, cache);
    var lit := ValueToExpression(lo.result.value).value;
    LiteralRoundTrip(fuel, lo.result.value, ctx, env, lo.cache);
    EvalArgsCons(fuel, lit, bs, ctx, env, lo.cache);
    CallEval(fuel, f, [lit] + bs, ctx, env, lo.cache);
    assert Eval(fuel, Pipeline(a, FunctionCall(f, bs)), ctx, env, cache) ==
      Eval(fuel, FunctionCall(f, [lit] + bs), ctx, env, lo.cache);
  }

  /** `a |> f` is the call `f(a)`. */
  lemma PipelineIsUnaryCall(fuel: nat, a: Expression, f: string, ctx: Context, env: Registry,
                            cache: DispatchCache)
    requires
      var lo := Eval(fuel, a, ctx, env, cache);
      lo.result.Ok? && !lo.result.value.ValueObj? && !lo.result.value.ListVal?
    ensures
      var lo := Eval(fuel, a, ctx, env, cache);
      Eval(fuel, Pipeline(a, Identifier(f)), ctx, env, cache) ==
        EvalCall(fuel, f, [lo.result.value], env, lo.cache)
  {
    var lo := Eval(fuel, a, ctx, env, cache);
    var lit := ValueToExpression(lo.result.value).value;
    LiteralRoundTrip(fuel, lo.result.value, ctx, env, lo.cache);
    EvalArgsCons(fuel, lit, [], ctx, env, lo.cache);
    CallEval(fuel, f, [lit], ctx, env, lo.cache);
    assert [lit] + [] == [lit];
    assert EvalArgs(fuel, [], ctx, env, lo.cache) == Outcome(Ok([]), lo.cache);
    assert [lo.result.value] + [] == [lo.result.value];
  }

  /** Piping a value object or a list is an error: neither has a literal
      form. */
  lemma PipelineRejectsCompound(fuel: nat, a: Expression, target: Expression,
                                ctx: Context, env: Registry, cache: DispatchCache)
    requires
      var lo := Eval(fuel, a, ctx, env, cache);
      lo.result.Ok? && (lo.result.value.ValueObj? || lo.result.value.ListVal?)
    requires target.Identifier? || target.FunctionCall?
    ensures
      var lo := Eval(fuel, a, ctx, env, cache);
      var r := Eval(fuel, Pipeline(a, target), ctx, env, cache);
      var v := lo.result.value;
      r.cache == lo.cache &&
      (v.ValueObj? ==> r.result == Err(ValidationError(ValueNotExpressible(v.typeName), v.typeName))) &&
      (v.ListVal? ==> r.result == Err(ValidationError(ListNotExpressible, "List")))
  {
  }

  // ---------------------------------------------------------------------
  // A single implementation
  // ---------------------------------------------------------------------

  /** With exactly one implementation, a call of the right arity runs its
      body in a context that binds just the parameters, with no type or
      guard check; any other arity is an error. */
  lemma SingleImplementation(fuel: nat, name: string, vals: seq<EvalValue>, env: Registry,
                             cache: DispatchCache)
    requires !(name == "all" && |vals| == 1) && name !in env.constructors
    requires name in env.functions && |env.functions[name]| == 1
    ensures
      var f := env.functions[name][0];
      var r := EvalCall(fuel, name, vals, env, cache);
      (|vals| != |f.parameters| ==>
        r == Outcome(Err(ValidationError(FunctionArity(name, |f.parameters|, |vals|), "function")), cache)) &&
      (|vals| == |f.parameters| && fuel > 0 ==>
        r == Eval(fuel - 1, f.body, Bind(f.parameters, vals), env, cache) &&
        forall x :: x in Bind(f.parameters, vals) <==> exists i :: 0 <= i < |vals| && f.parameters[i].name == x)
  {
  }

  // ---------------------------------------------------------------------
  // Candidates
  // ---------------------------------------------------------------------

  /** The cache under which guard `k` of `params` is evaluated when the
      guards from `j` on are run in order: each guarded parameter before `k`
      leaves the cache of its own evaluation to the next. */
  ghost function GuardCache(fuel: nat, params: seq<ParameterWithGuard>, j: nat, k: nat, gctx: Context,
                            env: Registry, cache: DispatchCache): DispatchCache
    requires fuel > 0 && j <= k <= |params|
    decreases k - j
  {
    if j == k then cache
    else if params[j].guard.None? then GuardCache(fuel, params, j + 1, k, gctx, env, cache)
    else GuardCache(fuel, params, j + 1, k, gctx, env, Eval(fuel - 1, params[j].guard.value, gctx, env, cache).cache)
  }

  /** Parameter `k` has no guard, or its guard, evaluated under the cache
      threaded from `j`, yields the boolean `true`. */
  ghost predicate GuardTrue(fuel: nat, params: seq<ParameterWithGuard>, j: nat, k: nat, gctx: Context,
                            env: Registry, cache: DispatchCache)
    requires fuel > 0 && j <= k < |params|
  {
    params[k].guard.None? ||
    Eval(fuel - 1, params[k].guard.value, gctx, env, GuardCache(fuel, params, j, k, gctx, env, cache)).result
      == Ok(BooleanVal(true))
  }

  /** Every guard from `j` on yields `true` under the cache the earlier
      guards left. */
  ghost predicate AllGuardsTrue(fuel: nat, params: seq<ParameterWithGuard>, j: nat, gctx: Context,
                                env: Registry, cache: DispatchCache)
    requires fuel > 0 && j <= |params|
  {
    forall k :: j <= k < |params| ==> GuardTrue(fuel, params, j, k, gctx, env, cache)
  }

  /** Guard `k` is the first from `j` on that does not yield `true`. */
  ghost predicate FirstFailingGuard(fuel: nat, params: seq<ParameterWithGuard>, j: nat, k: nat, gctx: Context,
                                    env: Registry, cache: DispatchCache)
    requires fuel > 0 && j <= |params|
  {
    j <= k < |params| && !GuardTrue(fuel, params, j, k, gctx, env, cache) &&
    forall m :: j <= m < k ==> GuardTrue(fuel, params, j, m, gctx, env, cache)
  }

  /** Running the guards from `j` is running guard `j` and then the guards
      from `j + 1` under the cache guard `j` left. */
  lemma GuardTrueStep(fuel: nat, params: seq<ParameterWithGuard>, j: nat, gctx: Context,
                      env: Registry, cache: DispatchCache)
    requires fuel > 0 && j < |params|
    ensures var next := GuardCache(fuel, params, j, j + 1, gctx, env, cache);
      next == (if params[j].guard.None? then cache
               else Eval(fuel - 1, params[j].guard.value, gctx, env, cache).cache) &&
      (forall k :: j < k <= |params| ==>
        GuardCache(fuel, params, j, k, gctx, env, cache) == GuardCache(fuel, params, j + 1, k, gctx, env, next)) &&
      (forall k :: j < k < |params| ==>
        (GuardTrue(fuel, params, j, k, gctx, env, cache) <==> GuardTrue(fuel, params, j + 1, k, gctx, env, next))) &&
      (AllGuardsTrue(fuel, params, j, gctx, env, cache) <==>
        GuardTrue(fuel, params, j, j, gctx, env, cache) && AllGuardsTrue(fuel, params, j + 1, gctx, env, next))
  {
    var next := GuardCache(fuel, params, j, j + 1, gctx, env, cache);
    var j1 := j + 1;
    var first := if params[j].guard.None? then cache
                 else Eval(fuel - 1, params[j].guard.value, gctx, env, cache).cache;
    assert next == GuardCache(fuel, params, j1, j1, gctx, env, first) == first;
    forall k | j1 <= k <= |params|
      ensures GuardCache(fuel, params, j, k, gctx, env, cache) == GuardCache(fuel, params, j1, k, gctx, env, next)
    {
    }
    if AllGuardsTrue(fuel, params, j1, gctx, env, next) && GuardTrue(fuel, params, j, j, gctx, env, cache) {
      forall k | j <= k < |params|
        ensures GuardTrue(fuel, params, j, k, gctx, env, cache)
      {
        if k > j {
          assert GuardTrue(fuel, params, j1, k, gctx, env, next);
        }
      }
    }
    if AllGuardsTrue(fuel, params, j, gctx, env, cache) {
      forall k | j1 <= k < |params|
        ensures GuardTrue(fuel, params, j1, k, gctx, env, next)
      {
        assert GuardTrue(fuel, params, j, k, gctx, env, cache);
      }
    }
  }

  /** The guard check holds exactly when every guard from `j` on yields
      `true` under the cache the earlier guards left, and then leaves the
      cache of the last guard; otherwise it stops at the first guard that
      does not, and leaves that guard's cache. */
  lemma {:induction false} GuardsHoldIff(fuel: nat, params: seq<ParameterWithGuard>, j: nat, gctx: Context,
                                         env: Registry, cache: DispatchCache)
    requires fuel > 0 && j <= |params|
    ensures var o := GuardsHold(fuel, params, j, gctx, env, cache);
      o.result == Ok(true) <==> AllGuardsTrue(fuel, params, j, gctx, env, cache)
    ensures var o := GuardsHold(fuel, params, j, gctx, env, cache);
      o.result == Ok(true) ==> o.cache == GuardCache(fuel, params, j, |params|, gctx, env, cache)
    ensures var o := GuardsHold(fuel, params, j, gctx, env, cache);
      o.result == Ok(false) ==>
        exists k: nat :: FirstFailingGuard(fuel, params, j, k, gctx, env, cache) &&
          o.cache == Eval(fuel - 1, params[k].guard.value, gctx, env, GuardCache(fuel, params, j, k, gctx, env, cache)).cache
    decreases |params| - j
  {
    if j < |params| {
      var o := GuardsHold(fuel, params, j, gctx, env, cache);
      GuardTrueStep(fuel, params, j, gctx, env, cache);
      if !GuardTrue(fuel, params, j, j, gctx, env, cache) {
        assert FirstFailingGuard(fuel, params, j, j, gctx, env, cache);
      } else {
        var next := GuardCache(fuel, params, j, j + 1, gctx, env, cache);
        assert o == GuardsHold(fuel, params, j + 1, gctx, env, next);
        GuardsHoldIff(fuel, params, j + 1, gctx, env, next);
        if o.result == Ok(false) {
          var k: nat :| FirstFailingGuard(fuel, params, j + 1, k, gctx, env, next) &&
            o.cache == Eval(fuel - 1, params[k].guard.value, gctx, env, GuardCache(fuel, params, j + 1, k, gctx, env, next)).cache;
          assert FirstFailingGuard(fuel, params, j, k, gctx, env, cache);
        }
      }
    }
  }

  /** The cache under which the candidate loop, started at position `i`,
      runs the guards of the implementation at position `x`: every
      applicable implementation before it has had its guards run. */
  ghost function CacheBefore(fuel: nat, fns: seq<FunctionDeclaration>, i: nat, vals: seq<EvalValue>,
                             env: Registry, cache: DispatchCache, x: nat): DispatchCache
    requires fuel > 0 && i <= x <= |fns|
    decreases x - i
  {
    if i == x then cache
    else if !Applicable(fns[i], vals) then CacheBefore(fuel, fns, i + 1, vals, env, cache, x)
    else
      var g := GuardsHold(fuel, fns[i].parameters, 0, Bind(fns[i].parameters, vals), env, cache);
      CacheBefore(fuel, fns, i + 1, vals, env, g.cache, x)
  }

  /** A survivor other than the head is a survivor of the tail. */
  lemma ListedConsOther(c: Candidate, cands: seq<Candidate>, x: nat)
    requires c.index != x
    ensures Listed([c] + cands, x) <==> Listed(cands, x)
  {
    ListedCons(c, cands);
    if Listed([c] + cands, x) {
      var k :| 0 <= k < |[c] + cands| && ([c] + cands)[k].index == x;
      assert k > 0 && cands[k - 1] == ([c] + cands)[k];
    }
  }

  /** An implementation at or after `lo` is never named by survivors that
      all lie after it. */
  lemma NotListedBelow(cands: seq<Candidate>, fns: seq<FunctionDeclaration>, vals: seq<EvalValue>, lo: nat, x: nat)
    requires Survivors(cands, fns, vals, lo) && x < lo
    ensures !Listed(cands, x)
  {
    forall k | 0 <= k < |cands|
      ensures cands[k].index != x
    {
      assert GoodCandidate(cands[k], fns, vals, lo);
    }
  }

  /** The guard half of the candidate loop: the implementation at `x`
      survives exactly when it accepts the arguments by arity and type and
      its guard check, run under the cache the earlier implementations left,
      holds; and the loop leaves the cache of the last guard it ran. */
  lemma {:induction false} CandidatesListedIff(fuel: nat, fns: seq<FunctionDeclaration>, i: nat, vals: seq<EvalValue>,
                                               env: Registry, cache: DispatchCache, x: nat)
    requires fuel > 0 && i <= x < |fns|
    ensures Listed(Candidates(fuel, fns, i, vals, env, cache).cands, x) <==>
      Applicable(fns[x], vals) &&
      GuardsHold(fuel, fns[x].parameters, 0, Bind(fns[x].parameters, vals), env,
                 CacheBefore(fuel, fns, i, vals, env, cache, x)).result == Ok(true)
    decreases x - i
  {
    var f := fns[i];
    var next := if !Applicable(f, vals) then cache
                else GuardsHold(fuel, f.parameters, 0, Bind(f.parameters, vals), env, cache).cache;
    var rest := Candidates(fuel, fns, i + 1, vals, env, next);
    if i == x {
      NotListedBelow(rest.cands, fns, vals, i + 1, x);
      if Applicable(f, vals) {
        var g := GuardsHold(fuel, f.parameters, 0, Bind(f.parameters, vals), env, cache);
        if g.result == Ok(true) {
          ListedCons(Candidate(i, Specificity(f.parameters, |vals|)), rest.cands);
        }
      }
    } else {
      CandidatesListedIff(fuel, fns, i + 1, vals, env, next, x);
      if Applicable(f, vals) {
        ListedConsOther(Candidate(i, Specificity(f.parameters, |vals|)), rest.cands, x);
      }
    }
  }

  /** The cache the candidate loop leaves is the one reached after the
      guards of every applicable implementation have run. */
  lemma {:induction false} CandidatesCache(fuel: nat, fns: seq<FunctionDeclaration>, i: nat, vals: seq<EvalValue>,
                                           env: Registry, cache: DispatchCache)
    requires fuel > 0 && i <= |fns|
    ensures Candidates(fuel, fns, i, vals, env, cache).cache == CacheBefore(fuel, fns, i, vals, env, cache, |fns|)
    decreases |fns| - i
  {
    if i < |fns| {
      var f := fns[i];
      var next := if !Applicable(f, vals) then cache
                  else GuardsHold(fuel, f.parameters, 0, Bind(f.parameters, vals), env, cache).cache;
      CandidatesCache(fuel, fns, i + 1, vals, env, next);
    }
  }

  /** An implementation with a guard that does not evaluate to `true` under
      the cache threaded through the guards before it, an error included,
      is dropped: no survivor names it. */
  lemma FailingGuardExcludes(fuel: nat, fns: seq<FunctionDeclaration>, i: nat, k: nat,
                             vals: seq<EvalValue>, env: Registry, cache: DispatchCache)
    requires fuel > 0 && i < |fns| && k < |fns[i].parameters|
    requires !GuardTrue(fuel, fns[i].parameters, 0, k, Bind(fns[i].parameters, vals), env, cache)
    ensures !Listed(Candidates(fuel, fns, i, vals, env, cache).cands, i)
  {
    var f := fns[i];
    GuardsHoldIff(fuel, f.parameters, 0, Bind(f.parameters, vals), env, cache);
    CandidatesListedIff(fuel, fns, i, vals, env, cache, i);
  }

  // ---------------------------------------------------------------------
  // Scores
  // ---------------------------------------------------------------------

  /** Changing one parameter changes the specificity by exactly the
      difference of the two parameter scores. */
  lemma {:induction false} SpecificityUpdate(params: seq<ParameterWithGuard>, n: nat, i: nat,
                                             p: ParameterWithGuard)
    requires i < |params| && i < n
    ensures Specificity(params[i := p], n) + ParamScore(params[i]) == Specificity(params, n) + ParamScore(p)
  {
    var last := |params| - 1;
    if i < last {
      assert params[i := p][..last] == params[..last][i := p];
      SpecificityUpdate(params[..last], n, i, p);
    } else {
      assert params[i := p][..last] == params[..last];
    }
  }

  /** Guarding a parameter makes an implementation exactly 2 more specific;
      declaring it `Any` instead of a concrete type makes it 2 less. */
  lemma GuardAndAnyScores(params: seq<ParameterWithGuard>, n: nat, i: nat, g: Expression)
    requires i < |params| && i < n && params[i].guard.None?
    ensures Specificity(params[i := params[i].(guard := Some(g))], n) == Specificity(params, n) + 2
    ensures params[i].ty !in {AnyT, UnknownT} ==>
      Specificity(params[i := params[i].(ty := AnyT)], n) + 2 == Specificity(params, n)
  {
    SpecificityUpdate(params, n, i, params[i].(guard := Some(g)));
    SpecificityUpdate(params, n, i, params[i].(ty := AnyT));
  }

  // ---------------------------------------------------------------------
  // The dispatch cache
  // ---------------------------------------------------------------------

  /** A cache hit runs the stored implementation directly. */
  lemma CacheHitRunsStored(fuel: nat, name: string, fns: seq<FunctionDeclaration>, vals: seq<EvalValue>,
                           env: Registry, cache: DispatchCache)
    requires fuel > 0 && CacheHit(cache, name, fns, vals)
    ensures
      var f := fns[cache[CreateDispatchKey(name, vals)]];
      Dispatch(fuel, name, fns, vals, env, cache) ==
        Eval(fuel - 1, f.body, Bind(f.parameters, vals), env, cache)
  {
  }

  /** Two argument lists with the same type tags share a cache entry. */
  lemma SameTagsSameKey(name: string, a: seq<EvalValue>, b: seq<EvalValue>)
    requires |a| == |b| && forall i :: 0 <= i < |a| ==> TypeSignature(a[i]) == TypeSignature(b[i])
    ensures CreateDispatchKey(name, a) == CreateDispatchKey(name, b)
  {
  }

  // A concrete program: `f(x: Int) => 0` and `f(x: Int) where x > 0 => 1`.

  function PositiveGuard(): Expression { Comparison(Greater, Identifier("x"), Literal(IntegerLit(0))) }

  function PlainF(): FunctionDeclaration
  {
    FunctionDeclaration("f", [ParameterWithGuard("x", IntT, None)], IntT, Literal(IntegerLit(0)))
  }

  function GuardedF(): FunctionDeclaration
  {
    FunctionDeclaration("f", [ParameterWithGuard("x", IntT, Some(PositiveGuard()))], IntT, Literal(IntegerLit(1)))
  }

  function TwoFs(): Registry { Registry(map[], map["f" := [PlainF(), GuardedF()]]) }

  function CallF(n: I64): Expression { FunctionCall("f", [Literal(IntegerLit(n))]) }

  function XIs(n: I64): Context { map["x" := IntegerVal(n)] }

  function KeyF(): DispatchKey { DispatchKey("f", ["Int"]) }

  lemma KeyOfF(n: I64)
    ensures CreateDispatchKey("f", [IntegerVal(n)]) == KeyF()
  {
    assert Signatures([IntegerVal(n)]) == ["Int"];
  }

  lemma EvalCallF(fuel: nat, n: I64, cache: DispatchCache)
    ensures Eval(fuel, CallF(n), map[], TwoFs(), cache) ==
      EvalCall(fuel, "f", [IntegerVal(n)], TwoFs(), cache)
  {
    var args := [Literal(IntegerLit(n))];
    assert args[1..] == [];
    assert EvalArgs(fuel, [], map[], TwoFs(), cache) == Outcome(Ok([]), cache);
    assert Eval(fuel, args[0], map[], TwoFs(), cache) == Outcome(Ok(IntegerVal(n)), cache);
    assert [IntegerVal(n)] + [] == [IntegerVal(n)];
    assert EvalArgs(fuel, args, map[], TwoFs(), cache) == Outcome(Ok([IntegerVal(n)]), cache);
  }

  lemma BindX(d: FunctionDeclaration, n: I64)
    requires |d.parameters| == 1 && d.parameters[0].name == "x"
    ensures Bind(d.parameters, [IntegerVal(n)]) == XIs(n)
  {
    assert d.parameters[..0] == [];
  }

  lemma GuardValue(fuel: nat, n: I64, cache: DispatchCache)
    ensures Eval(fuel, PositiveGuard(), XIs(n), TwoFs(), cache) == Outcome(Ok(BooleanVal(n > 0)), cache)
  {
    assert Eval(fuel, Identifier("x"), XIs(n), TwoFs(), cache) == Outcome(Ok(IntegerVal(n)), cache);
    assert Eval(fuel, Literal(IntegerLit(0)), XIs(n), TwoFs(), cache) == Outcome(Ok(IntegerVal(0)), cache);
  }

  lemma GuardsOfGuarded(n: I64, cache: DispatchCache)
    ensures GuardsHold(2, GuardedF().parameters, 0, XIs(n), TwoFs(), cache) == Outcome(Ok(n > 0), cache)
  {
    GuardValue(1, n, cache);
    assert GuardsHold(2, GuardedF().parameters, 1, XIs(n), TwoFs(), cache) == Outcome(Ok(true), cache);
  }

  lemma GuardsOfPlain(n: I64, cache: DispatchCache)
    ensures GuardsHold(2, PlainF().parameters, 0, XIs(n), TwoFs(), cache) == Outcome(Ok(true), cache)
  {
    assert GuardsHold(2, PlainF().parameters, 1, XIs(n), TwoFs(), cache) == Outcome(Ok(true), cache);
  }

  lemma ScoresOfF(n: I64)
    ensures Specificity(PlainF().parameters, 1) == 3
    ensures Specificity(GuardedF().parameters, 1) == 5
  {
    assert PlainF().parameters[..0] == [];
    assert GuardedF().parameters[..0] == [];
  }

  lemma CandidatesOfF(n: I64, cache: DispatchCache)
    ensures Candidates(2, [PlainF(), GuardedF()], 0, [IntegerVal(n)], TwoFs(), cache) ==
      Collected(if n > 0 then [Candidate(0, 3), Candidate(1, 5)] else [Candidate(0, 3)], cache)
  {
    var fns := [PlainF(), GuardedF()];
    var vals := [IntegerVal(n)];
    BindX(PlainF(), n);
    BindX(GuardedF(), n);
    GuardsOfPlain(n, cache);
    GuardsOfGuarded(n, cache);
    ScoresOfF(n);
    assert Applicable(PlainF(), vals) && Applicable(GuardedF(), vals);
    assert Candidates(2, fns, 2, vals, TwoFs(), cache) == Collected([], cache);
    assert Candidates(2, fns, 1, vals, TwoFs(), cache) ==
      Collected(if n > 0 then [Candidate(1, 5)] else [], cache);
  }

  /** Selection for `f(n)` with no cache entry: the guarded `f` wins when its
      guard holds, the plain one otherwise, and the winner is cached. */
  lemma FreshSelection(n: I64, cache: DispatchCache)
    requires KeyF() !in cache
    ensures
      var i := if n > 0 then 1 else 0;
      Select(2, "f", [PlainF(), GuardedF()], [IntegerVal(n)], TwoFs(), cache) == Selection(Ok(i), cache[KeyF() := i])
  {
    KeyOfF(n);
    CandidatesOfF(n, cache);
    if n > 0 {
      assert Resolve([Candidate(0, 3), Candidate(1, 5)]) == Winner(1) by {
        assert MaxScore([Candidate(0, 3), Candidate(1, 5)]) == 5;
      }
    } else {
      assert Resolve([Candidate(0, 3)]) == Winner(0);
    }
  }

  lemma DispatchFFresh(n: I64, cache: DispatchCache)
    requires KeyF() !in cache
    ensures
      var i := if n > 0 then 1 else 0;
      Dispatch(2, "f", [PlainF(), GuardedF()], [IntegerVal(n)], TwoFs(), cache) ==
        Outcome(Ok(IntegerVal(i)), cache[KeyF() := i])
  {
    var fns := [PlainF(), GuardedF()];
    var i := if n > 0 then 1 else 0;
    var after := cache[KeyF() := i];
    FreshSelection(n, cache);
    BindX(fns[i], n);
    assert Dispatch(2, "f", fns, [IntegerVal(n)], TwoFs(), cache) ==
      Eval(1, fns[i].body, XIs(n), TwoFs(), after);
    assert fns[i].body == Literal(IntegerLit(i));
  }

  lemma RunFFresh(n: I64, cache: DispatchCache)
    requires KeyF() !in cache
    ensures
      var i := if n > 0 then 1 else 0;
      EvalCall(2, "f", [IntegerVal(n)], TwoFs(), cache) == Outcome(Ok(IntegerVal(i)), cache[KeyF() := i])
  {
    DispatchFFresh(n, cache);
    assert EvalCall(2, "f", [IntegerVal(n)], TwoFs(), cache) ==
      Dispatch(2, "f", [PlainF(), GuardedF()], [IntegerVal(n)], TwoFs(), cache);
  }

  lemma RunFHit(n: I64, cache: DispatchCache)
    requires KeyF() in cache && cache[KeyF()] == 1
    ensures EvalCall(2, "f", [IntegerVal(n)], TwoFs(), cache) == Outcome(Ok(IntegerVal(1)), cache)
  {
    KeyOfF(n);
    assert Select(2, "f", [PlainF(), GuardedF()], [IntegerVal(n)], TwoFs(), cache) == Selection(Ok(1), cache);
  }

  /** The dispatch cache is keyed by type tags only, so a hit can run an
      implementation whose guard is false for the current arguments: after
      `f(5)` has chosen the guarded `f`, `f(-5)` runs it too and yields 1,
      although the guard `x > 0` is false for -5 and resolving `f(-5)` afresh
      chooses the plain `f`, which yields 0. */
  lemma CacheHitSkipsGuard()
    ensures Eval(2, CallF(5), map[], TwoFs(), map[]) == Outcome(Ok(IntegerVal(1)), map[KeyF() := 1])
    ensures Eval(2, CallF(-5), map[], TwoFs(), map[KeyF() := 1]).result == Ok(IntegerVal(1))
    ensures Eval(2, CallF(-5), map[], TwoFs(), map[]).result == Ok(IntegerVal(0))
    ensures Eval(1, PositiveGuard(), XIs(-5), TwoFs(), map[]).result == Ok(BooleanVal(false))
  {
    EvalCallF(2, 5, map[]);
    EvalCallF(2, -5, map[]);
    EvalCallF(2, -5, map[KeyF() := 1]);
    RunFFresh(5, map[]);
    RunFFresh(-5, map[]);
    RunFHit(-5, map[KeyF() := 1]);
    GuardValue(1, -5, map[]);
  }
}
