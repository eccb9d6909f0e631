/**
 * Compile-time specialisation (src/specialization.rs): for a call whose
 * argument types are all known statically, choose the implementation that
 * run-time dispatch would most likely choose, and remember the choice in a
 * cache keyed by the function name and the argument types.
 *
 * The static choice never evaluates guards: a guarded parameter only adds 1
 * to the score (run-time dispatch adds 2 and evaluates the guard).
 */
module Specialization {
  import opened Wrappers
  import opened Ast
  import opened Ranking

  datatype SpecKey = SpecKey(functionName: string, argTypes: seq<Type>)

  /** A call site resolved to one implementation of `functionName`. */
  datatype SpecializedCall = SpecializedCall(functionName: string, argTypes: seq<Type>, targetFunction: nat)

  // ---------------------------------------------------------------------
  // Static compatibility and scores
  // ---------------------------------------------------------------------

  /** `types_compatible`: whether an argument of static type `a` may be
      passed to a parameter declared `p`. `Any` accepts everything, the
      primitive types and value types accept only themselves, and `Unknown`
      on either side is accepted; `Type` and list parameters accept nothing
      known. */
  function TypesCompatible(p: Type, a: Type): (r: bool)
    ensures p == AnyT || a == UnknownT || p == UnknownT ==> r
    ensures p in {IntT, StringT, BoolT} && a != UnknownT ==> (r <==> a == p)
    ensures p.ValueT? && a != UnknownT ==> (r <==> a == p)
    ensures (p == TypeT || p.ListT?) && a != UnknownT ==> !r
  {
    match (p, a)
    case (AnyT, _) => true
    case (IntT, IntT) => true
    case (StringT, StringT) => true
    case (BoolT, BoolT) => true
    case (ValueT(n1), ValueT(n2)) => n1 == n2
    case (_, UnknownT) => true
    case (UnknownT, _) => true
    case _ => false
  }

  /** `type_specificity`: 3 for concrete types, 1 for `Any`, 0 for
      `Unknown`. */
  function TypeSpecificity(t: Type): (s: nat)
    ensures s == 0 <==> t == UnknownT
    ensures s == 1 <==> t == AnyT
    ensures t != AnyT && t != UnknownT ==> s == 3
  {
    match t
    case AnyT => 1
    case UnknownT => 0
    case _ => 3
  }

  /** Every parameter is compatible with the argument type at its position. */
  predicate AllCompatible(params: seq<ParameterWithGuard>, argTypes: seq<Type>)
  {
    |params| == |argTypes| &&
    forall k :: 0 <= k < |params| ==> TypesCompatible(params[k].ty, argTypes[k])
  }

  /** The static score of a declaration: the sum of its parameters' type
      specificities plus 1 per guarded parameter. */
  function StaticScore(params: seq<ParameterWithGuard>): (s: nat)
    ensures s <= 4 * |params|
  {
    if params == [] then 0
    else
      var p := params[|params| - 1];
      StaticScore(params[..|params| - 1]) + TypeSpecificity(p.ty) + (if p.guard.Some? then 1 else 0)
  }

  /** The inner loop of `try_specialize` over one declaration: stop at the
      first incompatible parameter; otherwise accumulate the score. */
  method ScoreIfCompatible(params: seq<ParameterWithGuard>, argTypes: seq<Type>)
    returns (compatible: bool, specificity: nat)
    requires |params| == |argTypes|
    ensures compatible == AllCompatible(params, argTypes)
    ensures compatible ==> specificity == StaticScore(params)
  {
    compatible, specificity := true, 0;
    var i := 0;
    while i < |params|
      invariant 0 <= i <= |params|
      invariant compatible && specificity == StaticScore(params[..i])
      invariant forall k :: 0 <= k < i ==> TypesCompatible(params[k].ty, argTypes[k])
    {
      if !TypesCompatible(params[i].ty, argTypes[i]) {
        compatible := false;
        break;
      }
      assert params[..i + 1][..i] == params[..i];
      specificity := specificity + TypeSpecificity(params[i].ty);
      if params[i].guard.Some? {
        specificity := specificity + 1;
      }
      i := i + 1;
    }
    if compatible {
      assert params[..i] == params;
    }
  }

  // ---------------------------------------------------------------------
  // The static choice
  // ---------------------------------------------------------------------

  /** A candidate names a compatible declaration and carries its score. */
  predicate StaticallyGood(c: Candidate, fns: seq<FunctionDeclaration>, argTypes: seq<Type>)
  {
    c.index < |fns| && AllCompatible(fns[c.index].parameters, argTypes) &&
    c.score == StaticScore(fns[c.index].parameters)
  }

  /** The candidates, in declaration order: every compatible declaration of
      the right arity, with its static score. */
  function StaticCandidates(fns: seq<FunctionDeclaration>, argTypes: seq<Type>): (cs: seq<Candidate>)
    ensures forall k :: 0 <= k < |cs| ==> StaticallyGood(cs[k], fns, argTypes)
    ensures forall x :: 0 <= x < |fns| && AllCompatible(fns[x].parameters, argTypes) ==>
      exists k :: 0 <= k < |cs| && cs[k].index == x
  {
    if fns == [] then []
    else
      var n := |fns| - 1;
      var front := StaticCandidates(fns[..n], argTypes);
      assert forall k :: 0 <= k < n ==> fns[..n][k] == fns[k];
      if AllCompatible(fns[n].parameters, argTypes) then
        var cs := front + [Candidate(n, StaticScore(fns[n].parameters))];
        assert cs[|front|].index == n;
        assert forall k :: 0 <= k < |front| ==> cs[k] == front[k];
        cs
      else front
  }

  /** The index `try_specialize` settles on when nothing is cached: a lone
      implementation is chosen whatever the argument types; otherwise the
      unique best-scoring compatible one, or nothing. */
  function Decide(fns: seq<FunctionDeclaration>, argTypes: seq<Type>): (r: Option<nat>)
    ensures r.Some? ==> r.value < |fns|
    ensures |fns| == 1 ==> r == Some(0)
    ensures |fns| != 1 && r.Some? ==>
      AllCompatible(fns[r.value].parameters, argTypes) &&
      forall x :: 0 <= x < |fns| && x != r.value && AllCompatible(fns[x].parameters, argTypes) ==>
        StaticScore(fns[x].parameters) < StaticScore(fns[r.value].parameters)
    ensures |fns| != 1 && r.None? ==>
      (forall x :: 0 <= x < |fns| ==> !AllCompatible(fns[x].parameters, argTypes)) ||
      exists x, y :: 0 <= x < y < |fns| && AllCompatible(fns[x].parameters, argTypes) &&
        AllCompatible(fns[y].parameters, argTypes) &&
        StaticScore(fns[x].parameters) == StaticScore(fns[y].parameters)
  {
    if |fns| == 1 then Some(0)
    else
      var cs := StaticCandidates(fns, argTypes);
      match Resolve(cs)
      case Winner(i) =>
        WinnerBeatsAll(cs, fns, argTypes, i);
        Some(i)
      case _ =>
        TieOrEmpty(cs, fns, argTypes);
        None
  }

  lemma WinnerBeatsAll(cs: seq<Candidate>, fns: seq<FunctionDeclaration>, argTypes: seq<Type>, i: nat)
    requires cs == StaticCandidates(fns, argTypes) && Resolve(cs) == Winner(i)
    ensures i < |fns| && AllCompatible(fns[i].parameters, argTypes)
    ensures forall x :: 0 <= x < |fns| && x != i && AllCompatible(fns[x].parameters, argTypes) ==>
      StaticScore(fns[x].parameters) < StaticScore(fns[i].parameters)
  {
    var t :| IsTop(cs, t) && cs[t].index == i &&
      forall j :: 0 <= j < |cs| && j != t ==> cs[j].score < cs[t].score;
    assert StaticallyGood(cs[t], fns, argTypes);
    forall x | 0 <= x < |fns| && x != i && AllCompatible(fns[x].parameters, argTypes)
      ensures StaticScore(fns[x].parameters) < StaticScore(fns[i].parameters)
    {
      var k :| 0 <= k < |cs| && cs[k].index == x;
      assert StaticallyGood(cs[k], fns, argTypes);
    }
  }

  lemma TieOrEmpty(cs: seq<Candidate>, fns: seq<FunctionDeclaration>, argTypes: seq<Type>)
    requires cs == StaticCandidates(fns, argTypes) && !Resolve(cs).Winner?
    ensures (forall x :: 0 <= x < |fns| ==> !AllCompatible(fns[x].parameters, argTypes)) ||
      exists x, y :: 0 <= x < y < |fns| && AllCompatible(fns[x].parameters, argTypes) &&
        AllCompatible(fns[y].parameters, argTypes) &&
        StaticScore(fns[x].parameters) == StaticScore(fns[y].parameters)
  {
    if cs != [] {
      var i, j :| 0 <= i < j < |cs| && IsTop(cs, i) && cs[j].score == cs[i].score;
      assert StaticallyGood(cs[i], fns, argTypes) && StaticallyGood(cs[j], fns, argTypes);
      StaticCandidatesOrdered(fns, argTypes, i, j);
      var x, y := cs[i].index, cs[j].index;
      assert AllCompatible(fns[x].parameters, argTypes) && AllCompatible(fns[y].parameters, argTypes);
    }
  }

  /** Candidates appear in increasing declaration order. */
  lemma {:induction false} StaticCandidatesOrdered(fns: seq<FunctionDeclaration>, argTypes: seq<Type>, i: nat, j: nat)
    requires i < j < |StaticCandidates(fns, argTypes)|
    ensures StaticCandidates(fns, argTypes)[i].index < StaticCandidates(fns, argTypes)[j].index
  {
    var n := |fns| - 1;
    var front := StaticCandidates(fns[..n], argTypes);
    if j < |front| {
      StaticCandidatesOrdered(fns[..n], argTypes, i, j);
    } else {
      assert StaticallyGood(front[i], fns[..n], argTypes);
    }
  }

  /** The candidate loop of `try_specialize`: in declaration order, each
      declaration of the right arity whose parameters are all compatible,
      with its static score. */
  method CollectCandidates(fns: seq<FunctionDeclaration>, argTypes: seq<Type>) returns (candidates: seq<Candidate>)
    ensures candidates == StaticCandidates(fns, argTypes)
  {
    candidates := [];
    var idx := 0;
    while idx < |fns|
      invariant 0 <= idx <= |fns|
      invariant candidates == StaticCandidates(fns[..idx], argTypes)
    {
      assert fns[..idx + 1][..idx] == fns[..idx];
      if |fns[idx].parameters| == |argTypes| {
        var compatible, specificity := ScoreIfCompatible(fns[idx].parameters, argTypes);
        if compatible {
          candidates := candidates + [Candidate(idx, specificity)];
        }
      }
      idx := idx + 1;
    }
    assert fns[..idx] == fns;
  }

  /** Every cached index is what `Decide` gives for its key under the
      current function table. */
  predicate Sound(cache: map<SpecKey, nat>, functions: map<string, seq<FunctionDeclaration>>)
  {
    forall k :: k in cache ==>
      k.functionName in functions && Decide(functions[k.functionName], k.argTypes) == Some(cache[k])
  }

  /** No argument type is `Unknown`. */
  predicate Known(ts: seq<Type>)
  {
    forall k :: 0 <= k < |ts| ==> ts[k] != UnknownT
  }

  // ---------------------------------------------------------------------
  // The cache
  // ---------------------------------------------------------------------

  class SpecializationCache {
    var cache: map<SpecKey, nat>

    constructor()
      ensures cache == map[]
    {
      cache := map[];
    }

    /** `get_specialization`: the cached index for these argument types. */
    function GetSpecialization(name: string, argTypes: seq<Type>): (r: Option<nat>)
      reads this
      ensures r.Some? <==> SpecKey(name, argTypes) in cache
      ensures r.Some? ==> r.value == cache[SpecKey(name, argTypes)]
    {
      var key := SpecKey(name, argTypes);
      if key in cache then Some(cache[key]) else None
    }

    /** `try_specialize`. A cached answer is returned as it is, without
        looking at the function table. Otherwise an unknown name gives
        nothing; a lone implementation gives index 0; several are ranked by
        static score, a tie or no compatible candidate gives nothing, and
        only a definite answer is cached. */
    method TrySpecialize(name: string, argTypes: seq<Type>, functions: map<string, seq<FunctionDeclaration>>)
      returns (r: Option<SpecializedCall>)
      modifies this
      ensures var key := SpecKey(name, argTypes);
        if key in old(cache) then
          r == Some(SpecializedCall(name, argTypes, old(cache)[key])) && cache == old(cache)
        else if name !in functions then
          r == None && cache == old(cache)
        else match Decide(functions[name], argTypes)
          case Some(i) => r == Some(SpecializedCall(name, argTypes, i)) && cache == old(cache)[key := i]
          case None => r == None && cache == old(cache)
      ensures old(Sound(cache, functions)) ==> Sound(cache, functions)
      ensures r.Some? ==> GetSpecialization(name, argTypes) == Some(r.value.targetFunction)
    {
      var key := SpecKey(name, argTypes);
      if key in cache {
        return Some(SpecializedCall(name, argTypes, cache[key]));
      }
      if name !in functions {
        return None;
      }
      var fns := functions[name];
      if |fns| == 1 {
        cache := cache[key := 0];
        return Some(SpecializedCall(name, argTypes, 0));
      }
      var candidates := CollectCandidates(fns, argTypes);
      var choice := RankCandidates(candidates);
      assert Decide(fns, argTypes) == if choice.Winner? then Some(choice.index) else None;
      if choice.Winner? {
        cache := cache[key := choice.index];
        r := Some(SpecializedCall(name, argTypes, choice.index));
      } else {
        r := None;
      }
    }
  }

  // ---------------------------------------------------------------------
  // Static inference and the specialisation pass
  // ---------------------------------------------------------------------

  /** `infer_expression_type`: literals by kind, arithmetic and unary minus
      `Int`, logical operators, `not` and comparisons `Bool`, type literals
      `Type`, identifiers from the environment; anything else `Unknown`. */
  function InferExpressionType(e: Expression, tenv: map<string, Type>): (t: Type)
    ensures e.Literal? ==> t == LiteralType(e.lit)
    ensures e.Binary? ==> t == (if e.bop in {And, Or} then BoolT else IntT)
    ensures e.Unary? ==> t == (if e.uop == Not then BoolT else IntT)
    ensures e.Comparison? ==> t == BoolT
    ensures e.TypeLiteral? ==> t == TypeT
    ensures e.Identifier? ==> t == (if e.name in tenv then tenv[e.name] else UnknownT)
    ensures e.FunctionCall? || e.MethodCall? || e.MemberAccess? || e.Pipeline? || e.Let? || e.Match? ==>
      t == UnknownT
  {
    match e
    case Literal(lit) => LiteralType(lit)
    case Identifier(x) => if x in tenv then tenv[x] else UnknownT
    case Binary(op, _, _) => if op in {And, Or} then BoolT else IntT
    case Unary(op, _) => if op == Not then BoolT else IntT
    case Comparison(_, _, _) => BoolT
    case TypeLiteral(_) => TypeT
    case _ => UnknownT
  }

  function InferTypes(es: seq<Expression>, tenv: map<string, Type>): (ts: seq<Type>)
    ensures |ts| == |es| && forall i :: 0 <= i < |es| ==> ts[i] == InferExpressionType(es[i], tenv)
  {
    if es == [] then [] else [InferExpressionType(es[0], tenv)] + InferTypes(es[1..], tenv)
  }

  /** The cache only grows: existing entries keep their indices. */
  twostate predicate Extends(sc: SpecializationCache)
    reads sc
  {
    forall k :: k in old(sc.cache) ==> k in sc.cache && sc.cache[k] == old(sc.cache)[k]
  }

  /** Every entry added since the earlier state has only known types. */
  twostate predicate NewKeysKnown(sc: SpecializationCache)
    reads sc
  {
    forall k :: k in sc.cache && k !in old(sc.cache) ==> Known(k.argTypes)
  }

  /** Specialise a call if all its inferred argument types are known. */
  method SpecializeCall(name: string, argTypes: seq<Type>, sc: SpecializationCache,
                        functions: map<string, seq<FunctionDeclaration>>)
    modifies sc
    ensures Extends(sc) && NewKeysKnown(sc)
    ensures old(Sound(sc.cache, functions)) ==> Sound(sc.cache, functions)
    ensures !Known(argTypes) ==> sc.cache == old(sc.cache)
    ensures Known(argTypes) && SpecKey(name, argTypes) !in old(sc.cache) && name in functions ==>
      sc.cache == match Decide(functions[name], argTypes)
        case Some(i) => old(sc.cache)[SpecKey(name, argTypes) := i]
        case None => old(sc.cache)
  {
    var known := true;
    var i := 0;
    while i < |argTypes|
      invariant 0 <= i <= |argTypes|
      invariant known <==> forall k :: 0 <= k < i ==> argTypes[k] != UnknownT
    {
      if argTypes[i] == UnknownT {
        known := false;
      }
      i := i + 1;
    }
    if known {
      var _ := sc.TrySpecialize(name, argTypes, functions);
    }
  }

  /** `specialize_function_calls`: walk the expression, specialising every
      function call and method call whose argument types are all known.
      Match arms are not visited, only the scrutinee; a `let` body sees the
      bound name at the binding's inferred type. */
  method SpecializeFunctionCalls(e: Expression, tenv: map<string, Type>, sc: SpecializationCache,
                                 functions: map<string, seq<FunctionDeclaration>>)
    modifies sc
    ensures Extends(sc) && NewKeysKnown(sc)
    ensures old(Sound(sc.cache, functions)) ==> Sound(sc.cache, functions)
    decreases Size(e), 0
  {
    match e {
      case FunctionCall(name, args) =>
        SpecializeAll(args, tenv, sc, functions);
        SpecializeCall(name, InferTypes(args, tenv), sc, functions);
      case MethodCall(recv, m, args) =>
        SpecializeFunctionCalls(recv, tenv, sc, functions);
        SpecializeAll(args, tenv, sc, functions);
        SpecializeCall(m, [InferExpressionType(recv, tenv)] + InferTypes(args, tenv), sc, functions);
      case Binary(_, l, r) =>
        SpecializeFunctionCalls(l, tenv, sc, functions);
        SpecializeFunctionCalls(r, tenv, sc, functions);
      case Unary(_, x) =>
        SpecializeFunctionCalls(x, tenv, sc, functions);
      case Comparison(_, l, r) =>
        SpecializeFunctionCalls(l, tenv, sc, functions);
        SpecializeFunctionCalls(r, tenv, sc, functions);
      case Let(x, b, body) =>
        SpecializeFunctionCalls(b, tenv, sc, functions);
        SpecializeFunctionCalls(body, tenv[x := InferExpressionType(b, tenv)], sc, functions);
      case Pipeline(l, r) =>
        SpecializeFunctionCalls(l, tenv, sc, functions);
        SpecializeFunctionCalls(r, tenv, sc, functions);
      case Match(s, _) =>
        SpecializeFunctionCalls(s, tenv, sc, functions);
      case MemberAccess(o, _) =>
        SpecializeFunctionCalls(o, tenv, sc, functions);
      case Literal(_) =>
      case Identifier(_) =>
      case TypeLiteral(_) =>
    }
  }

  /** The argument loop of `specialize_function_calls`. */
  method SpecializeAll(args: seq<Expression>, tenv: map<string, Type>, sc: SpecializationCache,
                       functions: map<string, seq<FunctionDeclaration>>)
    modifies sc
    ensures Extends(sc) && NewKeysKnown(sc)
    ensures old(Sound(sc.cache, functions)) ==> Sound(sc.cache, functions)
    decreases SizeList(args), 1
  {
    var i := 0;
    while i < |args|
      invariant 0 <= i <= |args|
      invariant Extends(sc) && NewKeysKnown(sc)
      invariant old(Sound(sc.cache, functions)) ==> Sound(sc.cache, functions)
    {
      SizeListElement(args, i);
      SpecializeFunctionCalls(args[i], tenv, sc, functions);
      i := i + 1;
    }
  }
}
