/**
 * The tree-walking evaluator (src/evaluator.rs): runtime values, the
 * expression semantics, and multiple dispatch with its process-wide cache.
 *
 * The dispatch cache is a global map in the repository; here it is a value
 * threaded through every evaluation step (arguments, guards and bodies all
 * see the cache left by the step before). Recursion through user-defined
 * function bodies is bounded by `fuel`: entering a function body costs one
 * unit, and an exhausted budget yields `OutOfFuel`.
 */
module Evaluator {
  import opened Wrappers
  import opened Ast
  import opened Errors
  import opened Ascii
  import Values
  import opened Ranking

  datatype EvalValue =
    | StringVal(s: string)
    | IntegerVal(n: I64)
    | BooleanVal(b: bool)
    | ValueObj(typeName: string, fields: map<string, EvalValue>)
    | TypeVal(name: string)
    | ListVal(items: seq<EvalValue>)

  type Context = map<string, EvalValue>

  /** What evaluation consults: the registered value constructors and the
      table of function implementations, in declaration order per name. */
  datatype Registry = Registry(
    constructors: map<string, Values.ValueConstructor>,
    functions: map<string, seq<FunctionDeclaration>>)

  datatype DispatchKey = DispatchKey(functionName: string, argTypeSignatures: seq<string>)
  type DispatchCache = map<DispatchKey, nat>

  /** A result together with the dispatch cache left behind. */
  datatype Outcome<T> = Outcome(result: Result<T>, cache: DispatchCache)

  // ---------------------------------------------------------------------
  // Runtime types and dispatch keys
  // ---------------------------------------------------------------------

  /** `matches_type`: whether a runtime value may be passed to a parameter
      of the given declared type. */
  function MatchesType(ty: Type, v: EvalValue): (r: bool)
    ensures ty == AnyT ==> r
    ensures ty == UnknownT ==> !r
    ensures ty.ListT? ==> (r <==> v.ListVal?)
    ensures ty != AnyT && !ty.ListT? ==> (r <==> ty == TypeFromValue(v))
  {
    match (ty, v)
    case (IntT, IntegerVal(_)) => true
    case (StringT, StringVal(_)) => true
    case (BoolT, BooleanVal(_)) => true
    case (ValueT(n), ValueObj(m, _)) => n == m
    case (TypeT, TypeVal(_)) => true
    case (ListT(_), ListVal(_)) => true
    case (AnyT, _) => true
    case _ => false
  }

  /** `type_from_value`: the static type a runtime value has (lists carry
      no element type at run time; `Any` stands in). */
  function TypeFromValue(v: EvalValue): (t: Type)
    ensures t != AnyT && t != UnknownT && TypeScore(t) == 3
    ensures t.ListT? <==> v.ListVal?
    ensures t.ValueT? <==> v.ValueObj?
    ensures v.ValueObj? ==> t.name == v.typeName
  {
    match v
    case StringVal(_) => StringT
    case IntegerVal(_) => IntT
    case BooleanVal(_) => BoolT
    case ValueObj(n, _) => ValueT(n)
    case TypeVal(_) => TypeT
    case ListVal(_) => ListT(AnyT)
  }

  /** `get_value_type_signature`: the tag of a value in a dispatch key. A
      value object is tagged with its bare type name. */
  function TypeSignature(v: EvalValue): (r: string)
    ensures v.ValueObj? ==> r == v.typeName
    ensures !v.ValueObj? ==> r in {"String", "Int", "Bool", "Type", "List"}
  {
    match v
    case StringVal(_) => "String"
    case IntegerVal(_) => "Int"
    case BooleanVal(_) => "Bool"
    case ValueObj(n, _) => n
    case TypeVal(_) => "Type"
    case ListVal(_) => "List"
  }

  function Signatures(vals: seq<EvalValue>): (r: seq<string>)
    ensures |r| == |vals| && forall i :: 0 <= i < |vals| ==> r[i] == TypeSignature(vals[i])
  {
    if vals == [] then [] else [TypeSignature(vals[0])] + Signatures(vals[1..])
  }

  /** `create_dispatch_key`: the function name and each argument's tag. */
  function CreateDispatchKey(name: string, vals: seq<EvalValue>): (k: DispatchKey)
    ensures k.functionName == name && |k.argTypeSignatures| == |vals|
    ensures forall i :: 0 <= i < |vals| ==> k.argTypeSignatures[i] == TypeSignature(vals[i])
  {
    DispatchKey(name, Signatures(vals))
  }

  // ---------------------------------------------------------------------
  // Specificity
  // ---------------------------------------------------------------------

  /** The score of one declared parameter type: concrete types 3, `Any` 1,
      `Unknown` 0. */
  function TypeScore(ty: Type): (s: nat)
    ensures s <= 3
    ensures s == 0 <==> ty == UnknownT
    ensures s == 1 <==> ty == AnyT
  {
    match ty
    case AnyT => 1
    case UnknownT => 0
    case _ => 3
  }

  /** The score of one parameter: its type score plus 2 when it has a guard. */
  function ParamScore(p: ParameterWithGuard): (s: nat)
    ensures s <= 5
    ensures p.guard.Some? ==> s >= 2
    ensures s == 0 <==> p.ty == UnknownT && p.guard.None?
  {
    TypeScore(p.ty) + (if p.guard.Some? then 2 else 0)
  }

  /** The specificity of a declaration called with `n` arguments: the sum of
      the scores of the parameters paired with an argument. */
  function Specificity(params: seq<ParameterWithGuard>, n: nat): (s: nat)
    ensures s <= 5 * Min(|params|, n)
  {
    if params == [] || n == 0 then 0
    else Specificity(params[..|params| - 1], n) +
         (if |params| <= n then ParamScore(params[|params| - 1]) else 0)
  }

  /** Specificity only looks at the parameters that are paired with an
      argument. */
  lemma {:induction false} SpecificityPrefix(params: seq<ParameterWithGuard>, n: nat)
    ensures Specificity(params, n) == Specificity(params[..Min(|params|, n)], n)
  {
    if params != [] && n != 0 {
      assert params[..|params|] == params;
      if |params| > n {
        assert params[..|params| - 1][..n] == params[..n];
        SpecificityPrefix(params[..|params| - 1], n);
      }
    }
  }

  function Min(a: nat, b: nat): nat { if a <= b then a else b }

  /** `calculate_function_specificity`: the score accumulated over the
      parameters zipped with the arguments. */
  method CalculateFunctionSpecificity(f: FunctionDeclaration, args: seq<EvalValue>) returns (score: nat)
    ensures score == Specificity(f.parameters, |args|)
  {
    score := 0;
    var k := Min(|f.parameters|, |args|);
    var i := 0;
    while i < k
      invariant 0 <= i <= k
      invariant score == Specificity(f.parameters[..i], |args|)
    {
      assert f.parameters[..i + 1][..i] == f.parameters[..i];
      score := score + TypeScore(f.parameters[i].ty);
      if f.parameters[i].guard.Some? {
        score := score + 2;
      }
      i := i + 1;
    }
    SpecificityPrefix(f.parameters, |args|);
  }

  /** `calculate_method_specificity`: the source repeats the function
      formula over a method's parameters, so the score is the function
      score of the same parameters. */
  method CalculateMethodSpecificity(m: MethodDeclaration, args: seq<EvalValue>) returns (score: nat)
    ensures score == Specificity(m.parameters, |args|)
  {
    score := CalculateFunctionSpecificity(FunctionDeclaration(m.name, m.parameters, m.returnType, m.body), args);
  }

  // ---------------------------------------------------------------------
  // Operators
  // ---------------------------------------------------------------------

  function Overflow(): Error { Panic("arithmetic overflow") }

  /** An integer result, or the overflow panic of a debug build. */
  function CheckedInt(x: int): (r: Result<EvalValue>)
    ensures InI64(x) ==> r == Ok(IntegerVal(x))
    ensures !InI64(x) ==> r == Err(Overflow())
  {
    if InI64(x) then Ok(IntegerVal(x)) else Err(Overflow())
  }

  /** The binary operators on evaluated operands (also the optimised
      evaluator's `evaluate_binary_op`). */
  function ApplyBinary(op: BinaryOp, l: EvalValue, r: EvalValue): (res: Result<EvalValue>)
  {
    if l.IntegerVal? && r.IntegerVal? && IsArithmetic(op) then
      var a, b := l.n, r.n;
      if op == Add then CheckedInt(a + b)
      else if op == Subtract then CheckedInt(a - b)
      else if op == Multiply then CheckedInt(a * b)
      else if op == Divide then
        if b == 0 then Err(ValidationError(DivisionByZero, "")) else CheckedInt(TruncDiv(a, b))
      else if b == 0 then Err(ValidationError(ModuloByZero, ""))
      else if a == MinI64 && b == -1 then Err(Overflow())
      else Ok(IntegerVal(TruncRem(a, b)))
    else if l.BooleanVal? && r.BooleanVal? && op in {And, Or} then
      Ok(BooleanVal(if op == And then l.b && r.b else l.b || r.b))
    else Err(ValidationError(BinaryTypeMismatch, ""))
  }

  predicate IsArithmetic(op: BinaryOp)
  {
    op in {Add, Subtract, Multiply, Divide, Modulo}
  }

  /** What the binary operators promise: arithmetic on two integers, logic
      on two booleans, division and remainder by zero rejected, every other
      operand combination a type mismatch. */
  lemma BinaryOpSpec(op: BinaryOp, l: EvalValue, r: EvalValue)
    ensures IsArithmetic(op) && l.IntegerVal? && r.IntegerVal? ==>
      match ApplyBinary(op, l, r)
      case Ok(v) => v.IntegerVal?
      case Err(e) => e.Panic? || (op in {Divide, Modulo} && r.n == 0)
    ensures op in {Divide, Modulo} && l.IntegerVal? && r == IntegerVal(0) ==>
      ApplyBinary(op, l, r) ==
        Err(ValidationError(if op == Divide then DivisionByZero else ModuloByZero, ""))
    ensures op == Add && l.IntegerVal? && r.IntegerVal? && InI64(l.n + r.n) ==>
      ApplyBinary(op, l, r) == Ok(IntegerVal(l.n + r.n))
    ensures op == And && l.BooleanVal? && r.BooleanVal? ==> ApplyBinary(op, l, r) == Ok(BooleanVal(l.b && r.b))
    ensures op == Or && l.BooleanVal? && r.BooleanVal? ==> ApplyBinary(op, l, r) == Ok(BooleanVal(l.b || r.b))
    ensures (IsArithmetic(op) && !(l.IntegerVal? && r.IntegerVal?)) ||
            (!IsArithmetic(op) && !(l.BooleanVal? && r.BooleanVal?)) ==>
      ApplyBinary(op, l, r) == Err(ValidationError(BinaryTypeMismatch, ""))
  {
  }

  function ApplyUnary(op: UnaryOp, v: EvalValue): (r: Result<EvalValue>)
    ensures op == Not ==> (r.Ok? <==> v.BooleanVal?) && (r.Ok? ==> r.value == BooleanVal(!v.b))
    ensures op == Minus && v.IntegerVal? && v.n != MinI64 ==> r == Ok(IntegerVal(-v.n))
    ensures r.Err? && !(op == Minus && v == IntegerVal(MinI64)) ==>
      r.error == ValidationError(UnaryTypeMismatch, "")
  {
    if op == Not && v.BooleanVal? then Ok(BooleanVal(!v.b))
    else if op == Minus && v.IntegerVal? then CheckedInt(-(v.n as int))
    else Err(ValidationError(UnaryTypeMismatch, ""))
  }

  /** Comparisons: all six orderings on integers, equality, inequality and
      `contains` on strings, equality and inequality on booleans. */
  function ApplyComparison(op: ComparisonOp, l: EvalValue, r: EvalValue): (res: Result<EvalValue>)
    ensures res.Ok? ==> res.value.BooleanVal?
    ensures res.Ok? <==>
      (l.IntegerVal? && r.IntegerVal? && op != Contains) ||
      (l.StringVal? && r.StringVal? && op in {Equal, NotEqual, Contains}) ||
      (l.BooleanVal? && r.BooleanVal? && op in {Equal, NotEqual})
    ensures res.Err? ==> res.error == ValidationError(ComparisonTypeMismatch, "")
    ensures op == Contains && l.StringVal? && r.StringVal? ==>
      res == Ok(BooleanVal(exists i :: OccursAt(l.s, r.s, i)))
    ensures op == Equal && res.Ok? ==> res.value.b == (l == r)
  {
    if l.IntegerVal? && r.IntegerVal? && op != Contains then
      var a, b := l.n, r.n;
      Ok(BooleanVal(
        if op == Equal then a == b
        else if op == NotEqual then a != b
        else if op == Less then a < b
        else if op == Greater then a > b
        else if op == LessEqual then a <= b
        else a >= b))
    else if l.StringVal? && r.StringVal? && op in {Equal, NotEqual, Contains} then
      Ok(BooleanVal(if op == Equal then l.s == r.s else if op == NotEqual then l.s != r.s else ContainsSub(l.s, r.s)))
    else if l.BooleanVal? && r.BooleanVal? && op in {Equal, NotEqual} then
      Ok(BooleanVal(if op == Equal then l.b == r.b else l.b != r.b))
    else Err(ValidationError(ComparisonTypeMismatch, ""))
  }

  /** `value_to_expression`: turns the left side of a pipeline back into an
      expression. Primitive values and type values have a literal form;
      value objects and lists do not. */
  function ValueToExpression(v: EvalValue): (r: Result<Expression>)
    ensures r.Ok? <==> !v.ValueObj? && !v.ListVal?
    ensures r.Ok? ==> Size(r.value) == 1
    ensures v.ValueObj? ==> r == Err(ValidationError(ValueNotExpressible(v.typeName), v.typeName))
    ensures v.ListVal? ==> r == Err(ValidationError(ListNotExpressible, "List"))
  {
    match v
    case StringVal(s) => Ok(Literal(StringLit(s)))
    case IntegerVal(n) => Ok(Literal(IntegerLit(n)))
    case BooleanVal(b) => Ok(Literal(BooleanLit(b)))
    case ValueObj(n, _) => Err(ValidationError(ValueNotExpressible(n), n))
    case TypeVal(n) => Ok(TypeLiteral(n))
    case ListVal(_) => Err(ValidationError(ListNotExpressible, "List"))
  }

  // ---------------------------------------------------------------------
  // Binding parameters
  // ---------------------------------------------------------------------

  /** The context a body runs in: each parameter paired with an argument is
      bound to it, a later parameter of the same name overriding an earlier
      one; nothing else is bound. */
  function Bind(params: seq<ParameterWithGuard>, vals: seq<EvalValue>): (ctx: Context)
    decreases |params|
    ensures forall x :: x in ctx <==> exists i :: 0 <= i < Min(|params|, |vals|) && params[i].name == x
  {
    var k := Min(|params|, |vals|);
    if k == 0 then map[]
    else
      var inner := Bind(params[..k - 1], vals[..k - 1]);
      assert forall i :: 0 <= i < k - 1 ==> params[..k - 1][i] == params[i];
      inner[params[k - 1].name := vals[k - 1]]
  }

  /** The value a bound name receives: the argument of the last parameter
      with that name. */
  lemma {:induction false} BindLookup(params: seq<ParameterWithGuard>, vals: seq<EvalValue>, i: nat)
    requires i < |params| && i < |vals|
    requires forall j :: i < j < Min(|params|, |vals|) ==> params[j].name != params[i].name
    ensures params[i].name in Bind(params, vals) && Bind(params, vals)[params[i].name] == vals[i]
    decreases |params|
  {
    var k := Min(|params|, |vals|);
    if i < k - 1 {
      assert forall j :: 0 <= j < k - 1 ==> params[..k - 1][j] == params[j];
      BindLookup(params[..k - 1], vals[..k - 1], i);
    }
  }

  // ---------------------------------------------------------------------
  // Value construction and built-in methods
  // ---------------------------------------------------------------------

  /** A call of a registered value type: exactly one primitive argument,
      validated by the type's constructor, becomes a value object whose one
      field, named after the declared parameter, holds the argument. */
  function ConstructValue(env: Registry, name: string, vals: seq<EvalValue>): (r: Result<EvalValue>)
    requires name in env.constructors
    ensures |vals| != 1 ==> r == Err(ValidationError(ConstructorArity(name, |vals|), "constructor"))
    ensures r.Ok? ==> (|vals| == 1 &&
      r.value == ValueObj(name, map[env.constructors[name].declaration.parameter.name := vals[0]]))
    ensures r.Ok? <==> (|vals| == 1 && InputOf(vals[0]).Some? &&
      Values.Construct(env.constructors, name, InputOf(vals[0]).value).Ok?)
    ensures |vals| == 1 && (vals[0].ValueObj? || vals[0].TypeVal? || vals[0].ListVal?) ==>
      r == Err(ValidationError(ConstructorArgumentType(name), "constructor"))
  {
    if |vals| != 1 then Err(ValidationError(ConstructorArity(name, |vals|), "constructor"))
    else
      var input :- match InputOf(vals[0])
        case Some(i) => Ok(i)
        case None => Err(ValidationError(ConstructorArgumentType(name), "constructor"));
      var _ :- Values.Construct(env.constructors, name, input);
      Ok(ValueObj(name, map[env.constructors[name].declaration.parameter.name := vals[0]]))
  }

  /** The primitive input a runtime value hands to a value constructor. */
  function InputOf(v: EvalValue): (r: Option<Values.Input>)
    ensures r.Some? <==> v.StringVal? || v.IntegerVal? || v.BooleanVal?
  {
    match v
    case StringVal(s) => Some(Values.InputString(s))
    case IntegerVal(n) => Some(Values.InputInt(n))
    case BooleanVal(b) => Some(Values.InputBool(b))
    case _ => None
  }

  /** The built-in methods on strings and lists, tried when no function of
      the method's name is registered. */
  function BuiltinMethod(v: EvalValue, m: string, args: seq<Expression>): (r: Result<EvalValue>)
    ensures v.StringVal? && m == "toLowerCase" && args == [] ==> r == Ok(StringVal(Lower(v.s)))
    ensures v.StringVal? && m == "toUpperCase" && args == [] ==> r == Ok(StringVal(Upper(v.s)))
    ensures v.ListVal? && m == "length" && args == [] && |v.items| <= MaxI64 ==>
      r == Ok(IntegerVal(|v.items|))
    ensures r.Err? ==> r.error.ValidationError?
    ensures !v.StringVal? && !v.ListVal? ==> r == Err(ValidationError(UnknownMethod(m), ""))
  {
    match v
    case StringVal(s) =>
      if m == "toLowerCase" && args == [] then Ok(StringVal(Lower(s)))
      else if m == "toUpperCase" && args == [] then Ok(StringVal(Upper(s)))
      else Err(ValidationError(UnknownMethod(m), ""))
    case ListVal(items) =>
      if m == "length" && args == [] then Ok(IntegerVal(LengthAsI64(|items|)))
      else if m == "filter" && |args| == 1 then Err(ValidationError(ListFilterUnimplemented, "method"))
      else if m == "find" && |args| == 1 then Err(ValidationError(ListFindUnimplemented, "method"))
      else Err(ValidationError(UnknownMethod(m), ""))
    case _ => Err(ValidationError(UnknownMethod(m), ""))
  }

  /** Member access on an evaluated object: a string's `length` (any other
      member of a string is an error), a value object's field, and nothing
      on the other kinds. */
  function MemberOf(v: EvalValue, m: string): (r: Result<EvalValue>)
    ensures v.StringVal? && m == "length" && |v.s| <= MaxI64 ==> r == Ok(IntegerVal(|v.s|))
    ensures v.ValueObj? ==> (r.Ok? <==> m in v.fields) && (r.Ok? ==> r.value == v.fields[m])
    ensures !v.StringVal? && !v.ValueObj? ==> r == Err(ValidationError(PrimitiveHasNoMember(m), ""))
    ensures v.StringVal? && m != "length" ==> r == Err(ValidationError(StringHasNoMember(m), "String"))
  {
    if v.StringVal? then
      if m == "length" then Ok(IntegerVal(LengthAsI64(|v.s|)))
      else Err(ValidationError(StringHasNoMember(m), "String"))
    else if v.ValueObj? then
      if m in v.fields then Ok(v.fields[m])
      else Err(ValidationError(ValueHasNoMember(v.typeName, m), v.typeName))
    else Err(ValidationError(PrimitiveHasNoMember(m), ""))
  }

  /** `Type.all()` / `Type.count()` on a registered value type. */
  function TypeMethod(typeName: string, m: string, args: seq<Expression>): (r: Result<EvalValue>)
    ensures r.Err?
    ensures !(m in {"all", "count"} && args == []) ==>
      r == Err(ValidationError(UnknownTypeMethod(m), typeName))
  {
    if m == "all" && args == [] then Err(Unmodelled("all"))
    else if m == "count" && args == [] then Err(Unmodelled("count"))
    else Err(ValidationError(UnknownTypeMethod(m), typeName))
  }

  // ---------------------------------------------------------------------
  // Evaluation
  // ---------------------------------------------------------------------

  /** `evaluate_expression`. */
  function Eval(fuel: nat, e: Expression, ctx: Context, env: Registry, cache: DispatchCache)
    : Outcome<EvalValue>
    decreases fuel, Size(e), 0, 0
  {
    match e
    case Literal(StringLit(s)) => Outcome(Ok(StringVal(s)), cache)
    case Literal(IntegerLit(n)) => Outcome(Ok(IntegerVal(n)), cache)
    case Literal(BooleanLit(b)) => Outcome(Ok(BooleanVal(b)), cache)
    case TypeLiteral(n) => Outcome(Ok(TypeVal(n)), cache)
    case Identifier(x) =>
      if x in ctx then Outcome(Ok(ctx[x]), cache)
      else if x in env.constructors then Outcome(Ok(TypeVal(x)), cache)
      else Outcome(Err(ValidationError(UnknownIdentifier(x), "")), cache)
    case Binary(op, l, r) =>
      var lo := Eval(fuel, l, ctx, env, cache);
      if lo.result.Err? then Outcome(Err(lo.result.error), lo.cache)
      else
        var ro := Eval(fuel, r, ctx, env, lo.cache);
        if ro.result.Err? then Outcome(Err(ro.result.error), ro.cache)
        else Outcome(ApplyBinary(op, lo.result.value, ro.result.value), ro.cache)
    case Unary(op, x) =>
      var o := Eval(fuel, x, ctx, env, cache);
      if o.result.Err? then o
      else Outcome(ApplyUnary(op, o.result.value), o.cache)
    case Comparison(op, l, r) =>
      var lo := Eval(fuel, l, ctx, env, cache);
      if lo.result.Err? then Outcome(Err(lo.result.error), lo.cache)
      else
        var ro := Eval(fuel, r, ctx, env, lo.cache);
        if ro.result.Err? then Outcome(Err(ro.result.error), ro.cache)
        else Outcome(ApplyComparison(op, lo.result.value, ro.result.value), ro.cache)
    case FunctionCall(name, args) =>
      var ao := EvalArgs(fuel, args, ctx, env, cache);
      if ao.result.Err? then Outcome(Err(ao.result.error), ao.cache)
      else EvalCall(fuel, name, ao.result.value, env, ao.cache)
    case Let(x, b, body) =>
      var bo := Eval(fuel, b, ctx, env, cache);
      if bo.result.Err? then bo
      else Eval(fuel, body, ctx[x := bo.result.value], env, bo.cache)
    case Pipeline(l, r) =>
      var lo := Eval(fuel, l, ctx, env, cache);
      if lo.result.Err? then lo
      else if r.Identifier? || r.FunctionCall? then
        var lit := ValueToExpression(lo.result.value);
        if lit.Err? then Outcome(Err(lit.error), lo.cache)
        else
          var rest := if r.Identifier? then [] else r.args;
          var f := if r.Identifier? then r.name else r.fname;
          SizeListCons(lit.value, rest);
          assert Size(r) == 1 + SizeList(rest);
          Eval(fuel, FunctionCall(f, [lit.value] + rest), ctx, env, lo.cache)
      else Outcome(Err(ValidationError(PipelineTargetNotFunction, "")), lo.cache)
    case MemberAccess(o, m) =>
      var oo := Eval(fuel, o, ctx, env, cache);
      if oo.result.Err? then oo
      else Outcome(MemberOf(oo.result.value, m), oo.cache)
    case MethodCall(o, m, args) =>
      if o.Identifier? && o.name in env.constructors then
        Outcome(TypeMethod(o.name, m, args), cache)
      else if o.Identifier? && o.name !in ctx then
        Outcome(Err(ValidationError(UnknownIdentifier(o.name), "")), cache)
      else if m in env.functions then
        SizeListCons(o, args);
        Eval(fuel, FunctionCall(m, [o] + args), ctx, env, cache)
      else
        var oo := Eval(fuel, o, ctx, env, cache);
        if oo.result.Err? then oo
        else Outcome(BuiltinMethod(oo.result.value, m, args), oo.cache)
    case Match(s, arms) =>
      var so := Eval(fuel, s, ctx, env, cache);
      if so.result.Err? then so
      else if arms == [] then Outcome(Err(ValidationError(NoMatchArms, "")), so.cache)
      else
        assert SizeArms(arms) == SizeArm(arms[0]) + SizeArms(arms[1..]);
        Eval(fuel, arms[0].body, ctx[arms[0].pattern.binding := so.result.value], env, so.cache)
  }

  /** The arguments of a call, left to right; the first error stops. */
  function EvalArgs(fuel: nat, args: seq<Expression>, ctx: Context, env: Registry, cache: DispatchCache)
    : (o: Outcome<seq<EvalValue>>)
    ensures o.result.Ok? ==> |o.result.value| == |args|
    decreases fuel, SizeList(args), 1, 0
  {
    if args == [] then Outcome(Ok([]), cache)
    else
      var first := Eval(fuel, args[0], ctx, env, cache);
      if first.result.Err? then Outcome(Err(first.result.error), first.cache)
      else
        var rest := EvalArgs(fuel, args[1..], ctx, env, first.cache);
        if rest.result.Err? then rest
        else Outcome(Ok([first.result.value] + rest.result.value), rest.cache)
  }

  /** A call `name(vals)` once its arguments are evaluated: the `all`
      builtin, then value constructors, then registered functions (a single
      implementation runs directly, several go through dispatch), then the
      `relationOf` stub; anything else is unknown. */
  function EvalCall(fuel: nat, name: string, vals: seq<EvalValue>, env: Registry, cache: DispatchCache)
    : Outcome<EvalValue>
    decreases fuel, 0, 4, 0
  {
    if name == "all" && |vals| == 1 then
      if vals[0].TypeVal? then Outcome(Err(Unmodelled("all")), cache)
      else Outcome(Err(ValidationError(AllExpectsType, "function")), cache)
    else if name in env.constructors then
      Outcome(ConstructValue(env, name, vals), cache)
    else if name in env.functions then
      var fns := env.functions[name];
      if |fns| == 1 then
        if |vals| != |fns[0].parameters| then
          Outcome(Err(ValidationError(FunctionArity(name, |fns[0].parameters|, |vals|), "function")), cache)
        else if fuel == 0 then Outcome(Err(OutOfFuel), cache)
        else Eval(fuel - 1, fns[0].body, Bind(fns[0].parameters, vals), env, cache)
      else if fuel == 0 then Outcome(Err(OutOfFuel), cache)
      else Dispatch(fuel, name, fns, vals, env, cache)
    else if name == "relationOf" then
      Outcome(Err(ValidationError(RelationOfUnimplemented, "function")), cache)
    else
      Outcome(Err(ValidationError(UnknownFunction(name), "function")), cache)
  }

  /** Whether the dispatch cache holds an in-range index for this call. */
  predicate CacheHit(cache: DispatchCache, name: string, fns: seq<FunctionDeclaration>, vals: seq<EvalValue>)
  {
    var key := CreateDispatchKey(name, vals);
    key in cache && cache[key] < |fns|
  }

  /** Which implementation a dispatched call runs, and the cache afterwards. */
  datatype Selection = Selection(choice: Result<nat>, cache: DispatchCache)

  /** The choosing half of `dispatch_function`. A cache hit returns the
      stored index with no type or guard check and leaves the cache as it
      is. A miss collects the candidates (evaluating their guards), ranks
      them, and on a unique winner stores its index under the call's key. */
  function Select(fuel: nat, name: string, fns: seq<FunctionDeclaration>, vals: seq<EvalValue>,
                  env: Registry, cache: DispatchCache): (s: Selection)
    requires fuel > 0
    ensures s.choice.Ok? ==> s.choice.value < |fns|
    ensures CacheHit(cache, name, fns, vals) ==>
      s == Selection(Ok(cache[CreateDispatchKey(name, vals)]), cache)
    ensures !CacheHit(cache, name, fns, vals) ==>
      var co := Candidates(fuel, fns, 0, vals, env, cache);
      match Resolve(co.cands)
      case Winner(i) => s == Selection(Ok(i), co.cache[CreateDispatchKey(name, vals) := i])
      case Ambiguous => s == Selection(Err(ValidationError(AmbiguousCall(name), "function")), co.cache)
      case NoCandidate => s == Selection(Err(ValidationError(NoMatchingFunction(name), "function")), co.cache)
    ensures !CacheHit(cache, name, fns, vals) && s.choice.Ok? ==>
      Applicable(fns[s.choice.value], vals) && s.cache[CreateDispatchKey(name, vals)] == s.choice.value
    decreases fuel, 0, 2, 0
  {
    var key := CreateDispatchKey(name, vals);
    if key in cache && cache[key] < |fns| then Selection(Ok(cache[key]), cache)
    else
      var co := Candidates(fuel, fns, 0, vals, env, cache);
      match Resolve(co.cands)
      case Ambiguous => Selection(Err(ValidationError(AmbiguousCall(name), "function")), co.cache)
      case NoCandidate => Selection(Err(ValidationError(NoMatchingFunction(name), "function")), co.cache)
      case Winner(i) =>
        assert exists k :: 0 <= k < |co.cands| && co.cands[k].index == i;
        Selection(Ok(i), co.cache[key := i])
  }

  /** `dispatch_function`: the selected implementation's body runs in a
      context binding its parameters to the arguments. */
  function Dispatch(fuel: nat, name: string, fns: seq<FunctionDeclaration>, vals: seq<EvalValue>,
                    env: Registry, cache: DispatchCache): Outcome<EvalValue>
    requires fuel > 0
    decreases fuel, 0, 3, 0
  {
    var s := Select(fuel, name, fns, vals, env, cache);
    if s.choice.Err? then Outcome(Err(s.choice.error), s.cache)
    else
      var f := fns[s.choice.value];
      Eval(fuel - 1, f.body, Bind(f.parameters, vals), env, s.cache)
  }

  /** The survivors from position `i` on, with the cache left by evaluating
      their guards. */
  datatype Collected = Collected(cands: seq<Candidate>, cache: DispatchCache)

  /** Whether a declaration can take these arguments by arity and type. */
  predicate Applicable(f: FunctionDeclaration, vals: seq<EvalValue>)
  {
    |f.parameters| == |vals| && forall k :: 0 <= k < |vals| ==> MatchesType(f.parameters[k].ty, vals[k])
  }

  /** A surviving candidate names an applicable implementation at position
      `lo` or later and carries its specificity. */
  predicate GoodCandidate(c: Candidate, fns: seq<FunctionDeclaration>, vals: seq<EvalValue>, lo: nat)
  {
    lo <= c.index < |fns| && Applicable(fns[c.index], vals) &&
    c.score == Specificity(fns[c.index].parameters, |vals|)
  }

  predicate Survivors(cands: seq<Candidate>, fns: seq<FunctionDeclaration>, vals: seq<EvalValue>, lo: nat)
  {
    forall k :: 0 <= k < |cands| ==> GoodCandidate(cands[k], fns, vals, lo)
  }

  lemma SurvivorsWeaken(cands: seq<Candidate>, fns: seq<FunctionDeclaration>, vals: seq<EvalValue>, lo: nat)
    requires Survivors(cands, fns, vals, lo + 1)
    ensures Survivors(cands, fns, vals, lo)
  {
    forall k | 0 <= k < |cands|
      ensures GoodCandidate(cands[k], fns, vals, lo)
    {
      assert GoodCandidate(cands[k], fns, vals, lo + 1);
    }
  }

  lemma SurvivorsCons(c: Candidate, cands: seq<Candidate>, fns: seq<FunctionDeclaration>,
                      vals: seq<EvalValue>, lo: nat)
    requires Survivors(cands, fns, vals, lo)
    requires GoodCandidate(c, fns, vals, lo)
    ensures Survivors([c] + cands, fns, vals, lo)
  {
    var s := [c] + cands;
    forall k | 0 <= k < |s|
      ensures GoodCandidate(s[k], fns, vals, lo)
    {
      if k > 0 {
        assert s[k] == cands[k - 1];
      }
    }
  }

  /** Some survivor names position `x`. */
  predicate Listed(cands: seq<Candidate>, x: nat)
  {
    exists k :: 0 <= k < |cands| && cands[k].index == x
  }

  lemma ListedCons(c: Candidate, cands: seq<Candidate>)
    ensures Listed([c] + cands, c.index)
    ensures forall x :: Listed(cands, x) ==> Listed([c] + cands, x)
  {
    assert ([c] + cands)[0] == c;
    forall x | Listed(cands, x)
      ensures Listed([c] + cands, x)
    {
      var k :| 0 <= k < |cands| && cands[k].index == x;
      assert ([c] + cands)[k + 1] == cands[k];
    }
  }

  /** No parameter carries a guard. */
  predicate GuardFree(params: seq<ParameterWithGuard>)
  {
    forall k :: 0 <= k < |params| ==> params[k].guard.None?
  }

  /** The candidate loop of `dispatch_function`: skip an implementation
      of the wrong arity or whose parameter types do not all match,
      evaluate its guards in order, and keep it with its specificity when
      every guard yields `true`. */
  function Candidates(fuel: nat, fns: seq<FunctionDeclaration>, i: nat, vals: seq<EvalValue>,
                      env: Registry, cache: DispatchCache): (c: Collected)
    requires fuel > 0 && i <= |fns|
    ensures Survivors(c.cands, fns, vals, i)
    ensures forall x :: i <= x < |fns| && Applicable(fns[x], vals) && GuardFree(fns[x].parameters) ==>
      Listed(c.cands, x)
    decreases fuel, 0, 1, |fns| - i
  {
    if i == |fns| then Collected([], cache)
    else
      var f := fns[i];
      if !Applicable(f, vals) then
        var rest := Candidates(fuel, fns, i + 1, vals, env, cache);
        SurvivorsWeaken(rest.cands, fns, vals, i);
        assert forall x :: i <= x < |fns| && Applicable(fns[x], vals) ==> i + 1 <= x;
        rest
      else
        var g := GuardsHold(fuel, f.parameters, 0, Bind(f.parameters, vals), env, cache);
        var rest := Candidates(fuel, fns, i + 1, vals, env, g.cache);
        if g.result == Ok(true) then
          var c := Candidate(i, Specificity(f.parameters, |vals|));
          SurvivorsWeaken(rest.cands, fns, vals, i);
          SurvivorsCons(c, rest.cands, fns, vals, i);
          ListedCons(c, rest.cands);
          Collected([c] + rest.cands, rest.cache)
        else
          SurvivorsWeaken(rest.cands, fns, vals, i);
          rest
  }

  /** The guards of `params[j..]`, in order: each must evaluate to the
      boolean `true`; the first that does not (an error included) stops the
      check with `false`. */
  function GuardsHold(fuel: nat, params: seq<ParameterWithGuard>, j: nat, gctx: Context,
                      env: Registry, cache: DispatchCache): (o: Outcome<bool>)
    requires fuel > 0 && j <= |params|
    ensures o.result.Ok?
    ensures (forall k :: j <= k < |params| ==> params[k].guard.None?) ==> o == Outcome(Ok(true), cache)
    decreases fuel, 0, 0, |params| - j
  {
    if j == |params| then Outcome(Ok(true), cache)
    else if params[j].guard.None? then GuardsHold(fuel, params, j + 1, gctx, env, cache)
    else
      var go := Eval(fuel - 1, params[j].guard.value, gctx, env, cache);
      if go.result == Ok(BooleanVal(true)) then GuardsHold(fuel, params, j + 1, gctx, env, go.cache)
      else Outcome(Ok(false), go.cache)
  }
}
