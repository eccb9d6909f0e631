/**
 * The compiler (src/compiler.rs): it turns value declarations into
 * constructors whose validator runs one of two small interpreters over the
 * `validate` expression, one for `String` parameters and one for `Int`
 * parameters, and records function and method declarations for dispatch.
 *
 * The interpreters understand only a handful of expression shapes; every
 * other shape validates as `true`.
 */
module Compilation {
  import opened Wrappers
  import opened Ast
  import opened Errors
  import opened Ascii
  import opened Values
  import opened Evaluator
  import opened Specialization
  import opened OptimizedEvaluator

  /** The values a `let` inside a validate expression can bind. */
  datatype Scalar = SString(s: string) | SInteger(n: I64) | SBoolean(b: bool)

  type Bindings = map<string, Scalar>

  function Invalid<T>(r: Reason): Result<T>
  {
    Err(ValidationError(r, ""))
  }

  /** The six integer comparisons. */
  function CompareInts(op: ComparisonOp, a: int, b: int): bool
    requires op != Contains
  {
    match op
    case Equal => a == b
    case NotEqual => a != b
    case Greater => a > b
    case GreaterEqual => a >= b
    case Less => a < b
    case LessEqual => a <= b
  }

  // ---------------------------------------------------------------------
  // Integer parameters
  // ---------------------------------------------------------------------

  /** `evaluate_int_expr`: an integer literal, the parameter, an integer
      bound by `let`, or a `.length` (the parameter's own `.length` is the
      placeholder 0). */
  function IntExpr(e: Expression, value: I64, param: string, ctx: Bindings): (r: Result<I64>)
    ensures r.Ok? ==>
      e.Literal? || e.Identifier? || (e.MemberAccess? && e.obj.Identifier? && e.member == "length")
    ensures e == Identifier(param) ==> r == Ok(value)
    ensures e == MemberAccess(Identifier(param), "length") ==> r == Ok(0)
    ensures e.Identifier? && e.name != param ==>
      r == if e.name in ctx && ctx[e.name].SInteger? then Ok(ctx[e.name].n) else Invalid(NotAnInteger(e.name))
  {
    match e
    case Literal(IntegerLit(n)) => Ok(n)
    case Identifier(x) =>
      if x == param then Ok(value)
      else if x in ctx && ctx[x].SInteger? then Ok(ctx[x].n)
      else Invalid(NotAnInteger(x))
    case MemberAccess(o, m) =>
      if !o.Identifier? then Invalid(ComplexMemberAccess)
      else if o.name == param && m == "length" then Ok(0)
      else if o.name !in ctx then Invalid(UnknownIdentifier(o.name))
      else if ctx[o.name].SString? && m == "length" then Ok(LengthAsI64(|ctx[o.name].s|))
      else Invalid(CannotAccessMember(m, o.name))
    case _ => Invalid(NotIntegerExpression)
  }

  /** `evaluate_int_validation_with_context`. */
  function IntValidation(value: I64, e: Expression, param: string, ctx: Bindings): (r: Result<bool>)
    decreases e
  {
    match e
    case Binary(And, l, rt) =>
      var a :- IntValidation(value, l, param, ctx);
      if !a then Ok(false) else IntValidation(value, rt, param, ctx)
    case Binary(Or, l, rt) =>
      var a :- IntValidation(value, l, param, ctx);
      if a then Ok(true) else IntValidation(value, rt, param, ctx)
    case Comparison(op, l, rt) =>
      if op == Contains then Ok(true)
      else
        var a :- IntExpr(l, value, param, ctx);
        var b :- IntExpr(rt, value, param, ctx);
        Ok(CompareInts(op, a, b))
    case Pipeline(l, _) => IntValidation(value, l, param, ctx)
    case Let(x, b, body) =>
      var v :- LetValue(b, param, SInteger(value), ctx);
      IntValidation(value, body, param, ctx[x := v])
    case Match(s, arms) =>
      if s.Identifier? && (s.name == param || s.name in ctx) && arms != [] then
        IntValidation(value, arms[0].body, param, ctx[arms[0].pattern.binding := SInteger(value)])
      else Ok(false)
    case _ => Ok(true)
  }

  // ---------------------------------------------------------------------
  // String parameters
  // ---------------------------------------------------------------------

  /** `evaluate_string_expr`: a string literal, the parameter, a string
      bound by `let`, or a method call on one of those (`toLowerCase`
      lowercases, any other method on a bound string returns it as is). */
  function StringExpr(e: Expression, value: string, param: string, ctx: Bindings): (r: Result<string>)
    ensures r.Ok? ==> e.Literal? || e.Identifier? || (e.MethodCall? && e.receiver.Identifier?)
    ensures e == Identifier(param) ==> r == Ok(value)
    ensures e.MethodCall? && e.receiver == Identifier(param) && e.mname == "toLowerCase" ==> r == Ok(Lower(value))
  {
    match e
    case Literal(StringLit(s)) => Ok(s)
    case Identifier(x) =>
      if x == param then Ok(value)
      else if x in ctx && ctx[x].SString? then Ok(ctx[x].s)
      else Invalid(NotAString(x))
    case MethodCall(o, m, _) =>
      if !o.Identifier? then Invalid(ComplexMethodCall)
      else if o.name == param && m == "toLowerCase" then Ok(Lower(value))
      else if o.name in ctx && ctx[o.name].SString? then
        Ok(if m == "toLowerCase" then Lower(ctx[o.name].s) else ctx[o.name].s)
      else Invalid(CannotCallMethod(m, o.name))
    case _ => Invalid(NotStringExpression)
  }

  /** The left side of `>` in a string validation: a `.length` of the
      parameter or of a bound string, a bound integer reached through any
      member, or a bound integer; anything else makes the comparison false. */
  function GreaterLeft(left: Expression, value: string, param: string, ctx: Bindings): Option<I64>
  {
    if left.MemberAccess? then
      if !left.obj.Identifier? then None
      else
        var n := left.obj.name;
        if n == param && left.member == "length" then Some(LengthAsI64(|value|))
        else if n !in ctx then None
        else
          match ctx[n]
          case SString(s) => if left.member == "length" then Some(LengthAsI64(|s|)) else None
          case SInteger(k) => Some(k)
          case SBoolean(_) => None
    else if left.Identifier? && left.name in ctx && ctx[left.name].SInteger? then Some(ctx[left.name].n)
    else None
  }

  /** The right side of `>`: an integer literal or a bound integer. */
  function GreaterRight(right: Expression, ctx: Bindings): Option<I64>
  {
    if right.Literal? && right.lit.IntegerLit? then Some(right.lit.n)
    else if right.Identifier? && right.name in ctx && ctx[right.name].SInteger? then Some(ctx[right.name].n)
    else None
  }

  /** The text `contains` searches: the parameter or a bound string. */
  function ContainsSubject(left: Expression, value: string, param: string, ctx: Bindings): Option<string>
  {
    if !left.Identifier? then None
    else if left.name == param then Some(value)
    else if left.name in ctx && ctx[left.name].SString? then Some(ctx[left.name].s)
    else None
  }

  /** `evaluate_string_validation_with_context`. */
  function StringValidation(value: string, e: Expression, param: string, ctx: Bindings): (r: Result<bool>)
    decreases e
  {
    match e
    case Binary(And, l, rt) =>
      var a :- StringValidation(value, l, param, ctx);
      if !a then Ok(false) else StringValidation(value, rt, param, ctx)
    case Binary(Or, l, rt) =>
      var a :- StringValidation(value, l, param, ctx);
      if a then Ok(true) else StringValidation(value, rt, param, ctx)
    case Comparison(Contains, l, rt) =>
      var subject := ContainsSubject(l, value, param, ctx);
      Ok(subject.Some? && rt.Literal? && rt.lit.StringLit? && ContainsSub(subject.value, rt.lit.s))
    case Comparison(Equal, l, rt) =>
      var a :- StringExpr(l, value, param, ctx);
      var b :- StringExpr(rt, value, param, ctx);
      Ok(a == b)
    case Comparison(NotEqual, l, rt) =>
      var a :- StringExpr(l, value, param, ctx);
      var b :- StringExpr(rt, value, param, ctx);
      Ok(a != b)
    case Comparison(Greater, l, rt) =>
      var a := GreaterLeft(l, value, param, ctx);
      var b := GreaterRight(rt, ctx);
      Ok(a.Some? && b.Some? && a.value > b.value)
    case Pipeline(l, _) => StringValidation(value, l, param, ctx)
    case Let(x, b, body) =>
      var v :- LetValue(b, param, SString(value), ctx);
      StringValidation(value, body, param, ctx[x := v])
    case Match(s, arms) =>
      if s.Identifier? && (s.name == param || s.name in ctx) && arms != [] then
        StringValidation(value, arms[0].body, param, ctx)
      else Ok(false)
    case _ => Ok(true)
  }

  // ---------------------------------------------------------------------
  // Let bindings
  // ---------------------------------------------------------------------

  /** An integer result, or the overflow panic of a debug build. */
  function CheckedScalar(x: int): (r: Result<Scalar>)
    ensures r.Ok? <==> InI64(x)
    ensures r.Ok? ==> r.value == SInteger(x)
  {
    if InI64(x) then Ok(SInteger(x)) else Err(Overflow())
  }

  /** `evaluate_expression_to_value` (string parameter, `paramValue` a
      string) and `evaluate_expression_to_value_int` (integer parameter,
      `paramValue` an integer): literals, names, `+`, `*` and `/` on
      integers; only the string version reads `param.length`. */
  function LetValue(e: Expression, param: string, paramValue: Scalar, ctx: Bindings): (r: Result<Scalar>)
    requires paramValue.SString? || paramValue.SInteger?
    ensures e == Identifier(param) ==> r == Ok(paramValue)
    ensures e.Literal? ==> r.Ok?
    decreases e
  {
    match e
    case Literal(StringLit(s)) => Ok(SString(s))
    case Literal(IntegerLit(n)) => Ok(SInteger(n))
    case Literal(BooleanLit(b)) => Ok(SBoolean(b))
    case Identifier(x) =>
      if x == param then Ok(paramValue)
      else if x in ctx then Ok(ctx[x])
      else Invalid(UnknownIdentifier(x))
    case MemberAccess(o, m) =>
      if paramValue.SInteger? then Invalid(UnsupportedInLet)
      else if !o.Identifier? then Invalid(ComplexMemberAccess)
      else if o.name == param && m == "length" then Ok(SInteger(LengthAsI64(|paramValue.s|)))
      else Invalid(UnknownMemberAccess(o.name, m))
    case Binary(Multiply, l, rt) =>
      var a :- LetValue(l, param, paramValue, ctx);
      var b :- LetValue(rt, param, paramValue, ctx);
      if a.SInteger? && b.SInteger? then CheckedScalar(a.n * b.n) else Invalid(MultiplicationNeedsIntegers)
    case Binary(Divide, l, rt) =>
      var a :- LetValue(l, param, paramValue, ctx);
      var b :- LetValue(rt, param, paramValue, ctx);
      if !(a.SInteger? && b.SInteger?) then Invalid(DivisionNeedsIntegers)
      else if b.n == 0 then Invalid(DivisionByZero)
      else CheckedScalar(TruncDiv(a.n, b.n))
    case Binary(Add, l, rt) =>
      var a :- LetValue(l, param, paramValue, ctx);
      var b :- LetValue(rt, param, paramValue, ctx);
      if a.SInteger? && b.SInteger? then CheckedScalar(a.n + b.n) else Invalid(AdditionNeedsIntegers)
    case _ => Invalid(UnsupportedInLet)
  }

  // ---------------------------------------------------------------------
  // Validators and the compiler
  // ---------------------------------------------------------------------

  /** The validator `compile_value_declaration` builds: with a validate
      clause, a `String` parameter given a string input or an `Int`
      parameter given an integer input is checked by the matching
      interpreter, and a false verdict is a validation error tagged with the
      type's name; every other case is accepted. */
  function RunValidator(d: ValueDeclaration, input: Input): (r: Result<()>)
    ensures d.body.validate.None? ==> r.Ok?
    ensures !(d.parameter.ty == StringT && input.InputString?) && !(d.parameter.ty == IntT && input.InputInt?) ==> r.Ok?
    ensures d.body.validate.Some? && d.parameter.ty == StringT && input.InputString? ==>
      match StringValidation(input.s, d.body.validate.value, d.parameter.name, map[])
      case Ok(b) => r == if b then Ok(()) else Err(ValidationError(ValidationFailed, d.name))
      case Err(err) => r == Err(err)
    ensures d.body.validate.Some? && d.parameter.ty == IntT && input.InputInt? ==>
      match IntValidation(input.n, d.body.validate.value, d.parameter.name, map[])
      case Ok(b) => r == if b then Ok(()) else Err(ValidationError(ValidationFailed, d.name))
      case Err(err) => r == Err(err)
  {
    if d.body.validate.None? then Ok(())
    else
      var e := d.body.validate.value;
      var verdict :-
        if d.parameter.ty == StringT && input.InputString? then StringValidation(input.s, e, d.parameter.name, map[])
        else if d.parameter.ty == IntT && input.InputInt? then IntValidation(input.n, e, d.parameter.name, map[])
        else Ok(true);
      if verdict then Ok(()) else Err(ValidationError(ValidationFailed, d.name))
  }

  /** The constructor registered for a value declaration. Its normalizer,
      present exactly when the declaration has a normalize clause, leaves
      the input as it is. */
  function CompiledConstructor(d: ValueDeclaration): (c: Values.ValueConstructor)
    ensures c.declaration == d
    ensures c.normalizer.Some? <==> d.body.normalize.Some?
  {
    Values.ValueConstructor(d, (i: Input) => RunValidator(d, i),
      if d.body.normalize.Some? then Some((i: Input) => Ok(i)) else None)
  }

  /** A method is recorded as the function of the same shape. */
  function AsFunction(m: MethodDeclaration): FunctionDeclaration
  {
    FunctionDeclaration(m.name, m.parameters, m.returnType, m.body)
  }

  /** The registry after one more implementation of `f.name`. */
  function AddFunction(reg: Registry, f: FunctionDeclaration): (r: Registry)
    ensures r.constructors == reg.constructors
    ensures f.name in r.functions &&
      r.functions[f.name] == (if f.name in reg.functions then reg.functions[f.name] else []) + [f]
    ensures forall n :: n != f.name ==>
      ((n in r.functions <==> n in reg.functions) && (n in r.functions ==> r.functions[n] == reg.functions[n]))
  {
    reg.(functions := reg.functions[f.name := (if f.name in reg.functions then reg.functions[f.name] else []) + [f]])
  }

  /** The name under which a declaration registers an implementation; a
      value or relation declaration registers none. */
  function FunctionName(d: Declaration): Option<string>
  {
    match d
    case ValueDecl(_) => None
    case FunctionDecl(f) => Some(f.name)
    case MethodDecl(m) => Some(m.name)
    case RelationDecl(_) => None
  }

  /** `compile_declaration` on the registry: a value declaration adds or
      replaces its constructor, a function or method adds an implementation,
      a relation declaration changes nothing, and no recorded implementation
      is lost. */
  function CompileDecl(reg: Registry, d: Declaration): (r: Registry)
    ensures forall n :: n in r.constructors <==> n in reg.constructors || (d.ValueDecl? && n == d.value.name)
    ensures forall n :: n in r.functions <==> n in reg.functions || FunctionName(d) == Some(n)
    ensures forall n :: n in reg.functions ==> reg.functions[n] <= r.functions[n]
    ensures d.RelationDecl? ==> r == reg
  {
    match d
    case ValueDecl(v) => reg.(constructors := reg.constructors[v.name := CompiledConstructor(v)])
    case FunctionDecl(f) => AddFunction(reg, f)
    case MethodDecl(m) => AddFunction(reg, AsFunction(m))
    case RelationDecl(_) => reg
  }

  /** `compile_program`: every declaration in order. Exactly the value
      declarations' names gain a constructor, and exactly the function and
      method names gain implementations. */
  function CompileAll(reg: Registry, ds: seq<Declaration>): (r: Registry)
    ensures forall n :: n in r.constructors <==>
      n in reg.constructors || exists k :: 0 <= k < |ds| && ds[k].ValueDecl? && ds[k].value.name == n
    ensures forall n :: n in r.functions <==>
      n in reg.functions || exists k :: 0 <= k < |ds| && FunctionName(ds[k]) == Some(n)
    decreases |ds|
  {
    if ds == [] then reg else CompileAll(CompileDecl(reg, ds[0]), ds[1..])
  }

  class Compiler {
    var registry: Registry
    var specialization: SpecializationCache

    constructor()
      ensures registry == Registry(map[], map[])
      ensures fresh(specialization) && specialization.cache == map[]
    {
      registry := Registry(map[], map[]);
      specialization := new SpecializationCache();
    }

    /** Registers the compiled constructor, replacing one of the same name. */
    method CompileValueDeclaration(d: ValueDeclaration)
      modifies this
      ensures registry == old(registry).(constructors := old(registry).constructors[d.name := CompiledConstructor(d)])
    {
      registry := registry.(constructors := registry.constructors[d.name := CompiledConstructor(d)]);
    }

    method CompileFunctionDeclaration(f: FunctionDeclaration)
      modifies this
      ensures registry == AddFunction(old(registry), f)
    {
      var earlier := if f.name in registry.functions then registry.functions[f.name] else [];
      registry := registry.(functions := registry.functions[f.name := earlier + [f]]);
    }

    method CompileMethodDeclaration(m: MethodDeclaration)
      modifies this
      ensures registry == AddFunction(old(registry), AsFunction(m))
    {
      CompileFunctionDeclaration(AsFunction(m));
    }

    /** No declaration can fail to compile. */
    method CompileDeclaration(d: Declaration) returns (r: Result<()>)
      modifies this
      ensures r == Ok(()) && registry == CompileDecl(old(registry), d)
    {
      match d {
        case ValueDecl(v) => CompileValueDeclaration(v);
        case FunctionDecl(f) => CompileFunctionDeclaration(f);
        case MethodDecl(m) => CompileMethodDeclaration(m);
        case RelationDecl(_) =>
      }
      r := Ok(());
    }

    method CompileProgram(p: Program) returns (r: Result<()>)
      modifies this
      ensures r == Ok(()) && registry == CompileAll(old(registry), p.declarations)
    {
      var i := 0;
      while i < |p.declarations|
        invariant 0 <= i <= |p.declarations|
        invariant CompileAll(old(registry), p.declarations) == CompileAll(registry, p.declarations[i..])
      {
        assert p.declarations[i..][1..] == p.declarations[i + 1..];
        r := CompileDeclaration(p.declarations[i]);
        i := i + 1;
      }
      r := Ok(());
    }

    /** `evaluate_expression`: the plain evaluator with no local bindings. */
    method EvaluateExpression(fuel: nat, e: Expression, cache: DispatchCache) returns (o: Outcome<EvalValue>)
      ensures o == Eval(fuel, e, map[], registry, cache)
    {
      o := Eval(fuel, e, map[], registry, cache);
    }

    /** `evaluate_expression_with_optimization`: the calls in the expression
        are specialised with an empty type environment, then the optimised
        evaluator runs with no bindings and an empty type environment. The
        specialisation cache only grows, with known keys, and stays
        consistent with the function table if it was. */
    method EvaluateWithOptimization(fuel: nat, e: Expression, cache: DispatchCache) returns (o: Outcome<EvalValue>)
      modifies specialization
      ensures Extends(specialization) && NewKeysKnown(specialization)
      ensures old(Sound(specialization.cache, registry.functions)) ==> Sound(specialization.cache, registry.functions)
      ensures o == EvalOpt(fuel, e, map[], registry, specialization.cache, map[], cache)
    {
      SpecializeFunctionCalls(e, map[], specialization, registry.functions);
      o := EvalOpt(fuel, e, map[], registry, specialization.cache, map[], cache);
    }
  }
}
