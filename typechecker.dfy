/**
 * The static checker (src/typechecker.rs). Expressions are checked by a
 * pure recursive function over the environment's function table, its value
 * types and the local variables; declarations are checked by a class that
 * owns a `TypeEnvironment` and a `locals` map, and record what they declare
 * in the environment.
 *
 * The method-signature branches of the repository's checker read
 * `get_methods`, which never returns anything; they are unreachable and are
 * not modelled.
 */
module TypeChecker {
  import opened Wrappers
  import opened Ast
  import opened Errors
  import opened Types

  type Locals = map<string, Type>

  function Problem<T>(p: TypeProblem): Result<T> { Err(TypeError(p)) }

  // ---------------------------------------------------------------------
  // Matching argument types against signatures
  // ---------------------------------------------------------------------

  /** The first position where two equally long type lists differ. */
  function FirstMismatch(expected: seq<Type>, actual: seq<Type>): (r: Option<nat>)
    requires |expected| == |actual|
    ensures r.None? <==> expected == actual
    ensures r.Some? ==> (r.value < |expected| && expected[r.value] != actual[r.value] &&
      forall k :: 0 <= k < r.value ==> expected[k] == actual[k])
  {
    if expected == [] then None
    else if expected[0] != actual[0] then Some(0)
    else
      var rest := FirstMismatch(expected[1..], actual[1..]);
      if rest.None? then
        assert expected == [expected[0]] + expected[1..] && actual == [actual[0]] + actual[1..];
        None
      else Some(rest.value + 1)
  }

  /** The first implementation whose parameter types are exactly the
      argument types; `Any` is no wildcard here. */
  function FirstExact(fts: seq<FunctionType>, argTypes: seq<Type>): (r: Option<nat>)
    ensures r.Some? ==> (r.value < |fts| && fts[r.value].parameterTypes == argTypes &&
      forall k :: 0 <= k < r.value ==> fts[k].parameterTypes != argTypes)
    ensures r.None? ==> forall k :: 0 <= k < |fts| ==> fts[k].parameterTypes != argTypes
  {
    if fts == [] then None
    else if fts[0].parameterTypes == argTypes then Some(0)
    else
      var rest := FirstExact(fts[1..], argTypes);
      if rest.None? then None else Some(rest.value + 1)
  }

  /** A call of a name with one implementation: the argument count first,
      then each argument's type in order, compared for equality. */
  function CheckSoleCall(name: string, ft: FunctionType, argTypes: seq<Type>): (r: Result<Type>)
    ensures r.Ok? <==> argTypes == ft.parameterTypes
    ensures r.Ok? ==> r.value == ft.returnType
    ensures |argTypes| != |ft.parameterTypes| ==> r == Problem(CallArity(name, |ft.parameterTypes|, |argTypes|))
  {
    if |argTypes| != |ft.parameterTypes| then Problem(CallArity(name, |ft.parameterTypes|, |argTypes|))
    else
      var i := FirstMismatch(ft.parameterTypes, argTypes);
      if i.Some? then Problem(CallParameterMismatch(name, i.value + 1)) else Ok(ft.returnType)
  }

  /** `receiver.m(args)` against the one implementation of `m`: it needs a
      first parameter of the receiver's type, then the remaining parameters
      must match the arguments in number and type. */
  function CheckSoleMethodCall(m: string, ft: FunctionType, receiverType: Type, argTypes: seq<Type>)
    : (r: Result<Type>)
    ensures r.Ok? <==> ft.parameterTypes == [receiverType] + argTypes
    ensures r.Ok? ==> r.value == ft.returnType
    ensures ft.parameterTypes == [] ==> r == Problem(TakesNoParameters(m))
  {
    var ps := ft.parameterTypes;
    if ps == [] then Problem(TakesNoParameters(m))
    else if ps[0] != receiverType then Problem(ReceiverMismatch(m))
    else if |argTypes| != |ps| - 1 then Problem(MethodArity(m, |ps| - 1, |argTypes|))
    else
      assert ps == [ps[0]] + ps[1..];
      var i := FirstMismatch(ps[1..], argTypes);
      if i.Some? then Problem(MethodParameterMismatch(m, i.value + 2)) else Ok(ft.returnType)
  }

  // ---------------------------------------------------------------------
  // Expressions
  // ---------------------------------------------------------------------

  /** `check_expression`. */
  function Check(e: Expression, fs: FunctionTable, values: map<string, ValueType>, locals: Locals)
    : (res: Result<Type>)
    ensures e.Comparison? && res.Ok? ==> res.value == BoolT
    ensures e.Literal? ==> res == Ok(LiteralType(e.lit))
    ensures e.Identifier? ==> res == if e.name in locals then Ok(locals[e.name]) else Problem(UndefinedIdentifier(e.name))
    decreases Size(e), 0
  {
    match e
    case Binary(op, l, r) =>
      var lt :- Check(l, fs, values, locals);
      var rt :- Check(r, fs, values, locals);
      if op in {And, Or} then
        if lt != BoolT || rt != BoolT then Problem(LogicalNeedsBool) else Ok(BoolT)
      else if lt != IntT || rt != IntT then Problem(ArithmeticNeedsInt)
      else Ok(IntT)
    case Unary(op, x) =>
      var t :- Check(x, fs, values, locals);
      if op == Not then
        if t != BoolT then Problem(NotNeedsBool) else Ok(BoolT)
      else if t != IntT then Problem(MinusNeedsInt)
      else Ok(IntT)
    case Literal(lit) => Ok(LiteralType(lit))
    case Identifier(x) =>
      if x in locals then Ok(locals[x]) else Problem(UndefinedIdentifier(x))
    case FunctionCall(name, args) =>
      if name !in fs then Problem(UndefinedFunction(name))
      else
        var ats :- CheckArgs(args, fs, values, locals);
        var fts := fs[name];
        if |fts| == 1 then CheckSoleCall(name, fts[0], ats)
        else
          var i := FirstExact(fts, ats);
          if i.Some? then Ok(fts[i.value].returnType) else Problem(NoMatchingImplementation(name))
    case MemberAccess(o, m) =>
      var t :- Check(o, fs, values, locals);
      if t == StringT && m == "length" then Ok(IntT) else Problem(NoSuchMember(m))
    case MethodCall(o, m, args) =>
      var ot :- Check(o, fs, values, locals);
      var ats :- CheckArgs(args, fs, values, locals);
      if m in fs then
        var fts := fs[m];
        if |fts| == 1 then CheckSoleMethodCall(m, fts[0], ot, ats)
        else
          var i := FirstExact(fts, [ot] + ats);
          if i.Some? then Ok(fts[i.value].returnType) else Problem(NoMatchingImplementation(m))
      else if ot == StringT && (m == "toLowerCase" || m == "toUpperCase") then
        if args != [] then Problem(BuiltinTakesNoArguments(m)) else Ok(StringT)
      else Problem(NoSuchMethod(m))
    case Comparison(op, l, r) =>
      var lt :- Check(l, fs, values, locals);
      var rt :- Check(r, fs, values, locals);
      if op == Contains then
        if lt != StringT || rt != StringT then Problem(ContainsNeedsStrings) else Ok(BoolT)
      else if lt != rt then Problem(ComparisonNeedsSameType)
      else Ok(BoolT)
    case Pipeline(l, r) =>
      var _ :- Check(l, fs, values, locals);
      Check(r, fs, values, locals)
    case Let(x, b, body) =>
      var bt :- Check(b, fs, values, locals);
      Check(body, fs, values, locals[x := bt])
    case Match(s, arms) =>
      var st :- Check(s, fs, values, locals);
      if !st.ValueT? then Problem(MatchOnNonValue)
      else if st.name !in values then Problem(UnknownValueTypeName(st.name))
      else
        var armType :- CheckArms(arms, st.name, values[st.name].parameterType, None, fs, values, locals);
        if armType.None? then Problem(MatchWithoutArms) else Ok(armType.value)
    case TypeLiteral(_) => Problem(NoRuleForTypeLiteral)
  }

  /** The argument types of a call, left to right; the first error stops. */
  function CheckArgs(args: seq<Expression>, fs: FunctionTable, values: map<string, ValueType>, locals: Locals)
    : (res: Result<seq<Type>>)
    ensures res.Ok? ==> |res.value| == |args|
    decreases SizeList(args), 1
  {
    if args == [] then Ok([])
    else
      var t :- Check(args[0], fs, values, locals);
      var ts :- CheckArgs(args[1..], fs, values, locals);
      Ok([t] + ts)
  }

  /** The arms of a match on a value of type `valueName`: each pattern must
      name that type, each body is checked with the pattern's binding at
      the value type's parameter type, and all bodies must have the type of
      the first. */
  function CheckArms(arms: seq<MatchArm>, valueName: string, paramType: Type, sofar: Option<Type>,
                     fs: FunctionTable, values: map<string, ValueType>, locals: Locals)
    : (res: Result<Option<Type>>)
    ensures res.Ok? && sofar.Some? ==> res.value == sofar
    ensures res.Ok? && arms != [] ==> res.value.Some?
    ensures arms == [] ==> res == Ok(sofar)
    decreases SizeArms(arms), 1
  {
    if arms == [] then Ok(sofar)
    else
      var arm := arms[0];
      if arm.pattern.ctor != valueName then Problem(PatternMismatch(arm.pattern.ctor, valueName))
      else
        assert SizeArms(arms) == SizeArm(arms[0]) + SizeArms(arms[1..]);
        var t :- Check(arm.body, fs, values, locals[arm.pattern.binding := paramType]);
        if sofar.Some? && t != sofar.value then Problem(ArmTypesDiffer)
        else CheckArms(arms[1..], valueName, paramType, Some(t), fs, values, locals)
  }

  // ---------------------------------------------------------------------
  // Declarations
  // ---------------------------------------------------------------------

  /** The state a sequence of declarations is checked against. */
  datatype Env = Env(functions: FunctionTable, values: map<string, ValueType>)

  /** The locals a body is checked in: its parameters, a later parameter of
      the same name overriding an earlier one. */
  function ParamLocals(ps: seq<ParameterWithGuard>): (l: Locals)
    ensures forall x :: x in l <==> exists i :: 0 <= i < |ps| && ps[i].name == x
  {
    if ps == [] then map[]
    else
      var n := |ps| - 1;
      assert forall i :: 0 <= i < n ==> ps[..n][i] == ps[i];
      ParamLocals(ps[..n])[ps[n].name := ps[n].ty]
  }

  /** Every guard present has type `Bool`. */
  predicate GuardsAreBool(ps: seq<ParameterWithGuard>, fs: FunctionTable, values: map<string, ValueType>,
                          locals: Locals)
  {
    forall i :: 0 <= i < |ps| && ps[i].guard.Some? ==> Check(ps[i].guard.value, fs, values, locals) == Ok(BoolT)
  }

  /** The guards, in parameter order; the first ill-typed or non-`Bool`
      guard is the error. */
  function CheckGuards(ps: seq<ParameterWithGuard>, fs: FunctionTable, values: map<string, ValueType>,
                       locals: Locals): (r: Result<()>)
    ensures r.Ok? <==> GuardsAreBool(ps, fs, values, locals)
  {
    if ps == [] then Ok(())
    else
      var rest := CheckGuards(ps[1..], fs, values, locals);
      assert GuardsAreBool(ps, fs, values, locals) <==>
        (ps[0].guard.Some? ==> Check(ps[0].guard.value, fs, values, locals) == Ok(BoolT)) &&
        GuardsAreBool(ps[1..], fs, values, locals) by {
        assert forall i :: 1 <= i < |ps| ==> ps[i] == ps[1..][i - 1];
      }
      if ps[0].guard.Some? then
        var t :- Check(ps[0].guard.value, fs, values, locals);
        if t != BoolT then Problem(GuardNotBool) else rest
      else rest
  }

  /** A function or method declaration is accepted exactly when, with its
      parameters as the locals, every guard is `Bool` and the body has the
      declared return type. */
  function CheckCallable(ps: seq<ParameterWithGuard>, returnType: Type, body: Expression, e: Env)
    : (r: Result<()>)
    ensures r.Ok? <==>
      GuardsAreBool(ps, e.functions, e.values, ParamLocals(ps)) &&
      Check(body, e.functions, e.values, ParamLocals(ps)) == Ok(returnType)
  {
    var locals := ParamLocals(ps);
    var _ :- CheckGuards(ps, e.functions, e.values, locals);
    var bt :- Check(body, e.functions, e.values, locals);
    if bt != returnType then Problem(ReturnTypeMismatch) else Ok(())
  }

  /** The value type a declaration registers. */
  function ValueTypeOf(d: ValueDeclaration): ValueType
  {
    ValueType(d.name, d.parameter.ty,
      Constraints(if d.body.validate.Some? then Some("custom") else None,
                  if d.body.normalize.Some? then Some("custom") else None,
                  d.body.unique == Some(true)))
  }

  /** `check_value_declaration`: the name must be new; with the parameter as
      the only local, the validate expression must be `Bool` and the
      normalize expression of the parameter's type. */
  function CheckValueDecl(d: ValueDeclaration, e: Env): (r: Result<ValueType>)
    ensures d.name in e.values ==> r == Problem(ValueAlreadyDefined(d.name))
    ensures r.Ok? <==> (d.name !in e.values &&
      (d.body.validate.Some? ==>
        Check(d.body.validate.value, e.functions, e.values, map[d.parameter.name := d.parameter.ty]) == Ok(BoolT)) &&
      (d.body.normalize.Some? ==>
        Check(d.body.normalize.value, e.functions, e.values, map[d.parameter.name := d.parameter.ty]) == Ok(d.parameter.ty)))
    ensures r.Ok? ==> r.value == ValueTypeOf(d)
  {
    if d.name in e.values then Problem(ValueAlreadyDefined(d.name))
    else
      var locals := map[d.parameter.name := d.parameter.ty];
      var vt :- if d.body.validate.Some? then Check(d.body.validate.value, e.functions, e.values, locals) else Ok(BoolT);
      if vt != BoolT then Problem(ValidateNotBool)
      else
        var nt :- if d.body.normalize.Some? then Check(d.body.normalize.value, e.functions, e.values, locals)
                  else Ok(d.parameter.ty);
        if nt != d.parameter.ty then Problem(NormalizeWrongType) else Ok(ValueTypeOf(d))
  }

  /** One declaration's effect on the environment. `check_declaration` has
      no arm for a relation declaration; here it leaves the environment
      unchanged. */
  function Declare(d: Declaration, e: Env): (r: Result<Env>)
    ensures d.ValueDecl? && r.Ok? ==>
      r.value == e.(values := e.values[d.value.name := ValueTypeOf(d.value)])
    ensures d.FunctionDecl? && r.Ok? ==>
      r.value == e.(functions := Append(e.functions, d.fun.name,
        FunctionType(d.fun.name, ParamTypes(d.fun.parameters), d.fun.returnType)))
    ensures d.MethodDecl? && r.Ok? ==>
      r.value == e.(functions := Append(e.functions, d.meth.name,
        FunctionType(d.meth.name, ParamTypes(d.meth.parameters), d.meth.returnType)))
    ensures d.RelationDecl? ==> r == Ok(e)
  {
    match d
    case ValueDecl(v) =>
      var vt :- CheckValueDecl(v, e);
      Ok(e.(values := e.values[v.name := vt]))
    case FunctionDecl(f) =>
      var _ :- CheckCallable(f.parameters, f.returnType, f.body, e);
      Ok(e.(functions := Append(e.functions, f.name, FunctionType(f.name, ParamTypes(f.parameters), f.returnType))))
    case MethodDecl(m) =>
      var _ :- CheckCallable(m.parameters, m.returnType, m.body, e);
      Ok(e.(functions := Append(e.functions, m.name, FunctionType(m.name, ParamTypes(m.parameters), m.returnType))))
    case RelationDecl(_) =>
      Ok(e)
  }

  /** `check_program`: the declarations in order; the first error stops. */
  function DeclareAll(ds: seq<Declaration>, e: Env): (r: Result<Env>)
    ensures r.Ok? ==> e.values.Keys <= r.value.values.Keys && e.functions.Keys <= r.value.functions.Keys
    ensures r.Ok? ==> forall k :: 0 <= k < |ds| && ds[k].ValueDecl? ==> ds[k].value.name in r.value.values
  {
    if ds == [] then Ok(e)
    else
      var e' :- Declare(ds[0], e);
      DeclareAll(ds[1..], e')
  }

  /** The environment `check_program` leaves: every declaration up to the
      first failing one recorded, and that one and the rest not. */
  function Declared(ds: seq<Declaration>, e: Env): (r: Env)
    ensures DeclareAll(ds, e).Ok? ==> r == DeclareAll(ds, e).value
  {
    if ds == [] then e
    else
      match Declare(ds[0], e)
      case Err(_) => e
      case Ok(e') => Declared(ds[1..], e')
  }

  /** When checking fails, it fails at declaration `k`: the declarations
      before it all check, leaving the environment `Declared` gives, and
      declaration `k` is rejected in that environment with the error the
      whole check reports. */
  lemma {:induction false} DeclaredStopsAtFailure(ds: seq<Declaration>, e: Env)
    requires DeclareAll(ds, e).Err?
    ensures exists k :: 0 <= k < |ds| && DeclareAll(ds[..k], e) == Ok(Declared(ds, e)) &&
                        Declare(ds[k], Declared(ds, e)) == Err(DeclareAll(ds, e).error)
  {
    assert ds[..0] == [];
    match Declare(ds[0], e)
    case Err(_) =>
      assert DeclareAll(ds[..0], e) == Ok(e);
    case Ok(e') =>
      DeclaredStopsAtFailure(ds[1..], e');
      var k :| 0 <= k < |ds[1..]| && DeclareAll(ds[1..][..k], e') == Ok(Declared(ds[1..], e')) &&
        Declare(ds[1..][k], Declared(ds[1..], e')) == Err(DeclareAll(ds[1..], e').error);
      assert ds[..k + 1][0] == ds[0] && ds[..k + 1][1..] == ds[1..][..k];
  }

  class TypeChecker {
    var env: TypeEnvironment
    var locals: Locals

    constructor()
      ensures fresh(env) && env.values == map[] && env.functions == map[] && locals == map[]
    {
      env := new TypeEnvironment();
      locals := map[];
    }

    function State(): Env
      reads this, env
    {
      Env(env.functions, env.values)
    }

    method CheckValueDeclaration(d: ValueDeclaration) returns (r: Result<()>)
      modifies this, env
      ensures env == old(env) && env.functions == old(env.functions)
      ensures match CheckValueDecl(d, old(State()))
        case Ok(vt) => r == Ok(()) && env.values == old(env.values)[d.name := vt]
        case Err(err) => r == Err(err) && env.values == old(env.values)
      ensures locals == if d.name in old(env.values) then old(locals) else map[d.parameter.name := d.parameter.ty]
    {
      if env.GetValue(d.name).Some? {
        return Problem(ValueAlreadyDefined(d.name));
      }
      locals := map[d.parameter.name := d.parameter.ty];
      if d.body.validate.Some? {
        var t := Check(d.body.validate.value, env.functions, env.values, locals);
        if t.Err? {
          return Err(t.error);
        }
        if t.value != BoolT {
          return Problem(ValidateNotBool);
        }
      }
      if d.body.normalize.Some? {
        var t := Check(d.body.normalize.value, env.functions, env.values, locals);
        if t.Err? {
          return Err(t.error);
        }
        if t.value != d.parameter.ty {
          return Problem(NormalizeWrongType);
        }
      }
      env.DefineValue(d.name, ValueTypeOf(d));
      return Ok(());
    }

    /** `locals` cleared and refilled with the parameters, in order. */
    method BindParameters(ps: seq<ParameterWithGuard>)
      modifies this`locals
      ensures locals == ParamLocals(ps)
    {
      locals := map[];
      var i := 0;
      while i < |ps|
        invariant 0 <= i <= |ps|
        invariant locals == ParamLocals(ps[..i])
      {
        assert ps[..i + 1][..i] == ps[..i];
        locals := locals[ps[i].name := ps[i].ty];
        i := i + 1;
      }
      assert ps[..i] == ps;
    }

    /** The part shared by function and method declarations: the locals are
        reset to the parameters, then the guards and the body are checked. */
    method CheckSignature(ps: seq<ParameterWithGuard>, returnType: Type, body: Expression) returns (r: Result<()>)
      modifies this`locals
      ensures env == old(env)
      ensures locals == ParamLocals(ps)
      ensures r == CheckCallable(ps, returnType, body, State())
    {
      BindParameters(ps);
      var g := CheckGuardsInOrder(ps, env.functions, env.values, locals);
      if g.Err? {
        return g;
      }
      var bt := Check(body, env.functions, env.values, locals);
      if bt.Err? {
        return Err(bt.error);
      }
      if bt.value != returnType {
        return Problem(ReturnTypeMismatch);
      }
      return Ok(());
    }

    method CheckFunctionDeclaration(d: FunctionDeclaration) returns (r: Result<()>)
      modifies this, env
      ensures env == old(env) && env.values == old(env.values)
      ensures locals == ParamLocals(d.parameters)
      ensures r == CheckCallable(d.parameters, d.returnType, d.body, old(State()))
      ensures env.functions == if r.Ok? then
        Append(old(env.functions), d.name, FunctionType(d.name, ParamTypes(d.parameters), d.returnType))
        else old(env.functions)
    {
      r := CheckSignature(d.parameters, d.returnType, d.body);
      if r.Ok? {
        env.DefineFunction(d.name, ParamTypes(d.parameters), d.returnType);
      }
    }

    method CheckMethodDeclaration(d: MethodDeclaration) returns (r: Result<()>)
      modifies this, env
      ensures env == old(env) && env.values == old(env.values)
      ensures locals == ParamLocals(d.parameters)
      ensures r == CheckCallable(d.parameters, d.returnType, d.body, old(State()))
      ensures env.functions == if r.Ok? then
        Append(old(env.functions), d.name, FunctionType(d.name, ParamTypes(d.parameters), d.returnType))
        else old(env.functions)
    {
      r := CheckSignature(d.parameters, d.returnType, d.body);
      if r.Ok? {
        var guards := GuardTags(d.parameters);
        env.DefineMethod(d.name, MethodSignature(ParamTypes(d.parameters), d.returnType, guards));
      }
    }

    method CheckDeclaration(d: Declaration) returns (r: Result<()>)
      modifies this, env
      ensures env == old(env)
      ensures match Declare(d, old(State()))
        case Ok(e) => r == Ok(()) && State() == e
        case Err(err) => r == Err(err) && State() == old(State())
    {
      match d {
        case ValueDecl(v) => r := CheckValueDeclaration(v);
        case FunctionDecl(f) => r := CheckFunctionDeclaration(f);
        case MethodDecl(m) => r := CheckMethodDeclaration(m);
        case RelationDecl(_) => r := Ok(());
      }
    }

    /** `check_program`. Declarations before a failing one stay recorded. */
    method CheckProgram(p: Program) returns (r: Result<()>)
      modifies this, env
      ensures env == old(env)
      ensures match DeclareAll(p.declarations, old(State()))
        case Ok(e) => r == Ok(()) && State() == e
        case Err(err) => r == Err(err) && State() == Declared(p.declarations, old(State()))
    {
      var ds := p.declarations;
      var i := 0;
      while i < |ds|
        invariant 0 <= i <= |ds| && env == old(env)
        invariant DeclareAll(ds, old(State())) == DeclareAll(ds[i..], State())
        invariant Declared(ds, old(State())) == Declared(ds[i..], State())
      {
        assert ds[i..][1..] == ds[i + 1..];
        r := CheckDeclaration(ds[i]);
        if r.Err? {
          return;
        }
        i := i + 1;
      }
      return Ok(());
    }
  }

  /** The guard loop of the declaration checks. */
  method CheckGuardsInOrder(ps: seq<ParameterWithGuard>, fs: FunctionTable, values: map<string, ValueType>,
                            locals: Locals) returns (r: Result<()>)
    ensures r == CheckGuards(ps, fs, values, locals)
  {
    var i := 0;
    while i < |ps|
      invariant 0 <= i <= |ps|
      invariant CheckGuards(ps, fs, values, locals) == CheckGuards(ps[i..], fs, values, locals)
    {
      assert ps[i..][1..] == ps[i + 1..];
      if ps[i].guard.Some? {
        var t := Check(ps[i].guard.value, fs, values, locals);
        if t.Err? {
          return Err(t.error);
        }
        if t.value != BoolT {
          return Problem(GuardNotBool);
        }
      }
      i := i + 1;
    }
    assert ps[i..] == [];
    return Ok(());
  }

  /** Which parameters carry a guard, as `define_method` records it. */
  function GuardTags(ps: seq<ParameterWithGuard>): (gs: seq<Option<string>>)
    ensures |gs| == |ps| && forall i :: 0 <= i < |ps| ==> (gs[i].Some? <==> ps[i].guard.Some?)
  {
    if ps == [] then [] else [if ps[0].guard.Some? then Some("custom") else None] + GuardTags(ps[1..])
  }
}
