/**
 * The static environment of the type checker (src/types.rs): value types by
 * name, and for every function name the list of its implementations'
 * signatures in declaration order. Methods are stored as functions whose
 * first parameter is the receiver.
 */
module Types {
  import opened Wrappers
  import opened Ast

  datatype FunctionType = FunctionType(name: string, parameterTypes: seq<Type>, returnType: Type)

  /** A method's signature; the guards are only recorded as present or not. */
  datatype MethodSignature = MethodSignature(parameterTypes: seq<Type>, returnType: Type, guards: seq<Option<string>>)

  datatype Constraints = Constraints(validate: Option<string>, normalize: Option<string>, unique: bool)

  datatype ValueType = ValueType(name: string, parameterType: Type, constraints: Constraints)

  type FunctionTable = map<string, seq<FunctionType>>

  /** The implementations recorded under a name, none when it is unknown. */
  function Implementations(fs: FunctionTable, name: string): seq<FunctionType>
  {
    if name in fs then fs[name] else []
  }

  /** The table after one more implementation of `name` is recorded: it goes
      at the end of that name's list; every other name keeps its list. */
  function Append(fs: FunctionTable, name: string, ft: FunctionType): (r: FunctionTable)
    ensures name in r && Implementations(r, name) == Implementations(fs, name) + [ft]
    ensures forall n :: n != name ==> (n in r <==> n in fs) && Implementations(r, n) == Implementations(fs, n)
  {
    fs[name := Implementations(fs, name) + [ft]]
  }

  /** `get_function`: the signature of a name with exactly one
      implementation. */
  function SoleImplementation(fs: FunctionTable, name: string): (r: Option<FunctionType>)
    ensures r.Some? <==> |Implementations(fs, name)| == 1
    ensures r.Some? ==> r.value == fs[name][0]
  {
    if name in fs && |fs[name]| == 1 then Some(fs[name][0]) else None
  }

  /** Recording implementations never reorders or drops earlier ones. */
  lemma {:induction false} AppendKeepsEarlier(fs: FunctionTable, name: string, ft: FunctionType, k: nat)
    requires k < |Implementations(fs, name)|
    ensures k < |Implementations(Append(fs, name, ft), name)|
    ensures Implementations(Append(fs, name, ft), name)[k] == Implementations(fs, name)[k]
  {
    assert Implementations(Append(fs, name, ft), name) == Implementations(fs, name) + [ft];
  }

  /** A second implementation of a name hides it from `get_function`,
      whatever the two signatures are: identical signatures are appended,
      not rejected. */
  lemma SecondDefinitionHidesSole(fs: FunctionTable, name: string, a: FunctionType, b: FunctionType)
    requires name !in fs
    ensures SoleImplementation(Append(fs, name, a), name) == Some(a)
    ensures Implementations(Append(Append(fs, name, a), name, b), name) == [a, b]
    ensures SoleImplementation(Append(Append(fs, name, a), name, b), name) == None
  {
    assert Implementations(Append(fs, name, a), name) == [a];
    assert Implementations(Append(Append(fs, name, a), name, b), name) == [a] + [b];
  }

  class TypeEnvironment {
    var values: map<string, ValueType>
    var functions: FunctionTable

    constructor()
      ensures values == map[] && functions == map[]
    {
      values := map[];
      functions := map[];
    }

    /** `define_value`: a later definition replaces an earlier one. */
    method DefineValue(name: string, valueType: ValueType)
      modifies this
      ensures values == old(values)[name := valueType] && functions == old(functions)
    {
      values := values[name := valueType];
    }

    function GetValue(name: string): (r: Option<ValueType>)
      reads this
      ensures r.Some? <==> name in values
      ensures r.Some? ==> r.value == values[name]
    {
      if name in values then Some(values[name]) else None
    }

    /** `define_function`: appended to the name's list, with no check for an
        existing implementation of the same signature. */
    method DefineFunction(name: string, parameterTypes: seq<Type>, returnType: Type)
      modifies this
      ensures functions == Append(old(functions), name, FunctionType(name, parameterTypes, returnType))
      ensures values == old(values)
    {
      functions := functions[name := Implementations(functions, name) + [FunctionType(name, parameterTypes, returnType)]];
    }

    /** `get_function`: only a name with exactly one implementation. */
    function GetFunction(name: string): (r: Option<FunctionType>)
      reads this
      ensures r == SoleImplementation(functions, name)
    {
      if name in functions && |functions[name]| == 1 then Some(functions[name][0]) else None
    }

    /** `get_functions`: every implementation, in declaration order. */
    function GetFunctions(name: string): (r: Option<seq<FunctionType>>)
      reads this
      ensures r.Some? <==> name in functions
      ensures r.Some? ==> r.value == Implementations(functions, name)
    {
      if name in functions then Some(functions[name]) else None
    }

    /** `define_method`: stored in the function table like a function; the
        guard information is dropped. */
    method DefineMethod(name: string, signature: MethodSignature)
      modifies this
      ensures functions == Append(old(functions), name, FunctionType(name, signature.parameterTypes, signature.returnType))
      ensures values == old(values)
    {
      DefineFunction(name, signature.parameterTypes, signature.returnType);
    }

    /** `get_methods`: nothing is ever stored as a method signature, so
        there is never anything to return. */
    function GetMethods(name: string): (r: Option<seq<MethodSignature>>)
      ensures r.None?
    {
      None
    }
  }
}
