/**
 * The abstract syntax shared by every stage of the language core: the
 * types a declaration can mention, expressions, match arms and the three
 * kinds of declaration.
 *
 * The repository's modules disagree on these shapes (the evaluator and the
 * specialiser use type variants and an expression variant the declaration
 * files lack); this module is the superset all of them use.
 */
module Ast {
  import opened Wrappers

  /** Signed 64-bit integers, the range of the source's `i64`. */
  const MinI64: int := -0x8000_0000_0000_0000
  const MaxI64: int := 0x7fff_ffff_ffff_ffff
  type I64 = x: int | MinI64 <= x <= MaxI64

  predicate InI64(x: int) { MinI64 <= x <= MaxI64 }

  /** Rust's `n as i64` for a `usize` length: the low 64 bits read as a
      two's-complement number. */
  function LengthAsI64(n: nat): (r: I64)
    ensures n <= MaxI64 ==> r == n
  {
    var m := n % 0x1_0000_0000_0000_0000;
    if m <= MaxI64 then m else m - 0x1_0000_0000_0000_0000
  }

  /** Integer division truncating toward zero, as Rust's `/` on integers. */
  function TruncDiv(a: int, b: int): (q: int)
    requires b != 0
    ensures a >= 0 && b > 0 ==> q == a / b
    ensures q * b == a - TruncRem(a, b)
  {
    var m := (if a < 0 then -a else a) / (if b < 0 then -b else b);
    if (a < 0) == (b < 0) then m else -m
  }

  /** Remainder taking the sign of the dividend, as Rust's `%` on integers. */
  function TruncRem(a: int, b: int): (r: int)
    requires b != 0
    ensures (if r < 0 then -r else r) < (if b < 0 then -b else b)
    ensures r != 0 ==> (r < 0 <==> a < 0)
  {
    var m := (if a < 0 then -a else a) % (if b < 0 then -b else b);
    if a < 0 then -m else m
  }

  /** Static types: the union of every variant the core's files use. */
  datatype Type =
    | StringT
    | IntT
    | BoolT
    | ValueT(name: string)
    | AnyT
    | UnknownT
    | TypeT
    | ListT(elem: Type)

  datatype BinaryOp = And | Or | Add | Subtract | Multiply | Divide | Modulo
  datatype UnaryOp = Not | Minus
  datatype ComparisonOp = Equal | NotEqual | Less | Greater | LessEqual | GreaterEqual | Contains

  datatype Literal =
    | StringLit(s: string)
    | IntegerLit(n: I64)
    | BooleanLit(b: bool)

  /** A match arm `Ctor(binding) => body`. */
  datatype Pattern = Constructor(ctor: string, binding: string)
  datatype MatchArm = MatchArm(pattern: Pattern, body: Expression)

  datatype Expression =
    | Binary(bop: BinaryOp, left: Expression, right: Expression)
    | Unary(uop: UnaryOp, operand: Expression)
    | Literal(lit: Literal)
    | Identifier(name: string)
    | FunctionCall(fname: string, args: seq<Expression>)
    | MemberAccess(obj: Expression, member: string)
    | MethodCall(receiver: Expression, mname: string, margs: seq<Expression>)
    | Comparison(cop: ComparisonOp, lhs: Expression, rhs: Expression)
    | Pipeline(source: Expression, target: Expression)
    | Let(bound: string, binding: Expression, body: Expression)
    | Match(scrutinee: Expression, arms: seq<MatchArm>)
    | TypeLiteral(typeName: string)

  /** The type of a literal: its kind. */
  function LiteralType(lit: Literal): Type
  {
    match lit
    case IntegerLit(_) => IntT
    case StringLit(_) => StringT
    case BooleanLit(_) => BoolT
  }

  datatype Parameter = Parameter(name: string, ty: Type)
  datatype ParameterWithGuard = ParameterWithGuard(name: string, ty: Type, guard: Option<Expression>)

  datatype ValueBody = ValueBody(validate: Option<Expression>, normalize: Option<Expression>, unique: Option<bool>)
  datatype ValueDeclaration = ValueDeclaration(name: string, parameter: Parameter, body: ValueBody)

  /** Functions and methods have the same shape; methods are functions whose
      first parameter is the receiver. */
  datatype FunctionDeclaration =
    FunctionDeclaration(name: string, parameters: seq<ParameterWithGuard>, returnType: Type, body: Expression)
  datatype MethodDeclaration =
    MethodDeclaration(name: string, parameters: seq<ParameterWithGuard>, returnType: Type, body: Expression)

  /** A relation declaration: its fields and its key, unique and foreign-key
      constraints. */
  datatype RelationField = RelationField(name: string, ty: Type)
  datatype RelationConstraint =
    | KeyConstraint(keyFields: seq<string>)
    | UniqueConstraint(uniqueFields: seq<string>)
    | ForeignConstraint(field: string, referencesRelation: string, referencesField: string)
  datatype RelationDeclaration =
    RelationDeclaration(name: string, fields: seq<RelationField>, constraints: seq<RelationConstraint>)

  datatype Declaration =
    | ValueDecl(value: ValueDeclaration)
    | FunctionDecl(fun: FunctionDeclaration)
    | MethodDecl(meth: MethodDeclaration)
    | RelationDecl(relation: RelationDeclaration)

  datatype Program = Program(declarations: seq<Declaration>)

  /** The parameter types of a declaration, in order. */
  function ParamTypes(ps: seq<ParameterWithGuard>): (ts: seq<Type>)
    ensures |ts| == |ps| && forall i :: 0 <= i < |ps| ==> ts[i] == ps[i].ty
  {
    if ps == [] then [] else [ps[0].ty] + ParamTypes(ps[1..])
  }

  /** A measure on expressions that the evaluator's rewrites decrease:
      a method call weighs more than the function call it becomes, and a
      pipeline more than the call it becomes once its source is a literal. */
  function Size(e: Expression): (n: nat)
    ensures n >= 1
  {
    match e
    case Binary(_, l, r) => 1 + Size(l) + Size(r)
    case Unary(_, x) => 1 + Size(x)
    case Literal(_) => 1
    case Identifier(_) => 1
    case FunctionCall(_, args) => 1 + SizeList(args)
    case MemberAccess(o, _) => 1 + Size(o)
    case MethodCall(o, _, args) => 2 + Size(o) + SizeList(args)
    case Comparison(_, l, r) => 1 + Size(l) + Size(r)
    case Pipeline(l, r) => 1 + Size(l) + Size(r)
    case Let(_, b, body) => 1 + Size(b) + Size(body)
    case Match(s, arms) => 1 + Size(s) + SizeArms(arms)
    case TypeLiteral(_) => 1
  }

  function SizeList(es: seq<Expression>): nat
  {
    if es == [] then 0 else Size(es[0]) + SizeList(es[1..])
  }

  function SizeArm(arm: MatchArm): nat
  {
    Size(arm.body)
  }

  function SizeArms(arms: seq<MatchArm>): nat
  {
    if arms == [] then 0 else SizeArm(arms[0]) + SizeArms(arms[1..])
  }

  lemma SizeListCons(e: Expression, es: seq<Expression>)
    ensures SizeList([e] + es) == Size(e) + SizeList(es)
  {
    assert ([e] + es)[1..] == es;
  }

  lemma SizeListElement(es: seq<Expression>, i: nat)
    requires i < |es|
    ensures Size(es[i]) <= SizeList(es)
  {
    if i > 0 {
      SizeListElement(es[1..], i - 1);
    }
  }
}
