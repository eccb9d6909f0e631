/**
 * Errors raised by the language core. The four kinds of the repository's
 * error type are kept, with the kind-specific location or type tag; the
 * human-readable message is replaced by a structured reason, so that the
 * model can state which failure happened without comparing formatted text.
 *
 * Two outcomes the repository has no error value for are added: a Rust
 * panic (arithmetic overflow in a debug build, an explicit `panic!`) and
 * running out of the evaluation fuel that bounds recursion through
 * user-defined function bodies. A third, `Unmodelled`, marks the result of
 * the instance-store builtins (`all`, `count`), whose registry support is
 * not part of this model.
 */
module Errors {
  import Tokens

  /** Why a runtime (validation-kind) error was raised. */
  datatype Reason =
    // evaluator
    | UnknownIdentifier(name: string)
    | DivisionByZero
    | ModuloByZero
    | BinaryTypeMismatch
    | UnaryTypeMismatch
    | ComparisonTypeMismatch
    | AllExpectsType
    | ConstructorArity(ctor: string, got: nat)
    | ConstructorArgumentType(ctor: string)
    | FunctionArity(fname: string, expected: nat, got: nat)
    | RelationOfUnimplemented
    | UnknownFunction(fname: string)
    | PipelineTargetNotFunction
    | StringHasNoMember(member: string)
    | ValueHasNoMember(typeName: string, member: string)
    | PrimitiveHasNoMember(member: string)
    | UnknownTypeMethod(mname: string)
    | ListFilterUnimplemented
    | ListFindUnimplemented
    | UnknownMethod(mname: string)
    | NoMatchArms
    | ValueNotExpressible(typeName: string)
    | ListNotExpressible
    | AmbiguousCall(fname: string)
    | NoMatchingFunction(fname: string)
    // value registry and value objects
    | UnknownValueType(typeName: string)
    | ValidationFailed
    | InvalidEmailAddress
    // constructor-validation interpreters
    | NotAnInteger(name: string)
    | NotAString(name: string)
    | CannotAccessMember(member: string, name: string)
    | ComplexMemberAccess
    | NotIntegerExpression
    | CannotCallMethod(mname: string, name: string)
    | ComplexMethodCall
    | NotStringExpression
    | UnknownMemberAccess(name: string, member: string)
    | MultiplicationNeedsIntegers
    | DivisionNeedsIntegers
    | AdditionNeedsIntegers
    | UnsupportedInLet
    // relations and queries
    | MissingRequiredField(field: string)
    | UnknownField(field: string)
    | DuplicateKey(field: string)
    | DuplicateUnique(field: string)
    | FieldNotFound(field: string)

  /** Why a type error was raised. */
  datatype TypeProblem =
    | ValueAlreadyDefined(name: string)
    | ValidateNotBool
    | NormalizeWrongType
    | GuardNotBool
    | ReturnTypeMismatch
    | LogicalNeedsBool
    | ArithmeticNeedsInt
    | NotNeedsBool
    | MinusNeedsInt
    | UndefinedIdentifier(name: string)
    | CallArity(fname: string, expected: nat, got: nat)
    | CallParameterMismatch(fname: string, position: nat)
    | NoMatchingImplementation(fname: string)
    | UndefinedFunction(fname: string)
    | NoSuchMember(member: string)
    | TakesNoParameters(fname: string)
    | ReceiverMismatch(fname: string)
    | MethodArity(fname: string, expected: nat, got: nat)
    | MethodParameterMismatch(fname: string, position: nat)
    | BuiltinTakesNoArguments(mname: string)
    | NoSuchMethod(mname: string)
    | ContainsNeedsStrings
    | ComparisonNeedsSameType
    | MatchOnNonValue
    | UnknownValueTypeName(name: string)
    | PatternMismatch(ctor: string, valueName: string)
    | ArmTypesDiffer
    | MatchWithoutArms
    | NoRuleForTypeLiteral

  /** Why the lexer stopped. */
  datatype LexProblem =
    | LoneAmpersand                  // `&` not followed by `&`
    | LoneBar                        // `|` followed by neither `|` nor `>`
    | UnexpectedCharacter(ch: char)
    | UnterminatedComment
    | InvalidNumber(digits: string)  // a digit run outside the `i64` range
    | UnexpectedEndOfString          // a backslash as the last character
    | UnclosedString

  /** Why the parser stopped, with the token it found. */
  datatype ParseProblem =
    | ExpectedValueKeyword(found: Tokens.Token)
    | ExpectedTypeName(found: Tokens.Token)
    | ExpectedClause(found: Tokens.Token)
    | UnexpectedInExpression(found: Tokens.Token)
    | ExpectedBoolean(found: Tokens.Token)
    | ExpectedToken(expected: Tokens.Token, found: Tokens.Token)
    | ExpectedIdentifier(found: Tokens.Token)

  datatype Error =
    | LexerError(lexReason: LexProblem, line: nat, column: nat)
    | ParserError(parseReason: ParseProblem, line: nat, column: nat)
    | TypeError(problem: TypeProblem)
    | ValidationError(reason: Reason, valueType: string)
    | Panic(cause: string)
    | OutOfFuel
    | Unmodelled(feature: string)

  /** The repository's `Result<T>`: a value or an error of the type above. */
  datatype Result<T> = Ok(value: T) | Err(error: Error)
  {
    predicate IsFailure() { Err? }
    function PropagateFailure<U>(): Result<U>
      requires Err?
    {
      Err(error)
    }
    function Extract(): T
      requires Ok?
    {
      value
    }
  }
}
