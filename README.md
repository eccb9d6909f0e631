# relic language core in Dafny

relic is a small language of validated value types with multiple dispatch.
A program declares value types such as
`value Email(s: String) { validate: s contains "@" }`.
It also declares functions and methods whose parameters may carry guards,
and the runtime picks the most specific implementation for each call.
This project models the language's core and proves properties of it:

- **Front end.**
  - The lexer (`Lexing.Lexer`) is a class over the input with a cursor.
    Its position, current character, line and column are updated by
    `Advance`.
  - Each lexer method is proved to return what the function
    `Lexing.NextTokenSpec` reads from the input.
  - The recursive-descent parser (`Parsing.Parser`) pulls tokens from that
    lexer. Each of its methods is proved equal to a function of the
    `Grammar` module, applied to the token stream the lexer yields
    (`Streams.StreamFrom`).
  - Operator precedence and associativity are proved about those
    functions (`GrammarFacts`, `LexingFacts`).
  - Some unit tests of the source are proved as examples:
    - the lexer tests `test_pipeline_operator` and `test_let_keywords`, on
      their input text (`LexingExamples`);
    - the parser tests `test_pipeline_expression`, `test_multiple_pipelines`
      and `test_let_expression`, on the token streams of their inputs
      (`GrammarFacts`);
    - the parser tests `test_nested_let_bindings` and
      `test_let_bindings_with_string_operations`, as whole programs parsed
      from the token streams of their inputs (`ParserExamples`).
- **Evaluation and dispatch.**
  - `Evaluator.Eval` is the tree-walking evaluator, with a fuel bound for
    recursion through function bodies.
  - It threads the global dispatch cache (`DispatchKey` to an
    implementation index) through every step as a value.
  - `Evaluator.Select` is the choosing half of `dispatch_function`. On a
    cache hit it returns the stored index without checking types or guards.
    On a miss it takes the survivors and ranks them by specificity with
    `Ranking.Resolve`.
  - `Specialization` is the compile-time counterpart. It scores statically,
    with +1 per guard and no guard evaluation, and caches the result in a
    `SpecializationCache` class.
  - `OptimizedEvaluator.EvalOpt` is the fast path that consumes that cache.
  - `DispatchFacts` and `EvaluatorFacts` relate the three. In both
    directions they show where they agree and where they differ:
    - a cache hit can run an implementation whose guard is false;
    - the static choice ignores guards;
    - the fast path skips the arity check.
- **Checking and compilation.**
  - `TypeChecker.Check` is `check_expression`. The `TypeChecker` class
    checks declarations against a growing environment.
  - `TypeCheckerFacts` states the typing rules, and type safety of the
    operator fragment against the evaluator.
  - `Compilation` holds the restricted validation interpreters that
    `compile_value_declaration` turns a `validate` clause into. It also
    holds the `Compiler` class that fills the registry.
  - `CompilationFacts` relates those interpreters to the evaluator.
- **Registries and collections.**
  - `Types.TypeEnvironment` keeps append-only implementation lists.
  - `Values.ValueRegistry`, `Values.Construct` and `Values.EmailAddress`
    model value construction.
  - The persistent `Relations.AddRow` keeps key and unique values distinct,
    which is proved as an invariant.
  - `Lists.List` holds the list combinators.
  - `Queries` holds the query helpers, including the unfinished `select`,
    `where_clause` and `limit`.

Integers are the source's `i64`. An overflow, which panics in a debug build,
is the error `Panic("arithmetic overflow")`. Division and remainder truncate
toward zero, as in Rust (`Ast.TruncDiv`, `Ast.TruncRem`). Text is ASCII.

The source's modules disagree on some shared types. The model follows the
code that uses them:

- `Type` has the `Type` and `List` variants used by src/evaluator.rs and
  src/specialization.rs, which src/types.rs lacks.
- `Expression` has `TypeLiteral`, which src/evaluator.rs uses and src/ast.rs
  lacks.
- The function table that src/evaluator.rs reads from the value registry is
  passed as an explicit map (`Evaluator.Registry.functions`). Methods are
  recorded in that table as functions whose first parameter is the
  receiver, as src/types.rs `define_method` records them.
- `Declaration` has the `Relation` variant of src/ast.rs. src/compiler.rs
  `compile_declaration` (lines 36-39) does nothing for it, and
  src/typechecker.rs `check_declaration` has no arm for it. The model's
  compiler and type checker both leave their state unchanged.

## Model

| member | source | states |
|---|---|---|
| Ascii.LowerChar | src/value.rs:110 | an upper-case ASCII letter moves to its lower-case letter; every other character is unchanged; the result is never upper case |
| Ascii.UpperChar | src/evaluator.rs:584-588 | a lower-case ASCII letter moves to its upper-case letter; every other character is unchanged; the result is never lower case |
| Ascii.Lower | src/value.rs:110 | `to_lowercase` keeps the length and lowercases each character in place |
| Ascii.Upper | src/evaluator.rs:584-588 | `to_uppercase` keeps the length and uppercases each character in place |
| Ascii.LowerIdempotent | src/value.rs:131-134 | lowercasing twice is lowercasing once |
| Ascii.LowerKeepsNonLetter | src/value.rs:110 | a character that is not an upper-case letter occurs in the lowercased text iff it, or its upper-case form, occurs in the original text |
| Ascii.ContainsSub | src/evaluator.rs:138 | `str::contains` holds iff the pattern occurs at some position of the text |
| Ast.LengthAsI64 | src/evaluator.rs:414 | `len() as i64` is the length itself whenever the length fits in an `i64` |
| Ast.TruncDiv | src/evaluator.rs:78-86 | Rust `/`: the quotient times the divisor is the dividend minus the truncating remainder; on non-negative operands it is Euclidean division |
| Ast.TruncRem | src/evaluator.rs:88-96 | Rust `%`: the remainder is smaller in magnitude than the divisor and has the sign of the dividend |
| Ast.ParamTypes | src/typechecker.rs:126 | the declared types of the parameters, one per parameter, in order |
| Ranking.MaxScore | src/evaluator.rs:782-783 | the top score: no candidate is above it and some candidate reaches it |
| Ranking.FirstWithScore | src/evaluator.rs:793 | the first candidate holding a given score |
| Ranking.Resolve | src/evaluator.rs:782-793 | no candidate iff the list is empty; ambiguous iff a top-scoring candidate shares its score with another; a winner is a candidate strictly above all others |
| Ranking.RankCandidates | src/specialization.rs:91-109 | the sort-and-compare of the two best candidates decides exactly as `Resolve` |
| Evaluator.MatchesType | src/evaluator.rs:671-684 | `Any` matches every value, `Unknown` none, a list type every list; any other type matches exactly the values whose run-time type it is |
| Evaluator.TypeFromValue | src/optimized_evaluator.rs:177-186 | a value's type is concrete: never `Any` or `Unknown`, scoring 3; a list type exactly for lists; a value type, named after the object's type, exactly for value objects |
| Evaluator.TypeSignature | src/evaluator.rs:687-696 | a value object is tagged by its type name, every other value by one of `String`, `Int`, `Bool`, `Type`, `List` |
| Evaluator.Signatures | src/evaluator.rs:699-706 | the tags of the arguments, one per argument, in order |
| Evaluator.CreateDispatchKey | src/evaluator.rs:699-706 | the key holds the function name and each argument's tag in order |
| Evaluator.TypeScore | src/evaluator.rs:818-840 | a parameter type scores at most 3; it scores 0 iff it is `Unknown` and 1 iff it is `Any` |
| Evaluator.ParamScore | src/evaluator.rs:818-840 | a parameter scores at most 5, at least 2 when it has a guard, and 0 only when it is unguarded and `Unknown` |
| Evaluator.Specificity | src/evaluator.rs:818-840 | the score of an implementation is at most 5 per parameter that meets an argument |
| Evaluator.SpecificityPrefix | src/evaluator.rs:824 | only the parameters zipped with an argument count towards the score |
| Evaluator.CalculateFunctionSpecificity | src/evaluator.rs:818-840 | the loop computes exactly `Specificity`: 3/1/0 per parameter type plus 2 per guard, over the zipped parameters |
| Evaluator.CalculateMethodSpecificity | src/evaluator.rs:842-864 | the method formula is the same as the function formula |
| Evaluator.CheckedInt | src/evaluator.rs:70-77 | an in-range result is returned; an out-of-range one is the overflow panic |
| Evaluator.BinaryOpSpec | src/evaluator.rs:66-111 | arithmetic on two integers gives an integer or a panic, or an error when dividing or taking a remainder by zero; division or remainder by zero gives its own error; `+` adds; `&&`/`||` on booleans are conjunction and disjunction; every other operand combination is a type mismatch (also src/optimized_evaluator.rs:132-174) |
| Evaluator.ApplyBinary | src/evaluator.rs:66-111 | no contract of its own: `Evaluator.BinaryOpSpec` states it (also src/optimized_evaluator.rs:132-174) |
| Evaluator.ApplyUnary | src/evaluator.rs:113-123 | `!` succeeds exactly on booleans and negates; `-` negates an integer, `MIN` overflowing; anything else is a type mismatch |
| Evaluator.ApplyComparison | src/evaluator.rs:125-148 | the result is a boolean; it is defined exactly for two integers with any operator except `contains`, two strings with `==`, `!=` and `contains`, and two booleans with `==` and `!=`; otherwise a type mismatch; `contains` is substring occurrence and `==` is value equality |
| Evaluator.ValueToExpression | src/evaluator.rs:647-668 | every value except value objects and lists becomes a one-node literal; the other two give their own errors |
| Evaluator.Bind | src/evaluator.rs:273-277 | the fresh context binds exactly the names of the parameters that meet an argument |
| Evaluator.BindLookup | src/evaluator.rs:726-730 | a parameter not shadowed by a later one of the same name is bound to its argument |
| Evaluator.ConstructValue | src/evaluator.rs:214-254 | a constructor takes exactly one argument; it succeeds iff that argument is a primitive the registered validator accepts, yielding a value object with the parameter's field; an object, type or list argument is an argument-type error |
| Evaluator.InputOf | src/evaluator.rs:230-238 | exactly strings, integers and booleans can be handed to a constructor |
| Evaluator.BuiltinMethod | src/evaluator.rs:581-613 | `toLowerCase`/`toUpperCase` on a string and `length` on a list; every method on any other kind of value is an unknown-method error |
| Evaluator.MemberOf | src/evaluator.rs:410-433 | `.length` of a string is its length; a value object yields exactly its fields; any other member is an error of its own kind |
| Evaluator.TypeMethod | src/evaluator.rs:436-499 | `Type.all()`/`Type.count()` are not modelled and every other type method is unknown: the result is always an error |
| Evaluator.EvalArgs | src/evaluator.rs:152-155 | successful argument evaluation yields one value per argument |
| Evaluator.Eval | src/evaluator.rs:41-645 | no contract of its own: `EvaluatorFacts.LiteralRoundTrip`, `UniformCallSyntax`, `CallEval`, the pipeline lemmas and `TypeCheckerFacts.TypeSafety` state it |
| Evaluator.EvalCall | src/evaluator.rs:150-372 | no contract of its own: `EvaluatorFacts.SingleImplementation`, `RunFFresh` and `RunFHit` state it |
| Evaluator.CacheHit | src/evaluator.rs:720-736 | the call's key is cached with an in-range index; the definition `Evaluator.Select` and `EvaluatorFacts.CacheHitRunsStored` use |
| Evaluator.Dispatch | src/evaluator.rs:710-816 | no contract of its own: `EvaluatorFacts.CacheHitRunsStored` and `DispatchFFresh` state it |
| Evaluator.Applicable | src/evaluator.rs:743-750 | the same number of parameters as arguments, each parameter type matching its argument; `DispatchFacts.ApplicableIffCompatible` relates it to the static check |
| Evaluator.Select | src/evaluator.rs:710-816 | a cache hit returns the stored index and leaves the cache unchanged; a miss resolves the candidates, caching only a unique winner; an ambiguous or empty set is an error; a chosen implementation on a miss accepts the arguments by arity and type |
| Evaluator.Candidates | src/evaluator.rs:742-780 | every survivor accepts the arguments by arity and type and carries its score; every accepting implementation without guards survives; the guard half is `EvaluatorFacts.CandidatesListedIff` |
| Evaluator.GuardsHold | src/evaluator.rs:759-772 | never fails; with no guard left to run it holds and leaves the cache unchanged; which guards it requires is `EvaluatorFacts.GuardsHoldIff` |
| EvaluatorFacts.EvalArgsCons | src/evaluator.rs:152-155 | arguments are evaluated left to right and the first error stops evaluation |
| EvaluatorFacts.LiteralRoundTrip | src/evaluator.rs:647-668 | a value turned into a literal evaluates back to itself, with the cache untouched |
| EvaluatorFacts.UniformCallSyntax | src/evaluator.rs:505-514 | when `m` is a registered function, `o.m(args)` evaluates exactly as `m(o, args)` |
| EvaluatorFacts.CallEval | src/evaluator.rs:150-155 | a call evaluates its arguments, then calls |
| EvaluatorFacts.PipelineIsCall | src/evaluator.rs:396-402 | `a \|> f(bs)` is `f(a, bs)` |
| EvaluatorFacts.PipelineIsUnaryCall | src/evaluator.rs:388-395 | `a \|> f` is `f(a)` |
| EvaluatorFacts.PipelineRejectsCompound | src/evaluator.rs:382-408 | piping a value object or a list into a call is an error |
| EvaluatorFacts.SingleImplementation | src/evaluator.rs:256-280 | with one implementation, an arity mismatch is an error; otherwise the body runs in a fresh context holding only the parameters, with no type or guard check |
| EvaluatorFacts.GuardsHoldIff | src/evaluator.rs:759-772 | the guard check holds iff every guard yields the boolean `true`, each evaluated under the cache the earlier guards left, and then leaves the last guard's cache; otherwise some guard is the first that does not, every guard before it holds, and the check leaves that guard's cache |
| EvaluatorFacts.CandidatesListedIff | src/evaluator.rs:742-780 | an implementation survives iff it accepts the arguments by arity and type and its guard check holds under the cache the earlier implementations' guards left |
| EvaluatorFacts.CandidatesCache | src/evaluator.rs:742-780 | the candidate loop leaves the cache reached after the guards of every applicable implementation have run, in order |
| EvaluatorFacts.FailingGuardExcludes | src/evaluator.rs:759-778 | an implementation with any guard that does not yield `true`, under the cache threaded through the guards before it, never survives |
| EvaluatorFacts.SpecificityUpdate | src/evaluator.rs:818-840 | changing one parameter changes the score by exactly the difference of the two parameter scores |
| EvaluatorFacts.GuardAndAnyScores | src/evaluator.rs:818-840 | adding a guard raises the score by 2; loosening a concrete type to `Any` lowers it by 2 |
| EvaluatorFacts.CacheHitRunsStored | src/evaluator.rs:720-736 | on a cache hit the stored implementation's body runs directly on the arguments |
| EvaluatorFacts.SameTagsSameKey | src/evaluator.rs:699-706 | argument lists with the same type tags share a cache entry |
| EvaluatorFacts.ScoresOfF | src/evaluator.rs:818-840 | `f(x: Int)` scores 3, and `f(x: Int where x > 0)` scores 5 |
| EvaluatorFacts.CandidatesOfF | src/evaluator.rs:742-780 | for `f(n)`, the guarded `f` survives iff `n > 0` |
| EvaluatorFacts.FreshSelection | src/evaluator.rs:782-800 | on a fresh cache, `f(n)` selects the guarded `f` iff `n > 0` and caches that choice |
| EvaluatorFacts.DispatchFFresh | src/evaluator.rs:710-816 | dispatching `f(n)` on a fresh cache runs the selected implementation and returns its result |
| EvaluatorFacts.RunFFresh | src/evaluator.rs:150-280 | calling `f(n)` on a fresh cache gives 1 iff `n > 0`, else 0 |
| EvaluatorFacts.RunFHit | src/evaluator.rs:720-736 | once the guarded `f` is cached, `f(n)` returns 1 for every `n` |
| EvaluatorFacts.CacheHitSkipsGuard | src/evaluator.rs:720-736 | after `f(5)` caches the guarded `f`, `f(-5)` runs it although its guard is false; on a fresh cache `f(-5)` takes the unguarded `f` |
| DispatchFacts.GuardCount | src/specialization.rs:78-82 | the number of guarded parameters is at most the number of parameters |
| DispatchFacts.DynamicScoreIsStaticPlusGuards | src/evaluator.rs:818-840 | the dynamic score is the static score plus one per guard |
| DispatchFacts.RuntimeTypes | src/optimized_evaluator.rs:177-186 | the static type of each run-time value, in order |
| DispatchFacts.CompatibleVersusMatches | src/specialization.rs:124-139 | on ordinary parameter types, static compatibility with a value's type and the run-time type match coincide; they differ only for `Unknown` (compatible, never matching), `Type` and lists (never compatible) |
| DispatchFacts.ApplicableIffCompatible | src/specialization.rs:60-66 | for ordinary parameter types, an implementation accepts the arguments at run time iff it is statically compatible with their types |
| DispatchFacts.InferenceSound | src/specialization.rs:231-258 | a known inferred type is the run-time type of the value the expression evaluates to |
| DispatchFacts.RuntimeInferenceSound | src/optimized_evaluator.rs:189-214 | the same for the fast path's inference, except for calls, whose type is guessed from their name |
| DispatchFacts.MethodCallMiss | src/optimized_evaluator.rs:86-90 | a method call that misses the specialisation cache evaluates as the plain call `m(receiver, args)` |
| DispatchFacts.FunctionCallMiss | src/optimized_evaluator.rs:48-51 | a function call that misses the specialisation cache is the plain evaluator's call |
| DispatchFacts.FunctionCallHit | src/optimized_evaluator.rs:33-47 | a cached in-range index runs that implementation's body on the arguments, with no type or guard check |
| DispatchFacts.LetExtendsBoth | src/optimized_evaluator.rs:100-110 | `let` runs its body with the value bound in the context and its type in the type environment, which keep agreeing |
| DispatchFacts.StaticScoresOfF | src/specialization.rs:70-84 | statically `f(x: Int)` scores 3 and the guarded `f` scores 4 |
| DispatchFacts.DecideF | src/specialization.rs:92-109 | the static choice for `f(Int)` is the guarded `f` |
| DispatchFacts.SpecFSound | src/specialization.rs:100-104 | caching that choice gives an in-range index |
| DispatchFacts.OptRunF | src/optimized_evaluator.rs:33-47 | with that cache, the fast path returns 1 for `f(n)` for every `n` |
| DispatchFacts.StaticChoiceIgnoresGuard | src/optimized_evaluator.rs:33-47 | the fast path runs the guarded `f` on `-5` (returns 1) where the plain evaluator takes the unguarded `f` (returns 0) |
| DispatchFacts.FastPathSkipsArity | src/optimized_evaluator.rs:33-46 | the fast path runs a one-parameter `g` on two arguments, where the plain evaluator reports an arity error (src/evaluator.rs:261) |
| Specialization.TypesCompatible | src/specialization.rs:124-139 | `Any` accepts everything; `Unknown` on either side is accepted; primitive and value types accept only themselves; `Type` and list parameters accept nothing known |
| Specialization.TypeSpecificity | src/specialization.rs:142-148 | 3 for a concrete type, 1 for `Any`, 0 for `Unknown` |
| Specialization.StaticScore | src/specialization.rs:70-84 | the static score is at most 4 per parameter |
| Specialization.ScoreIfCompatible | src/specialization.rs:60-89 | the loop reports compatibility of every parameter and, when compatible, the static score |
| Specialization.StaticCandidates | src/specialization.rs:58-89 | every candidate is compatible and carries its static score; every compatible implementation is a candidate |
| Specialization.Decide | src/specialization.rs:47-109 | one implementation is chosen for any argument types; otherwise a choice is compatible and strictly above every other compatible implementation, and no choice means none is compatible or two tie |
| Specialization.WinnerBeatsAll | src/specialization.rs:100-104 | the ranked winner is compatible and strictly best among the compatible implementations |
| Specialization.TieOrEmpty | src/specialization.rs:92-98 | without a winner, nothing is compatible or two compatible implementations tie |
| Specialization.StaticCandidatesOrdered | src/specialization.rs:58-89 | candidates are listed in declaration order |
| Specialization.CollectCandidates | src/specialization.rs:58-89 | the collecting loop produces exactly `StaticCandidates` |
| Specialization.SpecializationCache.constructor | src/specialization.rs:21-25 | a new cache is empty |
| Specialization.SpecializationCache.GetSpecialization | src/specialization.rs:113-120 | the cached index for exactly the cached (name, types) keys |
| Specialization.SpecializationCache.TrySpecialize | src/specialization.rs:28-110 | a hit returns the stored index, with the cache and registry untouched; an unknown name gives nothing; otherwise the `Decide` choice is cached and returned, or nothing changes; the cache keeps only in-range indices |
| Specialization.InferExpressionType | src/specialization.rs:231-258 | literals by kind; arithmetic and minus `Int`; `&&`, `\|\|`, `!` and comparisons `Bool`; identifiers from the environment; everything else `Unknown` |
| Specialization.InferTypes | src/specialization.rs:165-167 | the inferred type of each argument, in order |
| Specialization.SpecializeCall | src/specialization.rs:169-176 | specialisation is attempted only when every argument type is known, and then caches the `Decide` choice for a new key |
| Specialization.SpecializeFunctionCalls | src/specialization.rs:151-228 | the walk only adds cache entries, each for known argument types, and keeps every cached index in range |
| Specialization.SpecializeAll | src/specialization.rs:160-162 | the same for the arguments of a call, in order |
| OptimizedEvaluator.InferRuntimeType | src/optimized_evaluator.rs:189-214 | literals by kind; identifiers from the type environment before the run-time context, else `Unknown`; an upper-case call is a value of that name; everything else `Unknown` |
| OptimizedEvaluator.InferRuntimeTypes | src/optimized_evaluator.rs:30-32 | the run-time type of each argument, in order |
| OptimizedEvaluator.Specialized | src/optimized_evaluator.rs:33-36 | an implementation is found iff the key is cached with an in-range index, and it is that implementation |
| OptimizedEvaluator.EvalOptArgs | src/optimized_evaluator.rs:20-25 | successful argument evaluation yields one value per argument |
| OptimizedEvaluator.EvalOpt | src/optimized_evaluator.rs:10-130 | no contract of its own: the lemmas of `DispatchFacts` (`LetExtendsBoth`, `OptArgsLiterals`, `OptRunF`, `FastPathSkipsArity`) state it |
| TypeChecker.FirstMismatch | src/typechecker.rs:300-311 | the first position where two type lists differ; none iff they are equal |
| TypeChecker.FirstExact | src/typechecker.rs:319-339 | the first implementation whose parameter types equal the argument types; none iff there is no such implementation |
| TypeChecker.CheckSoleCall | src/typechecker.rs:292-316 | one implementation: accepted iff the argument types equal the parameter types, giving the return type; a count mismatch is an arity error |
| TypeChecker.CheckSoleMethodCall | src/typechecker.rs:406-451 | a single-implementation method call is accepted iff its parameter types are the receiver type followed by the argument types; no parameters is an error |
| TypeChecker.Check | src/typechecker.rs:210-649 | a comparison has type `Bool`; a literal has its kind; an identifier has its type from the locals, or is undefined |
| TypeChecker.CheckArgs | src/typechecker.rs:287-289 | checked arguments give one type per argument |
| TypeChecker.CheckArms | src/typechecker.rs:582-647 | a type already fixed is kept; after any arm a type is fixed; no arms give back the type so far |
| TypeChecker.ParamLocals | src/typechecker.rs:95-98 | the locals of a body are exactly the parameter names |
| TypeChecker.CheckGuards | src/typechecker.rs:100-110 | accepted iff every guard present has type `Bool` |
| TypeChecker.CheckCallable | src/typechecker.rs:90-123 | accepted iff every guard is `Bool` and the body has the declared return type, under the parameters as locals |
| TypeChecker.CheckValueDecl | src/typechecker.rs:34-88 | redeclaring a value type fails; otherwise accepted iff `validate` is `Bool` and `normalize` has the parameter's type, registering the value type |
| TypeChecker.Declare | src/typechecker.rs:26-32 | a value declaration adds its value type; a function or method appends its signature to its name's list; a relation declaration leaves the environment unchanged |
| TypeChecker.DeclareAll | src/typechecker.rs:19-24 | a successful check never drops a declared value or function name, and registers the name of every value declaration |
| TypeChecker.Declared | src/typechecker.rs:19-24 | when every declaration checks, the environment the whole check gives |
| TypeChecker.DeclaredStopsAtFailure | src/typechecker.rs:19-24 | a failing check fails at one declaration: all before it check and leave `Declared`, and that one is rejected there with the reported error |
| TypeChecker.GuardTags | src/typechecker.rs:194-196 | one entry per parameter, present iff the parameter is guarded |
| TypeChecker.CheckGuardsInOrder | src/typechecker.rs:100-110 | the guard loop decides exactly as `CheckGuards` |
| TypeChecker.TypeChecker.constructor | src/typechecker.rs:12-17 | a fresh, empty environment and no locals |
| TypeChecker.TypeChecker.CheckValueDeclaration | src/typechecker.rs:34-88 | the environment changes exactly as `CheckValueDecl` says; an error leaves it unchanged |
| TypeChecker.TypeChecker.BindParameters | src/typechecker.rs:95-98 | `locals` is cleared and refilled with the parameters |
| TypeChecker.TypeChecker.CheckSignature | src/typechecker.rs:100-123 | decides exactly as `CheckCallable` and leaves the environment alone |
| TypeChecker.TypeChecker.CheckFunctionDeclaration | src/typechecker.rs:90-134 | decides as `CheckCallable`; on success the signature is appended to the name's list and nothing else changes |
| TypeChecker.TypeChecker.CheckMethodDeclaration | src/typechecker.rs:136-208 | the same for methods; the duplicate-signature branch at 170-190 is never taken |
| TypeChecker.TypeChecker.CheckDeclaration | src/typechecker.rs:26-32 | the environment becomes `Declare`'s, or is unchanged on an error |
| TypeChecker.TypeChecker.CheckProgram | src/typechecker.rs:19-24 | the declarations in order; the first error stops and is returned, and the environment then holds every declaration before the failing one (`Declared`) |
| TypeCheckerFacts.BinaryTyping | src/typechecker.rs:212-241 | `&&`/`\|\|` need and give `Bool`; arithmetic needs and gives `Int` |
| TypeCheckerFacts.UnaryTyping | src/typechecker.rs:242-270 | `!` needs and gives `Bool`; `-` needs and gives `Int` |
| TypeCheckerFacts.ComparisonTyping | src/typechecker.rs:527-557 | `contains` needs two strings; every other comparison needs both sides of one type |
| TypeCheckerFacts.CheckArgsTypes | src/typechecker.rs:287-289 | the argument types are the types of the arguments, and all must check |
| TypeCheckerFacts.SoleCallTyping | src/typechecker.rs:292-316 | a call to a sole implementation is accepted iff the argument types equal the parameter types, giving its return type |
| TypeCheckerFacts.OverloadTyping | src/typechecker.rs:317-339 | with several implementations, the first exact match gives the type; no exact match is an error |
| TypeCheckerFacts.UniformCallTyping | src/typechecker.rs:395-476 | `o.m(args)` checks exactly as `m(o, args)` |
| TypeCheckerFacts.ArmsAgree | src/typechecker.rs:597-640 | every arm names the value type and all bodies have the one type |
| TypeCheckerFacts.MatchTyping | src/typechecker.rs:582-647 | an accepted match has arms, a value-typed scrutinee, arms naming that value, and all bodies of the match's type |
| TypeCheckerFacts.AnyIsNoWildcard | src/typechecker.rs:305-313 | `f(x: Any)` does not accept `f(5)` |
| TypeCheckerFacts.LetScope | src/typechecker.rs:568-580 | a `let` binding is visible in its body only |
| TypeCheckerFacts.OrderedBooleansAccepted | src/typechecker.rs:527-557 | the checker accepts `true < false`, which the evaluator rejects (src/evaluator.rs:125-148) |
| TypeCheckerFacts.DuplicateFunctionAccepted | src/typechecker.rs:127-131 | two identical function declarations are both recorded |
| TypeCheckerFacts.ValueRedeclarationRejected | src/typechecker.rs:36-40 | a value type cannot be declared twice |
| TypeCheckerFacts.TypeSafety | src/typechecker.rs:210-281 | a checked operator expression yields a value of its checked type, or only an overflow, division by zero or undefined comparison |
| TypeCheckerFacts.BinarySafety | src/typechecker.rs:212-241 | the same for binary operators |
| TypeCheckerFacts.UnarySafety | src/typechecker.rs:242-270 | the same for unary operators |
| TypeCheckerFacts.ComparisonSafety | src/typechecker.rs:527-557 | the same for comparisons |
| TypeCheckerFacts.MemberSafety | src/typechecker.rs:383-393 | the same for `.length` |
| TypeCheckerFacts.LetTyping | src/typechecker.rs:568-580 | a `let` has the type of its body under the binding's type |
| TypeCheckerFacts.LetSafety | src/typechecker.rs:568-580 | the same safety for `let` |
| Types.Append | src/types.rs:64-71 | appends to the name's list and leaves every other name's list unchanged |
| Types.SoleImplementation | src/types.rs:73-82 | present iff the name has exactly one implementation, and then it is that one |
| Types.AppendKeepsEarlier | src/types.rs:64-71 | appending never reorders or drops earlier implementations |
| Types.SecondDefinitionHidesSole | src/types.rs:73-82 | after a second definition of a name, `get_function` finds nothing |
| Types.TypeEnvironment.constructor | src/types.rs:49-54 | empty value and function tables |
| Types.TypeEnvironment.DefineValue | src/types.rs:56-58 | the value type overwrites any earlier one of that name; functions untouched |
| Types.TypeEnvironment.GetValue | src/types.rs:60-62 | the latest value type of that name, if any |
| Types.TypeEnvironment.DefineFunction | src/types.rs:64-71 | appends, with no duplicate check; values untouched |
| Types.TypeEnvironment.GetFunction | src/types.rs:73-82 | only a name with exactly one implementation |
| Types.TypeEnvironment.GetFunctions | src/types.rs:84-86 | every implementation in declaration order, or nothing for an unknown name |
| Types.TypeEnvironment.DefineMethod | src/types.rs:89-96 | appends to the function table, discarding the guards |
| Types.TypeEnvironment.GetMethods | src/types.rs:98-101 | always nothing |
| Values.ValueRegistry.constructor | src/value.rs:24-28 | no constructors |
| Values.ValueRegistry.Register | src/value.rs:30-32 | stores the constructor, replacing one of that name; other names unchanged |
| Values.Construct | src/value.rs:34-66 | an unknown type fails; a validator error is returned; success iff the validator accepts, giving the type name and the input unchanged |
| Values.EmailAddress.Make | src/value.rs:112 | the stored text is the given text |
| Values.EmailAddress.From | src/value.rs:100-113 | rejects text with no `@` or of length at most 3; otherwise stores its lowercase form |
| Values.EmailAddress.Validate | src/value.rs:121-129 | accepts exactly the texts `from` accepts |
| Values.EmailAddress.Normalize | src/value.rs:131-134 | lowercases the stored text in place |
| Values.EmailValue | src/value.rs:100-113 | the stored form is the lowercase input, which is itself valid |
| Values.LowerKeepsValid | src/value.rs:121-129 | lowercasing keeps validity both ways |
| Values.NormalizeIdempotent | src/value.rs:131-134 | normalising a stored address changes nothing |
| Values.CaseInsensitiveEquality | src/test_value_equality.rs:6-13 | inputs differing only in case yield equal addresses |
| Relations.New | src/relation.rs:25-32 | no rows, no key, no unique fields |
| Relations.WithKey | src/relation.rs:35-38 | sets the key and changes nothing else |
| Relations.WithUnique | src/relation.rs:41-44 | sets the unique fields and changes nothing else |
| Relations.FirstMissing | src/relation.rs:98-107 | the first schema field the row lacks; none iff it has them all |
| Relations.FirstUnknown | src/relation.rs:110-117 | the first row field outside the schema; none iff all are inside |
| Relations.ValidateRow | src/relation.rs:96-120 | accepted iff the row has every schema field and nothing else; a missing field is reported before an unknown one |
| Relations.Clashes | src/relation.rs:52-81 | the row's value in a field equals that of some existing row that has the field; equality is structural, standing in for `values_equal` (src/relation.rs:123-125) |
| Relations.FirstClash | src/relation.rs:68-81 | some unique field clashes with an existing row iff one is reported |
| Relations.AddRow | src/relation.rs:47-93 | success iff the row is valid and clashes on neither key nor unique fields, appending it; schema, key, unique checked in that order, the first failure reported |
| Relations.AddRows | src/relation.rs:47-93 | a chain of `add_row` calls; `Relations.AddRowsAppends` and `AddRowsKeepsConsistent` state it |
| Relations.AppendKeepsDistinct | src/relation.rs:52-81 | appending a non-clashing row keeps a field's values distinct |
| Relations.AddRowKeepsConsistent | src/relation.rs:52-81 | a successful `add_row` keeps key and unique values pairwise distinct |
| Relations.AddRowsAppends | src/relation.rs:84-92 | a chain of successful `add_row` calls appends the rows in order and keeps schema, key and unique fields |
| Relations.AddRowsKeepsConsistent | src/relation.rs:52-81 | the invariant holds over any chain of successful `add_row` calls |
| Relations.NewIsConsistent | src/relation.rs:25-32 | a new relation satisfies the invariant |
| Relations.Equals | src/relation.rs:161-170 | a relation equals itself; equal relations have the same schema and row count |
| Relations.EqualsIgnoresRows | src/relation.rs:161-170 | `equals` compares schema and row count only, so relations with different rows are equal |
| Lists.FilterItems | src/list.rs:50-61 | keeps exactly the satisfying items, in their original order |
| Lists.MapItems | src/list.rs:63-74 | same length, item i mapped |
| Lists.FindIndex | src/list.rs:76-84 | the first satisfying position; none iff no item satisfies |
| Lists.ItemsEqual | src/list.rs:144-152 | pairwise equality is sequence equality |
| Lists.Equals | src/list.rs:138-153 | equal element type, length and items |
| Lists.List.constructor | src/list.rs:15-20 | empty, with the given element type |
| Lists.List.FromItems | src/list.rs:22-27 | the given items and element type |
| Lists.List.Len | src/list.rs:29-31 | the number of items |
| Lists.List.IsEmpty | src/list.rs:33-35 | holds iff the length is zero |
| Lists.List.Push | src/list.rs:37-39 | appends at the end; earlier items and element type stay |
| Lists.List.Get | src/list.rs:41-43 | item i iff i is below the length |
| Lists.List.Filter | src/list.rs:50-61 | the satisfying items in order, same element type |
| Lists.List.Map | src/list.rs:63-74 | same length and element type, item i mapped |
| Lists.List.Find | src/list.rs:76-84 | the first satisfying item, or none iff no item satisfies |
| Lists.List.Any | src/list.rs:86-91 | some item satisfies; false on an empty list |
| Lists.List.All | src/list.rs:93-98 | every item satisfies; true on an empty list |
| Lists.FilterIdempotent | src/list.rs:50-61 | filtering twice is filtering once |
| Lists.FilterAllKeeps | src/list.rs:50-61 | a predicate all items satisfy keeps the list |
| Queries.KeyedOnFirst | src/query.rs:11-16 | the same schema, keyed on its first field when there is one, no rows |
| Queries.Where | src/query.rs:7-27 | always succeeds with no rows, the same schema, keyed on the first field |
| Queries.Limit | src/query.rs:80-98 | the same, for every `n` |
| Queries.Count | src/query.rs:101-103 | the number of rows |
| Queries.Lookup | src/query.rs:39-40 | the first schema field of that name; none iff there is none |
| Queries.FirstAbsent | src/query.rs:38-48 | the first requested field the schema lacks |
| Queries.ProjectSchema | src/query.rs:34-50 | succeeds iff every requested field exists, giving them in request order with their types; otherwise names the first missing one |
| Queries.ProjectRows | src/query.rs:54-77 | one added row per source row; `Queries.ProjectRowsOntoNothing` and `SelectFailsOnRows` state it |
| Queries.SelectSpec | src/query.rs:30-66 | what `select` computes; `Queries.SelectReportsMissingField`, `SelectOnEmptyRelation`, `SelectFailsOnRows` and `SelectNoFields` state it |
| Queries.ProjectedFields | src/query.rs:38-48 | the loop computes exactly `ProjectSchema` |
| Queries.HoldsRequested | src/query.rs:56-61 | whether a row holds one of the requested fields |
| Queries.Select | src/query.rs:30-66 | the method computes exactly `SelectSpec`, including the cloning panic at 69-77 |
| Queries.SchemaReportsFirstMissing | src/query.rs:38-48 | the first missing field is the one reported |
| Queries.SelectReportsMissingField | src/query.rs:38-48 | `select` fails on the first requested field absent from the schema |
| Queries.SelectOnEmptyRelation | src/query.rs:34-66 | on no rows, `select` gives exactly the requested fields and no rows, key or unique fields |
| Queries.SelectFailsOnRows | src/query.rs:54-77 | with fields and rows, `select` panics if the first row holds a requested field, else reports a missing field |
| Queries.EmptyRows | src/query.rs:54-63 | `n` empty rows |
| Queries.ProjectRowsOntoNothing | src/query.rs:54-63 | projecting onto no fields gives one empty row per row |
| Queries.SelectNoFields | src/query.rs:30-66 | `select` with no fields keeps the row count, each row empty |
| Queries.WhereDropsAcceptedRows | src/query.rs:15-24 | `where_clause` drops even the rows its predicate accepts |
| Queries.LimitIsAlwaysEmpty | src/query.rs:86-95 | `limit(n)` is not `min(n, count)` |
| Queries.WhereAndLimitAreConsistent | src/query.rs:7-27 | both results satisfy the key and unique invariant |
| Queries.CountAfterAddRow | src/relation.rs:84-92 | a successful `add_row` raises `count` by one |
| Lexing.CharAt | src/lexer.rs:241-254 | the character under the cursor iff within the input |
| Lexing.LineAt | src/lexer.rs:241-254 | the line number is at least 1 and at most one more than the position |
| Lexing.ColumnAt | src/lexer.rs:241-254 | the column never exceeds the position, and is 0 on a line feed |
| Lexing.SpanEnd | src/lexer.rs:256-264 | the end of the longest run of matching characters |
| Lexing.CommentEnd | src/lexer.rs:266-296 | a closed comment ends within the input; an unclosed one is an error at the end |
| Lexing.StringClose | src/lexer.rs:354-383 | the closing quote's position, or an unclosed or trailing-backslash error |
| Lexing.WordToken | src/lexer.rs:311-326 | an identifier iff the word is not one of the 13 keywords |
| Lexing.DigitValue | src/lexer.rs:331-352 | a digit's value is at most 9 |
| Lexing.DecimalValue | src/lexer.rs:344 | the decimal value of a digit string; `LexingFacts.NumbersInRange` states how it decides the token |
| Lexing.NumberToken | src/lexer.rs:331-352 | no contract of its own: `LexingFacts.NumbersInRange` and `NumberAt` state it |
| Lexing.OneCharToken | src/lexer.rs:92-198 | exactly the sixteen characters `(){}:.,+-*/%=!<>` are tokens alone, none of them `Eof` or an identifier |
| Lexing.TwoCharToken | src/lexer.rs:125-228 | a two-character token needs a next character; it starts with one of `-=!<>&\|` and continues with one of `=>&\|`; apart from `&&`, `\|\|` and `\|>` its first character is a token alone |
| Lexing.NextTokenSpec | src/lexer.rs:87-239 | a token ends after where it starts; `Eof` only at the end of the input |
| Lexing.TokenAt | src/lexer.rs:90-237 | the same, once whitespace is skipped |
| Lexing.Lexer.constructor | src/lexer.rs:75-85 | the cursor on the first character |
| Lexing.Lexer.Advance | src/lexer.rs:241-254 | one step forward, keeping line, column and current character in step |
| Lexing.Lexer.SkipWhitespace | src/lexer.rs:256-264 | moves to the end of the whitespace run |
| Lexing.Lexer.SkipMultilineComment | src/lexer.rs:266-296 | moves past the nested comment exactly as `CommentEnd`, or fails as it does |
| Lexing.Lexer.ReadIdentifier | src/lexer.rs:298-329 | reads the maximal word and gives its keyword or identifier token |
| Lexing.Lexer.ReadNumber | src/lexer.rs:331-352 | reads the maximal digit run and gives `NumberToken` |
| Lexing.Lexer.ReadString | src/lexer.rs:354-383 | the raw text up to the closing quote, or the error `StringClose` gives |
| Lexing.Lexer.NextToken | src/lexer.rs:87-239 | returns what `NextTokenSpec` reads and stops where it stops |
| Lexing.Lexer.TokenHere | src/lexer.rs:90-237 | the same, once whitespace is skipped |
| Lexing.Lexer.SkipLineComment | src/lexer.rs:141-145 | moves to the next line feed |
| Lexing.Lexer.AfterSlash | src/lexer.rs:138-155 | a comment is skipped or `/` is read, as `TokenAt` says |
| Lexing.Lexer.ReadLogical | src/lexer.rs:199-228 | `&&`, `\|\|`, `\|>` or the lone-character error, as `TokenAt` says |
| Lexing.Lexer.ReadOperator | src/lexer.rs:160-198 | the one- or two-character operator `TokenAt` reads |
| Streams.Next | src/parser.rs:377-380 | moves to the next token, or reports the lexer failure where the tokens run out |
| Streams.LexFrom | src/lexer.rs:87-239 | every listed token is not `Eof` and ends after the start |
| Streams.TokensOf | src/parser.rs:377-380 | the tokens, one per item |
| Streams.StreamFrom | src/parser.rs:14-22 | a stream holds no `Eof` among its listed tokens |
| Streams.PositionAfter | src/lexer.rs:87-239 | the lexer's position after some tokens is within the input |
| Streams.EofAtEnd | src/lexer.rs:88-91 | at the end of the input the lexer keeps returning `Eof` |
| LexingFacts.Tokenize | src/lexer.rs:391-404 | a token list ends with `Eof` and holds no other `Eof` |
| LexingFacts.EofIsSticky | src/lexer.rs:87-91 | after `Eof` the lexer keeps returning `Eof` |
| LexingFacts.TwoCharOperatorsAreGreedy | src/lexer.rs:125-228 | a two-character operator is always read whole |
| LexingFacts.LoneAmpersandIsAnError | src/lexer.rs:199-211 | `&` not followed by `&` is an error |
| LexingFacts.LoneBarIsAnError | src/lexer.rs:212-228 | `\|` followed by neither `\|` nor `>` is an error one step past it |
| LexingFacts.UnexpectedCharacterIsAnError | src/lexer.rs:230-236 | a character that starts no token and is no letter, digit or `_` is an error at its own position naming it |
| LexingFacts.StringsAreQuoted | src/lexer.rs:354-383 | a string token is the raw text up to the closing quote and ends past it; an unclosed string or a trailing backslash is `StringClose`'s error |
| LexingFacts.WordsAreMaximal | src/lexer.rs:298-329 | a word is the maximal identifier run, a keyword iff it is one of the 13 |
| LexingFacts.ColumnsAcrossALine | src/lexer.rs:241-254 | within a line the column grows by one per character |
| LexingFacts.NumbersInRange | src/lexer.rs:331-352 | a digit run in range is its integer; out of range is an error, and a panic when a line feed follows |
| LexingFacts.WordAt | src/lexer.rs:298-329 | a word between two positions is read as its token |
| LexingFacts.NumberAt | src/lexer.rs:331-352 | an in-range digit run is read as its integer |
| LexingFacts.OperatorAt | src/lexer.rs:125-228 | an operator is read with two characters when it can be |
| LexingFacts.SkippedTo | src/lexer.rs:256-264 | leading whitespace does not change the token |
| LexingFacts.SpanEndIs | src/lexer.rs:256-264 | a run of matching characters that stops at a non-matching one or the end is where skipping stops |
| LexingFacts.TokenizeStep | src/lexer.rs:87-239 | the token list from a position is the token read there followed by the list from where it ends |
| LexingFacts.TokenizeEnd | src/lexer.rs:88-91 | only whitespace left gives just `Eof` |
| LexingExamples.StringsAreRaw | src/lexer.rs:363-372 | an escaped quote stays in the string as written |
| LexingExamples.InnerCommentCloses | src/lexer.rs:266-296 | an inner comment closes before the outer one |
| LexingExamples.CommentsNest | src/lexer.rs:266-296 | `/*/**/*/x` reads `x` |
| LexingExamples.NestedCommentLeftOpen | src/lexer.rs:266-296 | `/*/**/` is an unterminated comment |
| LexingExamples.PipelineExample | src/lexer.rs:391-404 | `x \|> f` lexes to an identifier, `\|>`, an identifier, `Eof` |
| LexingExamples.LetAt0 | src/lexer.rs:428-445 | `let` is read first |
| LexingExamples.LetAt3 | src/lexer.rs:428-445 | then `x` |
| LexingExamples.LetAt5 | src/lexer.rs:428-445 | then `=` |
| LexingExamples.LetAt7 | src/lexer.rs:428-445 | then `5` |
| LexingExamples.LetAt9 | src/lexer.rs:428-445 | then `in` |
| LexingExamples.LetAt12 | src/lexer.rs:428-445 | then `x` |
| LexingExamples.LetAt14 | src/lexer.rs:428-445 | then `+` |
| LexingExamples.LetAt16 | src/lexer.rs:428-445 | then `1` |
| LexingExamples.LetExample | src/lexer.rs:428-445 | `let x = 5 in x + 1` lexes to let, an identifier, `=`, 5, in, an identifier, `+`, 1, `Eof` |
| Grammar.Fail | src/parser.rs:37-41 | a parser error, always at line 1, column 1 |
| Grammar.ExpectAt | src/parser.rs:350-361 | advances only when the current token is the expected one; otherwise an error, not advancing |
| Grammar.IdentifierAt | src/parser.rs:363-375 | the current identifier's name, advancing; any other token is an error |
| Grammar.TypeNamed | src/parser.rs:76-90 | `String`, `Int`, `Bool` are primitive; every other name is a value type |
| Grammar.TypeAt | src/parser.rs:73-91 | a type ends within the stream |
| Grammar.ParameterAt | src/parser.rs:65-71 | a parameter ends within the stream |
| Grammar.BooleanAt | src/parser.rs:332-348 | a boolean ends within the stream |
| Grammar.ExpressionAt | src/parser.rs:135-137 | an expression ends within the stream |
| Grammar.PipelineAt | src/parser.rs:139-149 | the same at the pipeline level |
| Grammar.PipelineRest | src/parser.rs:141-147 | the same for the `\|>` loop |
| Grammar.OrAt | src/parser.rs:151-161 | the same at the `\|\|` level |
| Grammar.OrRest | src/parser.rs:153-159 | the same for the `\|\|` loop |
| Grammar.AndAt | src/parser.rs:163-173 | the same at the `&&` level |
| Grammar.AndRest | src/parser.rs:165-171 | the same for the `&&` loop |
| Grammar.ComparisonAt | src/parser.rs:175-196 | the same at the comparison level |
| Grammar.ComparisonRest | src/parser.rs:177-194 | the same for the comparison loop |
| Grammar.ComparisonOf | src/parser.rs:179-187 | exactly the six comparison tokens and `contains` are comparison operators, `contains` standing for itself |
| Grammar.AdditiveAt | src/parser.rs:198-214 | the same at the `+ -` level |
| Grammar.AdditiveRest | src/parser.rs:200-212 | the same for the `+ -` loop |
| Grammar.AdditiveOf | src/parser.rs:202-206 | exactly `+` and `-` are additive operators |
| Grammar.MultiplicativeAt | src/parser.rs:216-232 | the same at the `* /` level |
| Grammar.MultiplicativeRest | src/parser.rs:218-230 | the same for the `* /` loop |
| Grammar.MultiplicativeOf | src/parser.rs:220-224 | exactly `*` and `/` are multiplicative operators; `%` is not one |
| Grammar.UnaryAt | src/parser.rs:234-248 | the same for `!` and `-` |
| Grammar.PostfixAt | src/parser.rs:250-285 | the same for selectors |
| Grammar.PostfixRest | src/parser.rs:252-283 | the same for the selector loop |
| Grammar.SelectorRest | src/parser.rs:256-280 | `.name(args)` becomes a method call on the left operand and `.name` a member access |
| Grammar.ArgumentsRest | src/parser.rs:262-277 | arguments are collected in order, each added at the end |
| Grammar.Atom | src/parser.rs:298-318 | literals and identifiers are the atoms |
| Grammar.PrimaryAt | src/parser.rs:287-330 | a primary consumes at least one token |
| Grammar.LetRest | src/parser.rs:289-297 | a `let` yields a `Let` node |
| Grammar.LetBodyRest | src/parser.rs:294-296 | the `Let` holds the bound name and the bound expression |
| Grammar.ClauseRest | src/parser.rs:100-108 | a clause's expression follows a `:` |
| Grammar.UniqueRest | src/parser.rs:115-119 | a `unique` clause's boolean follows a `:` |
| Grammar.ClauseAt | src/parser.rs:98-126 | each clause sets its own field and keeps the other two; any other token is an error |
| Grammar.BodyRest | src/parser.rs:93-133 | clauses in any order; a parsed body stops at `}` |
| Grammar.HeadAt | src/parser.rs:45-54 | a declaration head starts at `value` and consumes tokens |
| Grammar.ValueDeclarationAt | src/parser.rs:45-63 | a value declaration starts at `value` |
| Grammar.DeclarationAt | src/parser.rs:34-43 | only value declarations parse; any other token is an error |
| Grammar.DeclarationsRest | src/parser.rs:24-32 | the declarations are collected in order |
| Grammar.ProgramOf | src/parser.rs:14-32 | a program is value declarations only; an error is the parser's (line 1, column 1) or the lexer's |
| GrammarFacts.AtomOperand | src/parser.rs:287-330 | an atom is a whole operand at every level the next token does not continue |
| GrammarFacts.AtomOr | src/parser.rs:151-161 | the same at the `\|\|` level |
| GrammarFacts.AtomAdditive | src/parser.rs:198-214 | the same at the `+ -` level |
| GrammarFacts.AtomMultiplicative | src/parser.rs:216-232 | the same at the `* /` level |
| GrammarFacts.AtomUnary | src/parser.rs:234-248 | the same at the unary level |
| GrammarFacts.RestAtEnd | src/parser.rs:139-232 | at `Eof` every loop returns its left operand |
| GrammarFacts.PipelineEntry | src/parser.rs:139-149 | the pipeline loop starts from an `\|\|`-level operand |
| GrammarFacts.AdditiveEntry | src/parser.rs:198-214 | the `+ -` loop starts from a `* /`-level operand |
| GrammarFacts.MultiplicativeEntry | src/parser.rs:216-232 | the `* /` loop starts from a unary operand |
| GrammarFacts.PipelineStep | src/parser.rs:141-147 | one `\|>` step folds to the left |
| GrammarFacts.ComparisonStep | src/parser.rs:177-194 | one comparison step folds to the left |
| GrammarFacts.AdditiveStep | src/parser.rs:200-212 | one `+ -` step folds to the left |
| GrammarFacts.MultiplicativeStep | src/parser.rs:218-230 | one `* /` step folds to the left |
| GrammarFacts.Completes | src/parser.rs:135-173 | a comparison followed by no `&&`, `\|\|` or `\|>` is the whole expression |
| GrammarFacts.ChainStages | src/parser.rs:419-445 | each stage of `s \|> trim \|> length \|> isPositive` is an operand |
| GrammarFacts.PipelinesNestLeft | src/parser.rs:419-445 | that chain is a left-nested pipeline ending in `isPositive` |
| GrammarFacts.ComparedLast | src/parser.rs:388-416 | `length > 5` is one operand |
| GrammarFacts.PipelineBindsLoosest | src/parser.rs:388-416 | `x \|> toLowerCase \|> length > 5` keeps the pipeline at the top |
| GrammarFacts.SubtractionIsLeftAssociative | src/parser.rs:198-214 | `a - b - c` is `(a - b) - c` |
| GrammarFacts.ProductBindsTighter | src/parser.rs:198-232 | `a + b * c` is `a + (b * c)` |
| GrammarFacts.LetBound | src/parser.rs:448-479 | `x + 10` before `in` is a whole expression |
| GrammarFacts.LetBody | src/parser.rs:448-479 | `y > 20` at the end is a whole expression |
| GrammarFacts.LetSpansExpressions | src/parser.rs:448-479 | `let y = x + 10 in y > 20` is one `Let` whose body is the full comparison |
| GrammarFacts.OrStep | src/parser.rs:151-161 | one `\|\|` step folds to the left |
| GrammarFacts.AndStep | src/parser.rs:163-175 | one `&&` step folds to the left |
| GrammarFacts.OrEntry | src/parser.rs:151-161 | the `\|\|` loop starts from an `&&`-level operand |
| GrammarFacts.AndEntry | src/parser.rs:163-175 | the `&&` loop starts from a comparison-level operand |
| GrammarFacts.ComparisonEntry | src/parser.rs:175-196 | the comparison loop starts from a `+ -`-level operand |
| GrammarFacts.RestsStop | src/parser.rs:139-232 | before a token that ends an expression every loop returns its left operand |
| GrammarFacts.UnaryCompletes | src/parser.rs:135-248 | a unary-level operand followed by a token that ends an expression is the whole expression |
| GrammarFacts.PrimaryCompletes | src/parser.rs:135-330 | the same for a primary that does not start with `!` or `-` |
| GrammarFacts.AndCompletes | src/parser.rs:135-175 | the same for an `&&`-level operand |
| GrammarFacts.LetAt | src/parser.rs:289-297 | `let name = bound in body` is one `Let` primary that ends where its body ends |
| GrammarFacts.LetExpression | src/parser.rs:289-297 | such a `let` followed by a token that ends an expression is the whole expression |
| GrammarFacts.HeadOf | src/parser.rs:45-54 | `value Name(param: Type) {` gives the name and the parameter |
| GrammarFacts.ValidateOnlyBody | src/parser.rs:93-133 | a body holding only `validate: e` has that validation and nothing else |
| GrammarFacts.ValidateOnlyDeclaration | src/parser.rs:45-63 | `value Name(param: Type) { validate: e }` is one value declaration with only that validation |
| GrammarFacts.SingleDeclarationProgram | src/parser.rs:14-32 | one declaration followed by `Eof` is a program of that one declaration |
| ParserExamples.FahrenheitBound | src/parser.rs:482-512 | `celsius * 9 / 5 + 32` is `((celsius * 9) / 5) + 32` |
| ParserExamples.NegatedOperand | src/parser.rs:482-512 | `- 459` is a negated literal |
| ParserExamples.InRangeBody | src/parser.rs:482-512 | `fahrenheit > -459 && fahrenheit < 1000` joins the two comparisons with `&&` |
| ParserExamples.TemperatureValidation | src/parser.rs:482-512 | the validation is one `let` whose body reaches the closing brace |
| ParserExamples.TemperatureDeclarationAt | src/parser.rs:482-512 | the declaration is `Temperature` over an `Int` with that validation only |
| ParserExamples.TemperatureProgram | src/parser.rs:482-512 | the program is that one declaration |
| ParserExamples.NestedLetBindings | src/parser.rs:482-512 | `test_nested_let_bindings`: one declaration `Temperature(celsius: Int)` whose validation is `let fahrenheit = ((celsius * 9) / 5) + 32 in (fahrenheit > -459) && (fahrenheit < 1000)` |
| ParserExamples.LengthBound | src/parser.rs:514-565 | `raw.length` is a member access |
| ParserExamples.ContainsOperand | src/parser.rs:514-565 | `raw contains "x"` is one comparison |
| ParserExamples.AnyOfBound | src/parser.rs:514-565 | three `contains` comparisons joined by `\|\|` fold to the left |
| ParserExamples.StrongEnoughBody | src/parser.rs:514-565 | `len > 8 && hasUpperCase && hasNumber` is `(len > 8 && hasUpperCase) && hasNumber` |
| ParserExamples.NumberLet | src/parser.rs:514-565 | the innermost `let` binds the `\|\|` of digits over that conjunction |
| ParserExamples.UpperCaseLet | src/parser.rs:514-565 | the middle `let` binds the `\|\|` of capitals over the innermost one |
| ParserExamples.PasswordValidation | src/parser.rs:514-565 | the validation is three nested `let`s, the outer one binding `raw.length` |
| ParserExamples.PasswordDeclarationAt | src/parser.rs:514-565 | the declaration is `Password` over a `String` with that validation only |
| ParserExamples.PasswordProgram | src/parser.rs:514-565 | the program is that one declaration |
| ParserExamples.LetBindingsWithStringOperations | src/parser.rs:514-565 | `test_let_bindings_with_string_operations`: one declaration `Password(raw: String)` whose validation nests `let len`, `let hasUpperCase` and `let hasNumber`, binding a member access and two `\|\|` expressions, with an `&&` at the innermost body |
| Parsing.Parser.Init | src/parser.rs:14-22 | the parser on the first token of the lexer's stream |
| Parsing.Parser.New | src/parser.rs:14-22 | reading the first token fails iff the lexer fails at once |
| Parsing.Parser.Advance | src/parser.rs:377-380 | moves to the stream's next token, or returns the lexer's error |
| Parsing.Parser.Expect | src/parser.rs:350-361 | returns and moves exactly as `ExpectAt` |
| Parsing.Parser.ExpectIdentifier | src/parser.rs:363-375 | as `IdentifierAt` |
| Parsing.Parser.ParseProgram | src/parser.rs:24-32 | as `DeclarationsRest` from the current token, with no declarations yet |
| Parsing.Parser.ParseDeclaration | src/parser.rs:34-43 | as `DeclarationAt` |
| Parsing.Parser.ParseValueDeclaration | src/parser.rs:45-63 | as `ValueDeclarationAt` |
| Parsing.Parser.ParseParameter | src/parser.rs:65-71 | as `ParameterAt` |
| Parsing.Parser.ParseType | src/parser.rs:73-91 | as `TypeAt` |
| Parsing.Parser.ParseValueBody | src/parser.rs:93-133 | the clause loop as `BodyRest` |
| Parsing.Parser.ParseBodyClause | src/parser.rs:97-127 | one clause as `ClauseAt` |
| Parsing.Parser.ParseClause | src/parser.rs:100-108 | as `ClauseRest` |
| Parsing.Parser.ParseUnique | src/parser.rs:115-119 | as `UniqueRest` |
| Parsing.Parser.ParseBoolean | src/parser.rs:332-348 | as `BooleanAt` |
| Parsing.Parser.ParseExpression | src/parser.rs:135-137 | as `ExpressionAt` |
| Parsing.Parser.ParsePipeline | src/parser.rs:139-149 | the `\|>` loop as `PipelineAt` |
| Parsing.Parser.ParseOr | src/parser.rs:151-161 | the `\|\|` loop as `OrAt` |
| Parsing.Parser.ParseAnd | src/parser.rs:163-173 | the `&&` loop as `AndAt` |
| Parsing.Parser.ParseComparison | src/parser.rs:175-196 | the comparison loop as `ComparisonAt` |
| Parsing.Parser.ParseAdditive | src/parser.rs:198-214 | the `+ -` loop as `AdditiveAt` |
| Parsing.Parser.ParseMultiplicative | src/parser.rs:216-232 | the `* /` loop as `MultiplicativeAt` |
| Parsing.Parser.ParseUnary | src/parser.rs:234-248 | as `UnaryAt` |
| Parsing.Parser.ParsePostfix | src/parser.rs:250-285 | the selector loop as `PostfixAt` |
| Parsing.Parser.ParseSelector | src/parser.rs:256-280 | as `SelectorRest` |
| Parsing.Parser.ParseArguments | src/parser.rs:262-277 | as `ArgumentsRest` |
| Parsing.Parser.ParsePrimary | src/parser.rs:287-330 | as `PrimaryAt` |
| Parsing.Parser.ParseLet | src/parser.rs:289-297 | as `LetRest` |
| Parsing.Parser.ParseLetBody | src/parser.rs:294-296 | as `LetBodyRest` |
| Compilation.IntExpr | src/compiler.rs:388-441 | only literals, names and `.length` evaluate; the parameter is the input; `.length` is 0; another name must be a bound integer |
| Compilation.CompareInts | src/compiler.rs:315-343 | the six integer comparisons; `CompilationFacts.IntComparison` states how validation uses them |
| Compilation.IntValidation | src/compiler.rs:300-386 | no contract of its own: `CompilationFacts.ShortCircuit`, `IntComparison`, `UnknownShapesAccept`, `PipelineAndLet`, `IntLengthIsZero` and `ValidationAgreesWithEvaluator` state it |
| Compilation.StringExpr | src/compiler.rs:443-492 | only literals, names and method calls on names evaluate; the parameter is the input; `toLowerCase` lowercases it |
| Compilation.StringValidation | src/compiler.rs:170-296 | no contract of its own: `CompilationFacts.ShortCircuit`, `ContainsSpec`, `UnknownComparisonsAccept` and `PipelineAndLet` state it |
| Compilation.CheckedScalar | src/compiler.rs:609-641 | an in-range integer, or the overflow panic |
| Compilation.LetValue | src/compiler.rs:494-584 | the parameter is its value; a literal always evaluates |
| Compilation.RunValidator | src/compiler.rs:48-82 | no clause or mismatched input accepts; otherwise the interpreter's `true` accepts, `false` is a validation error naming the type, and its errors pass through |
| Compilation.CompiledConstructor | src/compiler.rs:43-101 | the declaration is kept; a normalizer exists iff there is a `normalize` clause |
| Compilation.AddFunction | src/compiler.rs:108-119 | appends the implementation to its name and leaves the rest |
| Compilation.AsFunction | src/compiler.rs:115-119 | a method is registered as the function with its name, parameters, return type and body |
| Compilation.CompileDecl | src/compiler.rs:28-41 | a value declaration adds or replaces exactly its constructor; a function or method adds exactly its name; a relation declaration changes nothing; no recorded implementation is dropped or reordered |
| Compilation.CompileAll | src/compiler.rs:21-26 | exactly the value declarations' names gain constructors and exactly the function and method names gain implementations |
| Compilation.Compiler.constructor | src/compiler.rs:14-19 | an empty registry and specialisation cache |
| Compilation.Compiler.CompileValueDeclaration | src/compiler.rs:43-106 | registers the compiled constructor, replacing one of that name |
| Compilation.Compiler.CompileFunctionDeclaration | src/compiler.rs:108-113 | appends the function |
| Compilation.Compiler.CompileMethodDeclaration | src/compiler.rs:115-119 | appends the method as a function |
| Compilation.Compiler.CompileDeclaration | src/compiler.rs:28-41 | never fails; the registry after that declaration |
| Compilation.Compiler.CompileProgram | src/compiler.rs:21-26 | never fails; the registry after every declaration in order |
| Compilation.Compiler.EvaluateExpression | src/compiler.rs:129-133 | the plain evaluator with no bindings |
| Compilation.Compiler.EvaluateWithOptimization | src/compiler.rs:135-153 | specialises first, only adding sound cache entries, then runs the fast path with that cache |
| CompilationFacts.ShortCircuit | src/compiler.rs:307-313 | `&&`/`\|\|` decide from the left when they can; a right-side error surfaces only otherwise (also src/compiler.rs:177-183) |
| CompilationFacts.IntComparison | src/compiler.rs:315-343 | an integer comparison compares both sides' values; errors propagate left first |
| CompilationFacts.UnknownShapesAccept | src/compiler.rs:383 | unhandled forms validate as `true` in both interpreters (also src/compiler.rs:292) |
| CompilationFacts.UnknownComparisonsAccept | src/compiler.rs:292 | `contains` on integers and orderings on strings validate as `true` |
| CompilationFacts.PipelineAndLet | src/compiler.rs:259-273 | a pipeline validates by its left side; `let` extends the bindings for its body (also src/compiler.rs:345-360) |
| CompilationFacts.ContainsSpec | src/compiler.rs:185-205 | `contains` is true only for the parameter or a bound string containing a string literal |
| CompilationFacts.IntLengthIsZero | src/compiler.rs:408-413 | `n.length > 0` is false for every integer |
| CompilationFacts.LetArithmetic | src/compiler.rs:609-641 | `let` supports `+`, `*` and `/`, with division by zero an error; `-` is unsupported |
| CompilationFacts.AtomAgrees | src/compiler.rs:388-441 | integer atoms evaluate as in the evaluator |
| CompilationFacts.ComparisonAgrees | src/compiler.rs:315-343 | integer comparisons agree with the evaluator |
| CompilationFacts.ValidationAgreesWithEvaluator | src/compiler.rs:300-386 | on comparisons of integer atoms joined by `&&`/`\|\|`, the validator agrees with the evaluator |
| CompilationFacts.BinaryAgrees | src/compiler.rs:307-313 | `&&`/`\|\|` agree when both sides do |
| CompilationFacts.CompiledConstruct | src/value.rs:34-53 | constructing a compiled value type succeeds iff its validator accepts, and otherwise returns the validator's error |
| CompilationFacts.PositiveExample | src/compiler.rs:48-82 | `Positive(n: Int)` accepts 5, rejects 0, and does not check a string |
| CompilationFacts.CompileAllKeepsImplementations | src/compiler.rs:21-26 | compiling more declarations never drops a registered implementation |

## Left out

- The REPL in src/main.rs, the example programs and src/stdlib.rs are input/output around the core and are not modelled.
- The `RwLock` around the global dispatch cache is not modelled. The cache is a map threaded through evaluation as a value (`Evaluator.Outcome`), since concurrency is outside the model.
- `all(Type)`, `Type.all()` and `Type.count()` need an instance registry that the value registry does not have. They return an error marked as not modelled.
- The `relationOf` builtin and the List `filter`/`find` methods are stubs in the evaluator. `relationOf` is modelled as its error; list methods other than `length` are unknown methods.
- `dyn Any` downcasts, `Box::leak`, hashing, and `Display`/`Debug` formatting are not modelled. Inputs are a tagged datatype (`Values.Input`), and errors are structured reasons rather than formatted messages.
- Text is ASCII only. Unicode case mapping and the lexer's mixing of byte and character offsets are not modelled.
- `i64` overflow, which panics in a debug build, is the error `Panic("arithmetic overflow")`. This covers the plain evaluator, the fast path's `evaluate_binary_op` and `let` arithmetic in validators. A release build's wrap-around is not modelled.
- The iteration order of a `HashMap` row is a parameter (`keyOrder` in `Relations.ValidateRow` and `Relations.AddRow`). It decides only which unknown field is reported.
- `Query` expressions are left out, since no core function evaluates, checks or compiles them.
- Recursion through function bodies is bounded by fuel: `Eval` and `EvalOpt` return `OutOfFuel` when it runs out, and a program that does not terminate is not modelled.
- `ValueRegistry` in src/value.rs has no function table. The evaluator's registry therefore pairs the constructors with an explicit map of implementations.
- The `equals` and `hash_value` members of the value-object trait are left out. They are not part of the trait as declared in src/value.rs, although src/relation.rs and src/list.rs call `equals`.
- Relations.Clashes: compares cell values with structural `==` on `GenericValueObject(typeName, data)` instead of calling `ValueObject::equals` through `values_equal` (src/relation.rs:123-125). A cell is always a generic value object in the model, so it cannot be a list, a relation or an email address, and their own `equals` is not used. For a relation cell that `equals` compares only the schema and the row count (src/relation.rs:161-170).
- Lists.ItemsEqual: compares items with structural `==` instead of calling `equals` on each pair (src/list.rs:144-145). An item is always a generic value object, so nested lists, relations and email addresses are not modelled as items. `Lists.Equals` inherits this.
- Ast.Declaration: a relation declaration carries its fields and constraints, but nothing in the model reads them. The source's compiler and type checker ignore them too.
- The lexer tests `test_pipeline_vs_or` and `test_match_keywords` have no example lemma. The tokens they read are stated for every input by `LexingFacts`.
- The normalizer is stored but never applied. This matches `construct`, which never calls it. The `validate`/`normalize` of a generic value object do nothing, so they have no model.
- `Evaluator.Eval`, `Evaluator.EvalCall`, `Evaluator.Dispatch`, `Evaluator.ApplyBinary`, `OptimizedEvaluator.EvalOpt`, `Compilation.IntValidation`, `Compilation.StringValidation`, `Compilation.CompareInts`, `Compilation.AsFunction`, `Relations.Clashes`, `Relations.AddRows`, `Queries.ProjectRows`, `Queries.SelectSpec`, `Lexing.NumberToken` and `Lexing.DecimalValue` carry no contract of their own. Their behaviour is stated by the lemmas their rows name.
- The call branch at src/evaluator.rs:285-359 and the uniform-call branch at src/evaluator.rs:570-580 are not modelled. Both are reached only through `registry.get_methods`, which `ValueRegistry` in src/value.rs does not define, and the only `get_methods` in the source (src/types.rs:98-101) always returns nothing. `Evaluator.CalculateMethodSpecificity` models `calculate_method_specificity`, which only the first of these branches calls.
- Evaluator.Candidates: its own contract states arity, type and score. The guards are stated by `EvaluatorFacts.CandidatesListedIff` and the cache it leaves by `EvaluatorFacts.CandidatesCache`.
- Evaluator.GuardsHold: its own contract states that it never fails. Which guards it requires, and the cache it leaves, are stated by `EvaluatorFacts.GuardsHoldIff`.
- The checker's rule for a `TypeLiteral` expression (an error, `NoRuleForTypeLiteral`) is the model's own. `check_expression` in src/typechecker.rs matches on the `Expression` of src/ast.rs, which has no such variant.
- Only the first arm of a match is evaluated, as in the source. The evaluator does not test the scrutinee against the pattern.
- The parser's line and column are set to 1 and never updated, as in the source, so every parser error is at line 1, column 1.
- TypeChecker.Check: its contract covers comparisons, literals and identifiers. The typing of the other forms is stated by the lemmas of `TypeCheckerFacts`.
- TypeCheckerFacts.TypeSafety: proved for expressions built from literals, names, operators, comparisons, `.length` and `let`. Calls, method calls, pipelines and matches are not covered.
- Specialization.SpecializeFunctionCalls: its contract says only that entries are added, for known argument types, and stay in range. Which calls are specialised is stated per call by `Specialization.SpecializeCall`.
- Specialization.SpecializeAll: the same as `SpecializeFunctionCalls`, for each argument.
- Lexing.LineAt: its contract bounds the line number only. The lexer's `Valid` invariant ties the counted line to the cursor.
- Lexing.NextTokenSpec: its contract states token positions only. For every input, `LexingFacts` states the operators, words, numbers, strings and the three error arms; `LexingExamples` states comments and whole inputs.
- Lexing.TokenAt: the same as `NextTokenSpec`.
- Grammar.TypeAt: its contract states only where a parse ends and which errors it can give. The value built is fixed by its `Parsing.Parser` method and, for expressions, by the lemmas of `GrammarFacts`, which state precedence and associativity on concrete token streams rather than for every stream.
- Grammar.ParameterAt: as for `Grammar.TypeAt`.
- Grammar.BooleanAt: as for `Grammar.TypeAt`.
- Grammar.ExpressionAt: as for `Grammar.TypeAt`.
- Grammar.PipelineAt: as for `Grammar.TypeAt`.
- Grammar.PipelineRest: as for `Grammar.TypeAt`.
- Grammar.OrAt: as for `Grammar.TypeAt`.
- Grammar.OrRest: as for `Grammar.TypeAt`.
- Grammar.AndAt: as for `Grammar.TypeAt`.
- Grammar.AndRest: as for `Grammar.TypeAt`.
- Grammar.ComparisonAt: as for `Grammar.TypeAt`.
- Grammar.ComparisonRest: as for `Grammar.TypeAt`.
- Grammar.AdditiveAt: as for `Grammar.TypeAt`.
- Grammar.AdditiveRest: as for `Grammar.TypeAt`.
- Grammar.MultiplicativeAt: as for `Grammar.TypeAt`.
- Grammar.MultiplicativeRest: as for `Grammar.TypeAt`.
- Grammar.UnaryAt: as for `Grammar.TypeAt`.
- Grammar.PostfixAt: as for `Grammar.TypeAt`.
- Grammar.PostfixRest: as for `Grammar.TypeAt`.
- Grammar.BodyRest: its contract states only that a parsed body stops at `}`; each clause is described by `Grammar.ClauseAt`.
- Evaluator.EvalArgs: its contract gives only the number of values; the order and the first error are stated by `EvaluatorFacts.EvalArgsCons`.
- OptimizedEvaluator.EvalOptArgs: its contract gives only the number of values.
- TypeChecker.CheckArgs: its contract gives only the number of types; `TypeCheckerFacts.CheckArgsTypes` gives each one.
- Evaluator.Specificity: its contract is a bound; the exact score is stated by `Evaluator.CalculateFunctionSpecificity`, `EvaluatorFacts.SpecificityUpdate` and `EvaluatorFacts.GuardAndAnyScores`.
- Specialization.StaticScore: its contract is a bound; `DispatchFacts.DynamicScoreIsStaticPlusGuards` relates it to the dynamic score.
- Streams.LexFrom: its contract bounds the token positions; `Streams.LexFromNext` ties every token to the lexer.
- Compilation.IntExpr: its contract covers names and `.length`. Comparisons built from it are stated by `CompilationFacts.IntComparison`.
- Compilation.StringExpr: its contract covers the parameter and `toLowerCase` on it. Other method calls and the context lookups are not stated.
- Compilation.LetValue: its contract covers the parameter and literals. Arithmetic is stated by `CompilationFacts.LetArithmetic`.
- The string validator's `==`, `!=` and `>` cases and the match case of both validators are modelled in the interpreters, but no lemma states them.
