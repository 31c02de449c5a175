# DTL, modelled and proved

DTL is a small embedded language. This project models its tokenizer, its parser, its
scope and call checker, the registry of compiled functions, its tree-walking evaluator with
the scope reuse that makes the evaluator fast, and four self-contained algorithms of its
library, and proves what they promise. `dafny verify dfyconfig.toml` checks everything.

## How the pieces fit

| files | what they hold |
|---|---|
| `Wrappers`, `Chars` | optional values, ASCII characters |
| `Syntax`, `Lexical` | programs, values, call resolution; the meaning of a program as plain lexical scoping, with immutable local scopes |
| `Store`, `Running`, `Machine` | the evaluator as it is: a heap of scopes, closures with one reused argument scope each, the re-entrancy guard, copy-on-capture; first what every step keeps on any program, then the class that does the same in place |
| `Refinement`, `Rebinding` | where reused scopes cannot be seen: the evaluator has the outcome, log and closures of `Lexical`; and a program where they can |
| `Meaning`, `LexicalMeaning` | what conditions, connectives, loops, calls and the collection builtins answer, said with the values themselves, for the evaluator and for its lexical meaning |
| `Lookups` | what every run of the evaluator finds, whether reuse can be seen or not: callees, and with enough arguments variables |
| `Scopes` | one scope object with four inline slots and spill arrays, as a finite map in a chain |
| `Termination`, `Stack` | what the depth limit guarantees and what it does not; a larger host stack changes nothing but survival |
| `Compiler`, `CompileErrors`, `Soundness`, `Arguments`, `Immutability` | the checker and the dependencies it records; exactly which errors a function gets; what a clean compile promises about runs, alone and with enough arguments; sharing a scope against copying it |
| `Registry`, `Pipeline` | the tables a function is compiled against and run with, and what stays true of them; compiling and running put together |
| `Distance` | edit distance and the "did you mean" suggestion |
| `Tokens`, `Scan`, `Lexer`, `Rendering` | tokens, how far each one reaches, the tokenizer, and tokens written as text and read back |
| `Grammar`, `Reading`, `Shapes`, `OpenTrees`, `Steps`, `Functions`, `Parser`, `Writing`, `ReadBack` | expression trees and their shortest spelling, where a tree, a statement or a function is spelled in a token list and what may follow it, the recursive-descent parser, and the round trip from tree to text to tree |
| `Precedence`, `FunctionText` | how tightly the operators bind, said with the operators themselves; function definitions as text |
| `Path`, `Flatten`, `PatternCache`, `TextCase` | dotted paths into nested values, the LRU cache of compiled patterns, word splitting and letter case |

Three devices recur. The evaluator's model takes a number `fuel`, the calls the host stack
has room for; a run that needs more ends in `Overflow`, which the program cannot catch. The
operators, Go's number and value formatting, `strconv.Atoi`, `regexp.Compile` and the test
whether digits fit a machine number are arbitrary functions, so every theorem holds whatever
they do. The parser's methods take a ghost argument `want`: a tree that is spelled at the
current token. The program never sees it; a method's contract says that if there is such a
tree, the method returns it and stops right behind it. The tree is spelled with symbols; the words
`or`, `and` and `not` may stand for them.

Findings where code and documentation part, or where a promise holds only in part:

- The depth limit does not bound every run. A closure runs at the depth where it was
  written plus one, so a closure handed to itself recurses without the counted depth ever
  growing (`Termination.LimitMissesSelfApplication`, for every limit and every stack), although
  the comment at executor/executor.go:905-908 says that the depth it carries keeps a lambda's body
  within the limit. With lambdas written directly as arguments of `map`, `filter` and `reduce` the
  limit does end every run (`Termination.ExecuteEnds`).
- Reused argument scopes can be seen. A lambda in the body of a `for` that is itself in a lambda
  captures the outer lambda's argument scope, because the copying stops at the loop's scope, and
  the outer lambda's next call rebinds it: `let fs = map([1, 2], x => for y in [0]: z => x)`
  followed by `map([0], fs[0][0])` gives [2] where lexical scoping gives [1]
  (`Rebinding.ReuseShows`). A chain is safe from every next call exactly when no lambda's argument
  scope is on it (`Refinement.RebindingIff`), and a capture leaves none on it exactly when none
  stood behind the first scope that is not reusable (`Refinement.SnapshotScratchFree`). The
  evaluator agrees with lexical scoping on every program without such a lambda, and on every
  program whose lambdas are all written in the call that uses them, such a `for` included
  (`Refinement.ReuseIsInvisible`).
- Sharing a function's scope with its closures is the same as copying it, unless a statement
  looks up a name that it or a later statement binds. A function that compiles does so only by a
  `$` name or a parameter some call leaves out (`Immutability.CleanBoundBefore`), and then the
  difference shows (`Immutability.LateLetRuns`); with enough arguments at every call there is
  none (`Immutability.SuppliedSharingIsCopying`).
- A parameter left out is not null: it shows what the surroundings bind to its name, or is
  undefined (`Arguments.OmittedParameter`, `Arguments.ShortCallRuns`). With enough arguments at
  every call no run meets an undefined variable, neither under lexical scoping
  (`Arguments.EnoughArgumentsNoUndefined`) nor with reused scopes (`Lookups.RunsFindTheirNames`).
- The compiler tries a bare name before the `use` namespaces, the executor the other way
  round: a clean compile says that a call is defined, not which function it reaches, and the
  dependency recorded for it may be another one. So names registered once each, none of them
  replaced, can call each other in a circle (`Registry.RegisterLoop`,
  `Registry.OnceRegisteredCanLoop`), which the comment at registry/recursion_limit_test.go:16-19
  ascribes to registering a name again.
- `return` does not end a body; the last statement's value is the result.
- A loop comes back from the parser exactly if not both its iterable ends in a plain name and its
  body begins with a namespaced one (`ReadBack.ParseLoop`): in `for x in xs: math::f(x)` the colon
  is taken for the one of the scoped name `xs: math::f` (`ReadBack.ScopedBodyExample`).
- A loop body on lines of its own keeps only its last statement: the parser drops a `let`
  before it without an error, although the last line may use its name (`ReadBack.ParseBlockLoop`).
- An `if` without `else`, and a `match`, take the newlines behind them in search of more, so a
  statement that ends in one goes on with the next line if that begins with `-` or `[`:
  `if c then d` with `[x]` on the next line is one statement (`ReadBack.MergedLinesExample`). A
  block or a function comes back from the parser exactly if no two of its statements meet like
  that (`Parser.Parser.ParseBlock`, `ReadBack.ParseDefinition`).
- Camel case keeps a list of words apart exactly where `TextCase.Seams` says so, and
  flattening can be undone for exactly the objects `Flatten.Flattenable` describes.

## Model

| member | source | states |
|---|---|---|
| Syntax.ResolvedFrom | executor/executor.go:741-803 | whatever a call resolves to, through namespaces or not, is a registered builtin or a function of the table |
| Lexical.LastBinds | executor/executor.go:949-953 | a parameter is bound to the argument at its own place, and of two with one name the later wins |
| Lexical.Eval | executor/executor.go:432-501 | an evaluation only adds: scopes, closures, log entries and recorded omissions of before stay |
| Lexical.EvalList | executor/executor.go:973-983 | elements are evaluated one for one, and earlier state stays |
| Lexical.EvalFor | executor/executor.go:1068-1097 | a loop that succeeds gives one result per remaining item |
| Lexical.ExecStmt | executor/executor.go:396-428 | a statement changes no function scope but its own |
| Store.ChainKept | executor/executor.go:286-301 | a chain that shows a lexical environment, with no argument scope on it that is free to be taken, shows it after any evaluation |
| Store.RunsKept | executor/executor.go:927-947 | a scope that may be evaluated in stays so across every other evaluation |
| Store.ScratchFreeKept | executor/executor.go:286-301 | a chain without any lambda's argument scope keeps every scope on it as it is, across any evaluation |
| Store.KeptTrans | executor/executor.go:927-947 | leaving other scopes and guards alone composes over a whole run |
| Store.EnterOwn | executor/executor.go:927-953 | taking an idle argument scope, rebinding it and raising its guard keeps the heap well formed, and the scope can then be taken by nobody else |
| Store.EnterChain | executor/executor.go:927-953 | taking a lambda's own argument scope changes what no other running chain shows |
| Store.EnterFresh | executor/executor.go:942-947 | a re-entrant call takes a new scope and leaves every older one and every guard alone |
| Store.IdleScratchRebound | executor/executor.go:927-953 | an argument scope whose guard is down is the one the next call of its lambda rebinds |
| Store.LeaveKept | executor/executor.go:929-940 | when a call returns, nothing outside has changed but argument scopes nobody was using |
| Store.LeaveWellFormed | executor/executor.go:929-940 | taking the guard of the last call down keeps the invariant |
| Running.SnapshotKeeps | executor/executor.go:286-301 | copying a chain changes no scope that is there |
| Running.ExprKeeps | executor/executor.go:432-509 | whatever the program, an expression leaves every scope but idle argument scopes as it was, every guard as it was, and each argument scope with one lambda |
| Running.LambdaKeeps | executor/executor.go:927-959 | a closure call takes its guard down again however it ends, re-entrant calls included |
| Running.UserKeeps | executor/executor.go:843-874 | a user call leaves every older function scope alone |
| Running.ExecuteKeeps | executor/executor.go:179-215 | every run of every program ends with all guards down |
| Refinement.SnapshotShows | executor/executor.go:286-301 | a capture shows the environment of its surroundings, and no argument scope on it is free to be taken |
| Refinement.SnapshotScratchFree | executor/executor.go:286-301 | the copy holds no lambda's argument scope if and only if none stands behind the first scope that is not reusable, where the copying stops |
| Refinement.RebindingIff | executor/executor.go:927-953 | between calls, a chain shows its environment after every possible next closure call if and only if no lambda's argument scope is on it |
| Refinement.CapturingRefines | executor/executor.go:876-891 | a new closure shows the environment it was written in; outside of `for` bodies in lambdas, for ever |
| Refinement.ExprRefines | executor/executor.go:432-509 | with reused argument scopes an expression has the value, error, log and closures it has under lexical scoping: where no lambda stands in a `for` body in a lambda, with closures kept and called at any time; and where every lambda is written as the argument of a collection builtin, wherever that stands |
| Refinement.LambdaRefines | executor/executor.go:927-959 | a kept closure has, whenever it is called and however often it is already running, the result of a call in a fresh scope |
| Refinement.PassedCallRefines | stdlib/collections.go:103-154 | a closure written in the call of a collection builtin has the lexical result for every element, although its capture may be rebound later |
| Refinement.UserRefines | executor/executor.go:843-874 | a user call agrees with lexical scoping |
| Refinement.RunRefines | executor/executor.go:179-215 | whole runs agree, and the heap at the end stands for the lexical state |
| Refinement.ReuseIsInvisible | executor/executor.go:179-215 | in particular the outcome and the debug log of a run are those of lexical scoping |
| Rebinding.NotPlaced | executor/executor.go:1083-1089 | a lambda in a `for` body in a lambda is what that agreement excludes |
| Rebinding.ReuseShows | executor/executor.go:1083-1089 | a two-line program for which that is false: lexically it gives [1], the executor gives [2], under every limit of two or more and every stack |
| Machine.Executor.constructor | executor/executor.go:123-128 | an executor starts with an empty, well-formed heap |
| Machine.Executor.Get | executor/executor.go:318-327 | the loop outwards finds the innermost binding of the heap's chain |
| Machine.Executor.Snapshot | executor/executor.go:286-301 | the loop over the chain makes the copy of `Running.Snapshot`, keeps all older scopes, and holds no argument scope if and only if none stands behind the first scope that is not reusable |
| Machine.Executor.EvalExpr | executor/executor.go:432-509 | value or error, scopes, closures with their guards, and log are those of the functional executor, for every program and every expression |
| Machine.Executor.EvalLogical | executor/executor.go:511-534 | the same for `and` and `or`, which look at their right side only when needed; their answers are said by `Meaning.AndAnswers` and `Meaning.OrAnswers` |
| Machine.Executor.EvalIf | executor/executor.go:596-608 | the same for `if`; which values choose which branch is said by `Meaning.IfChooses` |
| Machine.Executor.EvalCoalesce | executor/executor.go:1040-1049 | the same for `??` |
| Machine.Executor.EvalTry | executor/executor.go:1029-1038 | the same for `try`, which catches errors but neither stack exhaustion nor a host panic |
| Machine.Executor.EvalArgs | executor/executor.go:729-739 | the same for an argument list, up to its first error |
| Machine.Executor.EvalRounds | executor/executor.go:1068-1097 | the same for all rounds of a `for`, each in a scope of its own |
| Machine.Executor.EvalLambda | executor/executor.go:876-891 | a new closure over the copied chain, at the depth it was written at, without an argument scope yet |
| Machine.Executor.EvalCall | executor/executor.go:704-739 | the same for calls and pipes |
| Machine.Executor.CallFunction | executor/executor.go:741-803 | resolution, arity check, debug entry and dispatch |
| Machine.Executor.ResolveViaUses | executor/executor.go:812-841 | the loop over the namespaces finds what the resolution order says |
| Machine.Executor.CallHigherOrder | stdlib/collections.go:103-154 | `map`, `filter` and `reduce` call their closure once per element, in order |
| Machine.Executor.CallLambda | executor/executor.go:927-959 | taking the scope, running the body and taking the guard down |
| Machine.Executor.TakeScope | executor/executor.go:927-953 | the reused scope is taken only when its guard is down, a new one else, and either is bound to the closure's environment and the arguments |
| Machine.Executor.CallUserFunction | executor/executor.go:843-874 | a new function scope, the parameters, the body |
| Machine.Executor.SetLocal | executor/executor.go:402-408 | `let` changes one binding of its function's scope and nothing else |
| Machine.Executor.BindParameters | executor/executor.go:855-871 | positional arguments, then defaults, evaluated in the new scope |
| Machine.Executor.ExecBlock | executor/executor.go:384-394 | every statement runs, and the last result is the body's |
| Machine.Executor.ExecStatement | executor/executor.go:396-428 | one statement, with the heap it leaves |
| Machine.Executor.Execute | executor/executor.go:179-215 | a whole run: no guard left up, for any program; and the outcome and debug log of lexical scoping wherever reuse is invisible |
| Meaning.IfChooses | executor/executor.go:1290-1307 | in the executor an `if` goes on with its first branch exactly if its condition is none of null, false, 0, the empty text and the empty array, and with the `else` part, or null, otherwise |
| Meaning.AndAnswers | executor/executor.go:511-522 | `and` answers false without its right side where the left one is one of those five values, and with the truth of the right side where it is not |
| Meaning.OrAnswers | executor/executor.go:524-534 | `or` answers true without its right side where the left one is none of them, and with the truth of the right side where it is |
| Meaning.CoalesceAnswers | executor/executor.go:1040-1049 | `??` looks at its right side exactly if the left one is null |
| Meaning.TryAnswers | executor/executor.go:1029-1038 | `try` answers with its default, or null, exactly if its body ends in an error that is neither an exhausted stack nor a host panic |
| Meaning.FilterKeeps | stdlib/collections.go:119-137 | `filter` calls its closure once per item, in order, and gives exactly the items, in order, whose call gave none of the five false values; the first call that fails ends it |
| Meaning.MapGives | stdlib/collections.go:103-117 | `map` gives the results of its calls, one per item, in order |
| Meaning.ReduceGives | stdlib/collections.go:139-154 | `reduce` hands each result on to the next call, behind the first value it was given, and gives the last one |
| Meaning.WithoutClosure | stdlib/collections.go:103-154 | with too few arguments the three answer for an empty array alone, and panic for another |
| Meaning.LiteralsAnswer | executor/executor.go:369-381 | beyond a positive limit nothing is evaluated; up to it, and without one, a literal is its value |
| Meaning.CallsDeepen | executor/executor.go:843-874 | a user function runs one level deeper: at the limit itself the call is refused, below it is not |
| Meaning.RaiseSays | executor/executor.go:1309-1333 | a raised text is its own message, null an empty one, and a truth value its name |
| Meaning.FirstDefinedWins | executor/executor.go:741-841 | a call means the first defined one of: each namespace in order, with the prefix `app:` and without, and at last the bare name; a builtin before a function of the same name |
| Meaning.NoneDefined | executor/executor.go:795-803 | it means nothing exactly if none of these is defined |
| Meaning.DebugAnswers | executor/executor.go:741-763 | `debug` and `print`, in any case, log their values and answer with the last of them; a text in front labels a debug entry |
| Meaning.CallAnswers | executor/executor.go:782-803 | any other call: the number of arguments is checked for a builtin found by its bare name, and for no other |
| Meaning.UndefinedCall | executor/executor.go:803-803 | a call whose names are all undefined is an error that says so |
| Meaning.LetBinds | executor/executor.go:401-408 | after a `let` its name stands for the value and every other name for what it did |
| Meaning.UseAdds | executor/executor.go:418-423 | after a `use` its namespace is the last of those that calls are tried through |
| Meaning.ForBinds | executor/executor.go:1068-1097 | in a loop the variable is each item in turn and the other one its place, counted from zero |
| Meaning.ClosureBinds | executor/executor.go:949-953 | a closure finds each argument under the name of its parameter, the last one of that name |
| LexicalMeaning.LexicalIfChooses | executor/executor.go:1290-1307 | the same choice under lexical scoping |
| LexicalMeaning.LexicalAndAnswers | executor/executor.go:511-522 | the same answers of `and` |
| LexicalMeaning.LexicalOrAnswers | executor/executor.go:524-534 | the same answers of `or` |
| LexicalMeaning.LexicalFilterKeeps | stdlib/collections.go:119-137 | the same items kept by `filter` |
| LexicalMeaning.LexicalMapGives | stdlib/collections.go:103-117 | the same results of `map` |
| LexicalMeaning.LexicalReduceGives | stdlib/collections.go:139-154 | the same fold by `reduce` |
| Lookups.CopiedChain | executor/executor.go:286-301 | a capture shows the names and the namespaces that its surroundings show |
| Lookups.Entered | executor/executor.go:927-953 | a closure call binds its parameters on top of where the closure was written; rebinding the reused scope takes neither a namespace nor, with all parameters passed, a name from any chain |
| Lookups.ExprEnds | executor/executor.go:432-509 | an accepted expression meets no undefined function, and with enough arguments at every call no undefined variable, in every heap that accepted code has made, however its argument scopes were rebound |
| Lookups.LambdaEnds | executor/executor.go:927-959 | the same for a closure call at any later time |
| Lookups.RunsFindTheirCallees | executor/executor.go:741-803 | no run of the executor on a clean function over a clean table ends in a function that is not defined, closures kept or not |
| Lookups.RunsFindTheirNames | executor/executor.go:503-509 | and with enough arguments at every call none ends in an undefined variable |
| Scopes.ListsAt | executor/executor.go:304-316 | parallel name and value lists with different names are a finite map |
| Scopes.Env.constructor | executor/executor.go:257-259 | a new scope binds nothing |
| Scopes.Env.Reset | executor/executor.go:263-278 | after a reset nothing is bound, the parent is the new one, and the spill arrays are still the old ones |
| Scopes.Env.LookupLocal | executor/executor.go:304-316 | slots, then spill, find exactly the binding of the map |
| Scopes.Env.Set | executor/executor.go:332-353 | one key of the map changes; names stay different across both halves, and nothing spills while a slot is free |
| Scopes.Env.Append | executor/executor.go:332-353 | an append writes over what a reset left in the array, or moves to a larger array |
| Scopes.Env.Get | executor/executor.go:318-327 | the walk outwards gives the innermost binding |
| Scopes.Env.CopyTo | executor/executor.go:286-301 | a copy shows the same bindings in spill arrays of its own |
| Scopes.Env.Snapshot | executor/executor.go:286-301 | the copy shows the same bindings, shares no scope and no spill array with a reusable original, and is free of reusable scopes if and only if those came first |
| Scopes.CaptureSurvivesRebinding | executor/executor.go:263-301 | a capture keeps showing its own bindings, spilled ones included, however often the scope it was taken from is reset and filled again |
| Scopes.CaptureThroughForIsRebound | executor/executor.go:1083-1089 | a capture taken through a scope that is not reusable sees the reusable one behind it rebound |
| Termination.ResolveMaxDepth | registry/registry.go:46-55 | a setting of zero gives a limit of 1000, a negative one none, and any other itself |
| Termination.EvalEnds | executor/executor.go:369-380 | under a positive limit and with lambdas written as arguments of what can only be a collection builtin, given the namespaces the function declares, an expression at depth d ends on a stack of limit + 1 - d calls, `try` included, and yields no closure |
| Termination.HofEnds | executor/executor.go:954-958 | a collection builtin whose closure was written in the call ends |
| Termination.UserEnds | executor/executor.go:843-874 | a user call ends, however the functions of the table call each other |
| Termination.ExecuteEnds | executor/executor.go:369-380 | every run under a positive limit ends on a stack of limit + 1 calls |
| Termination.SelfApplyOverflows | executor/executor.go:954-958 | a closure applied to itself uses up any stack |
| Termination.LimitMissesSelfApplication | executor/executor.go:905-914 | a two-line program overflows every stack under every limit |
| Stack.EvalAgrees | executor/executor.go:369-380 | one more call of stack changes an evaluation only if it overflowed before |
| Stack.StackOnlyDecidesSurvival | executor/executor.go:179-215 | a run that survives is the same on every larger stack |
| Stack.LimitedRunsHaveOneResult | registry/registry.go:46-55 | under a positive limit a run has one result, whatever the stack beyond limit + 1 calls |
| Compiler.NoErrors | compiler/compiler.go:231-378 | an expression compiles if and only if its variables are in scope and its calls are known |
| CompileErrors.ErrorsAre | compiler/compiler.go:231-378 | an expression gets exactly these errors: an undefined variable for each name without `$` that no scope, loop or lambda around it binds, a deprecated function for each call of an old spelling, an unknown function for each other call that neither a table nor a namespace answers |
| CompileErrors.FunctionErrors | compiler/compiler.go:58-86 | a function gets exactly the errors of its statements, each seen with the parameters and the earlier `let` and `use` alone, and a duplicate for a `let` of a name that is taken |
| Compiler.MoreNames | compiler/compiler.go:166-174 | what compiles in a scope compiles in a larger one |
| Compiler.MoreUses | compiler/compiler.go:544-555 | what resolves resolves with more namespaces |
| Compiler.DepsDecide | compiler/compiler.go:521-563 | the dependencies of an accepted expression are known, and it is accepted wherever they are |
| Compiler.DependenciesDecide | compiler/compiler.go:111-113 | the dependencies recorded for a function that compiles are all known and all it needs: it compiles in every registry that knows them |
| Compiler.Checker.IsDefined | compiler/compiler.go:166-174 | the walk outwards decides membership in the union of the scopes |
| Compiler.Checker.ResolveFn | compiler/compiler.go:521-563 | exactly one error for a deprecated name, or one found neither bare nor through any namespace, else none; and one dependency, the key that answered |
| Compiler.Checker.CheckExpr | compiler/compiler.go:231-378 | the errors of an expression, in order, and its dependencies are added, and none else |
| Compiler.Checker.CheckStmt | compiler/compiler.go:208-227 | a statement's errors, a second `let` of a name included, its dependencies, and the names and namespaces after it |
| Compiler.Checker.Compile | compiler/compiler.go:58-86 | no error is left if and only if the function is clean; the dependencies are those of the body |
| Soundness.EvalSound | executor/executor.go:503-509 | from a state where every closure is in scope, an expression the compiler accepts keeps it so and fails on no name |
| Soundness.ResolveFinds | executor/executor.go:777-840 | a name the compiler knows through some `use` is found by the executor's own order |
| Soundness.CleanRunsFindTheirNames | compiler/compiler.go:298-369 | no run of a clean function over a clean table ends in "function is not defined", and "undefined variable" can only name a `$` variable or a parameter some call left out |
| Arguments.EvalFull | executor/executor.go:949-953 | where every call passes enough arguments for each function its name can reach, and lambdas have one parameter, or two for `reduce`, an expression leaves no parameter unbound |
| Arguments.NothingUnbound | executor/executor.go:843-874 | so no run of such a program calls anything with a parameter unbound |
| Arguments.EnoughArgumentsNoUndefined | executor/executor.go:503-509 | and none ends in an undefined variable or an undefined function |
| Arguments.OmittedParameter | executor/executor.go:949-953 | a parameter left out shows what the closure's surroundings bind to its name, and is an undefined variable if they bind nothing |
| Arguments.ShortCallCompiles | compiler/compiler.go:298-307 | a lambda of two parameters handed to `map` compiles |
| Arguments.ShortCallRuns | executor/executor.go:949-953 | and its run ends in an undefined variable, its second parameter |
| Immutability.EvalSame | executor/executor.go:876-891 | evaluating with shared scopes and with copied bindings goes in step, state for state, if no lookup meets a name bound later; where no parameter is left out, parameters do not count as such |
| Immutability.CaptureSame | executor/executor.go:876-891 | a closure over the function's scope sees what a copy made at its creation sees |
| Immutability.LookupSame | executor/executor.go:318-327 | a lookup through the shared scope and through the copy agree if and only if the copy has the name or the scope still has not |
| Immutability.CleanBoundBefore | compiler/compiler.go:298-307 | a function that compiles looks up no name bound later, unless it is a `$` name or a parameter of a lambda |
| Immutability.SharingIsCopying | compiler/compiler.go:210-216 | in clean functions whose `use` lines come first and in which no statement looks up a name that it or a later statement binds, sharing the scope by pointer gives the outcome and log of copying the bindings, for every run |
| Immutability.SuppliedNames | executor/executor.go:949-953 | an accepted expression that passes enough arguments looks up only names in scope |
| Immutability.SuppliedSharingIsCopying | compiler/compiler.go:210-216 | where every call passes enough arguments the same holds although lambda parameters share names with any `let` |
| Immutability.LateLetCompiles | compiler/compiler.go:298-307 | a function in which a lambda's second parameter is bound by a later `let` compiles |
| Immutability.LateLetRuns | executor/executor.go:876-891 | and with that parameter left out it gives [5] over the shared scope and an undefined variable over a copy |
| Pipeline.CompileAndRun | executor/executor.go:157-215 | any function, checked and then run by the executor with its reused scopes: a clean compile over a clean table rules out undefined functions, enough arguments rule out undefined variables, the outcome is the lexical one where reuse is invisible, and the run comes back where lambdas are arguments and the limit is positive |
| Registry.Builtins.RegisterBuiltin | executor/executor.go:136-141 | the executor's own table takes one entry |
| Registry.Builtins.LookupBuiltin | executor/executor.go:146-154 | its own entries shadow the shared ones |
| Registry.Registry.constructor | registry/registry.go:94-113 | a new registry knows the library, is in step with its executor, and has the limit the setting stands for |
| Registry.Registry.LookupBuiltin | registry/registry.go:454-462 | the registry and the executor find the same builtin |
| Registry.Registry.ResolveFunction | registry/registry.go:118-130 | a name is known to the compiler if and only if the executor's own tables find something under it, and then with its number of arguments |
| Registry.Registry.Register | registry/registry.go:195-228 | a function goes in exactly if it compiles against what is known now, with the dependencies of that moment; nothing else changes, and a complete registry stays complete |
| Registry.Registry.RegisterBuiltin | registry/registry.go:265-272 | both tables take the builtin and stay in step, and a complete registry stays complete |
| Registry.Registry.Invalidate | registry/registry.go:275-279 | one function goes, and the others stay complete if and only if a builtin answers for it or none of them depends on it |
| Registry.Registry.Execute | registry/registry.go:284-303 | an unknown name is refused; in a complete registry no run ends in a function that is not defined, and with enough arguments at every call none in an undefined variable; where scope reuse is invisible an undefined variable is a `$` name or an omitted parameter |
| Registry.Registry.SealedIsGood | registry/registry.go:195-228 | in a complete registry every function still compiles against the tables it runs with, in whatever order all were registered |
| Registry.RegisterLoop | registry/registry.go:195-228 | three functions with three names compile one after the other, the first call of the second recorded as a call of the first |
| Registry.OnceRegisteredCanLoop | executor/executor.go:777-840 | yet without a depth limit the run of the second overflows every stack, because it finds the third, which calls it |
| Distance.DistIsLeast | compiler/compiler.go:621-649 | no edit script from one string to another is cheaper than the distance |
| Distance.DistIsReached | compiler/compiler.go:621-649 | some edit script costs exactly the distance |
| Distance.Reverse | compiler/compiler.go:621-649 | a script can be turned round at the same cost |
| Distance.Compose | compiler/compiler.go:621-649 | scripts compose at no more than the sum of their costs |
| Distance.Symmetric | compiler/compiler.go:621-649 | the distance is symmetric |
| Distance.Triangle | compiler/compiler.go:621-649 | the distance obeys the triangle inequality |
| Distance.ZeroOnlyOnEqual | compiler/compiler.go:621-649 | it is zero on equal strings only |
| Distance.Levenshtein | compiler/compiler.go:621-649 | the two-row loop returns the cost of a cheapest insert, delete and substitute script |
| Distance.FillRow | compiler/compiler.go:634-645 | one pass turns the row of a prefix into the row of the next |
| Distance.ClosestMatch | compiler/compiler.go:584-618 | the first nearest candidate if one is within the limit, else the first that shares a prefix relation, else nothing; internal names never |
| Lexer.Lexer.Run | lexer/lexer.go:266-276 | for every byte string one EOF, at the end, blocks balanced and never closed before they open, stack back to zero; a line of plain tokens gives exactly those |
| Lexer.Lexer.ScanToken | lexer/lexer.go:278-351 | every step moves on and keeps the indentation stack strictly increasing and in step with the emitted blocks |
| Lexer.Lexer.HandleIndentation | lexer/lexer.go:353-391 | a deeper line opens one level; a shallower one closes exactly the deeper levels, one DEDENT each, and is an error between levels; empty and comment lines change nothing |
| Lexer.StillOpenAre | lexer/lexer.go:383-386 | the levels that stay open are the first ones up to the line's width |
| Lexer.Lexer.ReadToken | lexer/lexer.go:288-350 | blanks, newlines, comments and plain tokens each have exactly their own effect; an open comment is one error |
| Lexer.Lexer.SkipLineComment | lexer/lexer.go:714-720 | stops at the next newline or the end |
| Lexer.Lexer.SkipBlockComment | lexer/lexer.go:722-746 | stops behind the bracket that closes the outermost comment, and an open one is an error |
| Lexer.Lexer.ScanString | lexer/lexer.go:393-473 | a literal without embedded expressions gives its unescaped value; an unterminated one is one error and no token; any literal moves on, keeps the layout and takes no token back |
| Lexer.Lexer.ScanInterpolation | lexer/lexer.go:475-496 | mutual recursion with the token scanner ends, keeps the layout, and closes the expression with its own token or an error |
| Lexer.Lexer.ScanNumber | lexer/lexer.go:498-524 | digits, and a fraction only if a digit follows the point |
| Lexer.Lexer.ScanOperator | lexer/lexer.go:542-712 | the token is the longest member of the set of operators that stands at the position; exactly where none does there is one error, no token, and one byte on |
| Lexer.WidthIsLongest | lexer/lexer.go:542-712 | looking at up to three characters finds the longest of the 34 operators and delimiters |
| Scan.NameCharacters | lexer/lexer.go:799-813 | which characters begin a name and which go on with it, letter by letter |
| Chars.Alphabet | stdlib/text_case.go:45-64 | which characters are capitals, small letters and digits, and how their case changes, letter by letter |
| Lexer.Tokenize | lexer/lexer.go:254-264 | the same for the whole call, errors counted |
| Rendering.EscapeScans | lexer/lexer.go:393-473 | every byte string has a literal that scans back to it |
| Rendering.EscapesMean | lexer/lexer.go:436-460 | in a literal, whatever stands around it, a backslash with n, t, r, a backslash, a quote or a brace is that one character, and with anything else both are kept |
| Rendering.NextIsRendered | lexer/lexer.go:498-712 | a number, name, keyword, string, or member of the set of operators, before a blank is read as that token |
| Rendering.LineReadsBack | lexer/lexer.go:278-351 | a line of rendered tokens reads as the same list |
| Rendering.RoundTrip | lexer/lexer.go:254-264 | rendering any list of plain tokens and tokenizing the line gives the list and an EOF without errors |
| Reading.Begins | parser/parser.go:694-746 | which tokens a printed tree can begin with, level by level |
| Reading.BelowStops | parser/parser.go:467-690 | a token that goes on with nothing at a level ends every tree of that level |
| Reading.ClosesStops | parser/parser.go:467-690 | a token that goes on with no tree ends every tree |
| Reading.ColonStops | parser/parser.go:511-531 | before a colon a tree ends exactly if the colon begins no scope or the tree does not end in a plain name |
| Reading.Front | parser/parser.go:880-901 | no printed tree in parentheses looks like a parameter list |
| Reading.Grow | parser/parser.go:467-690 | after each growth of a left-associative tree comes the next operator, or a token of a looser level |
| Steps.OperandStep | parser/parser.go:550-634 | the loop of a binary level goes round exactly as often as the tree grew there, and once more if an operator of the level stands behind the newlines that the tree took |
| Steps.NotStep | parser/parser.go:586-593 | the prefix branch is taken for exactly the negations |
| Steps.CompareStep | parser/parser.go:596-610 | a comparison is taken once and does not chain |
| Steps.IfHints | parser/parser.go:1035-1061 | which branch reads what of an `if`, which newlines it takes itself, and when what follows goes to its last branch instead |
| Shapes.PrimaryLeads | parser/parser.go:694-746 | the first token tells the kind of a primary tree |
| Shapes.LastStops | parser/parser.go:1035-1226 | what ends an open tree ends its last part; a newline ends every part that does not take it |
| Shapes.LaidAt | parser/parser.go:1035-1092 | a tree with the newlines that it takes behind it, and what is known of the token behind those |
| OpenTrees.BodyScopes | parser/parser.go:514-531 | the colon before a loop's body reads as the beginning of a scope if the body begins with a namespaced name, and only then, unless a single name is followed by a double colon |
| Steps.MisreadStep | parser/parser.go:1167-1217 | where it does and the iterable ends in a plain name, that name goes on as a scoped one |
| Parser.Parser.Advance | parser/parser.go:99-108 | the position moves by one and the current token follows it |
| Parser.Parser.Expect | parser/parser.go:110-116 | takes the right token, or stays and adds one error |
| Parser.Parser.SkipLayout | parser/parser.go:191-197 | skips layout tokens and nothing else |
| Parser.Parser.ParseExpr | parser/parser.go:462-464 | on any tokens it ends, takes at least one token and loses no error; a tree spelled here is returned whole, its connectives as words or as symbols, and the parser stops behind it and the newlines it takes; if what follows goes on with it, a tree with more in it is returned; how tightly the operators bind is said by `Precedence.ParseRow` |
| Parser.Parser.ParsePipe | parser/parser.go:467-505 | the same for pipes, into calls with their arguments |
| Parser.Parser.ParseFunctionName | parser/parser.go:507-547 | head, scope and segments come back; a colon that starts no scope is put back |
| Parser.Parser.ParseScope | parser/parser.go:514-531 | two tokens are taken if and only if a colon, a name and a double colon follow |
| Parser.Parser.ParseCoalesce | parser/parser.go:550-559 | the same for `??`, left-associative |
| Parser.Parser.ParseOr | parser/parser.go:562-571 | the same for `or`, as a word or as a sign |
| Parser.Parser.ParseAnd | parser/parser.go:574-583 | the same for `and`, as a word or as a sign |
| Parser.Parser.ParseNot | parser/parser.go:586-593 | the same for `not` and `!`, right-associative |
| Parser.Parser.ParseComparison | parser/parser.go:596-610 | the same for comparisons and `in`, which do not chain |
| Parser.Parser.ParseAddition | parser/parser.go:613-622 | the same for `+`, `-`, `++` |
| Parser.Parser.ParseMultiply | parser/parser.go:625-634 | the same for `*`, `/`, `%` |
| Parser.Parser.ParseUnary | parser/parser.go:637-649 | the same for unary minus |
| Parser.Parser.ParsePostfix | parser/parser.go:652-690 | the same for field access, optional chaining and indexing |
| Parser.Parser.ParsePrimary | parser/parser.go:694-746 | the same for primary trees; a literal token is always taken as that literal |
| Parser.Parser.ParseNumber | parser/parser.go:748-766 | digits the host can hold are kept, others give zero and one error |
| Parser.Parser.ParseInterpolatedString | parser/parser.go:773-814 | text and embedded expressions come back part by part; ends and moves on whatever stands in the string |
| Parser.Parser.ParseIdentOrCall | parser/parser.go:816-838 | a variable or a call with its arguments |
| Parser.Parser.ParseBareLambda | parser/parser.go:844-850 | `x => body` is the lambda of one parameter |
| Parser.Parser.ParseGroupOrLambda | parser/parser.go:852-913 | parentheses give back the grouped tree, or the lambda with its parameters |
| Parser.Parser.TryLambda | parser/parser.go:871-909 | the trial returns the lambda, or restores position, token and errors |
| Parser.Parser.ParseFnLambda | parser/parser.go:919-936 | `fn (...) =>` gives the lambda with its parameters and body, and moves on |
| Parser.Parser.ParseElements | parser/parser.go:942-956 | all elements in order, with or without a trailing comma |
| Parser.Parser.ParseEntries | parser/parser.go:964-994 | all keys with their values, in order |
| Parser.Parser.ParseIf | parser/parser.go:1035-1061 | condition, branch and `else` part, with dangling `else` bound to the inner `if`, and the newlines taken in search of an `else` |
| Parser.Parser.ParseMatch | parser/parser.go:1065-1092 | subject and arms in order, and the newlines taken in search of another arm |
| Parser.Parser.ParsePattern | parser/parser.go:1107-1146 | wildcard, literal, comparison and range patterns; the pattern flag is restored |
| Parser.Parser.ParseTry | parser/parser.go:1150-1161 | the tried expression and its default |
| Parser.Parser.ParseFor | parser/parser.go:1167-1217 | variables, iterable and inline body come back; of a body that is a block only the last statement comes back; a body whose name the iterable swallows gives another tree |
| Parser.Parser.ParseLoopBody | parser/parser.go:1187-1211 | an expression comes back whole, a block as its last statement or null |
| Parser.Parser.ParseFnBody | parser/parser.go:234-252 | one expression behind an arrow, or a block behind a colon or an arrow, comes back if and only if no two of its statements merge |
| Parser.Parser.ParseRaise | parser/parser.go:1221-1226 | the raised message |
| Parser.Parser.ParseQuery | parser/parser.go:1230-1238 | the queried dataset |
| Parser.Parser.ParseArgList | parser/parser.go:1242-1265 | all arguments in order, up to the closing parenthesis |
| Parser.Parser.ParseImplicitLambda | parser/parser.go:1279-1291 | a leading comparison becomes a lambda that compares a parameter no program can name with the right operand |
| Parser.Parser.ParseBlock | parser/parser.go:381-408 | ends on any tokens; a block comes back as written if and only if no statement of it merges with the one before: that one takes newlines, and the next line begins with `-` or `[` |
| Parser.Parser.ParseStmt | parser/parser.go:410-458 | takes at least one token; a statement comes back with its newlines, or another one if the next line goes on with it |
| Parser.Parser.ParseLetStmt | parser/parser.go:445-452 | name and value |
| Parser.Parser.ParseUseStmt | parser/parser.go:427-443 | all the dotted parts |
| Parser.Parser.ParseFunction | parser/parser.go:205-255 | ends on any tokens; type definitions, header and body come back if and only if no two statements of the body merge |
| Parser.Parser.ParseHeader | parser/parser.go:217-230 | name, parameters and result type |
| Parser.Parser.ParseParams | parser/parser.go:257-275 | ends on any tokens, and gives back all parameters in order |
| Parser.Parser.ParseParam | parser/parser.go:277-299 | dots, name, type and default |
| Parser.Parser.ParseType | parser/parser.go:301-318 | the type with its array suffix; a record exactly after the keyword |
| Parser.Parser.ParseRecordType | parser/parser.go:321-364 | nested records with all their fields in order |
| Parser.Parser.ParseTypeDefs | parser/parser.go:208-215 | all definitions before the header, with the newlines between them |
| Parser.Parser.ParseTypeDef | parser/parser.go:367-377 | name and type |
| Functions.ValueAt | parser/parser.go:410-458 | the value of a statement is spelled behind its head, and goes on with the next line if and only if it takes newlines and an operator stands behind them |
| Functions.StmtsStep | parser/parser.go:381-408 | in a block that operator is there exactly if the next statement begins with `-` or `[` |
| ReadBack.ParseTokens | parser/parser.go:61-81 | the parser returns any printable tree a token list begins with, its connectives as words or as symbols, and stops exactly behind it and the newlines it takes, without errors, whatever follows that does not belong to the tree; only behind those newlines an operator goes on with it, and then a heavier tree is returned |
| ReadBack.ParseExpression | parser/parser.go:61-81 | the same from text: a line that tokenizes as a printed tree parses to it |
| ReadBack.RoundTrip | parser/parser.go:462-913 | writing any printable tree whose names and literals can be written as text, tokenizing and parsing the text gives the tree back without errors |
| ReadBack.ParseWritten | parser/parser.go:61-81 | the same from any text that spells the tree, words for connectives included |
| Writing.PrintWrites | parser/parser.go:462-913 | every token of a tree is one the tokenizer reads if the names and literals in the tree are |
| Writing.WordsWrite | lexer/lexer.go:201-226 | every word of the grammar is a keyword of the tokenizer |
| FunctionText.RoundTrip | parser/parser.go:205-255 | any function of one line, its header with names, types, defaults and result type, written as text comes back whole without errors |
| Precedence.TreePrints | parser/parser.go:467-692 | of a row of operands and operators the tree whose root is the last operator of the loosest tier is the one the row spells without parentheses; the tiers are `??`, `or`, `and`, comparisons and `in`, `+ - ++`, `* / %`, with negation between `and` and comparisons and minus and selectors tighter than all |
| Precedence.ParseRow | parser/parser.go:467-692 | for every row of literals and names with selectors, minus signs, negations, binary operators and pipes, words or symbols, parsing gives exactly that tree, the pipes outermost and the last one the root, takes the whole row and adds no error |
| Precedence.SumOfProduct | parser/parser_test.go:264-300 | `1 + 2 * 3` is the sum of 1 and a product |
| Precedence.ParseRowText | parser/parser.go:61-81 | the same from text |
| Precedence.RowStuck | parser/parser.go:596-610 | a tree whose last comparison has nothing looser behind it takes no further comparison |
| Precedence.ParseChain | parser/parser.go:596-610 | comparisons do not chain: the parser stops before the first one that follows another without a looser operator between, with the tree of the row before it |
| ReadBack.ParseLoop | parser/parser.go:1167-1217 | a loop whose iterable and body are printable comes back without errors if and only if not both its iterable ends in a plain name and its body begins with a namespaced one; otherwise another tree comes back |
| ReadBack.ScopedBodyExample | parser/parser.go:511-531 | `for x in xs: math::f(x)` is read as a loop over `xs: math::f(x)` with errors |
| ReadBack.ParseBlockLoop | parser/parser.go:1187-1211 | a loop over a block comes back with the last statement of the block alone, or null if that is no expression, and without an error |
| ReadBack.ParseDefinition | parser/parser.go:34-58 | a whole function on a token list comes back without errors if and only if no two statements of its body merge |
| ReadBack.MergedLinesExample | parser/parser.go:1048-1056 | `[x]` on the line behind `if c then d` does not come back as a statement of its own |
| Path.SplitJoin | stdlib/path.go:36-41 | joining dot-free segments and splitting again gives them back |
| Path.CutAtDots | stdlib/path.go:33-41 | a path is cut at each of its dots and nowhere else; the empty one has no segments |
| Path.Get | stdlib/path.go:63-78 | the value at the end of the trail of steps, each a key of an object or the number of a place in an array, or the fallback if there is no such trail |
| Path.Has | stdlib/path.go:80-90 | true if and only if there is such a trail |
| Path.ResolvesIff | stdlib/path.go:47-61 | a path resolves if and only if there is a trail, and to its end |
| Path.Composes | stdlib/path.go:117-200 | whatever stands at the front of a path, get, set and delete do on what the front leads to exactly what the rest of the path says, and rebuild what is around |
| Path.ArrayPlace | stdlib/path.go:54-59 | at any depth, through a segment that reads as i with 0 <= i < n a get goes on with element i, a set changes position i alone, and a delete takes it out and closes the gap |
| Path.ObjectKey | stdlib/path.go:50-52 | through a key that is there a get goes on with its value, a set changes that key alone, and a delete takes it out |
| Path.WithoutPlace | stdlib/path.go:140-153 | where a segment has no place (no such key, no number, a negative one, one too large, or no container) a get gives the fallback, a delete changes nothing, and a set adds the key or replaces the value, an array too, by an object with that key |
| Path.GetAfterSet | stdlib/path.go:124-154 | after a set, the path reads the value, for every value and path |
| Path.SetAfterSet | stdlib/path.go:124-154 | a second set of the same path hides the first |
| Path.SetWhatIsThere | stdlib/path.go:124-154 | writing back what a path reads changes nothing |
| Path.OtherPathsUnaffectedIff | stdlib/path.go:124-154 | a path that parts from the written one at a container reads as before if and only if the write can address the container, or the path led nowhere |
| Path.DeleteUnresolved | stdlib/path.go:164-200 | deleting a path that does not resolve is the identity |
| Path.DeleteRemovesOne | stdlib/path.go:164-200 | a delete takes one entry out of the innermost container and nothing else |
| Path.DeleteUndoesSet | stdlib/path.go:124-200 | deleting a key that a set has just added restores the value |
| Flatten.FlattenInto | stdlib/path.go:216-234 | in any order of the keys, every leaf gets its dotted name and every name stands for a leaf |
| Flatten.FlattenObject | stdlib/path.go:202-210 | the same for the whole call; nothing for values that are no objects |
| Flatten.OneKeyPerLeaf | stdlib/path.go:216-234 | flat keys are distinct, one for each leaf, and hold it |
| Flatten.FlatKeysReadBack | stdlib/path.go:36-78 | each flat key reads its value in the original |
| Flatten.RebuildsOriginal | stdlib/path.go:124-234 | folding `set` over the flat entries, in any order, rebuilds the original |
| Flatten.RebuildsIff | stdlib/path.go:124-234 | that holds for exactly the objects without dots in their keys and without an empty key at the top |
| PatternCache.RecentIsLatest | stdlib/regex.go:73-98 | the front of the recency order is made of exactly the latest uses |
| PatternCache.LatestIff | stdlib/regex.go:73-98 | a pattern is among the n latest if and only if some use of it is followed by at most n different patterns |
| PatternCache.Hit | stdlib/regex.go:77-81 | moving a cached pattern to the front leaves the latest patterns |
| PatternCache.Miss | stdlib/regex.go:87-97 | pushing a new one and dropping the oldest leaves the latest patterns |
| PatternCache.RegexCache.CompilePattern | stdlib/regex.go:73-98 | every call answers as a fresh compile, failures included, and list and index agree on the most recently used patterns |
| PatternCache.RegexCache.PushFront | stdlib/regex.go:87-97 | a new entry comes first and the oldest goes when there are too many |
| PatternCache.RegexCache.MoveToFront | stdlib/regex.go:77-81 | the entry moves to the front, the others keep their order |
| PatternCache.RegexCache.EvictOldest | stdlib/regex.go:90-96 | list and index lose the same entry, the last |
| PatternCache.RegexCache.HoldsTheLatest | stdlib/regex.go:73-98 | a pattern is cached if and only if some use of it is followed by at most 256 different patterns, and no more than 256 are |
| TextCase.SplitWords | stdlib/text_case.go:32-68 | the words are the stretches of letters and digits, in lower case: of two neighbouring ones the second begins a new word exactly if it is a capital after a lowercase letter or a digit, or a capital after a capital with a lowercase letter behind it; run together they are all letters and digits of the text |
| TextCase.CamelCase | stdlib/text_case.go:78-89 | the first word as it is, the others capitalised |
| TextCase.ScanMakesWords | stdlib/text_case.go:32-68 | every word is made of lowercase letters and digits and is not empty |
| TextCase.SplitsJoined | stdlib/text_case.go:32-76 | joining words by a separator and splitting again gives the words |
| TextCase.StylesAgree | stdlib/text_case.go:70-97 | snake and kebab case are idempotent on every ASCII text and can be applied after each other without loss |
| TextCase.StylesKeepLetters | stdlib/text_case.go:70-108 | every style keeps the letters and digits of the text in order, and Pascal case is camel case with a capital in front |
| TextCase.SnakeSurvivesCamelIff | stdlib/text_case.go:32-108 | snake case of camel case gives a list of words back if and only if every seam stays visible |
| TextCase.SnakeSurvivesCamel | stdlib/text_case.go:32-108 | in particular for words of two characters or more that start with a letter |

## Left out

- Refinement.ExprRefines: programs that both keep closures and write a lambda in a `for` body inside a lambda are outside, because for some of them the claim is false (`Rebinding.ReuseShows`).
- Termination.ExecuteEnds: lambdas as direct arguments of `map`, `filter` and `reduce` only; for closures kept in variables the claim is false, as `LimitMissesSelfApplication` shows.
- Arguments.EnoughArgumentsNoUndefined: lambdas of more than one parameter only as the last argument of `reduce`, and operators and plain builtins that pass on closures they were given but make none.
- Lookups.RunsFindTheirCallees: for literal parameter defaults, because the compiler does not look into defaults, and no variable of the executor's own name `__uses__`.
- Compiler.NoErrors: type mismatches and the exhaustiveness of `match` are not checked, so the real compiler rejects more programs.
- Compiler.Checker.CheckExpr: a pipe is a call with its input as first argument, so its name is resolved before the input is checked, not after; the same errors come in another order.
- ReadBack.RoundTrip: strings with embedded expressions come back from tokens (`Parser.Parser.ParseInterpolatedString`) but not from text, because the tokenizer starts a second string after the first expression and the parser stops there; no pipes into something that is not a named call; literal patterns only; lambdas of several parameters are printed in parentheses, of one without.
- Precedence.ParseRow: a negation right behind an operator that binds tighter than it, as in `1 + !x`, is not among the rows; there the parser takes `!` for the operand alone and `not` for an error.
- ReadBack.ParseDefinition: stated of token lists; only functions of one line are rendered as text (`FunctionText.RoundTrip`), blocks and type definitions are not, layout inside brackets or between the arms of a `match` are not spelled, and no parameter is named `type`.
- Positions, line and column counts and the wording of errors, in tokenizer, parser, checker and evaluator; errors are counted or listed by token.
- Names are kept as head, scope and segments instead of one string, and numbers as their digits.
- `match`, `query` and dataset chains in the evaluator, record validation of arguments, and injected global variables.
- Timeouts, cancellation, capability interceptors, goroutines and mutexes: a run is sequential and a cached compile one atomic step.
- Floating point, Go's formatting and equality across kinds: values are integers, and operators arbitrary functions.
- Library functions other than `map`, `filter` and `reduce` take and return plain values without calling back.
- The loader behind the registry and the resolvers that ask it, inline execution, and the listings of known names.
- The inline slots of a scope are a sequence of four inside the object, as Go's array is part of the struct; the LRU list is a sequence, so list-element pointers are not modelled.
- Letters are ASCII in `Upper`, `Lower` and the word splitter; other letters are not part of this model.
