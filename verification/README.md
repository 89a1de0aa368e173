# Verified models of the PureScript-to-Wasm compiler passes

This project states, in Dafny, what the algorithmic passes of the compiler promise, and proves it.
Each module follows one source component and keeps its branches and its order of steps. Where the
source changes state step by step, a method or class with the same loops and fields is proved equal
to a specification function, and the laws are proved about that function.

| component | modules |
|---|---|
| operator chains, fixity validation, operator pass on expressions and patterns | `Fixity`, `OperatorPass`, `OperatorMeaning`, `PatternPass` |
| guard and case lowering | `Hir`, `Alpha`, `Lowering`, `DesugarerClass` (loops), `LoweringNormalForm`, `LoweringScope`, `HirSemantics`, `HirFuel`, `Translation`, `TranslationRenaming`, `TranslationLowering`, `ValueRelation`, `Simulation`, `LoweringMeaning` |
| truth analysis of constants | `ConstantTruth`, `AliasChains`, `TruthMeaning` |
| kind solver and closed kinds | `Kinds`, `KindSolver`, `KindTheory`, `KindQuantifiers`, `KindQuantifierChecks`, `KindQuantifierUnifiers`, `KindClosed`, `KindStateClass` (state) |
| type substitution | `TypeSubstitution`, `TypeSubstitutionNameless`, `TypeSubstitutionClash`, `TypeSubstitutionTheory`, `TypeSubstitutionLoop` |
| cycle detection | `CycleDetection` |
| offside layout | `OffsideLayout`, `OffsideBalance`, `OffsideLaws` |
| link planning | `CoreAssembly`, `MemoryPlanning` |
| Canonical ABI layouts, erased payloads | `AbiLayout`, `AbiSizes`, `AbiMemory`, `PayloadPlans`, `PayloadErasure` |

## How guard lowering is proved

`Lowering` threads the local-id counter through functions that build what the source builds: the
`let` of the saved scrutinee, the `let` of fallthrough helpers, the root case, and for each guarded
right-hand side the nested tests with an alpha-renamed copy of the failure continuation. Three
results meet at module level:

1. `LoweringScope` shows that unique binders and references in scope survive, with every new binder
   drawn from the interval of the counter that the call used up.
2. `TranslationLowering` shows that the result stands in the relation `Tr` to its source.
   `Tr` describes the generated shape up to the choice of target ids, and is closed under renaming of
   the target (`TranslationRenaming`), which is what the cloning of rows and continuations needs.
3. `Simulation` shows that related expressions evaluate alike for every amount of fuel: same foreign
   calls in the same order, same failure, related values.

`LoweringMeaning.LoweringPreservesMeaning` joins them. The evaluator is call-by-value and untyped;
foreign calls are logged and answered by an arbitrary function of the log, so evaluating the
scrutinee or a guard twice, or in another order, would be visible. In a `let`, functions see the
whole group and other bindings are evaluated in order. Running out of fuel is a result of its own;
fuel is spent on applying closures, unfolding global definitions and reaching a later row after a
guarded one fell through, and `HirFuel` shows that any two amounts that are enough give the same
result. In particular the extra calls that helpers introduce never change an outcome: falling through to
rows finishes with exactly the results that the rows themselves finish with (`FallenExactlyRows`).

`match failure` covers both the source rule after its last row and the generated case without rows.

## Readings and deviations

- `Fixity`: the copies of the loop for expressions, patterns and types differ in what `reduce`
  builds, so the loop is one method over an arbitrary builder function.
- `KindStateClass`: `Failed` carries the substitution reached so far, as the mutable solver keeps it.
  `ForAll` binders are required to be rigid, which is how binders are created
  (crates/psrs-kind/src/denote.rs:137-142).
- `TypeSubstitution`: the code captures variables on some inputs, for instance those of
  `RepeatedBinderCaptured` and `GeneratedNameCaptured`. `Clean` is the exact condition: along the
  traversal, at each binder that is in danger and gets a generated name, no use belongs to a later binder
  of the same name, no later kind mentions the generated name, and none uses the binder below a binder of
  the generated name. `TidyIsClean` derives it from distinct binder names and kinds without generated names.
- `OffsideLayout`, `OffsideBalance`, `OffsideLaws`: `OffsideLaws` states what every token does as a relation
  between the stack before it, the markers before it and the stack after it, without the functions of
  `OffsideLayout`. A truncation of the frame stack forgets open blocks without an end
  marker (`ThenDropsBlock`), and `in` writes an end marker for every frame down to the innermost `let`, also
  for parentheses (`InClosesParenthesis`). `StepCounts` says when a step does either; `BalancedExactly` and
  `NeverNegativeExactly` say exactly which runs balance and which never have more ends than starts.
- `KindQuantifiers`, `KindQuantifierChecks`: unification opens two quantifiers with the binder of the left one.
  The sides of a solved equation are alike up to the names of bound variables exactly when, at every opened pair
  with different binders, no occurrence of the right binder in the right body lies below an inner binder named
  like the left one, and every other variable free in the right body resolves to a kind that mentions neither
  of the two binders, except where an inner binder of the right body has that name. In `BinderEscapes` a variable
  of the right body is solved with the left binder; in `BinderSolved` a variable of the left body is, and
  the sides are alike. `Guarded`, `Orderly` and `Sealed` are checks that do not look at the final solutions:
  the first is made at each pair when it is opened, the others on the sides before the call.
- `KindQuantifierUnifiers`: an assignment gives every variable a kind in nameless form, so it captures nothing.
  `Complete` holds for assignments that do not mention names of quantifiers, along runs that open quantifiers
  cleanly; `RigidDecided` shows what goes wrong otherwise.
- `OperatorMeaning` and `PatternPass`: a model says what calls, functions and the other forms mean, and may order
  their evaluation as it likes; the passes keep the meaning in every model. The binder of a section is new, as the
  resolver makes it (crates/psrs-resolve/src/resolver/operators.rs:62-83) and the verifier demands
  (crates/psrs-hir/src/verify/mod.rs:127-152): neither operator nor operand uses it.
- `OperatorPass` and `Hir`: the expression type of guard lowering has no chains or sections, which
  the operator pass removes first; lowering removes operators, negations and guarded nodes and introduces
  none of these, so none of the five is left after both.
- `PayloadPlans`: the planner recurses through arrays and labelled records, so the theorems take a rank for
  every representation that falls from each representation to its parts. `RankedIffNoCycle` shows that
  such ranks exist exactly for tables without a cycle through arrays and records. Erasing a reference casts it
  to a non-null one (crates/psrs-backend/src/mir/lower/aggregate/mod.rs:166-169), so it fails on null.
- `MemoryPlanning` and `AbiLayout` use bounded machine integers with the source's overflow checks.
  The bit mask in `align_to` is written as rounding down to a multiple. `AbiMemory` stores integers of 8, 16, 32
  and 64 bits and floats of 32 and 64 bits, the widths of interface types; other widths are laid out as the code
  does and may lose bits.

## Model

| member | source | states |
|---|---|---|
| LoweringMeaning.LoweringPreservesMeaning | crates/psrs-desugar/src/lib.rs:86-95 | for a program linked from any modules, each lowered with its own counter, every global keeps its meaning under every fuel and foreign world: same foreign calls, same failure or divergence, related values, and identical first-order values |
| LoweringMeaning.LowerModuleWellFormed | crates/psrs-desugar/src/lib.rs:86-108 | if every local id of a module is bound once and every reference is in scope, both hold after lowering and no operator, negation or guarded node is left |
| LoweringMeaning.AfterModule | crates/psrs-desugar/src/alpha.rs:12-29 | the starting counter lies above every local id of the module |
| TranslationLowering.LowerTr | crates/psrs-desugar/src/expr.rs:38-308 | lowering any renamed copy of an expression yields a translation of the original, whatever the renaming and the counter |
| TranslationLowering.LowerTrMatch | crates/psrs-desugar/src/expr.rs:184-307 | the saved scrutinee, the helper group and the root case translate the rows |
| TranslationLowering.LowerTrHelper | crates/psrs-desugar/src/expr.rs:199-257 | one fallthrough helper, with the later helpers as parameters, translates its row followed by the rows behind it |
| TranslationLowering.CopyContinues | crates/psrs-desugar/src/guards.rs:58-98 | a freshly renamed copy of a failure continuation still continues with the remaining clauses |
| TranslationRenaming.TrRename | crates/psrs-desugar/src/alpha.rs:224-459 | renaming the ids of a translation apart from its environment gives a translation again |
| Simulation.SimEval | crates/psrs-desugar/src/expr.rs:38-145 | a translation evaluates as its source in related environments, fuel for fuel |
| Simulation.SimCase | crates/psrs-desugar/src/expr.rs:147-308 | the generated lets, helpers and root case give what the source case gives |
| Simulation.SimFallen | crates/psrs-desugar/src/expr.rs:199-257 | calling helper k with the later helpers behaves as the rows from k on |
| Simulation.SimRoots | crates/psrs-desugar/src/expr.rs:259-287 | the root rows behave as the source rows: first match, and fall to the next row when all guards fail |
| Simulation.SimRhs | crates/psrs-desugar/src/guards.rs:11-27 | a guarded or let-wrapped guarded right-hand side gives its value, or goes on with the failure continuation when every clause fails |
| Simulation.SimClauses | crates/psrs-desugar/src/guards.rs:29-56 | clauses are tried in order, each with its own where bindings |
| Simulation.SimGuards | crates/psrs-desugar/src/guards.rs:58-98 | guards of a clause are tried left to right, and a failing one continues with the next clause in the outer environment |
| Simulation.WrapRowsEval | crates/psrs-desugar/src/expr.rs:168-177 | wrapping scrutinee and patterns in a one-field product changes neither the row taken nor its bindings |
| Simulation.MatchEval | crates/psrs-desugar/src/expr.rs:184-307 | the generated expression evaluates its scrutinee once, then the root rows with the helpers in scope |
| Simulation.GuardPattern | crates/psrs-desugar/src/case_helpers.rs:50-67 | the scrutinee and pattern built for a pattern guard match exactly when the guard's own do, with the same bindings |
| HirFuel.MoreFuel | crates/psrs-desugar/src/expr.rs:147-308 | more fuel never changes a settled result of the evaluator the lowering is judged by |
| HirFuel.Deterministic | crates/psrs-desugar/src/expr.rs:147-308 | two amounts of fuel that both suffice give the same result and trace |
| HirFuel.FallenAsRows | crates/psrs-desugar/src/expr.rs:199-257 | the fuel charged for falling to a later row does not change what the later rows settle to |
| HirFuel.RowsAsFallen | crates/psrs-desugar/src/expr.rs:199-257 | with one more unit of fuel for each row, and one for the end, rows reached by falling through settle to what they settle to without the charge |
| HirFuel.FallenExactlyRows | crates/psrs-desugar/src/expr.rs:199-257 | with enough fuel, falling through to rows can finish with exactly the results that the rows can finish with |
| HirFuel.NeverFell | crates/psrs-desugar/src/guards.rs:11-27 | no expression evaluates to the bare "every guard failed" outcome: it is always turned into the next row or a match failure |
| LoweringScope.LowerGood | crates/psrs-desugar/src/expr.rs:38-145 | lowering keeps binders unique and references in scope; new binders come from the ids the call drew |
| LoweringScope.LowerGoodRhs | crates/psrs-desugar/src/guards.rs:11-27 | the same for a right-hand side with a failure continuation |
| LoweringScope.LowerGoodClauses | crates/psrs-desugar/src/guards.rs:29-56 | the same for clauses, although each clause receives its own copy of the failure |
| LoweringScope.LowerGoodGuards | crates/psrs-desugar/src/guards.rs:58-98 | the same for guards, where the failure is used unrenamed at most once |
| LoweringScope.LowerGoodPatternGuard | crates/psrs-desugar/src/guards.rs:100-133 | the same for a pattern guard |
| LoweringScope.LowerGoodMatch | crates/psrs-desugar/src/expr.rs:184-307 | the same for a case with guards, although its rows appear both in the root case and in the helpers |
| LoweringScope.LowerGoodHelpers | crates/psrs-desugar/src/expr.rs:199-257 | every helper is closed over the outer scope and the saved scrutinee, with only drawn binders |
| LoweringScope.LowerGoodRoots | crates/psrs-desugar/src/expr.rs:259-287 | the root rows keep the binders of the source rows and refer to helpers in scope |
| LoweringScope.CloneGood | crates/psrs-desugar/src/alpha.rs:55-65 | a clone binds only ids above the counter, once each, and stays in scope |
| LoweringScope.CloneRowGood | crates/psrs-desugar/src/alpha.rs:38-53 | the same for a cloned row |
| LoweringScope.PlainClone | crates/psrs-desugar/src/expr.rs:337-339 | cloning a helper call leaves it as it is and draws no id |
| LoweringNormalForm.LoweredNormal | crates/psrs-desugar/src/expr.rs:34-145 | no operator, negation or guarded node is left after lowering |
| LoweringNormalForm.LowerNormal | crates/psrs-desugar/src/expr.rs:34-166 | on an expression without operators, negations and guarded nodes lowering is the identity and draws no id |
| LoweringNormalForm.LowerIdempotent | crates/psrs-desugar/src/expr.rs:34-308 | lowering a lowered expression changes nothing, whatever the counter |
| LoweringNormalForm.FixedIffNormal | crates/psrs-desugar/src/expr.rs:34-308 | the expressions lowering leaves alone are exactly those without operators, negations and guarded nodes |
| LoweringNormalForm.PatternGuardSecondPass | crates/psrs-desugar/src/guards.rs:100-133 | the second pass over the case built for a pattern guard is the identity |
| Alpha.Allocate | crates/psrs-desugar/src/alpha.rs:38-65 | the renaming of a clone is injective, defined on exactly the collected binders, and lands between the old and the new counter |
| Alpha.AllocateCount | crates/psrs-desugar/src/alpha.rs:31-65 | exactly one id is drawn for each binder |
| Alpha.RenameSizes | crates/psrs-desugar/src/alpha.rs:224-358 | renaming keeps size and number of operators, negations and guarded nodes, which termination of lowering rests on |
| Alpha.RenameIds | crates/psrs-desugar/src/alpha.rs:67-222 | the binders of a renamed expression are the images of its binders |
| Alpha.RenameUnique | crates/psrs-desugar/src/alpha.rs:224-459 | a renaming that is one-to-one on the binders keeps them unique |
| Alpha.RenameScoped | crates/psrs-desugar/src/alpha.rs:224-459 | renaming maps a scope that suffices to one that suffices |
| Alpha.RenameTwice | crates/psrs-desugar/src/alpha.rs:224-459 | renaming twice is renaming by the composition |
| Alpha.RenameNothing | crates/psrs-desugar/src/alpha.rs:224-459 | the empty renaming is the identity |
| DesugarerClass.Desugarer.constructor | crates/psrs-desugar/src/expr.rs:22-28 | the counter starts above the module's ids |
| DesugarerClass.Desugarer.Alloc | crates/psrs-desugar/src/alpha.rs:31-36 | hands out the counter and moves it by one |
| DesugarerClass.Desugarer.FreshMapping | crates/psrs-desugar/src/alpha.rs:38-65 | the loop over collected binders builds the specified injective renaming |
| DesugarerClass.Desugarer.CloneBranch | crates/psrs-desugar/src/alpha.rs:38-53 | result and counter are those of the specified row clone |
| DesugarerClass.Desugarer.CloneExpr | crates/psrs-desugar/src/alpha.rs:55-65 | result and counter are those of the specified clone |
| DesugarerClass.Desugarer.LowerExpr | crates/psrs-desugar/src/expr.rs:34-145 | the recursive rebuild computes the specified lowering and counter |
| DesugarerClass.Desugarer.LowerBranchValue | crates/psrs-desugar/src/guards.rs:11-27 | the same for a right-hand side |
| DesugarerClass.Desugarer.LowerAlternatives | crates/psrs-desugar/src/guards.rs:29-56 | the reverse loop over clauses computes the specified nesting |
| DesugarerClass.Desugarer.LowerGuardList | crates/psrs-desugar/src/guards.rs:58-98 | the reverse loop over guards computes the specified nesting |
| DesugarerClass.Desugarer.LowerPatternGuard | crates/psrs-desugar/src/guards.rs:100-133 | lowering value and then the whole built case leaves a two-row case with success and failure untouched |
| DesugarerClass.Desugarer.FirstGuard | crates/psrs-desugar/src/expr.rs:149-151 | finds the first guarded row, or none exactly if no row is guarded |
| DesugarerClass.Desugarer.WrapPatterns | crates/psrs-desugar/src/expr.rs:168-177 | every pattern is wrapped exactly if some pattern is not a record pattern; values stay |
| DesugarerClass.Desugarer.LowerBranches | crates/psrs-desugar/src/expr.rs:147-182 | a case is lowered row by row or as a guarded match, as specified |
| DesugarerClass.Desugarer.LowerGuardedBranches | crates/psrs-desugar/src/expr.rs:184-307 | the helper loop and the root loop compute the specified match |
| DesugarerClass.Desugarer.LowerFallthrough | crates/psrs-desugar/src/expr.rs:199-257 | the loop filling the binding list builds the specified helpers in order |
| DesugarerClass.Desugarer.LowerHelper | crates/psrs-desugar/src/expr.rs:199-257 | one turn of that loop builds one helper and leaves the rest to the later turns |
| DesugarerClass.Desugarer.LowerFallthroughRow | crates/psrs-desugar/src/expr.rs:214-246 | the body of a helper is the cloned row and a wildcard row, both continuing with the next helper |
| DesugarerClass.Desugarer.LowerRootBranches | crates/psrs-desugar/src/expr.rs:259-287 | the loop over rows builds the specified root rows |
| DesugarerClass.Desugarer.LowerRoot | crates/psrs-desugar/src/expr.rs:262-286 | one row: a guarded one continues with the helpers behind it, any other is lowered plainly |
| DesugarerClass.Desugarer.LowerDeclarations | crates/psrs-desugar/src/lib.rs:87-95 | the declarations are overwritten in place with their lowered values, sharing one counter |
| ConstantTruth.TrueSymbols | crates/psrs-desugar/src/constant_truth.rs:7-27 | the outer loop terminates with the smallest set that holds the true externals and is closed under declarations evaluating to true |
| ConstantTruth.EvaluatesToTrue | crates/psrs-desugar/src/constant_truth.rs:29-55 | decides the transparent-definition relation, through nested lets |
| ConstantTruth.LocalTruths | crates/psrs-desugar/src/constant_truth.rs:38-51 | the inner loop terminates with the smallest set of true locals closed under the let group |
| ConstantTruth.HoldsMore | crates/psrs-desugar/src/constant_truth.rs:29-55 | knowing more symbols or locals never makes an expression stop being true |
| ConstantTruth.LetByLeast | crates/psrs-desugar/src/constant_truth.rs:38-52 | a let is true exactly if its body is, under the least set of true locals |
| ConstantTruth.OrderIndependent | crates/psrs-desugar/src/constant_truth.rs:7-27 | module and declaration order do not matter |
| ConstantTruth.UnfoundedExcluded | crates/psrs-desugar/src/constant_truth.rs:7-27 | symbols that are true only through each other are left out |
| ConstantTruth.AliasCycleExcluded | crates/psrs-desugar/src/constant_truth.rs:7-27 | cyclic aliases are left out |
| AliasChains.FindsExactly | crates/psrs-desugar/src/constant_truth.rs:7-55 | a symbol is in the result if and only if following definitions from it, through annotations, bodies of lets and local names in their scopes, leads to an external bound to true |
| AliasChains.LeadsHolds | crates/psrs-desugar/src/constant_truth.rs:29-55 | an expression that leads to a true external is held true, within any let groups around it |
| AliasChains.HoldsLeads | crates/psrs-desugar/src/constant_truth.rs:29-55 | an expression held true leads to a true external, when the known symbols and locals do |
| TruthMeaning.TrueSymbolsMeanTrue | crates/psrs-desugar/src/constant_truth.rs:7-27 | a symbol in the result evaluates to true whenever its evaluation finishes |
| TruthMeaning.TruthEval | crates/psrs-desugar/src/constant_truth.rs:29-55 | an expression held true evaluates to nothing but true |
| TruthMeaning.ExhaustiveNeverFalls | crates/psrs-desugar/src/case_helpers.rs:77-124 | a right-hand side found exhaustive, by true conditions, irrefutable patterns (records among them) and let guards, never falls through to the next row, in evaluations whose record patterns meet records with their fields |
| TruthMeaning.AlwaysMatches | crates/psrs-desugar/src/case_helpers.rs:106-124 | an irrefutable pattern matches every value that has the fields its record patterns name |
| TruthMeaning.RecordFreeTyped | crates/psrs-desugar/src/case_helpers.rs:77-124 | without record patterns every evaluation of a right-hand side is such an evaluation |
| TruthMeaning.Founded | crates/psrs-desugar/src/constant_truth.rs:7-27 | every symbol in the least set is a true external or has a declaration that makes it true |
| Fixity.Reassociate | crates/psrs-desugar/src/fixity.rs:320-352 | the two-stack loop returns what the builder makes of the specified tree, for any builder |
| Fixity.Reduce | crates/psrs-desugar/src/fixity.rs:354-378 | pops one operator and joins the top two values, left below right |
| Fixity.ReduceClosed | crates/psrs-desugar/src/fixity.rs:335-341 | exactly the operators that bind before the next one are reduced; the whole chain stays the same tree |
| Fixity.ReduceAll | crates/psrs-desugar/src/fixity.rs:347-351 | the remaining stack folds to one value |
| Fixity.ReassociatedReads | crates/psrs-desugar/src/fixity.rs:320-352 | the tree reads, left to right, exactly as the operands and operators given, and obeys the precedence rules at every node |
| Fixity.ReadingUnique | crates/psrs-desugar/src/fixity.rs:335-346 | at most one tree with a given reading obeys the precedence rules |
| Fixity.RootDominates | crates/psrs-desugar/src/fixity.rs:335-341 | the local rules reach through: every operator on the left closes before the root, none on the right is closed by it |
| Fixity.RoundTrip | crates/psrs-desugar/src/fixity.rs:320-352 | flattening a tree and reassociating gives it back if and only if it obeys the precedence rules |
| Fixity.ChainCollector.Collect | crates/psrs-ast/src/expr/chain.rs:40-64 | pushing onto the shared vectors appends the in-order operands and operators |
| Fixity.CollectThenReassociate | crates/psrs-ast/src/expr/chain.rs:7-38 | collecting a chain and reassociating rebuilds a correct tree, and from any tree the correct one with its reading |
| Fixity.ValidateFixityGroup | crates/psrs-desugar/src/fixity.rs:274-315 | the stack of pending operators reports exactly the conflicting neighbours of equal precedence, in order |
| Fixity.AcceptsExactly | crates/psrs-desugar/src/fixity.rs:274-315 | no error is reported if and only if equal-precedence operators with nothing weaker between them agree and are associative |
| Fixity.ErrorCount | crates/psrs-desugar/src/fixity.rs:274-315 | the number of errors is the number of consecutive conflicting pairs |
| Fixity.AcceptedTreeHarmonious | crates/psrs-desugar/src/fixity.rs:335-346 | in a correct tree over an unambiguous chain no node has an equal-precedence child of other or no associativity |
| Fixity.AcceptedChain | crates/psrs-desugar/src/fixity.rs:274-352 | the same for what reassociation makes of a chain the validator accepts |
| OperatorPass.Desugar | crates/psrs-desugar/src/lib.rs:112-303 | terminates and leaves no chain, section, operator or negation, although it passes rebuilt trees again |
| OperatorPass.DesugarIdempotent | crates/psrs-desugar/src/lib.rs:112-303 | passing twice is passing once, and exactly the normal expressions are left alone |
| OperatorPass.ChainBuilds | crates/psrs-desugar/src/fixity.rs:354-378 | reassociating passed operands introduces no chain, so the second pass terminates |
| OperatorPass.BuiltPassedAgain | crates/psrs-desugar/src/lib.rs:149-150 | the second pass turns each rebuilt node into the application of its operator |
| OperatorPass.ChainDenotes | crates/psrs-desugar/src/lib.rs:145-151 | a chain becomes the applications of its precedence-correct tree over the passed operands |
| OperatorPass.ChainDenotesAnyReading | crates/psrs-desugar/src/lib.rs:145-151 | any precedence-correct tree with the chain's reading gives that result |
| OperatorMeaning.DesugarMeans | crates/psrs-desugar/src/lib.rs:112-303 | in every model of calls and functions an expression keeps its meaning: a chain means the calls of its one precedence-correct tree, operator on left operand and then on right operand, a section the function of its missing operand, a negation the call of its function |
| OperatorMeaning.SectionMeans | crates/psrs-desugar/src/lib.rs:152-184 | the lambda built for a section is the function of the missing operand on the right side, and captures nothing of the operand |
| OperatorMeaning.ChainMeans | crates/psrs-desugar/src/lib.rs:145-151 | the same for a chain whose operands keep their meaning |
| OperatorMeaning.Unused | crates/psrs-desugar/src/lib.rs:152-184 | a variable that an expression does not use makes no difference to its meaning |
| PatternPass.DesugarNormal | crates/psrs-desugar/src/lib.rs:305-348 | no pattern chain is left, although a rebuilt pattern is not passed again |
| PatternPass.DesugarIdempotent | crates/psrs-desugar/src/lib.rs:305-348 | passing a pattern twice is passing it once, and exactly the patterns without chains are left alone |
| PatternPass.ChainDenotes | crates/psrs-desugar/src/fixity.rs:380-426 | a pattern chain becomes the constructor patterns of any precedence-correct tree with its reading |
| PatternPass.DesugarMeans | crates/psrs-desugar/src/lib.rs:305-348 | in every model a pattern keeps its meaning: a chain means its operators' constructors on left and right operand, nested as precedences demand |
| KindTheory.UnifyComplete | crates/psrs-kind/src/solve.rs:149-230 | if some assignment fixing rigid variables solves the equation under the current state, unification succeeds and that assignment satisfies the new state |
| KindTheory.UnifySound | crates/psrs-kind/src/solve.rs:149-214 | after success both sides resolve to the same kind |
| KindTheory.UnifyMostGeneral | crates/psrs-kind/src/solve.rs:149-230 | success if and only if a unifier exists; the result is one, and every unifier factors through it |
| KindTheory.UnifyFails | crates/psrs-kind/src/solve.rs:149-230 | a failing equation has been solved up to the leftmost place where the resolved sides differ, and reports an infinite kind exactly if a variable that could be solved is there mentioned by the other side |
| KindTheory.StepKeeps | crates/psrs-kind/src/solve.rs:58-230 | fresh, make_rigid on an unsolved variable and unify keep the solver well formed and never change an earlier solution |
| KindTheory.RunKeeps | crates/psrs-kind/src/solve.rs:58-230 | over any run of steps no rigid variable is solved, solutions only grow, and resolve is settled and idempotent at the end |
| KindTheory.StartKeeps | crates/psrs-kind/src/solve.rs:50-230 | every run from a new solver ends well formed with no rigid variable solved |
| KindQuantifiers.UnifySoundUnderQuantifiers | crates/psrs-kind/src/solve.rs:149-230 | with quantifiers anywhere, after success both sides resolve to alpha-equivalent kinds if and only if at no opened pair a binder escapes or is captured |
| KindQuantifiers.SoundUnder | crates/psrs-kind/src/solve.rs:149-214 | the same equivalence under any later extension of the solutions, and the sides agree leaf by leaf except for variables bound further in on the left |
| KindQuantifiers.BodiesAlike | crates/psrs-kind/src/solve.rs:180-197 | quantified kinds are alike exactly when their bodies, opened with the left binder, are alike and neither binder escapes |
| KindQuantifiers.OpenedMeans | crates/psrs-kind/src/solve.rs:180-197 | replacing the right binder by the left one in a body keeps its resolved meaning when neither binder escapes |
| KindQuantifiers.MetInside | crates/psrs-kind/src/solve.rs:180-197 | conversely, if the quantified sides of a solved equation are alike, no binder has escaped and the opened bodies are alike |
| KindQuantifierChecks.GuardedAlike | crates/psrs-kind/src/solve.rs:149-230 | if at every opened pair the right body has no flexible variable, does not mention the left binder and captures nothing, success makes the sides alike |
| KindQuantifierChecks.BinderSolved | crates/psrs-kind/src/solve.rs:149-230 | two quantified kinds that unify by solving a variable of the left body with the left binder, and resolve alike |
| KindQuantifierChecks.RigidConfined | crates/psrs-kind/src/solve.rs:180-197 | for a body without flexible variables, no binder escapes exactly when the left binder is new to it and replaces the right one without capture |
| KindQuantifierChecks.RigidDecided | crates/psrs-kind/src/solve.rs:149-230 | for equations without flexible variables, of solved, alike and orderly any two imply the third |
| KindQuantifierChecks.SealedAlike | crates/psrs-kind/src/solve.rs:149-230 | with flexible variables only outside of quantifiers and quantified parts that are orderly pair by pair, success makes the sides alike |
| KindQuantifierUnifiers.Complete | crates/psrs-kind/src/solve.rs:149-230 | with quantifiers anywhere, if some assignment makes both sides alike and quantifiers are opened cleanly, unification succeeds and the assignment satisfies every solution |
| KindQuantifierUnifiers.FactorsThrough | crates/psrs-kind/src/solve.rs:149-230 | every such assignment factors through the solutions |
| KindQuantifierUnifiers.AssignedResolve | crates/psrs-kind/src/solve.rs:95-143 | an assignment that satisfies the solutions cannot tell a kind from its resolved form, under any binders |
| KindQuantifierUnifiers.BodiesAssigned | crates/psrs-kind/src/solve.rs:180-197 | quantified kinds that an assignment makes alike have bodies that it makes alike once they are cleanly opened |
| KindQuantifiers.BinderEscapes | crates/psrs-kind/src/solve.rs:149-230 | two quantified kinds that unify although they do not resolve alike, because a variable of the right body is solved with the left binder |
| KindSolver.Unify | crates/psrs-kind/src/solve.rs:149-214 | terminates, keeps the substitution acyclic and rigid variables unsolved, and solves only variables of the equation |
| KindSolver.ResolveSettles | crates/psrs-kind/src/solve.rs:90-136 | resolve leaves no solved variable that is not bound |
| KindSolver.ResolveIdempotent | crates/psrs-kind/src/solve.rs:104-136 | resolving twice is resolving once |
| KindStateClass.KindState.Fresh | crates/psrs-kind/src/solve.rs:59-63 | returns the next variable and moves the counter |
| KindStateClass.KindState.MakeRigid | crates/psrs-kind/src/solve.rs:79-81 | adds the variable to the rigid ones |
| KindStateClass.KindState.ResolveHeadWith | crates/psrs-kind/src/solve.rs:90-101 | the loop along solved variables stops at the specified head |
| KindStateClass.KindState.ResolveScoped | crates/psrs-kind/src/solve.rs:108-136 | computes the specified resolution under bound variables |
| KindStateClass.KindState.Unify | crates/psrs-kind/src/solve.rs:139-214 | new state and verdict are those of the specified unification |
| KindStateClass.KindState.UnifyVariable | crates/psrs-kind/src/solve.rs:149-214 | the equations with a variable on a side, with the preference for binding the flexible one |
| KindStateClass.KindState.UnifyBoth | crates/psrs-kind/src/solve.rs:149-214 | two components in order, the second under the solutions of the first and skipped when the first fails |
| KindStateClass.KindState.UnifyBodies | crates/psrs-kind/src/solve.rs:149-214 | two quantified bodies opened with one binder |
| KindStateClass.KindState.BindKindVariable | crates/psrs-kind/src/solve.rs:219-230 | solves the variable unless it occurs in the kind |
| KindStateClass.KindState.CloseKinds | crates/psrs-kind/src/closed.rs:18-47 | closes a list jointly, as specified, to a template |
| KindStateClass.KindState.InstantiateClosedKinds | crates/psrs-kind/src/closed.rs:51-85 | draws parameters and rigid binders as specified and keeps the solver well formed |
| KindStateClass.ClosingRenamer.Rename | crates/psrs-kind/src/closed.rs:88-139 | the traversal with mutable maps computes the specified closing and restores the bound map |
| KindStateClass.OpeningRenamer.Rename | crates/psrs-kind/src/closed.rs:88-139 | the same for instantiation; no template variable is unbound |
| KindClosed.RenamesIsAlpha | crates/psrs-kind/src/closed.rs:88-139 | a renaming with new distinct binders is alpha-equivalence up to the map of free variables, on a nameless form |
| KindClosed.CloseRenames | crates/psrs-kind/src/closed.rs:88-139 | closing renames the resolved kind, with one parameter for every free variable |
| KindClosed.OpenRenames | crates/psrs-kind/src/closed.rs:88-139 | opening renames the template, with new, distinct and rigid binders |
| KindClosed.CloseKindsTemplate | crates/psrs-kind/src/closed.rs:18-47 | a jointly closed list mentions only its own parameters, so the unbound-variable assertion cannot fire |
| KindClosed.CloseThenInstantiate | crates/psrs-kind/src/closed.rs:18-85 | one injective map to new ids, shared by the whole list, relates every instance to its resolved kind up to alpha |
| KindClosed.InstancesDisjoint | crates/psrs-kind/src/closed.rs:51-85 | two instances share no variable, free or bound |
| TypeSubstitution.CandidateInjective | crates/psrs-hir/src/substitution.rs:282-302 | generated names with different numbers differ, whatever their bases |
| TypeSubstitution.FreshName | crates/psrs-hir/src/substitution.rs:282-302 | the search terminates with a name outside the excluded ones and a larger counter |
| TypeSubstitutionNameless.RenameKeeps | crates/psrs-hir/src/substitution.rs:133-221 | renaming a bound variable keeps the nameless form when the new name is not free and captures nothing |
| TypeSubstitutionNameless.FreeNamesMatch | crates/psrs-hir/src/substitution.rs:223-280 | the collected free variables are the names left in the nameless form |
| TypeSubstitutionClash.OpeningKeeps | crates/psrs-hir/src/substitution.rs:89-107 | renaming a binder that opens cleanly keeps the meaning of the later kinds and the body |
| TypeSubstitutionClash.OpeningClashes | crates/psrs-hir/src/substitution.rs:89-107 | a binder that does not open cleanly leaves a leaf bound to the wrong binder |
| TypeSubstitutionClash.ClashStays | crates/psrs-hir/src/substitution.rs:18-117 | the rest of the traversal never repairs such a leaf, so the whole result differs |
| TypeSubstitutionTheory.SubstitutionAvoidsCapture | crates/psrs-hir/src/substitution.rs:18-131 | the result is simultaneous replacement on the nameless form if and only if every renamed binder opens cleanly |
| TypeSubstitutionTheory.TidyIsClean | crates/psrs-hir/src/substitution.rs:75-117 | a type whose quantifiers have distinct binder names and whose binder kinds mention no generated name is clean for every substitution and counter |
| TypeSubstitutionTheory.SubstitutionRespectsAlpha | crates/psrs-hir/src/substitution.rs:18-131 | beside a clean input, an alpha-equivalent one gives an alpha-equivalent result, whatever the counters, if and only if it is clean too |
| TypeSubstitutionTheory.SubstitutionFreeVariables | crates/psrs-hir/src/substitution.rs:18-131 | on clean inputs the free variables are exactly the unsubstituted ones and those of the replacements used |
| TypeSubstitutionTheory.RepeatedBinderCaptured | crates/psrs-hir/src/substitution.rs:75-117 | a forall that repeats a binder name is captured |
| TypeSubstitutionTheory.GeneratedNameCaptured | crates/psrs-hir/src/substitution.rs:75-117 | a binder kind that mentions a generated name is captured |
| TypeSubstitutionLoop.ChooseFreshName | crates/psrs-hir/src/substitution.rs:282-302 | the loop returns the specified name and counter |
| TypeSubstitutionLoop.SubstituteType | crates/psrs-hir/src/substitution.rs:18-73 | the traversal returns the specified type and counter |
| TypeSubstitutionLoop.SubstituteForall | crates/psrs-hir/src/substitution.rs:75-117 | the loop over binders, shrinking the substitution and renaming when needed, computes the specified telescope |
| CycleDetection.DetectCycle | crates/psrs-kind/src/kind.rs:294-306 | the reports give, one by one, source and span of distinct edges that close cycles; without exactly these edges the reachable graph is acyclic, and there is no report if and only if it was acyclic before |
| CycleDetection.CycleDetector.Visit | crates/psrs-kind/src/kind.rs:308-333 | a visit terminates, finishes its node and keeps the path, finish order and reports consistent |
| CycleDetection.CycleDetector.VisitNew | crates/psrs-kind/src/kind.rs:308-333 | the same for a node seen for the first time |
| CycleDetection.CycleDetector.VisitTargets | crates/psrs-kind/src/kind.rs:315-330 | afterwards every target is finished or its edge reported |
| CycleDetection.CycleDetector.ReportEdge | crates/psrs-kind/src/kind.rs:315-330 | an edge to an active node is reported once, and closes a cycle |
| CycleDetection.PathGoesBack | crates/psrs-kind/src/kind.rs:308-333 | a path of unreported edges only leads to nodes finished no later |
| CycleDetection.OrderedAcyclic | crates/psrs-kind/src/kind.rs:294-333 | a finish order along unreported edges excludes cycles |
| CycleDetection.Exhausted | crates/psrs-kind/src/kind.rs:294-306 | when all roots are visited the reports decide acyclicity |
| OffsideLayout.AddLayout | crates/psrs-syntax/src/layout.rs:60-350 | the loop produces the specified run; without markers it is the input without newlines up to the first Eof, and every marker sits at the next raw token |
| OffsideLayout.RunSound | crates/psrs-syntax/src/layout.rs:60-350 | in every run block indents increase up the stack, and starts minus ends are the open blocks plus dropped minus excess ones |
| OffsideLayout.RunConserves | crates/psrs-syntax/src/layout.rs:60-350 | removing the markers gives the visible input; the run has ended exactly after an Eof |
| OffsideLayout.BalancedAtEnd | crates/psrs-syntax/src/layout.rs:72-80 | after Eof starts and ends differ by exactly the dropped and excess counts |
| OffsideLayout.StepLawful | crates/psrs-syntax/src/layout.rs:82-347 | every token keeps the stack ordered and its markers account for the change in open blocks |
| OffsideLayout.PlacedMeans | crates/psrs-syntax/src/layout.rs:60-350 | a marker carries the start of the first raw token behind it |
| OffsideLayout.IncreasingPairs | crates/psrs-syntax/src/layout.rs:235-258 | of two blocks on the stack the upper one is indented further |
| OffsideLayout.AbovePrefixes | crates/psrs-syntax/src/layout.rs:60-350 | the running condition on markers is the one about every prefix |
| OffsideBalance.StepCounts | crates/psrs-syntax/src/layout.rs:161-169 | a step forgets exactly the blocks among the frames its truncation cuts, at a closing bracket, `of` or `then`, and writes one superfluous end for each frame its `in` closes that is no block; none if and only if there is none of these |
| OffsideBalance.BalancedExactly | crates/psrs-syntax/src/layout.rs:60-350 | starts minus ends are the open blocks plus all forgotten minus all superfluous ones; after Eof the markers balance if and only if the two sums agree |
| OffsideBalance.NeverNegativeExactly | crates/psrs-syntax/src/layout.rs:60-350 | no prefix has more ends than starts if and only if, at every step once it has closed its frames, the superfluous ends so far are covered by the forgotten blocks so far and the blocks left open |
| OffsideBalance.RegularRuns | crates/psrs-syntax/src/layout.rs:60-350 | a run whose truncations cut no block and whose `in` closes only blocks has, at every prefix, as many starts over ends as open blocks, and none after Eof |
| OffsideBalance.ThenDropsBlock | crates/psrs-syntax/src/layout.rs:300-308 | `if do x then` leaves a start without an end |
| OffsideBalance.InClosesParenthesis | crates/psrs-syntax/src/layout.rs:413-423 | `let x ( in` writes two ends for one start |
| OffsideLaws.RunExplained | crates/psrs-syntax/src/layout.rs:70-352 | in every run the markers before each visible token and the stack behind it are exactly those of the laws: which blocks the token ends, whether it is separated, whether a block starts, what it opens and what is pending |
| OffsideLaws.StepExplained | crates/psrs-syntax/src/layout.rs:86-348 | the same for one token, whatever the stack |
| OffsideLaws.Separators | crates/psrs-syntax/src/layout.rs:202-231 | a separator stands before a token if and only if it starts a line, is no field name, closes and continues nothing, and is at the column of the block on top once the blocks past its column are gone |
| OffsideLaws.Starts | crates/psrs-syntax/src/layout.rs:236-262 | a start stands before a token if and only if the visible token before it is one of the five keywords, not as a field name, and the token is indented past every block left open |
| OffsideLaws.FirstStarts | crates/psrs-syntax/src/layout.rs:236-262 | no block starts before the first visible token |
| OffsideLaws.PendingAfter | crates/psrs-syntax/src/layout.rs:339-347 | the visible token before decides what is pending, whatever newlines follow it |
| OffsideLaws.LineStarts | crates/psrs-syntax/src/layout.rs:70-74 | a token starts a line if and only if a newline stands between it and the visible token before |
| OffsideLaws.EofEnds | crates/psrs-syntax/src/layout.rs:76-84 | the end of the file writes one end for every open block |
| OffsideLayout.Layouter.CloseWhile | crates/psrs-syntax/src/layout.rs:368-411 | pops the blocks the condition closes, one end each, and stops at the first other frame |
| OffsideLayout.Layouter.CloseAbove | crates/psrs-syntax/src/layout.rs:170-191 | pops down to an index with one end for each block |
| OffsideLayout.Layouter.CloseLet | crates/psrs-syntax/src/layout.rs:413-423 | pops through the innermost let with one end for each frame |
| OffsideLayout.Layouter.Step | crates/psrs-syntax/src/layout.rs:82-347 | one visible token: new state and markers as specified |
| OffsideLayout.Layouter.Advance | crates/psrs-syntax/src/layout.rs:66-348 | one turn of the loop, with newline and Eof |
| CoreAssembly.PrepareCore | crates/psrs-linker/src/core_assembly.rs:64-106 | succeeds if and only if names are unique and unreserved and imports are closed and acyclic; then every module is instantiated once, after everything it imports, with the right instances |
| CoreAssembly.Ready | crates/psrs-linker/src/core_assembly.rs:66-68 | finds the first artifact whose imports are all provided, or shows there is none |
| CoreAssembly.NothingReady | crates/psrs-linker/src/core_assembly.rs:69-87 | when nothing is ready some import is missing or cyclic |
| CoreAssembly.OrderedIsAcyclic | crates/psrs-linker/src/core_assembly.rs:88-100 | a complete instantiation order proves the import graph closed and acyclic |
| CoreAssembly.OrderIrrelevant | crates/psrs-linker/src/core_assembly.rs:51-63 | the artifact order does not affect whether preparation succeeds |
| CoreAssembly.CanonicalLibraries | crates/psrs-linker/src/core_assembly.rs:155-206 | returns exactly the modules from which no reference-carrying module is reachable through imports |
| MemoryPlanning.PlanMemory | crates/psrs-linker/src/plan.rs:247-378 | a plan is produced if and only if every occupied place (scratch, allocator, and each artifact's static data and stack) is ordered, below the heap and apart from every other, stacks hold their bounds, and the heap start is aligned and covered; the plan reserves exactly these places, has the largest boundary asked for and the least number of pages that is enough; a refusal names a condition that really fails |
| MemoryPlanning.Collect | crates/psrs-linker/src/plan.rs:256-305 | gathers every region, the largest heap boundary and page demand, and refuses exactly if some stack does not fit |
| MemoryPlanning.CheckNeighbours | crates/psrs-linker/src/plan.rs:314-326 | the loop over adjacent pairs decides whether neighbours are apart |
| MemoryPlanning.NeighboursDecide | crates/psrs-linker/src/plan.rs:307-326 | for sorted regions the adjacent check decides disjointness of all pairs |
| MemoryPlanning.LastDecides | crates/psrs-linker/src/plan.rs:314-364 | the end of the last region decides whether all lie below the heap |
| MemoryPlanning.SortedDecides | crates/psrs-linker/src/plan.rs:307-326 | what is decided on the sorted regions holds of the gathered ones |
| MemoryPlanning.Decide | crates/psrs-linker/src/plan.rs:307-378 | the second half succeeds exactly if regions and pages fit, with the specified plan, and otherwise names a check that really fails |
| MemoryPlanning.PowerOfTwoMeans | crates/psrs-linker/src/plan.rs:328-364 | the alignment test accepts exactly the powers of two |
| MemoryPlanning.PlacesFitRegions | crates/psrs-linker/src/plan.rs:259-326 | the gathered regions fit exactly if all occupied places do, pair by pair |
| MemoryPlanning.ReservationsAssigned | crates/psrs-linker/src/plan.rs:259-307 | sorted reservations are one for each occupied place, and no others |
| MemoryPlanning.Determined | crates/psrs-linker/src/plan.rs:266-305 | the planned boundary is the largest one asked for, and the declared pages are the least number that covers all demands |
| AbiLayout.ParameterWellFormed | crates/psrs-backend/src/abi/layout.rs:37-70 | every canonical type with a layout has alignment 1, 2, 4 or 8, a size that is a multiple of it, and aligned, disjoint slots in bounds |
| AbiLayout.AggregateWellFormed | crates/psrs-backend/src/abi/layout.rs:95-121 | the same for a variant over well-formed cases |
| AbiLayout.RecordWellFormed | crates/psrs-backend/src/abi/layout.rs:190-210 | the same for a record over well-formed fields |
| AbiLayout.FlagsWellFormed | crates/psrs-backend/src/abi/layout.rs:236-262 | the same for flags of any count with a layout |
| AbiLayout.AlignToRounds | crates/psrs-backend/src/abi/layout.rs:284-288 | rounds up to the next multiple and by less than the alignment |
| AbiLayout.RecordMatchesFields | crates/psrs-backend/src/abi/layout.rs:190-226 | the offsets of `record_fields` reproduce the slots of `record_layout`, and each has a result exactly when the other has, up to the final rounding |
| AbiLayout.AlignmentsAgree | crates/psrs-backend/src/abi/layout.rs:160-187 | the separate alignment computation agrees with the layout's |
| AbiLayout.PayloadOffsetAgrees | crates/psrs-backend/src/abi/layout.rs:95-187 | `variant_payload_offset` equals the offset the layout reserves, the payload from there on rounds up to exactly the layout's size, and every case is in bounds and aligned there, behind the discriminant |
| AbiLayout.RecordLayout | crates/psrs-backend/src/abi/layout.rs:190-210 | the loop computes the specified record layout |
| AbiLayout.RecordFields | crates/psrs-backend/src/abi/layout.rs:214-226 | the loop computes the specified offsets |
| AbiLayout.AggregateLayout | crates/psrs-backend/src/abi/layout.rs:95-121 | the loop over cases computes the specified layout |
| AbiMemory.RoundTrip | crates/psrs-backend/src/mir/wit/parameters/indirect.rs:62-181 | storing a value of any type through its layout, fields, discriminants and payloads included, and loading it again gives the value back, and no byte outside of the layout changes |
| AbiMemory.ScalarHolds | crates/psrs-backend/src/abi/layout.rs:37-57 | the slot of every scalar is wide enough for its values, signed ones included, and a float's slot is one for floats of its width |
| AbiMemory.FlagsSize | crates/psrs-backend/src/abi/layout.rs:236-262 | flags have at least one bit each, in the smallest of 0, 1, 2 and 4m bytes |
| AbiMemory.DiscriminantHolds | crates/psrs-backend/src/abi/layout.rs:265-273 | the discriminant counts every case and is the smallest of 1, 2 and 4 bytes that does |
| AbiMemory.SlotsRoundTrip | crates/psrs-backend/src/abi/layout.rs:37-70 | what is written to disjoint slots is read from each of them, up to the slot's width |
| AbiSizes.LayoutSizes | crates/psrs-backend/src/abi/canonical/memory.rs:23-89 | every layout has the size and alignment that `size_align` computes on its own |
| PayloadPlans.RoundTrip | crates/psrs-backend/src/cc/payload.rs:61-138 | recovering what was erased is the identity on every value of the shape unless conversion reaches a null, and then erasing fails; callables are excluded |
| PayloadPlans.RoundTripArray | crates/psrs-backend/src/cc/payload.rs:140-201 | the same through the array protocol, element by element, nulls included |
| PayloadPlans.RoundTripRecord | crates/psrs-backend/src/cc/payload.rs:203-274 | the same through labelled record fields |
| PayloadPlans.EraseDeclaresErased | crates/psrs-backend/src/cc/convert.rs:85-108 | an erasing plan declares the erased shape as its output |
| PayloadPlans.RecoverDeclaresShape | crates/psrs-backend/src/cc/convert.rs:85-108 | a recovering plan declares exactly the requested shape, except for nullable arrays and records that are mapped, and for callables if and only if their adapter does |
| PayloadPlans.BothOrNeither | crates/psrs-backend/src/cc/payload.rs:61-274 | a shape can be erased exactly if it can be recovered, when that is so for callables |
| PayloadPlans.RankedIffNoCycle | crates/psrs-backend/src/cc/payload.rs:140-274 | the recursion through element and field shapes is well founded, with a rank falling at every step, if and only if no cycle leads through arrays and records |
| PayloadPlans.ArrayProtocol | crates/psrs-backend/src/cc/payload.rs:140-201 | the representation chosen for erased arrays is an array of erased elements |
| PayloadErasure.Erases | crates/psrs-backend/src/cc/payload.rs:61-274 | the erased value is a form that depends only on table, boxes and shape: scalars boxed in the representation of their own kind, arrays in the first array of erased elements with erased elements, records in the labelled store under exactly the labels of their product |
| PayloadErasure.OneForm | crates/psrs-backend/src/cc/payload.rs:61-274 | a value has at most one such form for a shape |
| PayloadErasure.FieldUnderLabel | crates/psrs-backend/src/cc/payload.rs:203-258 | a stored field is found under its label, as the erased form of the record's own field |
| PayloadErasure.YieldsDeclared | crates/psrs-backend/src/cc/convert.rs:85-108 | whatever a plan yields fits the output shape that it declares, for any plan whose unboxings agree with their boxes |
| PayloadErasure.PlannedConsistent | crates/psrs-backend/src/cc/payload.rs:61-274 | the plans of the planner are such plans |

## Left out

- Spans, names of generated binders, diagnostics text, coverage flags on rows (`guarded_rhs_exhaustive` only decides such a flag), capability flags and trace records.
- Parser, lexer, CST, resolver, type checker, coverage engine, Core and MIR passes, CLI, driver and loader. Layout takes tokens with a kind and a column.
- Exhaustion of u32 ids: local ids, kind variables and name counters are unbounded. Native-stack growth and hash-map iteration order are not modelled either.
- Guard lowering groups expression forms that the pass only rebuilds child by child into one constructor with a tag; the same holds for kinds and types. Children are linked lists.
- Laziness and static types: the evaluator is call-by-value and untyped. A type annotation passes its value through.
- TruthMeaning.ExhaustiveNeverFalls: values are untyped, so that record patterns meet records with their fields is a condition on the evaluation (`Typed`), which static types guarantee.
- The truth analysis is sound for evaluations that finish; an aliased global may still run out of fuel or be undefined.
- The operator pass has an expression type and a pattern type of its own with the forms it changes; type chains are covered by the generic loop in `Fixity`.
- KindTheory.UnifySound: quantifier-free kinds, where both sides become equal; `KindQuantifiers.UnifySoundUnderQuantifiers` is the statement for all kinds.
- KindTheory.UnifyComplete: quantifier-free kinds; `KindQuantifierUnifiers.Complete` is the statement for all kinds.
- KindTheory.UnifyMostGeneral: quantifier-free kinds; with quantifiers a solution may mention an opened binder, and `KindQuantifierUnifiers.FactorsThrough` is what remains.
- KindTheory.UnifyFails: quantifier-free kinds only, because later solutions may change what an opened body looks like.
- `prepare_core`: filtering of canonical libraries, decoding of imports, the check of the application's own imports and `assemble_core`. Encoder calls are the log of instances.
- `plan_memory`: the heap getter of `heap_boundary`.
- `abi/layout.rs`: `result_area` and everything decided by `despecialize`. `AbiSizes` takes fixed arrays of bytes as an address and a length, as layouts do; `size_align` itself takes their bytes in place. Flattening to core values is not part of this model.
- `cc/payload.rs`: the callable hook is an arbitrary partial function, so nothing is said about values in which conversion reaches a callable; stored guest layouts and field evidence are not modelled.
