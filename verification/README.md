# Vibecheck: verified models

This project models four parts of Vibecheck in Dafny and proves what they promise.

* **The service manager** (`StartOrder`, `Lifecycle*`) and the application around it
  (`Application`). The dependency sort is the imperative algorithm, loop by loop, against a
  specification in terms of dependency chains. The startup and shutdown protocol is a step relation
  over the program counters of `Run`, of every service goroutine, of the `stopOnce` body and of the
  goroutines it starts, over `errCh`, the failure signal, the ready and exited channels, the launch
  tokens and `startGroupsMu`; any number of other `Stop` callers may arrive at any time. Its
  inductive invariant is split by concern (`LifecycleInvariants`), and the theorems quantify over
  every reachable state. `LifecycleErrors` follows a failed attempt to the next one or to its report;
  `LifecycleTermination` adds a rank and freedom from deadlock.
* **The policy language** (`Decision`, `NameGrammar`, `Policy`, `ConditionCompiler`, `ConditionTyping`,
  `QuestionValue`, `PolicyCompiler`, `PolicyTheorems`, `PolicyFidelity`, `PolicyRuntime`, `AnswerContract`,
  `Canonical`, and a worked `PolicyExample`). A condition language with a compiler, an independent meaning, an independent type
  system and a canonical form: meaning preservation, exact acceptance, type soundness,
  non-interference, and a canonical form that keeps everything.
* **One evaluation and its store** (`Evaluation`, `EvaluationStore`, `Idempotency*`,
  `CreatePipeline`). The decision pipeline on a mutable audit record, the tables with their primary
  keys, and every interleaving of `Create` calls and retention passes, statement by statement, under
  a nondecreasing clock. `CreatePipeline` executes one call and one pass on the database object and
  shows each to be a run of that interleaved model.
* **The bounded retry loop** (`Retry`) of the TypeSafe client, over integer nanoseconds.

`Names` holds names, their byte order and sorted listings, `Arithmetic` one fact about products. Go's `any` is the datatype
`Decision.Value`; a number carries the Go representation it arrived in, because only five of them
count as numbers. Map iteration order is an arbitrary choice throughout. A digest is modelled by
what it is a digest of, so hashes are injective. Steps taken by the surroundings (the parent
context, other callers, services becoming ready, provider replies, clocks) are parameters or steps
of their own.

## Where the code falls short of what it suggests

* `service_manager.go:662-682`: a `Stop` whose body runs before startup has taken `startGroupsMu`
  uses up `stopOnce` on an empty list. Services launched afterwards are cancelled but their `Stop`
  is never called. `StopReachesEveryLaunchedService` gives the exact condition;
  `StopBeforeStartupSkipsEveryService` is the run, for every process.
* `service_manager.go:662-669`: a `Stop` that came before `Run` published its cancel function
  cancels nothing, and can call a service's `Stop` with the context live.
  `StopFollowsCancel` says that nothing else can; `StopBeforePublishDoesNotCancel` is the run, for
  every process.
* `service_manager.go:416-473`: a done context does not stop later groups from being launched; only
  the failure signal does. Notifying dependencies are ready at a launch unless the context is done
  at that moment (`LaunchStepFindsDependencies`), and `CancelledStartupIgnoresReadiness` shows for
  every notifying dependency of every process that the exception is real.
* `service_manager.go:621-638`: the signal follows the send, so Run can take the error and cancel the
  context first; another service's last failure in that window is dropped. An error has been sent in
  every such case (`UndisturbedFailureIsReported`), and under a live context it has been signalled as
  well (`FailureForGoodIsReported`); `RunMayOvertakeTheSignal` is the run in between.
* `app.go:122-144`: a `Stop` that gets through before `Run` spawns the manager's goroutine, so at any
  time up to the end of the pre-run hooks, spends the post-stop hooks; the manager then runs after
  them. If it came before `Run` published its cancel function it cancels nothing either, but that is
  the narrower window. `PostStopHooksRunLast` is the exact condition, `EarlyStopSpendsTheHooks` the
  runs for both windows and any number of hooks.
* `idempotency.go:102-113` says a key whose evaluation is gone is treated as unused so that the
  request can be evaluated again. The lookup does that, but `persist` is a plain insert, so the
  commit then fails on the key that is still there; so does the commit after an expired key that
  has not been swept. `CommitNeedsFreeKey` is the exact condition, `RetiredEvaluationBlocks` and
  `UnsweptKeyBlocks` are the failing runs, for every request that can be decided. A deployment can
  tell from its windows whether a key can outlive its evaluation (`StaleKeysExactly`): a slow
  decision brings it about even when the evaluation window is the longer one, and it cannot happen
  when the evaluation window covers the key window and the slowest decision (`StaleKeysAreSlow`).

## Model

| member | source | states |
|---|---|---|
| StartOrder.BuildDepGraph | internal/pkg/service-manager/service_manager.go:756-796 | in-degrees count every in-process dependency with its multiplicity, dependents list every edge once per occurrence, absent dependencies are skipped |
| StartOrder.TopoSort | internal/pkg/service-manager/service_manager.go:798-848 | returns groups exactly when there is no cycle among the present services and the cyclic error exactly when there is one; the groups list each service once, in the group numbered by its longest dependency chain |
| StartOrder.ResolveOrder | internal/pkg/service-manager/service_manager.go:747-754 | the two steps together: the same contract from the bare services, self-loops and duplicate edges included |
| StartOrder.AcyclicIffAllLayered | internal/pkg/service-manager/service_manager.go:843-845 | peeling off dependency-free layers exhausts the services exactly when no dependency cycle exists |
| StartOrder.StuckRoundDecides | internal/pkg/service-manager/service_manager.go:817-845 | a round that frees nothing decides: a cycle exists exactly when services are left |
| StartOrder.OrderIgnoresRepetition | internal/pkg/service-manager/service_manager.go:798-848 | two multigraphs with the same in-process dependency sets, whatever the order and multiplicity, give the same groups as sets |
| StartOrder.DependenciesStartEarlier | internal/pkg/service-manager/service_manager.go:416-473 | in a start order every in-process dependency sits in a strictly earlier group |
| LifecycleSafety.StepKeeps | internal/pkg/service-manager/service_manager.go:336-739 | every step of Run, of a service goroutine, of a Stop or of the surroundings keeps the protocol invariant |
| LifecycleSafety.DependenciesLaunchFirst | internal/pkg/service-manager/service_manager.go:416-509 | a launched service has every in-process dependency launched and running; each notifying one was ready or gone for good unless the context was done at the launch |
| LifecycleSafety.LaunchStepFindsDependencies | internal/pkg/service-manager/service_manager.go:425-469 | the same at the very step that launches a service |
| LifecycleSafety.StopHappensOnce | internal/pkg/service-manager/service_manager.go:671-681 | each service's Stop is called at most once, and only if the service was launched |
| LifecycleSafety.DependentsStopFirst | internal/pkg/service-manager/service_manager.go:671-739 | before b's stop goroutine exists, the Stop of every launched service that depends on b has returned or timed out |
| LifecycleSafety.StopReachesEveryLaunchedService | internal/pkg/service-manager/service_manager.go:671-681 | when the stopOnce body is over, every launched service has been stopped exactly if the body got the lock after startup released it, or nothing was launched |
| LifecycleSafety.StopFollowsCancel | internal/pkg/service-manager/service_manager.go:662-669 | no Stop is called with the context live, unless a Stop caller came before cancel was published; that exemption is real in every process, see StopBeforePublishDoesNotCancel |
| LifecycleSafety.FirstFailureIsReported | internal/pkg/service-manager/service_manager.go:352-387 | no send on the closed channel, never more than one error buffered, a triggered failure signal enables Run's select, and what Run reports is the first error sent, by a service that used all its attempts; that errors are sent at all is the subject of LifecycleErrors |
| LifecycleSafety.NothingSurvivesRun | internal/pkg/service-manager/service_manager.go:352-360 | when errCh is being closed, no step of any service goroutine is possible any more |
| LifecycleSafety.RunResult | internal/pkg/service-manager/service_manager.go:360-387 | Run reports no services exactly for an empty process, a cycle exactly when there is one, and otherwise cancellation or the first error sent |
| LifecycleSafety.CancellationHasACause | internal/pkg/service-manager/service_manager.go:376-386 | cancellation is reported only after the parent context ended or Stop was called; in a process that nobody disturbs Run, once it returns, does so with the first service that failed for good |
| LifecycleErrors.RetriesFollow | internal/pkg/service-manager/service_manager.go:526-551 | with attempts left under a live context, the service's own steps lead to another attempt and change nothing else, through the delay exactly for a delayed service |
| LifecycleErrors.DelayEndsEitherWay | internal/pkg/service-manager/service_manager.go:585-598 | a delay ends in another attempt or, exactly when the context is done by then, for good and in silence |
| LifecycleErrors.AllowedFailureIsDropped | internal/pkg/service-manager/service_manager.go:601-613 | a service that may fail ends after its last failed attempt with nothing sent and nothing signalled |
| LifecycleErrors.LastFailureIsReported | internal/pkg/service-manager/service_manager.go:547-564 | after the last failed attempt under a live context, the own steps of a service that may not fail are determined: report, so that an error has been sent, then signal the failure, then end |
| LifecycleErrors.ReportsWhateverHappens | internal/pkg/service-manager/service_manager.go:601-638 | nothing the rest of the process does, cancelling included, calls that report off |
| LifecycleErrors.CleanReturnIsFinal | internal/pkg/service-manager/service_manager.go:531-536 | a service whose Run returned without an error is not run again in any continuation |
| LifecycleErrors.FailuresAreAttempts | internal/pkg/service-manager/service_manager.go:526-551 | in every run the failures counted against a service are its failed attempts, at most its retries plus one |
| LifecycleErrors.FailureForGoodIsReported | internal/pkg/service-manager/service_manager.go:547-564 | in every run, under a context still live, a service that may not fail and has used up its attempts has been reported: an error sent and the failure signalled |
| LifecycleErrors.UndisturbedFailureIsReported | internal/pkg/service-manager/service_manager.go:601-638 | in a run that nobody disturbs the error is sent even if Run has cancelled the context on its way out, and signalled or about to be |
| LifecycleErrors.NothingFailedUnnoticed | internal/pkg/service-manager/service_manager.go:376-387 | where the protocol stands still and Run has not returned, no service has failed for good |
| LifecycleErrors.FailureStopsStartup | internal/pkg/service-manager/service_manager.go:414-432 | once the failure is signalled, whatever is still launched in any continuation belongs to the group being launched at that moment |
| LifecycleInvariants.AllReceived | internal/pkg/service-manager/service_manager.go:464-468 | as many launch tokens as members means every member's token |
| LifecycleTermination.BoundedWork | internal/pkg/service-manager/service_manager.go:336-739 | whatever the surroundings do, the protocol's own steps are bounded by a rank of the configuration |
| LifecycleTermination.NoDeadlock | internal/pkg/service-manager/service_manager.go:336-739 | until Run has returned some step of the protocol is possible unless Run rightly waits for a ready signal or in its final select |
| LifecycleTermination.ShutdownCompletes | internal/pkg/service-manager/service_manager.go:336-739 | from every reachable state with the context done or a failure signalled, own steps bounded by the rank lead to Run's return |
| LifecycleTermination.StuckMeansWaiting | internal/pkg/service-manager/service_manager.go:376-386 | the protocol stops moving only after Run returned or while it rightly waits, never during shutdown |
| LifecycleCounterexamples.EarlyStopDisablesStopping | internal/pkg/service-manager/service_manager.go:671-681 | once a stopOnce body ran before startup took its lock, no service's Stop is ever called in any continuation |
| LifecycleCounterexamples.DriveStartup | internal/pkg/service-manager/service_manager.go:416-509 | from the lock, unless a live wait for a ready signal holds it up, startup can be driven to Run's final select with every group started and nothing else disturbed |
| LifecycleCounterexamples.CancelledStartupIgnoresReadiness | internal/pkg/service-manager/service_manager.go:425-469 | for every process and every notifying dependency in it: a run that launches the dependent under a done context while the dependency runs and has not signalled ready |
| LifecycleCounterexamples.StopBeforeStartupSkipsEveryService | internal/pkg/service-manager/service_manager.go:662-682 | for every process: a complete run in which every service is launched, Run returns, and no service's Stop was ever called |
| LifecycleCounterexamples.StopBeforePublishDoesNotCancel | internal/pkg/service-manager/service_manager.go:662-669 | for every process: a run in which a service's Stop begins although nothing cancelled the context |
| LifecycleCounterexamples.RunMayOvertakeTheSignal | internal/pkg/service-manager/service_manager.go:621-638 | for every process with two services that may not fail: Run can take the error and cancel before its sender has signalled, so that the other's last failure goes unreported and nothing is signalled for a moment |
| Application.ErrorsAreDelivered | internal/app/app.go:89-119 | in App.Run the goroutine's send never blocks and never meets the closed channel; Run returns with that goroutine gone and the stopOnce body finished |
| Application.ManagerErrorIsReported | internal/app/app.go:103-119 | an error the manager's Run returned is on its way or has been sent, and in a run that nobody disturbs Run leaves its select only with it |
| Application.EveryHookRunsOnce | internal/app/app.go:98-141 | in every run all pre-run hooks run once before the manager starts, all post-stop hooks once by the end of the stopOnce body |
| Application.ManagerIsOver | internal/app/app.go:103-141 | in every reachable state the manager neither runs nor reports in any continuation exactly if its goroutine has exited |
| Application.PostStopHooksRunLast | internal/app/app.go:131-141 | the hooks run with the manager over for good exactly when Run had spawned the manager's goroutine before the stopOnce body passed its wait |
| Application.EarlyStopSpendsTheHooks | internal/app/app.go:103-141 | for any number of hooks: a Stop before the goroutine is spawned runs all post-stop hooks and the manager runs after them, with the context cancelled exactly if cancel had been published |
| Application.NoDeadlock | internal/app/app.go:68-144 | with the context done or an error on its way some step of the app is possible until Run returns |
| Application.ShutdownCompletes | internal/app/app.go:68-144 | from there the app can run on to Run's return within its rank |
| Names.SortedNames | internal/pkg/policy/compiled.go:199-208 | the keys in sorted order, whatever order the map yields them in |
| Names.LessAtFirstDifference | internal/pkg/policy/compiled.go:199-208 | the order of the listing: the smaller character at the first difference, or the proper prefix |
| Names.OneListing | internal/pkg/policy/compiled.go:196-208 | a set of keys has only one sorted listing, so map iteration order cannot show |
| Decision.LevelIndexes | internal/pkg/policy/compile_condition.go:387-413 | the keys the canonical-index test lets through are exactly the renderings of the non-negative ints, and Atoi inverts Itoa on them |
| NameGrammar.IdentifiersExact | internal/pkg/common/decision/decision.go:22-44 | identifiers and dashed identifiers are the names of at most 64 characters in the languages of their regular expressions |
| NameGrammar.FactNamesExact | internal/pkg/common/decision/decision.go:28-51 | fact names are the names of at most 128 characters in the language of theirs |
| Policy.FirstMatchIsLeast | internal/pkg/policy/evaluate.go:42-80 | the rule that decides is the matching rule of least index, and none matches when nothing is selected |
| ConditionCompiler.MeaningPreserved | internal/pkg/policy/compile_condition.go:17-142 | evaluating a compiled tree is the meaning of the source tree, for all facts and answers; the meaning is stated over the facts and the answer's own members, without the evaluator: all, any, not, exists defaulting to true, numbers across representations |
| ConditionCompiler.LeafPreserved | internal/pkg/policy/compile_condition.go:103-203 | the same for one leaf and every operator |
| ConditionCompiler.PartsAreRead | internal/pkg/common/decision/decision.go:245-284 | what is read of an answer: its choice, score or noul, the confidence when given, the probability of a key, each on the question types that have it and on no other |
| ConditionCompiler.ResolvingKeepsValue | internal/pkg/policy/compile_condition.go:205-413 | a resolved operand reads what the operand as written denotes |
| ConditionCompiler.KindsExact | internal/pkg/common/decision/decision.go:188-203 | exactly the five representations count as numbers, with their own value |
| ConditionCompiler.NormalizingKeepsScalar | internal/pkg/policy/compile_condition.go:493-685 | normalizing a right-hand value keeps what it equals and how it orders |
| ConditionCompiler.ChildrenCompile | internal/pkg/policy/compile_condition.go:74-101 | a combinator compiles exactly when every operand does, operand by operand |
| ConditionTyping.AcceptsExactlyLegal | internal/pkg/policy/compile_condition.go:17-685 | the compiler accepts exactly the trees that are legal in a type system stated without it and nest at most eight levels |
| ConditionTyping.LeafExact | internal/pkg/policy/compile_condition.go:103-203 | a leaf compiles exactly when its operand has a type, its operator fits it and its right-hand values inhabit it |
| ConditionTyping.OperandExact | internal/pkg/policy/compile_condition.go:205-413 | a left operand resolves exactly when it names something declared that this phase may read |
| ConditionTyping.ProbabilityKeyExact | internal/pkg/policy/compile_condition.go:306-413 | a probability key resolves exactly when it names an option or a canonical level |
| ConditionTyping.CompiledIsTyped | internal/pkg/policy/compile_condition.go:17-142 | every compiled tree is typed, no deeper than eight and no wider than 32 per node |
| ConditionTyping.TypedIsBounded | internal/pkg/policy/document.go:16-23 | a typed tree of depth n has at most 32^n leaves and 1 + 32 + ... + 32^n nodes, and one evaluation performs at most 64 comparisons a leaf |
| QuestionValue.ValidateQuestionValue | internal/pkg/policy/question_value.go:160-195 | accepts a value exactly when node count, height and leaf kinds fit what the shared counter and the depth leave, and then has grown the counter by the size of the tree |
| QuestionValue.ValidateFields | internal/pkg/policy/question_value.go:179-186 | the same for the children of a map visited in any order |
| QuestionValue.ValidateItems | internal/pkg/policy/question_value.go:197-205 | the same for the children of a list |
| QuestionValue.FieldsSizeWithout | internal/pkg/policy/question_value.go:179-186 | the size of a map's children does not depend on which child is counted first |
| QuestionValue.NormalizedKeepsShape | internal/pkg/policy/question_value.go:124-158 | normalizing keeps size and height, leaves only supported leaves and is idempotent |
| QuestionValue.NormalizedTellsApart | internal/pkg/policy/question_value.go:124-158 | two values normalize alike exactly when they are the same value: equal texts, flags and numbers in equal places, whatever Go types hold the numbers |
| QuestionValue.NormalizedIsSameValue | internal/pkg/policy/question_value.go:124-158 | normalizing keeps the value |
| QuestionValue.NormalizeQuestionValue | internal/pkg/policy/question_value.go:124-158 | succeeds exactly on a permitted null or a text, list or object of at most 512 nodes and 16 levels, and returns the normalized value |
| PolicyCompiler.CompileMetadata | internal/pkg/policy/compile.go:153-186 | metadata is accepted exactly with a dashed name, a version of 1 to 32 characters with no space at either end, and a short enough description |
| PolicyCompiler.TrimmedExactly | internal/pkg/policy/compile.go:171-175 | trimming changes a version exactly when one of its ends is a space |
| PolicyCompiler.QuestionLimitExactly | internal/pkg/policy/compile.go:331-337 | a deployment may lower the ceiling of 64 questions, not raise it |
| PolicyCompiler.CompileInstructions | internal/pkg/policy/compile.go:374-407 | instructions are absent, or normalizable and within the encoded ceiling |
| PolicyCompiler.CompileCriteriaValue | internal/pkg/policy/question_value.go:84-122 | a criterion is accepted exactly when it is normalizable and within the encoded ceiling |
| PolicyCompiler.CompileFields | internal/pkg/policy/compile.go:456-500 | the sorted criteria loop succeeds exactly when every key and value is legal, and keeps every key with its normalized value |
| PolicyCompiler.CompileScoreCriteria | internal/pkg/policy/compile.go:516-551 | two to ten levels, each legal, each normalized in place |
| PolicyCompiler.CompileCriteria | internal/pkg/policy/compile.go:412-454 | criteria are accepted exactly when legal for the question's type, and resolve into the fields of that type alone |
| PolicyCompiler.CompileQuestion | internal/pkg/policy/compile.go:339-369 | a question compiles exactly when it is legal, ceilings on encoded text included, and to its resolved form |
| PolicyCompiler.Compiler.CompileOutcomes | internal/pkg/policy/compile.go:188-232 | accepts exactly 1 to 32 distinct well-formed outcomes that include the default, and records their set |
| PolicyCompiler.Compiler.CollectFacts | internal/pkg/policy/compile.go:259-292 | adds a declared list exactly when its names and types are legal and none is declared already |
| PolicyCompiler.Compiler.CompileFacts | internal/pkg/policy/compile.go:234-257 | required and optional facts together, within the shared ceiling |
| PolicyCompiler.Compiler.CompileQuestions | internal/pkg/policy/compile.go:294-329 | every declared question compiled under its ID, and the IDs in sorted order |
| PolicyCompiler.Compiler.CompileTree | internal/pkg/policy/compile_condition.go:17-72 | the branch-counting method computes the compiled tree its specification gives, or its error class |
| PolicyCompiler.Compiler.CompileCombinator | internal/pkg/policy/compile_condition.go:74-101 | the operand loop computes the compiled operands, or the error class of the first that fails |
| PolicyCompiler.Compiler.CompileOneRule | internal/pkg/policy/compile.go:590-645 | one rule against the outcomes and the IDs taken so far, which it extends |
| PolicyCompiler.Compiler.CompilePhase | internal/pkg/policy/compile.go:553-588 | a phase's rules in order, up to the first error, sharing rule IDs across phases |
| PolicyCompiler.Compile | internal/pkg/policy/compile.go:51-151 | the error of the first stage that fails, else the assembled policy |
| PolicyTheorems.CompilesExactlyLegal | internal/pkg/policy/compile.go:51-151 | a document compiles exactly when it is legal, said stage by stage without the compiler |
| PolicyTheorems.RulesExact | internal/pkg/policy/compile.go:553-645 | a rule list compiles exactly when its rules are legal, its IDs new and distinct, and only its last rule unconditional; each compiled rule comes from its source rule |
| PolicyTheorems.OneResolution | internal/pkg/policy/compile.go:294-454 | the compiled questions are determined by the document |
| PolicyTheorems.CompiledIsSound | internal/pkg/policy/compile.go:118-151 | every policy that compiled has typed rules, declared outcomes, no rule behind an unconditional one, and rule IDs unique across both phases |
| PolicyFidelity.DocumentIsKept | internal/pkg/policy/compile.go:51-151 | a compiled policy keeps its document: declarations as written, questions with type, instructions and criteria as values, rules in order with their meaning |
| PolicyFidelity.CompiledIsWithinLimits | internal/pkg/policy/document.go:16-42 | whatever was written, a compiled policy stays within the documented limits on outcomes, facts, questions, rules, criteria, texts and encoded values |
| PolicyTheorems.SelectionIsMeant | internal/pkg/policy/evaluate.go:42-80 | both phases of a compiled policy select what the first rule of the document that holds says, else the default, the rules read with the meaning above |
| PolicyRuntime.RulesAreSafe | internal/pkg/policy/evaluate.go:42-113 | type soundness: on validated facts and answers every leaf reads an absent optional fact or compares values of one kind, and orders only numbers |
| PolicyRuntime.OperandSafe | internal/pkg/policy/condition.go:140-160 | every answer operand of a typed condition is present in validated answers, with the kind its type says |
| PolicyRuntime.SafeComparison | internal/pkg/policy/condition.go:167-221 | on values of one scalar kind equality and order are the mathematical ones: no mismatch fall-through answers |
| PolicyRuntime.OnlyDeclaredFactsMatter | internal/pkg/policy/evaluate.go:42-80 | facts that agree on the declared names select alike in both phases, and pre-rules ignore answers |
| PolicyRuntime.ValidateFacts | internal/pkg/policy/compiled.go:115-194 | the three loops over sorted names accept exactly the facts the policy's declarations ask for |
| PolicyRuntime.FactsAcceptedExactly | internal/pkg/policy/compiled.go:115-194 | against the document: every required fact is there, every declared one that is there has its type, and an undeclared one is accepted exactly by a lax document |
| PolicyRuntime.NumberTypesDoNotMatter | internal/pkg/policy/condition.go:167-221 | facts that are the same up to the Go types of their numbers are accepted alike and select alike |
| PolicyRuntime.SelectionIsDeclared | internal/pkg/policy/evaluate.go:42-80 | every selection is a declared outcome made by the least matching rule of its phase, or the default when none matches |
| PolicyRuntime.EvaluationIsBounded | internal/pkg/policy/condition.go:69-136 | the bounds on leaves, nodes and comparisons for every rule of a compiled policy |
| PolicyExample.GateCompiles | internal/pkg/policy/compile.go:51-151 | a small document compiles, in every deployment, to the policy written beside it, so what the theorems ask of compiled policies is met |
| PolicyExample.LowRiskIsAllowed | internal/pkg/core/evaluations/service.go:264-311 | that policy allows a low risk by its pre-rule whatever the provider would say; its request is one of the decidable ones |
| AnswerContract.ValidateDistribution | internal/pkg/policy/evaluate.go:322-357 | the accumulating loop accepts exactly the distributions: every value a probability, the sum within tolerance of one |
| AnswerContract.SumAlongIsTotal | internal/pkg/policy/evaluate.go:333-349 | summing along any enumeration of the keys gives the same total |
| AnswerContract.OneMajority | internal/pkg/policy/evaluate.go:322-357 | no two options of a distribution both lie above half of one plus the tolerance |
| AnswerContract.ValidateAnswer | internal/pkg/policy/evaluate.go:115-320 | the per-type validators as they scan: counts, keys, ranges, legend, distribution |
| AnswerContract.ValidateAnswers | internal/pkg/policy/evaluate.go:89-113 | accepts exactly when the counts agree and every question has an accepted answer |
| AnswerContract.AnswersExact | internal/pkg/policy/evaluate.go:89-113 | count plus membership amounts to exact key sets: the answer keys are the question IDs, probability keys the options or level indexes, legend keys the level indexes |
| AnswerContract.CountedKeys | internal/pkg/policy/evaluate.go:238-298 | as many keys as levels and every level among them means the keys are exactly the levels |
| Canonical.CanonicalizeCondition | internal/pkg/policy/hash.go:132-162 | the recursive loop computes the projection of a condition |
| Canonical.CanonicalRules | internal/pkg/policy/hash.go:111-130 | the rule loop computes the projection of every rule in order |
| Canonical.Canonicalize | internal/pkg/policy/hash.go:69-109 | the loops compute the canonical form of a policy, its questions in ID order; what that form keeps is FormKeepsEverything |
| Canonical.FormKeepsEverything | internal/pkg/policy/hash.go:69-162 | two compiled policies have equal forms exactly when they are equal in every member, conditions and their operand types included, up to an absent versus an empty noul criteria map |
| Canonical.ConditionOfForm | internal/pkg/policy/hash.go:132-162 | a typed condition can be told from its form |
| Canonical.SameOperand | internal/pkg/policy/hash.go:151-161 | operands with equal forms read the same value although the form drops their types |
| Canonical.SameCondition | internal/pkg/policy/hash.go:132-162 | typed conditions with equal forms, even from different policies, evaluate alike on every input |
| Canonical.EqualFormsAgree | internal/pkg/policy/hash.go:15-162 | two compiled policies with equal forms accept the same facts and answers and select alike on every input |
| Evaluation.Decide | internal/pkg/core/evaluations/service.go:264-311 | the record's contents and duration are those of the specified decision, none is returned on rejected facts or cancellation, and the provider is asked once exactly when facts pass and no pre-rule matches |
| Evaluation.AfterProvider | internal/pkg/core/evaluations/service.go:281-310 | what is recorded once the provider has been asked: failure code, protocol failure with usage, or the decision rules' selection |
| Evaluation.DecisionExactly | internal/pkg/core/evaluations/service.go:264-311 | every way a decision ends: rejected facts and a cancelled call leave no record, a failed call a failed one without usage, an off-contract answer a protocol failure with usage and nothing selected, an on-contract one the selection with both |
| Evaluation.FailureCodeExactly | internal/pkg/core/evaluations/service.go:494-511 | a code is recorded exactly when the error wraps one of its causes, or it is the code for everything else, and no cause of a code that takes precedence |
| Evaluation.RecordHasOneShape | internal/pkg/core/evaluations/service.go:264-311 | every record is either completed with a declared outcome or provider-failed with a code and nothing selected, never both |
| Evaluation.RuleIDsIdentify | internal/pkg/policy/compile.go:603-611 | a rule ID on a record belongs to one rule of the whole policy |
| Evaluation.RecordIsMeant | internal/pkg/core/evaluations/service.go:264-311 | from document to record: the recorded outcome and rule are those of the first rule of the document that holds |
| EvaluationStore.Batch | internal/pkg/services/vibecheck-server/retention.go:110-150 | a limited delete takes everything or a full batch |
| EvaluationStore.Database.Persist | internal/pkg/core/evaluations/persist.go:50-96 | evaluation and key go in together or not at all |
| EvaluationStore.Database.ExpireIdempotency | internal/pkg/services/vibecheck-server/retention.go:110-126 | deletes only expired keys, at most a batch, and all of them when fewer than a batch |
| EvaluationStore.Database.ExpireEvaluations | internal/pkg/services/vibecheck-server/retention.go:135-178 | finds at most a batch of evaluations older than the cutoff, deletes their feedback and then them; a label is there afterwards, unchanged, exactly if it was there and its evaluation was not found or the statement was refused, and likewise evaluations |
| EvaluationStore.Database.Cleanup | internal/pkg/services/vibecheck-server/retention.go:75-103 | a pass expires keys by their own expiry, then evaluations only when a window is set, stops at a refused statement and reports what each one removed; key by key, label by label and evaluation by evaluation, everything else stays as it was |
| CreatePipeline.Create | internal/pkg/core/evaluations/service.go:177-218 | a request of the wrong shape touches nothing; any other, executed end to end on the database object, is a run of the interleaved model, with the same tables after it and the same response, and asks the provider exactly when the key is unused, the facts pass and no pre-rule matches |
| CreatePipeline.ValidateShape | internal/pkg/core/evaluations/validate.go:50-90 | accepts exactly named scalar facts and named metadata |
| CreatePipeline.Retain | internal/pkg/services/vibecheck-server/retention.go:75-103 | a cleanup pass executed on the database object, refused statements included, is a sweep of the interleaved model |
| IdempotencyInvariants.StepKeeps | internal/pkg/core/evaluations/service.go:177-218 | every statement of every Create and every retention pass keeps the store invariant |
| IdempotencyInvariants.CommitKeepsSpacing | internal/pkg/core/evaluations/persist.go:65-93 | a commit under a key finds it free, so every earlier commit under it has outlived its window |
| IdempotencyTheorems.DifferentAnswersAreFarApart | internal/pkg/core/evaluations/idempotency.go:69-116 | two successful responses under one key with different evaluations: the later one was committed more than the retention window after the earlier one's key was created |
| IdempotencyTheorems.AnswersAreFaithful | internal/pkg/core/evaluations/idempotency.go:69-116 | every answer, new or replayed, was made by a call with the same key that asked for the same, and the caller's own policy decides exactly that on the caller's own facts |
| Idempotency.CanonicalTellsApart | internal/pkg/core/evaluations/idempotency.go:20-52 | two requests have equal canonical requests exactly when their policies are equal in every member, their metadata equal, and their state and facts equal values up to the Go types of their numbers |
| IdempotencyTheorems.LookupTellsRequestsApart | internal/pkg/core/evaluations/idempotency.go:69-116 | a lookup without a live key finds nothing; under one it yields the stored evaluation for a request that asks for the same as its maker, unless that was retired, and a conflict for any other |
| IdempotencyTheorems.ConflictCommitsNothing | internal/pkg/core/evaluations/idempotency.go:93-101 | a lookup that sees an unexpired key bound to another request ends in a conflict and commits nothing, then or later |
| IdempotencyTheorems.RowsAreBacked | internal/pkg/core/evaluations/persist.go:62-93 | every key row was committed with the evaluation it names, for the request it names |
| IdempotencyTheorems.AnsweredRowsStay | internal/pkg/core/evaluations/service.go:172-176 | an answered evaluation is in its table as answered until it is older than the evaluation window |
| IdempotencyTheorems.EvaluationsReconstruct | internal/pkg/core/evaluations/persist.go:18-45 | every stored evaluation has its snapshot, and any policy with that form decides the same again |
| IdempotencyTheorems.SnapshotsNeverChange | internal/pkg/core/evaluations/persist.go:24-45 | no step changes or removes a snapshot |
| IdempotencyTheorems.CommitNeedsFreeKey | internal/pkg/core/evaluations/persist.go:65-93 | a commit succeeds exactly when there is no key or no row for it, expired or not, and otherwise changes nothing |
| IdempotencyTheorems.UndisturbedLookup | internal/pkg/core/evaluations/idempotency.go:69-116 | the three reads of a lookup, undisturbed, come to one look at the tables |
| IdempotencyCounterexamples.UnsweptKeyBlocks | internal/pkg/core/evaluations/idempotency.go:93-95 | for every decidable request: repeating it after its key expired but before the sweep fails at the commit |
| IdempotencyCounterexamples.RetiredEvaluationBlocks | internal/pkg/core/evaluations/idempotency.go:102-113 | for every decidable request, whatever the two windows, as long as evaluations are retired and keys kept at all: repeating it inside the key's window after its evaluation was retired fails at the commit |
| IdempotencyCounterexamples.StaleKeysAreSlow | internal/pkg/core/evaluations/idempotency.go:102-113 | an unexpired key whose evaluation is gone means that the time from the start of that evaluation to its commit plus the key window exceeds the evaluation window |
| IdempotencyCounterexamples.StaleKeysExactly | internal/pkg/core/evaluations/idempotency.go:102-113 | a deployment can reach such a key exactly when its evaluation window is positive and its key window is not negative |
| Retry.EvaluateWithRetries | pkg/gotypesafe/client.go:115-160 | the loop's ending, waits and numbered attempts are those of the specified call, which RepliesDecide, EndingTellsWhy and DelaysAreBackoffs pin down |
| Retry.RepliesDecide | pkg/gotypesafe/client.go:308-444 | reply by reply: an unreachable host, an attempt timeout and a status of 429, 529 or at least 500 lead to the next attempt exactly when attempts, budget and context are left and the wait is not cut short; every other failure ends the call at once |
| Retry.EndingTellsWhy | pkg/gotypesafe/client.go:125-152 | an exhausted budget, a cancelled wait and giving up each happen for their own reason |
| Retry.CallFrom | pkg/gotypesafe/client.go:125-152 | never more attempts than configured |
| Retry.BuiltIsUsable | pkg/gotypesafe/config.go:42-98 | defaults replace exactly what is not positive, with three attempts, 200 ms, 5 s and 30 s, and validation then accepts exactly the usable configurations |
| Retry.DelayIsBounded | pkg/gotypesafe/client.go:345-355 | a wait is at least the capped exponential and the honoured Retry-After, at most the larger of the two, and at most thirty seconds |
| Retry.DelaysDouble | pkg/gotypesafe/client.go:345-355 | the waits as a recurrence: the base first, doubling up to the maximum, thirty seconds at most, and a longer Retry-After replaces a wait up to the same ceiling |
| Retry.DelaysAreBackoffs | pkg/gotypesafe/client.go:145-152 | the i-th wait is the backoff of attempt i, and waits are one fewer than attempts, or as many when the last is cut short |
| Retry.CallStaysInBudget | pkg/gotypesafe/client.go:115-160 | attempts stay within the ceiling, waits sum to less than MaxElapsed, and attempts less one times the shortest wait stays below it |
| Retry.SucceedsExactly | pkg/gotypesafe/client.go:125-152 | a call succeeds at attempt n exactly when that attempt succeeded and every earlier round let it go on |
| Retry.SuccessHistory | pkg/gotypesafe/client.go:125-152 | on success every attempt but the last failed as unreachable, timed out, or with a status of 429, 529 or at least 500 |

## Left out

- String lengths are counted in characters, not UTF-8 bytes, and strings are valid UTF-8 (the JSON encoder maps every invalid byte to one replacement character).
- Floats are exact reals: no IEEE rounding, NaN, infinities or overflow, so not the float overflow of the exponential backoff at very high attempt numbers, and no wrap-around of a Retry-After too large for a duration.
- PolicyCompiler.CompileCriteria: a noul's criteria given as a YAML map with boolean keys are not modelled. The code turns such keys into texts in map order, so a map that holds both a boolean and the text of it keeps whichever comes last.
- The bytes encoding/json makes of a value: their number is a parameter of the compilation, against which the ceilings on instructions and criteria are checked.
- JSON and YAML decoding, the text of the canonical encoding, SHA-256, sealing of retained inputs: a canonical form is the struct, with members that encoding omits when empty standing at their empty value.
- A provider that echoes a score legend is not claimed to be accepted: criteria hold json.Number while legends decode to float64, so numeric leaves never compare equal (`AnswerContract.ScoreAccepted` compares values with their representation).
- Provider request contents: an absent and an empty noul criteria map share a canonical form, and nothing is claimed about the request they lead to.
- An absent and an empty fact or metadata map are one map here; their encodings differ, so the code takes them for different requests under one key.
- A negative MaxRetries, with which a service is reported without having been run.
- Error messages: only the error class a failure wraps is modelled.
- A second Run on the same service manager or application, registration, commands, panics inside Stop, and logging.
- LifecycleTermination.ShutdownCompletes: assumes that each service's own Run and Stop return when asked, as steps that are always possible.
- LifecycleSafety.StopReachesEveryLaunchedService: a service whose stop goroutine timed out before it made the call counts as stopped without a call.
- Application.ShutdownCompletes: takes the manager's Run and Stop as single steps that return; their own behaviour is the subject of the Lifecycle modules.
- EvaluationStore.Database.Cleanup: feedback submitted between the statements of a pass is not modelled, so nothing is said about labels that arrive after their evaluation's feedback was deleted.
- IdempotencyTheorems.AnswersAreFaithful: evaluation IDs are assumed never to repeat; state and facts are compared as values, since their encoding does not show which Go type holds a number.
- Retry.CallStaysInBudget: assumes a wait that is not interrupted lasts at least as long as asked; time spent in attempts is unbounded here.
- The concurrency slots of the TypeSafe client, the request size ceilings of the evaluation service, resolution of named policies, feedback and listing.
