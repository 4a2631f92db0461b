# Verified model of the commerce agent's stateful protocols

The repository runs a commerce agent: controlled writes to a product database, an evaluation
runner, prompt assembly under a token budget, a benchmark session with a coin budget, and a
handful of self-contained algorithms. This project models the parts whose guarantees depend on
several functions working together, and proves those guarantees for every input, every
interleaving and every run.

| area | modules |
|---|---|
| controlled operations, in memory | `Operations`, `OperationStore`, `OperationWorkflow`, `OperationInvariants`, `OperationSafety`, `OperationTheorems`, `OperationEffects`, `OperationOrigins`, `OperationLinks` |
| controlled operations, in the database | `ProductSql`, `ProductSqlInvariants`, `ProductSqlSafety`, `ProductSqlTheorems`, `ProductSqlApproval`, `ProductSqlEffects` |
| evaluation runner | `EvaluationStore`, `TaskQueue`, `EvaluationRunner`, `RunnerInvariants`, `RunnerSafety`, `RunnerTheorems`, `RunnerSummaries`, `RunnerOutcomes` |
| context trimming | `ModelContracts`, `ContextBuilder`, `ContextTheorems` |
| private turns and model gateway | `TurnStore`, `Gateway`, `GatewayTheorems` |
| benchmark session and its loop | `BirdSession`, `BirdSessionTheorems`, `BirdGraph` |
| canonical JSON and command payloads | `JsonText`, `CanonicalJson`, `CanonicalTheorems`, `CanonicalCommand`, `CanonicalCommandTheorems`, `CanonicalFields` |
| session matching, pilot selection, backtests | `SpoolImporter`, `SpoolTheorems`, `PilotSelection`, `Backtest` |

`Common` holds the option and result datatypes. `dafny verify dfyconfig.toml` checks the project.

## How the model is built

Code that changes state is a class whose methods are tied to a specification function by their
`ensures`; what the repository promises is then proved about that function, about single steps,
and about whole runs. Calls that suspend between store operations are state machines over their
steps, so other calls interleave anywhere between them; a lost response or a crash is an event
of its own, and loses everything but the store. Clocks, fresh identifiers, provider replies, tool
answers and executor outcomes are parameters, quantified over. SHA-256, HMAC and version-5
UUIDs are injective constructors, version-4 UUIDs fresh choices.

The in-memory store and the database functions are two models and are not claimed to agree:
only the first writes an expired status, and they close investigations under different rules.

## What turned out to hold only under a condition

- The running attempts of an evaluation run are bounded by the concurrency, and serial per task, while
  no executor of the run has raised a state conflict or a cancellation of its own, answered what the
  store refuses, or answered RUNNING; any of these leaves an attempt RUNNING that executes no longer
  (`RunnerSummaries.BoundedAndSerial`, counterexample `ConflictBreaksSerial`).
- A returned summary leaves no attempt pending or running exactly when no executor of the run answered
  with such a status, which the store accepts, or raised a cancellation, which the runner drops without
  recording or counting it (`RunnerSummaries.HonestSummary`, counterexamples `RunningAtReturn` and
  `CancelledIsMissed`). Its counts are those of the store exactly when no cancellation was raised.
- Closing a task never misses its linked risk exactly when every task the store was started with that
  links a risk is closed already (`OperationLinks.MissingKeyExactly`).
- A failed completion leaves no private turn behind, except when the response's own contract refuses
  the provider's system fingerprint after the turn was saved (`GatewayTheorems.RefusedExactly`); the
  loop of the benchmark session deletes it at the end all the same (`BirdGraph.BirdAGraph.Run`).
- The retryable flag of a gateway error follows its last attempt except for server errors outside the
  retried list (`GatewayTheorems.ErrorFlagExact`). A Retry-After header that reads as not-a-number
  makes the decimal comparison raise, and a status above 599 the attempt summary.
- Only a submission is forwarded short of its price, but names outside the catalogue are forwarded
  free of charge (`BirdSessionTheorems.UnpaidExactly`).
- Payload equality determines a command up to whole seconds and four decimal places, while the command
  contract admits six places (`CanonicalCommandTheorems.DistinctCommandsOnePayload`). Backtest
  snapshots are named the same way: two rules of one name hit the same windows exactly when their
  thresholds are equal (`Backtest.SameHitsExactly`, counterexample `OneNameTwoAnswers`), and a name
  determines the rule among those with whole seconds and four places (`Backtest.NameDetermines`).
- Database versions of a proposal are 1..latest as long as no revision crosses scenarios; a reset keeps
  them so exactly when it removes no version below one it leaves, and every reset does exactly when no
  proposal spans two scenarios (`ProductSqlTheorems.ResetDenseExactly`, `EveryResetDenseExactly`,
  counterexample `ResetLeavesAGap`). At most one version is live in any case.

The description of the ablation gate (src/commerce_agent/orchestration/bird_server.py:385-388) says
the official gate is asked first; the code asks the ablation condition first, and the model follows
the code (`BirdSessionTheorems.StopReasonExact`).

## Model

| member | source | states |
|---|---|---|
| `OperationStore.InMemoryOperationStore.CreateOrGetProposal` | src/commerce_agent/operations/_memory.py:138-200 | the tables after the call and its answer are those of the specification: a bound key answers or conflicts, a revision supersedes the latest pending version, a first proposal gets a fresh id |
| `OperationStore.InMemoryOperationStore.DecideOnce` | src/commerce_agent/operations/_memory.py:209-242 | only a pending, unexpired version is decided; an expired one is marked expired and the call still raises |
| `OperationStore.InMemoryOperationStore.ExecuteOnce` | src/commerce_agent/operations/_memory.py:255-290 | an executed version answers with its receipt; otherwise nonce, targets, execution and counters move together or not at all |
| `OperationStore.InMemoryOperationStore.Apply` | src/commerce_agent/operations/_memory.py:292-357 | each command changes exactly its own targets, or raises and changes nothing |
| `OperationTheorems.ExactlyOnce` | src/commerce_agent/operations/workflow.py:101-137 | any two execute calls that return for one version, anywhere in any interleaved run, held the same grant and return the same receipt |
| `OperationTheorems.ExecutionsPersist` | src/commerce_agent/operations/_memory.py:255-290 | a committed execution stays on record unchanged, and its version stays approved, in every later state |
| `OperationTheorems.CountsAgree` | src/commerce_agent/operations/_memory.py:284-289 | in every reachable state executions, claimed nonces, business writes and audit records are equally many, and a nonce serves one version |
| `OperationTheorems.FailedExecuteWritesNothing` | src/commerce_agent/operations/_memory.py:267-290 | an execute step that raises leaves every table as it was |
| `OperationTheorems.LostResponseRecovered` | src/commerce_agent/operations/workflow.py:101-137 | a caller whose response was lost gets the recorded receipt with the issued grant at any later time, expiry included, and with no other grant |
| `OperationTheorems.OnlyIssuedGrantsExecute` | src/commerce_agent/operations/_approval.py:175-229 | before execution the verification lets through exactly the grant issued with the approval, before its expiry |
| `OperationTheorems.VersionChain` | src/commerce_agent/operations/_memory.py:320-357 | in commit order the receipts touching a task run from its first version to its current one without a gap |
| `OperationTheorems.AtMostOneExecutes` | src/commerce_agent/operations/_memory.py:320-326 | of all approved proposals naming one version of a task at most one is ever executed |
| `OperationTheorems.StaleNeverExecutes` | src/commerce_agent/operations/commands.py:53-61 | a proposal naming a version its task has passed is never executed in any later state |
| `OperationTheorems.TaskLifeCycle` | src/commerce_agent/operations/commands.py:136-156 | over any stretch of a run a resolved task can only close, a closed one stays closed, its risk link never changes, nor a final risk if the tasks were coupled at the start |
| `OperationTheorems.TaskRiskCoupling` | src/commerce_agent/operations/_memory.py:333-357 | from tasks that link no risk yet and follow the conclusion rule: conclusions stand on resolved or closed tasks and on every closed one; the linked risk is under investigation at version 1 exactly while its task is not closed and final at version 2 exactly after |
| `OperationTheorems.RiskLinksAreOneToOne` | src/commerce_agent/operations/_memory.py:304-320 | from such tasks distinct tasks link distinct risks and every risk is linked |
| `OperationTheorems.NothingIsOverwritten` | src/commerce_agent/operations/_memory.py:292-320 | creating a task, risk or rule never overwrites an existing entry |
| `OperationTheorems.OneLiveVersion` | src/commerce_agent/operations/_memory.py:152-200 | versions of an id are exactly 1..latest, those below are superseded without decision or execution, a decision exists iff approved or rejected, by another actor than the requester |
| `OperationTheorems.ProposeIsIdempotent` | src/commerce_agent/operations/_memory.py:138-150 | a repeated key files nothing and returns the bound proposal exactly when the payload is the same |
| `OperationLinks.NoKeyIsMissing` | src/commerce_agent/operations/_memory.py:349-356 | if every initial task that links a risk is closed, no call of any run fails on a missing entry |
| `OperationLinks.MissingKeyExactly` | src/commerce_agent/operations/_memory.py:349-356 | some run from given initial tasks fails on a missing risk entry iff some initial task links a risk and is not closed |
| `OperationSafety.StepKeepsInv` | src/commerce_agent/operations/workflow.py:42-137 | every step of every call, interleaved in any way, keeps the whole invariant and only moves the tables forward |
| `OperationEffects.TaskToldByJournal` | src/commerce_agent/operations/_memory.py:292-357 | in every reachable state a task has the status of the last executed transition, closing or creation on it, the assignee of the last assignment and the conclusion of the last one added; priority, summary and risk link are those it was created with |
| `OperationEffects.RiskToldByJournal` | src/commerce_agent/operations/_memory.py:348-355 | a linked risk is final with exactly the disposition the executed closing of its task named, and under investigation if there is none |
| `OperationEffects.CreatedByJournal` | src/commerce_agent/operations/_memory.py:292-320 | the tasks, risks and rules on file are exactly those of the start and those the executed commands created |
| `OperationOrigins.ProposalsAreTraced` | src/commerce_agent/operations/workflow.py:42-62 | every proposal lives for a day from its filing under a payload binding its command to the version it expects, and all versions of a proposal come from one requester |
| `OperationOrigins.GrantsAreTraced` | src/commerce_agent/operations/_approval.py:131-171 | every grant on record is made out for its proposal, its approver and ten minutes |
| `OperationOrigins.DecidedInTime` | src/commerce_agent/operations/_memory.py:209-242 | a decision is recorded exactly while its proposal is pending and unexpired; a pending one past its day is marked expired instead |
| `OperationOrigins.RolesExactly` | src/commerce_agent/operations/workflow.py:43-69 | an analyst proposes against the version there is, an approver other than the requester decides, an approver executes |
| `OperationOrigins.ReceiptsName` | src/commerce_agent/operations/_memory.py:276-290 | a receipt names its execution and the versions its command took its target between |
| `OperationOrigins.CommandRefused` | src/commerce_agent/operations/_memory.py:320-347 | for which reasons, in which order, a command on a task is refused |
| `OperationOrigins.TransitionsExactly` | src/commerce_agent/operations/commands.py:136-156 | which transitions a command may name |
| `OperationOrigins.FilingRefused` | src/commerce_agent/operations/_memory.py:138-200 | a draft is refused exactly for a key bound to another payload or a revision that is not of the own pending latest version |
| `OperationOrigins.GrantRefused` | src/commerce_agent/operations/_approval.py:175-229 | for which reasons, in which order, a grant fails its check |
| `OperationOrigins.DecisionRefused` | src/commerce_agent/operations/workflow.py:108-118 | an execute call goes on exactly past an approval, for the approver, with the approver's grant |
| `OperationOrigins.ExecutesExactly` | src/commerce_agent/operations/_memory.py:255-290 | an execute step answers from the record, refuses a claimed nonce, or does what its command does, at the time of the step |
| `OperationOrigins.LostLeavesNothing` | src/commerce_agent/operations/workflow.py:101-137 | a lost response leaves the caller nothing, though the tables have moved as if it had arrived |
| `EvaluationStore.InMemoryEvaluationStore.RegisterExperiment` | src/commerce_agent/evaluation/_memory.py:32-41 | an experiment id is bound once to one purpose and configuration |
| `EvaluationStore.InMemoryEvaluationStore.RegisterAttempt` | src/commerce_agent/evaluation/_memory.py:43-55 | the loop refuses exactly a known id or a known run, task, mode and number |
| `EvaluationStore.InMemoryEvaluationStore.MarkAttemptRunning` | src/commerce_agent/evaluation/_memory.py:57-69 | only pending attempts start running |
| `EvaluationStore.InMemoryEvaluationStore.FinishAttempt` | src/commerce_agent/evaluation/_memory.py:71-99 | status, error class and result are recorded together or not at all |
| `EvaluationStore.InMemoryEvaluationStore.UnfinishedAttempts` | src/commerce_agent/evaluation/_memory.py:120-134 | the loop answers, for each task that has attempts but is not completed, one with the highest number |
| `TaskQueue.OrderedQueue` | src/commerce_agent/evaluation/runner.py:206-211 | the queue is an arrangement of the uncompleted listed tasks, sorted when the seed is zero |
| `TaskQueue.QueueIsExact` | src/commerce_agent/evaluation/runner.py:206-211 | a queue holds exactly the listed tasks that are not completed, each once |
| `EvaluationRunner.EvaluationRunner.Launch` | src/commerce_agent/evaluation/runner.py:130-159 | the launching loop numbers each admitted task with the number after its latest attempt |
| `EvaluationRunner.EvaluationRunner.BeginTask` | src/commerce_agent/evaluation/runner.py:213-232 | a task holding the semaphore leaves when stopping, otherwise registers and starts, or carries a runner-level error |
| `EvaluationRunner.EvaluationRunner.CompleteTask` | src/commerce_agent/evaluation/runner.py:228-246 | an outcome is recorded and counted together; an exception becomes an infrastructure error, except that a state conflict is a runner-level error and a cancellation leaves the attempt stored as running |
| `EvaluationRunner.EvaluationRunner.MarkAbandoned` | src/commerce_agent/evaluation/runner.py:257-274 | the abandoning loop interrupts exactly the tasks still under way |
| `RunnerSafety.HistoryInv` | src/commerce_agent/evaluation/runner.py:114-274 | records, slots and counts satisfy the runner invariant after any number of launches, stops, crashes and resumes |
| `RunnerTheorems.AttemptsAreNumbered` | src/commerce_agent/evaluation/runner.py:130-159 | over any history the attempts of a task carry exactly the numbers 1..n, each once, across run ids; a succeeded or failed attempt is the one numbered n |
| `RunnerTheorems.HistoryRecovers` | src/commerce_agent/evaluation/runner.py:219-246 | between any two points of a history no record is lost, terminal records stay as they are and so does every result, and no attempt of a completed task is registered |
| `RunnerTheorems.CompletedForGood` | src/commerce_agent/evaluation/_memory.py:101-108 | a completed task stays completed and its set of attempts never changes again |
| `RunnerTheorems.ResumesEveryTask` | src/commerce_agent/evaluation/runner.py:130-159 | a run takes on listed tasks that are not completed, each once and numbered one above the number of its attempts, and all of them unless it is stopped while launching |
| `RunnerOutcomes.AttemptsAreTold` | src/commerce_agent/evaluation/runner.py:228-246 | in every world the store holds of an attempt the status, error class and result last recorded of how its executor ended, and running while nothing was |
| `RunnerOutcomes.TerminalExactly` | src/commerce_agent/evaluation/runner.py:233-246 | an attempt is succeeded or failed iff its executor gave an outcome of that status that the store took, and then carries its error class and result |
| `RunnerOutcomes.ThrownIsRetried` | src/commerce_agent/evaluation/runner.py:232-255 | an executor's exception leaves an infrastructure error without a result and completes nothing; the next unstopped launch that lists the task takes it on |
| `RunnerOutcomes.StoppedStartsNothing` | src/commerce_agent/evaluation/runner.py:219-225 | once a run is stopping, no attempt of the experiment is added until the next launch |
| `RunnerOutcomes.AbandonEndsAll` | src/commerce_agent/evaluation/runner.py:257-274 | abandoning the rest leaves no task waiting or executing |
| `RunnerOutcomes.CompletedExactly` | src/commerce_agent/evaluation/_memory.py:101-108 | a task is completed iff an attempt of it is succeeded or failed |
| `RunnerOutcomes.RegistersExactly` | src/commerce_agent/evaluation/_memory.py:43-55 | a registration is refused exactly for a known id or a known run, task, mode and number |
| `RunnerOutcomes.FinishesExactly` | src/commerce_agent/evaluation/_memory.py:57-99 | for which reasons, in which order, a start or a finish is refused |
| `RunnerSummaries.LeftExactly` | src/commerce_agent/evaluation/runner.py:219-246 | an attempt of a live run is left pending, or running without executing, or given up, iff an executor of that run ended so since the launch |
| `RunnerSummaries.RunningCount` | src/commerce_agent/evaluation/runner.py:219-246 | the RUNNING attempts of a live run are those executing, at most the concurrency, and disjointly those that executors left so since the launch |
| `RunnerSummaries.BoundedAndSerial` | src/commerce_agent/evaluation/runner.py:46-59 | the RUNNING attempts are the executing ones iff since the launch no executor raised a conflict or a cancellation, answered RUNNING, or answered what the store refuses; then they are at most the concurrency and no two of one task; any such answer keeps its attempt RUNNING without executing |
| `RunnerSummaries.ConflictBreaksSerial` | src/commerce_agent/evaluation/runner.py:230-231 | a history with concurrency one in which both modes of one task are RUNNING at once, after an executor raised a state conflict |
| `RunnerSummaries.HonestSummary` | src/commerce_agent/evaluation/runner.py:161-191 | at a return the attempts stored with a status are as many as counted, plus, for RUNNING, those whose executor raised a cancellation; nothing is pending or running iff since the launch no recorded answer had such a status and no executor raised a cancellation; results belong to succeeded attempts, and exactly the skipped tasks left no record |
| `RunnerSummaries.AttemptedIsRegistered` | src/commerce_agent/evaluation/runner.py:182-187 | the attempted episodes are the attempts the run registered without those whose executor raised a cancellation |
| `RunnerSummaries.RunningAtReturn` | src/commerce_agent/evaluation/_memory.py:71-99 | a history whose summary is returned while one attempt is stored as running |
| `RunnerSummaries.CancelledIsMissed` | src/commerce_agent/evaluation/runner.py:196-204 | a history whose summary is returned empty while the one attempt of a self-cancelled executor is stored as running |
| `ModelContracts.SortedSetCheck` | src/commerce_agent/context_builder/builder.py:336-341 | the comparison with sorted(set(...)) says exactly that the sequences increase strictly |
| `ModelContracts.UsageBalances` | src/commerce_agent/model/contracts.py:79-98 | a reported usage is accepted iff its counts are there and add up |
| `ContextBuilder.ValidateRequest` | src/commerce_agent/context_builder/builder.py:282-342 | accepts exactly the requests whose namespaces are allowed and whose history is closed, bound and increasing below the request; reports namespaces first |
| `ContextBuilder.DropOldGroups` | src/commerce_agent/context_builder/builder.py:201-206 | the first loop drops the oldest groups and keeps the rest |
| `ContextBuilder.SummariseResults` | src/commerce_agent/context_builder/builder.py:208-226 | the nested loops summarise the first raw results until the candidate fits |
| `ContextBuilder.KeepLatestEvidence` | src/commerce_agent/context_builder/builder.py:228-241 | the two loops keep and drop exactly what the specification says |
| `ContextBuilder.Build` | src/commerce_agent/context_builder/builder.py:189-280 | the trimming part of build returns what the three staged functions say, or one of the two errors |
| `ContextTheorems.CutExact` | src/commerce_agent/context_builder/builder.py:201-206 | the retained history is the longest suffix that fits, never below the minimum unless the input was; both directions |
| `ContextTheorems.SqueezeExact` | src/commerce_agent/context_builder/builder.py:208-226 | exactly the shortest prefix of the raw results that makes the request fit is summarised, or all of them; both directions |
| `ContextTheorems.RawsExact` | src/commerce_agent/context_builder/builder.py:208-218 | the raw results are met all and in order |
| `ContextTheorems.FirstSummarisedExact` | src/commerce_agent/context_builder/builder.py:151-159 | a result is summarised iff it is among the first j raw ones; nothing else of its group changes |
| `ContextTheorems.KeptExact` | src/commerce_agent/context_builder/builder.py:228-239 | the evidence stage keeps exactly the items no later item of the same identity follows, in order |
| `ContextTheorems.OnePerIdentity` | src/commerce_agent/context_builder/builder.py:228-239 | every identity survives, once |
| `ContextTheorems.StagesInOrder` | src/commerce_agent/context_builder/builder.py:201-245 | a later stage fires only when the earlier one is exhausted |
| `ContextTheorems.ErrorExact` | src/commerce_agent/context_builder/builder.py:247-251 | the budget error is raised iff no candidate of any stage fits |
| `ContextTheorems.NothingUnaccounted` | src/commerce_agent/context_builder/builder.py:253-272 | groups removed and kept are the input in two parts; two increasing lists of positions share out the evidence, one carried and one reported as removed, the latter none or exactly the items a later one of their identity follows; the digests reported as compressed are those of the first raw results, and exactly these became summaries |
| `ContextTheorems.DigestsMatch` | src/commerce_agent/context_builder/builder.py:151-159 | the digest at each summarised place of a bundle is the one reported there, with the summary and error class of the result it stands for |
| `ContextTheorems.NothingOrEverything` | src/commerce_agent/context_builder/_tokens.py:95-120 | with the provisioned estimator the second stage summarises nothing or everything, the evidence stage then runs too, and hashing never changes the estimate |
| `ContextTheorems.TrimmedHistoryOk` | src/commerce_agent/context_builder/builder.py:323-341 | trimming and summarising keep every history check true |
| `ContextTheorems.HistoryExactly` | src/commerce_agent/context_builder/builder.py:323-341 | a history is accepted iff each group is closed and of the attempt and the sequences rise below the request's |
| `ContextTheorems.ClosedExactly` | src/commerce_agent/model/contracts.py:237-257 | an exchange is closed iff its one to eight calls are answered in order under the same ids and names and its turn expects these ids |
| `ContextTheorems.BuiltHistoryOk` | src/commerce_agent/model/gateway.py:309-327 | a built bundle passes the gateway's history check, and building fails only over the budget or the hashes |
| `TurnStore.SavedResolves` | src/commerce_agent/model/_turn_store.py:125-193 | a saved turn resolves under its own reference until expiry or idleness and under no altered one; other references are unaffected |
| `TurnStore.SavesExactly` | src/commerce_agent/model/_turn_store.py:125-156 | a turn is saved iff its payload has its digest and its attempt no turn of its sequence |
| `TurnStore.ResolvesExactly` | src/commerce_agent/model/_turn_store.py:158-193 | a reference resolves iff it names a stored, unexpired turn used within a day; only its use is renewed |
| `TurnStore.DeletesExactly` | src/commerce_agent/model/_turn_store.py:195-204 | deleting an attempt removes exactly its own turns |
| `TurnStore.SaveKeepsSound` | src/commerce_agent/model/_turn_store.py:128-144 | no attempt ever stores two turns of one sequence |
| `TurnStore.ResolveKeepsSound` | src/commerce_agent/model/_turn_store.py:189-193 | renewal keeps that and loses no turn |
| `TurnStore.InMemoryProviderTurnStore.SaveTurn` | src/commerce_agent/model/_turn_store.py:125-156 | a turn is stored under a fresh id, or refused for its digest or sequence |
| `TurnStore.InMemoryProviderTurnStore.ResolveTurn` | src/commerce_agent/model/_turn_store.py:158-193 | an exact, unexpired reference is resolved and renewed |
| `TurnStore.InMemoryProviderTurnStore.DeleteTurns` | src/commerce_agent/model/_turn_store.py:195-204 | the loop deletes exactly the turns of one scope and attempt |
| `Gateway.DelayBounded` | src/commerce_agent/model/_retry.py:19-42 | every delay lies between zero and the cap |
| `Gateway.DelayExactly` | src/commerce_agent/model/_retry.py:28-42 | a readable non-negative Retry-After is waited for, otherwise the doubled base plus jitter, never more than the cap |
| `Gateway.LastIsFirst` | src/commerce_agent/model/gateway.py:134-280 | the loop ends at the first attempt whose reply is not retried |
| `Gateway.DeepSeekModelGateway.ValidateRequest` | src/commerce_agent/model/gateway.py:281-327 | accepts exactly the capable requests whose history is bound and increasing; a history error only for a bad history |
| `Gateway.DeepSeekModelGateway.EncodeHistory` | src/commerce_agent/model/gateway.py:329-336 | every private turn of the history is resolved in order; turns of other attempts stay as they are |
| `Gateway.DeepSeekModelGateway.ParseCalls` | src/commerce_agent/model/gateway.py:430-440 | the loop accepts exactly the lists whose calls are all well formed |
| `Gateway.DeepSeekModelGateway.Attempts` | src/commerce_agent/model/gateway.py:134-280 | one request for each reply up to the last, a summary for each unless the last one is refused by its contract, and a total sleep that is the sum of the waits, at most (n - 1) times the cap |
| `Gateway.DeepSeekModelGateway.Complete` | src/commerce_agent/model/gateway.py:130-280 | attempts, sleep, response and stored turns of one completion, from validation to the saved turn; other attempts' turns untouched |
| `GatewayTheorems.AttemptsAreBounded` | src/commerce_agent/model/gateway.py:134-280 | attempts are numbered 1..n with n at most the maximum, every one but that of the last request is retryable, and the last is not retried, so the trailing assertion is unreachable |
| `GatewayTheorems.ExhaustedOrFinal` | src/commerce_agent/model/_retry.py:26-27 | a retryable final attempt is the last one allowed, or its header made the comparison raise |
| `GatewayTheorems.ResponseMeetsRules` | src/commerce_agent/model/contracts.py:382-401 | every response built meets the response consistency rules |
| `GatewayTheorems.RulesExactly` | src/commerce_agent/model/contracts.py:382-401 | the response rules in full |
| `GatewayTheorems.OneTurnOrNone` | src/commerce_agent/model/gateway.py:266-279 | a response comes with exactly one stored turn, the one its reference resolves to; a failure with none unless it is the refusal of the response |
| `GatewayTheorems.RefusedExactly` | src/commerce_agent/model/gateway.py:267-279 | exactly when the response is refused after its turn was stored |
| `GatewayTheorems.ErrorFlagExact` | src/commerce_agent/model/gateway.py:547-587 | exactly when the error's retryable flag disagrees with its last attempt's |
| `GatewayTheorems.ReplayOnlyRenews` | src/commerce_agent/model/gateway.py:334-336 | replaying renews the turns referenced and touches no other |
| `GatewayTheorems.RetriedExactly` | src/commerce_agent/model/gateway.py:134-228 | which replies lead to another attempt |
| `GatewayTheorems.RejectionNamed` | src/commerce_agent/model/gateway.py:547-587 | the error a rejection ends in, by its status, and its retryable flag |
| `GatewayTheorems.FailureNamed` | src/commerce_agent/model/gateway.py:139-231 | the error any other undelivered reply ends in |
| `GatewayTheorems.SummaryExactly` | src/commerce_agent/model/gateway.py:476-504 | a charge is in doubt iff the provider was reached and answered neither with a status nor with a usable response; usage and cost are recorded iff readable |
| `GatewayTheorems.ReadsExactly` | src/commerce_agent/model/gateway.py:413-445 | a body is read iff it is of the expected model and its message usable, and its output is the message's text or calls, one by one |
| `GatewayTheorems.TurnExactly` | src/commerce_agent/model/gateway.py:446-474 | the private turn is bound to the request, expects exactly the calls, weighs the completion tokens and lasts a week |
| `BirdSession.BirdSessionStatePort.GateBudget` | src/commerce_agent/orchestration/bird_server.py:231-253 | the charge, the free exit and the rejection are those of the specification |
| `BirdSession.BirdSessionStatePort.ApplySubmitState` | src/commerce_agent/orchestration/bird_server.py:289-314 | the phase flags, the reward and the last result after a submission |
| `BirdSession.BirdSessionStatePort.Execute` | src/commerce_agent/orchestration/bird_server.py:218-229 | one call through the port is one step of the session log |
| `BirdSessionTheorems.CoinConservation` | src/commerce_agent/orchestration/bird_server.py:231-253 | from a budget of B the remainder is -1 or within 0..B, and while it is not negative B minus it is the cost of all forwarded calls |
| `BirdSessionTheorems.BudgetFalls` | src/commerce_agent/orchestration/bird_server.py:231-253 | over a whole session the budget never rises and the stop signal stays |
| `BirdSessionTheorems.StepSpends` | src/commerce_agent/orchestration/bird_server.py:231-253 | a forwarded call is paid, a submission, or outside the catalogue; a rejected one changes nothing |
| `BirdSessionTheorems.UnpaidExactly` | src/commerce_agent/orchestration/bird_server.py:232-249 | a call is forwarded free of charge iff it is outside the catalogue, and forwarded short of its price iff it is a submission |
| `BirdSessionTheorems.StoppingStays` | src/commerce_agent/orchestration/bird_server.py:289-314 | task_done and the stop signal are never taken back |
| `BirdSessionTheorems.NoCallAfterStop` | src/commerce_agent/orchestration/bird_a_graph.py:127-138 | once the budget is negative or the task is done no later model call happens in any run of the session |
| `BirdSessionTheorems.StopReasonExact` | src/commerce_agent/orchestration/bird_server.py:368-405 | which stop reason is given when; the ablation reason wins over both official ones |
| `BirdSessionTheorems.SubmissionsDecide` | src/commerce_agent/orchestration/bird_server.py:289-314 | at every point of a session the task is done iff some submission passed the second phase, or the first with nothing to follow; the phases, the reward and the last verdict are those of the submissions |
| `BirdSessionTheorems.GateExactly` | src/commerce_agent/orchestration/bird_server.py:231-253 | a call is refused iff its price is above what is left and it is no submission; what can be paid is paid in full, and a submission that leaves nothing signals the stop |
| `BirdSessionTheorems.PricesExactly` | tests/fixtures/bird/official-contract.v1.json:46-84 | the catalogue of prices |
| `BirdGraph.BirdAGraph.RunTools` | src/commerce_agent/orchestration/bird_a_graph.py:167-170 | the calls of a turn are executed in order up to the first that raises; the session log and each result are exactly those of the gate and the tool |
| `BirdGraph.BirdAGraph.BuildBundle` | src/commerce_agent/orchestration/bird_a_graph.py:113-126 | the bundle is what the context builder makes of the exchanges so far and the evidence, unless a namespace is not allowed; the history checks always pass |
| `BirdGraph.BirdAGraph.BeginTurn` | src/commerce_agent/orchestration/bird_a_graph.py:113-153 | a turn asks the model with the bundle built in it, or ends before: over budget iff the stages are exhausted on its exchanges |
| `BirdGraph.BirdAGraph.RequestsCarry` | src/commerce_agent/orchestration/bird_a_graph.py:113-139 | each request carries its bundle's history and the binding and number of its turn |
| `BirdGraph.AskedWithinBudget` | src/commerce_agent/orchestration/bird_a_graph.py:113-139 | every bundle the model was asked with fits the budget |
| `BirdGraph.AskedAccounted` | src/commerce_agent/orchestration/bird_a_graph.py:113-139 | and is accounted for against the exchanges of the turns before: groups, results and evidence |
| `BirdGraph.SameEvidenceExactly` | src/commerce_agent/orchestration/bird_a_graph.py:174-188 | two batches count as repeated iff their calls agree in names and arguments and their results in digests |
| `BirdGraph.RefusalAnswers` | src/commerce_agent/orchestration/bird_server.py:241-248 | a refused call is answered under its own id and name |
| `BirdGraph.BirdAGraph.AskModel` | src/commerce_agent/orchestration/bird_a_graph.py:139-152 | a completion happens only where the gate lets it, answers with the bound sequence, and never fails on the history |
| `BirdGraph.BirdAGraph.UseTools` | src/commerce_agent/orchestration/bird_a_graph.py:154-194 | which way a batch ends, exactly: over the limit, failed with the first call that raises, repeated evidence, not closed iff a tool answered under another id or name, or a new exchange |
| `BirdGraph.BirdAGraph.RunAttempt` | src/commerce_agent/orchestration/bird_a_graph.py:90-239 | the loop ends within its limits; exchange i carries sequence i, scope, attempt and closed ids; outcome, error and counts are explained by the responses heard; however it ends, the session log is, turn by turn, one model call and then its tool calls, the last batch cut after a call that raised; the requests made are those of the bundles built in their turns; it ends over budget iff the stages are exhausted on its exchanges; the binding and finish errors never surface |
| `BirdGraph.BirdAGraph.Run` | src/commerce_agent/orchestration/bird_a_graph.py:74-88 | however the attempt ends, by a tool exception too, exactly its private turns are gone and all others are as before |
| `BirdGraph.DeletingErases` | src/commerce_agent/model/_turn_store.py:195-204 | deleting after the run leaves the other attempts' turns of before the run |
| `JsonText.IntReads` | src/commerce_agent/operations/_canonical.py:73-79 | the text of an integer is read back, whatever follows that is no digit |
| `JsonText.QuotedReads` | src/commerce_agent/operations/_canonical.py:73-79 | a quoted string (escapes of section 7 of RFC 8259) is read back exactly |
| `CanonicalTheorems.CanonicalExactly` | src/commerce_agent/operations/_canonical.py:48-67 | normalising succeeds iff no key is non-string and no value naive, decimal, float or unsupported, and yields a proper value |
| `CanonicalTheorems.WriteReads` | src/commerce_agent/operations/_canonical.py:70-79 | every printed value is read back to the same tree |
| `CanonicalTheorems.NormalMeans` | src/commerce_agent/operations/_canonical.py:76-76 | sorting keys at every depth keeps the meaning |
| `CanonicalTheorems.NormalUnique` | src/commerce_agent/operations/_canonical.py:76-76 | two sorted values with one meaning are one value |
| `CanonicalTheorems.PrintDecidesMeaning` | src/commerce_agent/operations/_canonical.py:70-79 | two values print alike iff they are the same JSON value, keys in any order |
| `CanonicalTheorems.PrintedReadsBack` | src/commerce_agent/operations/_canonical.py:70-79 | the printed text reads back to the value, and re-printing reproduces it |
| `CanonicalCommandTheorems.QuantizedClose` | src/commerce_agent/operations/_canonical.py:38-45 | quantising moves a ratio by at most half a unit of the fourth place |
| `CanonicalCommandTheorems.CommandDecides` | src/commerce_agent/operations/_canonical.py:82-172 | two commands project to one JSON value iff they agree with instants cut to the second and ratios to four places |
| `CanonicalCommandTheorems.PayloadDecides` | src/commerce_agent/operations/_canonical.py:175-194 | two payloads are equal iff schema version, target versions and the commands so rounded are |
| `CanonicalFields.CommandFields` | src/commerce_agent/operations/_canonical.py:82-172 | a command projects to its variant's fields and the three common ones and no others, each holding the part it is named for |
| `CanonicalFields.PayloadObject` | src/commerce_agent/operations/_canonical.py:175-194 | the payload holds the command, the schema version and the target versions under their names |
| `CanonicalFields.DecimalReads` | src/commerce_agent/operations/_canonical.py:38-45 | a ratio is written with four decimals that read back to its ten-thousandths |
| `CanonicalFields.QuantizedNearest` | src/commerce_agent/operations/_canonical.py:38-45 | which are the nearest, ties to the even ones |
| `CanonicalFields.SecondHolds` | src/commerce_agent/operations/_canonical.py:32-36 | an instant is cut to the second it lies in |
| `CanonicalCommandTheorems.DistinctCommandsOnePayload` | src/commerce_agent/operations/commands.py:33-40 | two valid rules whose thresholds differ in the fifth place share one payload |
| `SpoolImporter.GroupSessions` | src/commerce_agent/evaluation/spool_importer.py:268-270 | the loop collects each key's sessions, keys in order of appearance |
| `SpoolImporter.GroupAttempts` | src/commerce_agent/evaluation/spool_importer.py:271-273 | the loop collects each key's attempts |
| `SpoolImporter.AssignGroup` | src/commerce_agent/evaluation/spool_importer.py:278-303 | the shortcut, the group without candidates and the general loop all place by one rule |
| `SpoolImporter.AssignAttempts` | src/commerce_agent/evaluation/spool_importer.py:262-308 | with distinct attempt ids the grouped loops place every session by the one rule |
| `SpoolImporter.RunBindsWell` | src/commerce_agent/evaluation/spool_importer.py:249-259 | each bound pair agrees on experiment, task and mode and lies in the window |
| `SpoolTheorems.GroupedIsPermutation` | src/commerce_agent/evaluation/spool_importer.py:268-275 | grouping only reorders the sessions |
| `SpoolTheorems.EverySessionPlaced` | src/commerce_agent/evaluation/spool_importer.py:262-308 | every session ends in exactly one of the three places and no binding overwrites another |
| `SpoolTheorems.PlacedExactly` | src/commerce_agent/evaluation/spool_importer.py:291-303 | a session is bound iff one attempt of its key was free and in its window, unassigned iff none was, ambiguous iff two were |
| `SpoolTheorems.WindowExactly` | src/commerce_agent/evaluation/spool_importer.py:249-259 | a session lies in a window iff it has no instant or its last one is within the attempt's start and end, give or take the grace |
| `PilotSelection.Stratify` | scripts/prepare_bird_pilot.py:238-241 | the loop collects each database's tasks in pool order |
| `PilotSelection.OneRound` | scripts/prepare_bird_pilot.py:244-247 | a pass picks in database order, never beyond the count, and picks something while anything is left |
| `PilotSelection.RoundRobin` | scripts/prepare_bird_pilot.py:242-247 | the nested loops end with exactly min(per_mode, pool) picks, zero for a count of zero or less, each stratum having given a prefix as long as its turns |
| `PilotSelection.SelectMode` | scripts/prepare_bird_pilot.py:233-247 | one mode selects exactly the smaller of what is asked and the pool |
| `PilotSelection.FairShares` | scripts/prepare_bird_pilot.py:243-247 | no database is more than one pick ahead of another unless the other is exhausted, and an earlier one is never behind unless exhausted |
| `PilotSelection.RoundByRound` | scripts/prepare_bird_pilot.py:243-247 | the picks come round by round, and within a round in database order |
| `PilotSelection.PrefixOfEach` | scripts/prepare_bird_pilot.py:247-247 | each database gives a prefix of its list, in order |
| `PilotSelection.StrataHoldPool` | scripts/prepare_bird_pilot.py:239-241 | the strata hold the whole pool |
| `Backtest.RoundedNearest` | src/commerce_agent/operations/_backtest.py:173-177 | the rounded value is within half a millionth, ties to the even neighbour |
| `Backtest.NearestUnique` | src/commerce_agent/operations/_backtest.py:173-177 | that determines the rounded value |
| `Backtest.RoundedMonotone` | src/commerce_agent/operations/_backtest.py:173-177 | rounding is monotone in the ratio across denominators |
| `Backtest.RoundedInUnit` | src/commerce_agent/operations/_backtest.py:173-177 | a ratio of at most one rounds to at most one |
| `Backtest.GreaterThanExact` | src/commerce_agent/operations/_backtest.py:180-181 | when the strict test on the rounded value hits, exactly; never a false hit |
| `Backtest.GreaterOrEqualExact` | src/commerce_agent/operations/_backtest.py:182-183 | when the weak test hits, exactly; never a miss |
| `Backtest.HitsAreSound` | src/commerce_agent/operations/_backtest.py:160-192 | exclusions, value range and soundness of a window result together |
| `Backtest.EvaluatesExactly` | src/commerce_agent/operations/_backtest.py:160-192 | which exclusion applies, the nearest millionth otherwise, and exactly when a window is a hit |
| `Backtest.ValidateOrder` | src/commerce_agent/operations/_backtest.py:142-157 | the loop accepts exactly windows that are sane, pairwise disjoint and in order |
| `Backtest.InMemoryBacktestRegistry.Add` | src/commerce_agent/operations/_backtest.py:202-203 | the name of the snapshot then resolves to it and every other name to what it did before; a registry filed from a list becomes the one filed from the list with the snapshot appended |
| `Backtest.ResolvesToLast` | src/commerce_agent/operations/_backtest.py:195-203 | a name resolves iff a snapshot was filed under it, and then to the last one that was |
| `Backtest.SameHitsExactly` | src/commerce_agent/operations/_backtest.py:95-109 | two rules of one name agree on every window of both ranges iff their thresholds are equal |
| `Backtest.SameAnswersExactly` | src/commerce_agent/operations/_backtest.py:95-109 | two rules of one name accept and answer every window alike iff they are the same rule |
| `Backtest.NameDetermines` | src/commerce_agent/operations/_backtest.py:104-104 | among rules with whole-second ranges and four-place thresholds the name determines the rule |
| `Backtest.OthersAreShared` | src/commerce_agent/operations/_backtest.py:95-109 | every rule outside that class shares its name with one inside it |
| `Backtest.OneNameTwoAnswers` | src/commerce_agent/operations/_backtest.py:95-109 | two rules of one specification hash that disagree on a window |
| `ProductSql.ProductDatabase.CreateOperationProposal` | db/migrations/versions/0004_day4_product_operations.py:238-317 | the proposal rows after the function, statement by statement, with rollback |
| `ProductSql.ProductDatabase.ExecuteCommand` | db/migrations/versions/0004_day4_product_operations.py:103-209 | replay, authorisation, nonce claim, mutation and audit of a command, all or nothing |
| `ProductSql.ProductDatabase.ResetProductScenario` | db/migrations/versions/0004_day4_product_operations.py:785-801 | the eleven deletes leave exactly the rows of the other scenarios |
| `ProductSqlInvariants.IndexIsImplied` | db/migrations/versions/0004_day4_product_operations.py:2011-2018 | the guards of the function already imply the unique index on live versions |
| `ProductSqlSafety.MutateKeeps` | db/migrations/versions/0004_day4_product_operations.py:1117-1443 | every command mutation keeps references within a scenario and tasks, risks and conclusions coupled |
| `ProductSqlSafety.RunInv` | db/migrations/versions/0004_day4_product_operations.py:238-801 | the whole invariant holds in every state reachable by the functions, resets and direct audit calls included |
| `ProductSqlApproval.ExecutedInTime` | db/migrations/versions/0004_day4_product_operations.py:133-184 | every execution was committed while its nonce and proposal were unexpired, by the approver of its decision, as the command proposed, under a nonce made out for the proposal's payload and target versions |
| `ProductSqlApproval.RefusedUnlessPresented` | db/migrations/versions/0004_day4_product_operations.py:133-184 | a call for an unexecuted version that does not present its approval in time is refused and changes nothing |
| `ProductSqlApproval.ExpiredIsRefused` | db/migrations/versions/0004_day4_product_operations.py:154-184 | at or after the expiry of the nonce or the proposal every call for an unexecuted version is refused |
| `ProductSqlApproval.PresentedPerforms` | db/migrations/versions/0004_day4_product_operations.py:133-209 | a call that presents the approval fails only where its command does |
| `ProductSqlApproval.ExecutionsCommitted` | db/migrations/versions/0004_day4_product_operations.py:163-209 | every execution on record was committed by a call that presented the approval, at the time it carries |
| `ProductSqlApproval.RevisedByRequester` | db/migrations/versions/0004_day4_product_operations.py:259-275 | a version is revised by the requester of the one before; risk cases, and no others, name a seller |
| `ProductSqlEffects.RowsAreTold` | db/migrations/versions/0004_day4_product_operations.py:1117-1443 | in every reachable state tasks, risks, conclusions and rules are as the committed calls said last: status, assignee, version, disposition |
| `ProductSqlEffects.ExecutionVersions` | db/migrations/versions/0004_day4_product_operations.py:188-200 | an execution carries the versions its call took its target between |
| `ProductSqlEffects.CommittedCallsFit` | db/migrations/versions/0004_day4_product_operations.py:1117-1443 | every committed call fitted the rows it found, under the approved target versions |
| `ProductSqlEffects.MutatesExactly` | db/migrations/versions/0004_day4_product_operations.py:1117-1443 | a mutation is carried out exactly where it fits |
| `ProductSqlEffects.FilesExactly` | db/migrations/versions/0004_day4_product_operations.py:238-317 | a repeated request is answered iff it asks what was filed; a new version is filed, as asked, iff it may be |
| `ProductSqlEffects.DecidesExactly` | db/migrations/versions/0004_day4_product_operations.py:340-401 | a version is decided iff it may be, and what is then on record |
| `ProductSqlEffects.RulesAreMatched` | db/migrations/versions/0004_day4_product_operations.py:1225-1290 | a rule names a stored backtest of its own specification, and no two rules one backtest |
| `ProductSqlSafety.AppendChangesNothing` | db/migrations/versions/0004_day4_product_operations.py:733-773 | a direct audit call never adds an event |
| `ProductSqlSafety.EachDeleteIsSafe` | db/migrations/versions/0004_day4_product_operations.py:790-800 | after each single delete no surviving row references a deleted one |
| `ProductSqlTheorems.ResetIsReferentiallySafe` | db/migrations/versions/0004_day4_product_operations.py:785-801 | in every reachable state references stay within one scenario, and after each delete of a reset they are intact |
| `ProductSqlTheorems.ResetRemovesTheScenario` | db/migrations/versions/0004_day4_product_operations.py:785-801 | the rows left after a reset are exactly the rows of other scenarios, unchanged |
| `ProductSqlTheorems.OneLiveVersion` | db/migrations/versions/0004_day4_product_operations.py:259-281 | every version below another of its proposal is superseded, without decision or execution; at most one version is live and it is the highest |
| `ProductSqlTheorems.DecisionsAreExact` | db/migrations/versions/0004_day4_product_operations.py:340-401 | a decision exists iff approved or rejected, by another actor; executions only of approved versions |
| `ProductSqlTheorems.ExecutionsNoncesAudits` | db/migrations/versions/0004_day4_product_operations.py:158-204 | executions, claimed nonces and audit events are one for one |
| `ProductSqlTheorems.LostCommitRecovered` | src/commerce_agent/operations/_postgres.py:210-215 | after a commit that was not acknowledged, the same call answers with the committed receipt and changes nothing, until its scenario is reset |
| `ProductSqlTheorems.RaceLoserGetsReceipt` | src/commerce_agent/operations/_postgres.py:886-899 | the loser of a race writes nothing and reads the winner's receipt |
| `ProductSqlTheorems.VersionsAreDense` | db/migrations/versions/0004_day4_product_operations.py:259-281 | while no revision crosses scenarios, versions are 1..latest in every reachable state, resets included |
| `ProductSqlTheorems.ResetDenseExactly` | db/migrations/versions/0004_day4_product_operations.py:785-801 | a reset keeps versions dense iff it removes none below one it leaves |
| `ProductSqlTheorems.EveryResetDenseExactly` | db/migrations/versions/0004_day4_product_operations.py:785-801 | every reset keeps versions dense iff no proposal spans two scenarios |
| `ProductSqlTheorems.CrossingLeavesAGap` | db/migrations/versions/0004_day4_product_operations.py:265-281 | after a committed revision a reset leaves a gap it did not leave before iff it is of the scenario of the version revised and the revision is in another |
| `ProductSqlTheorems.ResetLeavesAGap` | db/migrations/versions/0004_day4_product_operations.py:265-268 | a run in which a version revised in another scenario survives without its predecessor |

## Left out

- Operation commands carry in `Operations` only what the protocol acts on; their texts, references and ratios are in `CanonicalCommand`.
- Reference validation before a proposal is filed, seller references and their signatures.
- OperationWorkflow.ExecutionRead: instants are integers, so two grants that differ only in how their instants are written, in the time zone say, are one grant here, while the digest the source compares tells them apart.
- OperationWorkflow.Decided: the grant, the decision and the approval are dated by one reading of the clock, where the source reads it twice; the store's own reading is a separate one.
- A grant's nonce text and its raw bytes are one value; the key ring is a set of key versions.
- The evaluation runner's event log, its file output and telemetry merging.
- Distinct pairs of task and mode in the task list, and a single live runner for each experiment, are assumed as the repository does without checking them.
- Executors that swallow the cancellation of an abandoned task.
- CanonicalJson.Canonical: an instant's calendar text is replaced by the text of its second count followed by Z, which is injective on whole seconds as the original is.
- CanonicalJson.Read: reads the compact form that printing produces, not white space or fractions; text and UTF-8 bytes are one value.
- CanonicalCommand.DecimalText: ratios are non-negative millionths, so negative zero is not modelled.
- Backtest.Rounded: divides exactly, without the 28-digit precision of the decimal type.
- Coins are reals, not floating-point numbers.
- Gateway.ParseOutput: arguments arrive parsed or not parsed; their canonical text and the length limits of the provider's names are the model's, the request body and the diagnostic log are not.
- Gateway.SummaryOf: the gateway's clock is taken not to run backwards between sending and completion, which the summary's contract would refuse.
- Attempt guards of the gateway, which by default do nothing; price calculation is a parameter.
- Tokenizer vocabulary and rendering: the public part of the provisioned estimator is a parameter.
- Profile registry, revision checks and audit hashes of the context builder.
- The passive mode of the benchmark session and its clarification budget: a single counter compared with a limit.
- The session's trajectory, dialogue history and texts.
- Scanning spool files: field checks line by line.
- The pilot script's dataset reading, shuffling and file output; a shuffled pool and sorted database names are parameters.
- Metric definitions and observation queries of the backtester.
- SQL null arguments, pattern checks and length limits; two functions running at once appear as the race between the execution lookup and the insert.
- ProductSql.Perform: the execution row is inserted already complete, where the function inserts it as not started and completes it before the commit.
- Read functions, views, roles, grants and row marshalling of the database adapter.
- HTTP, subprocess and front-end code, and the retail graph.
