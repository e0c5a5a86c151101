# Verified model of Orynelo's scheduler and diagnostic core

Orynelo diagnoses why a network target cannot be reached. This project models the parts of
it that are hard to get right by reading, and proves what they promise. Verify everything with
`dafny verify dfyconfig.toml`.

**The GUI task scheduler** (`Scope.dfy`, `Runner.dfy`, `TaskRunner*.dfy`). A `Runner` executes reads
under a slot limit and mutations one at a time; a `Scope` is a stream of replaceable operations with
an observer. `TaskRunner` is the whole program as a transition system in which one event is one mutex
section, channel operation, context signal or dispatcher callback of any thread. `ScopeModel.Scope` and
`RunnerModel.Runner` are the source's objects, one method per mutex section or channel operation: a scope's
methods are proved against the functions the transition system is built from, and each method of the runner is
proved to be one step of it. The invariant in `TaskRunnerInvariant` is inductive over every event (`StepInv`), and
the guarantees hold in every reachable state and over every run. `TaskRunnerClosing` says exactly what closing a
scope or the runner still lets through. `TaskRunnerEffects` spells out what each call and step achieves,
`TaskRunnerResults` traces every published result to the body that returned it, and `TaskRunnerUndisturbed` takes a
read from its start to the observer that receives its value. `TaskRunnerProgress` adds liveness in the form Dafny can state: no
reachable state is stuck, and until the next new call only a bounded number of background steps is taken,
whatever is interleaved with them, so a caller of `Wait` is released once task bodies return.

**The conclusion of a run** (`Summary.dfy`, `SummaryTheorems.dfy`, `SummaryTable.dfy`, `SummaryMeaning.dfy`). All rules that turn
check results into ranked candidates, the choice of the best one, and three theorems about arbitrary result
lists: plan order does not matter, exactly which observations make a run failed, and the whole procedure
equals a decision table of 25 levels read from the top. `SummaryMeaning` spells out the words of the rules over the
recorded statuses, codes and evidence, and says which results a conclusion is drawn from.

**The run pipeline** (`Engine*.dfy`, `WorkerPool.dfy`, `CheckRun.dfy`, `EventDelivery.dfy`,
`Correlation*.dfy`, `Diagnose.dfy`). The worker pool of one stage as a transition system, the event stream of
an executor, one check from the skip hook to its completed result, the bounded lossy event queue as a transition
system and as the object whose methods are its steps, the pass
that links results to the network path graph, and `Diagnose.RunDiagnosis`, which puts the three executors, the
marking of auxiliary preflights, correlation and summary together and proves that what comes out can be stored.

**Addresses** (`Addresses.dfy`): canonical forms, normalisation and selection, independent of resolver order.

**Stored text** (`Query.dfy`, `Timestamps.dfy`, `History.dfy`, `HistoryRuns.dfy`): redaction of query strings,
timestamps whose text order is time order, the retention rule built on them, and what it keeps over many saves.

Loops of the source are methods with invariants, proved against functions; objects with guarded fields are
classes; concurrent protocols are transition systems with histories.

## What the code does not do

Four promises do not hold without a condition. The code is modelled as it is and the exact condition is proved.

- `internal/diagnostics/summary/summary.go:53-56` says that a weaker conclusion cannot hide a blocker. Among
  candidates this is so (`FailedIffBlocker`), but a failed `environment` check that timed out is silenced by a
  failed direct preflight on a higher layer, which is itself excused when the HTTP request got through. The run
  is then not reported as failed (`EnvironmentTimeoutCanBeHidden`). `SilencedExactly` says for every such run and
  failed check exactly when the run is not reported as failed, and `HiddenOnlyByPreflight` that what supersedes the
  check is a failed direct preflight on a higher layer. When the HTTP request did not get through, nothing is hidden
  (`NoFailureHidden`).
- The engine replaces an empty check ID but not one made of white space, and the store refuses such a check: a
  result is storable exactly when its ID is not blank (`ExecutedStorable`, `BlankIDNotReplaced`).
- The comment on `Scope.Close` (`internal/gui/taskrunner/taskrunner.go:632-633`) promises to suppress all future
  observer delivery. The observer of a closed scope can still be called exactly when the dispatcher is at a call
  whose check had passed before the close (`ClosedScopeExactly`, with a reachable such state in
  `ObserverCallCanFollowClose`). `ClosedRunnerExactly` is the same for `Runner.Close`.
- Timestamps can be read back exactly when the year has four digits (`ParseInvertsFormat`), and text order is time
  order up to a year exactly when that year is at most 9999 (`OrderReachesExactly`).

Three smaller observations: the store holds the newest runs at all times exactly when no save moves a stored run
behind a deleted one, which saving an ID again with an earlier start can do (`StoreHoldsNewest`); after a drain time-out the drop count overstates by one exactly when no event is in the
sink (`TimeoutCount`); and for a non-HTTP address-matrix run through a proxy the kept results are marked auxiliary
while the streamed ones are not (`StreamedAsKept`).

## Model

| member | source | states |
|---|---|---|
| TaskRunnerTheorems.StepInv | internal/gui/taskrunner/taskrunner.go:195-687 | every atomic step of every thread keeps the scheduler's invariant: scopes, deliveries, queue, wake-ups, counters and shutdown |
| TaskRunnerTheorems.RunInv | internal/gui/taskrunner/taskrunner.go:195-687 | the invariant holds after every run, whatever the interleaving |
| TaskRunnerTheorems.NoLostWakeup | internal/gui/taskrunner/taskrunner.go:195-218 | a parked worker with queued work or a closed runner has a token, a submitter or a closer that will still signal; an exited worker left an empty queue and a closed runner |
| TaskRunnerTheorems.SingleLiveOperation | internal/gui/taskrunner/taskrunner.go:445-522 | a scope holds a cancel function exactly while loading; every other operation has a stopped context or a body that is over |
| TaskRunnerTheorems.LateReturnIgnored | internal/gui/taskrunner/taskrunner.go:538-544 | finish of an operation the scope no longer names changes no scope and posts no delivery |
| TaskRunnerTheorems.OneTerminalPerOperation | internal/gui/taskrunner/taskrunner.go:89-91 | in a scope's sequence of snapshots an operation ID has one loading state and at most one terminal state, directly after it |
| TaskRunnerTheorems.ReadBound | internal/gui/taskrunner/taskrunner.go:288-297 | after every run at most MaxConcurrentReads read bodies execute, although cancelled reads run their closure without a slot |
| TaskRunnerTheorems.SerialMutations | internal/gui/taskrunner/taskrunner.go:269-333 | accepted mutations are finished, then running, then queued, in order and without repetition; the wait group counts exactly the unfinished work |
| TaskRunnerTheorems.OneMutationBody | internal/gui/taskrunner/taskrunner.go:409-411 | two mutation bodies never run at once |
| TaskRunnerTheorems.LoadingAnnouncedFirst | internal/gui/taskrunner/taskrunner.go:483-520 | when a body runs, the delivery of its loading state has returned |
| TaskRunnerTheorems.ObserverTrace | internal/gui/taskrunner/taskrunner.go:666-687 | an observer receives real snapshots in strictly increasing revision order, never loading after the terminal state of an operation, in whatever order the dispatcher runs callbacks |
| TaskRunnerTheorems.ShutdownComplete | internal/gui/taskrunner/taskrunner.go:193-218 | when Close has returned every scope is closed and not loading, and every operation is cancelled or over |
| TaskRunnerTheorems.RunOlder | internal/gui/taskrunner/taskrunner.go:195-687 | snapshots, accepted mutations, finished and observed histories only grow, and closed scopes and a closed runner stay closed |
| TaskRunnerClosing.ClosedRunnerAcceptsNothing | internal/gui/taskrunner/taskrunner.go:269-278 | after the runner is closed no operation of either class gets further than being refused |
| TaskRunnerClosing.ClosedScopeExactly | internal/gui/taskrunner/taskrunner.go:632-687 | the observer of a closed scope can still be called if and only if the dispatcher is at a call of it whose check had passed |
| TaskRunnerClosing.ClosedScopeSilent | internal/gui/taskrunner/taskrunner.go:632-664 | after a scope is closed its observer receives at most that one call |
| TaskRunnerClosing.ClosedRunnerExactly | internal/gui/taskrunner/taskrunner.go:671-683 | a closed runner can still call an observer if and only if a callback has passed both checks, or the runner's and would pass its scope's |
| TaskRunnerClosing.ClosedRunnerSilent | internal/gui/taskrunner/taskrunner.go:671-677 | after the runner is closed at most the callback being run is still observed |
| TaskRunnerClosing.ObserverCallCanFollowClose | internal/gui/taskrunner/taskrunner.go:632-687 | a reachable state in which a closed scope is about to be observed |
| TaskRunnerProgress.Progress | internal/gui/taskrunner/taskrunner.go:269-333 | no deadlock: unless all accepted work is done a background step is enabled |
| TaskRunnerProgress.BackgroundStepsEnd | internal/gui/taskrunner/taskrunner.go:269-343 | until the next new call the number of background steps is bounded by a rank of the state, whatever cancellations, closes of scopes and dispatcher steps are interleaved |
| TaskRunnerProgress.WaitTerminates | internal/gui/taskrunner/taskrunner.go:220-228 | from every reachable state a run without new calls has boundedly many background steps, and when none is left every accepted operation has finished and, after Close, the worker has ended |
| TaskRunnerUndisturbed.ReadReachesObserver | internal/gui/taskrunner/taskrunner.go:445-687 | from every reachable state with an open watched scope and a free slot a read can be run whose value, whatever it is, its observer receives next as a success with the scope's next ID |
| TaskRunnerResults.ResultsAreReturned | internal/gui/taskrunner/taskrunner.go:485-573 | over every run, each success or error a scope publishes carries the value and error that a body of that operation returned |
| TaskRunnerEffects.StartRefused | internal/gui/taskrunner/taskrunner.go:453-461 | a start changes nothing exactly when the scope is closed, or it is exclusive and a mutation is loading |
| TaskRunnerEffects.StartTakesOver | internal/gui/taskrunner/taskrunner.go:462-482 | otherwise a new operation with the next ID is loading and the one it replaces has a stopped context |
| TaskRunnerEffects.ScheduleAccepts | internal/gui/taskrunner/taskrunner.go:274-299 | an open runner accepts every operation, a mutation at the end of the queue and a read waiting for a slot |
| TaskRunnerEffects.ScheduleRefuses | internal/gui/taskrunner/taskrunner.go:505-514 | a closed one refuses it and leaves the scope closed with the operation cancelled |
| TaskRunnerEffects.GateLetsThrough | internal/gui/taskrunner/taskrunner.go:487-494 | the body runs exactly when the context is live at the gate, otherwise the operation finishes with the context's error |
| TaskRunnerEffects.TakeRunsFirst | internal/gui/taskrunner/taskrunner.go:322-325 | the worker runs the first queued mutation |
| TaskRunnerEffects.FinishPublishes | internal/gui/taskrunner/taskrunner.go:538-573 | the loading operation publishes the value its task returned, with the state and error that follow from the task's error and the context |
| TaskRunnerEffects.CancelStops | internal/gui/taskrunner/taskrunner.go:575-598 | Cancel stops and at once publishes a loading operation as cancelled and posts that; otherwise it does nothing |
| TaskRunnerEffects.InvalidateStops | internal/gui/taskrunner/taskrunner.go:600-630 | Invalidate stops the operation and leaves a fresh idle generation, without a delivery |
| TaskRunnerEffects.CloseStops | internal/gui/taskrunner/taskrunner.go:647-664 | close stops the operation and closes the scope, without a delivery |
| TaskRunnerEffects.DeliveryReachesDispatcher | internal/gui/taskrunner/taskrunner.go:667-671 | every deliver call hands its callback to the dispatcher exactly when the scope is watched |
| TaskRunnerEffects.CurrentIsObserved | internal/gui/taskrunner/taskrunner.go:671-686 | a pending callback that is still current reaches the observer when the dispatcher runs it |
| TaskRunnerEffects.StaleIsDropped | internal/gui/taskrunner/taskrunner.go:679-685 | a stale one does not |
| ScopeModel.TerminalState | internal/gui/taskrunner/taskrunner.go:546-557 | success and error exactly when the context had not stopped and the task returned no, or its own, error |
| ScopeModel.LifeMonotone | internal/gui/taskrunner/taskrunner.go:89-91 | operation IDs never go back in a scope's life |
| ScopeModel.CommitsAtMostOnce | internal/gui/taskrunner/taskrunner.go:538-573 | an operation ID commits at most one terminal snapshot |
| ScopeModel.Scope.BeginStart | internal/gui/taskrunner/taskrunner.go:453-482 | when a start is accepted, the new generation, and which context it cancels; an exclusive start changes nothing while a mutation loads |
| ScopeModel.Scope.RejectStart | internal/gui/taskrunner/taskrunner.go:505-514 | the state after the runner refused the task |
| ScopeModel.Scope.CommitFinish | internal/gui/taskrunner/taskrunner.go:539-573 | finish commits exactly for the loading current operation; context cancellation outranks the result |
| ScopeModel.Scope.CancelCurrent | internal/gui/taskrunner/taskrunner.go:577-598 | Cancel's whole effect, nothing unless loading |
| ScopeModel.Scope.InvalidateCurrent | internal/gui/taskrunner/taskrunner.go:604-630 | a fresh idle generation and the ID it returns |
| ScopeModel.Scope.CloseScope | internal/gui/taskrunner/taskrunner.go:648-664 | close's whole effect, idempotent |
| RunnerModel.Runner.Register | internal/gui/taskrunner/taskrunner.go:250-259 | is the step that registers a scope; refused exactly when no scope is added |
| RunnerModel.Runner.Schedule | internal/gui/taskrunner/taskrunner.go:269-287 | is the scheduling step: queue, wait group and refusal as in the transition system |
| RunnerModel.Runner.SignalMutationWorker | internal/gui/taskrunner/taskrunner.go:301-307 | is the signal step of a submitter or of Close; a token is there afterwards and none is added to one |
| RunnerModel.Runner.AwaitSignal | internal/gui/taskrunner/taskrunner.go:311 | is the worker's wake-up |
| RunnerModel.Runner.TakeMutation | internal/gui/taskrunner/taskrunner.go:313-325 | is the worker's critical section: the task it runs next, or parking, or leaving for good |
| RunnerModel.Runner.MutationDone | internal/gui/taskrunner/taskrunner.go:327-330 | is the step that ends a mutation |
| RunnerModel.Runner.AcquireReadSlot | internal/gui/taskrunner/taskrunner.go:290-291 | is the step that takes a read slot |
| RunnerModel.Runner.ReleaseReadSlot | internal/gui/taskrunner/taskrunner.go:292 | is the step that gives the slot back |
| RunnerModel.Runner.ReadTaskDone | internal/gui/taskrunner/taskrunner.go:289 | is the step that ends a read goroutine |
| RunnerModel.Runner.BeginClose | internal/gui/taskrunner/taskrunner.go:200-212 | the first call is the closing step and yields the scopes left to close, a later call changes nothing |
| RunnerModel.Runner.CheckRunner | internal/gui/taskrunner/taskrunner.go:671-677 | is the dispatcher's first check: the callback goes on exactly when it is taken up |
| RunnerModel.Runner.CheckScope | internal/gui/taskrunner/taskrunner.go:679-685 | is the dispatcher's second check: the observer is called exactly when the step says so |
| SummaryTheorems.OrderIndependent | internal/diagnostics/summary/summary.go:53-82 | for any permutation of results with distinct check IDs the status, title and recommendation are the same |
| SummaryTheorems.SameMembersSameDecision | internal/diagnostics/summary/summary.go:57-82 | the decision depends only on which results there are |
| SummaryTheorems.TiesAgree | internal/diagnostics/summary/summary.go:68-74 | two candidates with equal severity and priority say the same thing |
| SummaryTheorems.PieceUniform | internal/diagnostics/summary/summary.go:110-220 | every rank belongs to one rule, a rule says one thing, and blockers are exactly the failed candidates |
| SummaryTheorems.FailedIffBlocker | internal/diagnostics/summary/summary.go:53-82 | the conclusion is failed exactly when some candidate is a blocker |
| SummaryTheorems.FailedExactly | internal/diagnostics/summary/summary.go:110-220 | the conclusion is failed exactly when some result is one of the listed fatal observations |
| SummaryTheorems.TopFailure | internal/diagnostics/summary/summary.go:756-774 | the failure on the highest layer is never superseded |
| SummaryTheorems.NoFailureHidden | internal/diagnostics/summary/summary.go:162-171 | when HTTP did not get through, any failed check outside the auxiliary preflight makes the run failed |
| SummaryTheorems.NoOwnBlocker | internal/diagnostics/summary/summary.go:521-529 | when a failed check outside the preflights raises no blocker of its own, exactly |
| SummaryTheorems.SilencedExactly | internal/diagnostics/summary/summary.go:521-529 | when HTTP did get through, a run with a failed non-preflight check is not reported as failed if and only if that check is an environment time-out without an invalid proxy, superseded, and nothing else is fatal |
| SummaryTheorems.HiddenOnlyByPreflight | internal/diagnostics/summary/summary.go:756-795 | what supersedes such a check is a failed direct preflight on a higher layer |
| SummaryTheorems.EnvironmentTimeoutCanBeHidden | internal/diagnostics/summary/summary.go:756-774 | a concrete run with a failed environment check that is not reported as failed |
| SummaryTheorems.DecisionFinal | internal/diagnostics/summary/summary.go:57-82 | finished results give a storable status |
| SummaryTable.DecisionTable | internal/diagnostics/summary/summary.go:53-82 | gathering candidates and taking the best is the same as the first applicable line of a decision table stated over the results |
| SummaryTable.CandidateListed | internal/diagnostics/summary/summary.go:110-519 | every candidate's condition, status and verdict are what the table has at the level of its rank |
| SummaryTable.LevelOffered | internal/diagnostics/summary/summary.go:110-519 | every table line that applies is proposed as a candidate of that rank |
| SummaryTable.LevelsRank | internal/diagnostics/summary/summary.go:68-74 | table order is the ranking by severity, then priority |
| SummaryMeaning.OneFamilyConclusion | internal/diagnostics/summary/summary.go:239-260 | a conclusion that only one IP family works rests on a TCP warning with a successful attempt over that family and failed ones only over the other |
| SummaryMeaning.CandidateCites | internal/diagnostics/summary/summary.go:110-519 | every candidate cites the results its table line is about: the one check, all invalid-proxy results, or the request with its proxy and contradicting preflights |
| SummaryMeaning.ProxyUseSpelled | internal/diagnostics/summary/summary.go:86-97 | the request is taken to use a proxy as the HTTP result reports, or else as the environment check selected |
| SummaryMeaning.RouteSpelled | internal/diagnostics/summary/summary.go:349-352 | the wording is mixed, through proxy or plain by the reported route and the environment's selection |
| SummaryMeaning.ReachedSpelled | internal/diagnostics/summary/summary.go:98-99 | the request got through exactly when the first HTTP result passed or warned |
| SummaryMeaning.LayersSpelled | internal/diagnostics/summary/summary.go:776-795 | layers are the order target, environment, dns, route, tcp, tls, http |
| SummaryMeaning.ComparisonSpelled | internal/diagnostics/summary/summary.go:525-529 | a comparison probe is an auxiliary result, or a direct one beside a proxied request |
| SummaryMeaning.ExplainedSpelled | internal/diagnostics/summary/summary.go:756-774 | a time-out is explained exactly by a failure of a later stage that is no comparison probe |
| SummaryMeaning.RelevantSpelled | internal/diagnostics/summary/summary.go:162-171 | which failures and time-outs count, over recorded results only |
| SummaryMeaning.QuestionsSpelled | internal/diagnostics/summary/summary.go:143-173 | what each rule asks of a result, over its status, code and evidence |
| SummaryMeaning.ProxyOffSpelled | internal/diagnostics/summary/summary.go:485 | the proxy was disabled and HTTP, or without it TCP, got through |
| SummaryMeaning.WholeListSpelled | internal/diagnostics/summary/summary.go:575-602 | when all results are not applicable, and when only skipped ones are left |
| SummaryMeaning.TaintedSpelled | internal/diagnostics/summary/summary.go:100-106 | preflight failures are collected exactly when the request got through and some direct check failed |
| Summary.Build | internal/diagnostics/summary/summary.go:57-82 | reaches the decision the theorems are about, from an unbeaten candidate whose results, all and only, the references cover and whose first result it is about |
| Summary.ConclusionFromResults | internal/diagnostics/summary/summary.go:612-642 | the references cover the candidate's results, all and only, and the check named is the first result's |
| Summary.CollectFacts | internal/diagnostics/summary/summary.go:84-108 | the fact-gathering steps agree with their definition over the whole list |
| Summary.BuildCandidates | internal/diagnostics/summary/summary.go:110-220 | the appended candidates are the thirteen rules in source order |
| Summary.SelectBest | internal/diagnostics/summary/summary.go:68-74 | the loop finds the first candidate that no other beats |
| Summary.Best | internal/diagnostics/summary/summary.go:68-74 | the best candidate is one of them and unbeaten |
| Summary.TcpFamilies | internal/diagnostics/summary/summary.go:679-696 | per family, whether some recorded TCP attempt of that family succeeded and whether some failed, in terms of codes and details |
| Summary.ReferencesFromResults | internal/diagnostics/summary/summary.go:643-670 | references are non-empty, distinct, name only evidence or checks given, and cover every result |
| WorkerPool.StageRefinesLoop | internal/diagnostics/engine/engine.go:111-134 | in every interleaving each check runs exactly once and its result is at its place |
| WorkerPool.StageEqualsSequential | internal/diagnostics/engine/engine.go:111-134 | the stage returns what a sequential loop returns |
| WorkerPool.ConcurrencyBound | internal/diagnostics/engine/engine.go:42-48 | never more checks at once than there are, than the configured limit (4 without one), or than 32 |
| WorkerPool.ConcurrencyReached | internal/diagnostics/engine/engine.go:114-130 | some interleaving keeps exactly that many workers busy |
| WorkerPool.Progress | internal/diagnostics/engine/engine.go:118-133 | until the stage is done a step is possible |
| WorkerPool.StageTerminates | internal/diagnostics/engine/engine.go:118-133 | every interleaving is bounded and one that cannot go on is done |
| Engine.FlattenConcat | internal/diagnostics/engine/engine.go:302-308 | checks and sizes of joined plans join |
| Engine.Run | internal/diagnostics/engine/engine.go:58-109 | each position of the filled array holds the check's outcome if the context was live when its stage was reached, and a stopped result with the cause otherwise; the log is that of RunEvents |
| Engine.RunAnswers | internal/diagnostics/engine/engine.go:66-106 | the same for the results the theorems speak of |
| Engine.StoppedResult | internal/diagnostics/engine/engine.go:272-300 | status and code of a check that was not started, by the cause of the stop |
| Engine.RunStage | internal/diagnostics/engine/engine.go:66-106 | one stage writes only its own slice and logs starts before completions |
| EngineTheorems.CompletedInPlanOrder | internal/diagnostics/engine/engine.go:55-57 | one completed event per check in plan order, carrying the returned result and the executor's index |
| EngineTheorems.ResultsPlaced | internal/diagnostics/engine/engine.go:58-109 | the result at a position is the outcome of the check the plan has there if the context was live when its stage was reached, and its stopped result otherwise |
| EngineTheorems.LogSaysStage | internal/diagnostics/engine/engine.go:66-105 | where the earlier stages end, the log starts the stage's checks if the context was live and then completes them, with their IDs, statuses and indices |
| EngineTheorems.LogLength | internal/diagnostics/engine/engine.go:66-105 | the log holds no other events |
| EngineTheorems.FlattenAt | internal/diagnostics/engine/engine.go:55-57 | plan order is stage by stage |
| EngineTheorems.StartsPrecedeCompletions | internal/diagnostics/engine/engine.go:83-105 | a started event after a completed one belongs to a later check |
| EngineTheorems.OnlyCompletionsOnceStopped | internal/diagnostics/engine/engine.go:66-81 | from the first stage that finds the context stopped only completed events follow |
| EngineTheorems.SplitPlanAtCheck | internal/diagnostics/runner.go:555-565 | the cut preserves the plan and lies before the first stage with the check |
| EngineTheorems.SplitPlanAfterCheck | internal/diagnostics/runner.go:580-599 | the cut preserves the order of all checks and lies directly after the first occurrence of the check |
| EngineTheorems.SplitMandatoryPreflight | internal/diagnostics/runner.go:570-578 | the mandatory part ends with the first environment check, or the first target check when there is no environment check |
| CheckRun.Complete | internal/diagnostics/model/model.go:198-222 | given times are kept, finish is not before start, the duration is the difference, and evidence is only given an owner |
| CheckRun.SkipDirectCheck | internal/diagnostics/runner.go:668-727 | which checks are skipped, exactly, and the code, evidence and reference of each kind of skip |
| CheckRun.WithTimeout | internal/diagnostics/engine/engine.go:226-270 | some evidence states the time-out and its budget, other evidence is untouched |
| CheckRun.RunCheck | internal/diagnostics/engine/engine.go:136-224 | the steps of runCheck give the result the lemmas are about, with the verdict of ExecutedTold |
| CheckRun.ExecutedTold | internal/diagnostics/engine/engine.go:136-224 | a final verdict a check returned under a live context is kept with its evidence; status and code of every other case: stopped before, skipped, panicked, out of budget, deadline, cancelled, timed out, not final |
| CheckRun.ExecutedStorable | internal/diagnostics/engine/engine.go:136-224 | every result has a terminal status and a consistent clock and is storable exactly when its ID is not blank |
| CheckRun.BlankIDNotReplaced | internal/diagnostics/engine/engine.go:179-181 | a check that returns a blank ID spoils storage |
| CheckRun.TimeoutIsEvident | internal/diagnostics/engine/engine.go:205-216 | a check that exceeded its budget is failed and its evidence states the budget |
| CheckRun.ValidateDiagnosis | internal/storage/history.go:256-293 | the validation loop accepts exactly the storable diagnoses |
| CheckRun.AssembleStorable | internal/diagnostics/runner.go:252-255 | storable results under a forward clock make a storable run |
| CheckRun.ParseFailureStorable | internal/diagnostics/runner.go:120-142 | the run built for an unparsable target is storable |
| CheckRun.ParseFailureFailed | internal/diagnostics/runner.go:139-140 | and is reported as failed |
| CheckRun.MarkAuxiliary | internal/diagnostics/runner.go:628-651 | in place, exactly the direct checks get the role, and nothing the store validates changes |
| Diagnose.RunPhases | internal/diagnostics/runner.go:186-250 | over three executors the checks of the plan complete one by one in plan order with indices from 0, and only the auxiliary preflight is marked |
| Diagnose.LiveRunKeepsOutcomes | internal/diagnostics/runner.go:186-250 | under a context that never stops the checks' outcomes are kept in plan order, marked exactly where and when the source marks them |
| Diagnose.StreamCompletesInOrder | internal/diagnostics/runner.go:186-250 | event i of the stream completes check i with its ID and status |
| Diagnose.StreamedAsKept | internal/diagnostics/runner.go:222-241 | when streamed results and kept results carry the same marks, exactly |
| Diagnose.RunDiagnosis | internal/diagnostics/runner.go:179-261 | a run over checks with proper IDs under a forward clock passes the check, timing and status clauses of the store |
| Diagnose.OutcomeStorable | internal/diagnostics/runner.go:228-252 | marking and correlation leave storable results storable |
| EventDelivery.StepInv | internal/diagnostics/event_delivery.go:64-145 | every step of emitters, consumer and closer keeps the queue's invariant |
| EventDelivery.Accounting | internal/diagnostics/event_delivery.go:64-96 | emitted is delivered plus in flight plus queued plus lost, over all interleavings |
| EventDelivery.EmitAccepts | internal/diagnostics/event_delivery.go:64-76 | an event is queued behind the others exactly when the dispatcher is open and has room, otherwise it is counted as dropped |
| EventDelivery.LostExactly | internal/diagnostics/event_delivery.go:64-76 | over every run the lost events are those that came when it was closed or full |
| EventDelivery.ReceiveTakesOldest | internal/diagnostics/event_delivery.go:80-81 | the sink is handed the oldest queued event |
| EventDelivery.PanicsExactly | internal/diagnostics/event_delivery.go:87-96 | the panic counter is the number of panicking returns of the sink |
| EventDelivery.PanicsReported | internal/diagnostics/event_delivery.go:134-143 | and the report carries it |
| EventDelivery.StreamSafety | internal/diagnostics/event_delivery.go:64-96 | no send on the closed queue; the sink gets an in-order subsequence even when it panics |
| EventDelivery.NoticesIncrease | internal/diagnostics/event_delivery.go:98-113 | overflow notices carry strictly increasing counts within the total dropped |
| EventDelivery.DrainedReportExact | internal/diagnostics/event_delivery.go:125-140 | a finished drain reports exactly the undelivered events |
| EventDelivery.TimeoutCount | internal/diagnostics/event_delivery.go:128-133 | after a time-out the count never understates, and overstates by one exactly when no event is in the sink |
| EventDelivery.TimedOutReportNeverUnderstates | internal/diagnostics/event_delivery.go:134-140 | nor does the later report understate |
| EventDelivery.DrainDelivers | internal/diagnostics/event_delivery.go:78-85 | in every interleaving after the close, once the consumer has ended the sink has been handed everything that was queued, in order, and nothing else |
| EventDelivery.DropsAnnounced | internal/diagnostics/event_delivery.go:98-113 | every drop counted while the consumer was still listening has been announced when it ends |
| EventDelivery.EventDispatcher.EmitEvent | internal/diagnostics/event_delivery.go:64-76 | is the emission step |
| EventDelivery.EventDispatcher.ReceiveEvent | internal/diagnostics/event_delivery.go:80 | is the step that hands an event to the sink |
| EventDelivery.EventDispatcher.Recover | internal/diagnostics/event_delivery.go:87-96 | is the return of the sink, a panic counted |
| EventDelivery.EventDispatcher.DrainClosedQueue | internal/diagnostics/event_delivery.go:78-85 | the loop over a closed queue, by itself, is a run of the transition system that ends the consumer |
| EventDelivery.EventDispatcher.NextNotice | internal/diagnostics/event_delivery.go:98-106 | is the notice step: a notice is sent exactly when the step has one in hand, with its count |
| EventDelivery.EventDispatcher.CloseForGood | internal/diagnostics/event_delivery.go:119-124 | is the closing step, dispatcher and queue in one |
| EventDelivery.EventDispatcher.GiveUpDraining | internal/diagnostics/event_delivery.go:128-133 | is the time-out step, whose count TimeoutCount speaks of |
| EventDelivery.EventDispatcher.Stats | internal/diagnostics/event_delivery.go:134-140 | is the report step and returns the reported counts |
| Correlation.UniqueRefs | internal/diagnostics/network_paths.go:261-275 | exactly the non-blank references, each once |
| Correlation.UniqueRefsLoop | internal/diagnostics/network_paths.go:261-275 | the loop with its seen-map computes that list |
| Correlation.UniqueRefsKeepsOrder | internal/diagnostics/network_paths.go:261-275 | references keep their value and relative order, each at its first occurrence |
| Correlation.AbsorbLoop | internal/diagnostics/network_paths.go:89-168 | the append loops with their seen-map equal absorbing the records one by one |
| Correlation.EnsureHop | internal/diagnostics/network_paths.go:211-232 | the first direct path and its first origin hop are found, or made |
| Correlation.SortSorts | internal/diagnostics/network_paths.go:169-171 | the sort orders by ID and keeps the attempts |
| CorrelationTheorems.CorrelatedNetworkResult | internal/diagnostics/network_paths.go:44-87 | the pass as loops equals the pass the theorems are about |
| CorrelationTheorems.CorrelationTotal | internal/diagnostics/network_paths.go:67-85 | every result and evidence item ends with a reference, none repeated within a result, an item without one gets the one at its place or the last, and nothing else is changed |
| CorrelationTheorems.CorrelationIdempotent | internal/diagnostics/network_paths.go:42-87 | applied to its own output the pass changes nothing |
| CorrelationTheorems.OriginAttempts | internal/diagnostics/network_paths.go:44-173 | in the output graph the origin attempts are sorted, unique if they were, lose none, hold the ID of every record, and nothing else |
| CorrelationMeaning.MissingReferences | internal/diagnostics/network_paths.go:175-209 | a result without references gets exactly the non-blank ones its check's operations recorded, or else the first hop of the first path |
| CorrelationMeaning.PathsPassed | internal/diagnostics/network_paths.go:44-65 | the pass numbers paths and hops, gives the direct path its role, and changes no hop but the origin |
| CorrelationMeaning.EnsureAdds | internal/diagnostics/network_paths.go:211-232 | finding the origin hop adds at most a path or a hop |
| CorrelationMeaning.RecordContributes | internal/diagnostics/network_paths.go:109-168 | attempt, reference, selection and phase durations that each kind of record contributes |
| CorrelationMeaning.RecordsInOrder | internal/diagnostics/network_paths.go:109-168 | records are taken in the order DNS, route, TCP, TLS |
| CorrelationMeaning.OneMoreRecord | internal/diagnostics/network_paths.go:96-108 | an attempt is appended if its ID is new, and is then selected if it says so |
| CorrelationMeaning.OriginTimings | internal/diagnostics/network_paths.go:277-287 | the origin keeps its durations and gains, per reference and phase, a record's positive ones and no others |
| Addresses.CanonicalUnique | internal/diagnostics/checks/dns/check.go:325-333 | canonical forms coincide exactly for the same 16-byte address and are fixed points |
| Addresses.CanonicalSpelled | internal/diagnostics/checks/dns/check.go:325-333 | four bytes for IPv4, however written, sixteen for IPv6, none for anything else |
| Addresses.FamiliesSpelled | internal/diagnostics/checks/dns/selection.go:86-95 | families are told apart by the length of the canonical form |
| Addresses.BytesCompare | internal/diagnostics/checks/dns/check.go:335-345 | the sign is lexicographic order, zero exactly for equal addresses |
| Addresses.Normalize | internal/diagnostics/checks/dns/check.go:301-323 | strictly increasing, exactly the canonical addresses of the family asked for, kept plus duplicates is the number of inputs of the family |
| Addresses.ResolverOrderIrrelevant | internal/diagnostics/checks/dns/check.go:301-323 | any permutation of the answers gives the same list and count |
| Addresses.AppendCanonicalUnique | internal/diagnostics/checks/dns/selection.go:66-84 | extends the list by exactly the new canonical addresses, without repetition |
| Addresses.AppendInOrder | internal/diagnostics/checks/dns/selection.go:66-84 | new addresses follow in the order in which they first occur |
| Addresses.CandidatesInOrder | internal/diagnostics/checks/dns/selection.go:29-40 | candidates are the IPv4 answer's addresses before the IPv6 answer's, each once |
| Addresses.AppendCanonicalUniqueLoop | internal/diagnostics/checks/dns/selection.go:66-84 | the loop with its seen-map computes that list |
| Addresses.SelectAddresses | internal/diagnostics/checks/dns/selection.go:21-56 | the steps compute the selection the lemmas are about |
| Addresses.SelectionBounded | internal/diagnostics/checks/dns/selection.go:21-56 | distinct, selected plus skipped is total; the first candidates up to the configured limit, 4 without one, 2 at most in client-effective mode; a connect IP replaces all candidates |
| Addresses.SelectionOrderIrrelevant | internal/diagnostics/checks/dns/selection.go:18-56 | the selection does not depend on the order of the resolver's answers |
| Query.RedactRawQuery | internal/redaction/redaction.go:207-224 | the scanning loop equals split, rewrite and rejoin |
| Query.ParseJoin | internal/redaction/redaction.go:207-224 | a query has only one split into parts and separators |
| Query.JoinParse | internal/redaction/redaction.go:207-224 | rejoining the split gives the query back |
| Query.PartsSpelled | internal/redaction/redaction.go:213-222 | parts are what lies between ampersands and semicolons |
| Query.SensitiveSpelled | internal/redaction/redaction.go:226-239 | a part is sensitive if its decoded name is, or its raw name when it cannot be decoded, and then becomes the name and the replacement |
| Query.PartRedacted | internal/redaction/redaction.go:226-239 | a rewritten part keeps its name, brings in no separator and is not rewritten again |
| Query.StructureKept | internal/redaction/redaction.go:207-239 | separators and names are kept, sensitive values replaced, other parts unchanged, for any sensitivity rule |
| Query.SecretsForgotten | internal/redaction/redaction.go:207-239 | queries that differ only in sensitive values become the same text |
| Query.NothingSensitive | internal/redaction/redaction.go:226-233 | a query without sensitive names is untouched |
| Query.RedactionIdempotent | internal/redaction/redaction.go:207-239 | rewriting twice is rewriting once |
| Timestamps.TextOrderIsTimeOrder | internal/storage/store.go:230-237 | for non-zero instants in years 0 to 9999 text order is time order and equal texts are equal instants |
| Timestamps.ParseInvertsFormat | internal/storage/store.go:230-249 | parsing gives the instant back exactly when the year has four digits, and fails otherwise |
| Timestamps.ZeroSortsFirst | internal/storage/store.go:231-233 | the zero time sorts before every stored instant |
| Timestamps.FormatSpelled | internal/storage/store.go:234-236 | the text of an instant is its Gregorian date, time of day and nine fraction digits, in UTC |
| Timestamps.MonthLengths | internal/storage/store.go:236 | the twelve month lengths |
| Timestamps.DigitsSpelled | internal/storage/store.go:236 | fixed-width decimal digits, units last |
| Timestamps.ZeroSpelled | internal/storage/store.go:231 | the zero time is the start of 1 January of year 1 |
| Timestamps.OrderReachesExactly | internal/storage/store.go:230-237 | text order is time order on all non-zero instants up to a year if and only if the year is at most 9999 |
| Timestamps.FiveDigitYearSortsEarly | internal/storage/store.go:234-236 | a later year from 10000 to 89999 sorts before 9999 |
| History.KeptExactly | internal/storage/history.go:531-545 | a row survives pruning exactly when fewer than n rows outrank it |
| History.KeepsNewest | internal/storage/history.go:531-545 | no deleted run started after a kept one |
| History.NewerSpelled | internal/storage/history.go:535-537 | the order of retention: start, then creation, then ID, all descending |
| History.UpsertSpelled | internal/storage/history.go:100-115 | a known ID gets its new start and keeps its creation time, a new one is added, other rows stay |
| HistoryRuns.SaveKeepsNewest | internal/storage/history.go:98-225 | a save of a new or known ID leaves the n newest of all runs exactly when it does not move a stored run behind a deleted one |
| HistoryRuns.StoreHoldsNewest | internal/storage/history.go:54-225 | over any sequence of saves the store holds at all times the n newest of all runs ever saved exactly when every save is of that kind |
| HistoryRuns.LaterStartSteady | internal/storage/history.go:98-115 | saving an ID again with the same or a later start is of that kind |
| HistoryRuns.DistinctRuns | internal/storage/history.go:54-225 | saves of different IDs always are, and leave the n newest of them |
| History.Store.SaveDiagnosis | internal/storage/history.go:56-225 | a refused save changes nothing, an accepted one inserts or updates and prunes |
| History.Store.PruneHistory | internal/storage/history.go:511-529 | limits outside 1 to 10000 are refused, others prune |

## Left out

- Widgets, localisation, configuration, command line, logging, option validation and error classification: not about the properties above.
- Resolver, TCP, TLS, HTTP and proxy checks: a check is any function from the state to a result, or a panic.
- SQL execution, migrations and snapshots: the history is a list of rows with an ID and two text timestamps; the other reasons for which a save is refused are one flag.
- Real time: a context is a flag that stops once, with a cause; clocks are integers; time-outs and cancellation may happen at any step.
- 64-bit arithmetic: operation IDs and revisions are unbounded, so the skip over ID 0 on wrap-around never happens; durations do not saturate.
- A context's cancellation by its parent is a separate step for each operation, so nothing depends on how fast it spreads.
- A second `close` of the event dispatcher: a run calls it once. A callback lost by the GUI dispatcher is one that stays pending for ever.
- Texts: descriptions, summaries, evidence messages and recommendations of checks are not modelled. A title with its recommendation is one `Verdict`. Known check IDs and codes are constructors; any other text is `Named` or `Code`, which is assumed not to repeat a known text.
- Sharing of evidence arrays between a result and the event that carries it: results are values, so `CorrelatedNetworkResult`, `Complete` and `WithTimeout` return new ones where the source writes through the slice.
- RunnerModel.Runner.TakeMutation: the worker's endless loop is given as its steps; what the loop as a whole achieves is `SerialMutations`, `BackgroundStepsEnd` and `WaitTerminates`.
- EventDelivery.EventDispatcher.DrainClosedQueue: other goroutines do not interfere with the loop here; `DrainDelivers` covers every interleaving.
- Engine.Run: contexts, clock reads and stage results are given by position, since `WorkerPool` shows that the stage's results do not depend on scheduling; events carry no time and no name.
- SummaryTheorems.OrderIndependent: leaves out the description, because the time-out description names the first matching stage, and requires distinct check IDs, because lookups by ID take the first of several.
- Correlation.SortSorts: the library's stable sort is represented by insertion, which is what stability and order determine; the same holds for the sort in `Addresses.Normalize`.
- Addresses.Normalize: the printed form of a canonical address, which the source uses as a key, is assumed to be injective and is represented by the address.
- Addresses.SelectAddresses: parsing the connect IP from text is left out; the option is the parsed address or none.
- Query.RedactRawQuery: unescaping and the list of sensitive names are arbitrary functions; fragments, user information and full URL parsing are left out.
- Timestamps.ParseInvertsFormat: the library parser also accepts other fraction lengths and zone offsets, which the store never writes.
- CheckRun.ValidateDiagnosis: the character rules of the diagnosis ID are one flag.
- Diagnose.RunDiagnosis: the proxy selection is fixed before the auxiliary phase; the run-started and run-completed events, and the correlation of each single event on its way to the sink, are left out (`CorrelationIdempotent` covers the repetition).
- TaskRunnerProgress.WaitTerminates: assumes that task bodies and dispatcher calls return, as the source does; fairness of the Go scheduler is not modelled, only that no step sequence is endless or stuck.
