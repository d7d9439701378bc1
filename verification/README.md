# Provisioning engine: model and proofs

This project models the durable core of the provisioning service and proves what its design
promises: the tables of the state repository and every operation on them, the asyncio tasks of the
engine that drive them under employee and request locks, the callback outbox, the rate table,
the payload merge and the timestamp text.

How the files fit together:

- `payloads`, `contracts`, `tables`: JSON payloads, validated requests, the tables, and for each
  store operation its effect on them (`Claim`, `Fail`, `Release`, ...) and for each query its row
  condition (`Claimable`, `Candidate`, `Superseded`, ...).
- `frontier`: the table invariant, kept by every operation, and what the queries see under it: each
  request has one frontier, its first step that is not done.
- `protocol`: any number of tasks (submit, retry, cancel, verify, restart recovery, worker, due
  compensation) that interleave, with arbitrary adapter outcomes, crashes and restarts, and a log
  of events. `isolation`, `history`, `undoing`, `accounting`, `requests` and `progress` prove properties of every
  run of it; `grants` says what an activation finds on every system, and `schedule` which step can
  be claimed after each operation, `retries` where retries of cancelled requests come from, and
  `timelines` how finished steps line up along a run; `scenarios` holds concrete runs.
- `queries`, `inserts`, `views`, `repository`: the repository as a mutable object, each method proved
  against the operation or query of `tables`.
- `rely`, `paths`, `rounds`, `engine`, `lifecycle`: the engine's coroutines as methods over that
  object. Every one is proved to take moves of `protocol` only, with the waits between them limited
  to what `rely` proves of all other tasks; so the theorems about runs hold of it, and beside them
  stand their own results (termination, number of claims, coverage of compensation).
- `callbacks` and `delivery`, `limiter`, `timestamps`: the outbox and its overlapping dispatchers, the
  rate table against the whole call history, and the order of the stamps all queries compare.

Modelling choices:

- A transaction of the store is one atomic step. The protocol makes every store operation a step of
  its own, so its tasks interleave at least as finely as the program's, which only suspend at
  awaits and lock acquisitions. Reading a request back (which stores its summary) may happen at any
  moment, locked or not.
- A lifecycle request is a read of the employee's commands at any moment of a run, followed by a
  submission of the enriched request; nothing is assumed of what happens in between.
- Instants are integers, given to each operation and later than every instant given out before.
  `Timestamps` shows that comparing the stored text is comparing instants.
- SHA-256 and the canonical request hash are taken to be injective: keys and whole submissions are
  compared instead.
- A step row keeps its command; the columns copied from the command at insertion are read from it.
- The methods spell the program's conditions and columns out; the operations and queries they are
  proved against are written separately, so neither can change without the other.
- Adapter calls, HTTP answers, and what other tasks do during a wait are arbitrary parameters.
  Feature gates are open and envelopes fresh.
- The lists a round works through are sets in the protocol (any order); the engine's methods
  walk them in the program's order.

Where code and expectation differ, the code is followed, with an input the code can reach and the
exact condition:

- `lifecycle` reads the binding before it takes the employee's lock, and gives every step of a
  request the same one. The inheritance is invisible to later reads exactly when the entries it
  puts back still stand (`InheritanceInRuns`, `EnrichmentIsTransparentExactly`); a second step on
  the same system can revert the first (`TwoStepsRevert`).
- The deep merge is not associative (`MergeNotAssociative`, exactly when: `MergeAssociatesExactly`).
- An `INSERT OR IGNORE` leaves the entry of a step that dies a second time resolved
  (`Schedule.SecondDeadLetterStaysResolved`, exactly when: `DeadLetterOpens`).
- A crash lets a step exceed its attempt limit, by one for each recovery (`LimitIsExceeded`,
  `ExecutionsBounded`, exactly when: `LimitExceededAfterRecovery`).
- A cancelled request can run again, after a recovery (`LimitIsExceeded`) or through a retry that
  was admitted before the cancellation (`CancelledRunsAgain`), and in no other way
  (`CancelledRequestsStayQuiet`, `RetriesWereAdmittedBefore`).
- A failed compensation whose step is no longer a target keeps a cancelled or dead-lettered request
  due for ever (`ActionIsForgotten`, `ForgottenActionStaysDue`); due rounds end exactly when there
  is none (`RoundsEndExactly`).
- An accepted callback can be set back by a second answer (`DeliveryIsTakenBack`, exactly when:
  `DeliveredIsFinal`).
- The exemption for reference-like keys never applies (`ReferenceExemptionIsIdle`).

## Model

| member | source | states |
|---|---|---|
| Payloads.Merged | app/repository.py:989-996 | the loop that copies and assigns entry by entry computes the recursive deep merge |
| Payloads.MergeIdempotent | app/repository.py:989-996 | merging a payload over itself changes nothing |
| Payloads.MergeAbsorbs | app/repository.py:989-996 | merging the same update twice is merging it once |
| Payloads.MergeNotAssociative | app/repository.py:989-996 | with a scalar between two dictionaries the order of folding matters |
| Payloads.MergeAssociatesExactly | app/repository.py:989-996 | the order of folding does not matter exactly when, at every key path the three share, no scalar stands between two dictionaries the last of which leaves a key of the first standing |
| Payloads.CoversMeansReplaces | app/repository.py:989-996 | merging an update yields the update itself exactly when it overwrites every key of the base, at every depth |
| Payloads.HoldsIsMergeIdle | app/repository.py:989-996 | merging an earlier payload changes nothing exactly when every value of it is still there |
| Payloads.OverlayIsTransparent | app/engine.py:510-517 | overlaying a payload on the binding it is then merged over is merging the caller's own payload |
| Payloads.OverlayIsTransparentExactly | app/engine.py:510-517 | for a binding read earlier, that holds exactly when every read entry the caller does not name still stands in what the payload is merged over |
| Payloads.EnrichmentIsTransparent | app/engine.py:510-517 | when every enriched request read what all the earlier ones had stored, the binding read back is the fold of the deep merge over the raw payloads |
| Payloads.EnrichmentIsTransparentExactly | app/engine.py:507-520 | when requests read earlier states, every later read is that fold exactly when none of them puts back a value that changed between its read and its completion |
| Payloads.FreshReadStillHolds | app/engine.py:507-520 | a request that read all the requests before it puts nothing back |
| Payloads.StaleEnrichmentReverts | app/engine.py:507-520 | two requests enriched from one read: the second puts back the value the first changed |
| Payloads.ReferenceExemptionIsIdle | app/contracts.py:96-105 | the step check with its exemption accepts exactly what the stricter action check accepts |
| Payloads.SecretsAreRefused | app/contracts.py:59-105 | a payload is refused exactly when, below any dictionaries and lists, some dictionary has one of the ten secret names as a key, in whatever case |
| Contracts.ValidatedIsWellFormed | app/contracts.py:108-125 | the validators, which count distinct sequence numbers, accept exactly the requests whose steps have pairwise different sequences, the request's envelope, limits in range and no inline secret |
| Payloads.MergeKeysBounded | app/contracts.py:59-66 | at any depth a deep merge has no key that neither input has |
| Payloads.OverlayKeysBounded | app/contracts.py:59-66 | at any depth a shallow overlay has no key that neither input has |
| Payloads.RebuiltPayloadsStayClean | app/contracts.py:96-105 | payloads rebuilt from stored commands, and requests enriched with them, carry no inline secret if the stored ones did not |
| Frontier.ClaimKeeps | app/repository.py:440-485 | a claim keeps the table invariant: one attempted unfinished step per request, an untouched and uniform tail after it, claim stamps exactly on running steps, unresolved dead letters only on dead steps |
| Frontier.CompleteKeeps | app/repository.py:487-495 | completing a running step keeps it |
| Frontier.FailKeeps | app/repository.py:497-533 | failing a running step keeps it |
| Frontier.RescheduleKeeps | app/repository.py:535-555 | a manual retry keeps it |
| Frontier.ReleaseKeeps | app/repository.py:631-645 | giving an activation claim back keeps it |
| Frontier.CancelPendingKeeps | app/repository.py:855-863 | dropping the waiting steps keeps it |
| Frontier.RecoverStaleKeeps | app/repository.py:865-874 | recovery after a crash keeps it |
| Frontier.RecordVerificationKeeps | app/repository.py:647-675 | storing evidence of the current candidate keeps records valid |
| Frontier.BeginKeeps | app/repository.py:360-418 | inserting a validated, unclashing request keeps it |
| Frontier.OneAttemptedUnfinished | app/repository.py:440-485 | a request has at most one step that was attempted and is not done |
| Frontier.ClaimSeesFrontier | app/repository.py:444-467 | the claim query returns exactly the frontier step when it waits and is due; the query for a blocking step never changes the answer |
| Frontier.RetrySeesFrontier | app/repository.py:535-545 | a manual retry can only pick the frontier step, and picks it exactly when it is retryable |
| Frontier.SummarySeesFrontier | app/repository.py:917-932 | the summary over the set of step states is the frontier's state, or completed when there is none |
| Frontier.NothingWaitsAfterCancel | app/repository.py:855-863 | after a cancellation nothing of the request can be claimed, and what did not wait is untouched |
| Frontier.DeadLetterOpens | app/repository.py:527-532 | a dead-lettered step has an open entry exactly when no earlier entry of it was resolved |
| Isolation.OneHolder | app/engine.py:99-106 | two tasks never hold one employee's lock |
| Isolation.OneRequestHolder | app/engine.py:103-106 | two submissions, retries, cancellations, worker turns or due rounds past their locks never work on one request |
| Isolation.MoveKeeps | app/engine.py:177-350 | every move of a task keeps the table invariant and what the task relies on, never loses or changes a step or a finished row, and touches rows of its own employee only |
| Isolation.OthersUndisturbed | app/engine.py:99-106 | a task that waits or holds another employee's lock keeps what it relies on |
| Isolation.StepKeepsSystem | app/engine.py:623-640 | locks, tables and all tasks stay consistent under every step, crash and restart included |
| History.RunsKeepAll | app/engine.py:177-350 | every state of every run satisfies the table, lock and history invariants |
| History.ActivationsAreVerified | app/engine.py:187-195 | verified before active: in every run each adapter call that asks to activate or reactivate comes after, on its own system and on each one the employee was provisioned on, a disabled creation and an accepted verification of the step that finished last there, and no other provisioning step finishes there before the call ends |
| History.CompensationsAreCurrent | app/engine.py:295-305 | in every run a compensation call acts on a finished step with no newer state change of another request on its system, none finishing before the call ends |
| History.CallsNeverOverlap | app/engine.py:99-106 | in every run the execution, verification and compensation calls of one employee never overlap |
| Undoing.RecordsUndo | app/engine.py:289-293 | in every run each compensation on record is an update on Odoo and a suspension on every other system, of a step of its request, with three tries |
| Undoing.OnlyStepsGrantAccess | app/engine.py:289-293 | in every run no compensation call and no verification asks for access to be granted; a compensation asks to update on Odoo and to suspend elsewhere |
| History.ReadyIsVerified | app/repository.py:709-765 | when nothing blocks activation, the log holds the verification of the last finished provisioning step of every system concerned |
| History.NotSupersededIsNotStale | app/repository.py:595-629 | a step the store does not call superseded has no newer state change in the log |
| Accounting.ReleaseCounted | app/repository.py:631-640 | releasing gives exactly one attempt back; the clamp at zero never fires |
| Accounting.ExecutionsBounded | app/repository.py:472-476 | in every run attempts are claims minus releases, executions do not exceed them, and they do not exceed the limit plus the recoveries of the step |
| Accounting.LimitExceededAfterRecovery | app/repository.py:865-874 | in every run a claim takes a step beyond its attempt limit exactly when its row waits with the attempts used up, and such a row was recovered after a crash and has given back every claim since |
| Accounting.RecoveryExceedsLimit | app/repository.py:865-874 | a stale step with its attempts used up is claimed beyond its limit |
| Requests.SubmissionsAreIdempotent | app/repository.py:360-418 | in every run a key creates at most one request, stored with exactly its steps |
| Requests.DuplicatesAreInert | app/engine.py:107-117 | a submission under a stored key calls no adapter and changes no step; with another content it changes nothing |
| Requests.CancelledRequestsStayQuiet | app/engine.py:369-388 | in every run a cancelled request is claimed again only after a manual retry or a recovery of one of its steps |
| Requests.EvidenceNeverRegresses | app/repository.py:647-699 | along every run evidence names a finished provisioning step of its employee and system and only gives way to that of a later finished step; steps and submissions are never lost or changed |
| Progress.LocksLeadToAMove | app/engine.py:99-106 | following the locks a task waits for leads in two steps to a task that can move |
| Progress.NoDeadlock | app/engine.py:623-640 | no reachable state is deadlocked |
| Grants.ActivationsSeeEverySystem | app/engine.py:187-195 | in every run, an activation call starts only when each system with any provisioning step in force, finished or not, has a disabled creation and a verification of its last finished step, and none other finishes there before the call ends |
| Retries.RetriesWereAdmittedBefore | app/engine.py:154-168 | in every run, whoever puts a step of a request back to waiting after its cancellation is a manual retry admitted before it, when the flag was not set |
| Schedule.AfterFailure | app/repository.py:504-526 | after a failure exactly the failed step can be claimed, from its retry instant on, if the error was transient and attempts are left; otherwise nothing of the request can |
| Schedule.AfterReschedule | app/repository.py:535-555 | after a manual retry exactly the picked step can be claimed, at once |
| Schedule.AfterRelease | app/repository.py:631-645 | a released activation can be claimed again after thirty seconds, and nothing else of its request can |
| Schedule.AfterRecovery | app/repository.py:865-874 | after recovery a running step can be claimed, at once, exactly when it was claimed longer ago than the timeout, in seconds; any other running one still blocks its request |
| Schedule.AfterCompletion | app/repository.py:455-467 | after a success the next step that is not done can be claimed at once |
| Schedule.AfterBegin | app/repository.py:393-410 | of a new request exactly the step with the lowest sequence can be claimed |
| Schedule.BackoffDoubles | app/repository.py:785-797 | the wait before a compensation is tried again starts at the delay and doubles, up to five minutes |
| Schedule.AfterCompensation | app/repository.py:783-797 | a compensating action is due again exactly when it failed, has tries left, and the doubling wait for its attempts, at most five minutes, is over |
| Schedule.SecondDeadLetterStaysResolved | app/repository.py:527-555 | a step with attempts left that dies can be retried by hand, claimed, and die again, which leaves its entry resolved with the first error |
| Inserts.InsertedInAnyOrder | app/repository.py:393-410 | inserting the steps by sequence stores the same table as inserting them in the order given |
| Inserts.InsertOneMore | app/repository.py:393-410 | one more insert is accepted exactly when the steps so far and this one are free of clashes |
| Views.NoBlockersMeansReady | app/repository.py:709-765 | no blocker stands exactly when every required or provisioned system was created disabled, has evidence of the current candidate, and nothing unfinished is newer |
| Views.StandsByNewest | app/repository.py:745-765 | what stands against a system is decided by its newest provisioning step |
| Views.WalkedAll | app/repository.py:557-574 | walking the finished steps backwards and keeping the first per system yields the last finished step of every system |
| Views.FirstSeenIsBound | app/repository.py:998-1008 | the systems in first-seen order are those with a binding, once each |
| Repository.StateRepository.BeginExecution | app/repository.py:360-418 | replay, conflict, refusal with rollback, or the whole request inserted, each exactly when the tables say so |
| Repository.StateRepository.ExistingExecution | app/repository.py:420-438 | the answer under a stored key, or that there is none |
| Repository.StateRepository.ClaimNext | app/repository.py:440-485 | the first runnable step becomes running with one more attempt, or nothing changes exactly when the request is blocked or nothing is due |
| Repository.StateRepository.CompleteStep | app/repository.py:487-495 | only done states are accepted, and then the whole new table |
| Repository.StateRepository.FailStep | app/repository.py:497-533 | retry wait or dead letter with its log entry, and nothing else |
| Repository.StateRepository.ScheduleStepRetry | app/repository.py:535-555 | the first retryable step waits again and its dead letter is resolved, or there is none and nothing changes |
| Repository.StateRepository.SuccessfulCommands | app/repository.py:557-574 | exactly the compensation targets, one per system, later steps first |
| Repository.StateRepository.VerificationCommands | app/repository.py:576-593 | exactly the verification targets, one per system, later steps first |
| Repository.StateRepository.CompensationSuperseded | app/repository.py:595-629 | true exactly when a later finished state change of another request on the given system exists, or the step is unknown |
| Repository.StateRepository.ReleaseActivationClaim | app/repository.py:631-645 | a running claim goes back to waiting without its attempt, and the request's stored result is dropped |
| Repository.StateRepository.RecordEvidence | app/repository.py:647-675 | evidence is accepted exactly for the current candidate, and then stored |
| Repository.StateRepository.CurrentCandidate | app/repository.py:677-699 | the walk newest first finds the newest finished provisioning step on the system, and none exactly when there is none |
| Repository.StateRepository.ActivationBlockers | app/repository.py:709-765 | the newest-first fold returns exactly the blockers that stand, and none exactly when activation may proceed |
| Repository.StateRepository.RecordCompensationAttempt | app/repository.py:767-820 | one more attempt of the action, due again after a doubling wait of at most 300 seconds if it failed |
| Repository.StateRepository.DueCompensationRequests | app/repository.py:822-838 | exactly the cancelled or dead-lettered requests with a due failed action |
| Repository.StateRepository.MarkRequestCancelled | app/repository.py:840-845 | the request is marked and nothing else changes |
| Repository.StateRepository.CancelWaiting | app/repository.py:855-863 | exactly the waiting steps of the request are dropped, and counted |
| Repository.StateRepository.RecoverStaleClaims | app/repository.py:865-874 | exactly the rows running and claimed more than the timeout's seconds before become waiting and due at once, every other row is unchanged, and the count is theirs |
| Repository.StateRepository.RequestResult | app/repository.py:887-946 | the steps in order, each with its row's own system, operation, state, attempts, error and retry time; the summary of the listed states, stored |
| Repository.StateRepository.EmployeeCommands | app/repository.py:977-1008 | the last command of every system since its first disabled creation, with the deep merge of all payloads oldest first, in the order the systems were first seen |
| Rely.AwaitIsUndisturbed | app/engine.py:99-106 | over any stretch of a run in which a task waits under its employee's lock, the employee's rows, evidence and compensations stand still |
| Rely.MoveCompensates | app/repository.py:767-820 | a task records compensations for its own request only |
| Paths.Advance | app/engine.py:177-278 | a task that takes one more protocol move stays on course |
| Paths.HopIsStep | app/engine.py:177-278 | each move of a method's path is a step of the protocol |
| Rounds.OneMoreAttempt | app/engine.py:280-350 | a record adds exactly one step to a round |
| Rounds.TargetsCover | app/repository.py:557-574 | every system on which the request finished a creation, an update or an activation has a target, and it is such a step with the highest sequence |
| Rounds.LeftBounded | app/repository.py:804-806 | a request has at most three tries left for each target |
| Rounds.RoundShrinks | app/repository.py:822-838 | a round that finds a target due leaves strictly fewer attempts in all |
| Rounds.DueRoundsEnd | app/repository.py:822-838 | while a request's steps stand still, no more rounds find a target due than attempts were left |
| Rounds.DueForTargets | app/repository.py:822-838 | when no failed action was left behind, a due request has a due target |
| Rounds.RoundForgets | app/engine.py:280-350 | a round leaves no failed action behind that was not, and takes none up again that was |
| Rounds.DueRoundsAreFew | app/repository.py:822-838 | without actions left behind a request is found due no more often than attempts were left |
| Rounds.RoundsEndExactly | app/repository.py:822-838 | while the steps of a cancelled or dead-lettered request stand still, it stops being due after that many rounds exactly when no failed action was left behind |
| Rounds.ForgottenActionStaysDue | app/repository.py:822-838 | an action left behind keeps its request due, unchanged, through any number of rounds |
| Engine.ProvisioningEngine.RunRequest | app/engine.py:177-278 | the loop ends after at most as many claims as there were unfinished steps; the request is then done or its frontier waits, is dead or was orphaned; no step runs that did not run before |
| Engine.ProvisioningEngine.Perform | app/engine.py:187-278 | one claimed step: gates, call and record; the loop goes on only when the step was completed, and a dead step is followed by a compensation round |
| Engine.ProvisioningEngine.Dispatch | app/engine.py:187-204 | the activation and adapter gates, as one protocol move |
| Engine.ProvisioningEngine.Execute | app/engine.py:205-251 | what the adapter answered to the step's command is what is recorded, an unclassified exception as a permanent failure, and a transient one with exactly the retry time below; the request's rows stand meanwhile |
| Engine.ProvisioningEngine.RetryTime | app/engine.py:228-245 | the clock's instant plus the base doubled for every attempt after the first, at most 300 seconds |
| Engine.ProvisioningEngine.Return | app/engine.py:205-278 | a success leaves a verify or reconcile step verified and any other succeeded; a failure leaves it dead when it is permanent or attempts ran out, else waiting; as one protocol move |
| Engine.ProvisioningEngine.Compensate | app/engine.py:280-350 | every target is attempted once, recorded as an update on Odoo and as a suspension elsewhere, its row says superseded exactly when it is, and no other row of the request changes |
| Engine.ProvisioningEngine.CallCompensation | app/engine.py:307-350 | the adapter is sent the update or suspension with its payload, and the action is recorded as succeeded exactly when that call succeeded, or as failed and due again after the bounded doubling wait |
| Engine.ProvisioningEngine.SkipCompensation | app/engine.py:295-306 | stale work is recorded as superseded without a call, and a missing adapter as a failure due again after the bounded doubling wait |
| Engine.ProvisioningEngine.CheckOne | app/engine.py:416-488 | a check confirms exactly when there is an adapter, it confirmed, and the step is still the current candidate |
| Engine.ProvisioningEngine.CallCheck | app/engine.py:418-462 | the same for the answer of a registered adapter to the verify command, with the evidence stored |
| Engine.ProvisioningEngine.VerifyLocked | app/engine.py:403-496 | answers verified exactly when there are targets, each was its system's current candidate and each adapter confirmed its own; then the evidence of every target is stored |
| Engine.ProvisioningEngine.Decide | app/engine.py:107-140 | replay, conflict, refusal by the gate, refusal by the store or insertion, each exactly when the tables say so; a replay answers with the stored result, or with the request read back when there is none; a fresh request with a step that would activate or reactivate on a system that is not cleared is refused and changes nothing |
| Engine.ProvisioningEngine.Preflight | app/engine.py:92-98 | a request that activates or reactivates anything is let in exactly when it does nothing else |
| Engine.ReleaseIsReadBack | app/repository.py:641-645 | after a released activation a replayed submission is read back, its stored result being gone |
| Engine.ReadIsReplayed | app/repository.py:941-945 | after a read a replayed submission answers with the summary the read stored |
| Engine.ProvisioningEngine.Submit | app/engine.py:99-145 | the same, and after an insertion at most one claim per step, a settled request, and the request read back |
| Engine.ProvisioningEngine.Retry | app/engine.py:147-175 | runs on exactly when the frontier step is retryable, changes no step otherwise, and answers with the request read back |
| Engine.ProvisioningEngine.Cancel | app/engine.py:369-388 | the request is marked, what waited is dropped, every target compensated once, nothing of it can be claimed, what did not wait is as it was, and the answer is the request read back |
| Engine.ProvisioningEngine.Work | app/engine.py:636-640 | a worker's turn, or a resumed request: the claim loop from entry |
| Engine.ProvisioningEngine.Settle | app/engine.py:352-362 | a due round: every target attempted once |
| Engine.ProvisioningEngine.Enter | app/engine.py:99-106 | a task that took its locks starts its course |
| Engine.LocksTaken | app/engine.py:99-106 | the protocol step that takes the last lock establishes what a course starts from |
| Engine.OneAnswerFits | app/engine.py:107-136 | the conditions of the answers to a submission exclude each other |
| Engine.ClaimMoves | app/repository.py:440-485 | a claim is the protocol's move, and finds the request settled or marks one unfinished step |
| Engine.ReturnMoves | app/engine.py:205-278 | recording an outcome is the protocol's move; success removes the step from the unfinished ones and leaves none running |
| Engine.StandingSteps | app/engine.py:177-278 | while a request's rows stand, so do its frontier, its unfinished steps and whether it is settled |
| Lifecycle.Enrich | app/engine.py:498-520 | every step's payload is overlaid on the binding of its system, and nothing else of the request changes |
| Lifecycle.InheritanceIsInvisibleExactly | app/engine.py:507-520 | once an enriched step has finished, its system reads back as if the raw payload had been merged, exactly when the entries it put back still stood |
| Lifecycle.InheritanceIsInvisible | app/engine.py:507-520 | that is so when nothing finished on the system since the read |
| Lifecycle.InheritanceInRuns | app/engine.py:507-520 | in every run, for a binding read in one state without a lock and a step that finished in a later one: both of the above, with what finished in between read off the timeline |
| Lifecycle.TwoStepsRevert | app/engine.py:507-520 | a valid request with two steps on one system: the second puts back the value the first changed |
| Timelines.RunFinishesLater | app/repository.py:977-987 | what finishes later in a run is stamped later than everything before |
| Timelines.TimelineGrows | app/repository.py:977-987 | an employee's finished steps, oldest first, are only ever extended |
| Lifecycle.EnrichedStaysWellFormed | app/engine.py:518-519 | the enriched request passes validation again when the stored commands did |
| Callbacks.CallbackStore.DueCallbacks | app/repository.py:1054-1062 | at most the limit of due events, oldest first, and all of them when there are fewer |
| Callbacks.CallbackStore.MarkCallback | app/repository.py:1064-1082 | one more attempt, delivered, waiting or exhausted at the eighth refusal |
| Callbacks.WaitDoubles | app/callbacks.py:75-80 | the waits between tries are 2, 4, 8 and so on, doubling to 256 seconds and no further |
| Callbacks.CallbackDispatcher.Dispatch | app/callbacks.py:44-97 | one POST when a receiver is configured, delivered exactly on an accepting status, and a refused event with tries left due again after exactly the wait for its attempts |
| Callbacks.CallbackDispatcher.EnqueueAndDispatch | app/callbacks.py:40-42 | a new event is stored once, posted and marked; a known one is posted and marked again |
| Callbacks.CallbackDispatcher.DispatchDue | app/callbacks.py:99-103 | every event of the batch is posted once and marked with its own answer and the next try for its own attempts, and no other event changes |
| DeliveryRuns.DeliveryIsBounded | app/repository.py:1044-1082 | however dispatchers overlap, a waiting event has tries left, a delivered one was accepted, and one enqueued once is posted at most nine times without a restart |
| DeliveryRuns.DeliveredIsFinal | app/repository.py:1064-1082 | a delivered event stays delivered unless a refused answer to another POST of it comes in, and only then |
| DeliveryRuns.DeliveryIsTakenBack | app/callbacks.py:40-97 | a run in which that happens: enqueue, due selection, second POST, accepted, refused |
| DeliveryRuns.DeliveredIsNotPosted | app/repository.py:1054-1062 | an event that no longer waits is not posted again by the worker unless it was selected before |
| Limiter.RateLimiter.CheckRate | app/repository.py:1023-1042 | a call is accepted exactly when the calls of its subject in its window, counted over the whole history, keep to the limit |
| Limiter.StillCounts | app/repository.py:1023-1042 | after bumping and pruning the table still counts every call of the current and the two windows before it |
| Limiter.FirstCallsGetThrough | app/repository.py:1023-1042 | in an aligned window exactly the first calls up to the limit are accepted |
| Limiter.AtMostTwiceTheLimit | app/repository.py:1023-1042 | in any interval of a window's length at most twice the limit is accepted |
| Scenarios.LimitIsExceeded | app/repository.py:865-874 | a run reaches a step claimed a second time with a limit of one, after its request was cancelled |
| Scenarios.ActionIsForgotten | app/repository.py:822-838 | a run reaches a cancelled request with a failed compensation whose step is no target |
| Scenarios.CancelledRunsAgain | app/engine.py:154-168 | a run in which a retry admitted before a cancellation runs the cancelled request again, and its second death leaves the dead letter resolved |
| Timestamps.FractionOrder | app/repository.py:23-24 | a whole second, written without a fraction, sorts before its fractions |
| Timestamps.TextLooksLike | app/repository.py:23-24 | the written form: four-digit year, two digits each, the fraction in six digits or left out, and the UTC offset |
| Timestamps.TextOrder | app/repository.py:23-24 | text order is the order of the fields |
| Timestamps.InstantOrder | app/repository.py:455-467 | the order of the fields is the order in microseconds, across months and leap years |
| Timestamps.TextOrderIsChronological | app/repository.py:455-467 | comparing stamps as text compares the instants, and equal text means equal instants |

## Left out

- HTTP, TLS, HMAC, Fernet, the provider clients and the adapter registry: an adapter call is an arbitrary outcome.
- Routes, JWT validation, settings, feature gates, freshness checks, logging and metrics: requests arrive validated, fresh and with gates open.
- SIP browser sessions, mailbox transitions, credentials and replayed tokens: short guarded updates whose invariant is a unique index.
- `reconcile`, `counts` and `employee_results`: read-only and unlocked; they are not part of the serialisation claim.
- SQLite itself: statements and transactions are atomic, and `BEGIN IMMEDIATE` never fails.
- The lock dictionaries as fields: locks are part of the protocol's state, and the engine's methods start where both locks are held.
- The worker's polling loop and its one-second sleep: the protocol lets any task start at any moment, which includes the worker's order.
- Step results other than evidence (external identifiers, credential references) and the stored result document: a stored result is reduced to its state, also where a replay answers with it.
- A column that copies part of the command is not modelled apart from it; `schema_version`, step correlation identifiers and the `mandatory` flag are left out.
- The sorting of blocker texts and of request identifiers: both are sets here.
- Lowered: lower-cases ASCII letters only, where the program uses full Unicode lower-casing; all sensitive keys are ASCII.
- CallbackDispatcher.Dispatch: one instant stands for the several clock reads of a dispatch, and an exception other than a transport error, which leaves no mark, appears as a restart in `DeliveryRuns`.
- DeliveryRuns.DeliveryIsBounded: assumes a configured receiver; without one nothing is posted at all.
- RequestResult: reports state, attempts, error and retry time of each step; external identifiers and credential references of the stored result are left out.
- Cancel: the two updates of a cancellation carry one instant where the program reads the clock twice.
- Claims about how soon a step runs: a step orphaned by a crash and not yet stale at the restart waits for the next one.
