# Jailgun, verified

Jailgun turns a written concept into a comparison of candidate answers. A run asks a chat provider for five to ten
candidates, has them compared, synthesised, criticised and revised, and keeps every step in a database so that it
survives crashes. This project models the parts of Jailgun in which a mistake would be hard to see, and proves what
they promise.

`dafny verify dfyconfig.toml` checks everything. The files are listed below, lower layers first.

## The workflow engine

`Tables.dfy` holds the rows: accounts with their login sessions, runs with their task rows, attempts, reservations,
stored artifacts and the event log. All of them together are one value of type `Db`. A transaction of the store is a
function from `Db` to an `Outcome`: the rows after it and the reply. `Scheduler.dfy`, `Runs.dfy`, `Accounts.dfy`,
`Recovery.dfy` and `Artifacts.dfy` hold these functions, one file for each source file. Errors roll back, except that an
identity mismatch in `VerifyAccount` commits and is refused, as in the source. Constraints and triggers of
`db/migrations/0001_workflows.sql` that a transaction can run into appear as a refusal with `StorageError`; in
particular the transition trigger aborts an uncertain failure of an attempt that is still prepared.

`Store.dfy` is the store itself: a class whose fields are the tables and whose methods change rows one at a time, with
loops where the source has loops. Each method is proved to produce exactly the outcome of its transaction and to keep
the invariant.

`Invariant.dfy` states what holds in every reachable database (`Valid`) and how rows may change (`Evolves`).
`Preservation.dfy`, `Steps.dfy` and `LifecycleSteps.dfy` prove it for single row changes; `Operations.dfy`,
`CaptureOperations.dfy` and `RecoveryOperations.dfy` for every transaction; `Histories.dfy` for every sequence of
transactions, whatever their arguments, clocks and forged leases. `Transitions.dfy` and `StepRules.dfy` say what one
transaction does to each table, which the theorems about histories rest on:

- `ClaimEffects.dfy`, `CaptureEffects.dfy`, `LeaseEffects.dfy`, `RunEffects.dfy` and `AccountEffects.dfy`: the whole effect of
  every transaction, written over the rows without its function: when it is accepted, with which refusal otherwise, and
  what becomes of every row and of the log. `Conditions.dfy` says when a task can start and an account is free.
- `Gates.dfy`: what only the operator can undo: a cancellation, a pause, a failure that is not retried.
- `Ledger.dfy`: the tables agree with each other; the pipeline advances only on complete inputs; budgets.
- `AccountPacing.dfy`: distances between submissions on an account, across all its runs, with the spacings actually drawn.
- `Fairness.dfy`: least recently served first.
- `RecoveryTheorems.dfy`: recovery row by row, and why a second recovery changes nothing.
- `ReconciliationMemory.dfy`: what a run remembers while its conversations are in doubt.
- `Outcomes.dfy`: absorbing outcomes, idempotent submission, sending at most once, reservations that outlive a cancellation.
- `LeaseTheorems.dfy`: a lease reaches only its own rows, and nothing once its attempt has ended.
- `Cooldowns.dfy`: the gate a rate limit puts before an account.
- `OperatorHold.dfy`: how long a second rate limit holds an account, and who reopens it.
- `Handoffs.dfy`: prompts and results are always there.
- `Texts.dfy`: what a capture stores, and which text of a stage the stages after it read.
- `Witness.dfy`: a history, transaction by transaction, that completes five candidates and their comparison and interrupts
  the synthesis, and one that completes the run: the situations the theorems speak about are reachable.

Five promises turn out false of the code, and the model keeps the code as it is.

Text preserved from an interrupted synthesis or critique is handed to later stages even after the same attempt has stored
its complete text, because the lookup in `prompt` does not ask for completeness (`Handoffs.PartialTextIsHandedOn`,
`Handoffs.EveryInterruptionShowsIt`, and from the empty database `Witness.InterruptionIsReachable`). From the capture that
completes the stage on, later stages read the complete text if and only if no `preserve_partial` with text was accepted
for the attempt at an earlier time, or at the same time under a smaller identifier (`Texts.HandedTextIsCompleteIff`); at
the moment of the capture, if and only if the store holds no such text (`Texts.TextReadIsCompleteIff`). A comparison handed
on is always complete (`Texts.ComparisonIsComplete`).

An account put on hold until an operator acts can be reopened without one. As long as it has not been ready again, an
ordinary verification that is otherwise in order succeeds if and only if, since the last rate limit, its login has expired
or an operator's verification has been refused for another identity (`OperatorHold.OperatorIsNeededIff`); otherwise only a
successful verification or confirmation by the operator reopens it (`OperatorHold.ReopenedByTheOperator`).
`OperatorHold.HoldLiftedExample` is such a history: two rate limits, an expired login, and a verification without an
operator.

A preserved reset leaves the old HEAD under its reference if and only if HEAD is not on that reference when the reset moves
it; the guards compare commits and do not look at the branch (`Cleanup.Remote.ResetPreserved`,
`Cleanup.ResetMayMoveTheReference`).

A systemd unit starts the executable with its arguments if and only if the path of the executable has no equals sign:
`env` takes a leading operand with one as an assignment, after `--` too (`StartupUnit.StartsTheExecutableIff`,
`StartupUnit.AssignedInsteadOfStarted`).

A launchd property list is a document, and reads back, if and only if no path or argument holds U+FFFE or U+FFFF, which
are not control characters but are not allowed in XML either (`StartupUnit.Launchd`, `StartupUnit.PrintedButUnreadable`).

## The algorithms beside it

- `Ranking.dfy`: the weighted ranking of a comparison, as the two nested loops of the source with their sets and sum.
- `FencedJson.dfy`: structured data in fenced blocks of a response, as a scanner over lines.
- `StartupUnit.dfy`: the systemd and launchd printers with their escaping.
- `ArtifactChunks.dfy`: paging through a stored text on character boundaries.
- `Cleanup.dfy`: preserving a remote checkout before resetting it, against a checkout that others change at any time.

`Text.dfy` and `Ordering.dfy` hold text tests and `ORDER BY` over finite sets of keys.

## Model

| member | source | states |
|---|---|---|
| Histories.ApplyKeeps | crates/jailgun-workflow/src/store.rs:47-59 | every transaction, with any arguments, lands in a database that satisfies the whole invariant and only moves rows forward |
| Histories.HistoryIsValid | crates/jailgun-workflow/src/store.rs:28-46 | the invariant holds after every prefix of every sequence of transactions from the empty database |
| Histories.HistoryEvolves | crates/jailgun-workflow/src/store.rs:28-46 | between any two points of a history: requests, deadlines and limits are immutable, completed tasks and ended attempts are frozen, the log and the artifacts only grow |
| ClaimEffects.ClaimEffect | crates/jailgun-workflow/src/scheduler.rs:28-67 | the whole effect of a claim: overdue runs, and the queued and running runs listed before the one granted that are past their deadline, out of budget, or unable to go on with a free account, are paused for that reason and logged; the lease is on the first task that can start of the first run in turn that can be served; nothing else changes |
| Gates.StuckIsPaused | crates/jailgun-workflow/src/scheduler.rs:48-55 | a run within deadline and budget with a free account, nothing running, nothing that can start and something failed or partial is paused with incomplete-results by a claim that grants nothing |
| Gates.PausedIsResumed | crates/jailgun-workflow/src/runs.rs:125-153 | such a run can be resumed before its deadline, which queues every stopped task with attempts left |
| LeaseEffects.OwnsIff | crates/jailgun-workflow/src/scheduler.rs:212-223 | in a valid database a lease is owned exactly when it repeats its reservation and task rows |
| LeaseEffects.BeginEffect | crates/jailgun-workflow/src/scheduler.rs:72-88 | a submission is accepted exactly when the run may work within deadline and budget, the account is ready and paced, and the attempt is prepared; it charges the run, the account and the log, and each refusal has its code |
| LeaseEffects.AcceptEffect | crates/jailgun-workflow/src/scheduler.rs:90-123 | an acceptance is taken exactly for a submission in progress by its owner, and records the turn and its time |
| LeaseEffects.FailIsAccepted | crates/jailgun-workflow/src/scheduler.rs:125-140 | a failure is accepted exactly when it does not contradict what is known of the submission |
| LeaseEffects.FailEffect | crates/jailgun-workflow/src/scheduler.rs:139-152 | a failure that ends the attempt queues the task again exactly when it allows a retry, it was the first attempt and the run is not cancelled; otherwise the task has failed; the reservation is gone and a reconciliation it kept open ends |
| LeaseEffects.AmbiguousEffect | crates/jailgun-workflow/src/scheduler.rs:139-148 | an ambiguous failure keeps attempt, task and reservation, and the run waits for reconciliation remembering its status |
| LeaseEffects.AcknowledgeEffect | crates/jailgun-workflow/src/scheduler.rs:160-174 | a stop is acknowledged exactly for an attempt of a cancelled run, which stops it and frees its reservation |
| LeaseEffects.ReattachEffect | crates/jailgun-workflow/src/recovery.rs:79-89 | only the recorded conversation of an accepted attempt is reattached, and only the log changes |
| CaptureEffects.CaptureIsAccepted | crates/jailgun-workflow/src/artifacts.rs:41-57 | a response is taken exactly from the owner of an accepted or uncertain attempt, for its conversation, model and address |
| CaptureEffects.CaptureEffect | crates/jailgun-workflow/src/artifacts.rs:46-90 | the attempt is captured exactly when the response came whole, in time, not empty, from the model asked for, with a filled summary or a complete ranking where its stage needs one; otherwise the task is queued once more, partial or failed as its first objection says; run, reservation, account and log follow |
| CaptureEffects.CaptureStores | crates/jailgun-workflow/src/artifacts.rs:58-99 | exactly the artifacts a response stores: its text, the summary, the ranking of the completed candidates, and the manifest naming the final text and the candidates given up |
| CaptureEffects.PartialEffect | crates/jailgun-workflow/src/artifacts.rs:19-29 | preserved text is stored as incomplete, the attempt stays uncertain with its reservation, and the run waits for reconciliation |
| Gates.OtherModelPauses | crates/jailgun-workflow/src/artifacts.rs:73-88 | an otherwise good answer from another model is kept as partial and pauses the run |
| RunEffects.SubmitEffect | crates/jailgun-workflow/src/runs.rs:24-66 | a request is taken exactly when it is well formed and new, its model is known and its account registered; the new run has its candidates in order, four reductions, three hours and two submissions a task |
| RunEffects.SuspendEffect | crates/jailgun-workflow/src/runs.rs:98-123 | a queued, running or waiting run is paused for the reason given; any other but a paused one is refused |
| RunEffects.CancelEffect | crates/jailgun-workflow/src/runs.rs:156-175 | every run that is neither completed nor failed is cancelled, and nothing else of it changes |
| RunEffects.ResumeIsAccepted | crates/jailgun-workflow/src/runs.rs:125-141 | when a resume is accepted, with a code for each refusal |
| RunEffects.ResumeEffect | crates/jailgun-workflow/src/runs.rs:134-153 | every stopped task with attempts left is queued, or every open candidate excluded, and the run is queued or waits for a login as its account demands |
| RunEffects.ReattachedEffect | crates/jailgun-workflow/src/recovery.rs:15-33 | a reconciliation ends exactly when every conversation still reserved was accepted and has just been reattached |
| AccountEffects.VerifyEffect | crates/jailgun-workflow/src/accounts.rs:67-95 | when a verification succeeds or commits a mismatch; after a success exactly the runs of the account that waited for a login and are in time are queued, after a mismatch exactly its queued and running runs wait |
| AccountEffects.BackToWork | crates/jailgun-workflow/src/accounts.rs:206-226 | a run whose login came back is served like any other |
| AccountEffects.ExpireEffect | crates/jailgun-workflow/src/accounts.rs:97-108 | after an expired login exactly the queued and running runs of the account wait for a login |
| AccountEffects.RateLimitEffect | crates/jailgun-workflow/src/accounts.rs:110-121 | the cooldown becomes the greatest of the old one, the time of the limit and the retry time given or five minutes later; the second limit holds the account |
| AccountEffects.ConfirmEffect | crates/jailgun-workflow/src/account_sessions.rs:155-179 | a confirmation succeeds exactly for what was observed in the last thirty seconds, binds the account and its model, and brings its runs back |
| AccountEffects.RegisterEffect | crates/jailgun-workflow/src/accounts.rs:123-172 | an account is registered exactly when its e-mail and identity are not taken, or it is there already |
| AccountEffects.LoginStateEffect | crates/jailgun-workflow/src/account_sessions.rs:103-134 | a cancelled session only starts again or stays cancelled; starting forgets the observation |
| AccountEffects.ObserveEffect | crates/jailgun-workflow/src/account_sessions.rs:136-152 | an observation is kept exactly when it belongs to the account and is of sane size |
| Gates.CancelIsForGood | crates/jailgun-workflow/src/runs.rs:156-175 | over histories: after a cancellation answered Ok the run stays cancelled, no claim returns a lease on it and no submission of it succeeds |
| Gates.PauseIsAGate | crates/jailgun-workflow/src/runs.rs:98-123 | over histories: after a pause answered Ok the run is claimed or submitted again only after a resume answered Ok |
| Gates.FailureIsAGate | crates/jailgun-workflow/src/scheduler.rs:139-144 | over histories: after a final or second failure the task is started again only after a resume of its run |
| Ledger.ReservationsMatchLiveAttempts | crates/jailgun-workflow/src/scheduler.rs:57-59 | in every reachable state, reservations are in bijection with the attempts that are prepared, submitting, accepted or uncertain |
| Ledger.AttemptsMatchTasks | crates/jailgun-workflow/src/scheduler.rs:57-58 | a task's attempts are numbered exactly 1 to its attempt count; it is running exactly when one is live, and that one is the latest; never more than 28 |
| Ledger.CapacityIsKept | crates/jailgun-workflow/src/scheduler.rs:48-49 | an account never holds more reservations than its capacity, nor more than ten |
| Ledger.ReductionsWaitForTheirInputs | crates/jailgun-workflow/src/scheduler.rs:177-210 | a comparison, synthesis, critique or revision has started only if every candidate is completed or allowed to be excluded, at least three are completed, and every earlier reduction is completed |
| Ledger.CompletedRunsAreWhole | crates/jailgun-workflow/src/artifacts.rs:91-99 | a completed run has all reductions, every candidate it did not exclude, at least three of them, and no reservation |
| Ledger.SpendingMatchesTheLog | crates/jailgun-workflow/src/scheduler.rs:82-84 | submissions equal the submission events of the run and stay within 2·(candidates+4); a task is started at most twice and once more per operator retry |
| Ledger.QueuedWorkHasBudget | crates/jailgun-workflow/src/runs.rs:57-58 | a run its operator never retried has unspent budget while any task is queued |
| AccountPacing.SubmissionsAreSpaced | crates/jailgun-workflow/src/scheduler.rs:76-84 | over any history, two submissions on an account, whatever their runs, are at least as far apart as the spacings drawn for the first and for all those between them add up to, up to saturation of the clock |
| AccountPacing.WindowsAreBounded | crates/jailgun-workflow/src/scheduler.rs:77-83 | any window of W ms before the end of time holds at most ⌈W/30000⌉ submissions of an account |
| AccountPacing.ClaimThenBegin | crates/jailgun-workflow/src/scheduler.rs:48-61 | the lease a claim returns can be submitted at the time of the claim |
| Transitions.ClaimShape | crates/jailgun-workflow/src/scheduler.rs:28-67 | a claim sweeps expired runs, passes over candidates that cannot be granted, and grants the first that can |
| Fairness.ClaimServesTheEligible | crates/jailgun-workflow/src/scheduler.rs:36-67 | a claim returns a lease only for a run eligible before it, and nothing only when no run is eligible |
| Fairness.NewRunIsEligible | crates/jailgun-workflow/src/runs.rs:24-66 | a newly submitted run on an open account, with a named model or the one confirmed on the account, is accepted and eligible at once and until its deadline |
| Fairness.PicksLeastRecent | crates/jailgun-workflow/src/scheduler.rs:36-40 | the run a claim picks was last granted no later than any other eligible run |
| Fairness.GrantsAlternate | crates/jailgun-workflow/src/scheduler.rs:36-65 | between two grants to one run, every other run eligible at the second was granted itself |
| RecoveryTheorems.RecoverIsPointwise | crates/jailgun-workflow/src/recovery.rs:37-63 | the whole effect of recovery row by row: prepared attempts fail and free their reservation, submissions in progress become uncertain and keep it, runs in doubt wait for reconciliation, nothing else changes |
| RecoveryTheorems.RecoverIsLogged | crates/jailgun-workflow/src/recovery.rs:45-57 | recovery logs every attempt that was never submitted and, for every run it puts in doubt, its first conversation, oldest reservation first |
| RecoveryTheorems.RecoverReturnsActive | crates/jailgun-workflow/src/recovery.rs:57-61 | the leases recovery returns are those still active afterwards, oldest first |
| RecoveryTheorems.RecoverIsIdempotent | crates/jailgun-workflow/src/recovery.rs:37-63 | a second recovery, at any time, changes no row and returns the same leases |
| ReconciliationMemory.StepRemembers | crates/jailgun-workflow/src/recovery.rs:132-146 | under every transaction a run enters reconciliation remembering its status, keeps that memory, and leaves only to cancelled, completed, paused for a wrong model, or the remembered status |
| ReconciliationMemory.MemoryLasts | crates/jailgun-workflow/src/scheduler.rs:145-148 | however many failures and recoveries follow, the run remembers the status it had when its reconciliation began |
| ReconciliationMemory.ReconciliationReturns | crates/jailgun-workflow/src/recovery.rs:28 | a reconciliation ends where it began: paused stays paused, anything else is queued, unless the run is cancelled, completed or paused for a wrong model |
| Outcomes.EndedRunsStay | crates/jailgun-workflow/src/runs.rs:155-175 | a completed or cancelled run keeps its status and is never charged again |
| Outcomes.EndedTasksStay | crates/jailgun-workflow/src/scheduler.rs:187-190 | a completed or excluded task never changes again |
| Outcomes.EndedAttemptsStay | crates/jailgun-workflow/src/scheduler.rs:136-138 | an attempt that was captured, failed or stopped never changes again |
| Outcomes.SubmissionIsIdempotent | crates/jailgun-workflow/src/runs.rs:32-40 | submitting a request again, whatever has happened since, names the same run and changes nothing |
| Outcomes.SentAtMostOnce | crates/jailgun-workflow/src/scheduler.rs:81 | over any history with crashes and recoveries, an attempt enters submission at most once |
| Outcomes.ChargedAtMostOnce | crates/jailgun-workflow/src/scheduler.rs:81-84 | the log never charges an attempt twice |
| Outcomes.NoRetryInFlight | crates/jailgun-workflow/src/recovery.rs:51-57 | from its submission until its conversation is resolved, no further attempt of a task exists in any state in between |
| Outcomes.RecoveryResendsNothing | crates/jailgun-workflow/src/recovery.rs:45-50 | recovery leaves submission counts alone and changes a task only if its live attempt was still prepared |
| Outcomes.ReservationsStayUntilGivenBack | crates/jailgun-workflow/src/scheduler.rs:159-173 | a reservation keeps its row until its attempt is settled by its owner, its stop is acknowledged, or a restart finds it unsent; cancelling does not release it |
| LeaseTheorems.LeaseOperationsAreIsolated | crates/jailgun-workflow/src/scheduler.rs:212-223 | every operation that takes a lease, genuine or forged, leaves every row but those of the lease's own run header, task, attempt, reservation and account as it was |
| LeaseTheorems.UnownedChangesNothing | crates/jailgun-workflow/src/scheduler.rs:212-223 | a lease that is not owned changes nothing and is refused, or is a no-op of an acknowledgement |
| LeaseTheorems.StaleLeaseIsInert | crates/jailgun-workflow/src/artifacts.rs:80-82 | once its attempt has ended, a lease changes nothing in any later state, so an attempt is settled at most once |
| Cooldowns.StepKeepsShut | crates/jailgun-workflow/src/accounts.rs:80-82 | an account that is not ready and cooling down until U stays so and unused under every transaction but a successful verification or confirmation at a time of at least U |
| Cooldowns.CooldownIsAGate | crates/jailgun-workflow/src/accounts.rs:110-121 | after a rate limit until U, a claim or submission on the account is preceded by a verification or confirmation committed at a time of at least U |
| Cooldowns.NoUseBeforeCooldown | crates/jailgun-workflow/src/accounts.rs:110-121 | with a clock that never runs backwards the account is not used before U |
| OperatorHold.HeldIsFreedFirst | crates/jailgun-workflow/src/accounts.rs:80-82 | an account on hold is claimed or submitted on again only after a successful operator verification or a confirmation, an expired login, or an operator verification refused for another identity |
| OperatorHold.HoldLastsIff | crates/jailgun-workflow/src/accounts.rs:110-121 | until the account is ready again, the hold lasts exactly as long as neither an expired login nor a refused operator verification has come since the last rate limit |
| OperatorHold.ReopenedByTheOperator | crates/jailgun-workflow/src/accounts.rs:80-95 | without those two, the transaction that makes the account ready again is a successful operator verification or a confirmation |
| OperatorHold.OperatorIsNeededIff | crates/jailgun-workflow/src/accounts.rs:80-108 | a verification without an operator that is otherwise in order succeeds on an account that was put on hold exactly when one of those two has come since the last rate limit |
| OperatorHold.HoldLiftedExample | crates/jailgun-workflow/src/accounts.rs:97-108 | from the empty database: registered, rate limited twice and held, its login expired, verified without an operator |
| Handoffs.PromptIsTotal | crates/jailgun-workflow/src/artifacts.rs:147-168 | for every owned lease the prompt exists; a reduction gets the summary of every completed candidate and, for each earlier stage, an artifact of the attempt that completed it |
| Handoffs.ResultIsThere | crates/jailgun-workflow/src/artifacts.rs:121-145 | a completed run has its manifest and the complete final text of the attempt that completed the revision |
| Texts.TextReadIsCompleteIff | crates/jailgun-workflow/src/artifacts.rs:55-60 | when a synthesis or critique is captured completely, later stages read the complete text exactly when no incomplete text of the attempt is listed before it |
| Texts.HandedTextIsCompleteIff | crates/jailgun-workflow/src/artifacts.rs:19-29 | over any history, from that capture on for ever, later stages read the complete text exactly when no partial text was preserved for the attempt at an earlier time and identifier |
| Texts.PartialsArePreserved | crates/jailgun-workflow/src/artifacts.rs:17-29 | the incomplete texts of an attempt in progress are exactly those an accepted preserve_partial stored |
| Texts.ComparisonIsComplete | crates/jailgun-workflow/src/artifacts.rs:67-69 | the comparison handed on is always complete |
| Witness.InterruptionIsReachable | crates/jailgun-workflow/src/artifacts.rs:147-168 | from the empty database: five candidates, their comparison, and a synthesis saved cut off and then captured whole, after which later stages read the text that was cut off |
| Witness.CompletionIsReachable | crates/jailgun-workflow/src/artifacts.rs:91-99 | from the empty database a run can be completed |
| Handoffs.PartialTextIsHandedOn | crates/jailgun-workflow/src/artifacts.rs:156-164 | preserving partial text and then capturing the same attempt makes later stages read the partial text |
| Handoffs.EveryInterruptionShowsIt | crates/jailgun-workflow/src/artifacts.rs:19-29 | the two captures are accepted for every accepted synthesis or critique within its time, with given texts, and later stages read the text that was cut off |
| Operations.ClaimKeeps | crates/jailgun-workflow/src/scheduler.rs:19-69 | a claim keeps the invariant and moves rows only forward |
| Operations.BeginSubmissionKeeps | crates/jailgun-workflow/src/scheduler.rs:72-88 | a submission keeps the invariant: log, budget, pacing and account stay in step |
| Operations.AcceptKeeps | crates/jailgun-workflow/src/scheduler.rs:90-123 | an acceptance keeps the invariant |
| Operations.FailAttemptKeeps | crates/jailgun-workflow/src/scheduler.rs:125-157 | a failure, of whatever disposition, keeps the invariant |
| Operations.AcknowledgeCancelKeeps | crates/jailgun-workflow/src/scheduler.rs:160-174 | an acknowledged stop keeps the invariant |
| Operations.SubmitKeeps | crates/jailgun-workflow/src/runs.rs:24-66 | a submitted request keeps the invariant |
| Operations.SuspendKeeps | crates/jailgun-workflow/src/runs.rs:98-123 | a pause keeps the invariant |
| Operations.ResumeKeeps | crates/jailgun-workflow/src/runs.rs:125-153 | a resume keeps the invariant: every requeued task is paid for by its event, and an exclusion finds nothing running |
| Operations.CancelKeeps | crates/jailgun-workflow/src/runs.rs:156-175 | a cancellation keeps the invariant |
| CaptureOperations.StoreCaptureKeeps | crates/jailgun-workflow/src/artifacts.rs:31-103 | storing a response keeps the invariant, whether it completes its stage, is retried, is partial, mismatches its model, or finishes the run |
| CaptureOperations.WrittenHasResult | crates/jailgun-workflow/src/artifacts.rs:58-72 | a response that passes its validation leaves the artifact its stage hands on, and a candidate its summary |
| RecoveryOperations.RecoverKeeps | crates/jailgun-workflow/src/recovery.rs:37-63 | recovery keeps the invariant |
| RecoveryOperations.ResumeReattachedKeeps | crates/jailgun-workflow/src/recovery.rs:15-33 | a resume after reattachment keeps the invariant |
| RecoveryOperations.ReattachKeeps | crates/jailgun-workflow/src/recovery.rs:79-89 | a reattachment keeps the invariant |
| RecoveryOperations.VerifyAccountKeeps | crates/jailgun-workflow/src/accounts.rs:67-95 | a verification keeps the invariant, also when it commits a mismatch |
| RecoveryOperations.AccountLoginExpiredKeeps | crates/jailgun-workflow/src/accounts.rs:97-108 | an expired login keeps the invariant |
| RecoveryOperations.RateLimitedKeeps | crates/jailgun-workflow/src/accounts.rs:110-121 | a rate limit keeps the invariant |
| RecoveryOperations.RegisterKeeps | crates/jailgun-workflow/src/accounts.rs:123-172 | a registration keeps the invariant: one provider identity binds one account |
| RecoveryOperations.LoginStateKeeps | crates/jailgun-workflow/src/account_sessions.rs:103-134 | a login state keeps the invariant |
| RecoveryOperations.ObserveAccountKeeps | crates/jailgun-workflow/src/account_sessions.rs:136-152 | an observation keeps the invariant |
| RecoveryOperations.ConfirmAccountKeeps | crates/jailgun-workflow/src/account_sessions.rs:155-179 | a confirmation keeps the invariant |
| WorkflowStore.Store.NextTask | crates/jailgun-workflow/src/scheduler.rs:177-210 | the loop finds the first queued task whose prerequisites are complete |
| WorkflowStore.Store.ExplorationDone | crates/jailgun-workflow/src/scheduler.rs:178-186 | the loop decides whether every candidate is settled and at least three are completed |
| WorkflowStore.Store.Claim | crates/jailgun-workflow/src/scheduler.rs:19-69 | changes the rows exactly as the claim transaction and keeps the invariant |
| WorkflowStore.Store.BeginSubmission | crates/jailgun-workflow/src/scheduler.rs:72-88 | changes the rows exactly as the submission transaction and keeps the invariant |
| WorkflowStore.Store.Accept | crates/jailgun-workflow/src/scheduler.rs:90-123 | changes the rows exactly as the acceptance transaction and keeps the invariant |
| WorkflowStore.Store.FailAttempt | crates/jailgun-workflow/src/scheduler.rs:125-157 | changes the rows exactly as the failure transaction and keeps the invariant |
| WorkflowStore.Store.AcknowledgeCancel | crates/jailgun-workflow/src/scheduler.rs:160-174 | changes the rows exactly as the acknowledgement transaction and keeps the invariant |
| WorkflowStore.Store.SettleReconciliation | crates/jailgun-workflow/src/recovery.rs:132-146 | ends the reconciliation of a run exactly when its last reservation is gone |
| WorkflowStore.Store.Submit | crates/jailgun-workflow/src/runs.rs:24-66 | changes the rows exactly as the submit transaction and keeps the invariant |
| WorkflowStore.Store.FindRequest | crates/jailgun-workflow/src/runs.rs:35-40 | finds the one run submitted under a key |
| WorkflowStore.Store.NewTasks | crates/jailgun-workflow/src/runs.rs:60-61 | inserts the candidates in order and then the four reductions, all queued |
| WorkflowStore.Store.Suspend | crates/jailgun-workflow/src/runs.rs:98-123 | changes the rows exactly as the suspend transaction and keeps the invariant |
| WorkflowStore.Store.Resume | crates/jailgun-workflow/src/runs.rs:125-153 | changes the rows exactly as the resume transaction and keeps the invariant |
| WorkflowStore.Store.ReopenTasks | crates/jailgun-workflow/src/runs.rs:134-145 | excludes the open candidates, or queues every stopped task whose latest attempt failed or was partial |
| WorkflowStore.Store.Cancel | crates/jailgun-workflow/src/runs.rs:156-175 | changes the rows exactly as the cancel transaction and keeps the invariant |
| WorkflowStore.Store.Recover | crates/jailgun-workflow/src/recovery.rs:37-63 | changes the rows exactly as recovery and keeps the invariant |
| WorkflowStore.Store.ResumeReattached | crates/jailgun-workflow/src/recovery.rs:15-33 | changes the rows exactly as the resume after reattachment and keeps the invariant |
| WorkflowStore.Store.Reattach | crates/jailgun-workflow/src/recovery.rs:79-89 | changes the rows exactly as the reattachment and keeps the invariant |
| WorkflowStore.Store.Register | crates/jailgun-workflow/src/accounts.rs:123-172 | changes the rows exactly as the registration and keeps the invariant |
| WorkflowStore.Store.VerifyAccount | crates/jailgun-workflow/src/accounts.rs:67-95 | changes the rows exactly as the verification and keeps the invariant |
| WorkflowStore.Store.AccountLoginExpired | crates/jailgun-workflow/src/accounts.rs:97-108 | changes the rows exactly as the expired login and keeps the invariant |
| WorkflowStore.Store.RateLimited | crates/jailgun-workflow/src/accounts.rs:110-121 | changes the rows exactly as the rate limit and keeps the invariant |
| WorkflowStore.Store.LoginState | crates/jailgun-workflow/src/account_sessions.rs:103-134 | changes the rows exactly as the login state transaction and keeps the invariant |
| WorkflowStore.Store.ObserveAccount | crates/jailgun-workflow/src/account_sessions.rs:136-152 | changes the rows exactly as the observation and keeps the invariant |
| WorkflowStore.Store.ConfirmAccount | crates/jailgun-workflow/src/account_sessions.rs:155-179 | changes the rows exactly as the confirmation and keeps the invariant |
| WorkflowStore.Store.StoreCapture | crates/jailgun-workflow/src/artifacts.rs:31-103 | changes the rows exactly as the capture transaction and keeps the invariant |
| WorkflowStore.Store.constructor | db/migrations/0001_workflows.sql:6-137 | an empty store satisfies the invariant |
| Ranking.Rank | crates/jailgun-workflow/src/prompts.rs:44-93 | succeeds exactly when the evaluations biject with the distinct candidates and each scores every criterion exactly once within its limits; the result is the ranking by score, then candidate |
| Ranking.CompleteIff | crates/jailgun-workflow/src/prompts.rs:44-81 | a comparison is complete exactly when every candidate is evaluated once, with one score from 0 to 100 and a rationale for each criterion, and with its uncertainty |
| Ranking.Pigeonhole | crates/jailgun-workflow/src/prompts.rs:52-81 | distinct entries drawn from a list of the same length are a permutation of it, which is why the checks of the loops amount to a bijection |
| Ranking.WeightedIsFullSum | crates/jailgun-workflow/src/prompts.rs:63-76 | the running sum over the scores is the full weighted sum over the criteria |
| Ranking.ScoreNeverExceedsLimit | crates/jailgun-workflow/src/prompts.rs:75-88 | with weights that total 100 a score is at most 10000 hundredths |
| Ranking.ScoreOrderIrrelevant | crates/jailgun-workflow/src/prompts.rs:64-76 | the order of the scores inside an evaluation does not matter |
| Ranking.DescendingUnique | crates/jailgun-workflow/src/prompts.rs:82 | there is only one order by descending score and ascending candidate |
| Ranking.RankingIsCanonical | crates/jailgun-workflow/src/prompts.rs:82-92 | every permutation of the evaluations gives the same ranking |
| Ranking.RankedRowsAreFullSums | crates/jailgun-workflow/src/prompts.rs:75-91 | every row of a ranking carries the full weighted sum of its evaluation |
| FencedJson.JsonBlocks | crates/jailgun-workflow/src/capture.rs:55-81 | the one-pass scanner returns the documents of the block structure of the text |
| FencedJson.BlocksCompose | crates/jailgun-workflow/src/capture.rs:55-81 | a text that ends outside a block is read on its own: what follows adds its own documents and nothing else |
| FencedJson.RenderThenRead | crates/jailgun-workflow/src/capture.rs:60-79 | reading a rendered list of prose and blocks gives exactly the documents of its json blocks, in order; blocks with another info string contribute nothing, whatever they contain |
| FencedJson.TextRoundTrip | crates/jailgun-workflow/src/capture.rs:60-79 | the same for the text itself, line breaks included: every json body comes back without its indentation |
| FencedJson.UnterminatedIsSilent | crates/jailgun-workflow/src/capture.rs:63-73 | a block that is never closed contributes nothing and hides what follows |
| FencedJson.UniqueFieldIff | crates/jailgun-workflow/src/capture.rs:45-53 | a field is found exactly when one document, and no other, has it |
| FencedJson.RepeatedFieldIsRefused | crates/jailgun-workflow/src/capture.rs:45-53 | data given in two parts of a response is not used |
| StartupUnit.QuoteIsSimultaneous | crates/jailgun-core/src/startup_unit.rs:60-68 | the four chained replacements are one simultaneous escape of each character |
| StartupUnit.XmlIsSimultaneous | crates/jailgun-core/src/startup_unit.rs:69-77 | the five chained replacements are one simultaneous escape of each character |
| StartupUnit.ReadsBack | crates/jailgun-core/src/startup_unit.rs:60-68 | reading a quoted word by the rules of a unit file gives back its text and ends at its closing quote |
| StartupUnit.CommandReadsBack | crates/jailgun-core/src/startup_unit.rs:14-24 | splitting the printed command into words gives back the env prefix, the executable and the arguments, whatever characters they contain |
| StartupUnit.StartsTheExecutableIff | crates/jailgun-core/src/startup_unit.rs:14-24 | the program env starts is the executable with exactly its arguments if and only if the path of the executable has no equals sign |
| StartupUnit.AssignedInsteadOfStarted | crates/jailgun-core/src/startup_unit.rs:14-24 | an accepted executable below /opt/a=b is taken as an assignment and its first argument is started |
| StartupUnit.TextReadsBack | crates/jailgun-core/src/startup_unit.rs:69-77 | resolving the predefined entities gives back the text if and only if all its characters are allowed in XML |
| StartupUnit.ArgumentsReadBack | crates/jailgun-core/src/startup_unit.rs:32-38 | reading the program arguments of the property list gives back the argument list if and only if all their characters are allowed in XML |
| StartupUnit.LogPathReadsBack | crates/jailgun-core/src/startup_unit.rs:25-26 | expanding the specifiers of the log directive gives back the log path |
| StartupUnit.QuotedStaysOnItsLine | crates/jailgun-core/src/startup_unit.rs:53-62 | a quoted word cannot end the line it is printed on |
| StartupUnit.Systemd | crates/jailgun-core/src/startup_unit.rs:12-28 | prints a unit exactly when nothing speaks against the definition, with a command line and a log path that read back, and that starts the executable exactly when its path has no equals sign |
| StartupUnit.Launchd | crates/jailgun-core/src/startup_unit.rs:30-42 | prints a property list exactly when nothing speaks against the definition; as a document it gives back name, command and log path if and only if no path or argument holds a character XML excludes |
| StartupUnit.PlistReadsBack | crates/jailgun-core/src/startup_unit.rs:39-41 | the whole printed document reads back if and only if its texts are allowed in XML |
| StartupUnit.PrintedButUnreadable | crates/jailgun-core/src/startup_unit.rs:52-58 | an accepted argument, U+FFFE alone, whose property list is no document |
| ArtifactChunks.BoundaryIffOffset | crates/jailgun-workflow/src/artifact_reads.rs:29-37 | the boundary test on bytes holds exactly at the offsets of characters and at the end |
| ArtifactChunks.ArtifactChunk | crates/jailgun-workflow/src/artifact_reads.rs:9-45 | refuses exactly the bad limits, texts and offsets, and returns as many whole characters as fit; stepping back takes at most three steps |
| ArtifactChunks.PagesAreTheText | crates/jailgun-workflow/src/artifact_reads.rs:32-44 | following the returned offsets ends, always moves forward, respects every limit, and the chunks joined are the rest of the text |
| ArtifactChunks.ReadingIsComplete | crates/jailgun-workflow/src/artifact_reads.rs:32-44 | reading from offset zero gives the whole text |
| Cleanup.CleanupRemoteCheckout | crates/jailgun-deploy/src/cleanup.rs:120-158 | against any remote, a reset happens only after the old HEAD was preserved, recorded, seen unchanged and clean again, and its exact target recorded; every outcome reports what happened, every error is that of the last call, and everything written names the request, its time and the places derived from them |
| Cleanup.PreserveThenReset | crates/jailgun-deploy/src/cleanup.rs:160-241 | a preserved reset ends with HEAD at its target, a clean status and its last receipt written, or reports the error that its last call stands for |
| Cleanup.Preserve | crates/jailgun-deploy/src/cleanup.rs:167-217 | succeeds exactly when all six calls of the preparation go well, in order, never resets, and names the call that failed |
| Cleanup.Remote.ResetPreserved | crates/jailgun-deploy/src/shell/git.rs:156-179 | the guarded reset moves HEAD, or the branch it is on, only when HEAD is the preserved commit, held by its reference, and nothing is uncommitted; afterwards the reference still holds it exactly when HEAD was not on the reference |
| Cleanup.ResetMayMoveTheReference | crates/jailgun-deploy/src/shell/git.rs:156-179 | with HEAD on the preserving reference every guard passes and the reset moves the reference |
| Cleanup.Sanitize | crates/jailgun-deploy/src/cleanup.rs:297-315 | a fragment of a reference or file name is never empty, never starts or ends with a dash, and has only letters, digits, dashes and underscores |
| Cleanup.RefLeafIsSafe | crates/jailgun-deploy/src/cleanup.rs:168-172 | the name of the preserving reference below its prefix has only characters a branch may have |
| Cleanup.ReceiptFileIsSafe | crates/jailgun-deploy/src/cleanup.rs:260-315 | a receipt is a plain file below the directory of its run, whatever the run and the timestamp hold |

## Left out

- SQLite itself, WAL, file permissions, locks, migrations, backup and restore: foreign calls and file input and output; constraints and triggers that a modelled transaction can meet are modelled.
- Identifiers: account and run names and drawn UUIDs are natural numbers whose order stands for the order of their text; checks on the format of account names are not modelled.
- Drawn identifiers are arguments of the transactions; one that is already in use is refused as a violated primary key would be, before rather than after the other checks.
- Attempts are identified by their unique run, task and number; task rows are kept in the listing order of `read_run` inside their run.
- Expired runs are swept in the order of their identifiers; the source reads them without an order.
- Criterion names are compared after trimming but without Unicode case folding, and the weights of criteria and scores are unbounded naturals inside the checked ranges.
- Request hashes: equality of the content hash is modelled as equality of the requests.
- Acceptance checks on the conversation URL, and the profile, port and name checks of a registration, are single boolean verdicts.
- Import of an account registry is the registration of its accounts one by one; digests and backup files of the import are not modelled.
- Attempts accepted before user turns were recorded (schema 1) are not modelled, so a reattached attempt always has its turn.
- The JSON length of a candidate summary is a field; JSON parsing in the fenced-block scanner is an arbitrary partial function.
- Artifact bytes, hashes and integrity checks: an artifact row carries its content.
- Prompt wording and size limits, event payloads and error texts: only event kinds, order and error codes are kept.
- The division of a weighted score by 100 is left out: scores are whole hundredths.
- UTF-8 decoding of a stored artifact is a library call: the chunk reader is given the text, or that there is none.
- The word splitting of systemd is modelled for the escapes the printer uses; other escapes and quoting styles are refused by the modelled reader.
- Of `env` only the operands after `--` are modelled, and of XML only documents with the fixed markup of the printer; a character outside production 2 of XML 1.0 is refused wherever text is read.
- The remote commands of a cleanup are modelled by their effect on HEAD, branches, status, origin and references; receipts are written to the path they name, and the wire protocol is left out.
- Listing queries, readiness summaries, connecting an account with a port search, the HTTP and MCP servers, authentication, notifications, the browser bridge, deployment polling and the user interface: plumbing around the modelled core, or easy members.
- Eventual service of every run: it depends on when callers claim and on clocks outside the model; what is proved is the order of service.
