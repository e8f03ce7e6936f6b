/** The rows of the workflow database (db/migrations and crates/jailgun-workflow/src/model.rs). */
module Tables {
  import opened Text
  import Ranking

  // ---------- Identifiers and time ----------

  /** An account or run name, or a drawn UUID; its numeric order stands for the order of its text. */
  type Id = nat

  const MIN_MS: int := -0x8000_0000_0000_0000
  const MAX_MS: int := 0x7FFF_FFFF_FFFF_FFFF
  type Millis = x: int | MIN_MS <= x <= MAX_MS

  const RUN_DEADLINE_MS: int := 3 * 60 * 60 * 1000
  const RESPONSE_TIMEOUT_MS: int := 30 * 60 * 1000
  const SUBMISSION_SPACING_MS: int := 30_000
  const MAX_JITTER_MS: int := 5_000
  const OBSERVATION_MS: int := 30_000
  const RATE_LIMIT_MS: int := 300_000
  const MAX_SLOTS: nat := 10
  const MAX_ATTEMPTS: nat := 28
  const SUMMARY_CHAR_LIMIT: nat := 6_000

  function Clamp(n: int): Millis {
    if n < MIN_MS then MIN_MS else if n > MAX_MS then MAX_MS else n
  }

  function SatAdd(a: Millis, n: int): Millis { Clamp(a + n) }
  function SatSub(a: Millis, b: Millis): Millis { Clamp(a - b) }
  function Max(a: Millis, b: Millis): Millis { if a < b then b else a }
  function Min(a: nat, b: nat): nat { if a < b then a else b }

  // ---------- Error, pause and failure codes ----------

  datatype Code =
    | RunDeadline | BudgetExhausted | IncompleteResults | OperatorPaused | ModelMismatch
    | ResponseTimeout | GenerationInterrupted | EmptyResponse | InvalidSummary | ContextTooLarge
    | InvalidEvaluation | InterruptedBeforeSubmission | SubmissionUncertain | RestartReconciliation
    | RunWasCancelled | IdentityMismatch | AuthenticationExpired | LoginCancelled | AccountCoolingDown
    | VerificationExpired | ModelUnavailable | ModelSelectionRequired | InvalidModel | InvalidRequest
    | AccountNotFound | AccountInvalid | IdentityConflict | IdempotencyConflict | SubsetUnavailable | InvalidJitter | SubmissionPaced
    | InvalidAcceptance | CaptureOwnershipMismatch | OwnershipMismatch | InvalidTransition
    | ReconciliationRequired | ResultNotComplete | NotFound | StorageError
    | Custom(text: string)

  // ---------- Accounts ----------

  datatype Readiness = LoginRequired | Ready | Expired | Mismatch | LoginFailed | Cooldown | OnHold

  datatype Account = Account(
    email: string, provider: Option<string>, capacity: nat, readiness: Readiness,
    nextSubmit: Millis, submissionAllowed: Millis, cooldownUntil: Millis, rateLimits: nat)

  datatype Identity = Identity(id: string, email: string)
  datatype ModelSelection = Current | Specific(name: string)
  datatype Observation = Observation(identity: Identity, model: string, available: seq<string>)
  datatype Lifecycle =
    | Disconnected | Starting | AwaitingLogin | WaitingForUser | Verifying | SessionReady
    | SessionExpired | SessionMismatch | SessionFailed | SessionCancelled
  datatype Session = Session(
    lifecycle: Lifecycle, model: Option<ModelSelection>, observation: Option<Observation>, observed: Option<Millis>,
    loginExpires: Option<Millis>, error: Option<Code>)

  // ---------- Runs and tasks ----------

  datatype Stage = Explore | Compare | Synthesize | Critique | Revise

  datatype Request = Request(
    account: Id, concept: string, constraints: string, candidates: nat, criteria: seq<Ranking.Criterion>, key: string)

  datatype RunStatus = Queued | Running | Paused | WaitingForAuth | Reconciling | Completed | Cancelled | Failed

  datatype TaskStatus = Todo | Active | Done | Partial | Broken | Excluded

  datatype Summary = Summary(
    proposal: string, strengths: seq<string>, weaknesses: seq<string>, assumptions: seq<string>, nextSteps: seq<string>,
    jsonChars: nat)

  datatype Task = Task(
    stage: Stage, position: nat, status: TaskStatus, attempts: nat, summary: Option<Summary>, error: Option<Code>)

  /** A run row with its task rows in the order `read_run` lists them. */
  datatype Run = Run(
    request: Request, model: ModelSelection, status: RunStatus, pauseReason: Option<Code>, recovery: Option<RunStatus>,
    created: Millis, deadline: Millis, submissions: nat, limit: nat, allowIncomplete: bool, tasks: seq<Task>)

  datatype TaskId = TaskId(run: Id, task: nat)

  // ---------- Attempts, reservations, leases ----------

  /** Attempts are identified by their unique (task, number) pair. */
  datatype AttemptId = AttemptId(run: Id, task: nat, number: nat)

  datatype AttemptState =
    | Prepared | Submitting | Accepted | Uncertain
    | Captured | CapturedPartly | Abandoned | Stopped

  datatype Turn = Turn(conversation: string, url: string, userTurn: string, model: string)

  datatype Attempt = Attempt(
    state: AttemptState, created: Millis, turn: Option<Turn>, accepted: Option<Millis>, completed: Option<Millis>,
    error: Option<Code>, retryable: bool)

  /** States in which an attempt still holds its reservation. */
  predicate Live(s: AttemptState) { s.Prepared? || s.Submitting? || s.Accepted? || s.Uncertain? }

  /** States in which the provider may hold the prompt. */
  predicate InFlight(s: AttemptState) { s.Submitting? || s.Accepted? || s.Uncertain? }

  datatype Reservation = Reservation(account: Id, run: Id, attempt: AttemptId, created: Millis, spacing: int)

  datatype Lease = Lease(
    reservation: Id, account: Id, run: Id, task: TaskId, attempt: AttemptId, stage: Stage, position: nat)

  // ---------- Artifacts and events ----------

  datatype ArtifactName =
    | CandidateText(position: nat) | StageText(stage: Stage) | FinalText
    | SummaryFile(position: nat) | ComparisonFile | ManifestFile

  datatype Content =
    | Markdown(text: string) | SummaryJson(summary: Summary) | RankingJson(rows: seq<Ranking.Ranked>)
    | Manifest(final: Option<Id>, excluded: seq<nat>)

  datatype Artifact = Artifact(
    run: Id, attempt: Option<AttemptId>, name: ArtifactName, content: Content, complete: bool, created: Millis)

  datatype EventKind =
    | RunCreated | RunPaused | RunResumed(allowIncomplete: bool) | RunCancelled | RunFinished
    | AttemptPrepared(attempt: AttemptId) | SubmissionStarted(attempt: AttemptId) | PromptAccepted(attempt: AttemptId)
    | AttemptFailed(attempt: AttemptId) | ResponseCaptured(attempt: AttemptId) | ConversationStopped(attempt: AttemptId)
    | RecoveredBeforeSubmission(attempt: AttemptId) | ReconciliationStarted(attempt: AttemptId)
    | ReconciliationFinished | ConversationsReconciled | ConversationReattached(attempt: AttemptId)
    | AccountLoginRequired | AccountVerified | AccountRateLimited

  /** The row at index n of the log has sequence number n + 1. */
  datatype Event = Event(run: Id, kind: EventKind, at: Millis)

  // ---------- The database ----------

  datatype Db = Db(
    accounts: map<Id, Account>, sessions: map<Id, Session>, runs: map<Id, Run>, attempts: map<AttemptId, Attempt>,
    reservations: map<Id, Reservation>, artifacts: map<Id, Artifact>, events: seq<Event>)

  const EMPTY: Db := Db(map[], map[], map[], map[], map[], map[], [])

  datatype Reply =
    | Ok | Refused(code: Code) | Submitted(run: Id) | Claimed(lease: Option<Lease>) | Leases(leases: seq<Lease>)
    | Flag(value: bool)

  /** One committed (or rolled back) transaction: the rows after it and what the caller is told. */
  datatype Outcome = Outcome(db: Db, reply: Reply)

  function Refuse(db: Db, code: Code): Outcome { Outcome(db, Refused(code)) }

  // ---------- Row updates shared by the operations ----------

  function Log(db: Db, r: Id, kind: EventKind, now: Millis): Db {
    db.(events := db.events + [Event(r, kind, now)])
  }

  function SetRun(db: Db, r: Id, run: Run): Db {
    db.(runs := db.runs[r := run])
  }

  function SetTask(run: Run, i: nat, task: Task): Run
    requires i < |run.tasks|
  {
    run.(tasks := run.tasks[i := task])
  }

  predicate Terminal(s: RunStatus) { s.Completed? || s.Cancelled? || s.Failed? }

  function PauseRun(db: Db, r: Id, reason: Code, now: Millis): Db
    requires r in db.runs
  {
    Log(SetRun(db, r, db.runs[r].(status := Paused, pauseReason := Some(reason))), r, RunPaused, now)
  }

  /** The attempt row exists together with its task and run, as the foreign keys demand. */
  predicate Joined(db: Db, k: AttemptId) {
    k in db.attempts && k.run in db.runs && k.task < |db.runs[k.run].tasks|
  }

  /** `verify_lease`: the named reservation owns exactly this account, run, attempt, task, stage and position. */
  predicate Owns(db: Db, lease: Lease) {
    lease.reservation in db.reservations &&
    var held := db.reservations[lease.reservation];
    && Joined(db, held.attempt) && held.run == held.attempt.run
    && held.account == lease.account && held.run == lease.run && held.attempt == lease.attempt
    && lease.task == TaskId(held.attempt.run, held.attempt.task)
    && db.runs[lease.run].tasks[held.attempt.task].stage == lease.stage
    && db.runs[lease.run].tasks[held.attempt.task].position == lease.position
  }

  /** The status a run returns to when its reconciliation ends. */
  function Remembered(run: Run): RunStatus {
    if run.recovery == Some(Paused) then Paused else Queued
  }

  function Reconciled(run: Run): Run {
    run.(status := Remembered(run), recovery := None,
         pauseReason := if run.recovery == Some(Paused) then Some(OperatorPaused) else None)
  }

  predicate HoldsReservation(db: Db, r: Id) {
    exists x | x in db.reservations :: db.reservations[x].run == r
  }

  /** `settle_reconciliation`: the last released reservation ends the reconciliation of its run. */
  function Settle(db: Db, r: Id, now: Millis): Db
    requires r in db.runs
  {
    if !HoldsReservation(db, r) && db.runs[r].status.Reconciling?
    then Log(SetRun(db, r, Reconciled(db.runs[r])), r, ReconciliationFinished, now)
    else db
  }

  /** A run with an unresolved conversation: the status before the first such event is remembered. */
  function Unresolved(run: Run, reason: Option<Code>): Run {
    if Terminal(run.status) then run
    else run.(recovery := if run.status.Reconciling? then run.recovery else Some(run.status),
              status := Reconciling, pauseReason := reason)
  }
}
