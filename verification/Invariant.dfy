/** What holds of the rows in every reachable state, and how rows may change. */
module Invariant {
  import opened Text
  import opened Tables
  import opened Scheduler
  import opened Runs
  import opened Artifacts

  // ---------- One run with its tasks ----------

  predicate TaskOk(t: Task, allowIncomplete: bool) {
    && t.attempts <= MAX_ATTEMPTS
    && (t.status.Active? || t.status.Done? || t.status.Partial? || t.status.Broken? ==> t.attempts > 0)
    && (t.status.Excluded? ==> t.stage.Explore? && allowIncomplete)
    && (t.stage.Explore? && t.status.Done? ==> t.summary.Some?)
  }

  /** Everything a reduction at index `i` builds on is complete. */
  predicate StageOpen(run: Run, i: nat) {
    && ExplorationDone(run)
    && forall j | run.request.candidates <= j < i && j < |run.tasks| :: run.tasks[j].status.Done?
  }

  predicate RecoveryOk(run: Run) {
    && (run.status.Reconciling? ==> run.recovery.Some?)
    && (run.recovery.Some? ==> !Terminal(run.recovery.value) && !run.recovery.value.Reconciling?)
  }

  predicate RunOk(run: Run) {
    var n := run.request.candidates;
    && 5 <= n <= 10 && |run.tasks| == n + 4
    && (forall i | 0 <= i < |run.tasks| :: run.tasks[i].stage == StageAt(n, i) && run.tasks[i].position == NewTask(n, i).position)
    && (forall i | 0 <= i < |run.tasks| :: TaskOk(run.tasks[i], run.allowIncomplete))
    && (forall i | n <= i < |run.tasks| && run.tasks[i].attempts > 0 :: StageOpen(run, i))
    && run.limit == 2 * (n + 4) && run.submissions <= run.limit && run.created < run.deadline
    && RecoveryOk(run) && !run.status.Failed?
    && (run.status.Completed? ==> run.tasks[n + 3].status.Done?)
  }

  ghost predicate RunsOk(db: Db) {
    && db.sessions.Keys == db.accounts.Keys
    && (forall r | r in db.runs :: RunOk(db.runs[r]) && db.runs[r].request.account in db.accounts)
    && forall r, s | r in db.runs && s in db.runs && db.runs[r].request.key == db.runs[s].request.key :: r == s
  }

  // ---------- Attempts and reservations ----------

  /** The attempt is one of those its task has counted. */
  predicate Counted(db: Db, k: AttemptId) {
    k.run in db.runs && k.task < |db.runs[k.run].tasks| && 1 <= k.number <= db.runs[k.run].tasks[k.task].attempts
  }

  /** How the latest attempt of a task explains its status. */
  predicate Explains(s: AttemptState, t: TaskStatus) {
    match t
    case Active => Live(s)
    case Done => s.Captured?
    case Partial => s.CapturedPartly?
    case Broken => s.Abandoned? || s.Stopped?
    case Todo => s.Abandoned? || s.CapturedPartly?
    case Excluded => s.Abandoned? || s.CapturedPartly?
  }

  /** The latest attempt explains its task; earlier ones ended without a result; only cancelled runs stop attempts. */
  predicate Agrees(db: Db, k: AttemptId)
    requires Counted(db, k) && k in db.attempts
  {
    var task := db.runs[k.run].tasks[k.task];
    var s := db.attempts[k].state;
    && (if k.number == task.attempts then Explains(s, task.status) else s.Abandoned? || s.CapturedPartly?)
    && (s.Stopped? ==> db.runs[k.run].status.Cancelled?)
  }

  predicate TurnKnown(a: Attempt) { a.state.Accepted? ==> a.turn.Some? }

  ghost predicate AttemptsOk(db: Db) {
    && (forall k | k in db.attempts :: Counted(db, k) && Agrees(db, k))
    && (forall k | Counted(db, k) :: k in db.attempts)
    && (forall k | k in db.attempts :: TurnKnown(db.attempts[k]))
  }

  predicate Reserved(db: Db, k: AttemptId) {
    exists x | x in db.reservations :: db.reservations[x].attempt == k
  }

  /** Reservations and live attempts correspond one to one. */
  ghost predicate ReservationsOk(db: Db) {
    && (forall x | x in db.reservations :: ReservationOk(db, db.reservations[x]))
    && (forall k | k in db.attempts && Live(db.attempts[k].state) :: Reserved(db, k))
    && forall x, y | x in db.reservations && y in db.reservations && db.reservations[x].attempt == db.reservations[y].attempt :: x == y
  }

  predicate ReservationOk(db: Db, held: Reservation) {
    && held.attempt in db.attempts && Live(db.attempts[held.attempt].state)
    && held.run == held.attempt.run && held.run in db.runs && held.account == db.runs[held.run].request.account
    && SUBMISSION_SPACING_MS <= held.spacing <= SUBMISSION_SPACING_MS + MAX_JITTER_MS
  }

  ghost predicate CapacityOk(db: Db) {
    forall a | a in db.accounts :: |Held(db.reservations, a)| <= Min(db.accounts[a].capacity, MAX_SLOTS)
  }

  predicate AccountOk(account: Account) {
    && account.capacity > 0
    && account.submissionAllowed <= account.nextSubmit
    && (account.readiness.Ready? ==> account.cooldownUntil == 0)
    && (account.readiness.OnHold? ==> account.rateLimits >= 1)
  }

  ghost predicate AccountsOk(db: Db) {
    && (forall a | a in db.accounts :: AccountOk(db.accounts[a]))
    && forall a, b | a in db.accounts && b in db.accounts && a != b ::
         db.accounts[a].provider.Some? ==> db.accounts[a].provider != db.accounts[b].provider
  }

  // ---------- The event log ----------

  predicate Starts(e: Event) { e.kind.SubmissionStarted? }

  function Submissions(events: seq<Event>, r: Id): nat {
    if events == [] then 0
    else Submissions(events[..|events| - 1], r)
         + if Starts(events[|events| - 1]) && events[|events| - 1].run == r then 1 else 0
  }

  /** Submitted at least once: everything but a prepared attempt or one that ended without a response. */
  predicate Charged(s: AttemptState) { InFlight(s) || s.Captured? || s.CapturedPartly? }

  ghost predicate Started(events: seq<Event>, k: AttemptId) {
    exists i :: 0 <= i < |events| && events[i].kind == SubmissionStarted(k)
  }

  /** A submission event names an attempt of its run that is past preparation. */
  predicate StartOk(db: Db, e: Event) {
    e.run in db.runs &&
    (Starts(e) ==> e.kind.attempt.run == e.run && e.kind.attempt in db.attempts && !db.attempts[e.kind.attempt].state.Prepared?)
  }

  ghost predicate LogOk(db: Db) {
    && (forall i | 0 <= i < |db.events| :: StartOk(db, db.events[i]))
    && (forall i, j | 0 <= i < j < |db.events| && Starts(db.events[i]) && Starts(db.events[j]) ::
          db.events[i].kind.attempt != db.events[j].kind.attempt)
    && (forall r | r in db.runs :: db.runs[r].submissions == Submissions(db.events, r))
    && (forall k | k in db.attempts && Charged(db.attempts[k].state) :: Started(db.events, k))
  }

  /** Submission on account `a`. */
  predicate StartsOn(db: Db, e: Event, a: Id) {
    Starts(e) && e.run in db.runs && db.runs[e.run].request.account == a
  }

  /** The end of the spacing that every submission is followed by. */
  function NextAfter(at: Millis): Millis { SatAdd(at, SUBMISSION_SPACING_MS) }

  ghost predicate PacingOk(db: Db) {
    && (forall i, a | 0 <= i < |db.events| && a in db.accounts && StartsOn(db, db.events[i], a) ::
          NextAfter(db.events[i].at) <= db.accounts[a].submissionAllowed)
    && forall i, j, a | 0 <= i < j < |db.events| && StartsOn(db, db.events[i], a) && StartsOn(db, db.events[j], a) ::
         NextAfter(db.events[i].at) <= db.events[j].at
  }

  // ---------- Budgets ----------

  function Resumes(events: seq<Event>, r: Id): nat {
    if events == [] then 0
    else Resumes(events[..|events| - 1], r)
         + if events[|events| - 1].run == r && events[|events| - 1].kind == RunResumed(false) then 1 else 0
  }

  /** Attempts a task has used, counting the one it is queued for. */
  function Claims(t: Task): nat { t.attempts + if t.status.Todo? then 1 else 0 }

  /** Attempts of the task that may have been submitted: all but a prepared one. */
  function Submittable(db: Db, r: Id, i: nat): nat
    requires r in db.runs && i < |db.runs[r].tasks|
  {
    var k := AttemptId(r, i, db.runs[r].tasks[i].attempts);
    if k.number > 0 && k in db.attempts && db.attempts[k].state.Prepared? then k.number - 1 else k.number
  }

  function TotalSubmittable(db: Db, r: Id, n: nat): nat
    requires r in db.runs && n <= |db.runs[r].tasks|
  {
    if n == 0 then 0 else TotalSubmittable(db, r, n - 1) + Submittable(db, r, n - 1)
  }

  ghost predicate BudgetOk(db: Db) {
    && (forall r, i | r in db.runs && 0 <= i < |db.runs[r].tasks| ::
          Claims(db.runs[r].tasks[i]) <= 2 + Resumes(db.events, r))
    && forall r | r in db.runs :: db.runs[r].submissions <= TotalSubmittable(db, r, |db.runs[r].tasks|)
  }

  // ---------- Artifacts ----------

  ghost predicate HasArtifact(db: Db, r: Id, name: ArtifactName, k: Option<AttemptId>) {
    exists id | id in db.artifacts :: Matches(db.artifacts[id], r, name, k, true)
  }

  /** The artifact a completed stage hands on; candidates hand on their summary instead. */
  function ResultName(stage: Stage, position: nat): ArtifactName {
    if stage.Explore? then CandidateText(position) else if stage.Revise? then FinalText else HandoffName(stage)
  }

  ghost predicate ArtifactsOk(db: Db) {
    && (forall k | k in db.attempts && Counted(db, k) && db.attempts[k].state.Captured? ::
          HasArtifact(db, k.run, ResultName(db.runs[k.run].tasks[k.task].stage, db.runs[k.run].tasks[k.task].position), Some(k)))
    && forall r | r in db.runs && db.runs[r].status.Completed? :: HasArtifact(db, r, ManifestFile, None)
  }

  ghost predicate Valid(db: Db) {
    && RunsOk(db) && AttemptsOk(db) && ReservationsOk(db) && CapacityOk(db) && AccountsOk(db)
    && LogOk(db) && PacingOk(db) && BudgetOk(db) && ArtifactsOk(db)
  }

  // ---------- How rows change ----------

  predicate TaskEvolves(t: Task, u: Task) {
    && u.stage == t.stage && u.position == t.position && t.attempts <= u.attempts
    && (t.status.Done? || t.status.Excluded? ==> u == t)
  }

  predicate RunEvolves(r: Run, s: Run) {
    && s.request == r.request && s.model == r.model && s.created == r.created && s.deadline == r.deadline && s.limit == r.limit
    && (r.allowIncomplete ==> s.allowIncomplete) && r.submissions <= s.submissions
    && (Terminal(r.status) ==> s.status == r.status && s.submissions == r.submissions)
    && |s.tasks| == |r.tasks|
    && forall i | 0 <= i < |r.tasks| :: TaskEvolves(r.tasks[i], s.tasks[i])
  }

  function StateRank(s: AttemptState): nat {
    match s
    case Prepared => 0
    case Submitting => 1
    case Accepted => 2
    case Uncertain => 3
    case _ => 4
  }

  predicate AttemptEvolves(a: Attempt, b: Attempt) {
    && b.created == a.created
    && StateRank(a.state) <= StateRank(b.state)
    && (!Live(a.state) ==> b == a)
  }

  predicate AccountEvolves(a: Account, b: Account) {
    && b.email == a.email && b.capacity == a.capacity
    && (a.provider.Some? ==> b.provider == a.provider)
    && a.submissionAllowed <= b.submissionAllowed && a.nextSubmit <= b.nextSubmit
  }

  /** Rows are only added or moved forward; the log and the stored artifacts only grow. */
  ghost predicate Evolves(d: Db, e: Db) {
    && (forall a | a in d.accounts :: a in e.accounts && AccountEvolves(d.accounts[a], e.accounts[a]))
    && (forall r | r in d.runs :: r in e.runs && RunEvolves(d.runs[r], e.runs[r]))
    && (forall k | k in d.attempts :: k in e.attempts && AttemptEvolves(d.attempts[k], e.attempts[k]))
    && (forall id | id in d.artifacts :: id in e.artifacts && e.artifacts[id] == d.artifacts[id])
    && d.events <= e.events
  }

  lemma EvolvesTrans(d: Db, e: Db, f: Db)
    requires Evolves(d, e) && Evolves(e, f)
    ensures Evolves(d, f)
  {
    forall r | r in d.runs ensures RunEvolves(d.runs[r], f.runs[r]) {
      RunEvolvesTrans(d.runs[r], e.runs[r], f.runs[r]);
    }
  }

  lemma RunEvolvesTrans(r: Run, s: Run, t: Run)
    requires RunEvolves(r, s) && RunEvolves(s, t)
    ensures RunEvolves(r, t)
  {
    forall i | 0 <= i < |r.tasks| ensures TaskEvolves(r.tasks[i], t.tasks[i]) {
      assert TaskEvolves(r.tasks[i], s.tasks[i]) && TaskEvolves(s.tasks[i], t.tasks[i]);
    }
  }
}
