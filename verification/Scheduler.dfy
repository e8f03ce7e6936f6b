/** The transactions of crates/jailgun-workflow/src/scheduler.rs, as functions from rows to rows. */
module Scheduler {
  import opened Text
  import opened Tables
  import opened Ordering

  // ---------- Which task is next ----------

  function CompletedExplores(tasks: seq<Task>): (n: nat)
    ensures n <= |tasks|
  {
    if tasks == [] then 0
    else CompletedExplores(tasks[..|tasks| - 1])
         + if tasks[|tasks| - 1].stage.Explore? && tasks[|tasks| - 1].status.Done? then 1 else 0
  }

  /** Every explore task is completed, or excluded where that is allowed, and at least three are completed. */
  predicate ExplorationDone(run: Run) {
    && (forall i | 0 <= i < |run.tasks| && run.tasks[i].stage.Explore? ::
          run.tasks[i].status.Done? || (run.allowIncomplete && run.tasks[i].status.Excluded?))
    && CompletedExplores(run.tasks) >= 3
  }

  predicate StageDone(run: Run, stage: Stage) {
    exists i | 0 <= i < |run.tasks| :: run.tasks[i].stage == stage && run.tasks[i].status.Done?
  }

  function Prerequisite(stage: Stage): Option<Stage> {
    match stage
    case Synthesize => Some(Compare)
    case Critique => Some(Synthesize)
    case Revise => Some(Critique)
    case _ => None
  }

  predicate Startable(run: Run, task: Task) {
    && task.status.Todo? && task.attempts < MAX_ATTEMPTS
    && (task.stage.Explore? ||
        (ExplorationDone(run) && (Prerequisite(task.stage).None? || StageDone(run, Prerequisite(task.stage).value))))
  }

  /** Index of the first startable task in listing order. */
  function NextTask(run: Run): (r: Option<nat>)
    ensures r.Some? ==> r.value < |run.tasks| && Startable(run, run.tasks[r.value])
    ensures r.Some? ==> forall i | 0 <= i < r.value :: !Startable(run, run.tasks[i])
    ensures r.None? ==> forall i | 0 <= i < |run.tasks| :: !Startable(run, run.tasks[i])
  {
    NextTaskFrom(run, 0)
  }

  function NextTaskFrom(run: Run, n: nat): (r: Option<nat>)
    requires n <= |run.tasks|
    ensures r.Some? ==> n <= r.value < |run.tasks| && Startable(run, run.tasks[r.value])
    ensures r.Some? ==> forall i | n <= i < r.value :: !Startable(run, run.tasks[i])
    ensures r.None? ==> forall i | n <= i < |run.tasks| :: !Startable(run, run.tasks[i])
    decreases |run.tasks| - n
  {
    if n == |run.tasks| then None
    else if Startable(run, run.tasks[n]) then Some(n)
    else NextTaskFrom(run, n + 1)
  }

  /** Nothing runs and something has failed: the pipeline cannot advance by itself. */
  predicate Stuck(run: Run) {
    && (forall i | 0 <= i < |run.tasks| :: !run.tasks[i].status.Active?)
    && exists i | 0 <= i < |run.tasks| :: run.tasks[i].status.Broken? || run.tasks[i].status.Partial?
  }

  // ---------- claim ----------

  /** Sequence number of the run's latest `attempt-prepared` event; zero when it has none. */
  function LastGrant(events: seq<Event>, r: Id): (n: nat)
    ensures n <= |events|
    ensures n > 0 ==> events[n - 1].run == r && events[n - 1].kind.AttemptPrepared?
    ensures forall i | n <= i < |events| :: !(events[i].run == r && events[i].kind.AttemptPrepared?)
  {
    if events == [] then 0
    else if events[|events| - 1].run == r && events[|events| - 1].kind.AttemptPrepared? then |events|
    else LastGrant(events[..|events| - 1], r)
  }

  predicate Waiting(s: RunStatus) { s.Queued? || s.Running? }

  predicate PastDeadline(run: Run, now: Millis) {
    && (Waiting(run.status) || run.status.Paused? || run.status.WaitingForAuth?)
    && run.deadline <= now && run.pauseReason != Some(RunDeadline)
  }

  function Ids(keys: seq<Key>): (ids: seq<Id>)
    ensures |ids| == |keys| && forall i | 0 <= i < |ids| :: ids[i] == keys[i].id
  {
    seq(|keys|, i requires 0 <= i < |keys| => keys[i].id)
  }

  function ExpiredRuns(db: Db, now: Millis): (ids: seq<Id>)
    ensures forall i | 0 <= i < |ids| :: ids[i] in db.runs && PastDeadline(db.runs[ids[i]], now)
  {
    var keys := Sorted(set r | r in db.runs && PastDeadline(db.runs[r], now) :: Key(0, 0, r));
    assert forall i | 0 <= i < |keys| :: keys[i] in keys;
    Ids(keys)
  }

  function PauseAll(db: Db, ids: seq<Id>, now: Millis): (d: Db)
    requires forall i | 0 <= i < |ids| :: ids[i] in db.runs
    ensures d.runs.Keys == db.runs.Keys
  {
    if ids == [] then db
    else PauseRun(PauseAll(db, ids[..|ids| - 1], now), ids[|ids| - 1], RunDeadline, now)
  }

  function CandidateKeys(db: Db): set<Key> {
    set r | r in db.runs && Waiting(db.runs[r].status) :: Key(LastGrant(db.events, r), db.runs[r].created, r)
  }

  /** Queued and running runs, least recently granted first. */
  function Candidates(db: Db): (ids: seq<Id>)
    ensures forall i | 0 <= i < |ids| :: ids[i] in db.runs && Waiting(db.runs[ids[i]].status)
  {
    var keys := Sorted(CandidateKeys(db));
    assert forall i | 0 <= i < |keys| :: keys[i] in keys;
    Ids(keys)
  }

  /** Reservations held on an account. */
  function Held(reservations: map<Id, Reservation>, a: Id): set<Id> {
    set x | x in reservations && reservations[x].account == a
  }

  predicate Exhausted(run: Run, now: Millis) {
    now >= run.deadline || run.submissions >= run.limit
  }

  /** The account is ready, paced, out of cooldown and below its capacity. */
  predicate AccountOpen(db: Db, a: Id, now: Millis) {
    a in db.accounts &&
    var account := db.accounts[a];
    && account.readiness.Ready? && now >= account.nextSubmit && now >= account.cooldownUntil
    && |Held(db.reservations, a)| < Min(account.capacity, MAX_SLOTS)
  }

  /** The loop of `claim` stops at this run. */
  predicate Grantable(db: Db, r: Id, now: Millis)
    requires r in db.runs
  {
    var run := db.runs[r];
    !Exhausted(run, now) && AccountOpen(db, run.request.account, now) && NextTask(run).Some?
  }

  /** What the loop of `claim` does to a run it does not stop at. */
  function PassOver(db: Db, r: Id, now: Millis): (d: Db)
    requires r in db.runs
    ensures d.runs.Keys == db.runs.Keys
  {
    var run := db.runs[r];
    if Exhausted(run, now) then PauseRun(db, r, if now >= run.deadline then RunDeadline else BudgetExhausted, now)
    else if AccountOpen(db, run.request.account, now) && NextTask(run).None? && Stuck(run)
      then PauseRun(db, r, IncompleteResults, now)
    else db
  }

  function LeaseFor(run: Run, r: Id, i: nat, x: Id): Lease
    requires i < |run.tasks|
  {
    Lease(x, run.request.account, r, TaskId(r, i), AttemptId(r, i, run.tasks[i].attempts + 1),
          run.tasks[i].stage, run.tasks[i].position)
  }

  const FRESH_ATTEMPT := Attempt(Prepared, 0, None, None, None, None, false)

  /** Starts task `i`: a prepared attempt, its reservation, and the pacing of the account. */
  function Grant(db: Db, r: Id, i: nat, now: Millis, spacing: int, x: Id): Db
    requires r in db.runs && i < |db.runs[r].tasks| && db.runs[r].request.account in db.accounts
  {
    var run := db.runs[r];
    var task := run.tasks[i];
    var a := run.request.account;
    var k := AttemptId(r, i, task.attempts + 1);
    var started := SetTask(run, i, task.(status := Active, attempts := task.attempts + 1, error := None));
    db.(
      runs := db.runs[r := started.(status := Running)],
      attempts := db.attempts[k := FRESH_ATTEMPT.(created := now)],
      reservations := db.reservations[x := Reservation(a, r, k, now, spacing)],
      accounts := db.accounts[a := db.accounts[a].(nextSubmit := SatAdd(now, spacing))],
      events := db.events + [Event(r, AttemptPrepared(k), now)])
  }

  function ClaimFrom(db: Db, ids: seq<Id>, now: Millis, spacing: int, x: Id): (o: Outcome)
    requires forall i | 0 <= i < |ids| :: ids[i] in db.runs
    decreases |ids|
  {
    if ids == [] then Outcome(db, Claimed(None))
    else if Grantable(db, ids[0], now) then
      var run := db.runs[ids[0]];
      var i := NextTask(run).value;
      Outcome(Grant(db, ids[0], i, now, spacing, x), Claimed(Some(LeaseFor(run, ids[0], i, x))))
    else ClaimFrom(PassOver(db, ids[0], now), ids[1..], now, spacing, x)
  }

  /** `x` is the reservation identifier drawn for this call; a draw that is not fresh is refused. */
  function Claim(db: Db, now: Millis, jitter: int, x: Id): Outcome {
    if !(0 <= jitter <= MAX_JITTER_MS) then Refuse(db, InvalidJitter)
    else if x in db.reservations then Refuse(db, StorageError)
    else
      var swept := PauseAll(db, ExpiredRuns(db, now), now);
      ClaimFrom(swept, Candidates(swept), now, SUBMISSION_SPACING_MS + jitter, x)
  }

  // ---------- begin_submission and accepted ----------

  /** Charges the budget and the account pacing before the provider receives any bytes. */
  function Charge(db: Db, lease: Lease, now: Millis): Db
    requires Owns(db, lease) && lease.account in db.accounts
  {
    var run := db.runs[lease.run];
    var account := db.accounts[lease.account];
    var allowed := SatAdd(now, db.reservations[lease.reservation].spacing);
    db.(
      attempts := db.attempts[lease.attempt := db.attempts[lease.attempt].(state := Submitting)],
      runs := db.runs[lease.run := run.(status := Running, submissions := run.submissions + 1)],
      accounts := db.accounts[lease.account := account.(submissionAllowed := allowed, nextSubmit := Max(account.nextSubmit, allowed))],
      events := db.events + [Event(lease.run, SubmissionStarted(lease.attempt), now)])
  }

  function BeginSubmission(db: Db, lease: Lease, now: Millis): Outcome {
    if !Owns(db, lease) then Refuse(db, OwnershipMismatch)
    else if lease.account !in db.accounts then Refuse(db, StorageError)
    else
      var run := db.runs[lease.run];
      var account := db.accounts[lease.account];
      if !Waiting(run.status) || !account.readiness.Ready? || Exhausted(run, now) then Refuse(db, InvalidTransition)
      else if now < account.submissionAllowed then Refuse(db, SubmissionPaced)
      else if !db.attempts[lease.attempt].state.Prepared? then Refuse(db, InvalidTransition)
      else Outcome(Charge(db, lease, now), Ok)
  }

  /** `valid` is the verdict of the URL and identity checks on the turn. */
  function Accept(db: Db, lease: Lease, turn: Turn, valid: bool, now: Millis): Outcome {
    if !valid then Refuse(db, InvalidAcceptance)
    else if !Owns(db, lease) then Refuse(db, OwnershipMismatch)
    else if !db.attempts[lease.attempt].state.Submitting? then Refuse(db, InvalidTransition)
    else
      var attempt := db.attempts[lease.attempt].(state := Accepted, turn := Some(turn), accepted := Some(now));
      Outcome(Log(db.(attempts := db.attempts[lease.attempt := attempt]), lease.run, PromptAccepted(lease.attempt), now), Ok)
  }

  // ---------- fail_attempt and acknowledge_cancel ----------

  datatype Disposition = DefinitelyNotAccepted | CompletedRetryable | Ambiguous | Fatal

  /** Ends an attempt: its final row, the resulting task row, and no reservation. */
  function Release(db: Db, lease: Lease, attempt: Attempt, status: TaskStatus, error: Option<Code>): Db
    requires Joined(db, lease.attempt) && lease.run == lease.attempt.run
  {
    var run := db.runs[lease.run];
    var task := run.tasks[lease.attempt.task].(status := status, error := error);
    db.(
      attempts := db.attempts[lease.attempt := attempt],
      runs := db.runs[lease.run := SetTask(run, lease.attempt.task, task)],
      reservations := db.reservations - {lease.reservation})
  }

  /** Keeps an attempt and its reservation, but records that its conversation is unresolved. */
  function Suspect(db: Db, lease: Lease, attempt: Attempt, error: Option<Code>): Db
    requires Joined(db, lease.attempt) && lease.run == lease.attempt.run
  {
    var run := db.runs[lease.run];
    var task := run.tasks[lease.attempt.task].(status := Active, error := error);
    db.(
      attempts := db.attempts[lease.attempt := attempt],
      runs := db.runs[lease.run := Unresolved(SetTask(run, lease.attempt.task, task), error)])
  }

  function FailAttempt(db: Db, lease: Lease, code: Code, disposition: Disposition, now: Millis): Outcome {
    if !Owns(db, lease) then Refuse(db, OwnershipMismatch)
    else
      var run := db.runs[lease.run];
      var attempt := db.attempts[lease.attempt];
      var retryable := disposition.DefinitelyNotAccepted? || disposition.CompletedRetryable?;
      var ended := attempt.(error := Some(code), retryable := retryable, completed := Some(now));
      if !Live(attempt.state) then Refuse(db, InvalidTransition)
      else if disposition.DefinitelyNotAccepted? && attempt.state.Accepted? then Refuse(db, InvalidTransition)
      else if disposition.CompletedRetryable? && !attempt.state.Accepted? then Refuse(db, InvalidTransition)
      else if disposition.Ambiguous? then
        // The transition trigger of migration 0001 aborts prepared -> uncertain.
        if attempt.state.Prepared? then Refuse(db, StorageError)
        else Outcome(Log(Suspect(db, lease, ended.(state := Uncertain), Some(code)), lease.run, AttemptFailed(lease.attempt), now), Ok)
      else
        var status := if retryable && lease.attempt.number < 2 && !run.status.Cancelled? then Todo else Broken;
        var released := Release(db, lease, ended.(state := Abandoned), status, Some(code));
        Outcome(Log(Settle(released, lease.run, now), lease.run, AttemptFailed(lease.attempt), now), Ok)
  }

  function AcknowledgeCancel(db: Db, lease: Lease, now: Millis): Outcome {
    if lease.reservation !in db.reservations then Outcome(db, Ok)
    else if !Owns(db, lease) then Refuse(db, OwnershipMismatch)
    else if !db.runs[lease.run].status.Cancelled? then Refuse(db, InvalidTransition)
    else
      var attempt := db.attempts[lease.attempt];
      var task := db.runs[lease.run].tasks[lease.attempt.task];
      var stopped := if Live(attempt.state) then attempt.(state := Stopped, completed := Some(now)) else attempt;
      var released :=
        if task.status.Active? then Release(db, lease, stopped, Broken, Some(RunWasCancelled))
        else Release(db, lease, stopped, task.status, task.error);
      Outcome(Log(released, lease.run, ConversationStopped(lease.attempt), now), Ok)
  }
}
