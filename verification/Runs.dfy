/** The transactions of crates/jailgun-workflow/src/runs.rs. */
module Runs {
  import opened Text
  import opened Tables
  import opened Scheduler
  import Ranking

  // ---------- submit ----------

  predicate CriteriaOk(criteria: seq<Ranking.Criterion>) {
    && 1 <= |criteria| <= 10
    && Ranking.TotalWeight(criteria) == 100
    && (forall i | 0 <= i < |criteria| ::
          !Blank(criteria[i].name) && |criteria[i].name| <= 120 && criteria[i].weight > 0)
    && forall i, j | 0 <= i < j < |criteria| :: Trim(criteria[i].name) != Trim(criteria[j].name)
  }

  predicate RequestOk(q: Request) {
    && !Blank(q.concept) && |q.concept| <= 64_000 && |q.constraints| <= 16_000
    && 5 <= q.candidates <= 10
    && !Blank(q.key) && Utf8Length(q.key) <= 128
    && CriteriaOk(q.criteria)
  }

  function StageAt(candidates: nat, i: nat): Stage {
    if i < candidates then Explore
    else if i == candidates then Compare
    else if i == candidates + 1 then Synthesize
    else if i == candidates + 2 then Critique
    else Revise
  }

  function NewTask(candidates: nat, i: nat): Task {
    Task(StageAt(candidates, i), if i < candidates then i + 1 else 0, Todo, 0, None, None)
  }

  function NewTasks(candidates: nat): (tasks: seq<Task>)
    ensures |tasks| == candidates + 4
    ensures forall i | 0 <= i < |tasks| :: tasks[i] == NewTask(candidates, i)
  {
    seq(candidates + 4, i requires 0 <= i < candidates + 4 => NewTask(candidates, i))
  }

  function NewRun(q: Request, model: ModelSelection, status: RunStatus, now: Millis): Run {
    Run(q, model, status, None, None, now, SatAdd(now, RUN_DEADLINE_MS), 0, 2 * (q.candidates + 4), false, NewTasks(q.candidates))
  }

  /** Queued while the account can work or merely cools down; otherwise the run waits for a login. */
  function StatusFor(account: Account): RunStatus {
    if account.readiness.Ready? || account.readiness.Cooldown? then Queued else WaitingForAuth
  }

  predicate KeyUsed(db: Db, key: string) {
    exists r | r in db.runs :: db.runs[r].request.key == key
  }

  ghost function RunWithKey(db: Db, key: string): (r: Id)
    requires KeyUsed(db, key)
    ensures r in db.runs && db.runs[r].request.key == key
  {
    var r :| r in db.runs && db.runs[r].request.key == key;
    r
  }

  /** The model named by the caller, or the one confirmed on the account. */
  function ChosenModel(db: Db, account: Id, model: Option<ModelSelection>): (r: (Option<ModelSelection>, Code)) {
    if model.Some? then (model, NotFound)
    else if account !in db.sessions then (None, NotFound)
    else (db.sessions[account].model, ModelSelectionRequired)
  }

  predicate ModelOk(model: ModelSelection) {
    model.Current? || (!Blank(model.name) && Utf8Length(model.name) <= 200)
  }

  /** `r` is the run identifier drawn for this call. */
  ghost function Submit(db: Db, q: Request, model: Option<ModelSelection>, now: Millis, r: Id): Outcome {
    var chosen := ChosenModel(db, q.account, model);
    if !RequestOk(q) then Refuse(db, InvalidRequest)
    else if KeyUsed(db, q.key) then
      var prior := RunWithKey(db, q.key);
      if db.runs[prior].request != q then Refuse(db, IdempotencyConflict) else Outcome(db, Submitted(prior))
    else if chosen.0.None? then Refuse(db, chosen.1)
    else if !ModelOk(chosen.0.value) then Refuse(db, InvalidModel)
    else if q.account !in db.accounts then Refuse(db, AccountNotFound)
    // CHECK(deadline_ms > created_ms) and the primary key of runs.
    else if SatAdd(now, RUN_DEADLINE_MS) <= now || r in db.runs then Refuse(db, StorageError)
    else
      var run := NewRun(q, chosen.0.value, StatusFor(db.accounts[q.account]), now);
      Outcome(Log(SetRun(db, r, run), r, RunCreated, now), Submitted(r))
  }

  // ---------- suspend, resume, cancel ----------

  function Suspend(db: Db, r: Id, reason: Code, now: Millis): Outcome {
    if r !in db.runs then Refuse(db, NotFound)
    else if db.runs[r].status.Paused? then Outcome(db, Ok)
    else if !(db.runs[r].status.Queued? || db.runs[r].status.Running? || db.runs[r].status.WaitingForAuth?) then
      Refuse(db, InvalidTransition)
    else Outcome(PauseRun(db, r, reason, now), Ok)
  }

  /** At least three complete candidates, nothing in progress, and the comparison not yet started. */
  predicate SubsetAvailable(db: Db, r: Id)
    requires r in db.runs
  {
    && CompletedExplores(db.runs[r].tasks) >= 3
    && !HoldsReservation(db, r)
    && forall i | 0 <= i < |db.runs[r].tasks| && !db.runs[r].tasks[i].stage.Explore? :: db.runs[r].tasks[i].status.Todo?
  }

  function ExcludeTask(task: Task): Task {
    if task.stage.Explore? && !task.status.Done? then task.(status := Excluded) else task
  }

  function ExcludeOpen(tasks: seq<Task>): (r: seq<Task>)
    ensures |r| == |tasks| && forall i | 0 <= i < |r| :: r[i] == ExcludeTask(tasks[i])
  {
    seq(|tasks|, i requires 0 <= i < |tasks| => ExcludeTask(tasks[i]))
  }

  /** A stopped task whose latest attempt failed or kept only partial text. */
  predicate Retryable(db: Db, r: Id, i: nat)
    requires r in db.runs && i < |db.runs[r].tasks|
  {
    var task := db.runs[r].tasks[i];
    var k := AttemptId(r, i, task.attempts);
    && (task.status.Broken? || task.status.Partial?) && task.attempts < MAX_ATTEMPTS
    && k in db.attempts && (db.attempts[k].state.Abandoned? || db.attempts[k].state.CapturedPartly?)
  }

  function RequeueTask(db: Db, r: Id, i: nat): Task
    requires r in db.runs && i < |db.runs[r].tasks|
  {
    if Retryable(db, r, i) then db.runs[r].tasks[i].(status := Todo, error := None) else db.runs[r].tasks[i]
  }

  function Requeue(db: Db, r: Id): (q: seq<Task>)
    requires r in db.runs
    ensures |q| == |db.runs[r].tasks| && forall i | 0 <= i < |q| :: q[i] == RequeueTask(db, r, i)
  {
    seq(|db.runs[r].tasks|, i requires 0 <= i < |db.runs[r].tasks| => RequeueTask(db, r, i))
  }

  /** Gives the run new task rows and puts it back to work. */
  function Reopen(db: Db, r: Id, tasks: seq<Task>, allowIncomplete: bool, now: Millis): Db
    requires r in db.runs && db.runs[r].request.account in db.accounts
  {
    var run := db.runs[r];
    var reopened := run.(tasks := tasks, allowIncomplete := run.allowIncomplete || allowIncomplete,
                         status := StatusFor(db.accounts[run.request.account]), pauseReason := None);
    Log(SetRun(db, r, reopened), r, RunResumed(allowIncomplete), now)
  }

  function Resume(db: Db, r: Id, allowIncomplete: bool, now: Millis): Outcome {
    if r !in db.runs then Refuse(db, NotFound)
    else
      var run := db.runs[r];
      if now >= run.deadline then Refuse(db, RunDeadline)
      else if run.submissions >= run.limit then Refuse(db, BudgetExhausted)
      else if (run.status.Running? || run.status.Queued?) && !allowIncomplete then Outcome(db, Ok)
      else if !run.status.Paused? then Refuse(db, InvalidTransition)
      else if allowIncomplete && !SubsetAvailable(db, r) then Refuse(db, SubsetUnavailable)
      else if run.request.account !in db.accounts then Refuse(db, StorageError)
      else Outcome(Reopen(db, r, if allowIncomplete then ExcludeOpen(run.tasks) else Requeue(db, r), allowIncomplete, now), Ok)
  }

  function Cancel(db: Db, r: Id, now: Millis): Outcome {
    if r !in db.runs then Refuse(db, NotFound)
    else if db.runs[r].status.Cancelled? then Outcome(db, Ok)
    else if Terminal(db.runs[r].status) then Refuse(db, InvalidTransition)
    else Outcome(Log(SetRun(db, r, db.runs[r].(status := Cancelled, pauseReason := None)), r, RunCancelled, now), Ok)
  }
}
