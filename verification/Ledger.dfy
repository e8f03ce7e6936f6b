/** The tables agree with each other in every reachable state. */
module Ledger {
  import opened Tables
  import opened Scheduler
  import opened Runs
  import opened Invariant
  import opened Steps
  import opened Operations
  import opened Histories

  // ---------- Reservations and attempts ----------

  function LiveAttempts(db: Db): set<AttemptId> {
    set k | k in db.attempts && Live(db.attempts[k].state)
  }

  function ReservedAttempts(m: map<Id, Reservation>): set<AttemptId> {
    set x | x in m :: m[x].attempt
  }

  lemma {:induction false} OneRowEach(m: map<Id, Reservation>)
    requires forall x, y | x in m && y in m && m[x].attempt == m[y].attempt :: x == y
    ensures |ReservedAttempts(m)| == |m|
    decreases |m|
  {
    if |m| > 0 {
      var x :| x in m.Keys;
      var rest := m - {x};
      assert m.Keys == rest.Keys + {x} && |m.Keys| == |m| && |rest.Keys| == |rest|;
      OneRowEach(rest);
      assert ReservedAttempts(m) == ReservedAttempts(rest) + {m[x].attempt};
      assert m[x].attempt !in ReservedAttempts(rest);
    } else {
      assert m == map[];
    }
  }

  lemma ReservationRows(db: Db)
    requires ReservationsOk(db)
    ensures ReservedAttempts(db.reservations) == LiveAttempts(db)
    ensures forall x, y | x in db.reservations && y in db.reservations && db.reservations[x].attempt == db.reservations[y].attempt :: x == y
  {
    forall k | k in LiveAttempts(db) ensures k in ReservedAttempts(db.reservations) {
      assert Reserved(db, k);
    }
    forall x | x in db.reservations ensures db.reservations[x].attempt in LiveAttempts(db) {
      assert ReservationOk(db, db.reservations[x]);
    }
  }

  /** Reservations correspond one to one to the attempts that are prepared, submitting, accepted or uncertain. */
  lemma ReservationsMatchLiveAttempts(db: Db)
    requires Reachable(db)
    ensures ReservedAttempts(db.reservations) == LiveAttempts(db) && |db.reservations| == |LiveAttempts(db)|
  {
    hide Reachable, RunsOk, AttemptsOk, ReservationsOk, CapacityOk, AccountsOk, LogOk, PacingOk, BudgetOk, ArtifactsOk;
    ReachableIsValid(db);
    ReservationRows(db);
    OneRowEach(db.reservations);
  }

  lemma AttemptRows(db: Db, k: AttemptId)
    requires AttemptsOk(db)
    ensures k in db.attempts <==> Counted(db, k)
    ensures k in db.attempts ==> Agrees(db, k)
  {
  }

  /** The attempts of a task are numbered 1 to its attempt count, without gaps; it is running exactly when one of them is
      live, and that one is its latest. */
  lemma AttemptsMatchTasks(db: Db, r: Id, i: nat, n: nat)
    requires Reachable(db) && r in db.runs && i < |db.runs[r].tasks|
    ensures AttemptId(r, i, n) in db.attempts <==> 1 <= n <= db.runs[r].tasks[i].attempts
    ensures AttemptId(r, i, n) in LiveAttempts(db) <==> db.runs[r].tasks[i].status.Active? && n == db.runs[r].tasks[i].attempts
    ensures db.runs[r].tasks[i].attempts <= 28
  {
    hide Reachable, RunsOk, AttemptsOk, ReservationsOk, CapacityOk, AccountsOk, LogOk, PacingOk, BudgetOk, ArtifactsOk;
    ReachableIsValid(db);
    RunIsOk(db, r);
    AttemptRows(db, AttemptId(r, i, n));
    assert TaskOk(db.runs[r].tasks[i], db.runs[r].allowIncomplete);
  }

  /** An account never holds more reservations than its capacity, nor more than ten. */
  lemma CapacityIsKept(db: Db, a: Id)
    requires Reachable(db) && a in db.accounts
    ensures |Scheduler.Held(db.reservations, a)| <= db.accounts[a].capacity
    ensures |Scheduler.Held(db.reservations, a)| <= 10
  {
    hide Reachable, RunsOk, AttemptsOk, ReservationsOk, AccountsOk, LogOk, PacingOk, BudgetOk, ArtifactsOk;
    ReachableIsValid(db);
  }

  // ---------- The pipeline ----------

  lemma ReductionInputs(run: Run, i: nat)
    requires RunOk(run) && i < |run.tasks| && !run.tasks[i].stage.Explore? && run.tasks[i].attempts > 0
    ensures ExplorationDone(run) && forall j | 0 <= j < i && !run.tasks[j].stage.Explore? :: run.tasks[j].status.Done?
  {
    assert StageOpen(run, i);
    forall j | 0 <= j < i && !run.tasks[j].stage.Explore? ensures run.tasks[j].status.Done? {
      assert run.tasks[j].stage == StageAt(run.request.candidates, j);
    }
  }

  /** No reduction has started before everything it builds on was complete: every candidate that is not excluded, at
      least three of them, and each earlier reduction. */
  lemma ReductionsWaitForTheirInputs(db: Db, r: Id, i: nat)
    requires Reachable(db) && r in db.runs && i < |db.runs[r].tasks|
    requires !db.runs[r].tasks[i].stage.Explore? && db.runs[r].tasks[i].attempts > 0
    ensures var run := db.runs[r];
            && CompletedExplores(run.tasks) >= 3
            && (forall j | 0 <= j < |run.tasks| && run.tasks[j].stage.Explore? ::
                  run.tasks[j].status.Done? || (run.allowIncomplete && run.tasks[j].status.Excluded?))
            && forall j | 0 <= j < i && !run.tasks[j].stage.Explore? :: run.tasks[j].status.Done?
  {
    hide Reachable, Valid, RunOk;
    ReachableIsValid(db);
    RunIsOk(db, r);
    ReductionInputs(db.runs[r], i);
  }

  lemma CompletedTasks(run: Run)
    requires RunOk(run) && run.status.Completed?
    ensures ExplorationDone(run)
    ensures forall j | 0 <= j < |run.tasks| ::
              run.tasks[j].status.Done? || (run.tasks[j].stage.Explore? && run.allowIncomplete && run.tasks[j].status.Excluded?)
  {
    CompletedIsDone(run);
    var last := run.request.candidates + 3;
    assert TaskOk(run.tasks[last], run.allowIncomplete) && StageOpen(run, last);
    forall j | 0 <= j < |run.tasks|
      ensures run.tasks[j].status.Done? || (run.tasks[j].stage.Explore? && run.allowIncomplete && run.tasks[j].status.Excluded?)
    {
      assert TaskOk(run.tasks[j], run.allowIncomplete);
    }
  }

  /** A run with a reservation has a running task. */
  lemma HeldIsActive(db: Db, r: Id)
    requires RunsOk(db) && AttemptsOk(db) && ReservationsOk(db) && HoldsReservation(db, r)
    ensures r in db.runs && exists i | 0 <= i < |db.runs[r].tasks| :: db.runs[r].tasks[i].status.Active?
  {
    var x :| x in db.reservations && db.reservations[x].run == r;
    assert ReservationOk(db, db.reservations[x]);
    Row(db, db.reservations[x].attempt);
  }

  /** A completed run has every reduction, every candidate it did not exclude, at least three of them, and nothing in
      progress. */
  lemma CompletedRunsAreWhole(db: Db, r: Id)
    requires Reachable(db) && r in db.runs && db.runs[r].status.Completed?
    ensures var run := db.runs[r];
            && CompletedExplores(run.tasks) >= 3 && !HoldsReservation(db, r)
            && forall j | 0 <= j < |run.tasks| ::
                 run.tasks[j].status.Done? || (run.tasks[j].stage.Explore? && run.allowIncomplete && run.tasks[j].status.Excluded?)
  {
    hide Reachable, RunsOk, AttemptsOk, ReservationsOk, CapacityOk, AccountsOk, LogOk, PacingOk, BudgetOk, ArtifactsOk, RunOk;
    ReachableIsValid(db);
    RunIsOk(db, r);
    CompletedTasks(db.runs[r]);
    if HoldsReservation(db, r) { HeldIsActive(db, r); }
  }

  // ---------- Budgets ----------

  /** Without operator retries no task is submitted more than twice, and a queued one not yet twice. */
  lemma {:induction false} UnretriedTotal(db: Db, r: Id, n: nat, q: nat)
    requires r in db.runs && n <= |db.runs[r].tasks| && q < |db.runs[r].tasks|
    requires db.runs[r].tasks[q].status.Todo?
    requires forall i | 0 <= i < |db.runs[r].tasks| :: Claims(db.runs[r].tasks[i]) <= 2
    ensures TotalSubmittable(db, r, n) <= 2 * n - if q < n then 1 else 0
  {
    if n > 0 { UnretriedTotal(db, r, n - 1, q); }
  }

  lemma Spending(db: Db, r: Id)
    requires LogOk(db) && BudgetOk(db) && r in db.runs && RunOk(db.runs[r])
    ensures db.runs[r].submissions == Submissions(db.events, r) <= 2 * (db.runs[r].request.candidates + 4) == db.runs[r].limit
    ensures db.runs[r].submissions <= TotalSubmittable(db, r, |db.runs[r].tasks|)
    ensures |db.runs[r].tasks| == db.runs[r].request.candidates + 4
    ensures forall i | 0 <= i < |db.runs[r].tasks| ::
              Claims(db.runs[r].tasks[i]) <= 2 + Resumes(db.events, r) && db.runs[r].tasks[i].attempts <= 28
  {
    forall i | 0 <= i < |db.runs[r].tasks|
      ensures Claims(db.runs[r].tasks[i]) <= 2 + Resumes(db.events, r) && db.runs[r].tasks[i].attempts <= 28
    {
      assert TaskOk(db.runs[r].tasks[i], db.runs[r].allowIncomplete);
    }
  }

  /** What the log says was charged is what the run has spent, within two submissions a task; a task is started at most
      twice, and once more for every operator retry. */
  lemma SpendingMatchesTheLog(db: Db, r: Id)
    requires Reachable(db) && r in db.runs
    ensures db.runs[r].submissions == Submissions(db.events, r) <= 2 * (db.runs[r].request.candidates + 4)
    ensures forall i | 0 <= i < |db.runs[r].tasks| :: Claims(db.runs[r].tasks[i]) <= 2 + Resumes(db.events, r)
  {
    hide Reachable, RunsOk, AttemptsOk, ReservationsOk, CapacityOk, AccountsOk, LogOk, PacingOk, BudgetOk, ArtifactsOk, RunOk;
    ReachableIsValid(db);
    RunIsOk(db, r);
    Spending(db, r);
  }

  /** The budget outlasts the work: a run its operator never retried can still submit while a task is queued. */
  lemma QueuedWorkHasBudget(db: Db, r: Id, q: nat)
    requires Reachable(db) && r in db.runs && q < |db.runs[r].tasks| && db.runs[r].tasks[q].status.Todo?
    requires Resumes(db.events, r) == 0
    ensures db.runs[r].submissions < db.runs[r].limit
  {
    hide Reachable, RunsOk, AttemptsOk, ReservationsOk, CapacityOk, AccountsOk, LogOk, PacingOk, BudgetOk, ArtifactsOk, RunOk;
    ReachableIsValid(db);
    RunIsOk(db, r);
    Spending(db, r);
    UnretriedTotal(db, r, |db.runs[r].tasks|, q);
  }
}
