/** The workflow store: tables in memory, one method per transaction, each proved against its specification. */
module WorkflowStore {
  import opened Text
  import opened Tables
  import Scheduler
  import Runs
  import Accounts
  import Recovery
  import Artifacts
  import Invariant
  import Operations
  import CaptureOperations
  import RecoveryOperations
  import Histories
  import LeaseTheorems

  class Store {
    var accounts: map<Id, Account>
    var sessions: map<Id, Session>
    var runs: map<Id, Run>
    var attempts: map<AttemptId, Attempt>
    var reservations: map<Id, Reservation>
    var artifacts: map<Id, Artifact>
    var events: seq<Event>

    /** The database these tables make up. */
    function Rows(): Db
      reads this
    {
      Db(accounts, sessions, runs, attempts, reservations, artifacts, events)
    }

    ghost predicate Valid()
      reads this
    {
      Invariant.Valid(Rows())
    }

    constructor ()
      ensures Valid() && Rows() == EMPTY
    {
      accounts, sessions, runs, attempts := map[], map[], map[], map[];
      reservations, artifacts, events := map[], map[], [];
      new;
      Histories.EmptyIsValid();
    }

    // ---------- Rows shared by the transactions ----------

    method AddEvent(r: Id, kind: EventKind, now: Millis)
      modifies this`events
      ensures Rows() == Log(old(Rows()), r, kind, now)
    {
      events := events + [Event(r, kind, now)];
    }

    method Pause(r: Id, reason: Code, now: Millis)
      requires r in runs
      modifies this`runs, this`events
      ensures Rows() == PauseRun(old(Rows()), r, reason, now)
    {
      runs := runs[r := runs[r].(status := Paused, pauseReason := Some(reason))];
      AddEvent(r, RunPaused, now);
    }

    /** `settle_reconciliation` */
    method SettleReconciliation(r: Id, now: Millis)
      requires r in runs
      modifies this`runs, this`events
      ensures Rows() == Settle(old(Rows()), r, now) && runs.Keys == old(runs.Keys)
    {
      if !HoldsReservation(Rows(), r) && runs[r].status.Reconciling? {
        var paused := runs[r].recovery == Some(Paused);
        runs := runs[r := runs[r].(
          status := if paused then Paused else Queued,
          pauseReason := if paused then Some(OperatorPaused) else None,
          recovery := None)];
        AddEvent(r, ReconciliationFinished, now);
      }
    }

    // ---------- scheduler.rs ----------

    static method ExplorationDone(run: Run) returns (done: bool)
      ensures done == Scheduler.ExplorationDone(run)
    {
      var all, completed := true, 0;
      for i := 0 to |run.tasks|
        invariant all <==> forall j | 0 <= j < i && run.tasks[j].stage.Explore? ::
                             run.tasks[j].status.Done? || (run.allowIncomplete && run.tasks[j].status.Excluded?)
        invariant completed == Scheduler.CompletedExplores(run.tasks[..i])
      {
        var task := run.tasks[i];
        assert run.tasks[..i + 1][..i] == run.tasks[..i];
        if task.stage.Explore? {
          if task.status.Done? {
            completed := completed + 1;
          } else if !(run.allowIncomplete && task.status.Excluded?) {
            all := false;
          }
        }
      }
      assert run.tasks[..|run.tasks|] == run.tasks;
      done := all && completed >= 3;
    }

    /** `next_task`: the first queued task whose prerequisites are complete. */
    static method NextTask(run: Run) returns (next: Option<nat>)
      ensures next == Scheduler.NextTask(run)
    {
      var explored := ExplorationDone(run);
      for i := 0 to |run.tasks|
        invariant Scheduler.NextTaskFrom(run, 0) == Scheduler.NextTaskFrom(run, i)
      {
        var task := run.tasks[i];
        if task.status.Todo? && task.attempts < MAX_ATTEMPTS {
          if task.stage.Explore? {
            return Some(i);
          }
          var prerequisite := Scheduler.Prerequisite(task.stage);
          if explored && (prerequisite.None? || Scheduler.StageDone(run, prerequisite.value)) {
            return Some(i);
          }
        }
      }
      next := None;
    }

    method PauseAll(ids: seq<Id>, now: Millis)
      requires forall i | 0 <= i < |ids| :: ids[i] in runs
      modifies this`runs, this`events
      ensures Rows() == Scheduler.PauseAll(old(Rows()), ids, now)
    {
      ghost var before := Rows();
      for n := 0 to |ids|
        invariant Rows() == Scheduler.PauseAll(before, ids[..n], now)
      {
        assert ids[..n + 1][..n] == ids[..n];
        Pause(ids[n], RunDeadline, now);
      }
      assert ids[..|ids|] == ids;
    }

    method StartTask(r: Id, i: nat, now: Millis, spacing: int, x: Id)
      requires r in runs && i < |runs[r].tasks| && runs[r].request.account in accounts
      modifies this
      ensures Rows() == Scheduler.Grant(old(Rows()), r, i, now, spacing, x)
    {
      var run := runs[r];
      var task := run.tasks[i];
      var a := run.request.account;
      var k := AttemptId(r, i, task.attempts + 1);
      var started := run.tasks[i := task.(status := Active, attempts := task.attempts + 1, error := None)];
      attempts := attempts[k := Attempt(Prepared, now, None, None, None, None, false)];
      reservations := reservations[x := Reservation(a, r, k, now, spacing)];
      accounts := accounts[a := accounts[a].(nextSubmit := SatAdd(now, spacing))];
      runs := runs[r := run.(tasks := started, status := Running)];
      AddEvent(r, AttemptPrepared(k), now);
    }

    /** What the loop of `claim` does for one candidate: start its next task, or pass over it. */
    method TryRun(r: Id, now: Millis, spacing: int, x: Id) returns (lease: Option<Lease>)
      requires r in runs
      modifies this
      ensures runs.Keys == old(runs.Keys)
      ensures lease.Some? == Scheduler.Grantable(old(Rows()), r, now)
      ensures lease.None? ==> Rows() == Scheduler.PassOver(old(Rows()), r, now)
      ensures lease.Some? ==>
                var i := Scheduler.NextTask(old(runs[r])).value;
                Rows() == Scheduler.Grant(old(Rows()), r, i, now, spacing, x) && lease.value == Scheduler.LeaseFor(old(runs[r]), r, i, x)
    {
      hide Scheduler.NextTask, Scheduler.Stuck;
      var run := runs[r];
      lease := None;
      if now >= run.deadline || run.submissions >= run.limit {
        Pause(r, if now >= run.deadline then RunDeadline else BudgetExhausted, now);
      } else if Scheduler.AccountOpen(Rows(), run.request.account, now) {
        var next := NextTask(run);
        if next.Some? {
          lease := Some(Scheduler.LeaseFor(run, r, next.value, x));
          StartTask(r, next.value, now, spacing, x);
        } else if Scheduler.Stuck(run) {
          Pause(r, IncompleteResults, now);
        }
      }
    }

    method ClaimFirst(ids: seq<Id>, now: Millis, spacing: int, x: Id) returns (reply: Reply)
      requires forall i | 0 <= i < |ids| :: ids[i] in runs
      modifies this
      ensures Outcome(Rows(), reply) == Scheduler.ClaimFrom(old(Rows()), ids, now, spacing, x)
    {
      hide Scheduler.Grantable, Scheduler.PassOver, Scheduler.Grant, Scheduler.NextTask;
      ghost var before := Rows();
      for n := 0 to |ids|
        invariant forall i | 0 <= i < |ids| :: ids[i] in runs
        invariant Scheduler.ClaimFrom(before, ids, now, spacing, x) == Scheduler.ClaimFrom(Rows(), ids[n..], now, spacing, x)
      {
        assert ids[n..][0] == ids[n] && ids[n..][1..] == ids[n + 1..];
        var lease := TryRun(ids[n], now, spacing, x);
        if lease.Some? {
          return Claimed(lease);
        }
      }
      reply := Claimed(None);
    }

    /** Reserves one conversation across every run; `x` is drawn by the caller. */
    method Claim(now: Millis, jitter: int, x: Id) returns (reply: Reply)
      requires Valid()
      modifies this
      ensures Valid() && Outcome(Rows(), reply) == Scheduler.Claim(old(Rows()), now, jitter, x)
    {
      hide Invariant.Valid, Scheduler.PauseAll, Scheduler.ClaimFrom, Scheduler.Candidates, Scheduler.ExpiredRuns;
      Operations.ClaimKeeps(Rows(), now, jitter, x);
      if !(0 <= jitter <= MAX_JITTER_MS) {
        return Refused(InvalidJitter);
      }
      if x in reservations {
        return Refused(StorageError);
      }
      PauseAll(Scheduler.ExpiredRuns(Rows(), now), now);
      reply := ClaimFirst(Scheduler.Candidates(Rows()), now, SUBMISSION_SPACING_MS + jitter, x);
    }

    method Charge(lease: Lease, now: Millis)
      requires Owns(Rows(), lease) && lease.account in accounts
      modifies this
      ensures Rows() == Scheduler.Charge(old(Rows()), lease, now)
    {
      var run, account := runs[lease.run], accounts[lease.account];
      var allowed := SatAdd(now, reservations[lease.reservation].spacing);
      attempts := attempts[lease.attempt := attempts[lease.attempt].(state := Submitting)];
      runs := runs[lease.run := run.(status := Running, submissions := run.submissions + 1)];
      accounts := accounts[lease.account := account.(submissionAllowed := allowed, nextSubmit := Max(account.nextSubmit, allowed))];
      AddEvent(lease.run, SubmissionStarted(lease.attempt), now);
    }

    method BeginSubmission(lease: Lease, now: Millis) returns (reply: Reply)
      requires Valid()
      modifies this
      ensures Valid() && Outcome(Rows(), reply) == Scheduler.BeginSubmission(old(Rows()), lease, now)
    {
      hide Invariant.Valid, Scheduler.Charge;
      Operations.BeginSubmissionKeeps(Rows(), lease, now);
      if !Owns(Rows(), lease) {
        return Refused(OwnershipMismatch);
      }
      if lease.account !in accounts {
        return Refused(StorageError);
      }
      var run, account := runs[lease.run], accounts[lease.account];
      if !(run.status.Running? || run.status.Queued?) || !account.readiness.Ready? || now >= run.deadline || run.submissions >= run.limit {
        return Refused(InvalidTransition);
      }
      if now < account.submissionAllowed {
        return Refused(SubmissionPaced);
      }
      if !attempts[lease.attempt].state.Prepared? {
        return Refused(InvalidTransition);
      }
      Charge(lease, now);
      reply := Ok;
    }

    method Accept(lease: Lease, turn: Turn, valid: bool, now: Millis) returns (reply: Reply)
      requires Valid()
      modifies this
      ensures Valid() && Outcome(Rows(), reply) == Scheduler.Accept(old(Rows()), lease, turn, valid, now)
    {
      hide Invariant.Valid;
      Operations.AcceptKeeps(Rows(), lease, turn, valid, now);
      if !valid {
        return Refused(InvalidAcceptance);
      }
      if !Owns(Rows(), lease) {
        return Refused(OwnershipMismatch);
      }
      var attempt := attempts[lease.attempt];
      if !attempt.state.Submitting? {
        return Refused(InvalidTransition);
      }
      attempts := attempts[lease.attempt := attempt.(state := Accepted, turn := Some(turn), accepted := Some(now))];
      AddEvent(lease.run, PromptAccepted(lease.attempt), now);
      reply := Ok;
    }

    /** Writes the final rows of an attempt and its task, and releases its reservation. */
    method EndAttempt(lease: Lease, attempt: Attempt, status: TaskStatus, error: Option<Code>)
      requires Joined(Rows(), lease.attempt) && lease.run == lease.attempt.run
      modifies this`attempts, this`runs, this`reservations
      ensures Rows() == Scheduler.Release(old(Rows()), lease, attempt, status, error) && runs.Keys == old(runs.Keys)
    {
      attempts := attempts[lease.attempt := attempt];
      var run := runs[lease.run];
      var task := run.tasks[lease.attempt.task].(status := status, error := error);
      runs := runs[lease.run := run.(tasks := run.tasks[lease.attempt.task := task])];
      reservations := reservations - {lease.reservation};
    }

    /** Keeps an attempt reserved and sends its run to reconciliation. */
    method Doubt(lease: Lease, attempt: Attempt, error: Option<Code>)
      requires Joined(Rows(), lease.attempt) && lease.run == lease.attempt.run
      modifies this`attempts, this`runs
      ensures Rows() == Scheduler.Suspect(old(Rows()), lease, attempt, error)
    {
      attempts := attempts[lease.attempt := attempt];
      var run := runs[lease.run];
      var task := run.tasks[lease.attempt.task].(status := Active, error := error);
      run := run.(tasks := run.tasks[lease.attempt.task := task]);
      if !Terminal(run.status) {
        if !run.status.Reconciling? {
          run := run.(recovery := Some(run.status));
        }
        run := run.(status := Reconciling, pauseReason := error);
      }
      runs := runs[lease.run := run];
    }

    method FailAttempt(lease: Lease, code: Code, disposition: Scheduler.Disposition, now: Millis) returns (reply: Reply)
      requires Valid()
      modifies this
      ensures Valid() && Outcome(Rows(), reply) == Scheduler.FailAttempt(old(Rows()), lease, code, disposition, now)
    {
      hide Invariant.Valid;
      Operations.FailAttemptKeeps(Rows(), lease, code, disposition, now);
      if !Owns(Rows(), lease) {
        return Refused(OwnershipMismatch);
      }
      var attempt := attempts[lease.attempt];
      if !Live(attempt.state) {
        return Refused(InvalidTransition);
      }
      if disposition.DefinitelyNotAccepted? && attempt.state.Accepted? {
        return Refused(InvalidTransition);
      }
      if disposition.CompletedRetryable? && !attempt.state.Accepted? {
        return Refused(InvalidTransition);
      }
      var retryable := disposition.DefinitelyNotAccepted? || disposition.CompletedRetryable?;
      var ended := attempt.(error := Some(code), retryable := retryable, completed := Some(now));
      if disposition.Ambiguous? {
        if attempt.state.Prepared? {
          return Refused(StorageError);
        }
        Doubt(lease, ended.(state := Uncertain), Some(code));
      } else {
        var again := retryable && lease.attempt.number < 2 && !runs[lease.run].status.Cancelled?;
        EndAttempt(lease, ended.(state := Abandoned), if again then Todo else Broken, Some(code));
        SettleReconciliation(lease.run, now);
      }
      AddEvent(lease.run, AttemptFailed(lease.attempt), now);
      reply := Ok;
    }

    method AcknowledgeCancel(lease: Lease, now: Millis) returns (reply: Reply)
      requires Valid()
      modifies this
      ensures Valid() && Outcome(Rows(), reply) == Scheduler.AcknowledgeCancel(old(Rows()), lease, now)
    {
      hide Invariant.Valid;
      Operations.AcknowledgeCancelKeeps(Rows(), lease, now);
      if lease.reservation !in reservations {
        return Ok;
      }
      if !Owns(Rows(), lease) {
        return Refused(OwnershipMismatch);
      }
      if !runs[lease.run].status.Cancelled? {
        return Refused(InvalidTransition);
      }
      var attempt := attempts[lease.attempt];
      if Live(attempt.state) {
        attempt := attempt.(state := Stopped, completed := Some(now));
      }
      var task := runs[lease.run].tasks[lease.attempt.task];
      if task.status.Active? {
        EndAttempt(lease, attempt, Broken, Some(RunWasCancelled));
      } else {
        EndAttempt(lease, attempt, task.status, task.error);
      }
      AddEvent(lease.run, ConversationStopped(lease.attempt), now);
      reply := Ok;
    }

    // ---------- runs.rs ----------

    /** The run that was submitted under this key; a key names one run. */
    method FindRequest(key: string) returns (prior: Option<Id>)
      requires Valid()
      ensures prior.Some? == Runs.KeyUsed(Rows(), key)
      ensures prior.Some? ==> prior.value == Runs.RunWithKey(Rows(), key)
    {
      OneRunPerKey(Rows());
      hide Invariant.Valid;
      if Runs.KeyUsed(Rows(), key) {
        var r: Id :| r in runs && runs[r].request.key == key;
        prior := Some(r);
      } else {
        prior := None;
      }
    }

    method InsertRun(q: Request, model: ModelSelection, status: RunStatus, now: Millis, r: Id)
      modifies this`runs, this`events
      ensures Rows() == Log(SetRun(old(Rows()), r, Runs.NewRun(q, model, status, now)), r, RunCreated, now)
    {
      var tasks := NewTasks(q.candidates);
      runs := runs[r := Run(q, model, status, None, None, now, SatAdd(now, RUN_DEADLINE_MS), 0, 2 * (q.candidates + 4), false, tasks)];
      AddEvent(r, RunCreated, now);
    }

    /** `r` is the identifier drawn for the run. */
    method Submit(q: Request, model: Option<ModelSelection>, now: Millis, r: Id) returns (reply: Reply)
      requires Valid()
      modifies this
      ensures Valid() && Outcome(Rows(), reply) == Runs.Submit(old(Rows()), q, model, now, r)
    {
      hide Invariant.Valid, Runs.RequestOk, Runs.KeyUsed, Runs.ChosenModel, Runs.ModelOk, Runs.NewRun, Runs.RunWithKey;
      Operations.SubmitKeeps(Rows(), q, model, now, r);
      if !Runs.RequestOk(q) {
        return Refused(InvalidRequest);
      }
      var prior := FindRequest(q.key);
      if prior.Some? {
        return if runs[prior.value].request != q then Refused(IdempotencyConflict) else Submitted(prior.value);
      }
      var chosen := Runs.ChosenModel(Rows(), q.account, model);
      if chosen.0.None? {
        return Refused(chosen.1);
      }
      if !Runs.ModelOk(chosen.0.value) {
        return Refused(InvalidModel);
      }
      if q.account !in accounts {
        return Refused(AccountNotFound);
      }
      if SatAdd(now, RUN_DEADLINE_MS) <= now || r in runs {
        return Refused(StorageError);
      }
      var readiness := accounts[q.account].readiness;
      InsertRun(q, chosen.0.value, if readiness.Ready? || readiness.Cooldown? then Queued else WaitingForAuth, now, r);
      reply := Submitted(r);
    }

    /** The candidates in order, then the four reductions. */
    static method NewTasks(candidates: nat) returns (tasks: seq<Task>)
      ensures tasks == Runs.NewTasks(candidates)
    {
      tasks := [];
      for position := 1 to candidates + 1
        invariant |tasks| == position - 1
        invariant forall i | 0 <= i < |tasks| :: tasks[i] == Runs.NewTask(candidates, i)
      {
        tasks := tasks + [Task(Explore, position, Todo, 0, None, None)];
      }
      var stages := [Compare, Synthesize, Critique, Revise];
      for n := 0 to |stages|
        invariant |tasks| == candidates + n
        invariant forall i | 0 <= i < |tasks| :: tasks[i] == Runs.NewTask(candidates, i)
      {
        tasks := tasks + [Task(stages[n], 0, Todo, 0, None, None)];
      }
    }

    method Suspend(r: Id, reason: Code, now: Millis) returns (reply: Reply)
      requires Valid()
      modifies this
      ensures Valid() && Outcome(Rows(), reply) == Runs.Suspend(old(Rows()), r, reason, now)
    {
      hide Invariant.Valid;
      Operations.SuspendKeeps(Rows(), r, reason, now);
      if r !in runs {
        return Refused(NotFound);
      }
      var status := runs[r].status;
      if status.Paused? {
        return Ok;
      }
      if !(status.Queued? || status.Running? || status.WaitingForAuth?) {
        return Refused(InvalidTransition);
      }
      Pause(r, reason, now);
      reply := Ok;
    }

    /** Excludes the open candidates, or queues the stopped tasks again. */
    method ReopenTasks(r: Id, allowIncomplete: bool) returns (tasks: seq<Task>)
      requires r in runs
      ensures tasks == if allowIncomplete then Runs.ExcludeOpen(runs[r].tasks) else Runs.Requeue(Rows(), r)
    {
      var before := runs[r].tasks;
      tasks := before;
      for i := 0 to |tasks|
        invariant |tasks| == |before|
        invariant forall j | i <= j < |tasks| :: tasks[j] == before[j]
        invariant forall j | 0 <= j < i ::
                    tasks[j] == if allowIncomplete then Runs.ExcludeTask(before[j]) else Runs.RequeueTask(Rows(), r, j)
      {
        if allowIncomplete {
          if tasks[i].stage.Explore? && !tasks[i].status.Done? {
            tasks := tasks[i := tasks[i].(status := Excluded)];
          }
        } else if Runs.Retryable(Rows(), r, i) {
          tasks := tasks[i := tasks[i].(status := Todo, error := None)];
        }
      }
    }

    method Reopen(r: Id, tasks: seq<Task>, allowIncomplete: bool, now: Millis)
      requires r in runs && runs[r].request.account in accounts
      modifies this`runs, this`events
      ensures Rows() == Runs.Reopen(old(Rows()), r, tasks, allowIncomplete, now)
    {
      var run := runs[r];
      var readiness := accounts[run.request.account].readiness;
      runs := runs[r := run.(tasks := tasks, allowIncomplete := run.allowIncomplete || allowIncomplete,
                             status := if readiness.Ready? || readiness.Cooldown? then Queued else WaitingForAuth,
                             pauseReason := None)];
      AddEvent(r, RunResumed(allowIncomplete), now);
    }

    method Resume(r: Id, allowIncomplete: bool, now: Millis) returns (reply: Reply)
      requires Valid()
      modifies this
      ensures Valid() && Outcome(Rows(), reply) == Runs.Resume(old(Rows()), r, allowIncomplete, now)
    {
      hide Invariant.Valid, Runs.ExcludeOpen, Runs.Requeue, Runs.SubsetAvailable, Runs.Reopen;
      Operations.ResumeKeeps(Rows(), r, allowIncomplete, now);
      if r !in runs {
        return Refused(NotFound);
      }
      var run := runs[r];
      if now >= run.deadline {
        return Refused(RunDeadline);
      }
      if run.submissions >= run.limit {
        return Refused(BudgetExhausted);
      }
      if (run.status.Running? || run.status.Queued?) && !allowIncomplete {
        return Ok;
      }
      if !run.status.Paused? {
        return Refused(InvalidTransition);
      }
      if allowIncomplete && !Runs.SubsetAvailable(Rows(), r) {
        return Refused(SubsetUnavailable);
      }
      if run.request.account !in accounts {
        return Refused(StorageError);
      }
      var tasks := ReopenTasks(r, allowIncomplete);
      Reopen(r, tasks, allowIncomplete, now);
      reply := Ok;
    }

    method Cancel(r: Id, now: Millis) returns (reply: Reply)
      requires Valid()
      modifies this
      ensures Valid() && Outcome(Rows(), reply) == Runs.Cancel(old(Rows()), r, now)
    {
      hide Invariant.Valid;
      Operations.CancelKeeps(Rows(), r, now);
      if r !in runs {
        return Refused(NotFound);
      }
      if runs[r].status.Cancelled? {
        return Ok;
      }
      if runs[r].status.Completed? || runs[r].status.Failed? {
        return Refused(InvalidTransition);
      }
      runs := runs[r := runs[r].(status := Cancelled, pauseReason := None)];
      AddEvent(r, RunCancelled, now);
      reply := Ok;
    }

    // ---------- recovery.rs ----------

    method RecoverLease(lease: Lease, now: Millis) returns (kept: bool)
      requires Recovery.Resolvable(Rows(), lease)
      modifies this
      ensures Rows() == Recovery.RecoverOne(old(Rows()), lease, now)
      ensures kept == !old(attempts[lease.attempt].state.Prepared?)
    {
      var run, attempt := runs[lease.run], attempts[lease.attempt];
      if attempt.state.Prepared? {
        var task := run.tasks[lease.attempt.task];
        var ended := attempt.(state := Abandoned, error := Some(InterruptedBeforeSubmission), retryable := true, completed := Some(now));
        EndAttempt(lease, ended, if task.attempts < 2 then Todo else Broken, Some(InterruptedBeforeSubmission));
        AddEvent(lease.run, RecoveredBeforeSubmission(lease.attempt), now);
        return false;
      }
      if attempt.state.Submitting? {
        attempts := attempts[lease.attempt := attempt.(state := Uncertain, error := Some(SubmissionUncertain))];
      }
      if !(Terminal(run.status) || run.status.Reconciling?) {
        runs := runs[lease.run := run.(recovery := Some(run.status), status := Reconciling, pauseReason := Some(RestartReconciliation))];
        AddEvent(lease.run, ReconciliationStarted(lease.attempt), now);
      }
      kept := true;
    }

    method RecoverLeases(leases: seq<Lease>, now: Millis) returns (uncertain: seq<Lease>)
      requires RecoveryOperations.AllOwned(Rows(), leases)
      modifies this
      ensures (Rows(), uncertain) == Recovery.RecoverAll(old(Rows()), leases, now)
    {
      hide Recovery.RecoverOne, RecoveryOperations.AllOwned;
      ghost var before := Rows();
      uncertain := [];
      for n := 0 to |leases|
        invariant Recovery.RecoverAll(before, leases[..n], now) == (Rows(), uncertain)
      {
        assert leases[..n + 1][..n] == leases[..n];
        assert Recovery.Resolvable(before, leases[n]);
        var kept := RecoverLease(leases[n], now);
        if kept {
          uncertain := uncertain + [leases[n]];
        }
      }
      assert leases[..|leases|] == leases;
    }

    /** Run once after a restart, before anything is scheduled. */
    method Recover(now: Millis) returns (reply: Reply)
      requires Valid()
      modifies this
      ensures Valid() && Recovery.ForeignKeys(old(Rows()))
      ensures Outcome(Rows(), reply) == Recovery.Recover(old(Rows()), now)
    {
      hide Invariant.Valid, Recovery.RecoverAll, Recovery.ActiveLeases, Recovery.ForeignKeys, RecoveryOperations.AllOwned;
      RecoveryOperations.RecoverKeeps(Rows(), now);
      RecoveryOperations.ActiveLeasesOwned(Rows());
      var uncertain := RecoverLeases(Recovery.ActiveLeases(Rows()), now);
      reply := Leases(uncertain);
    }

    method ResumeReattached(r: Id, attached: set<AttemptId>, now: Millis) returns (reply: Reply)
      requires Valid()
      modifies this
      ensures Valid() && Outcome(Rows(), reply) == Recovery.ResumeReattached(old(Rows()), r, attached, now)
    {
      hide Invariant.Valid;
      RecoveryOperations.ResumeReattachedKeeps(Rows(), r, attached, now);
      if r !in runs {
        return Refused(NotFound);
      }
      if !runs[r].status.Reconciling? {
        return Flag(false);
      }
      if exists x | x in reservations :: reservations[x].run == r && !Recovery.ReattachedNow(Rows(), reservations[x].attempt, attached) {
        return Flag(false);
      }
      var paused := runs[r].recovery == Some(Paused);
      runs := runs[r := runs[r].(
        status := if paused then Paused else Queued,
        pauseReason := if paused then Some(OperatorPaused) else None,
        recovery := None)];
      AddEvent(r, ConversationsReconciled, now);
      reply := Flag(true);
    }

    method Reattach(lease: Lease, conversation: string, now: Millis) returns (reply: Reply)
      requires Valid()
      modifies this
      ensures Valid() && Outcome(Rows(), reply) == Recovery.Reattach(old(Rows()), lease, conversation, now)
    {
      hide Invariant.Valid;
      RecoveryOperations.ReattachKeeps(Rows(), lease, conversation, now);
      if !Owns(Rows(), lease) {
        return Refused(OwnershipMismatch);
      }
      var attempt := attempts[lease.attempt];
      if !(attempt.state.Accepted? && attempt.turn.Some? && attempt.turn.value.conversation == conversation) {
        return Refused(ReconciliationRequired);
      }
      AddEvent(lease.run, ConversationReattached(lease.attempt), now);
      reply := Ok;
    }

    // ---------- accounts.rs ----------

    method WaitForLogin(r: Id, reason: Code, now: Millis)
      requires r in runs
      modifies this`runs, this`events
      ensures Rows() == Accounts.AwaitLogin(old(Rows()), r, reason, now)
    {
      runs := runs[r := runs[r].(status := WaitingForAuth, pauseReason := Some(reason))];
      AddEvent(r, AccountLoginRequired, now);
    }

    /** `pause_account_runs`, for the running runs and then the queued ones. */
    method AwaitLogin(ids: seq<Id>, reason: Code, now: Millis)
      requires forall i | 0 <= i < |ids| :: ids[i] in runs
      modifies this`runs, this`events
      ensures Rows() == Accounts.AwaitLoginAll(old(Rows()), ids, reason, now)
    {
      hide Accounts.AwaitLogin;
      ghost var before := Rows();
      for n := 0 to |ids|
        invariant Rows() == Accounts.AwaitLoginAll(before, ids[..n], reason, now)
      {
        assert ids[..n + 1][..n] == ids[..n];
        WaitForLogin(ids[n], reason, now);
      }
      assert ids[..|ids|] == ids;
    }

    method Requeue(r: Id, now: Millis)
      requires r in runs
      modifies this`runs, this`events
      ensures Rows() == Accounts.Requeued(old(Rows()), r, now)
    {
      if runs[r].deadline > now {
        runs := runs[r := runs[r].(status := Queued, pauseReason := None)];
        AddEvent(r, AccountVerified, now);
      }
    }

    /** `resume_verified_runs` */
    method RequeueVerified(ids: seq<Id>, now: Millis)
      requires forall i | 0 <= i < |ids| :: ids[i] in runs
      modifies this`runs, this`events
      ensures Rows() == Accounts.RequeueAll(old(Rows()), ids, now)
    {
      hide Accounts.Requeued;
      ghost var before := Rows();
      for n := 0 to |ids|
        invariant Rows() == Accounts.RequeueAll(before, ids[..n], now)
      {
        assert ids[..n + 1][..n] == ids[..n];
        Requeue(ids[n], now);
      }
      assert ids[..|ids|] == ids;
    }

    method Register(a: Id, email: string, provider: Option<string>, verified: bool, capacity: nat,
        placed: bool) returns (reply: Reply)
      requires Valid()
      modifies this
      ensures Valid()
      ensures Outcome(Rows(), reply) == Accounts.Register(old(Rows()), a, email, provider, verified, capacity, placed)
    {
      hide Invariant.Valid;
      RecoveryOperations.RegisterKeeps(Rows(), a, email, provider, verified, capacity, placed);
      if Blank(email) || capacity == 0 || !placed {
        return Refused(AccountInvalid);
      }
      if a in accounts {
        var same := EqIgnoreCase(accounts[a].email, email) && accounts[a].provider == provider;
        return if same then Ok else Refused(IdentityConflict);
      }
      if Accounts.EmailUsed(Rows(), email) || (provider.Some? && Accounts.ProviderTaken(Rows(), a, provider.value)) {
        return Refused(StorageError);
      }
      accounts := accounts[a := Account(email, provider, capacity, if verified && provider.Some? then Ready else LoginRequired, 0, 0, 0, 0)];
      sessions := sessions[a := Session(Disconnected, None, None, None, None, None)];
      reply := Ok;
    }

    method VerifyAccount(a: Id, identity: Identity, now: Millis, operator: bool) returns (reply: Reply)
      requires Valid()
      modifies this
      ensures Valid() && Outcome(Rows(), reply) == Accounts.VerifyAccount(old(Rows()), a, identity, now, operator)
    {
      hide Invariant.Valid, Accounts.Confirms, Accounts.ProviderTaken, Accounts.RequeueAll, Accounts.AwaitLoginAll, Accounts.RunIds, Accounts.ActiveRunIds;
      RecoveryOperations.VerifyAccountKeeps(Rows(), a, identity, now, operator);
      if a !in accounts {
        return Refused(NotFound);
      }
      if a !in sessions {
        return Refused(StorageError);
      }
      if sessions[a].lifecycle.SessionCancelled? {
        return Refused(LoginCancelled);
      }
      var account := accounts[a];
      if now < account.cooldownUntil || (account.readiness.OnHold? && !operator) {
        return Refused(AccountCoolingDown);
      }
      if !Accounts.Confirms(account, identity) {
        ghost var before := Rows();
        accounts := accounts[a := account.(readiness := Mismatch)];
        SameActive(before, Rows(), a);
        AwaitLogin(Accounts.ActiveRunIds(Rows(), a), IdentityMismatch, now);
        return Refused(IdentityMismatch);
      }
      if Accounts.ProviderTaken(Rows(), a, identity.id) {
        return Refused(StorageError);
      }
      ghost var before := Rows();
      accounts := accounts[a := account.(provider := Some(identity.id), readiness := Ready, cooldownUntil := 0,
                                         rateLimits := if operator then 0 else account.rateLimits)];
      SameActive(before, Rows(), a);
      RequeueVerified(Accounts.RunIds(Rows(), a, WaitingForAuth), now);
      reply := Ok;
    }

    method AccountLoginExpired(a: Id, now: Millis) returns (reply: Reply)
      requires Valid()
      modifies this
      ensures Valid() && Outcome(Rows(), reply) == Accounts.AccountLoginExpired(old(Rows()), a, now)
    {
      hide Invariant.Valid, Accounts.AwaitLoginAll, Accounts.ActiveRunIds;
      RecoveryOperations.AccountLoginExpiredKeeps(Rows(), a, now);
      if a !in accounts {
        return Refused(NotFound);
      }
      ghost var before := Rows();
      accounts := accounts[a := accounts[a].(readiness := Expired)];
      SameActive(before, Rows(), a);
      AwaitLogin(Accounts.ActiveRunIds(Rows(), a), AuthenticationExpired, now);
      reply := Ok;
    }

    method NoteRateLimits(ids: seq<Id>, now: Millis)
      modifies this`events
      ensures Rows() == Accounts.NoteRateLimit(old(Rows()), ids, now)
    {
      ghost var before := Rows();
      for n := 0 to |ids|
        invariant Rows() == Accounts.NoteRateLimit(before, ids[..n], now)
      {
        assert ids[..n + 1][..n] == ids[..n];
        AddEvent(ids[n], AccountRateLimited, now);
      }
      assert ids[..|ids|] == ids;
    }

    method RateLimited(a: Id, retry: Option<Millis>, now: Millis) returns (reply: Reply)
      requires Valid()
      modifies this
      ensures Valid() && Outcome(Rows(), reply) == Accounts.RateLimited(old(Rows()), a, retry, now)
    {
      hide Invariant.Valid, Accounts.ActiveRunIds, Accounts.NoteRateLimit;
      RecoveryOperations.RateLimitedKeeps(Rows(), a, retry, now);
      if a !in accounts {
        return Refused(NotFound);
      }
      var account := accounts[a];
      ghost var before := Rows();
      var asked := if retry.Some? then retry.value else SatAdd(now, RATE_LIMIT_MS);
      accounts := accounts[a := account.(
        rateLimits := account.rateLimits + 1,
        cooldownUntil := Max(account.cooldownUntil, Max(asked, now)),
        readiness := if account.rateLimits >= 1 then OnHold else Cooldown)];
      SameActive(before, Rows(), a);
      NoteRateLimits(Accounts.ActiveRunIds(Rows(), a), now);
      reply := Ok;
    }

    // ---------- account_sessions.rs ----------

    method LoginState(a: Id, state: Lifecycle, error: Option<Code>, expires: Option<Millis>) returns (reply: Reply)
      requires Valid()
      modifies this
      ensures Valid() && Outcome(Rows(), reply) == Accounts.LoginState(old(Rows()), a, state, error, expires)
    {
      hide Invariant.Valid;
      RecoveryOperations.LoginStateKeeps(Rows(), a, state, error, expires);
      if a !in sessions {
        return Refused(NotFound);
      }
      var session := sessions[a];
      if session.lifecycle.SessionCancelled? && !(state.Starting? || state.SessionCancelled?) {
        return Refused(LoginCancelled);
      }
      session := session.(lifecycle := state, error := error, loginExpires := expires);
      if state.Starting? {
        session := session.(observation := None, observed := None);
      }
      sessions := sessions[a := session];
      reply := Ok;
    }

    method ObserveAccount(a: Id, o: Observation, now: Millis) returns (reply: Reply)
      requires Valid()
      modifies this
      ensures Valid() && Outcome(Rows(), reply) == Accounts.ObserveAccount(old(Rows()), a, o, now)
    {
      hide Invariant.Valid, Accounts.Confirms, Accounts.ObservationOk;
      RecoveryOperations.ObserveAccountKeeps(Rows(), a, o, now);
      if a !in accounts {
        return Refused(NotFound);
      }
      var bound := accounts[a].provider.Some?;
      if !Accounts.Confirms(accounts[a], o.identity) {
        return Refused(IdentityMismatch);
      }
      if !Accounts.ObservationOk(o) {
        return Refused(InvalidTransition);
      }
      if a in sessions {
        sessions := sessions[a := sessions[a].(observation := Some(o), observed := Some(now), error := None)];
      }
      reply := Flag(bound);
    }

    method ConfirmAccount(a: Id, identity: Identity, model: ModelSelection, now: Millis) returns (reply: Reply)
      requires Valid()
      modifies this
      ensures Valid() && Outcome(Rows(), reply) == Accounts.ConfirmAccount(old(Rows()), a, identity, model, now)
    {
      hide Invariant.Valid, Accounts.Confirms, Accounts.ProviderTaken, EqIgnoreCase, Accounts.RequeueAll, Accounts.RunIds;
      RecoveryOperations.ConfirmAccountKeeps(Rows(), a, identity, model, now);
      if a !in sessions {
        return Refused(NotFound);
      }
      var session := sessions[a];
      if !(session.lifecycle.Verifying? || session.lifecycle.SessionReady?)
         || session.observed.None? || session.observed.value > now || now - session.observed.value > OBSERVATION_MS {
        return Refused(VerificationExpired);
      }
      if session.observation.None? {
        return Refused(InvalidTransition);
      }
      var o := session.observation.value;
      if o.identity.id != identity.id || !EqIgnoreCase(o.identity.email, identity.email) {
        return Refused(InvalidTransition);
      }
      if model.Specific? && model.name != o.model && model.name !in o.available {
        return Refused(ModelUnavailable);
      }
      if a !in accounts {
        return Refused(StorageError);
      }
      var account := accounts[a];
      if now < account.cooldownUntil {
        return Refused(AccountCoolingDown);
      }
      if !Accounts.Confirms(account, o.identity) {
        return Refused(InvalidTransition);
      }
      if Accounts.ProviderTaken(Rows(), a, o.identity.id) {
        return Refused(StorageError);
      }
      ghost var before := Rows();
      accounts := accounts[a := account.(provider := Some(o.identity.id), readiness := Ready, cooldownUntil := 0, rateLimits := 0)];
      sessions := sessions[a := session.(model := Some(model), lifecycle := SessionReady, error := None, loginExpires := None)];
      SameActive(before, Rows(), a);
      RequeueVerified(Accounts.RunIds(Rows(), a, WaitingForAuth), now);
      reply := Ok;
    }

    // ---------- artifacts.rs ----------

    method Write(id: Id, artifact: Artifact)
      modifies this`artifacts
      ensures Rows() == Artifacts.AddArtifact(old(Rows()), id, artifact)
    {
      artifacts := artifacts[id := artifact];
    }

    /** Stores the text of a response and, when it completes its stage, its structured results. */
    method WriteResults(lease: Lease, c: Artifacts.Capture, complete: bool, now: Millis, draws: Artifacts.Draws)
      requires Joined(Rows(), lease.attempt) && lease.run == lease.attempt.run
      modifies this`artifacts, this`runs
      ensures Rows() == CaptureOperations.Written(old(Rows()), lease, c, complete, now, draws) && runs.Keys == old(runs.Keys)
    {
      hide Artifacts.RankingFor, Artifacts.TextName;
      var run := runs[lease.run];
      if !Blank(c.markdown) {
        Write(draws.text, Artifact(lease.run, Some(lease.attempt), Artifacts.TextName(lease.stage, lease.position),
                                   Markdown(c.markdown), complete, now));
      }
      if complete {
        if c.summary.Some? {
          Write(draws.summary, Artifact(lease.run, Some(lease.attempt), SummaryFile(lease.position), SummaryJson(c.summary.value), true, now));
          var task := run.tasks[lease.attempt.task].(summary := c.summary);
          runs := runs[lease.run := run.(tasks := run.tasks[lease.attempt.task := task])];
        }
        if lease.stage.Compare? {
          var ranking := Artifacts.RankingFor(run, c);
          if ranking.Some? {
            Write(draws.ranking, Artifact(lease.run, Some(lease.attempt), ComparisonFile, RankingJson(ranking.value), true, now));
          }
        }
      }
    }

    method FinishRun(r: Id, now: Millis, draws: Artifacts.Draws)
      requires r in runs
      modifies this`artifacts, this`runs, this`events
      ensures Rows() == Artifacts.Finish(old(Rows()), r, now, draws)
    {
      var excluded := Artifacts.ExcludedPositions(runs[r].tasks);
      Write(draws.manifest, Artifact(r, None, ManifestFile, Manifest(Some(draws.text), excluded), true, now));
      runs := runs[r := runs[r].(status := Completed, pauseReason := None)];
      AddEvent(r, RunFinished, now);
    }

    method PauseMismatched(r: Id)
      requires r in runs
      modifies this`runs
      ensures Rows() == SetRun(old(Rows()), r, old(runs[r]).(status := Paused, pauseReason := Some(ModelMismatch)))
      ensures runs.Keys == old(runs.Keys)
    {
      runs := runs[r := runs[r].(status := Paused, pauseReason := Some(ModelMismatch))];
    }

    /** A complete response on a ready account forgets its rate limits. */
    method ClearRateLimits(a: Id)
      modifies this`accounts
      ensures Rows() == Artifacts.ClearRateLimits(old(Rows()), a)
    {
      if a in accounts && accounts[a].readiness.Ready? {
        accounts := accounts[a := accounts[a].(rateLimits := 0)];
      }
    }

    method StoreFinal(lease: Lease, c: Artifacts.Capture, now: Millis, draws: Artifacts.Draws)
      requires Owns(Rows(), lease)
      modifies this
      ensures Rows() == Artifacts.StoreFinal(old(Rows()), lease, c, now, draws)
    {
      hide Artifacts.Verdict, Artifacts.WriteStructured, Artifacts.WriteText, Settle, Scheduler.Release, Artifacts.Finish, Artifacts.ClearRateLimits;
      ghost var before := Rows();
      CaptureOperations.StoreFinalIs(before, lease, c, now, draws);
      hide Artifacts.StoreFinal;
      var run, attempt := runs[lease.run], attempts[lease.attempt];
      var error := Artifacts.Verdict(run, lease.stage, c);
      var complete := c.complete && error.None?;
      var state := if complete then Captured else if Blank(c.markdown) then Abandoned else CapturedPartly;
      var mismatch := error == Some(ModelMismatch);
      var retryable := c.complete && c.error.None? && !complete && !mismatch;
      var again := retryable && run.tasks[lease.attempt.task].attempts < 2 && !run.status.Cancelled?;
      var status := if again then Todo else Artifacts.FinalStatus(state);
      WriteResults(lease, c, complete, now, draws);
      LeaseTheorems.WrittenJoined(before, lease, c, complete, now, draws);
      EndAttempt(lease, attempt.(state := state, completed := Some(now), error := error, retryable := retryable), status, error);
      SettleReconciliation(lease.run, now);
      if mismatch && !Terminal(run.status) {
        PauseMismatched(lease.run);
      }
      if complete {
        ClearRateLimits(lease.account);
      }
      AddEvent(lease.run, ResponseCaptured(lease.attempt), now);
      if complete && lease.stage.Revise? && !run.status.Cancelled? {
        FinishRun(lease.run, now, draws);
      }
    }

    method StorePartial(lease: Lease, c: Artifacts.Capture, now: Millis, draws: Artifacts.Draws)
      requires Owns(Rows(), lease)
      modifies this
      ensures Rows() == Artifacts.StorePartial(old(Rows()), lease, c, now, draws)
    {
      hide Artifacts.Verdict, Scheduler.Suspect, Artifacts.WriteText;
      var attempt := attempts[lease.attempt];
      var error := Artifacts.Verdict(runs[lease.run], lease.stage, c);
      LeaseTheorems.WrittenJoined(Rows(), lease, c, false, now, draws);
      WriteResults(lease, c, false, now, draws);
      Doubt(lease, attempt.(state := Uncertain, completed := Some(now), error := error, retryable := false), error);
      AddEvent(lease.run, ResponseCaptured(lease.attempt), now);
    }

    /** `capture` when the conversation is released, `preserve_partial` when it is not. */
    method StoreCapture(lease: Lease, capture: Artifacts.Capture, now: Millis, release: bool,
        draws: Artifacts.Draws) returns (reply: Reply)
      requires Valid()
      modifies this
      ensures Valid() && Outcome(Rows(), reply) == Artifacts.StoreCapture(old(Rows()), lease, capture, now, release, draws)
    {
      hide Invariant.Valid, Artifacts.StoreFinal, Artifacts.StorePartial, Artifacts.FreshDraws, Artifacts.SameTurn;
      CaptureOperations.StoreCaptureKeeps(Rows(), lease, capture, now, release, draws);
      if !Artifacts.FreshDraws(Rows(), draws) {
        return Refused(StorageError);
      }
      if !Owns(Rows(), lease) {
        return Refused(OwnershipMismatch);
      }
      var run, attempt := runs[lease.run], attempts[lease.attempt];
      var c := if release then capture else capture.(complete := false);
      if c.error.None? {
        if now >= run.deadline {
          c := c.(error := Some(RunDeadline), complete := false);
        } else if attempt.accepted.Some? && SatSub(now, attempt.accepted.value) >= RESPONSE_TIMEOUT_MS {
          c := c.(error := Some(ResponseTimeout), complete := false);
        }
      }
      if !(attempt.state.Accepted? || attempt.state.Uncertain?) {
        return Refused(InvalidTransition);
      }
      if !Artifacts.SameTurn(attempt, c) {
        return Refused(CaptureOwnershipMismatch);
      }
      if release {
        StoreFinal(lease, c, now, draws);
      } else {
        StorePartial(lease, c, now, draws);
      }
      reply := Ok;
    }
  }

  // ---------- Facts used by the methods ----------

  lemma OneRunPerKey(db: Db)
    requires Invariant.Valid(db)
    ensures forall r, s | r in db.runs && s in db.runs && db.runs[r].request.key == db.runs[s].request.key :: r == s
  {
  }

  /** The runs of an account do not depend on the account's own row. */
  lemma SameActive(d: Db, e: Db, a: Id)
    requires e.runs == d.runs
    ensures Accounts.ActiveRunIds(e, a) == Accounts.ActiveRunIds(d, a)
    ensures Accounts.RunIds(e, a, WaitingForAuth) == Accounts.RunIds(d, a, WaitingForAuth)
  {
  }
}
