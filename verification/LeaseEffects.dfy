/** The whole effect of the transactions a lease allows, but for captures. */
module LeaseEffects {
  import opened Text
  import opened Tables
  import opened Scheduler
  import opened Recovery
  import opened Invariant
  import opened Operations

  // ---------- Who owns what ----------

  /** A lease is owned exactly when it spells out its reservation. */
  lemma OwnsIff(d: Db, lease: Lease)
    requires Valid(d)
    ensures Owns(d, lease) <==>
              && lease.reservation in d.reservations
              && var held := d.reservations[lease.reservation];
                 && held.run in d.runs && held.attempt.task < |d.runs[held.run].tasks|
                 && var task := d.runs[held.run].tasks[held.attempt.task];
                    lease == Lease(lease.reservation, held.account, held.run, TaskId(held.run, held.attempt.task), held.attempt,
                                   task.stage, task.position)
  {
    hide RunsOk, AttemptsOk, CapacityOk, AccountsOk, LogOk, PacingOk, BudgetOk, ArtifactsOk;
    if lease.reservation in d.reservations { assert ReservationOk(d, d.reservations[lease.reservation]); }
  }

  /** What an owned lease stands for: the live, latest attempt of a running task. */
  lemma OwnedRows(d: Db, lease: Lease)
    requires Valid(d) && Owns(d, lease)
    ensures lease.run in d.runs && lease.attempt.run == lease.run && lease.attempt.task < |d.runs[lease.run].tasks|
    ensures lease.attempt in d.attempts && Live(d.attempts[lease.attempt].state) && lease.account in d.accounts
    ensures var task := d.runs[lease.run].tasks[lease.attempt.task];
            task.status.Active? && task.attempts == lease.attempt.number && task.stage == lease.stage && task.position == lease.position
    ensures !d.runs[lease.run].status.Completed?
  {
    hide Valid, Owns;
    OwnedIsLeased(d, lease);
  }

  // ---------- begin_submission ----------

  /** A submission is accepted exactly when everything it needs holds, and charges exactly the run and the account. */
  lemma BeginEffect(d: Db, lease: Lease, now: Millis)
    requires Valid(d)
    ensures var o := BeginSubmission(d, lease, now);
            && (o.reply.Ok? <==>
                  && Owns(d, lease) && lease.run in d.runs && lease.account in d.accounts && lease.attempt in d.attempts
                  && (d.runs[lease.run].status.Queued? || d.runs[lease.run].status.Running?)
                  && now < d.runs[lease.run].deadline && d.runs[lease.run].submissions < d.runs[lease.run].limit
                  && d.accounts[lease.account].readiness.Ready? && d.accounts[lease.account].submissionAllowed <= now
                  && d.attempts[lease.attempt].state.Prepared?)
            && (!o.reply.Ok? ==> o.db == d && o.reply.Refused?)
            && (o.reply.Refused? ==>
                  o.reply.code ==
                  if !Owns(d, lease) then OwnershipMismatch
                  else if && lease.run in d.runs && lease.account in d.accounts
                          && (d.runs[lease.run].status.Queued? || d.runs[lease.run].status.Running?)
                          && now < d.runs[lease.run].deadline && d.runs[lease.run].submissions < d.runs[lease.run].limit
                          && d.accounts[lease.account].readiness.Ready? && now < d.accounts[lease.account].submissionAllowed
                  then SubmissionPaced else InvalidTransition)
            && (o.reply.Ok? ==>
                  var run, account := d.runs[lease.run], d.accounts[lease.account];
                  var allowed := SatAdd(now, d.reservations[lease.reservation].spacing);
                  o.db == d.(runs := d.runs[lease.run := run.(status := Running, submissions := run.submissions + 1)],
                             attempts := d.attempts[lease.attempt := d.attempts[lease.attempt].(state := Submitting)],
                             accounts := d.accounts[lease.account := account.(
                               submissionAllowed := allowed,
                               nextSubmit := if account.nextSubmit < allowed then allowed else account.nextSubmit)],
                             events := d.events + [Event(lease.run, SubmissionStarted(lease.attempt), now)]))
  {
    hide Valid, Owns;
    if Owns(d, lease) { OwnedRows(d, lease); }
  }

  // ---------- accepted ----------

  lemma AcceptEffect(d: Db, lease: Lease, turn: Turn, valid: bool, now: Millis)
    requires Valid(d)
    ensures var o := Accept(d, lease, turn, valid, now);
            && (o.reply.Ok? <==> valid && Owns(d, lease) && lease.attempt in d.attempts && d.attempts[lease.attempt].state.Submitting?)
            && (o.reply.Refused? ==>
                  o.reply.code == if !valid then InvalidAcceptance else if !Owns(d, lease) then OwnershipMismatch else InvalidTransition)
            && (!o.reply.Ok? ==> o.db == d && o.reply.Refused?)
            && (o.reply.Ok? ==>
                  o.db == d.(attempts := d.attempts[lease.attempt :=
                               d.attempts[lease.attempt].(state := Accepted, turn := Some(turn), accepted := Some(now))],
                             events := d.events + [Event(lease.run, PromptAccepted(lease.attempt), now)]))
  {
    hide Valid, Owns;
    if Owns(d, lease) { OwnedRows(d, lease); }
  }

  // ---------- The end of an attempt ----------

  /** The last reservation of the run is the one of this lease. */
  ghost predicate IsLast(d: Db, lease: Lease) {
    forall x | x in d.reservations && d.reservations[x].run == lease.run :: x == lease.reservation
  }

  /** The run once a reservation is gone: a reconciliation ends with the last one and leads back. */
  function LedBack(run: Run, last: bool): Run {
    if run.status.Reconciling? && last then
      if run.recovery == Some(Paused) then run.(status := Paused, pauseReason := Some(OperatorPaused), recovery := None)
      else run.(status := Queued, pauseReason := None, recovery := None)
    else run
  }

  function WithTask(run: Run, i: nat, status: TaskStatus, error: Option<Code>): Run
    requires i < |run.tasks|
  {
    run.(tasks := run.tasks[i := run.tasks[i].(status := status, error := error)])
  }

  /** An unresolved conversation: unless it has ended, the run waits for reconciliation and remembers its status once. */
  function Doubted(run: Run, reason: Option<Code>): Run {
    if run.status.Completed? || run.status.Cancelled? || run.status.Failed? then run
    else if run.status.Reconciling? then run.(pauseReason := reason)
    else run.(status := Reconciling, recovery := Some(run.status), pauseReason := reason)
  }

  /** The rows of an ended attempt: its own, its task's, no reservation, and the run led back if that was the last one. */
  lemma ReleasedRows(d: Db, lease: Lease, attempt: Attempt, status: TaskStatus, error: Option<Code>, now: Millis)
    requires Owns(d, lease)
    ensures var run := d.runs[lease.run];
            var after := LedBack(WithTask(run, lease.attempt.task, status, error), IsLast(d, lease));
            Settle(Release(d, lease, attempt, status, error), lease.run, now)
            == d.(attempts := d.attempts[lease.attempt := attempt], reservations := d.reservations - {lease.reservation},
                  runs := d.runs[lease.run := after],
                  events := d.events + if run.status.Reconciling? && IsLast(d, lease) then [Event(lease.run, ReconciliationFinished, now)] else [])
  {
    var e := Release(d, lease, attempt, status, error);
    assert HoldsReservation(e, lease.run) <==> !IsLast(d, lease) by {
      if !IsLast(d, lease) {
        var x :| x in d.reservations && d.reservations[x].run == lease.run && x != lease.reservation;
        assert x in e.reservations;
      }
    }
    assert d.events + [] == d.events;
  }

  // ---------- fail_attempt ----------

  /** A failure is accepted for every owned attempt, except one that contradicts what is known of its submission. */
  lemma FailIsAccepted(d: Db, lease: Lease, code: Code, disposition: Disposition, now: Millis)
    requires Valid(d)
    ensures var o := FailAttempt(d, lease, code, disposition, now);
            && (!o.reply.Ok? ==> o.db == d && o.reply.Refused?)
            && (o.reply.Refused? ==>
                  o.reply.code == if !Owns(d, lease) then OwnershipMismatch else if disposition.Ambiguous? then StorageError
                                  else InvalidTransition)
            && (o.reply.Ok? <==>
                  && Owns(d, lease) && lease.attempt in d.attempts
                  && (disposition.DefinitelyNotAccepted? ==> !d.attempts[lease.attempt].state.Accepted?)
                  && (disposition.CompletedRetryable? ==> d.attempts[lease.attempt].state.Accepted?)
                  && (disposition.Ambiguous? ==> !d.attempts[lease.attempt].state.Prepared?))
  {
    hide Valid, Owns, Settle;
    if Owns(d, lease) { OwnedRows(d, lease); }
  }

  /** A failure that ends the attempt: the task is tried once more exactly when the failure allows it, this was its first
      attempt, and the run is not cancelled. */
  lemma FailEffect(d: Db, lease: Lease, code: Code, disposition: Disposition, now: Millis)
    requires Valid(d) && !disposition.Ambiguous? && FailAttempt(d, lease, code, disposition, now).reply.Ok?
    ensures lease.run in d.runs && lease.attempt.task < |d.runs[lease.run].tasks| && lease.attempt in d.attempts
    ensures var e := FailAttempt(d, lease, code, disposition, now).db;
            var run, i := d.runs[lease.run], lease.attempt.task;
            var again := disposition.DefinitelyNotAccepted? || disposition.CompletedRetryable?;
            var status := if again && run.tasks[i].attempts == 1 && !run.status.Cancelled? then Todo else Broken;
            e == d.(attempts := d.attempts[lease.attempt := d.attempts[lease.attempt].(
                      state := Abandoned, error := Some(code), retryable := again, completed := Some(now))],
                    reservations := d.reservations - {lease.reservation},
                    runs := d.runs[lease.run := LedBack(WithTask(run, i, status, Some(code)), IsLast(d, lease))],
                    events := d.events
                      + (if run.status.Reconciling? && IsLast(d, lease) then [Event(lease.run, ReconciliationFinished, now)] else [])
                      + [Event(lease.run, AttemptFailed(lease.attempt), now)])
  {
    hide Valid, Owns, Settle, Release, LedBack, WithTask, IsLast, Live;
    FailIsAccepted(d, lease, code, disposition, now);
    OwnedRows(d, lease);
    FirstAttempt(d, lease);
    var again := disposition.DefinitelyNotAccepted? || disposition.CompletedRetryable?;
    var ended := d.attempts[lease.attempt].(error := Some(code), retryable := again, completed := Some(now), state := Abandoned);
    var status := if again && lease.attempt.number < 2 && !d.runs[lease.run].status.Cancelled? then Todo else Broken;
    OwnedJoin(d, lease);
    ReleasedRows(d, lease, ended, status, Some(code), now);
  }

  lemma OwnedJoin(d: Db, lease: Lease)
    requires Owns(d, lease)
    ensures Joined(d, lease.attempt) && lease.run == lease.attempt.run
  {
  }

  lemma FirstAttempt(d: Db, lease: Lease)
    requires Valid(d) && Owns(d, lease)
    ensures lease.attempt.number >= 1
  {
    hide RunsOk, ReservationsOk, CapacityOk, AccountsOk, LogOk, PacingOk, BudgetOk, ArtifactsOk, Owns;
    OwnedRows(d, lease);
    assert Counted(d, lease.attempt);
  }

  /** An ambiguous failure keeps the attempt, its reservation and its task, and the run waits for reconciliation. */
  lemma AmbiguousEffect(d: Db, lease: Lease, code: Code, now: Millis)
    requires Valid(d) && FailAttempt(d, lease, code, Ambiguous, now).reply.Ok?
    ensures lease.run in d.runs && lease.attempt.task < |d.runs[lease.run].tasks| && lease.attempt in d.attempts
    ensures var run := d.runs[lease.run];
            FailAttempt(d, lease, code, Ambiguous, now).db
            == d.(attempts := d.attempts[lease.attempt := d.attempts[lease.attempt].(
                    state := Uncertain, error := Some(code), retryable := false, completed := Some(now))],
                  runs := d.runs[lease.run := Doubted(WithTask(run, lease.attempt.task, Active, Some(code)), Some(code))],
                  events := d.events + [Event(lease.run, AttemptFailed(lease.attempt), now)])
  {
    hide Valid, Owns, Live;
    FailIsAccepted(d, lease, code, Ambiguous, now);
    OwnedRows(d, lease);
  }

  // ---------- acknowledge_cancel and reattached ----------

  /** A stop is acknowledged for an attempt of a cancelled run; once it is, further acknowledgements change nothing. */
  lemma AcknowledgeEffect(d: Db, lease: Lease, now: Millis)
    requires Valid(d)
    ensures var o := AcknowledgeCancel(d, lease, now);
            && (o.reply.Ok? <==>
                  lease.reservation !in d.reservations || (Owns(d, lease) && lease.run in d.runs && d.runs[lease.run].status.Cancelled?))
            && (!o.reply.Ok? ==> o.reply == Refused(if Owns(d, lease) then InvalidTransition else OwnershipMismatch))
            && (!o.reply.Ok? || lease.reservation !in d.reservations ==> o.db == d)
            && (o.reply.Ok? && lease.reservation in d.reservations ==>
                  && lease.run in d.runs && lease.attempt.task < |d.runs[lease.run].tasks| && lease.attempt in d.attempts
                  && o.db == d.(
                    attempts := d.attempts[lease.attempt := d.attempts[lease.attempt].(state := Stopped, completed := Some(now))],
                    runs := d.runs[lease.run := WithTask(d.runs[lease.run], lease.attempt.task, Broken, Some(RunWasCancelled))],
                    reservations := d.reservations - {lease.reservation},
                    events := d.events + [Event(lease.run, ConversationStopped(lease.attempt), now)]))
  {
    hide Valid, Owns;
    if Owns(d, lease) { OwnedRows(d, lease); OwnedJoin(d, lease); }
  }

  /** Only the conversation recorded for an accepted attempt can be reattached, and nothing but the log changes. */
  lemma ReattachEffect(d: Db, lease: Lease, conversation: string, now: Millis)
    requires Valid(d)
    ensures var o := Reattach(d, lease, conversation, now);
            && (o.reply.Ok? <==> Owns(d, lease) && lease.attempt in d.attempts && d.attempts[lease.attempt].state.Accepted?
                                 && d.attempts[lease.attempt].turn.Some?
                                 && d.attempts[lease.attempt].turn.value.conversation == conversation)
            && (!o.reply.Ok? ==> o.reply == Refused(if Owns(d, lease) then ReconciliationRequired else OwnershipMismatch) && o.db == d)
            && (o.reply.Ok? ==> o.db == d.(events := d.events + [Event(lease.run, ConversationReattached(lease.attempt), now)]))
  {
    hide Valid, Owns;
    if Owns(d, lease) { OwnedRows(d, lease); }
  }
}
