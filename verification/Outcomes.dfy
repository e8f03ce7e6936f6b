/** What can never be undone: results, sent prompts, and the end of a run. */
module Outcomes {
  import opened Text
  import opened Tables
  import opened Scheduler
  import opened Recovery
  import opened Runs
  import opened Artifacts
  import opened Invariant
  import opened RecoveryOperations
  import opened Histories
  import opened Transitions
  import opened RecoveryTheorems
  import opened LeaseTheorems
  import opened StepRules

  // ---------- Absorbing outcomes ----------

  /** A completed or cancelled run keeps its status and is never charged again. */
  lemma EndedRunsStay(states: seq<Db>, steps: seq<Step>, i: nat, j: nat, r: Id)
    requires History(states, steps) && i <= j <= |steps| && r in states[i].runs
    requires states[i].runs[r].status.Completed? || states[i].runs[r].status.Cancelled?
    ensures r in states[j].runs && states[j].runs[r].status == states[i].runs[r].status
    ensures states[j].runs[r].submissions == states[i].runs[r].submissions
  {
    hide Apply, ForeignKeys, Valid, TaskEvolves;
    HistoryEvolves(states, steps, i, j);
    assert RunEvolves(states[i].runs[r], states[j].runs[r]);
  }

  /** A completed or excluded task never changes again. */
  lemma EndedTasksStay(states: seq<Db>, steps: seq<Step>, i: nat, j: nat, r: Id, t: nat)
    requires History(states, steps) && i <= j <= |steps| && r in states[i].runs && t < |states[i].runs[r].tasks|
    requires states[i].runs[r].tasks[t].status.Done? || states[i].runs[r].tasks[t].status.Excluded?
    ensures r in states[j].runs && t < |states[j].runs[r].tasks| && states[j].runs[r].tasks[t] == states[i].runs[r].tasks[t]
  {
    hide Apply, ForeignKeys, Valid;
    HistoryEvolves(states, steps, i, j);
    assert RunEvolves(states[i].runs[r], states[j].runs[r]);
    assert TaskEvolves(states[i].runs[r].tasks[t], states[j].runs[r].tasks[t]);
  }

  /** An attempt that was captured, failed or stopped never changes again. */
  lemma EndedAttemptsStay(states: seq<Db>, steps: seq<Step>, i: nat, j: nat, k: AttemptId)
    requires History(states, steps) && i <= j <= |steps| && k in states[i].attempts && !Live(states[i].attempts[k].state)
    ensures k in states[j].attempts && states[j].attempts[k] == states[i].attempts[k]
  {
    hide Apply, ForeignKeys, Valid, RunEvolves;
    HistoryEvolves(states, steps, i, j);
    assert AttemptEvolves(states[i].attempts[k], states[j].attempts[k]);
  }

  // ---------- Idempotent submission ----------

  lemma KeyNamesOneRun(d: Db, r: Id)
    requires Valid(d) && r in d.runs
    ensures KeyUsed(d, d.runs[r].request.key) && RunWithKey(d, d.runs[r].request.key) == r
  {
  }

  lemma SubmittedRun(d: Db, s: Step, r: Id)
    requires s.command.DoSubmit? && Apply(d, s).reply == Submitted(r)
    ensures r in Apply(d, s).db.runs && Apply(d, s).db.runs[r].request == s.command.q && RequestOk(s.command.q)
  {
    hide ForeignKeys, RequestOk, ModelOk, ChosenModel;
  }

  lemma SameRequest(d: Db, q: Request, model: Option<ModelSelection>, now: Millis, x: Id, r: Id)
    requires RequestOk(q) && r in d.runs && d.runs[r].request == q && KeyUsed(d, q.key) && RunWithKey(d, q.key) == r
    ensures Submit(d, q, model, now, x) == Outcome(d, Submitted(r))
  {
    hide RequestOk, ModelOk, ChosenModel, KeyUsed, RunWithKey;
  }

  /** Submitting a request again, whatever has happened since, names the same run and changes nothing. */
  lemma SubmissionIsIdempotent(states: seq<Db>, steps: seq<Step>, i: nat, j: nat, r: Id,
      model: Option<ModelSelection>, now: Millis, x: Id)
    requires History(states, steps) && i < j <= |steps| && steps[i].command.DoSubmit?
    requires Apply(states[i], steps[i]).reply == Submitted(r)
    ensures Submit(states[j], steps[i].command.q, model, now, x) == Outcome(states[j], Submitted(r))
  {
    hide Apply, ForeignKeys, Valid, TaskEvolves, Submit, RequestOk, KeyUsed, RunWithKey;
    SubmittedRun(states[i], steps[i], r);
    HistoryEvolves(states, steps, i + 1, j);
    assert RunEvolves(states[i + 1].runs[r], states[j].runs[r]);
    HistoryIsValid(states, steps, j);
    KeyNamesOneRun(states[j], r);
    SameRequest(states[j], steps[i].command.q, model, now, x, r);
  }

  // ---------- At most once ----------

  predicate IsSubmitting(d: Db, k: AttemptId) { k in d.attempts && d.attempts[k].state.Submitting? }

  /** The step sends the attempt's prompt. */
  ghost predicate Enters(states: seq<Db>, i: nat, k: AttemptId)
    requires i + 1 < |states|
  {
    !IsSubmitting(states[i], k) && IsSubmitting(states[i + 1], k)
  }

  /** Through crashes, recoveries and anything else, an attempt is sent at most once. */
  lemma SentAtMostOnce(states: seq<Db>, steps: seq<Step>, i: nat, j: nat, k: AttemptId)
    requires History(states, steps) && i < j < |steps|
    ensures !(Enters(states, i, k) && Enters(states, j, k))
  {
    hide Apply, ForeignKeys, Valid, RunEvolves;
    if Enters(states, i, k) {
      HistoryEvolves(states, steps, i + 1, j);
      assert AttemptEvolves(states[i + 1].attempts[k], states[j].attempts[k]);
      HistoryEvolves(states, steps, j, j + 1);
      assert AttemptEvolves(states[j].attempts[k], states[j + 1].attempts[k]);
    }
  }

  /** The log never charges an attempt twice. */
  lemma ChargedAtMostOnce(db: Db, i: nat, j: nat)
    requires Reachable(db) && i < j < |db.events| && Starts(db.events[i]) && Starts(db.events[j])
    ensures db.events[i].kind.attempt != db.events[j].kind.attempt
  {
    hide Reachable, RunsOk, AttemptsOk, ReservationsOk, CapacityOk, AccountsOk, PacingOk, BudgetOk, ArtifactsOk;
    ReachableIsValid(db);
  }

  lemma LatestIsLast(d: Db, k: AttemptId)
    requires AttemptsOk(d) && k in d.attempts && InFlight(d.attempts[k].state)
    ensures forall q | q in d.attempts && q.run == k.run && q.task == k.task :: q.number <= k.number
  {
    assert Counted(d, k) && Agrees(d, k);
    forall q | q in d.attempts && q.run == k.run && q.task == k.task ensures q.number <= k.number {
      assert Counted(d, q);
    }
  }

  lemma InFlightIsLatest(d: Db, k: AttemptId)
    requires Valid(d) && k in d.attempts && InFlight(d.attempts[k].state)
    ensures forall q | q in d.attempts && q.run == k.run && q.task == k.task :: q.number <= k.number
  {
    hide RunsOk, AttemptsOk, ReservationsOk, CapacityOk, AccountsOk, LogOk, PacingOk, BudgetOk, ArtifactsOk;
    LatestIsLast(d, k);
  }

  /** From its submission until its conversation is resolved, no further attempt of the task exists in any state. */
  lemma NoRetryInFlight(states: seq<Db>, steps: seq<Step>, i: nat, m: nat, j: nat, k: AttemptId)
    requires History(states, steps) && i <= m <= j <= |steps|
    requires k in states[i].attempts && InFlight(states[i].attempts[k].state)
    requires k in states[j].attempts && InFlight(states[j].attempts[k].state)
    ensures k in states[m].attempts && InFlight(states[m].attempts[k].state)
    ensures forall q | q in states[m].attempts && q.run == k.run && q.task == k.task :: q.number <= k.number
  {
    hide Apply, ForeignKeys, Valid, RunEvolves;
    HistoryEvolves(states, steps, i, m);
    assert AttemptEvolves(states[i].attempts[k], states[m].attempts[k]);
    HistoryEvolves(states, steps, m, j);
    assert AttemptEvolves(states[m].attempts[k], states[j].attempts[k]);
    HistoryIsValid(states, steps, m);
    InFlightIsLatest(states[m], k);
  }

  /** Recovery charges nothing, and only ever requeues a task whose live attempt had not been sent. */
  lemma RecoveryResendsNothing(d: Db, now: Millis, r: Id, i: nat)
    requires Valid(d) && r in d.runs && i < |d.runs[r].tasks|
    ensures ForeignKeys(d)
    ensures var e := Recover(d, now).db;
            && r in e.runs && e.runs[r].submissions == d.runs[r].submissions
            && |e.runs[r].tasks| == |d.runs[r].tasks|
            && (e.runs[r].tasks[i] != d.runs[r].tasks[i] ==> IsPrepared(d, AttemptId(r, i, d.runs[r].tasks[i].attempts)))
  {
    hide Valid, Recover, InDoubt;
    RecoverIsPointwise(d, now);
    assert RunRecovered(d, r, Recover(d, now).db.runs[r]);
  }

  // ---------- Reservations ----------

  /** The step gives this reservation back. */
  ghost predicate GivesBack(d: Db, s: Step, x: Id)
    requires x in d.reservations
  {
    match s.command
    case DoRecover => IsPrepared(d, d.reservations[x].attempt)
    case DoFail(lease, _, disposition) => lease.reservation == x && Owns(d, lease) && !disposition.Ambiguous?
    case DoCapture(lease, _, release, _) => lease.reservation == x && Owns(d, lease) && release
    case DoAcknowledge(lease) => lease.reservation == x && Owns(d, lease) && d.runs[lease.run].status.Cancelled?
    case _ => false
  }

  predicate Holds(d: Db, e: Db, x: Id)
    requires x in d.reservations
  {
    x in e.reservations && e.reservations[x] == d.reservations[x]
  }

  lemma SameHolds(d: Db, e: Db, x: Id)
    requires x in d.reservations && e.reservations == d.reservations
    ensures Holds(d, e, x)
  {
  }

  lemma KeepingOperations(d: Db, s: Step, lease: Lease)
    requires LeaseOfCommand(s.command) == Some(lease) && Owns(d, lease) && !GivesBack(d, s, lease.reservation)
    ensures Apply(d, s).db.reservations == d.reservations
  {
    hide ForeignKeys, Timed, Verdict, StoreFinal, Unresolved, Blank;
  }

  lemma LeaseHolds(d: Db, s: Step, x: Id)
    requires LeaseOfCommand(s.command).Some? && x in d.reservations && !GivesBack(d, s, x)
    ensures Holds(d, Apply(d, s).db, x)
  {
    var lease := LeaseOfCommand(s.command).value;
    hide ForeignKeys, Apply, Owns, RunsApart, ArtifactsApart;
    LeaseOperationsAreIsolated(d, s);
    if x == lease.reservation {
      if Owns(d, lease) { KeepingOperations(d, s, lease); } else { UnownedChangesNothing(d, s); }
    }
  }

  lemma ClaimHolds(d: Db, now: Millis, jitter: int, y: Id, x: Id)
    requires x in d.reservations
    ensures Holds(d, Claim(d, now, jitter, y).db, x)
  {
    hide PauseAll, ClaimFrom, Grantable, NextTask, ExpiredRuns, Candidates;
    if 0 <= jitter <= MAX_JITTER_MS && y !in d.reservations {
      var n, m := ClaimShape(d, now, jitter, y);
      hide StopsAt, Claim, Relabelled, CalmLog;
    }
  }

  lemma RecoverHolds(d: Db, now: Millis, x: Id)
    requires Valid(d) && x in d.reservations && !IsPrepared(d, d.reservations[x].attempt)
    ensures ForeignKeys(d) && Holds(d, Recover(d, now).db, x)
  {
    hide Valid, ForeignKeys, Recover, RunRecovered, CalmLog, RecoveredAttempt;
    RecoverIsPointwise(d, now);
  }

  lemma AccountsHold(d: Db, s: Step, x: Id)
    requires OnAccounts(s.command) && x in d.reservations
    ensures Holds(d, Apply(d, s).db, x)
  {
    hide ForeignKeys, Apply, Sweep;
    AccountCommandsSweep(d, s);
    SweepKeepsAccounts(d.(accounts := Apply(d, s).db.accounts, sessions := Apply(d, s).db.sessions), Apply(d, s).db);
  }

  lemma RunsHold(d: Db, s: Step, x: Id)
    requires x in d.reservations
    requires !s.command.DoClaim? && !s.command.DoRecover? && !OnAccounts(s.command) && LeaseOfCommand(s.command).None?
    ensures Holds(d, Apply(d, s).db, x)
  {
    hide ForeignKeys, RequestOk, ModelOk, ChosenModel, NewRun, SubsetAvailable, ExcludeOpen, Requeue, ReattachedNow, Holds;
    SameHolds(d, Apply(d, s).db, x);
  }

  /** A reservation stays counted, its row unchanged, until its attempt is settled, its stop is acknowledged, or a restart
      finds it was never sent; cancelling the run does not release it. */
  lemma ReservationsStayUntilGivenBack(d: Db, s: Step, x: Id)
    requires Valid(d) && x in d.reservations && !GivesBack(d, s, x)
    ensures x in Apply(d, s).db.reservations && Apply(d, s).db.reservations[x] == d.reservations[x]
  {
    hide Valid, ForeignKeys, Claim, Recover, OnAccounts;
    ValidForeignKeys(d);
    assert Holds(d, Apply(d, s).db, x) by {
      hide Holds;
      if s.command.DoClaim? {
        ClaimHolds(d, s.now, s.command.jitter, s.command.x, x);
      } else if s.command.DoRecover? {
        RecoverHolds(d, s.now, x);
      } else {
        hide GivesBack, Apply;
        if OnAccounts(s.command) {
          AccountsHold(d, s, x);
        } else if LeaseOfCommand(s.command).Some? {
          LeaseHolds(d, s, x);
        } else {
          RunsHold(d, s, x);
        }
      }
    }
    hide Apply;
  }
}
