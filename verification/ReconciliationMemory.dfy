/** What a run remembers while its conversations are reconciled. */
module ReconciliationMemory {
  import opened Text
  import opened Tables
  import opened Scheduler
  import opened Runs
  import opened Recovery
  import opened Artifacts
  import opened Invariant
  import opened Steps
  import opened Operations
  import opened CaptureOperations
  import opened RecoveryOperations
  import opened Histories
  import opened Transitions
  import opened RecoveryTheorems
  import opened LeaseTheorems
  import opened StepRules

  /** The ways out of a reconciliation, and the way in. */
  predicate Remembers(r: Run, s: Run) {
    && (r.status.Reconciling? && s.status.Reconciling? ==> s.recovery == r.recovery)
    && (!r.status.Reconciling? && s.status.Reconciling? ==> s.recovery == Some(r.status))
    && (r.status.Reconciling? && !s.status.Reconciling? ==>
          || s.status.Cancelled? || s.status.Completed?
          || (s.status.Paused? && s.pauseReason == Some(ModelMismatch))
          || (s.status == Remembered(r) && s.recovery.None?))
  }

  ghost predicate AllRemember(d: Db, e: Db) {
    forall r | r in d.runs :: r in e.runs && Remembers(d.runs[r], e.runs[r])
  }

  lemma SweepRemembers(d: Db, e: Db)
    requires Sweep(d, e)
    ensures AllRemember(d, e)
  {
    forall r | r in d.runs ensures Remembers(d.runs[r], e.runs[r]) {
      assert Relabelled(d.runs[r], e.runs[r]);
    }
  }

  lemma GrantRemembers(d: Db, m: Db, r: Id, i: nat, now: Millis, spacing: int, x: Id)
    requires Sweep(d, m) && r in m.runs && i < |m.runs[r].tasks| && m.runs[r].request.account in m.accounts
    requires Waiting(m.runs[r].status)
    ensures AllRemember(d, Grant(m, r, i, now, spacing, x))
  {
    var e := Grant(m, r, i, now, spacing, x);
    forall q | q in d.runs ensures q in e.runs && Remembers(d.runs[q], e.runs[q]) {
      assert Relabelled(d.runs[q], m.runs[q]);
    }
  }

  lemma ClaimRemembers(d: Db, now: Millis, jitter: int, x: Id)
    ensures AllRemember(d, Claim(d, now, jitter, x).db)
  {
    hide PauseAll, ClaimFrom, NextTask, Grant, AllRemember, Sweep, Candidates, AccountOpen, Exhausted;
    NoSweep(d);
    SweepRemembers(d, d);
    if 0 <= jitter <= MAX_JITTER_MS && x !in d.reservations {
      var n, m := ClaimShape(d, now, jitter, x);
      SweepRemembers(d, m);
      var ids := Candidates(Swept(d, now));
      if n < |ids| {
        assert m.runs[ids[n]] == Swept(d, now).runs[ids[n]];
        assert m.runs[ids[n]].request.account in m.accounts by { GrantableHasAccount(m, ids[n], now); }
        GrantRemembers(d, m, ids[n], NextTask(m.runs[ids[n]]).value, now, SUBMISSION_SPACING_MS + jitter, x);
      }
    }
  }

  lemma GrantableHasAccount(m: Db, r: Id, now: Millis)
    requires r in m.runs && Grantable(m, r, now)
    ensures m.runs[r].request.account in m.accounts
  {
  }

  /** Only the run of the lease needs a look. */
  lemma OneRunRemembers(d: Db, e: Db, lease: Lease)
    requires Isolated(d, e, lease) && (lease.run in d.runs ==> lease.run in e.runs && Remembers(d.runs[lease.run], e.runs[lease.run]))
    ensures AllRemember(d, e)
  {
    forall r | r in d.runs ensures r in e.runs && Remembers(d.runs[r], e.runs[r]) {
      if r != lease.run { assert e.runs[r] == d.runs[r]; }
    }
  }

  lemma SettledHeader(d: Db, r: Id, now: Millis)
    requires r in d.runs
    ensures r in Settle(d, r, now).runs
    ensures Settle(d, r, now).runs[r] == d.runs[r]
            || (d.runs[r].status.Reconciling? && Settle(d, r, now).runs[r] == Reconciled(d.runs[r]))
  {
  }

  lemma ReleaseHeader(d: Db, lease: Lease, attempt: Attempt, status: TaskStatus, error: Option<Code>)
    requires Joined(d, lease.attempt) && lease.run == lease.attempt.run
    ensures var e := Release(d, lease, attempt, status, error);
            lease.run in e.runs && e.runs[lease.run] == d.runs[lease.run].(tasks := e.runs[lease.run].tasks)
  {
  }

  lemma MismatchHeader(d: Db, r: Id, before: RunStatus, error: Option<Code>)
    requires r in d.runs
    ensures var e := ForceMismatchPause(d, r, before, error);
            && r in e.runs
            && (e.runs[r] == d.runs[r]
                || (!Terminal(before) && e.runs[r] == d.runs[r].(status := Paused, pauseReason := Some(ModelMismatch))))
  {
  }

  /** The header of the run of a lease after a final capture, up to the completion of the run. */
  lemma LoggedHeader(d: Db, lease: Lease, c: Capture, now: Millis, draws: Draws)
    requires Owns(d, lease) && Leased(d, lease) && FreshDraws(d, draws)
    ensures var e := Logged(d, lease, c, now, draws); lease.run in e.runs && Remembers(d.runs[lease.run], e.runs[lease.run])
  {
    hide Written, Settle, Release, ForceMismatchPause, Ended, IsComplete, Leased;
    var complete := IsComplete(d, lease, c);
    WrittenOwns(d, lease, c, complete, now, draws);
    hide Owns;
    var r := Ended(d, lease, c, now);
    var w := Written(d, lease, c, complete, now, draws);
    assert Joined(w, lease.attempt) by { WrittenJoined(d, lease, c, complete, now, draws); }
    var e := Release(w, lease, r.0, r.1, r.2);
    ReleaseHeader(w, lease, r.0, r.1, r.2);
    SettledHeader(e, lease.run, now);
    MismatchHeader(Settle(e, lease.run, now), lease.run, d.runs[lease.run].status, r.2);
  }

  lemma StoreFinalRemembers(d: Db, lease: Lease, c: Capture, now: Millis, draws: Draws)
    requires Owns(d, lease) && Leased(d, lease) && FreshDraws(d, draws)
    ensures var e := StoreFinal(d, lease, c, now, draws); lease.run in e.runs && Remembers(d.runs[lease.run], e.runs[lease.run])
  {
    hide Logged, StoreFinal, IsComplete, Leased;
    LoggedHeader(d, lease, c, now, draws);
    StoreFinalIs(d, lease, c, now, draws);
  }

  lemma StorePartialRemembers(d: Db, lease: Lease, c: Capture, now: Millis, draws: Draws)
    requires Owns(d, lease) && RunOk(d.runs[lease.run])
    ensures var e := StorePartial(d, lease, c, now, draws); lease.run in e.runs && Remembers(d.runs[lease.run], e.runs[lease.run])
  {
    hide Verdict, Blank;
  }

  lemma FailRemembers(d: Db, lease: Lease, code: Code, disposition: Disposition, now: Millis)
    requires lease.run in d.runs && RunOk(d.runs[lease.run])
    ensures var e := FailAttempt(d, lease, code, disposition, now).db;
            lease.run in e.runs && Remembers(d.runs[lease.run], e.runs[lease.run])
  {
    hide Settle;
    if FailAttempt(d, lease, code, disposition, now).reply.Ok? && !disposition.Ambiguous? {
      var retryable := disposition.DefinitelyNotAccepted? || disposition.CompletedRetryable?;
      var ended := d.attempts[lease.attempt].(error := Some(code), retryable := retryable, completed := Some(now));
      var status := if retryable && lease.attempt.number < 2 && !d.runs[lease.run].status.Cancelled? then Todo else Broken;
      SettledHeader(Release(d, lease, ended.(state := Abandoned), status, Some(code)), lease.run, now);
    }
  }

  lemma LeaseRemembers(d: Db, s: Step)
    requires Valid(d) && LeaseOfCommand(s.command).Some?
    ensures AllRemember(d, Apply(d, s).db)
  {
    hide Valid, ForeignKeys, AllRemember, Isolated, Leased, RunOk, StoreFinal, StorePartial, FailAttempt, Remembers;
    var lease := LeaseOfCommand(s.command).value;
    LeaseOperationsAreIsolated(d, s);
    if !Owns(d, lease) {
      UnownedChangesNothing(d, s);
      SameRemembers(d);
    } else {
      OwnedIsLeased(d, lease);
      RunIsOk(d, lease.run);
      OwnedRemembers(d, s, lease);
      OneRunRemembers(d, Apply(d, s).db, lease);
    }
  }

  lemma SameRemembers(d: Db)
    ensures AllRemember(d, d)
  {
  }

  lemma OwnedRemembers(d: Db, s: Step, lease: Lease)
    requires LeaseOfCommand(s.command) == Some(lease) && Owns(d, lease) && Leased(d, lease) && RunOk(d.runs[lease.run])
    ensures lease.run in Apply(d, s).db.runs && Remembers(d.runs[lease.run], Apply(d, s).db.runs[lease.run])
  {
    hide ForeignKeys, Leased, RunOk, StoreCapture, FailAttempt, Remembers;
    if s.command.DoCapture? {
      CaptureRemembers(d, lease, s.command.capture, s.now, s.command.release, s.command.draws);
    } else if s.command.DoFail? {
      FailRemembers(d, lease, s.command.code, s.command.disposition, s.now);
    } else {
      hide Apply;
      OthersRemember(d, s, lease);
    }
  }

  lemma CaptureRemembers(d: Db, lease: Lease, capture: Capture, now: Millis, release: bool, draws: Draws)
    requires Owns(d, lease) && Leased(d, lease) && RunOk(d.runs[lease.run])
    ensures var e := StoreCapture(d, lease, capture, now, release, draws).db;
            lease.run in e.runs && Remembers(d.runs[lease.run], e.runs[lease.run])
  {
    hide Leased, RunOk, StoreFinal, StorePartial, FreshDraws, SameTurn, Timed;
    if FreshDraws(d, draws) {
      var given := if release then capture else capture.(complete := false);
      var c := Timed(d.runs[lease.run], d.attempts[lease.attempt], given, now);
      StoreFinalRemembers(d, lease, c, now, draws);
      StorePartialRemembers(d, lease, c, now, draws);
    }
  }

  lemma OthersRemember(d: Db, s: Step, lease: Lease)
    requires LeaseOfCommand(s.command) == Some(lease) && !s.command.DoCapture? && !s.command.DoFail?
    requires lease.run in d.runs
    ensures lease.run in Apply(d, s).db.runs && Remembers(d.runs[lease.run], Apply(d, s).db.runs[lease.run])
  {
    hide ForeignKeys, BeginSubmission, AcknowledgeCancel, Owns, Remembers;
    SameRemembers(d);
    if s.command.DoBegin? {
      BeginRemembers(d, lease, s.now);
    } else if s.command.DoAcknowledge? {
      AcknowledgeRemembers(d, lease, s.now);
    } else {
      assert Apply(d, s).db.runs == d.runs;
      RunRemembers(d.runs[lease.run]);
    }
  }

  lemma RunRemembers(r: Run)
    ensures Remembers(r, r)
  {
  }

  lemma BeginRemembers(d: Db, lease: Lease, now: Millis)
    requires lease.run in d.runs
    ensures var e := BeginSubmission(d, lease, now).db; lease.run in e.runs && Remembers(d.runs[lease.run], e.runs[lease.run])
  {
    hide Owns;
  }

  lemma AcknowledgeRemembers(d: Db, lease: Lease, now: Millis)
    requires lease.run in d.runs
    ensures var e := AcknowledgeCancel(d, lease, now).db; lease.run in e.runs && Remembers(d.runs[lease.run], e.runs[lease.run])
  {
    hide Live;
  }

  lemma ThisRunRemembers(d: Db, e: Db, r: Id)
    requires r in e.runs && e.runs == d.runs[r := e.runs[r]] && (r in d.runs ==> Remembers(d.runs[r], e.runs[r]))
    ensures AllRemember(d, e)
  {
  }

  lemma SubmitRemembers(d: Db, q: Request, model: Option<ModelSelection>, now: Millis, r: Id)
    ensures AllRemember(d, Submit(d, q, model, now, r).db)
  {
    hide RequestOk, ModelOk, ChosenModel, NewRun, AllRemember, Remembers;
    SameRemembers(d);
    var e := Submit(d, q, model, now, r).db;
    if e != d { ThisRunRemembers(d, e, r); }
  }

  lemma RunCommandsRemember(d: Db, s: Step)
    requires s.command.DoSuspend? || s.command.DoResume? || s.command.DoCancel? || s.command.DoResumeReattached?
    ensures AllRemember(d, Apply(d, s).db)
  {
    hide ForeignKeys, SubsetAvailable, ExcludeOpen, Requeue, ReattachedNow, AllRemember;
    SameRemembers(d);
    var e := Apply(d, s).db;
    if e != d { ThisRunRemembers(d, e, s.command.r); }
  }

  lemma RecoverRemembers(d: Db, now: Millis)
    requires Valid(d)
    ensures ForeignKeys(d) && AllRemember(d, Recover(d, now).db)
  {
    hide Valid, Recover, InDoubt;
    RecoverIsPointwise(d, now);
    var e := Recover(d, now).db;
    forall r | r in d.runs ensures r in e.runs && Remembers(d.runs[r], e.runs[r]) {
      assert RunRecovered(d, r, e.runs[r]);
    }
  }

  /** Every transaction keeps the memory: nested failures never overwrite it, and it decides where the run goes. */
  lemma StepRemembers(d: Db, s: Step)
    requires Valid(d)
    ensures AllRemember(d, Apply(d, s).db)
  {
    hide Valid, ForeignKeys, AllRemember, Claim, Recover, Sweep;
    ValidForeignKeys(d);
    if s.command.DoClaim? {
      ClaimRemembers(d, s.now, s.command.jitter, s.command.x);
    } else if s.command.DoRecover? {
      RecoverRemembers(d, s.now);
    } else if OnAccounts(s.command) {
      AccountCommandsSweep(d, s);
      SweepRemembers(d.(accounts := Apply(d, s).db.accounts, sessions := Apply(d, s).db.sessions), Apply(d, s).db);
      SameRuns(d, Apply(d, s).db);
    } else if LeaseOfCommand(s.command).Some? {
      LeaseRemembers(d, s);
    } else if s.command.DoSubmit? {
      SubmitRemembers(d, s.command.q, s.command.model, s.now, s.command.r);
    } else {
      RunCommandsRemember(d, s);
    }
  }

  lemma SameRuns(d: Db, e: Db)
    requires AllRemember(d.(accounts := e.accounts, sessions := e.sessions), e)
    ensures AllRemember(d, e)
  {
  }

  ghost predicate Reconciles(states: seq<Db>, i: nat, j: nat, r: Id) {
    forall m | i <= m < j && m < |states| :: r in states[m].runs && states[m].runs[r].status.Reconciling?
  }

  /** While a reconciliation lasts, whatever fails in between, the run remembers the status it was in at its start. */
  lemma {:induction false} MemoryLasts(states: seq<Db>, steps: seq<Step>, i: nat, j: nat, r: Id)
    requires History(states, steps) && i < j <= |steps| && r in states[i].runs && !states[i].runs[r].status.Reconciling?
    requires Reconciles(states, i + 1, j + 1, r)
    ensures states[j].runs[r].recovery == Some(states[i].runs[r].status)
    decreases j
  {
    hide Valid, ForeignKeys, Apply;
    HistoryIsValid(states, steps, j - 1);
    StepRemembers(states[j - 1], steps[j - 1]);
    if j > i + 1 { MemoryLasts(states, steps, i, j - 1, r); }
  }

  /** A reconciliation entered in some status ends there again (paused stays paused, anything else is queued), unless
      the run is cancelled, completed, or paused for a wrong model. */
  lemma ReconciliationReturns(states: seq<Db>, steps: seq<Step>, i: nat, j: nat, r: Id)
    requires History(states, steps) && i < j < |steps| && r in states[i].runs && !states[i].runs[r].status.Reconciling?
    requires Reconciles(states, i + 1, j + 1, r)
    requires r in states[j + 1].runs && !states[j + 1].runs[r].status.Reconciling?
    ensures var run := states[j + 1].runs[r];
            || run.status.Cancelled? || run.status.Completed?
            || (run.status.Paused? && run.pauseReason == Some(ModelMismatch))
            || run.status == (if states[i].runs[r].status.Paused? then Paused else Queued)
  {
    hide Valid, ForeignKeys, Apply;
    MemoryLasts(states, steps, i, j, r);
    HistoryIsValid(states, steps, j);
    StepRemembers(states[j], steps[j]);
  }
}
