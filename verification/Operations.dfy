/** Every operation keeps the invariant and only moves rows forward. */
module Operations {
  import opened Text
  import opened Tables
  import opened Ordering
  import opened Scheduler
  import opened Runs
  import opened Accounts
  import opened Invariant
  import opened Preservation
  import opened Steps
  import opened LifecycleSteps

  // ---------- Header changes ----------

  lemma HeaderSame(run: Run)
    requires RunOk(run)
    ensures HeaderStep(run, run)
  {
  }

  lemma OneHeaderNeutral(d: Db, r: Id, s: Run)
    requires RunsOk(d) && AccountsOk(d) && r in d.runs && HeaderStep(d.runs[r], s)
    ensures Neutral(d, SetRun(d, r, s))
  {
    hide RunOk, HeaderStep;
    var e := SetRun(d, r, s);
    forall q | q in d.runs ensures HeaderStep(d.runs[q], e.runs[q]) {
      if q != r { HeaderSame(d.runs[q]); }
    }
    AccountsFrame(d, e);
  }

  lemma SilentHeader(d: Db, r: Id, s: Run)
    requires Valid(d) && r in d.runs && HeaderStep(d.runs[r], s)
    ensures Good(d, SetRun(d, r, s))
  {
    OneHeaderNeutral(d, r, s);
    hide Valid, Evolves;
    NeutralKeeps(d, SetRun(d, r, s));
  }

  lemma LogNeutral(d: Db, r: Id, kind: EventKind, now: Millis)
    requires RunsOk(d) && AccountsOk(d) && r in d.runs && !kind.SubmissionStarted?
    ensures Neutral(d, Log(d, r, kind, now))
  {
    hide RunOk, HeaderStep;
    var e := Log(d, r, kind, now);
    forall q | q in d.runs ensures HeaderStep(d.runs[q], e.runs[q]) {
      HeaderSame(d.runs[q]);
    }
    AccountsFrame(d, e);
  }

  lemma LogKeeps(d: Db, r: Id, kind: EventKind, now: Millis)
    requires Valid(d) && r in d.runs && !kind.SubmissionStarted?
    ensures Good(d, Log(d, r, kind, now))
  {
    LogNeutral(d, r, kind, now);
    hide Valid, Evolves;
    NeutralKeeps(d, Log(d, r, kind, now));
  }

  /** Provider bindings stay unique when an account keeps its own or takes a free one. */
  lemma AccountStep(d: Db, e: Db, a: Id)
    requires AccountsOk(d) && a in e.accounts && e.accounts == d.accounts[a := e.accounts[a]] && AccountOk(e.accounts[a])
    requires (a in d.accounts && e.accounts[a].provider == d.accounts[a].provider)
             || e.accounts[a].provider.None? || !ProviderTaken(d, a, e.accounts[a].provider.value)
    ensures AccountsOk(e)
  {
    forall b, c | b in e.accounts && c in e.accounts && b != c
      ensures e.accounts[b].provider.Some? ==> e.accounts[b].provider != e.accounts[c].provider
    {
      if b != a && c != a {
        assert e.accounts[b] == d.accounts[b] && e.accounts[c] == d.accounts[c];
      }
    }
  }

  /** An account row is rewritten. */
  lemma AccountKeeps(d: Db, a: Id, account: Account)
    requires Valid(d) && a in d.accounts && AccountEvolves(d.accounts[a], account) && AccountOk(account)
    requires account.provider == d.accounts[a].provider || account.provider.None? || !ProviderTaken(d, a, account.provider.value)
    ensures Good(d, SetAccount(d, a, account))
  {
    var e := SetAccount(d, a, account);
    AccountStep(d, e, a);
    AccountNeutral(d, a, account);
    hide Valid, Evolves, Neutral;
    NeutralKeeps(d, e);
  }

  lemma AccountNeutral(d: Db, a: Id, account: Account)
    requires RunsOk(d) && a in d.accounts && AccountEvolves(d.accounts[a], account) && AccountsOk(SetAccount(d, a, account))
    ensures Neutral(d, SetAccount(d, a, account))
  {
    hide RunOk, HeaderStep, AccountsOk;
    forall q | q in d.runs ensures HeaderStep(d.runs[q], d.runs[q]) {
      HeaderSame(d.runs[q]);
    }
  }

  lemma OneHeader(d: Db, r: Id, s: Run, kind: EventKind, now: Millis)
    requires Valid(d) && r in d.runs && HeaderStep(d.runs[r], s) && !kind.SubmissionStarted?
    ensures Good(d, Log(SetRun(d, r, s), r, kind, now))
  {
    hide Valid, Evolves, HeaderStep;
    var e := SetRun(d, r, s);
    SilentHeader(d, r, s);
    LogKeeps(e, r, kind, now);
    GoodTrans(d, e, Log(e, r, kind, now));
  }

  lemma RunIsOk(d: Db, r: Id)
    requires Valid(d) && r in d.runs
    ensures RunOk(d.runs[r]) && d.runs[r].request.account in d.accounts
  {
  }

  lemma AccountIsOk(d: Db, a: Id)
    requires Valid(d) && a in d.accounts
    ensures AccountOk(d.accounts[a])
  {
  }

  lemma PauseKeeps(d: Db, r: Id, reason: Code, now: Millis)
    requires Valid(d) && r in d.runs && !Terminal(d.runs[r].status)
    ensures Good(d, PauseRun(d, r, reason, now))
  {
    hide Valid, Evolves;
    RunIsOk(d, r);
    OneHeader(d, r, d.runs[r].(status := Paused, pauseReason := Some(reason)), RunPaused, now);
  }

  /** Runs that were not terminal are not made terminal. */
  ghost predicate StillOpen(d: Db, e: Db) {
    forall r | r in d.runs && !Terminal(d.runs[r].status) :: r in e.runs && !Terminal(e.runs[r].status)
  }

  lemma {:induction false} PauseAllKeeps(d: Db, ids: seq<Id>, now: Millis)
    requires Valid(d) && forall i | 0 <= i < |ids| :: ids[i] in d.runs && !Terminal(d.runs[ids[i]].status)
    ensures Good(d, PauseAll(d, ids, now)) && StillOpen(d, PauseAll(d, ids, now))
  {
    hide Valid, Evolves;
    if ids == [] {
      Reflexive(d);
    } else {
      var n := |ids| - 1;
      var e := PauseAll(d, ids[..n], now);
      PauseAllKeeps(d, ids[..n], now);
      PauseKeeps(e, ids[n], RunDeadline, now);
      GoodTrans(d, e, PauseAll(d, ids, now));
    }
  }

  lemma Reflexive(d: Db)
    ensures Evolves(d, d)
  {
  }

  // ---------- claim ----------

  lemma PassOverKeeps(d: Db, r: Id, now: Millis)
    requires Valid(d) && r in d.runs && Waiting(d.runs[r].status)
    ensures Good(d, PassOver(d, r, now))
    ensures forall q | q in d.runs && q != r :: PassOver(d, r, now).runs[q] == d.runs[q]
  {
    hide Valid, Evolves;
    var run := d.runs[r];
    if Exhausted(run, now) {
      PauseKeeps(d, r, if now >= run.deadline then RunDeadline else BudgetExhausted, now);
    } else if AccountOpen(d, run.request.account, now) && NextTask(run).None? && Stuck(run) {
      PauseKeeps(d, r, IncompleteResults, now);
    } else {
      Reflexive(d);
    }
  }

  predicate Distinct(ids: seq<Id>) {
    forall i, j | 0 <= i < j < |ids| :: ids[i] != ids[j]
  }

  lemma CandidatesDistinct(d: Db)
    ensures Distinct(Candidates(d))
  {
    var keys := Sorted(CandidateKeys(d));
    forall i, j | 0 <= i < j < |keys| ensures keys[i].id != keys[j].id {
      assert keys[i] in keys && keys[j] in keys && Before(keys[i], keys[j]);
    }
  }

  lemma {:induction false} ClaimFromKeeps(d: Db, ids: seq<Id>, now: Millis, spacing: int, x: Id)
    requires Valid(d) && Distinct(ids) && forall i | 0 <= i < |ids| :: ids[i] in d.runs && Waiting(d.runs[ids[i]].status)
    requires x !in d.reservations && SUBMISSION_SPACING_MS <= spacing <= SUBMISSION_SPACING_MS + MAX_JITTER_MS
    ensures Good(d, ClaimFrom(d, ids, now, spacing, x).db)
    decreases |ids|
  {
    hide Valid, Evolves;
    if ids == [] {
      Reflexive(d);
    } else if Grantable(d, ids[0], now) {
      GrantKeeps(d, ids[0], NextTask(d.runs[ids[0]]).value, now, spacing, x);
    } else {
      var e := PassOver(d, ids[0], now);
      PassOverKeeps(d, ids[0], now);
      forall i | 0 <= i < |ids[1..]| ensures ids[1..][i] in e.runs && Waiting(e.runs[ids[1..][i]].status) {
        assert ids[1..][i] == ids[i + 1] != ids[0];
      }
      ClaimFromKeeps(e, ids[1..], now, spacing, x);
      GoodTrans(d, e, ClaimFrom(d, ids, now, spacing, x).db);
    }
  }

  lemma ClaimKeeps(d: Db, now: Millis, jitter: int, x: Id)
    requires Valid(d)
    ensures Good(d, Claim(d, now, jitter, x).db)
  {
    hide Valid, Evolves, PauseAll, ClaimFrom, ExpiredRuns, Candidates;
    Reflexive(d);
    if 0 <= jitter <= MAX_JITTER_MS && x !in d.reservations {
      var swept := PauseAll(d, ExpiredRuns(d, now), now);
      SweepKeeps(d, now);
      CandidatesDistinct(swept);
      ClaimFromKeeps(swept, Candidates(swept), now, SUBMISSION_SPACING_MS + jitter, x);
      GoodTrans(d, swept, Claim(d, now, jitter, x).db);
    }
  }

  lemma SweepKeeps(d: Db, now: Millis)
    requires Valid(d)
    ensures var e := PauseAll(d, ExpiredRuns(d, now), now); Good(d, e) && e.reservations == d.reservations
  {
    hide Valid, Evolves;
    PauseAllKeeps(d, ExpiredRuns(d, now), now);
    PauseAllReservations(d, ExpiredRuns(d, now), now);
  }

  lemma {:induction false} PauseAllReservations(d: Db, ids: seq<Id>, now: Millis)
    requires forall i | 0 <= i < |ids| :: ids[i] in d.runs
    ensures var e := PauseAll(d, ids, now);
            e == d.(runs := e.runs, events := e.events)
  {
    if ids != [] { PauseAllReservations(d, ids[..|ids| - 1], now); }
  }

  // ---------- begin_submission, accepted ----------

  lemma BeginSubmissionKeeps(d: Db, lease: Lease, now: Millis)
    requires Valid(d)
    ensures Good(d, BeginSubmission(d, lease, now).db)
  {
    hide Valid, Evolves;
    Reflexive(d);
    if BeginSubmission(d, lease, now).reply.Ok? {
      ChargeKeeps(d, lease, now);
    }
  }

  lemma OwnedIsLeased(d: Db, lease: Lease)
    requires Valid(d) && Owns(d, lease)
    ensures Leased(d, lease)
  {
    OwnedRow(d, lease);
  }

  lemma AcceptTouches(d: Db, lease: Lease, turn: Turn, now: Millis)
    requires Leased(d, lease) && Owns(d, lease) && Accept(d, lease, turn, true, now).reply.Ok?
    ensures var e := Accept(d, lease, turn, true, now).db;
            Touches(d, e, lease.attempt) && Live(e.attempts[lease.attempt].state) && e.reservations == d.reservations
  {
    var e := Accept(d, lease, turn, true, now).db;
    assert e.runs[lease.run].tasks == d.runs[lease.run].tasks[lease.attempt.task := d.runs[lease.run].tasks[lease.attempt.task]];
    assert e.runs == d.runs[lease.run := e.runs[lease.run]];
  }

  lemma AcceptKeeps(d: Db, lease: Lease, turn: Turn, valid: bool, now: Millis)
    requires Valid(d)
    ensures Good(d, Accept(d, lease, turn, valid, now).db)
  {
    hide Valid, Evolves;
    Reflexive(d);
    if Accept(d, lease, turn, valid, now).reply.Ok? {
      OwnedIsLeased(d, lease);
      AcceptTouches(d, lease, turn, now);
      KeepKeeps(d, Accept(d, lease, turn, valid, now).db, lease.attempt);
    }
  }

  // ---------- fail_attempt, acknowledge_cancel ----------

  lemma SettleKeeps(d: Db, r: Id, now: Millis)
    requires Valid(d) && r in d.runs
    ensures Good(d, Settle(d, r, now))
  {
    hide Valid, Evolves;
    RunIsOk(d, r);
    if !HoldsReservation(d, r) && d.runs[r].status.Reconciling? {
      OneHeader(d, r, Reconciled(d.runs[r]), ReconciliationFinished, now);
    } else {
      Reflexive(d);
    }
  }

  lemma SuspectTouches(d: Db, lease: Lease, attempt: Attempt, error: Option<Code>)
    requires Leased(d, lease) && InFlight(d.attempts[lease.attempt].state)
    requires attempt.state.Uncertain? && attempt.created == d.attempts[lease.attempt].created
    ensures Joined(d, lease.attempt)
    ensures var e := Suspect(d, lease, attempt, error); Touches(d, e, lease.attempt) && e.attempts[lease.attempt] == attempt
  {
  }

  lemma SuspectKeeps(d: Db, lease: Lease, attempt: Attempt, error: Option<Code>)
    requires Valid(d) && Leased(d, lease) && InFlight(d.attempts[lease.attempt].state)
    requires attempt.state.Uncertain? && attempt.created == d.attempts[lease.attempt].created
    ensures Joined(d, lease.attempt) && Good(d, Suspect(d, lease, attempt, error))
  {
    SuspectTouches(d, lease, attempt, error);
    hide Valid, Evolves, Touches, Leased;
    KeepKeeps(d, Suspect(d, lease, attempt, error), lease.attempt);
  }

  /** The rows an ended attempt may leave: its state explains its task, and a retry is a second attempt. */
  ghost predicate MayRelease(d: Db, lease: Lease, attempt: Attempt, status: TaskStatus) {
    && Leased(d, lease) && !Live(attempt.state) && attempt.created == d.attempts[lease.attempt].created
    && (Charged(attempt.state) ==> Charged(d.attempts[lease.attempt].state))
    && Explains(attempt.state, status) && !status.Excluded?
    && (status.Todo? ==> lease.attempt.number < 2)
    && (status.Done? && lease.stage.Explore? ==> d.runs[lease.run].tasks[lease.attempt.task].summary.Some?)
    && (attempt.state.Stopped? ==> d.runs[lease.run].status.Cancelled?)
    && (attempt.state.Captured? ==> HasResult(d, lease.attempt))
  }

  lemma ReleaseTouches(d: Db, lease: Lease, attempt: Attempt, status: TaskStatus, error: Option<Code>)
    requires MayRelease(d, lease, attempt, status)
    ensures Joined(d, lease.attempt)
    ensures var e := Release(d, lease, attempt, status, error); Touches(d, e, lease.attempt)
  {
    hide HasResult;
  }

  lemma EndKeeps(d: Db, lease: Lease, attempt: Attempt, status: TaskStatus, error: Option<Code>)
    requires Valid(d) && MayRelease(d, lease, attempt, status)
    ensures Joined(d, lease.attempt) && Good(d, Release(d, lease, attempt, status, error))
  {
    ReleaseTouches(d, lease, attempt, status, error);
    hide Valid, Evolves, Touches, HasResult, RunOk;
    ReleaseKeeps(d, Release(d, lease, attempt, status, error), lease.attempt, lease.reservation);
  }

  /** The end of an attempt as both `fail_attempt` and a final capture perform it. */
  lemma EndSettleKeeps(d: Db, lease: Lease, attempt: Attempt, status: TaskStatus, error: Option<Code>, now: Millis)
    requires Valid(d) && MayRelease(d, lease, attempt, status)
    ensures Joined(d, lease.attempt) && Good(d, Settle(Release(d, lease, attempt, status, error), lease.run, now))
  {
    EndKeeps(d, lease, attempt, status, error);
    hide Valid, Evolves, MayRelease;
    var e := Release(d, lease, attempt, status, error);
    SettleKeeps(e, lease.run, now);
    GoodTrans(d, e, Settle(e, lease.run, now));
  }

  lemma FailAttemptKeeps(d: Db, lease: Lease, code: Code, disposition: Disposition, now: Millis)
    requires Valid(d)
    ensures Good(d, FailAttempt(d, lease, code, disposition, now).db)
  {
    hide Valid, Evolves, RunOk, HasResult;
    Reflexive(d);
    if FailAttempt(d, lease, code, disposition, now).reply.Ok? {
      OwnedIsLeased(d, lease);
      var retryable := disposition.DefinitelyNotAccepted? || disposition.CompletedRetryable?;
      var ended := d.attempts[lease.attempt].(error := Some(code), retryable := retryable, completed := Some(now));
      if disposition.Ambiguous? {
        var e := Suspect(d, lease, ended.(state := Uncertain), Some(code));
        SuspectKeeps(d, lease, ended.(state := Uncertain), Some(code));
        LogKeeps(e, lease.run, AttemptFailed(lease.attempt), now);
        GoodTrans(d, e, Log(e, lease.run, AttemptFailed(lease.attempt), now));
      } else {
        var status := if retryable && lease.attempt.number < 2 && !d.runs[lease.run].status.Cancelled? then Todo else Broken;
        EndSettleKeeps(d, lease, ended.(state := Abandoned), status, Some(code), now);
        var e := Settle(Release(d, lease, ended.(state := Abandoned), status, Some(code)), lease.run, now);
        LogKeeps(e, lease.run, AttemptFailed(lease.attempt), now);
        GoodTrans(d, e, Log(e, lease.run, AttemptFailed(lease.attempt), now));
      }
    }
  }

  lemma AcknowledgeCancelKeeps(d: Db, lease: Lease, now: Millis)
    requires Valid(d)
    ensures Good(d, AcknowledgeCancel(d, lease, now).db)
  {
    hide Valid, Evolves, RunOk, HasResult;
    Reflexive(d);
    if AcknowledgeCancel(d, lease, now).reply.Ok? && lease.reservation in d.reservations {
      OwnedIsLeased(d, lease);
      var stopped := d.attempts[lease.attempt].(state := Stopped, completed := Some(now));
      EndKeeps(d, lease, stopped, Broken, Some(RunWasCancelled));
      var e := Release(d, lease, stopped, Broken, Some(RunWasCancelled));
      LogKeeps(e, lease.run, ConversationStopped(lease.attempt), now);
      GoodTrans(d, e, Log(e, lease.run, ConversationStopped(lease.attempt), now));
    }
  }

  // ---------- submit, suspend, resume, cancel ----------

  lemma SubmitKeeps(d: Db, q: Request, model: Option<ModelSelection>, now: Millis, r: Id)
    requires Valid(d)
    ensures Good(d, Submit(d, q, model, now, r).db)
  {
    hide Valid, Evolves, RequestOk;
    Reflexive(d);
    var chosen := ChosenModel(d, q.account, model);
    if RequestOk(q) && !KeyUsed(d, q.key) && chosen.0.Some? && ModelOk(chosen.0.value) && q.account in d.accounts
       && SatAdd(now, RUN_DEADLINE_MS) > now && r !in d.runs {
      CreateKeeps(d, q, chosen.0.value, now, r);
    }
  }

  lemma SuspendKeeps(d: Db, r: Id, reason: Code, now: Millis)
    requires Valid(d)
    ensures Good(d, Suspend(d, r, reason, now).db)
  {
    hide Valid, Evolves;
    Reflexive(d);
    if r in d.runs && !Terminal(d.runs[r].status) { PauseKeeps(d, r, reason, now); }
  }

  lemma ResumeKeeps(d: Db, r: Id, allowIncomplete: bool, now: Millis)
    requires Valid(d)
    ensures Good(d, Resume(d, r, allowIncomplete, now).db)
  {
    hide Valid, Evolves;
    Reflexive(d);
    if MayReopen(d, r, allowIncomplete) { ReopenKeeps(d, r, allowIncomplete, now); }
  }

  lemma CancelKeeps(d: Db, r: Id, now: Millis)
    requires Valid(d)
    ensures Good(d, Cancel(d, r, now).db)
  {
    hide Valid, Evolves;
    Reflexive(d);
    if r in d.runs && !Terminal(d.runs[r].status) {
      RunIsOk(d, r);
      OneHeader(d, r, d.runs[r].(status := Cancelled, pauseReason := None), RunCancelled, now);
    }
  }
}
