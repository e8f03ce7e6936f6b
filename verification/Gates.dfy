/** What only the operator can undo: a cancellation, a pause, a failure that is not retried. */
module Gates {
  import opened Text
  import opened Tables
  import opened Scheduler
  import opened Recovery
  import opened Runs
  import opened Accounts
  import opened Artifacts
  import opened Invariant
  import opened Operations
  import opened RecoveryOperations
  import opened Histories
  import opened Transitions
  import opened Conditions
  import opened RecoveryTheorems
  import opened StepRules
  import opened ClaimEffects
  import opened LeaseEffects
  import opened RunEffects
  import opened AccountEffects
  import opened CaptureEffects
  import opened Outcomes

  /** A claim that returns a lease on the run, or a submission of the run. */
  ghost predicate Works(d: Db, s: Step, r: Id) {
    var reply := Apply(d, s).reply;
    || (s.command.DoClaim? && reply.Claimed? && reply.lease.Some? && reply.lease.value.run == r)
    || (s.command.DoBegin? && reply.Ok? && s.command.lease.run == r)
  }

  /** A claim that returns a lease on this task. */
  ghost predicate Starts(d: Db, s: Step, r: Id, t: nat) {
    var reply := Apply(d, s).reply;
    s.command.DoClaim? && reply.Claimed? && reply.lease.Some? && reply.lease.value.run == r && reply.lease.value.attempt.task == t
  }

  /** The operator resumes the run, and is heard. */
  ghost predicate Resumes(d: Db, s: Step, r: Id) {
    s.command.DoResume? && s.command.r == r && Apply(d, s).reply.Ok?
  }

  // ---------- What a claim does ----------

  lemma ClaimRefused(d: Db, now: Millis, jitter: int, x: Id)
    requires !(0 <= jitter <= 5_000) || x in d.reservations
    ensures Claim(d, now, jitter, x).db == d && Claim(d, now, jitter, x).reply.Refused?
  {
    hide PauseAll, ClaimFrom, ExpiredRuns, Candidates;
  }

  /** Only a run that may work is worked on. */
  lemma WorksOnWaiting(d: Db, s: Step, r: Id)
    requires Valid(d) && Works(d, s, r)
    ensures r in d.runs && MayWork(d.runs[r])
  {
    hide Valid, Claim, BeginSubmission, Granted, AccountFree, CanStart, PauseReason, Owns;
    if s.command.DoClaim? {
      if 0 <= s.command.jitter <= 5_000 && s.command.x !in d.reservations {
        var paused := ClaimEffect(d, s.now, s.command.jitter, s.command.x);
        GrantedIsServable(d, Apply(d, s).db, r, s);
      } else {
        ClaimRefused(d, s.now, s.command.jitter, s.command.x);
      }
    } else {
      BeginEffect(d, s.command.lease, s.now);
    }
  }

  lemma GrantedIsServable(d: Db, e: Db, r: Id, s: Step)
    requires s.command.DoClaim? && Apply(d, s).reply.Claimed? && Apply(d, s).reply.lease.Some? && Apply(d, s).reply.lease.value.run == r
    requires Granted(d, e, Apply(d, s).reply.lease.value, s.now, s.command.jitter, s.command.x)
    ensures r in d.runs && MayWork(d.runs[r]) && CanStart(d.runs[r], Apply(d, s).reply.lease.value.attempt.task)
  {
    hide Apply, AccountFree, CanStart;
  }

  // ---------- A cancellation ----------

  /** After a cancellation answered Ok the run stays cancelled: no claim returns a lease on it, none of its attempts is
      submitted, and it is never completed. */
  lemma CancelIsForGood(states: seq<Db>, steps: seq<Step>, i: nat, j: nat, r: Id)
    requires History(states, steps) && i < j <= |steps| && steps[i].command == DoCancel(r) && Apply(states[i], steps[i]).reply.Ok?
    ensures r in states[j].runs && states[j].runs[r].status.Cancelled?
    ensures j < |steps| ==> !Works(states[j], steps[j], r)
  {
    hide Valid, Works;
    CancelEffect(states[i], r, steps[i].now);
    hide Apply;
    EndedRunsStay(states, steps, i + 1, j, r);
    HistoryIsValid(states, steps, j);
    if j < |steps| && Works(states[j], steps[j], r) { WorksOnWaiting(states[j], steps[j], r); }
  }

  // ---------- What holds until the operator resumes the run ----------

  /** Paused, or in doubt and to be paused again, or at its end. */
  predicate Halted(run: Run) {
    || run.status.Paused? || run.status.Cancelled? || run.status.Completed? || run.status.Failed?
    || (run.status.Reconciling? && run.recovery == Some(Paused))
  }

  /** Neither queued nor running nor settled: it failed, or only part of a text is there. */
  predicate Stopped(t: Task) { t.status.Broken? || t.status.Partial? }

  predicate Holds(run: Run, after: Run) {
    && (Halted(run) ==> Halted(after)) && |after.tasks| == |run.tasks|
    && forall i | 0 <= i < |run.tasks| && Stopped(run.tasks[i]) :: after.tasks[i] == run.tasks[i]
  }

  ghost predicate AllHold(d: Db, e: Db) {
    forall r | r in d.runs :: r in e.runs && Holds(d.runs[r], e.runs[r])
  }

  lemma SameHold(d: Db, e: Db)
    requires e.runs == d.runs
    ensures AllHold(d, e)
  {
  }

  lemma OneHolds(d: Db, e: Db, r: Id)
    requires r in d.runs && r in e.runs && e.runs == d.runs[r := e.runs[r]] && Holds(d.runs[r], e.runs[r])
    ensures AllHold(d, e)
  {
  }

  lemma TaskHolds(run: Run, i: nat, t: Task, after: Run)
    requires i < |run.tasks| && !Stopped(run.tasks[i]) && after.tasks == run.tasks[i := t] && (Halted(run) ==> Halted(after))
    ensures Holds(run, after)
  {
  }

  lemma LedBackHalts(run: Run, last: bool)
    ensures Halted(run) ==> Halted(LedBack(run, last))
    ensures LedBack(run, last).tasks == run.tasks
  {
  }

  lemma DoubtedHalts(run: Run, reason: Option<Code>)
    ensures Halted(run) ==> Halted(Doubted(run, reason))
    ensures Doubted(run, reason).tasks == run.tasks
  {
  }

  lemma ClaimHolds(d: Db, now: Millis, jitter: int, x: Id)
    requires Valid(d)
    ensures AllHold(d, Claim(d, now, jitter, x).db)
  {
    hide Valid, Claim, PauseReason, AccountFree, Pauses, Distinct, CandidatesSettled;
    if 0 <= jitter <= 5_000 && x !in d.reservations {
      var paused := ClaimEffect(d, now, jitter, x);
    } else {
      ClaimRefused(d, now, jitter, x);
      SameHold(d, d);
    }
  }

  lemma BeginHolds(d: Db, lease: Lease, now: Millis)
    requires Valid(d)
    ensures AllHold(d, BeginSubmission(d, lease, now).db)
  {
    hide Valid, Owns, BeginSubmission, AllHold;
    BeginEffect(d, lease, now);
    SameHold(d, d);
    if BeginSubmission(d, lease, now).reply.Ok? { OneHolds(d, BeginSubmission(d, lease, now).db, lease.run); }
  }

  lemma AcknowledgeHolds(d: Db, lease: Lease, now: Millis)
    requires Valid(d)
    ensures AllHold(d, AcknowledgeCancel(d, lease, now).db)
  {
    hide Valid, Owns, AcknowledgeCancel, AllHold;
    AcknowledgeEffect(d, lease, now);
    SameHold(d, d);
    if AcknowledgeCancel(d, lease, now).reply.Ok? && lease.reservation in d.reservations {
      OwnedRows(d, lease);
      OneHolds(d, AcknowledgeCancel(d, lease, now).db, lease.run);
    }
  }

  lemma AcceptHolds(d: Db, lease: Lease, turn: Turn, valid: bool, now: Millis)
    ensures AllHold(d, Accept(d, lease, turn, valid, now).db)
  {
    hide AllHold, Owns;
    SameHold(d, Accept(d, lease, turn, valid, now).db);
  }

  lemma ReattachHolds(d: Db, lease: Lease, conversation: string, now: Millis)
    ensures AllHold(d, Reattach(d, lease, conversation, now).db)
  {
    hide AllHold, Owns;
    SameHold(d, Reattach(d, lease, conversation, now).db);
  }

  lemma LeaseHolds(d: Db, s: Step)
    requires Valid(d) && (s.command.DoBegin? || s.command.DoAccept? || s.command.DoReattach? || s.command.DoAcknowledge?)
    ensures AllHold(d, Apply(d, s).db)
  {
    hide Valid, Owns, BeginSubmission, Accept, AcknowledgeCancel, Reattach, AllHold;
    if s.command.DoBegin? {
      BeginHolds(d, s.command.lease, s.now);
    } else if s.command.DoAcknowledge? {
      AcknowledgeHolds(d, s.command.lease, s.now);
    } else if s.command.DoAccept? {
      AcceptHolds(d, s.command.lease, s.command.turn, s.command.valid, s.now);
    } else {
      ReattachHolds(d, s.command.lease, s.command.conversation, s.now);
    }
  }

  lemma FailHolds(d: Db, lease: Lease, code: Code, disposition: Disposition, now: Millis)
    requires Valid(d)
    ensures AllHold(d, FailAttempt(d, lease, code, disposition, now).db)
  {
    hide Valid, Owns, FailAttempt, AllHold, IsLast, Holds, Halted, LedBack, Doubted;
    var e := FailAttempt(d, lease, code, disposition, now).db;
    FailIsAccepted(d, lease, code, disposition, now);
    SameHold(d, d);
    if FailAttempt(d, lease, code, disposition, now).reply.Ok? {
      OwnedRows(d, lease);
      var run, i := d.runs[lease.run], lease.attempt.task;
      if disposition.Ambiguous? {
        AmbiguousEffect(d, lease, code, now);
        DoubtedHalts(WithTask(run, i, Active, Some(code)), Some(code));
        SameHalted(run, i, WithTask(run, i, Active, Some(code)).tasks[i]);
      } else {
        FailEffect(d, lease, code, disposition, now);
        var again := disposition.DefinitelyNotAccepted? || disposition.CompletedRetryable?;
        var status := if again && run.tasks[i].attempts == 1 && !run.status.Cancelled? then Todo else Broken;
        LedBackHalts(WithTask(run, i, status, Some(code)), IsLast(d, lease));
        SameHalted(run, i, WithTask(run, i, status, Some(code)).tasks[i]);
      }
      TaskHolds(run, i, e.runs[lease.run].tasks[i], e.runs[lease.run]);
      OneHolds(d, e, lease.run);
    }
  }

  lemma SameHalted(run: Run, i: nat, t: Task)
    requires i < |run.tasks|
    ensures Halted(run.(tasks := run.tasks[i := t])) <==> Halted(run)
  {
  }

  lemma CaptureHolds(d: Db, lease: Lease, capture: Capture, now: Millis, release: bool, draws: Draws)
    requires Valid(d)
    ensures AllHold(d, StoreCapture(d, lease, capture, now, release, draws).db)
  {
    hide Valid, Owns, StoreCapture, AllHold, IsLast, Holds, LedBack, Doubted, Objection, Again, EndState, EndTask, Passes, TextStored;
    var o := StoreCapture(d, lease, capture, now, release, draws);
    SameHold(d, d);
    if o.reply.Ok? {
      CaptureOwned(d, lease, capture, now, release, draws);
      OwnedRows(d, lease);
      var run, a, i := d.runs[lease.run], d.attempts[lease.attempt], lease.attempt.task;
      if release {
        CaptureEffect(d, lease, capture, now, draws);
        var t := EndTask(run, run.tasks[i], a, capture, now, Objection(run, lease.stage, a, capture, now));
        LedBackHalts(run.(tasks := run.tasks[i := t]), IsLast(d, lease));
      } else {
        PartialEffect(d, lease, capture, now, draws);
        DoubtedHalts(WithTask(run, i, Active, Objection(run, lease.stage, a, capture.(complete := false), now)),
                     Objection(run, lease.stage, a, capture.(complete := false), now));
      }
      TaskHolds(run, i, o.db.runs[lease.run].tasks[i], o.db.runs[lease.run]);
      OneHolds(d, o.db, lease.run);
    } else {
      CaptureRefused(d, lease, capture, now, release, draws);
    }
  }

  lemma CaptureOwned(d: Db, lease: Lease, capture: Capture, now: Millis, release: bool, draws: Draws)
    requires StoreCapture(d, lease, capture, now, release, draws).reply.Ok?
    ensures Owns(d, lease)
  {
    hide Timed, FreshDraws, StoreFinal, StorePartial, Owns;
  }

  lemma CaptureRefused(d: Db, lease: Lease, capture: Capture, now: Millis, release: bool, draws: Draws)
    requires !StoreCapture(d, lease, capture, now, release, draws).reply.Ok?
    ensures StoreCapture(d, lease, capture, now, release, draws).db == d
  {
    hide Timed, FreshDraws, StoreFinal, StorePartial, Owns;
  }

  lemma RecoverHolds(d: Db, now: Millis)
    requires Valid(d)
    ensures ForeignKeys(d) && AllHold(d, Recover(d, now).db)
  {
    hide Valid, ForeignKeys, Recover, CalmLog, RecoveredAttempt, RecoveryTheorems.InDoubt;
    RecoverIsPointwise(d, now);
    var e := Recover(d, now).db;
    forall r | r in d.runs ensures Holds(d.runs[r], e.runs[r]) {
      forall i | 0 <= i < |d.runs[r].tasks| && Stopped(d.runs[r].tasks[i]) ensures e.runs[r].tasks[i] == d.runs[r].tasks[i] {
        StoppedIsNotPrepared(d, r, i);
      }
    }
  }

  lemma StoppedIsNotPrepared(d: Db, r: Id, i: nat)
    requires Valid(d) && r in d.runs && i < |d.runs[r].tasks| && Stopped(d.runs[r].tasks[i])
    ensures !IsPrepared(d, AttemptId(r, i, d.runs[r].tasks[i].attempts))
  {
    hide RunsOk, ReservationsOk, CapacityOk, AccountsOk, LogOk, PacingOk, BudgetOk, ArtifactsOk;
    var k := AttemptId(r, i, d.runs[r].tasks[i].attempts);
    if k in d.attempts { assert Counted(d, k) && Agrees(d, k); }
  }

  lemma LoginHolds(d: Db, e: Db, a: Id, reason: Code, now: Millis)
    requires LoginLost(d, e, a, reason, now) || LoginBack(d, e, a, now)
    ensures AllHold(d, e)
  {
    hide LoggedFor;
  }

  lemma AccountsHold(d: Db, s: Step)
    requires Valid(d) && OnAccounts(s.command)
    ensures AllHold(d, Apply(d, s).db)
  {
    hide Valid, VerifyAccount, ConfirmAccount, AccountLoginExpired, RateLimited, Register, LoginState, ObserveAccount, AllHold,
      LoginLost, LoginBack, LoggedFor, MayVerify, MayConfirm, Belongs, Unbound, Filled;
    var e := Apply(d, s).db;
    SameHold(d, d);
    if s.command.DoVerify? {
      VerifyEffect(d, s.command.a, s.command.identity, s.now, s.command.operator);
      if e.runs != d.runs { LoginHolds(d, e, s.command.a, IdentityMismatch, s.now); } else { SameHold(d, e); }
    } else if s.command.DoConfirm? {
      ConfirmEffect(d, s.command.a, s.command.identity, s.command.choice, s.now);
      if e.runs != d.runs { LoginHolds(d, e, s.command.a, IdentityMismatch, s.now); } else { SameHold(d, e); }
    } else if s.command.DoExpire? {
      ExpireEffect(d, s.command.a, s.now);
      if e.runs != d.runs { LoginHolds(d, e, s.command.a, AuthenticationExpired, s.now); } else { SameHold(d, e); }
    } else {
      hide Apply;
      QuietAccounts(d, s);
      SameHold(d, e);
    }
  }

  lemma QuietAccounts(d: Db, s: Step)
    requires Valid(d) && (s.command.DoRateLimit? || s.command.DoRegister? || s.command.DoLoginState? || s.command.DoObserve?)
    ensures Apply(d, s).db.runs == d.runs
  {
    hide Valid, RateLimited, Register, LoginState, ObserveAccount, Filled, Belongs, Unbound, EqIgnoreCase, LoggedFor, AtWork;
    if s.command.DoRateLimit? {
      RateLimitEffect(d, s.command.a, s.command.retry, s.now);
    } else if s.command.DoRegister? {
      RegisterEffect(d, s.command.a, s.command.email, s.command.provider, s.command.verified, s.command.capacity, s.command.placed);
    } else if s.command.DoLoginState? {
      LoginStateEffect(d, s.command.a, s.command.state, s.command.error, s.command.expires);
    } else {
      ObserveEffect(d, s.command.a, s.command.observation, s.now);
    }
  }

  lemma SubmitHolds(d: Db, q: Request, model: Option<ModelSelection>, now: Millis, r: Id)
    requires Valid(d)
    ensures AllHold(d, Submit(d, q, model, now, r).db)
  {
    hide Valid, Submit, GoodRequest, IsNewRun;
    SubmitEffect(d, q, model, now, r);
  }

  lemma OneRunHolds(d: Db, s: Step)
    requires Valid(d) && (s.command.DoSuspend? || s.command.DoCancel? || s.command.DoResumeReattached?)
    ensures AllHold(d, Apply(d, s).db)
  {
    hide Valid, AllHold;
    var e := Apply(d, s).db;
    SameHold(d, d);
    if s.command.r in d.runs {
      if e.runs != d.runs {
        LedBackHalts(d.runs[s.command.r], true);
        OneRunChanges(d, s);
        OneHolds(d, e, s.command.r);
      } else {
        SameHold(d, e);
      }
    }
  }

  lemma OneRunChanges(d: Db, s: Step)
    requires Valid(d) && (s.command.DoSuspend? || s.command.DoCancel? || s.command.DoResumeReattached?) && s.command.r in d.runs
    ensures var e := Apply(d, s).db; s.command.r in e.runs && e.runs == d.runs[s.command.r := e.runs[s.command.r]]
    ensures Holds(d.runs[s.command.r], Apply(d, s).db.runs[s.command.r])
  {
    hide Valid, Suspend, Cancel, ResumeReattached;
    var r := s.command.r;
    assert d.runs[r := d.runs[r]] == d.runs;
    LedBackHalts(d.runs[r], true);
    if s.command.DoSuspend? {
      SuspendEffect(d, r, s.command.reason, s.now);
    } else if s.command.DoCancel? {
      CancelEffect(d, r, s.now);
    } else {
      ReattachedEffect(d, r, s.command.attached, s.now);
    }
  }

  /** Unless the operator resumes it, a halted run stays halted and a stopped task stays as it is. */
  lemma StepHolds(d: Db, s: Step, r: Id)
    requires Valid(d) && r in d.runs && !Resumes(d, s, r)
    ensures r in Apply(d, s).db.runs && Holds(d.runs[r], Apply(d, s).db.runs[r])
  {
    hide Valid, Holds, Claim, Recover, FailAttempt, StoreCapture, Submit, Resume, OnAccounts, ForeignKeys;
    ValidForeignKeys(d);
    if s.command.DoClaim? {
      ClaimHolds(d, s.now, s.command.jitter, s.command.x);
    } else if s.command.DoRecover? {
      RecoverHolds(d, s.now);
    } else if s.command.DoFail? {
      FailHolds(d, s.command.lease, s.command.code, s.command.disposition, s.now);
    } else if s.command.DoCapture? {
      CaptureHolds(d, s.command.lease, s.command.capture, s.now, s.command.release, s.command.draws);
    } else if s.command.DoSubmit? {
      SubmitHolds(d, s.command.q, s.command.model, s.now, s.command.r);
    } else if s.command.DoResume? {
      ResumeHolds(d, s, r);
    } else {
      hide Apply;
      OtherSteps(d, s);
    }
  }

  lemma OtherSteps(d: Db, s: Step)
    requires Valid(d) && !s.command.DoClaim? && !s.command.DoRecover? && !s.command.DoFail? && !s.command.DoCapture?
    requires !s.command.DoSubmit? && !s.command.DoResume?
    ensures AllHold(d, Apply(d, s).db)
  {
    hide Valid, Apply, AllHold;
    if OnAccounts(s.command) {
      AccountsHold(d, s);
    } else if s.command.DoSuspend? || s.command.DoCancel? || s.command.DoResumeReattached? {
      OneRunHolds(d, s);
    } else {
      LeaseHolds(d, s);
    }
  }

  lemma ResumeHolds(d: Db, s: Step, r: Id)
    requires Valid(d) && r in d.runs && s.command.DoResume? && !Resumes(d, s, r)
    ensures r in Apply(d, s).db.runs && Holds(d.runs[r], Apply(d, s).db.runs[r])
  {
    hide Valid, Resume, Halted;
    var q := s.command.r;
    ResumeIsAccepted(d, q, s.command.allowIncomplete, s.now);
    if q in d.runs && d.runs[q].status.Paused? && Resume(d, q, s.command.allowIncomplete, s.now).reply.Ok? {
      ResumeEffect(d, q, s.command.allowIncomplete, s.now);
    }
  }

  // ---------- Histories ----------

  /** A run that is halted works again only after the operator has resumed it. */
  lemma {:induction false} HaltedUntilResumed(states: seq<Db>, steps: seq<Step>, i: nat, j: nat, r: Id) returns (m: nat)
    requires History(states, steps) && i <= j < |steps| && r in states[i].runs && Halted(states[i].runs[r])
    requires Works(states[j], steps[j], r)
    ensures i <= m < j && Resumes(states[m], steps[m], r)
    decreases j - i
  {
    hide Valid, Apply, Works, Resumes;
    HistoryIsValid(states, steps, i);
    if i == j { WorksOnWaiting(states[j], steps[j], r); }
    if Resumes(states[i], steps[i], r) {
      m := i;
    } else {
      StepHolds(states[i], steps[i], r);
      m := HaltedUntilResumed(states, steps, i + 1, j, r);
    }
  }

  /** A pause answered Ok holds until the operator resumes the run. */
  lemma PauseIsAGate(states: seq<Db>, steps: seq<Step>, i: nat, j: nat, r: Id) returns (m: nat)
    requires History(states, steps) && i < j < |steps| && steps[i].command.DoSuspend? && steps[i].command.r == r
    requires Apply(states[i], steps[i]).reply.Ok? && Works(states[j], steps[j], r)
    ensures i < m < j && Resumes(states[m], steps[m], r)
  {
    hide Valid, Works, Resumes;
    SuspendEffect(states[i], r, steps[i].command.reason, steps[i].now);
    hide Apply;
    m := HaltedUntilResumed(states, steps, i + 1, j, r);
  }

  lemma StartsTodo(d: Db, s: Step, r: Id, t: nat)
    requires Valid(d) && Starts(d, s, r, t)
    ensures r in d.runs && t < |d.runs[r].tasks| && d.runs[r].tasks[t].status.Todo?
  {
    hide Valid, Claim, Granted, AccountFree, CandidatesSettled, PauseReason;
    if 0 <= s.command.jitter <= 5_000 && s.command.x !in d.reservations {
      var paused := ClaimEffect(d, s.now, s.command.jitter, s.command.x);
      GrantedIsServable(d, Apply(d, s).db, r, s);
    } else {
      ClaimRefused(d, s.now, s.command.jitter, s.command.x);
    }
  }

  /** A task that failed or is only partial is started again only after the operator has resumed its run. */
  lemma {:induction false} StoppedUntilResumed(states: seq<Db>, steps: seq<Step>, i: nat, j: nat, r: Id, t: nat) returns (m: nat)
    requires History(states, steps) && i <= j < |steps| && r in states[i].runs && t < |states[i].runs[r].tasks|
    requires Stopped(states[i].runs[r].tasks[t]) && Starts(states[j], steps[j], r, t)
    ensures i <= m < j && Resumes(states[m], steps[m], r)
    decreases j - i
  {
    hide Valid, Apply, Starts, Resumes, Halted;
    HistoryIsValid(states, steps, i);
    if i == j { StartsTodo(states[j], steps[j], r, t); }
    if Resumes(states[i], steps[i], r) {
      m := i;
    } else {
      StepHolds(states[i], steps[i], r);
      m := StoppedUntilResumed(states, steps, i + 1, j, r, t);
    }
  }

  /** A failure that is final, or a second one, is not retried until the operator resumes the run. */
  lemma FailureIsAGate(states: seq<Db>, steps: seq<Step>, i: nat, j: nat) returns (m: nat)
    requires History(states, steps) && i < j < |steps| && steps[i].command.DoFail? && Apply(states[i], steps[i]).reply.Ok?
    requires steps[i].command.disposition.Fatal? || (!steps[i].command.disposition.Ambiguous? && steps[i].command.lease.attempt.number >= 2)
    requires Starts(states[j], steps[j], steps[i].command.lease.run, steps[i].command.lease.attempt.task)
    ensures i < m < j && Resumes(states[m], steps[m], steps[i].command.lease.run)
  {
    hide Valid, Starts, Resumes, FailAttempt, Owns, IsLast;
    var c := steps[i].command;
    HistoryIsValid(states, steps, i);
    FailIsAccepted(states[i], c.lease, c.code, c.disposition, steps[i].now);
    OwnedRows(states[i], c.lease);
    FailEffect(states[i], c.lease, c.code, c.disposition, steps[i].now);
    assert Stopped(states[i + 1].runs[c.lease.run].tasks[c.lease.attempt.task]);
    hide Apply;
    m := StoppedUntilResumed(states, steps, i + 1, j, c.lease.run, c.lease.attempt.task);
  }

  // ---------- What is handed to the operator ----------

  lemma PausedIsLogged(d: Db, e: Db, paused: seq<Id>, r: Id, now: Millis)
    requires e.events == d.events + Pauses(paused, now) && r in paused
    ensures Event(r, RunPaused, now) in e.events[|d.events|..]
  {
    var i :| 0 <= i < |paused| && paused[i] == r;
    assert e.events[|d.events|..][i] == Event(r, RunPaused, now);
  }

  /** Paused because its results are incomplete, and told so. */
  ghost predicate PausedIncomplete(d: Db, e: Db, r: Id, now: Millis) {
    && r in d.runs && r in e.runs && e.runs[r] == d.runs[r].(status := Paused, pauseReason := Some(IncompleteResults))
    && d.events <= e.events && Event(r, RunPaused, now) in e.events[|d.events|..]
  }

  /** Every stopped task that has attempts left is queued. */
  ghost predicate RetriesStopped(d: Db, f: Db, r: Id) {
    && r in d.runs && r in f.runs && |f.runs[r].tasks| == |d.runs[r].tasks|
    && forall i | 0 <= i < |d.runs[r].tasks| && Stopped(d.runs[r].tasks[i]) && d.runs[r].tasks[i].attempts < 28 :: f.runs[r].tasks[i].status.Todo?
  }

  /** Queued or running, in time and in budget, its account free, but nothing to start and nothing running. */
  ghost predicate Stuck(d: Db, r: Id, now: Millis) {
    && r in d.runs && MayWork(d.runs[r]) && now < d.runs[r].deadline && d.runs[r].submissions < d.runs[r].limit
    && AccountFree(d, d.runs[r].request.account, now) && CannotGoOn(d.runs[r])
  }

  /** A run that cannot go on by itself is paused by the next claim that has nothing to grant. */
  lemma StuckIsPaused(d: Db, now: Millis, jitter: int, x: Id, r: Id)
    requires Valid(d) && Stuck(d, r, now) && Claim(d, now, jitter, x).reply == Claimed(None)
    ensures PausedIncomplete(d, Claim(d, now, jitter, x).db, r, now)
  {
    hide Valid, Claim, AccountFree, CannotGoOn, Pauses, Distinct, Granted, Servable;
    if !(0 <= jitter <= 5_000) || x in d.reservations {
      ClaimRefused(d, now, jitter, x);
    } else {
      var paused := ClaimEffect(d, now, jitter, x);
      PausedIsLogged(d, Claim(d, now, jitter, x).db, paused, r, now);
    }
  }

  /** The operator may then resume it before its deadline, which queues every stopped task that has attempts left. */
  lemma PausedIsResumed(d: Db, e: Db, r: Id, now: Millis, later: Millis)
    requires Valid(e) && PausedIncomplete(d, e, r, now) && later < d.runs[r].deadline && d.runs[r].submissions < d.runs[r].limit
    ensures Resume(e, r, false, later).reply.Ok? && RetriesStopped(d, Resume(e, r, false, later).db, r)
  {
    hide Valid, Resume;
    ResumeIsAccepted(e, r, false, later);
    ResumeEffect(e, r, false, later);
  }

  /** Whole, in time and not empty, but from another model than the run asked for. */
  predicate FromOtherModel(run: Run, attempt: Attempt, c: Capture, now: Millis) {
    c.complete && c.error.None? && InTime(run, attempt, now) && Filled(c.markdown) && run.model.Specific? && c.model != run.model.name
  }

  ghost predicate KeptAsPartial(e: Db, k: AttemptId) {
    && k in e.attempts && e.attempts[k].state.CapturedPartly? && k.run in e.runs
    && e.runs[k.run].status.Paused? && e.runs[k.run].pauseReason == Some(ModelMismatch)
    && k.task < |e.runs[k.run].tasks| && e.runs[k.run].tasks[k.task].status.Partial?
  }

  /** An otherwise good answer from another model than the run asked for is kept as partial, and the run is paused. */
  lemma OtherModelPauses(d: Db, lease: Lease, capture: Capture, now: Millis, draws: Draws)
    requires Valid(d) && lease.run in d.runs && lease.attempt in d.attempts && !d.runs[lease.run].status.Cancelled?
    requires FromOtherModel(d.runs[lease.run], d.attempts[lease.attempt], capture, now)
    requires StoreCapture(d, lease, capture, now, true, draws).reply.Ok?
    ensures KeptAsPartial(StoreCapture(d, lease, capture, now, true, draws).db, lease.attempt)
  {
    hide Valid, StoreCapture, IsLast, RanksCandidates, SummaryWritten, Filled, Passes, Owns, LedBack;
    CaptureOwned(d, lease, capture, now, true, draws);
    OwnedRows(d, lease);
    NotFailed(d, lease.run);
    CaptureEffect(d, lease, capture, now, draws);
    var run, i := d.runs[lease.run], lease.attempt.task;
    LedBackHalts(run.(tasks := run.tasks[i := EndTask(run, run.tasks[i], d.attempts[lease.attempt], capture, now, Some(ModelMismatch))]),
                 IsLast(d, lease));
  }

  lemma NotFailed(d: Db, r: Id)
    requires Valid(d) && r in d.runs
    ensures !d.runs[r].status.Failed?
  {
    hide Valid;
    RunIsOk(d, r);
  }
}
