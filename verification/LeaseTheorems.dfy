/** A lease reaches only its own attempt, and only until that attempt has ended. */
module LeaseTheorems {
  import opened Text
  import opened Tables
  import opened Scheduler
  import opened Recovery
  import opened Artifacts
  import opened Invariant
  import opened CaptureOperations
  import opened Histories

  // ---------- Isolation ----------

  predicate TasksApart(r: Run, s: Run, i: nat) {
    |s.tasks| == |r.tasks| && forall j | 0 <= j < |r.tasks| && j != i :: s.tasks[j] == r.tasks[j]
  }

  ghost predicate RunsApart(d: Db, e: Db, lease: Lease) {
    && e.runs.Keys == d.runs.Keys
    && (forall r | r in d.runs && r != lease.run :: e.runs[r] == d.runs[r])
    && (lease.run in d.runs ==> TasksApart(d.runs[lease.run], e.runs[lease.run], lease.attempt.task))
  }

  ghost predicate ArtifactsApart(d: Db, e: Db, lease: Lease) {
    && (forall id | id in d.artifacts :: id in e.artifacts && e.artifacts[id] == d.artifacts[id])
    && forall id | id in e.artifacts && id !in d.artifacts ::
         e.artifacts[id].run == lease.run && (e.artifacts[id].attempt == Some(lease.attempt) || e.artifacts[id].attempt.None?)
  }

  /** Every row but those of the lease's own run, task, attempt, reservation and account is left as it was. */
  ghost predicate Isolated(d: Db, e: Db, lease: Lease) {
    && RunsApart(d, e, lease)
    && e.attempts.Keys == d.attempts.Keys && (forall k | k in d.attempts && k != lease.attempt :: e.attempts[k] == d.attempts[k])
    && e.reservations.Keys <= d.reservations.Keys
    && (forall x | x in d.reservations && x != lease.reservation :: x in e.reservations && e.reservations[x] == d.reservations[x])
    && e.accounts.Keys == d.accounts.Keys && (forall a | a in d.accounts && a != lease.account :: e.accounts[a] == d.accounts[a])
    && e.sessions == d.sessions && ArtifactsApart(d, e, lease)
    && d.events <= e.events && (forall i | |d.events| <= i < |e.events| :: e.events[i].run == lease.run)
  }

  lemma IsolatedTrans(d: Db, e: Db, f: Db, lease: Lease)
    requires Isolated(d, e, lease) && Isolated(e, f, lease)
    ensures Isolated(d, f, lease)
  {
  }

  lemma IsolatedSame(d: Db, lease: Lease)
    ensures Isolated(d, d, lease)
  {
  }

  lemma LogIsolated(d: Db, lease: Lease, kind: EventKind, now: Millis)
    ensures Isolated(d, Log(d, lease.run, kind, now), lease)
  {
  }

  lemma HeaderIsolated(d: Db, lease: Lease, s: Run)
    requires lease.run in d.runs && s.tasks == d.runs[lease.run].tasks
    ensures Isolated(d, SetRun(d, lease.run, s), lease)
  {
  }

  lemma SettleIsolated(d: Db, lease: Lease, now: Millis)
    requires lease.run in d.runs
    ensures Isolated(d, Settle(d, lease.run, now), lease)
  {
    hide Isolated, Reconciled;
    IsolatedSame(d, lease);
    var s := Reconciled(d.runs[lease.run]);
    assert s.tasks == d.runs[lease.run].tasks by { SameTasksReconciled(d.runs[lease.run]); }
    HeaderIsolated(d, lease, s);
    LogIsolated(SetRun(d, lease.run, s), lease, ReconciliationFinished, now);
    IsolatedTrans(d, SetRun(d, lease.run, s), Log(SetRun(d, lease.run, s), lease.run, ReconciliationFinished, now), lease);
  }

  lemma SameTasksReconciled(run: Run)
    ensures Reconciled(run).tasks == run.tasks
  {
  }

  lemma ReleaseIsolated(d: Db, lease: Lease, attempt: Attempt, status: TaskStatus, error: Option<Code>)
    requires Joined(d, lease.attempt) && lease.run == lease.attempt.run
    ensures Isolated(d, Release(d, lease, attempt, status, error), lease)
  {
  }

  lemma SuspectIsolated(d: Db, lease: Lease, attempt: Attempt, error: Option<Code>)
    requires Joined(d, lease.attempt) && lease.run == lease.attempt.run
    ensures Isolated(d, Suspect(d, lease, attempt, error), lease)
  {
  }

  lemma AddIsolated(d: Db, lease: Lease, id: Id, a: Artifact)
    requires id !in d.artifacts && a.run == lease.run && (a.attempt == Some(lease.attempt) || a.attempt.None?)
    ensures Isolated(d, AddArtifact(d, id, a), lease)
  {
  }

  lemma TaskIsolated(d: Db, lease: Lease, task: Task)
    requires lease.run in d.runs && lease.attempt.task < |d.runs[lease.run].tasks|
    ensures Isolated(d, SetRun(d, lease.run, SetTask(d.runs[lease.run], lease.attempt.task, task)), lease)
  {
  }

  lemma WriteTextIsolated(d: Db, lease: Lease, c: Capture, complete: bool, now: Millis, draws: Draws)
    requires FreshDraws(d, draws)
    ensures Isolated(d, WriteText(d, lease, c, complete, now, draws), lease)
  {
    hide Isolated, Blank, TextName;
    IsolatedSame(d, lease);
    AddIsolated(d, lease, draws.text,
                Artifact(lease.run, Some(lease.attempt), TextName(lease.stage, lease.position), Markdown(c.markdown), complete, now));
  }

  lemma WriteStructuredIsolated(d: Db, lease: Lease, c: Capture, now: Millis, draws: Draws)
    requires Joined(d, lease.attempt) && lease.run == lease.attempt.run
    requires draws.summary !in d.artifacts && draws.ranking !in d.artifacts && draws.summary != draws.ranking
    ensures Isolated(d, WriteStructured(d, lease, c, now, draws), lease)
  {
    hide Isolated, RankingFor;
    IsolatedSame(d, lease);
    var run := d.runs[lease.run];
    var g := d;
    if c.summary.Some? {
      var file := Artifact(lease.run, Some(lease.attempt), SummaryFile(lease.position), SummaryJson(c.summary.value), true, now);
      var e := AddArtifact(d, draws.summary, file);
      AddIsolated(d, lease, draws.summary, file);
      TaskIsolated(e, lease, run.tasks[lease.attempt.task].(summary := c.summary));
      g := SetRun(e, lease.run, SetTask(run, lease.attempt.task, run.tasks[lease.attempt.task].(summary := c.summary)));
      IsolatedTrans(d, e, g, lease);
    }
    if lease.stage.Compare? && RankingFor(run, c).Some? {
      var file := Artifact(lease.run, Some(lease.attempt), ComparisonFile, RankingJson(RankingFor(run, c).value), true, now);
      AddIsolated(g, lease, draws.ranking, file);
      IsolatedTrans(d, g, AddArtifact(g, draws.ranking, file), lease);
    }
  }

  lemma WrittenIsolated(d: Db, lease: Lease, c: Capture, complete: bool, now: Millis, draws: Draws)
    requires Joined(d, lease.attempt) && lease.run == lease.attempt.run && FreshDraws(d, draws)
    ensures Isolated(d, Written(d, lease, c, complete, now, draws), lease)
  {
    WriteTextIsolated(d, lease, c, complete, now, draws);
    hide Isolated, Blank, WriteStructured;
    var e := WriteText(d, lease, c, complete, now, draws);
    WriteStructuredIsolated(e, lease, c, now, draws);
    IsolatedTrans(d, e, WriteStructured(e, lease, c, now, draws), lease);
  }

  lemma MismatchIsolated(d: Db, lease: Lease, before: RunStatus, error: Option<Code>)
    requires lease.run in d.runs
    ensures Isolated(d, ForceMismatchPause(d, lease.run, before, error), lease)
  {
    hide Isolated;
    IsolatedSame(d, lease);
    HeaderIsolated(d, lease, d.runs[lease.run].(status := Paused, pauseReason := Some(ModelMismatch)));
  }

  lemma ClearIsolated(d: Db, lease: Lease)
    ensures Isolated(d, ClearRateLimits(d, lease.account), lease)
  {
    hide Isolated;
    IsolatedSame(d, lease);
    if lease.account in d.accounts { AccountIsolated(d, lease, d.accounts[lease.account].(rateLimits := 0)); }
  }

  lemma FinishIsolated(d: Db, lease: Lease, now: Millis, draws: Draws)
    requires lease.run in d.runs && draws.manifest !in d.artifacts
    ensures Isolated(d, Finish(d, lease.run, now, draws), lease)
  {
  }

  lemma EndedRowsIsolated(d: Db, lease: Lease, c: Capture, now: Millis, draws: Draws)
    requires Owns(d, lease) && FreshDraws(d, draws)
    ensures Isolated(d, EndedRows(d, lease, c, now, draws), lease)
  {
    hide Isolated, Written, Ended, IsComplete, Release, Settle, ForceMismatchPause;
    var e := Written(d, lease, c, IsComplete(d, lease, c), now, draws);
    var r := Ended(d, lease, c, now);
    WrittenIsolated(d, lease, c, IsComplete(d, lease, c), now, draws);
    WrittenJoined(d, lease, c, IsComplete(d, lease, c), now, draws);
    var f := Release(e, lease, r.0, r.1, r.2);
    ReleaseIsolated(e, lease, r.0, r.1, r.2);
    IsolatedKeepsRun(e, f, lease);
    SettleIsolated(f, lease, now);
    var g := Settle(f, lease.run, now);
    IsolatedKeepsRun(f, g, lease);
    MismatchIsolated(g, lease, d.runs[lease.run].status, r.2);
    IsolatedTrans(d, e, f, lease);
    IsolatedTrans(d, f, g, lease);
    IsolatedTrans(d, g, ForceMismatchPause(g, lease.run, d.runs[lease.run].status, r.2), lease);
  }

  lemma WrittenJoined(d: Db, lease: Lease, c: Capture, complete: bool, now: Millis, draws: Draws)
    requires Joined(d, lease.attempt) && lease.run == lease.attempt.run
    ensures Joined(Written(d, lease, c, complete, now, draws), lease.attempt)
  {
    TextKeepsRows(d, lease, c, complete, now, draws);
    hide RankingFor, WriteText;
  }

  lemma TextKeepsRows(d: Db, lease: Lease, c: Capture, complete: bool, now: Millis, draws: Draws)
    ensures var e := WriteText(d, lease, c, complete, now, draws); e == d.(artifacts := e.artifacts)
  {
    hide Blank, TextName;
  }

  lemma IsolatedKeepsRun(d: Db, e: Db, lease: Lease)
    requires Isolated(d, e, lease) && lease.run in d.runs
    ensures lease.run in e.runs
  {
  }

  lemma StoreFinalIsolated(d: Db, lease: Lease, c: Capture, now: Millis, draws: Draws)
    requires Owns(d, lease) && FreshDraws(d, draws)
    ensures Isolated(d, StoreFinal(d, lease, c, now, draws), lease)
  {
    hide Isolated, EndedRows, IsComplete, ClearRateLimits, Finish, StoreFinal;
    var e := EndedRows(d, lease, c, now, draws);
    EndedRowsIsolated(d, lease, c, now, draws);
    IsolatedSame(e, lease);
    ClearIsolated(e, lease);
    var f := if IsComplete(d, lease, c) then ClearRateLimits(e, lease.account) else e;
    IsolatedTrans(d, e, f, lease);
    LogIsolated(f, lease, ResponseCaptured(lease.attempt), now);
    var g := Log(f, lease.run, ResponseCaptured(lease.attempt), now);
    IsolatedTrans(d, f, g, lease);
    StoreFinalIs(d, lease, c, now, draws);
    IsolatedKeepsRun(d, g, lease);
    LoggedManifest(d, lease, c, now, draws);
    FinishIsolated(g, lease, now, draws);
    IsolatedTrans(d, g, Finish(g, lease.run, now, draws), lease);
  }

  lemma LoggedManifest(d: Db, lease: Lease, c: Capture, now: Millis, draws: Draws)
    requires Owns(d, lease) && FreshDraws(d, draws)
    ensures draws.manifest !in Logged(d, lease, c, now, draws).artifacts
  {
    WrittenManifest(d, lease, c, IsComplete(d, lease, c), now, draws);
    hide Written, IsComplete, Ended;
  }

  lemma StorePartialIsolated(d: Db, lease: Lease, c: Capture, now: Millis, draws: Draws)
    requires Owns(d, lease) && FreshDraws(d, draws)
    ensures Isolated(d, StorePartial(d, lease, c, now, draws), lease)
  {
    hide Isolated, Suspect, Verdict;
    var error := Verdict(d.runs[lease.run], lease.stage, c);
    var held := d.attempts[lease.attempt].(state := Uncertain, completed := Some(now), error := error, retryable := false);
    var e := Written(d, lease, c, false, now, draws);
    WrittenIsolated(d, lease, c, false, now, draws);
    var f := Suspect(e, lease, held, error);
    SuspectIsolated(e, lease, held, error);
    LogIsolated(f, lease, ResponseCaptured(lease.attempt), now);
    IsolatedTrans(d, e, f, lease);
    IsolatedTrans(d, f, StorePartial(d, lease, c, now, draws), lease);
  }

  lemma StoreCaptureIsolated(d: Db, lease: Lease, capture: Capture, now: Millis, release: bool, draws: Draws)
    ensures Isolated(d, StoreCapture(d, lease, capture, now, release, draws).db, lease)
  {
    hide Isolated, StoreFinal, StorePartial, Timed;
    IsolatedSame(d, lease);
    if Owns(d, lease) && FreshDraws(d, draws) {
      var c := Timed(d.runs[lease.run], d.attempts[lease.attempt], if release then capture else capture.(complete := false), now);
      StoreFinalIsolated(d, lease, c, now, draws);
      StorePartialIsolated(d, lease, c, now, draws);
    }
  }

  lemma FailAttemptIsolated(d: Db, lease: Lease, code: Code, disposition: Disposition, now: Millis)
    ensures Isolated(d, FailAttempt(d, lease, code, disposition, now).db, lease)
  {
    hide Isolated, Suspect, Release, Settle;
    IsolatedSame(d, lease);
    if FailAttempt(d, lease, code, disposition, now).reply.Ok? {
      var retryable := disposition.DefinitelyNotAccepted? || disposition.CompletedRetryable?;
      var ended := d.attempts[lease.attempt].(error := Some(code), retryable := retryable, completed := Some(now));
      if disposition.Ambiguous? {
        var e := Suspect(d, lease, ended.(state := Uncertain), Some(code));
        SuspectIsolated(d, lease, ended.(state := Uncertain), Some(code));
        LogIsolated(e, lease, AttemptFailed(lease.attempt), now);
        IsolatedTrans(d, e, Log(e, lease.run, AttemptFailed(lease.attempt), now), lease);
      } else {
        var status := if retryable && lease.attempt.number < 2 && !d.runs[lease.run].status.Cancelled? then Todo else Broken;
        var e := Release(d, lease, ended.(state := Abandoned), status, Some(code));
        ReleaseIsolated(d, lease, ended.(state := Abandoned), status, Some(code));
        IsolatedKeepsRun(d, e, lease);
        SettleIsolated(e, lease, now);
        var f := Settle(e, lease.run, now);
        LogIsolated(f, lease, AttemptFailed(lease.attempt), now);
        IsolatedTrans(d, e, f, lease);
        IsolatedTrans(d, f, Log(f, lease.run, AttemptFailed(lease.attempt), now), lease);
      }
    }
  }

  lemma AcknowledgeCancelIsolated(d: Db, lease: Lease, now: Millis)
    ensures Isolated(d, AcknowledgeCancel(d, lease, now).db, lease)
  {
    hide Isolated, Release;
    IsolatedSame(d, lease);
    var o := AcknowledgeCancel(d, lease, now);
    if o.reply.Ok? && lease.reservation in d.reservations {
      var attempt := d.attempts[lease.attempt];
      var task := d.runs[lease.run].tasks[lease.attempt.task];
      var stopped := if Live(attempt.state) then attempt.(state := Stopped, completed := Some(now)) else attempt;
      var status := if task.status.Active? then Broken else task.status;
      var error := if task.status.Active? then Some(RunWasCancelled) else task.error;
      var e := Release(d, lease, stopped, status, error);
      ReleaseIsolated(d, lease, stopped, status, error);
      LogIsolated(e, lease, ConversationStopped(lease.attempt), now);
      IsolatedTrans(d, e, Log(e, lease.run, ConversationStopped(lease.attempt), now), lease);
    }
  }

  lemma AttemptIsolated(d: Db, lease: Lease, attempt: Attempt)
    requires lease.attempt in d.attempts
    ensures Isolated(d, d.(attempts := d.attempts[lease.attempt := attempt]), lease)
  {
  }

  lemma AccountIsolated(d: Db, lease: Lease, account: Account)
    requires lease.account in d.accounts
    ensures Isolated(d, d.(accounts := d.accounts[lease.account := account]), lease)
  {
  }

  lemma SubmissionIsolated(d: Db, lease: Lease, now: Millis)
    ensures Isolated(d, BeginSubmission(d, lease, now).db, lease)
  {
    hide Isolated;
    IsolatedSame(d, lease);
    if BeginSubmission(d, lease, now).reply.Ok? {
      var f := Charge(d, lease, now);
      var e := d.(attempts := f.attempts);
      AttemptIsolated(d, lease, f.attempts[lease.attempt]);
      AccountIsolated(e, lease, f.accounts[lease.account]);
      IsolatedTrans(d, e, e.(accounts := f.accounts), lease);
      HeaderIsolated(e.(accounts := f.accounts), lease, f.runs[lease.run]);
      IsolatedTrans(d, e.(accounts := f.accounts), f.(events := d.events), lease);
      LogIsolated(f.(events := d.events), lease, SubmissionStarted(lease.attempt), now);
      IsolatedTrans(d, f.(events := d.events), f, lease);
    }
  }

  lemma AcceptIsolated(d: Db, lease: Lease, turn: Turn, valid: bool, now: Millis)
    ensures Isolated(d, Accept(d, lease, turn, valid, now).db, lease)
  {
    hide Isolated;
    IsolatedSame(d, lease);
    var f := Accept(d, lease, turn, valid, now).db;
    if Accept(d, lease, turn, valid, now).reply.Ok? {
      var e := d.(attempts := f.attempts);
      AttemptIsolated(d, lease, f.attempts[lease.attempt]);
      LogIsolated(e, lease, PromptAccepted(lease.attempt), now);
      IsolatedTrans(d, e, f, lease);
    }
  }

  lemma ReattachIsolated(d: Db, lease: Lease, conversation: string, now: Millis)
    ensures Isolated(d, Reattach(d, lease, conversation, now).db, lease)
  {
    hide Isolated;
    IsolatedSame(d, lease);
    LogIsolated(d, lease, ConversationReattached(lease.attempt), now);
  }

  function LeaseOfCommand(c: Command): Option<Lease> {
    match c
    case DoBegin(lease) => Some(lease)
    case DoAccept(lease, _, _) => Some(lease)
    case DoFail(lease, _, _) => Some(lease)
    case DoCapture(lease, _, _, _) => Some(lease)
    case DoAcknowledge(lease) => Some(lease)
    case DoReattach(lease, _) => Some(lease)
    case _ => None
  }

  /** Every operation that takes a lease, forged or genuine, is confined to what the lease names. */
  lemma LeaseOperationsAreIsolated(d: Db, s: Step)
    requires LeaseOfCommand(s.command).Some?
    ensures Isolated(d, Apply(d, s).db, LeaseOfCommand(s.command).value)
  {
    hide Isolated, StoreCapture, FailAttempt, AcknowledgeCancel, BeginSubmission, Accept, Reattach;
    match s.command
    case DoBegin(lease) => SubmissionIsolated(d, lease, s.now);
    case DoAccept(lease, turn, valid) => AcceptIsolated(d, lease, turn, valid, s.now);
    case DoFail(lease, code, disposition) => FailAttemptIsolated(d, lease, code, disposition, s.now);
    case DoCapture(lease, capture, release, draws) => StoreCaptureIsolated(d, lease, capture, s.now, release, draws);
    case DoAcknowledge(lease) => AcknowledgeCancelIsolated(d, lease, s.now);
    case DoReattach(lease, conversation) => ReattachIsolated(d, lease, conversation, s.now);
    case _ =>
  }

  // ---------- Staleness ----------

  /** An ended attempt has no reservation, so no lease on it is ever owned again. */
  lemma EndedIsNotOwned(d: Db, lease: Lease)
    requires Valid(d) && lease.attempt in d.attempts && !Live(d.attempts[lease.attempt].state)
    ensures !Owns(d, lease)
  {
    if lease.reservation in d.reservations {
      assert ReservationOk(d, d.reservations[lease.reservation]);
    }
  }

  lemma UnownedChangesNothing(d: Db, s: Step)
    requires LeaseOfCommand(s.command).Some? && !Owns(d, LeaseOfCommand(s.command).value)
    ensures Apply(d, s).db == d
    ensures Apply(d, s).reply.Refused? || (s.command.DoAcknowledge? && s.command.lease.reservation !in d.reservations)
  {
    hide ForeignKeys;
  }

  /** Once its attempt has ended, a lease changes nothing in any later state, so an attempt is settled at most once. */
  lemma StaleLeaseIsInert(states: seq<Db>, steps: seq<Step>, i: nat, j: nat)
    requires History(states, steps) && i <= j < |steps| && LeaseOfCommand(steps[j].command).Some?
    requires var k := LeaseOfCommand(steps[j].command).value.attempt;
             k in states[i].attempts && !Live(states[i].attempts[k].state)
    ensures states[j + 1] == states[j]
    ensures Apply(states[j], steps[j]).reply.Refused? || steps[j].command.DoAcknowledge?
  {
    var lease := LeaseOfCommand(steps[j].command).value;
    HistoryEvolves(states, steps, i, j);
    HistoryIsValid(states, steps, j);
    assert AttemptEvolves(states[i].attempts[lease.attempt], states[j].attempts[lease.attempt]);
    hide Valid, Evolves, ForeignKeys, Apply;
    EndedIsNotOwned(states[j], lease);
    UnownedChangesNothing(states[j], steps[j]);
  }
}
