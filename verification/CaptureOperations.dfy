/** Storing a response keeps the invariant, whichever way it ends. */
module CaptureOperations {
  import opened Text
  import opened Tables
  import opened Scheduler
  import opened Artifacts
  import opened Invariant
  import opened Preservation
  import opened Steps
  import opened LifecycleSteps
  import opened Operations

  // ---------- Artifacts ----------

  lemma WriteTextDocuments(d: Db, lease: Lease, c: Capture, complete: bool, now: Millis, draws: Draws)
    requires Leased(d, lease) && FreshDraws(d, draws)
    ensures Documents(d, WriteText(d, lease, c, complete, now, draws), lease.attempt)
  {
    var e := WriteText(d, lease, c, complete, now, draws);
    assert SetTask(d.runs[lease.run], lease.attempt.task, d.runs[lease.run].tasks[lease.attempt.task]) == d.runs[lease.run];
    assert e.runs[lease.run].tasks[lease.attempt.task].(summary := e.runs[lease.run].tasks[lease.attempt.task].summary)
           == d.runs[lease.run].tasks[lease.attempt.task];
    assert d.runs == d.runs[lease.run := e.runs[lease.run]];
  }

  /** The rows a response leaves behind before its attempt ends. */
  function Written(d: Db, lease: Lease, c: Capture, complete: bool, now: Millis, draws: Draws): Db
    requires Joined(d, lease.attempt) && lease.run == lease.attempt.run
  {
    var text := WriteText(d, lease, c, complete, now, draws);
    if complete then WriteStructured(text, lease, c, now, draws) else text
  }

  lemma WrittenDocuments(d: Db, lease: Lease, c: Capture, complete: bool, now: Millis, draws: Draws)
    requires Leased(d, lease) && Joined(d, lease.attempt) && FreshDraws(d, draws)
    ensures Documents(d, Written(d, lease, c, complete, now, draws), lease.attempt)
  {
    hide RankingFor, RunOk, TaskOk;
    var e := Written(d, lease, c, complete, now, draws);
    WriteTextDocuments(d, lease, c, complete, now, draws);
    if complete && c.summary.Some? {
      var run := d.runs[lease.run];
      var task := run.tasks[lease.attempt.task].(summary := c.summary);
      assert e.runs[lease.run] == SetTask(run, lease.attempt.task, task);
    }
  }

  /** A response that passes its validation leaves the artifact its stage hands on, and a candidate its summary. */
  lemma WrittenHasResult(d: Db, lease: Lease, c: Capture, now: Millis, draws: Draws)
    requires Leased(d, lease) && Joined(d, lease.attempt) && FreshDraws(d, draws)
    requires CaptureError(d.runs[lease.run], lease.stage, c).None?
    ensures var e := Written(d, lease, c, true, now, draws);
            && HasResult(e, lease.attempt)
            && (lease.stage.Explore? ==> e.runs[lease.run].tasks[lease.attempt.task].summary.Some?)
  {
    hide RankingFor, RunOk, TaskOk, Blank, SummaryError;
    var e := Written(d, lease, c, true, now, draws);
    var id := if lease.stage.Compare? then draws.ranking else draws.text;
    assert Matches(e.artifacts[id], lease.run, ResultName(lease.stage, lease.position), Some(lease.attempt), true);
  }

  lemma WrittenKeeps(d: Db, lease: Lease, c: Capture, complete: bool, now: Millis, draws: Draws)
    requires Valid(d) && Owns(d, lease) && FreshDraws(d, draws)
    ensures Good(d, Written(d, lease, c, complete, now, draws))
  {
    hide Valid, Evolves, Written, Leased, Documents;
    OwnedIsLeased(d, lease);
    WrittenDocuments(d, lease, c, complete, now, draws);
    DocumentKeeps(d, Written(d, lease, c, complete, now, draws), lease.attempt);
  }

  /** Writing leaves the lease as it was. */
  lemma WrittenOwns(d: Db, lease: Lease, c: Capture, complete: bool, now: Millis, draws: Draws)
    requires Leased(d, lease) && Owns(d, lease) && FreshDraws(d, draws)
    ensures var e := Written(d, lease, c, complete, now, draws);
            && Owns(e, lease) && e.attempts == d.attempts && e.reservations == d.reservations && e.accounts == d.accounts
            && e.runs[lease.run] == d.runs[lease.run].(tasks := e.runs[lease.run].tasks)
            && e.runs[lease.run].tasks[lease.attempt.task].attempts == d.runs[lease.run].tasks[lease.attempt.task].attempts
  {
    WrittenDocuments(d, lease, c, complete, now, draws);
    hide Written, Leased, ArtifactsGrow;
  }

  lemma WrittenManifest(d: Db, lease: Lease, c: Capture, complete: bool, now: Millis, draws: Draws)
    requires Owns(d, lease) && FreshDraws(d, draws)
    ensures draws.manifest !in Written(d, lease, c, complete, now, draws).artifacts
  {
    hide RankingFor, Blank;
  }

  // ---------- The end of an attempt ----------

  function Ended(d: Db, lease: Lease, c: Capture, now: Millis): (Attempt, TaskStatus, Option<Code>)
    requires Owns(d, lease)
  {
    var run := d.runs[lease.run];
    var error := Verdict(run, lease.stage, c);
    var complete := c.complete && error.None?;
    var state := FinalState(complete, c);
    var retryable := c.complete && c.error.None? && !complete && error != Some(ModelMismatch);
    var status := if retryable && run.tasks[lease.attempt.task].attempts < 2 && !run.status.Cancelled? then Todo else FinalStatus(state);
    (d.attempts[lease.attempt].(state := state, completed := Some(now), error := error, retryable := retryable), status, error)
  }

  predicate IsComplete(d: Db, lease: Lease, c: Capture)
    requires Owns(d, lease)
  {
    c.complete && Verdict(d.runs[lease.run], lease.stage, c).None?
  }

  lemma EndedMayRelease(d: Db, lease: Lease, c: Capture, now: Millis, draws: Draws)
    requires Valid(d) && Owns(d, lease) && FreshDraws(d, draws)
    requires d.attempts[lease.attempt].state.Accepted? || d.attempts[lease.attempt].state.Uncertain?
    ensures var e := Written(d, lease, c, IsComplete(d, lease, c), now, draws);
            var r := Ended(d, lease, c, now);
            MayRelease(e, lease, r.0, r.1) && Valid(e)
  {
    hide Valid, Evolves, Written, RunOk, HasResult, CaptureError;
    var complete := IsComplete(d, lease, c);
    var e := Written(d, lease, c, complete, now, draws);
    OwnedIsLeased(d, lease);
    WrittenKeeps(d, lease, c, complete, now, draws);
    WrittenOwns(d, lease, c, complete, now, draws);
    OwnedIsLeased(e, lease);
    if complete { WrittenHasResult(d, lease, c, now, draws); }
  }

  /** The rows after the attempt has ended, its run has settled, and a wrong model has paused the run. */
  function EndedRows(d: Db, lease: Lease, c: Capture, now: Millis, draws: Draws): Db
    requires Owns(d, lease)
  {
    var r := Ended(d, lease, c, now);
    var e := Written(d, lease, c, IsComplete(d, lease, c), now, draws);
    assert Joined(e, lease.attempt);
    var released := Settle(Release(e, lease, r.0, r.1, r.2), lease.run, now);
    ForceMismatchPause(released, lease.run, d.runs[lease.run].status, r.2)
  }

  lemma MismatchKeeps(d: Db, r: Id, before: RunStatus, error: Option<Code>)
    requires Valid(d) && r in d.runs && (Terminal(before) || !Terminal(d.runs[r].status))
    ensures Good(d, ForceMismatchPause(d, r, before, error))
  {
    hide Valid, Evolves;
    RunIsOk(d, r);
    if error == Some(ModelMismatch) && !Terminal(before) {
      SilentHeader(d, r, d.runs[r].(status := Paused, pauseReason := Some(ModelMismatch)));
    } else {
      Reflexive(d);
    }
  }

  lemma EndedRowsKeep(d: Db, lease: Lease, c: Capture, now: Millis, draws: Draws)
    requires Valid(d) && Owns(d, lease) && FreshDraws(d, draws)
    requires d.attempts[lease.attempt].state.Accepted? || d.attempts[lease.attempt].state.Uncertain?
    ensures Good(d, EndedRows(d, lease, c, now, draws))
  {
    hide Valid, Evolves, Written, MayRelease, Verdict, Leased;
    OwnedIsLeased(d, lease);
    var complete := IsComplete(d, lease, c);
    var e := Written(d, lease, c, complete, now, draws);
    var r := Ended(d, lease, c, now);
    WrittenKeeps(d, lease, c, complete, now, draws);
    WrittenOwns(d, lease, c, complete, now, draws);
    EndedMayRelease(d, lease, c, now, draws);
    EndSettleKeeps(e, lease, r.0, r.1, r.2, now);
    var f := Settle(Release(e, lease, r.0, r.1, r.2), lease.run, now);
    MismatchKeeps(f, lease.run, d.runs[lease.run].status, r.2);
    GoodTrans(d, e, f);
    GoodTrans(d, f, EndedRows(d, lease, c, now, draws));
  }

  // ---------- The rest of the transaction ----------

  lemma ClearRateLimitsKeeps(d: Db, a: Id)
    requires Valid(d)
    ensures Good(d, ClearRateLimits(d, a))
  {
    hide Valid, Evolves;
    Reflexive(d);
    if a in d.accounts && d.accounts[a].readiness.Ready? {
      AccountIsOk(d, a);
      AccountKeeps(d, a, d.accounts[a].(rateLimits := 0));
    }
  }

  /** Everything but the completion of the run. */
  function Logged(d: Db, lease: Lease, c: Capture, now: Millis, draws: Draws): Db
    requires Owns(d, lease)
  {
    var ended := EndedRows(d, lease, c, now, draws);
    var cleared := if IsComplete(d, lease, c) then ClearRateLimits(ended, lease.account) else ended;
    Log(cleared, lease.run, ResponseCaptured(lease.attempt), now)
  }

  lemma LoggedKeeps(d: Db, lease: Lease, c: Capture, now: Millis, draws: Draws)
    requires Valid(d) && Owns(d, lease) && FreshDraws(d, draws)
    requires d.attempts[lease.attempt].state.Accepted? || d.attempts[lease.attempt].state.Uncertain?
    ensures Good(d, Logged(d, lease, c, now, draws))
  {
    hide Valid, Evolves, EndedRows, IsComplete;
    var e := EndedRows(d, lease, c, now, draws);
    EndedRowsKeep(d, lease, c, now, draws);
    ClearRateLimitsKeeps(e, lease.account);
    Reflexive(e);
    var f := if IsComplete(d, lease, c) then ClearRateLimits(e, lease.account) else e;
    SameRun(d, e, lease.run);
    SameRun(e, f, lease.run);
    LogKeeps(f, lease.run, ResponseCaptured(lease.attempt), now);
    GoodTrans(d, e, f);
    GoodTrans(d, f, Log(f, lease.run, ResponseCaptured(lease.attempt), now));
  }

  lemma SameRun(d: Db, e: Db, r: Id)
    requires Evolves(d, e) && r in d.runs
    ensures r in e.runs && RunEvolves(d.runs[r], e.runs[r])
  {
  }

  lemma EndedTask(d: Db, lease: Lease, c: Capture, now: Millis, draws: Draws)
    requires Owns(d, lease) && IsComplete(d, lease, c) && !Terminal(d.runs[lease.run].status) && FreshDraws(d, draws)
    requires Owns(Written(d, lease, c, true, now, draws), lease)
    requires Written(d, lease, c, true, now, draws).runs[lease.run].status == d.runs[lease.run].status
    ensures var e := EndedRows(d, lease, c, now, draws);
            && lease.run in e.runs && !Terminal(e.runs[lease.run].status)
            && lease.attempt.task < |e.runs[lease.run].tasks| && e.runs[lease.run].tasks[lease.attempt.task].status.Done?
            && draws.manifest !in e.artifacts
  {
    WrittenManifest(d, lease, c, true, now, draws);
    hide Written, Verdict;
  }

  /** The revise stage is the last one, so its completion finds the run ready to finish. */
  lemma LoggedMayFinish(d: Db, lease: Lease, c: Capture, now: Millis, draws: Draws)
    requires Valid(d) && Owns(d, lease) && FreshDraws(d, draws) && IsComplete(d, lease, c)
    requires lease.stage.Revise? && !d.runs[lease.run].status.Cancelled?
    requires Valid(Logged(d, lease, c, now, draws)) && lease.run in Logged(d, lease, c, now, draws).runs
    requires RunEvolves(d.runs[lease.run], Logged(d, lease, c, now, draws).runs[lease.run])
    ensures MayFinish(Logged(d, lease, c, now, draws), lease.run, draws)
  {
    hide Valid, Written, EndedRows, IsComplete, TaskOk, TaskEvolves;
    OwnedIsLeased(d, lease);
    WrittenOwns(d, lease, c, true, now, draws);
    EndedTask(d, lease, c, now, draws);
    RunIsOk(d, lease.run);
    RunIsOk(Logged(d, lease, c, now, draws), lease.run);
  }

  lemma StoreFinalIs(d: Db, lease: Lease, c: Capture, now: Millis, draws: Draws)
    requires Owns(d, lease)
    ensures lease.run in Logged(d, lease, c, now, draws).runs
    ensures StoreFinal(d, lease, c, now, draws)
            == if IsComplete(d, lease, c) && lease.stage.Revise? && !d.runs[lease.run].status.Cancelled?
               then Finish(Logged(d, lease, c, now, draws), lease.run, now, draws)
               else Logged(d, lease, c, now, draws)
  {
    hide CaptureError, RankingFor, WriteText;
  }

  lemma StoreFinalKeeps(d: Db, lease: Lease, c: Capture, now: Millis, draws: Draws)
    requires Valid(d) && Owns(d, lease) && FreshDraws(d, draws)
    requires d.attempts[lease.attempt].state.Accepted? || d.attempts[lease.attempt].state.Uncertain?
    ensures Good(d, StoreFinal(d, lease, c, now, draws))
  {
    hide Valid, Evolves, StoreFinal, Logged, Finish, MayFinish, Leased;
    var e := Logged(d, lease, c, now, draws);
    StoreFinalIs(d, lease, c, now, draws);
    LoggedKeeps(d, lease, c, now, draws);
    OwnedIsLeased(d, lease);
    if IsComplete(d, lease, c) && lease.stage.Revise? && !d.runs[lease.run].status.Cancelled? {
      SameRun(d, e, lease.run);
      LoggedMayFinish(d, lease, c, now, draws);
      FinishKeeps(e, lease.run, now, draws);
      GoodTrans(d, e, Finish(e, lease.run, now, draws));
    }
  }

  lemma StorePartialKeeps(d: Db, lease: Lease, c: Capture, now: Millis, draws: Draws)
    requires Valid(d) && Owns(d, lease) && FreshDraws(d, draws)
    requires d.attempts[lease.attempt].state.Accepted? || d.attempts[lease.attempt].state.Uncertain?
    ensures Good(d, StorePartial(d, lease, c, now, draws))
  {
    hide Valid, Evolves, Verdict, RunOk, TaskOk, Suspect;
    OwnedIsLeased(d, lease);
    var error := Verdict(d.runs[lease.run], lease.stage, c);
    var held := d.attempts[lease.attempt].(state := Uncertain, completed := Some(now), error := error, retryable := false);
    var e := Written(d, lease, c, false, now, draws);
    WrittenKeeps(d, lease, c, false, now, draws);
    WrittenOwns(d, lease, c, false, now, draws);
    OwnedIsLeased(e, lease);
    SuspectKeeps(e, lease, held, error);
    var f := Suspect(e, lease, held, error);
    SameRun(e, f, lease.run);
    LogKeeps(f, lease.run, ResponseCaptured(lease.attempt), now);
    GoodTrans(d, e, f);
    GoodTrans(d, f, Log(f, lease.run, ResponseCaptured(lease.attempt), now));
  }

  lemma StoreCaptureKeeps(d: Db, lease: Lease, capture: Capture, now: Millis, release: bool, draws: Draws)
    requires Valid(d)
    ensures Good(d, StoreCapture(d, lease, capture, now, release, draws).db)
  {
    hide Valid, Evolves, StoreFinal, StorePartial, Timed;
    Reflexive(d);
    if StoreCapture(d, lease, capture, now, release, draws).reply.Ok? {
      var c := Timed(d.runs[lease.run], d.attempts[lease.attempt], if release then capture else capture.(complete := false), now);
      if release { StoreFinalKeeps(d, lease, c, now, draws); } else { StorePartialKeeps(d, lease, c, now, draws); }
    }
  }
}
