/** Which text a later stage reads: the complete one, or one preserved when the conversation was interrupted. */
module Texts {
  import opened Text
  import opened Tables
  import opened Ordering
  import opened Scheduler
  import opened Runs
  import opened Recovery
  import opened Artifacts
  import opened Invariant
  import opened Operations
  import opened CaptureOperations
  import opened RecoveryOperations
  import opened Histories
  import opened Transitions
  import opened RecoveryTheorems
  import opened LeaseTheorems
  import opened StepRules
  import opened Handoffs

  // ---------- What a capture stores ----------

  /** One row stored by a capture: its text, or the structured results of a complete response, or the manifest. */
  predicate StoredBy(lease: Lease, complete: bool, now: Millis, draws: Draws, id: Id, a: Artifact) {
    && a.run == lease.run && a.created == now
    && (a.attempt.None? ||
        (&& a.attempt == Some(lease.attempt) && a.complete == complete
         && if id == draws.text then a.name == TextName(lease.stage, lease.position)
            else complete && (a.name.SummaryFile? || a.name.ComparisonFile?)))
  }

  ghost predicate NewAreStored(d: Db, e: Db, lease: Lease, complete: bool, now: Millis, draws: Draws) {
    forall id | id in e.artifacts && id !in d.artifacts :: StoredBy(lease, complete, now, draws, id, e.artifacts[id])
  }

  lemma WrittenAreStored(d: Db, lease: Lease, c: Capture, complete: bool, now: Millis, draws: Draws)
    requires Owns(d, lease) && FreshDraws(d, draws)
    ensures NewAreStored(d, Written(d, lease, c, complete, now, draws), lease, complete, now, draws)
  {
    TextIsStored(d, lease, c, complete, now, draws);
    WrittenJoined(d, lease, c, false, now, draws);
    hide WriteText, WriteStructured, StoredBy;
    if complete { StructuredIsStored(WriteText(d, lease, c, true, now, draws), lease, c, now, draws); }
  }

  lemma StructuredIsStored(d: Db, lease: Lease, c: Capture, now: Millis, draws: Draws)
    requires lease.run in d.runs && lease.attempt.task < |d.runs[lease.run].tasks|
    requires draws.summary !in d.artifacts && draws.ranking !in d.artifacts
    requires draws.text != draws.summary && draws.text != draws.ranking && draws.summary != draws.ranking
    ensures var e := WriteStructured(d, lease, c, now, draws);
            && NewAreStored(d, e, lease, true, now, draws)
            && forall id | id in d.artifacts :: id in e.artifacts && e.artifacts[id] == d.artifacts[id]
  {
    hide RankingFor;
  }

  lemma TextIsStored(d: Db, lease: Lease, c: Capture, complete: bool, now: Millis, draws: Draws)
    ensures var e := WriteText(d, lease, c, complete, now, draws);
            && NewAreStored(d, e, lease, complete, now, draws) && e.runs == d.runs
            && forall id | id in e.artifacts :: id in d.artifacts || id == draws.text
  {
    hide Blank, TextName;
  }

  lemma LoggedAreStored(d: Db, lease: Lease, c: Capture, now: Millis, draws: Draws)
    requires Owns(d, lease) && FreshDraws(d, draws)
    ensures NewAreStored(d, Logged(d, lease, c, now, draws), lease, IsComplete(d, lease, c), now, draws)
  {
    hide Written, IsComplete, Ended, Settle, Release, ForceMismatchPause, StoredBy;
    WrittenAreStored(d, lease, c, IsComplete(d, lease, c), now, draws);
    EndedArtifacts(d, lease, c, now, draws);
  }

  lemma FinishStores(d: Db, e: Db, lease: Lease, complete: bool, now: Millis, draws: Draws)
    requires NewAreStored(d, e, lease, complete, now, draws) && lease.run in e.runs
    ensures NewAreStored(d, Finish(e, lease.run, now, draws), lease, complete, now, draws)
  {
  }

  /** The capture whose validation the response passes. */
  ghost predicate Completes(d: Db, lease: Lease, capture: Capture, now: Millis, draws: Draws) {
    && StoreCapture(d, lease, capture, now, true, draws).reply.Ok? && Owns(d, lease)
    && IsComplete(d, lease, Timed(d.runs[lease.run], d.attempts[lease.attempt], capture, now))
  }

  lemma EndedState(d: Db, lease: Lease, c: Capture, now: Millis, draws: Draws)
    requires Owns(d, lease)
    ensures var e := Logged(d, lease, c, now, draws);
            && lease.attempt in e.attempts && !Live(e.attempts[lease.attempt].state)
            && (e.attempts[lease.attempt].state.Captured? <==> IsComplete(d, lease, c))
  {
    hide Written, Verdict, Reconciled, Blank;
  }

  /** A capture ends its attempt, which is then captured exactly when the response passed its validation. */
  lemma FinalStores(d: Db, lease: Lease, capture: Capture, now: Millis, draws: Draws)
    requires StoreCapture(d, lease, capture, now, true, draws).reply.Ok?
    ensures var e := StoreCapture(d, lease, capture, now, true, draws).db;
            && NewAreStored(d, e, lease, Completes(d, lease, capture, now, draws), now, draws)
            && lease.attempt in e.attempts && !Live(e.attempts[lease.attempt].state)
            && (e.attempts[lease.attempt].state.Captured? <==> Completes(d, lease, capture, now, draws))
  {
    hide Timed, FreshDraws, SameTurn, StoreFinal, Logged, IsComplete, Finish, NewAreStored;
    CaptureIsFinal(d, lease, capture, now, draws);
    var c := Timed(d.runs[lease.run], d.attempts[lease.attempt], capture, now);
    StoreFinalIs(d, lease, c, now, draws);
    LoggedAreStored(d, lease, c, now, draws);
    EndedState(d, lease, c, now, draws);
    var e := Logged(d, lease, c, now, draws);
    FinishStores(d, e, lease, IsComplete(d, lease, c), now, draws);
    FinishAttempts(e, lease.run, now, draws);
  }

  lemma FinishAttempts(e: Db, r: Id, now: Millis, draws: Draws)
    requires r in e.runs
    ensures Finish(e, r, now, draws).attempts == e.attempts
  {
  }

  lemma CaptureIsFinal(d: Db, lease: Lease, capture: Capture, now: Millis, draws: Draws)
    requires StoreCapture(d, lease, capture, now, true, draws).reply.Ok?
    ensures Owns(d, lease) && FreshDraws(d, draws)
    ensures StoreCapture(d, lease, capture, now, true, draws).db
            == StoreFinal(d, lease, Timed(d.runs[lease.run], d.attempts[lease.attempt], capture, now), now, draws)
  {
    hide Timed, FreshDraws, SameTurn, StoreFinal;
  }

  /** The complete text is stored under the identifier drawn for it. */
  lemma CompleteTextIsStored(d: Db, lease: Lease, capture: Capture, now: Millis, draws: Draws)
    requires Completes(d, lease, capture, now, draws) && !lease.stage.Revise?
    ensures var e := StoreCapture(d, lease, capture, now, true, draws).db;
            && draws.text !in d.artifacts && draws.text in e.artifacts
            && e.artifacts[draws.text]
               == Artifact(lease.run, Some(lease.attempt), TextName(lease.stage, lease.position), Markdown(capture.markdown), true, now)
  {
    hide SameTurn, StoreFinal, Logged, IsComplete;
    CaptureIsFinal(d, lease, capture, now, draws);
    var c := Timed(d.runs[lease.run], d.attempts[lease.attempt], capture, now);
    StoreFinalIs(d, lease, c, now, draws);
    CompleteIsFilled(d, lease, c);
    WrittenText(d, lease, c, now, draws);
    EndedArtifacts(d, lease, c, now, draws);
    LoggedKeepsWritten(d, lease, c, now, draws);
  }

  lemma LoggedKeepsWritten(d: Db, lease: Lease, c: Capture, now: Millis, draws: Draws)
    requires Owns(d, lease) && IsComplete(d, lease, c)
    ensures Logged(d, lease, c, now, draws).artifacts == Written(d, lease, c, true, now, draws).artifacts
  {
    hide Written, IsComplete, Ended, Settle, Release, ForceMismatchPause;
    EndedArtifacts(d, lease, c, now, draws);
  }

  lemma CompleteIsFilled(d: Db, lease: Lease, c: Capture)
    requires Owns(d, lease) && IsComplete(d, lease, c)
    ensures !Blank(c.markdown)
  {
  }

  lemma WrittenText(d: Db, lease: Lease, c: Capture, now: Millis, draws: Draws)
    requires Owns(d, lease) && FreshDraws(d, draws) && !Blank(c.markdown)
    ensures var e := Written(d, lease, c, true, now, draws);
            && draws.text in e.artifacts
            && e.artifacts[draws.text]
               == Artifact(lease.run, Some(lease.attempt), TextName(lease.stage, lease.position), Markdown(c.markdown), true, now)
  {
    hide RankingFor, Blank;
  }

  // ---------- Preserved text ----------

  /** An accepted `preserve_partial` with text, for this attempt. */
  ghost predicate Preserves(d: Db, s: Step, k: AttemptId) {
    && s.command.DoCapture? && !s.command.release && s.command.lease.attempt == k
    && Apply(d, s).reply.Ok? && !Blank(s.command.capture.markdown)
  }

  lemma BlankStoresNothing(d: Db, lease: Lease, capture: Capture, now: Millis, draws: Draws)
    requires StoreCapture(d, lease, capture, now, false, draws).reply.Ok? && Blank(capture.markdown)
    ensures StoreCapture(d, lease, capture, now, false, draws).db.artifacts == d.artifacts
  {
    hide Verdict, Blank, TextName, FreshDraws, SameTurn, Unresolved;
  }

  lemma PartialStores(d: Db, lease: Lease, capture: Capture, now: Millis, draws: Draws)
    requires StoreCapture(d, lease, capture, now, false, draws).reply.Ok?
    ensures NewAreStored(d, StoreCapture(d, lease, capture, now, false, draws).db, lease, false, now, draws)
    ensures forall id | id in StoreCapture(d, lease, capture, now, false, draws).db.artifacts && id !in d.artifacts ::
              id == draws.text && !Blank(capture.markdown)
  {
    hide StoreCapture, Blank, TextName;
    if Blank(capture.markdown) {
      BlankStoresNothing(d, lease, capture, now, draws);
    } else {
      PartialArtifacts(d, lease, capture, now, draws);
    }
  }

  // ---------- Which transactions store ----------

  lemma ClaimStoresNothing(d: Db, now: Millis, jitter: int, x: Id)
    ensures Claim(d, now, jitter, x).db.artifacts == d.artifacts
  {
    hide PauseAll, ClaimFrom, NextTask, ExpiredRuns, Candidates, Sweep, Exhausted;
    if 0 <= jitter <= MAX_JITTER_MS && x !in d.reservations {
      var n, m := ClaimShape(d, now, jitter, x);
      SweepKeepsAccounts(d, m);
    }
  }

  lemma AccountsStoreNothing(d: Db, s: Step)
    requires OnAccounts(s.command)
    ensures Apply(d, s).db.artifacts == d.artifacts
  {
    hide Apply, Sweep, CalmLog, Relabelled;
    AccountCommandsSweep(d, s);
    var e := Apply(d, s).db;
    SweepKeepsAccounts(d.(accounts := e.accounts, sessions := e.sessions), e);
  }

  lemma RecoverStoresNothing(d: Db, now: Millis)
    requires Valid(d)
    ensures ForeignKeys(d) && Recover(d, now).db.artifacts == d.artifacts
  {
    hide Valid, ForeignKeys, Recover, RunRecovered, CalmLog, RecoveredAttempt;
    RecoverIsPointwise(d, now);
  }

  lemma FailStoresNothing(d: Db, lease: Lease, code: Code, disposition: Disposition, now: Millis)
    ensures FailAttempt(d, lease, code, disposition, now).db.artifacts == d.artifacts
  {
    hide Live, Unresolved, Reconciled;
  }

  lemma LeaseStoresNothing(d: Db, s: Step)
    requires LeaseOfCommand(s.command).Some? && !s.command.DoCapture?
    ensures Apply(d, s).db.artifacts == d.artifacts
  {
    hide FailAttempt, Live, Owns, Exhausted;
    if s.command.DoFail? { FailStoresNothing(d, s.command.lease, s.command.code, s.command.disposition, s.now); }
  }

  lemma RunsStoreNothing(d: Db, s: Step)
    requires s.command.DoSubmit? || s.command.DoSuspend? || s.command.DoResume? || s.command.DoCancel? || s.command.DoResumeReattached?
    ensures Apply(d, s).db.artifacts == d.artifacts
  {
    hide RequestOk, ModelOk, ChosenModel, NewRun, SubsetAvailable, ExcludeOpen, Requeue, ReattachedNow;
  }

  lemma OnlyCapturesStore(d: Db, s: Step)
    requires Valid(d) && !s.command.DoCapture?
    ensures Apply(d, s).db.artifacts == d.artifacts
  {
    hide Valid, ForeignKeys, Claim, Recover;
    ValidForeignKeys(d);
    if s.command.DoClaim? {
      ClaimStoresNothing(d, s.now, s.command.jitter, s.command.x);
    } else if s.command.DoRecover? {
      RecoverStoresNothing(d, s.now);
    } else {
      hide Apply;
      if OnAccounts(s.command) {
        AccountsStoreNothing(d, s);
      } else if LeaseOfCommand(s.command).Some? {
        LeaseStoresNothing(d, s);
      } else {
        RunsStoreNothing(d, s);
      }
    }
  }

  // ---------- What holds of stored text ----------

  /** An artifact of an attempt is complete only if the attempt was captured, and is otherwise a text of its stage. */
  predicate StoredOk(d: Db, a: Artifact) {
    a.attempt.Some? ==>
      var k := a.attempt.value;
      && k in d.attempts && a.run == k.run && k.run in d.runs && k.task < |d.runs[k.run].tasks|
      && (a.complete ==> d.attempts[k].state.Captured?) && (a.name.ComparisonFile? ==> a.complete)
      && (!a.complete ==> a.name == TextName(d.runs[k.run].tasks[k.task].stage, d.runs[k.run].tasks[k.task].position))
  }

  ghost predicate TextsOk(d: Db) {
    forall id | id in d.artifacts :: StoredOk(d, d.artifacts[id])
  }

  lemma StoredStays(d: Db, e: Db, a: Artifact)
    requires Evolves(d, e) && StoredOk(d, a)
    ensures StoredOk(e, a)
  {
    if a.attempt.Some? {
      var k := a.attempt.value;
      assert AttemptEvolves(d.attempts[k], e.attempts[k]) && RunEvolves(d.runs[k.run], e.runs[k.run]);
      assert TaskEvolves(d.runs[k.run].tasks[k.task], e.runs[k.run].tasks[k.task]);
    }
  }

  lemma NewIsOk(d: Db, e: Db, lease: Lease, complete: bool, now: Millis, draws: Draws, id: Id, a: Artifact)
    requires Evolves(d, e) && Owns(d, lease) && StoredBy(lease, complete, now, draws, id, a)
    requires complete ==> lease.attempt in e.attempts && e.attempts[lease.attempt].state.Captured?
    ensures StoredOk(e, a)
  {
    var k := lease.attempt;
    assert k in e.attempts && RunEvolves(d.runs[k.run], e.runs[k.run]);
    assert TaskEvolves(d.runs[k.run].tasks[k.task], e.runs[k.run].tasks[k.task]);
  }

  /** A new artifact of an attempt comes from a capture by its owner; unless the capture ends the attempt, it is an
      accepted `preserve_partial`. */
  lemma StepStores(d: Db, s: Step, id: Id)
    requires Valid(d) && id in Apply(d, s).db.artifacts && id !in d.artifacts
    ensures s.command.DoCapture? && Owns(d, s.command.lease) && s.command.lease.attempt in d.attempts
    ensures Live(d.attempts[s.command.lease.attempt].state)
    ensures var e := Apply(d, s).db;
            var lease, a := s.command.lease, e.artifacts[id];
            if s.command.release then
              && StoredBy(lease, Completes(d, lease, s.command.capture, s.now, s.command.draws), s.now, s.command.draws, id, a)
              && lease.attempt in e.attempts && !Live(e.attempts[lease.attempt].state)
              && (e.attempts[lease.attempt].state.Captured? <==> Completes(d, lease, s.command.capture, s.now, s.command.draws))
            else
              && StoredBy(lease, false, s.now, s.command.draws, id, a)
              && Preserves(d, s, lease.attempt) && id == s.command.draws.text
  {
    hide Valid, StoreCapture, Completes, StoredBy, Blank, Owns;
    if !s.command.DoCapture? { OnlyCapturesStore(d, s); }
    var lease, c, draws := s.command.lease, s.command.capture, s.command.draws;
    AcceptedCapture(d, lease, c, s.now, s.command.release, draws);
    OwnedIsLive(d, lease);
    if s.command.release {
      FinalStores(d, lease, c, s.now, draws);
    } else {
      PartialStores(d, lease, c, s.now, draws);
    }
  }

  lemma AcceptedCapture(d: Db, lease: Lease, capture: Capture, now: Millis, release: bool, draws: Draws)
    requires StoreCapture(d, lease, capture, now, release, draws).db != d
    ensures StoreCapture(d, lease, capture, now, release, draws).reply.Ok? && Owns(d, lease)
  {
    hide Timed, FreshDraws, SameTurn, StoreFinal, StorePartial;
  }

  lemma OwnedIsLive(d: Db, lease: Lease)
    requires Valid(d) && Owns(d, lease)
    ensures lease.attempt in d.attempts && Live(d.attempts[lease.attempt].state)
  {
    hide Valid, Owns;
    OwnedIsLeased(d, lease);
  }

  lemma StepKeepsTexts(d: Db, s: Step)
    requires Valid(d) && TextsOk(d)
    ensures TextsOk(Apply(d, s).db)
  {
    hide Valid, Evolves, Apply, StoredOk, StoredBy, Owns, Preserves, Completes;
    var e := Apply(d, s).db;
    ApplyKeeps(d, s);
    forall id | id in e.artifacts ensures StoredOk(e, e.artifacts[id]) {
      if id in d.artifacts {
        Unchanged(d, e, id);
        StoredStays(d, e, e.artifacts[id]);
      } else {
        StepStores(d, s, id);
        var complete := s.command.release && Completes(d, s.command.lease, s.command.capture, s.now, s.command.draws);
        NewIsOk(d, e, s.command.lease, complete, s.now, s.command.draws, id, e.artifacts[id]);
      }
    }
  }

  lemma Unchanged(d: Db, e: Db, id: Id)
    requires Evolves(d, e) && id in d.artifacts
    ensures id in e.artifacts && e.artifacts[id] == d.artifacts[id]
  {
  }

  lemma {:induction false} HistoryKeepsTexts(states: seq<Db>, steps: seq<Step>, i: nat)
    requires History(states, steps) && i <= |steps|
    ensures TextsOk(states[i])
  {
    hide Valid, Apply, TextsOk;
    if i == 0 {
      assert TextsOk(EMPTY) by { EmptyTexts(); }
    } else {
      HistoryKeepsTexts(states, steps, i - 1);
      HistoryIsValid(states, steps, i - 1);
      StepKeepsTexts(states[i - 1], steps[i - 1]);
    }
  }

  lemma EmptyTexts()
    ensures TextsOk(EMPTY)
  {
  }

  // ---------- One capture ----------

  /** The one complete text of a captured attempt. */
  ghost predicate SoleComplete(e: Db, k: AttemptId, name: ArtifactName, x: Id) {
    && x in e.artifacts && Matches(e.artifacts[x], k.run, name, Some(k), true)
    && forall id | id in e.artifacts && Matches(e.artifacts[id], k.run, name, Some(k), true) :: id == x
  }

  /** An incomplete text of the attempt is listed before this time and identifier. */
  ghost predicate PartialBefore(d: Db, k: AttemptId, now: Millis, x: Id) {
    exists p :: p in d.artifacts && IsPartial(d.artifacts[p], k) && Before(Key(0, d.artifacts[p].created, p), Key(0, now, x))
  }

  predicate IsPartial(a: Artifact, k: AttemptId) { a.attempt == Some(k) && !a.complete }

  predicate HandsText(stage: Stage) { stage.Synthesize? || stage.Critique? }

  /** The stages that follow read the complete text unless an incomplete one is listed before it. */
  lemma FirstText(e: Db, k: AttemptId, x: Id)
    requires Valid(e) && TextsOk(e) && k in e.attempts && e.attempts[k].state.Captured?
    requires k.run in e.runs && k.task < |e.runs[k.run].tasks| && HandsText(e.runs[k.run].tasks[k.task].stage)
    requires SoleComplete(e, k, StageText(e.runs[k.run].tasks[k.task].stage), x)
    ensures var f := EarlierStage(e, k.run, e.runs[k.run].tasks[k.task].stage);
            && f.Given? && f.artifact in e.artifacts
            && (e.artifacts[f.artifact].complete <==> !PartialBefore(e, k, e.artifacts[x].created, x))
            && (e.artifacts[f.artifact].complete <==> f.artifact == x)
  {
    hide Valid, FindArtifact;
    CapturedStageOf(e, k);
    var stage := e.runs[k.run].tasks[k.task].stage;
    FindIsFirst(e, k.run, StageText(stage), Some(k), false, x);
    var f := FindArtifact(e, k.run, StageText(stage), Some(k), false).value;
    if PartialBefore(e, k, e.artifacts[x].created, x) {
      var p :| p in e.artifacts && IsPartial(e.artifacts[p], k) && Before(Key(0, e.artifacts[p].created, p), Key(0, e.artifacts[x].created, x));
      assert StoredOk(e, e.artifacts[p]);
      FindIsFirst(e, k.run, StageText(stage), Some(k), false, p);
    } else {
      assert !IsPartial(e.artifacts[f], k) || f == x;
    }
  }

  ghost predicate LeavesOneText(d: Db, e: Db, k: AttemptId, stage: Stage, now: Millis, x: Id) {
    && SoleComplete(e, k, StageText(stage), x) && e.artifacts[x].created == now
    && (forall p | p in e.artifacts && IsPartial(e.artifacts[p], k) :: p in d.artifacts)
    && k in e.attempts && e.attempts[k].state.Captured?
  }

  /** What a completing capture leaves of its attempt: the text it stores is the only complete one, and the incomplete
      ones are those that were there. */
  lemma CompletingRows(d: Db, lease: Lease, capture: Capture, now: Millis, draws: Draws)
    requires Valid(d) && TextsOk(d) && Completes(d, lease, capture, now, draws) && HandsText(lease.stage)
    ensures LeavesOneText(d, StoreCapture(d, lease, capture, now, true, draws).db, lease.attempt, lease.stage, now, draws.text)
  {
    hide Valid, StoreCapture, Completes, IsComplete;
    var e := StoreCapture(d, lease, capture, now, true, draws).db;
    var k := lease.attempt;
    CompletesIsOwned(d, lease, capture, now, draws);
    OwnedIsLive(d, lease);
    FinalStores(d, lease, capture, now, draws);
    CompleteTextIsStored(d, lease, capture, now, draws);
    StoreCaptureKeeps(d, lease, capture, now, true, draws);
    forall id | id in e.artifacts && e.artifacts[id].attempt == Some(k)
      ensures id in d.artifacts ==> !e.artifacts[id].complete
      ensures id !in d.artifacts ==> e.artifacts[id].complete && (e.artifacts[id].name.StageText? ==> id == draws.text)
    {
      if id in d.artifacts {
        Unchanged(d, e, id);
        assert StoredOk(d, d.artifacts[id]);
      } else {
        assert StoredBy(lease, true, now, draws, id, e.artifacts[id]);
      }
    }
  }

  lemma CompletesIsOwned(d: Db, lease: Lease, capture: Capture, now: Millis, draws: Draws)
    requires Completes(d, lease, capture, now, draws)
    ensures Owns(d, lease) && StoreCapture(d, lease, capture, now, true, draws).reply.Ok? && lease.run == lease.attempt.run
    ensures lease.run in d.runs && lease.attempt.task < |d.runs[lease.run].tasks|
    ensures d.runs[lease.run].tasks[lease.attempt.task].stage == lease.stage
  {
    hide StoreCapture, IsComplete;
  }

  /** When a synthesis or critique is captured completely, later stages read the complete text exactly when no incomplete
      text of the attempt is listed before it. */
  lemma TextReadIsCompleteIff(d: Db, lease: Lease, capture: Capture, now: Millis, draws: Draws)
    requires Valid(d) && TextsOk(d) && Completes(d, lease, capture, now, draws) && HandsText(lease.stage)
    ensures var e := StoreCapture(d, lease, capture, now, true, draws).db;
            && lease.run in e.runs
            && var f := EarlierStage(e, lease.run, lease.stage);
            && f.Given? && f.artifact in e.artifacts
            && (e.artifacts[f.artifact].complete <==> !PartialBefore(d, lease.attempt, now, draws.text))
            && (e.artifacts[f.artifact].complete <==> f.artifact == draws.text)
  {
    hide Valid, Evolves, TextsOk, StoreCapture, Completes, Owns, EarlierStage, SoleComplete;
    var e := StoreCapture(d, lease, capture, now, true, draws).db;
    var s := Step(DoCapture(lease, capture, true, draws), now);
    var k := lease.attempt;
    assert Apply(d, s).db == e;
    CompletesIsOwned(d, lease, capture, now, draws);
    CompletingRows(d, lease, capture, now, draws);
    StoreCaptureKeeps(d, lease, capture, now, true, draws);
    StepKeepsTexts(d, s);
    StageOfRun(d, e, k);
    FirstText(e, k, draws.text);
    SamePartials(d, e, k, now, draws.text);
  }

  lemma SamePartials(d: Db, e: Db, k: AttemptId, now: Millis, x: Id)
    requires Evolves(d, e)
    requires forall p | p in e.artifacts && IsPartial(e.artifacts[p], k) :: p in d.artifacts
    ensures PartialBefore(e, k, now, x) <==> PartialBefore(d, k, now, x)
  {
    if PartialBefore(e, k, now, x) {
      var p :| p in e.artifacts && IsPartial(e.artifacts[p], k) && Before(Key(0, e.artifacts[p].created, p), Key(0, now, x));
      Unchanged(d, e, p);
    }
    if PartialBefore(d, k, now, x) {
      var p :| p in d.artifacts && IsPartial(d.artifacts[p], k) && Before(Key(0, d.artifacts[p].created, p), Key(0, now, x));
      Unchanged(d, e, p);
    }
  }

  // ---------- Histories ----------

  /** An accepted `preserve_partial` of the attempt comes before step `j` and is listed before this time and identifier. */
  ghost predicate PreservedBefore(states: seq<Db>, steps: seq<Step>, j: nat, k: AttemptId, now: Millis, x: Id)
    requires j <= |steps| && j <= |states|
  {
    exists i :: && 0 <= i < j && steps[i].command.DoCapture? && Preserves(states[i], steps[i], k)
                && Before(Key(0, steps[i].now, steps[i].command.draws.text), Key(0, now, x))
  }

  /** Every incomplete text of a live attempt was stored by an accepted `preserve_partial`. */
  lemma {:induction false} PartialComesFrom(states: seq<Db>, steps: seq<Step>, j: nat, k: AttemptId, id: Id) returns (i: nat)
    requires History(states, steps) && j <= |steps| && k in states[j].attempts && Live(states[j].attempts[k].state)
    requires id in states[j].artifacts && states[j].artifacts[id].attempt == Some(k)
    ensures i < j && steps[i].command.DoCapture? && Preserves(states[i], steps[i], k)
    ensures steps[i].command.draws.text == id && steps[i].now == states[j].artifacts[id].created
    decreases j
  {
    hide Valid, Evolves, Apply, Preserves, StoredBy, Completes;
    assert j > 0;
    var d, s := states[j - 1], steps[j - 1];
    assert states[j] == Apply(d, s).db;
    HistoryIsValid(states, steps, j - 1);
    ApplyKeeps(d, s);
    if id in d.artifacts {
      Unchanged(d, states[j], id);
      HistoryKeepsTexts(states, steps, j - 1);
      assert StoredOk(d, d.artifacts[id]);
      LiveBefore(d, states[j], k);
      i := PartialComesFrom(states, steps, j - 1, k, id);
    } else {
      StepStores(d, s, id);
      StoredFacts(s.command.lease, s.command.release && Completes(d, s.command.lease, s.command.capture, s.now, s.command.draws),
                  s.now, s.command.draws, id, states[j].artifacts[id]);
      i := j - 1;
    }
  }

  lemma StoredFacts(lease: Lease, complete: bool, now: Millis, draws: Draws, id: Id, a: Artifact)
    requires StoredBy(lease, complete, now, draws, id, a)
    ensures a.created == now && (a.attempt.Some? ==> a.attempt.value == lease.attempt)
  {
  }

  lemma LiveBefore(d: Db, e: Db, k: AttemptId)
    requires Evolves(d, e) && k in d.attempts && k in e.attempts && Live(e.attempts[k].state)
    ensures Live(d.attempts[k].state)
  {
    assert AttemptEvolves(d.attempts[k], e.attempts[k]);
  }

  lemma PreservedIsStored(d: Db, s: Step, k: AttemptId)
    requires Preserves(d, s, k)
    ensures var e := Apply(d, s).db;
            s.command.draws.text in e.artifacts && IsPartial(e.artifacts[s.command.draws.text], k)
            && e.artifacts[s.command.draws.text].created == s.now
  {
    hide StoreCapture, Blank, TextName;
    PartialArtifacts(d, s.command.lease, s.command.capture, s.now, s.command.draws);
  }

  /** The incomplete texts a live attempt has stored are those its owner has preserved. */
  lemma PartialsArePreserved(states: seq<Db>, steps: seq<Step>, j: nat, k: AttemptId, now: Millis, x: Id)
    requires History(states, steps) && j <= |steps| && k in states[j].attempts && Live(states[j].attempts[k].state)
    ensures PartialBefore(states[j], k, now, x) <==> PreservedBefore(states, steps, j, k, now, x)
  {
    hide Valid, Evolves, Apply, Preserves;
    if PartialBefore(states[j], k, now, x) {
      var p :| p in states[j].artifacts && IsPartial(states[j].artifacts[p], k)
               && Before(Key(0, states[j].artifacts[p].created, p), Key(0, now, x));
      var i := PartialComesFrom(states, steps, j, k, p);
    }
    if PreservedBefore(states, steps, j, k, now, x) {
      var i :| 0 <= i < j && steps[i].command.DoCapture? && Preserves(states[i], steps[i], k)
               && Before(Key(0, steps[i].now, steps[i].command.draws.text), Key(0, now, x));
      PreservedIsStored(states[i], steps[i], k);
      HistoryEvolves(states, steps, i + 1, j);
      Unchanged(states[i + 1], states[j], steps[i].command.draws.text);
    }
  }

  /** An ended attempt stores nothing more. */
  lemma {:induction false} EndedStoresNothing(states: seq<Db>, steps: seq<Step>, i: nat, n: nat, k: AttemptId, id: Id)
    requires History(states, steps) && i <= n <= |steps| && k in states[i].attempts && !Live(states[i].attempts[k].state)
    requires id in states[n].artifacts && states[n].artifacts[id].attempt == Some(k)
    ensures id in states[i].artifacts
    decreases n
  {
    hide Valid, Evolves, Apply, Preserves, StoredBy, Completes, Owns;
    if n > i {
      var d, s := states[n - 1], steps[n - 1];
      assert states[n] == Apply(d, s).db;
      HistoryIsValid(states, steps, n - 1);
      HistoryEvolves(states, steps, i, n - 1);
      EndedAfter(states[i], d, k);
      ApplyKeeps(d, s);
      if id in d.artifacts {
        Unchanged(d, states[n], id);
        EndedStoresNothing(states, steps, i, n - 1, k, id);
      } else {
        StepStores(d, s, id);
        StoredFacts(s.command.lease, s.command.release && Completes(d, s.command.lease, s.command.capture, s.now, s.command.draws),
                    s.now, s.command.draws, id, states[n].artifacts[id]);
      }
    }
  }

  lemma EndedAfter(d: Db, e: Db, k: AttemptId)
    requires Evolves(d, e) && k in d.attempts && !Live(d.attempts[k].state)
    ensures k in e.attempts && e.attempts[k] == d.attempts[k]
  {
    assert AttemptEvolves(d.attempts[k], e.attempts[k]);
  }

  lemma SoleStays(d: Db, e: Db, k: AttemptId, name: ArtifactName, x: Id)
    requires Evolves(d, e) && SoleComplete(d, k, name, x)
    requires forall id | id in e.artifacts && e.artifacts[id].attempt == Some(k) :: id in d.artifacts
    ensures SoleComplete(e, k, name, x) && e.artifacts[x] == d.artifacts[x]
  {
    Unchanged(d, e, x);
    forall id | id in e.artifacts && Matches(e.artifacts[id], k.run, name, Some(k), true) ensures id == x {
      Unchanged(d, e, id);
    }
  }

  /** Where the code falls short, and exactly where: from the capture that completes a synthesis or critique on, later
      stages read its complete text if and only if no text of the same attempt was preserved at an earlier time (or at
      the same time under a smaller identifier). */
  lemma HandedTextIsCompleteIff(states: seq<Db>, steps: seq<Step>, j: nat, n: nat)
    requires History(states, steps) && j < n <= |steps| && steps[j].command.DoCapture? && steps[j].command.release
    requires HandsText(steps[j].command.lease.stage)
    requires Completes(states[j], steps[j].command.lease, steps[j].command.capture, steps[j].now, steps[j].command.draws)
    ensures var c := steps[j].command;
            && c.lease.run in states[n].runs
            && var f := EarlierStage(states[n], c.lease.run, c.lease.stage);
            && f.Given? && f.artifact in states[n].artifacts
            && (states[n].artifacts[f.artifact].complete <==>
                 !PreservedBefore(states, steps, j, c.lease.attempt, steps[j].now, c.draws.text))
            && (states[n].artifacts[f.artifact].complete <==> f.artifact == c.draws.text)
  {
    hide Valid, Evolves, TextsOk, StoreCapture, Completes, Owns, EarlierStage, SoleComplete, PreservedBefore, PartialBefore;
    var d, e, f, c := states[j], states[j + 1], states[n], steps[j].command;
    var k := c.lease.attempt;
    HistoryIsValid(states, steps, j);
    HistoryKeepsTexts(states, steps, j);
    CompletesIsOwned(d, c.lease, c.capture, steps[j].now, c.draws);
    OwnedIsLive(d, c.lease);
    CompletingRows(d, c.lease, c.capture, steps[j].now, c.draws);
    PartialsArePreserved(states, steps, j, k, steps[j].now, c.draws.text);
    HistoryEvolves(states, steps, j, j + 1);
    HistoryEvolves(states, steps, j + 1, n);
    HistoryEvolves(states, steps, j, n);
    SamePartials(d, e, k, steps[j].now, c.draws.text);
    AfterCapture(states, steps, j + 1, n, k, c.lease.stage, c.draws.text);
    HistoryIsValid(states, steps, n);
    HistoryKeepsTexts(states, steps, n);
    StageOfRun(d, f, k);
    FirstText(f, k, c.draws.text);
  }

  /** What was stored of a captured attempt is all there ever is. */
  lemma AfterCapture(states: seq<Db>, steps: seq<Step>, i: nat, n: nat, k: AttemptId, stage: Stage, x: Id)
    requires History(states, steps) && i <= n <= |steps| && k in states[i].attempts && states[i].attempts[k].state.Captured?
    requires SoleComplete(states[i], k, StageText(stage), x)
    ensures SoleComplete(states[n], k, StageText(stage), x) && states[n].artifacts[x] == states[i].artifacts[x]
    ensures k in states[n].attempts && states[n].attempts[k].state.Captured?
    ensures forall now: Millis :: PartialBefore(states[n], k, now, x) <==> PartialBefore(states[i], k, now, x)
  {
    hide Valid, Evolves, Apply, SoleComplete, PartialBefore;
    HistoryEvolves(states, steps, i, n);
    EndedAfter(states[i], states[n], k);
    forall id | id in states[n].artifacts && states[n].artifacts[id].attempt == Some(k) ensures id in states[i].artifacts {
      EndedStoresNothing(states, steps, i, n, k, id);
    }
    SoleStays(states[i], states[n], k, StageText(stage), x);
    forall now: Millis ensures PartialBefore(states[n], k, now, x) <==> PartialBefore(states[i], k, now, x) {
      SamePartials(states[i], states[n], k, now, x);
    }
  }

  /** The comparison handed on is always complete. */
  lemma ComparisonIsComplete(states: seq<Db>, steps: seq<Step>, n: nat, r: Id)
    requires History(states, steps) && n <= |steps| && r in states[n].runs && EarlierStage(states[n], r, Compare).Given?
    ensures var id := EarlierStage(states[n], r, Compare).artifact; id in states[n].artifacts && states[n].artifacts[id].complete
  {
    hide Apply, FindArtifact, LatestCaptured, DoneTask;
    HistoryKeepsTexts(states, steps, n);
    assert StoredOk(states[n], states[n].artifacts[EarlierStage(states[n], r, Compare).artifact]);
  }
}
