/** What later stages and readers are given is there. */
module Handoffs {
  import opened Text
  import opened Tables
  import opened Ordering
  import opened Scheduler
  import opened Runs
  import opened Artifacts
  import opened Invariant
  import opened Preservation
  import opened Steps
  import opened Operations
  import opened CaptureOperations
  import opened Histories
  import opened Ledger
  import opened LeaseTheorems

  // ---------- Completed tasks ----------

  /** The attempt that completed task `j` of run `r`. */
  function Completing(d: Db, r: Id, j: nat): AttemptId
    requires r in d.runs && j < |d.runs[r].tasks|
  {
    AttemptId(r, j, d.runs[r].tasks[j].attempts)
  }

  lemma DoneIsCaptured(d: Db, r: Id, j: nat)
    requires RunsOk(d) && AttemptsOk(d) && ArtifactsOk(d) && r in d.runs && j < |d.runs[r].tasks|
    requires d.runs[r].tasks[j].status.Done?
    ensures var k := Completing(d, r, j);
            k in d.attempts && d.attempts[k].state.Captured? && HasResult(d, k) && d.runs[r].tasks[j].attempts > 0
  {
    assert TaskOk(d.runs[r].tasks[j], d.runs[r].allowIncomplete);
    assert Counted(d, Completing(d, r, j)) && Agrees(d, Completing(d, r, j));
  }

  lemma CapturedIsLatest(d: Db, r: Id, j: nat, n: nat)
    requires n > 0 && AttemptId(r, j, n) in d.attempts && d.attempts[AttemptId(r, j, n)].state.Captured?
    ensures LatestCaptured(d, r, j, n) == Some(AttemptId(r, j, n))
  {
  }

  lemma HasMatch(d: Db, r: Id, name: ArtifactName, k: Option<AttemptId>, whole: bool)
    requires HasArtifact(d, r, name, k)
    ensures FindArtifact(d, r, name, k, whole).Some?
  {
    var id :| id in d.artifacts && Matches(d.artifacts[id], r, name, k, true);
    assert Matches(d.artifacts[id], r, name, k, whole);
  }

  /** The artifact handed on is the one stored by the attempt that completed the stage. */
  ghost predicate HandedOn(d: Db, r: Id, stage: Stage, id: Id) {
    exists j :: && r in d.runs && 0 <= j < |d.runs[r].tasks| && d.runs[r].tasks[j].stage == stage && d.runs[r].tasks[j].status.Done?
                && id in d.artifacts && d.artifacts[id].run == r && d.artifacts[id].attempt == Some(Completing(d, r, j))
                && d.artifacts[id].name == (if stage.Compare? then ComparisonFile else StageText(stage))
                && Completing(d, r, j) in d.attempts && d.attempts[Completing(d, r, j)].state.Captured?
  }

  lemma EarlierIsGiven(d: Db, r: Id, j: nat)
    requires Valid(d) && r in d.runs && j < |d.runs[r].tasks| && d.runs[r].tasks[j].status.Done?
    requires !d.runs[r].tasks[j].stage.Explore? && !d.runs[r].tasks[j].stage.Revise?
    ensures var stage := d.runs[r].tasks[j].stage;
            EarlierStage(d, r, stage).Given? && HandedOn(d, r, stage, EarlierStage(d, r, stage).artifact)
  {
    hide RunsOk, AttemptsOk, ReservationsOk, CapacityOk, AccountsOk, LogOk, PacingOk, BudgetOk, ArtifactsOk, FindArtifact, HasArtifact;
    var stage := d.runs[r].tasks[j].stage;
    var i := DoneTask(d.runs[r].tasks, stage).value;
    DoneIsCaptured(d, r, i);
    CapturedIsLatest(d, r, i, d.runs[r].tasks[i].attempts);
    HasMatch(d, r, HandoffName(stage), Some(Completing(d, r, i)), false);
  }

  // ---------- Prompts ----------

  lemma {:induction false} CollectAll(d: Db, r: Id, stages: seq<Stage>)
    requires r in d.runs && forall i | 0 <= i < |stages| :: EarlierStage(d, r, stages[i]).Given?
    ensures Collect(d, r, stages).Some? && Collect(d, r, stages).value.Keys == set s | s in stages
    ensures forall s | s in stages :: Collect(d, r, stages).value[s] == EarlierStage(d, r, s).artifact
  {
    hide EarlierStage;
    if stages != [] {
      var n := |stages| - 1;
      CollectAll(d, r, stages[..n]);
      assert forall s :: s in stages <==> s in stages[..n] || s == stages[n];
    }
  }

  lemma {:induction false} SummariesAreThere(tasks: seq<Task>)
    requires forall i | 0 <= i < |tasks| && tasks[i].stage.Explore? && tasks[i].status.Done? :: tasks[i].summary.Some?
    ensures |Summaries(tasks)| == CompletedExplores(tasks)
    ensures forall i | 0 <= i < |Summaries(tasks)| :: Summaries(tasks)[i].1.Some?
    ensures forall i | 0 <= i < |tasks| && tasks[i].stage.Explore? && tasks[i].status.Done? ::
              (tasks[i].position, tasks[i].summary) in Summaries(tasks)
  {
    if tasks != [] {
      var n := |tasks| - 1;
      SummariesAreThere(tasks[..n]);
      forall i | 0 <= i < |tasks| && tasks[i].stage.Explore? && tasks[i].status.Done?
        ensures (tasks[i].position, tasks[i].summary) in Summaries(tasks)
      {
        assert i < n ==> tasks[..n][i] == tasks[i];
      }
    }
  }

  lemma StageIndex(run: Run, i: nat, stage: Stage) returns (j: nat)
    requires RunOk(run) && i < |run.tasks| && stage in EarlierStages(run.tasks[i].stage)
    ensures j < i && run.tasks[j].stage == stage && !stage.Explore? && !stage.Revise?
  {
    j := run.request.candidates + if stage.Compare? then 0 else if stage.Synthesize? then 1 else 2;
  }

  function StageNumber(stage: Stage): nat {
    match stage
    case Explore => 0
    case Compare => 1
    case Synthesize => 2
    case Critique => 3
    case Revise => 4
  }

  /** The reductions before this stage, but for the revision. */
  function StagesBefore(stage: Stage): set<Stage> {
    set s | s in {Compare, Synthesize, Critique} && StageNumber(s) < StageNumber(stage)
  }

  lemma EarlierAreBefore(stage: Stage)
    ensures forall s :: s in EarlierStages(stage) <==> s in StagesBefore(stage)
  {
  }

  lemma {:induction false} SummariesAscend(tasks: seq<Task>)
    requires forall i | 0 <= i < |tasks| && tasks[i].stage.Explore? :: tasks[i].position == i + 1
    ensures forall i, j | 0 <= i < j < |Summaries(tasks)| :: Summaries(tasks)[i].0 < Summaries(tasks)[j].0
    ensures forall i | 0 <= i < |Summaries(tasks)| :: Summaries(tasks)[i].0 <= |tasks|
  {
    if tasks != [] { SummariesAscend(tasks[..|tasks| - 1]); }
  }

  lemma RunSummariesAscend(run: Run)
    requires RunOk(run)
    ensures forall i, j | 0 <= i < j < |Summaries(run.tasks)| :: Summaries(run.tasks)[i].0 < Summaries(run.tasks)[j].0
  {
    assert forall i | 0 <= i < |run.tasks| && run.tasks[i].stage.Explore? :: run.tasks[i].position == i + 1;
    hide RunOk;
    SummariesAscend(run.tasks);
  }

  /** Everything the prompt of a reduction is built from. */
  ghost predicate Supplied(d: Db, r: Id, stage: Stage, p: Prompt)
    requires r in d.runs
  {
    && p.PromptData? && p.earlier.Keys == StagesBefore(stage) && (forall s | s in p.earlier :: HandedOn(d, r, s, p.earlier[s]))
    && (forall i, j | 0 <= i < j < |p.candidates| :: p.candidates[i].0 < p.candidates[j].0)
    && |p.candidates| == CompletedExplores(d.runs[r].tasks) >= 3
    && (forall i | 0 <= i < |p.candidates| :: p.candidates[i].1.Some?)
    && forall i | 0 <= i < |d.runs[r].tasks| && d.runs[r].tasks[i].stage.Explore? && d.runs[r].tasks[i].status.Done? ::
         (d.runs[r].tasks[i].position, d.runs[r].tasks[i].summary) in p.candidates
  }

  lemma TaskRows(run: Run)
    requires RunOk(run)
    ensures forall i | 0 <= i < |run.tasks| :: TaskOk(run.tasks[i], run.allowIncomplete)
  {
  }

  /** For every lease, the prompt exists: it is never refused, and a reduction is given the summary of every completed
      candidate and the artifact of each earlier stage, from the attempt that completed it. */
  lemma PromptIsTotal(d: Db, lease: Lease)
    requires Reachable(d) && Owns(d, lease)
    ensures PromptFor(d, lease).PromptData?
    ensures !lease.stage.Explore? ==> Supplied(d, lease.run, lease.stage, PromptFor(d, lease))
  {
    hide Reachable, Valid, RunOk, EarlierStage, HandedOn, Collect, Summaries, CompletedExplores, ReservationOk;
    ReachableIsValid(d);
    OwnedIsLeased(d, lease);
    var run := d.runs[lease.run];
    RunIsOk(d, lease.run);
    if !lease.stage.Explore? {
      ReductionInputs(run, lease.attempt.task);
      var stages := EarlierStages(lease.stage);
      forall s | s in stages ensures EarlierStage(d, lease.run, s).Given? && HandedOn(d, lease.run, s, EarlierStage(d, lease.run, s).artifact) {
        var j := StageIndex(run, lease.attempt.task, s);
        EarlierIsGiven(d, lease.run, j);
      }
      CollectAll(d, lease.run, stages);
      EarlierAreBefore(lease.stage);
      assert (set s | s in stages) == StagesBefore(lease.stage);
      hide StagesBefore, EarlierStages;
      TaskRows(run);
      RunSummariesAscend(run);
      SummariesAreThere(run.tasks);
    }
  }

  // ---------- Results ----------

  /** The result of a completed run is readable: its manifest, and the complete text of the attempt that completed the
      revision. */
  lemma ResultIsThere(d: Db, r: Id)
    requires Reachable(d) && r in d.runs && d.runs[r].status.Completed?
    ensures var result := ResultOf(d, r);
            && result.FinalResult? && result.final in d.artifacts && d.artifacts[result.final].complete
            && d.artifacts[result.final].name == FinalText && d.artifacts[result.final].run == r
            && exists j :: && 0 <= j < |d.runs[r].tasks| && d.runs[r].tasks[j].stage.Revise? && d.runs[r].tasks[j].status.Done?
                           && d.artifacts[result.final].attempt == Some(Completing(d, r, j))
  {
    hide Reachable, RunsOk, AttemptsOk, ReservationsOk, CapacityOk, AccountsOk, LogOk, PacingOk, BudgetOk, ArtifactsOk, FindArtifact, HasArtifact;
    ReachableIsValid(d);
    RunIsOk(d, r);
    var j := |d.runs[r].tasks| - 1;
    assert d.runs[r].tasks[j].stage.Revise? && d.runs[r].tasks[j].status.Done?;
    hide RunOk;
    ManifestIsThere(d, r);
    DoneIsCaptured(d, r, j);
    CapturedIsLatest(d, r, j, d.runs[r].tasks[j].attempts);
    HasMatch(d, r, FinalText, Some(Completing(d, r, j)), true);
    HasMatch(d, r, ManifestFile, None, false);
  }

  lemma ManifestIsThere(d: Db, r: Id)
    requires ArtifactsOk(d) && r in d.runs && d.runs[r].status.Completed?
    ensures HasArtifact(d, r, ManifestFile, None)
  {
  }

  // ---------- Is the text handed on complete? ----------

  predicate Listed(a: Artifact, x: Id, b: Artifact, y: Id) { x == y || Before(Key(0, a.created, x), Key(0, b.created, y)) }

  /** The search returns the first match in listing order. */
  lemma FindIsFirst(d: Db, r: Id, name: ArtifactName, k: Option<AttemptId>, whole: bool, y: Id)
    requires y in d.artifacts && Matches(d.artifacts[y], r, name, k, whole)
    ensures var f := FindArtifact(d, r, name, k, whole); f.Some? && Listed(d.artifacts[f.value], f.value, d.artifacts[y], y)
  {
    var rows := set id | id in d.artifacts && Matches(d.artifacts[id], r, name, k, whole) :: Key(0, d.artifacts[id].created, id);
    var keys := Sorted(rows);
    assert Key(0, d.artifacts[y].created, y) in rows;
    var p :| 0 <= p < |keys| && keys[p] == Key(0, d.artifacts[y].created, y);
    assert keys[0] in keys;
  }

  lemma PartialArtifacts(d: Db, lease: Lease, capture: Capture, now: Millis, draws: Draws)
    requires StoreCapture(d, lease, capture, now, false, draws).reply.Ok? && !Blank(capture.markdown)
    ensures var e := StoreCapture(d, lease, capture, now, false, draws).db;
            e.artifacts == d.artifacts[draws.text := Artifact(lease.run, Some(lease.attempt), TextName(lease.stage, lease.position),
                                                             Markdown(capture.markdown), false, now)]
  {
    hide Verdict, Blank, TextName, FreshDraws, SameTurn, Unresolved;
  }

  lemma FinalArtifacts(d: Db, lease: Lease, capture: Capture, now: Millis, draws: Draws)
    requires StoreCapture(d, lease, capture, now, true, draws).reply.Ok? && !lease.stage.Revise?
    ensures AddedAt(d, StoreCapture(d, lease, capture, now, true, draws).db, now)
  {
    hide Timed, FreshDraws, SameTurn, StoreFinal, Logged, IsComplete;
    OwnedStage(d, lease, capture, now, draws);
    var c := Timed(d.runs[lease.run], d.attempts[lease.attempt], capture, now);
    StoreFinalIs(d, lease, c, now, draws);
    LoggedArtifacts(d, lease, c, now, draws);
  }

  /** Artifacts are added, all of them at one time. */
  ghost predicate AddedAt(d: Db, e: Db, now: Millis) {
    && (forall id | id in d.artifacts :: id in e.artifacts && e.artifacts[id] == d.artifacts[id])
    && forall id | id in e.artifacts && id !in d.artifacts :: e.artifacts[id].created == now
  }

  lemma AddArtifactAdds(d: Db, e: Db, id: Id, a: Artifact, now: Millis)
    requires AddedAt(d, e, now) && id !in d.artifacts && a.created == now
    ensures AddedAt(d, AddArtifact(e, id, a), now)
  {
  }

  lemma WrittenArtifacts(d: Db, lease: Lease, c: Capture, complete: bool, now: Millis, draws: Draws)
    requires Owns(d, lease) && FreshDraws(d, draws)
    ensures AddedAt(d, Written(d, lease, c, complete, now, draws), now)
  {
    assert AddedAt(d, d, now);
    hide RankingFor, Blank, TextName, AddedAt;
    var text := Artifact(lease.run, Some(lease.attempt), TextName(lease.stage, lease.position), Markdown(c.markdown), complete, now);
    AddArtifactAdds(d, d, draws.text, text, now);
    var e := WriteText(d, lease, c, complete, now, draws);
    if complete {
      var f := e;
      if c.summary.Some? {
        var summary := Artifact(lease.run, Some(lease.attempt), SummaryFile(lease.position), SummaryJson(c.summary.value), true, now);
        AddArtifactAdds(d, e, draws.summary, summary, now);
        f := AddArtifact(e, draws.summary, summary);
      }
      if lease.stage.Compare? && RankingFor(d.runs[lease.run], c).Some? {
        AddArtifactAdds(d, f, draws.ranking, Artifact(lease.run, Some(lease.attempt), ComparisonFile,
                                                      RankingJson(RankingFor(d.runs[lease.run], c).value), true, now), now);
      }
      SameArtifactsAdd(d, f, Written(d, lease, c, complete, now, draws), now);
      if lease.stage.Compare? && RankingFor(d.runs[lease.run], c).Some? {
        SameArtifactsAdd(d, AddArtifact(f, draws.ranking, Artifact(lease.run, Some(lease.attempt), ComparisonFile,
                                                      RankingJson(RankingFor(d.runs[lease.run], c).value), true, now)),
                         Written(d, lease, c, complete, now, draws), now);
      }
    }
  }

  lemma SameArtifactsAdd(d: Db, e: Db, f: Db, now: Millis)
    requires AddedAt(d, e, now)
    ensures f.artifacts == e.artifacts ==> AddedAt(d, f, now)
  {
  }

  lemma EndedArtifacts(d: Db, lease: Lease, c: Capture, now: Millis, draws: Draws)
    requires Owns(d, lease)
    ensures Logged(d, lease, c, now, draws).artifacts == Written(d, lease, c, IsComplete(d, lease, c), now, draws).artifacts
  {
    hide Written, IsComplete, Ended, Settle, ForceMismatchPause;
    var w := Written(d, lease, c, IsComplete(d, lease, c), now, draws);
    var r := Ended(d, lease, c, now);
    OwnedStaysJoined(d, lease, c, now, draws);
    var e := Release(w, lease, r.0, r.1, r.2);
    SettleArtifacts(e, lease.run, now);
    MismatchArtifacts(Settle(e, lease.run, now), lease.run, d.runs[lease.run].status, r.2);
  }

  lemma OwnedStaysJoined(d: Db, lease: Lease, c: Capture, now: Millis, draws: Draws)
    requires Owns(d, lease)
    ensures Joined(Written(d, lease, c, IsComplete(d, lease, c), now, draws), lease.attempt) && lease.run == lease.attempt.run
    ensures lease.run in d.runs
  {
    hide Written, IsComplete;
    WrittenJoined(d, lease, c, IsComplete(d, lease, c), now, draws);
  }

  lemma SettleArtifacts(d: Db, r: Id, now: Millis)
    requires r in d.runs
    ensures Settle(d, r, now).artifacts == d.artifacts && r in Settle(d, r, now).runs
  {
  }

  lemma MismatchArtifacts(d: Db, r: Id, before: RunStatus, error: Option<Code>)
    requires r in d.runs
    ensures ForceMismatchPause(d, r, before, error).artifacts == d.artifacts
  {
  }

  lemma LoggedArtifacts(d: Db, lease: Lease, c: Capture, now: Millis, draws: Draws)
    requires Owns(d, lease) && FreshDraws(d, draws)
    ensures AddedAt(d, Logged(d, lease, c, now, draws), now)
  {
    hide Written, IsComplete, Logged, AddedAt;
    WrittenArtifacts(d, lease, c, IsComplete(d, lease, c), now, draws);
    EndedArtifacts(d, lease, c, now, draws);
    SameArtifactsAdd(d, Written(d, lease, c, IsComplete(d, lease, c), now, draws), Logged(d, lease, c, now, draws), now);
  }

  lemma DoneIndex(run: Run, i: nat)
    requires RunOk(run) && i < |run.tasks| && run.tasks[i].status.Done? && !run.tasks[i].stage.Explore?
    ensures DoneTask(run.tasks, run.tasks[i].stage) == Some(i)
  {
    var n := run.request.candidates;
    var j := DoneTask(run.tasks, run.tasks[i].stage).value;
    assert run.tasks[i].stage == StageAt(n, i) && run.tasks[j].stage == StageAt(n, j);
  }

  lemma CapturedStage(d: Db, k: AttemptId)
    requires RunsOk(d) && AttemptsOk(d) && k in d.attempts && d.attempts[k].state.Captured?
    requires k.run in d.runs && k.task < |d.runs[k.run].tasks| && !d.runs[k.run].tasks[k.task].stage.Explore?
    ensures DoneTask(d.runs[k.run].tasks, d.runs[k.run].tasks[k.task].stage) == Some(k.task)
    ensures LatestCaptured(d, k.run, k.task, d.runs[k.run].tasks[k.task].attempts) == Some(k)
  {
    hide RunsOk, AttemptsOk, RunOk, TaskOk, DoneTask;
    Row(d, k);
    CapturedIsLatest(d, k.run, k.task, k.number);
    DoneIndex(d.runs[k.run], k.task);
  }

  /** A stored text that is older than all others of its attempt is the one found. */
  lemma OldestIsFound(d: Db, r: Id, name: ArtifactName, k: AttemptId, x: Id)
    requires x in d.artifacts && Matches(d.artifacts[x], r, name, Some(k), false)
    requires forall id | id in d.artifacts && d.artifacts[id].attempt == Some(k) && id != x :: d.artifacts[id].created > d.artifacts[x].created
    ensures FindArtifact(d, r, name, Some(k), false) == Some(x)
  {
    FindIsFirst(d, r, name, Some(k), false, x);
    hide FindArtifact;
  }

  /** Where the code falls short: text preserved from an interrupted synthesis or critique is what later stages are
      given, even after the same attempt has stored its complete text. */
  lemma PartialTextIsHandedOn(d: Db, lease: Lease, c1: Capture, t1: Millis, w1: Draws, c2: Capture, t2: Millis, w2: Draws)
    requires Valid(d) && t1 < t2 && (lease.stage.Synthesize? || lease.stage.Critique?) && !Blank(c1.markdown)
    requires forall id | id in d.artifacts :: d.artifacts[id].attempt != Some(lease.attempt)
    requires StoreCapture(d, lease, c1, t1, false, w1).reply.Ok?
    requires var e := StoreCapture(d, lease, c1, t1, false, w1).db;
             && StoreCapture(e, lease, c2, t2, true, w2).reply.Ok?
             && lease.attempt in StoreCapture(e, lease, c2, t2, true, w2).db.attempts
             && StoreCapture(e, lease, c2, t2, true, w2).db.attempts[lease.attempt].state.Captured?
    ensures var f := StoreCapture(StoreCapture(d, lease, c1, t1, false, w1).db, lease, c2, t2, true, w2).db;
            && lease.run in f.runs && EarlierStage(f, lease.run, lease.stage) == Given(w1.text)
            && w1.text in f.artifacts && f.artifacts[w1.text].content == Markdown(c1.markdown) && !f.artifacts[w1.text].complete
  {
    hide Valid, Evolves, StoreCapture, FindArtifact, Blank, Owns, DoneTask, LatestCaptured;
    var e := StoreCapture(d, lease, c1, t1, false, w1).db;
    var f := StoreCapture(e, lease, c2, t2, true, w2).db;
    var k := lease.attempt;
    PartialArtifacts(d, lease, c1, t1, w1);
    FinalArtifacts(e, lease, c2, t2, w2);
    OwnedStage(e, lease, c2, t2, w2);
    StoreCaptureKeeps(d, lease, c1, t1, false, w1);
    StoreCaptureKeeps(e, lease, c2, t2, true, w2);
    StageOfRun(e, f, k);
    CapturedStageOf(f, k);
    assert w1.text in e.artifacts && f.artifacts[w1.text] == e.artifacts[w1.text];
    forall id | id in f.artifacts && f.artifacts[id].attempt == Some(k) && id != w1.text ensures f.artifacts[id].created > t1 {
      assert id !in e.artifacts;
    }
    OldestIsFound(f, lease.run, StageText(lease.stage), k, w1.text);
  }

  /** A response of the conversation accepted for the attempt. */
  function Response(turn: Turn, markdown: string): Capture {
    Capture(markdown, None, None, turn.conversation, turn.url, turn.model, true, None)
  }

  /** An accepted synthesis or critique that is still within its time and has stored no text yet. */
  ghost predicate MayBeInterrupted(d: Db, lease: Lease, until: Millis) {
    && Owns(d, lease) && (lease.stage.Synthesize? || lease.stage.Critique?)
    && d.attempts[lease.attempt].state.Accepted? && d.attempts[lease.attempt].turn.Some?
    && until < d.runs[lease.run].deadline
    && (d.attempts[lease.attempt].accepted.Some? ==> SatSub(until, d.attempts[lease.attempt].accepted.value) < RESPONSE_TIMEOUT_MS)
    && (d.runs[lease.run].model.Specific? ==> d.attempts[lease.attempt].turn.value.model == d.runs[lease.run].model.name)
    && forall id | id in d.artifacts :: d.artifacts[id].attempt != Some(lease.attempt)
  }

  lemma NotBlank()
    ensures !Blank("cut off") && !Blank("whole")
  {
    assert "cut off"[0] == 'c' && "whole"[0] == 'w';
  }

  /** The first half: the interrupted text is saved, and the attempt can still be captured. */
  lemma Interrupted(d: Db, lease: Lease, t1: Millis, w1: Draws)
    requires MayBeInterrupted(d, lease, t1) && FreshDraws(d, w1)
    ensures var turn := d.attempts[lease.attempt].turn.value;
            var o := StoreCapture(d, lease, Response(turn, "cut off"), t1, false, w1);
            var e := o.db;
            && o.reply.Ok? && Owns(e, lease)
            && e.attempts[lease.attempt].state.Uncertain? && e.attempts[lease.attempt].turn == Some(turn)
            && e.attempts[lease.attempt].accepted == d.attempts[lease.attempt].accepted
            && e.runs[lease.run].model == d.runs[lease.run].model && e.runs[lease.run].deadline == d.runs[lease.run].deadline
            && e.artifacts.Keys == d.artifacts.Keys + {w1.text}
  {
    NotBlank();
    hide Verdict, Blank, TextName, FreshDraws;
  }

  /** The second half: the whole text completes the stage. */
  lemma CapturedLater(e: Db, lease: Lease, t2: Millis, w2: Draws)
    requires Owns(e, lease) && FreshDraws(e, w2) && (lease.stage.Synthesize? || lease.stage.Critique?)
    requires e.attempts[lease.attempt].state.Uncertain? && e.attempts[lease.attempt].turn.Some?
    requires t2 < e.runs[lease.run].deadline
    requires e.attempts[lease.attempt].accepted.Some? ==> SatSub(t2, e.attempts[lease.attempt].accepted.value) < RESPONSE_TIMEOUT_MS
    requires e.runs[lease.run].model.Specific? ==> e.attempts[lease.attempt].turn.value.model == e.runs[lease.run].model.name
    ensures var o := StoreCapture(e, lease, Response(e.attempts[lease.attempt].turn.value, "whole"), t2, true, w2);
            o.reply.Ok? && lease.attempt in o.db.attempts && o.db.attempts[lease.attempt].state.Captured?
  {
    NotBlank();
    hide Blank, FreshDraws, StoreFinal, RankingFor, SummaryError;
    var c := Response(e.attempts[lease.attempt].turn.value, "whole");
    assert Timed(e.runs[lease.run], e.attempts[lease.attempt], c, t2) == c;
    assert IsComplete(e, lease, c);
    StoreFinalIs(e, lease, c, t2, w2);
    LoggedAttempt(e, lease, c, t2, w2);
  }

  lemma LoggedAttempt(e: Db, lease: Lease, c: Capture, now: Millis, draws: Draws)
    requires Owns(e, lease) && IsComplete(e, lease, c)
    ensures var f := Logged(e, lease, c, now, draws); lease.attempt in f.attempts && f.attempts[lease.attempt].state.Captured?
  {
    hide Written, Verdict, Reconciled;
  }

  lemma StillFresh(d: Db, e: Db, w1: Draws, w2: Draws)
    requires FreshDraws(d, w2) && e.artifacts.Keys == d.artifacts.Keys + {w1.text}
    requires w1.text !in {w2.text, w2.summary, w2.ranking, w2.manifest}
    ensures FreshDraws(e, w2)
  {
    assert forall id :: id in e.artifacts <==> id in d.artifacts || id == w1.text;
  }

  /** The scenario can happen to every accepted synthesis and critique: save the text cut off, then capture the whole
      text. Both are accepted, and the stages that follow read the text that was cut off. */
  lemma EveryInterruptionShowsIt(d: Db, lease: Lease, t1: Millis, w1: Draws, t2: Millis, w2: Draws)
    requires Valid(d) && MayBeInterrupted(d, lease, t1) && MayBeInterrupted(d, lease, t2) && t1 < t2
    requires FreshDraws(d, w1) && FreshDraws(d, w2) && w1.text !in {w2.text, w2.summary, w2.ranking, w2.manifest}
    ensures var turn := d.attempts[lease.attempt].turn.value;
            var first := StoreCapture(d, lease, Response(turn, "cut off"), t1, false, w1);
            var second := StoreCapture(first.db, lease, Response(turn, "whole"), t2, true, w2);
            && first.reply.Ok? && second.reply.Ok? && lease.run in second.db.runs
            && EarlierStage(second.db, lease.run, lease.stage) == Given(w1.text)
            && w1.text in second.db.artifacts && second.db.artifacts[w1.text].content == Markdown("cut off")
            && lease.attempt in second.db.attempts && second.db.attempts[lease.attempt].state.Captured?
  {
    var turn := d.attempts[lease.attempt].turn.value;
    hide Valid, StoreCapture, Owns, FreshDraws, EarlierStage, Blank;
    var e := StoreCapture(d, lease, Response(turn, "cut off"), t1, false, w1).db;
    Interrupted(d, lease, t1, w1);
    StillFresh(d, e, w1, w2);
    NotBlank();
    CapturedLater(e, lease, t2, w2);
    PartialTextIsHandedOn(d, lease, Response(turn, "cut off"), t1, w1, Response(turn, "whole"), t2, w2);
  }

  lemma OwnedStage(e: Db, lease: Lease, c: Capture, now: Millis, draws: Draws)
    requires StoreCapture(e, lease, c, now, true, draws).reply.Ok?
    ensures Owns(e, lease) && lease.run == lease.attempt.run && lease.run in e.runs
    ensures lease.attempt.task < |e.runs[lease.run].tasks|
    ensures e.runs[lease.run].tasks[lease.attempt.task].stage == lease.stage
  {
    hide StoreFinal, Timed, FreshDraws, SameTurn;
  }

  lemma StageOfRun(e: Db, f: Db, k: AttemptId)
    requires Good(e, f) && k.run in e.runs && k.task < |e.runs[k.run].tasks|
    ensures k.run in f.runs && k.task < |f.runs[k.run].tasks|
    ensures f.runs[k.run].tasks[k.task].stage == e.runs[k.run].tasks[k.task].stage
  {
    assert RunEvolves(e.runs[k.run], f.runs[k.run]);
    assert TaskEvolves(e.runs[k.run].tasks[k.task], f.runs[k.run].tasks[k.task]);
  }

  lemma CapturedStageOf(d: Db, k: AttemptId)
    requires Valid(d) && k in d.attempts && d.attempts[k].state.Captured?
    requires k.run in d.runs && k.task < |d.runs[k.run].tasks| && !d.runs[k.run].tasks[k.task].stage.Explore?
    ensures DoneTask(d.runs[k.run].tasks, d.runs[k.run].tasks[k.task].stage) == Some(k.task)
    ensures LatestCaptured(d, k.run, k.task, d.runs[k.run].tasks[k.task].attempts) == Some(k)
  {
    hide RunsOk, AttemptsOk, ReservationsOk, CapacityOk, AccountsOk, LogOk, PacingOk, BudgetOk, ArtifactsOk;
    CapturedStage(d, k);
  }
}
