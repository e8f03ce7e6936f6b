/** The transactions and queries of crates/jailgun-workflow/src/artifacts.rs. */
module Artifacts {
  import opened Text
  import opened Tables
  import opened Ordering
  import opened Scheduler
  import Ranking

  datatype Capture = Capture(
    markdown: string, summary: Option<Summary>, evaluations: Option<seq<Ranking.Evaluation>>,
    conversation: string, url: string, model: string, complete: bool, error: Option<Code>)

  // ---------- Validation ----------

  predicate AllFilled(items: seq<string>) {
    items != [] && forall i | 0 <= i < |items| :: !Blank(items[i])
  }

  function SummaryError(s: Summary): Option<Code> {
    if Blank(s.proposal) || !AllFilled(s.strengths) || !AllFilled(s.weaknesses) || !AllFilled(s.assumptions) || !AllFilled(s.nextSteps)
    then Some(InvalidSummary)
    else if s.jsonChars > SUMMARY_CHAR_LIMIT then Some(ContextTooLarge)
    else None
  }

  /** Positions of the completed candidates, in order. */
  function Included(tasks: seq<Task>): seq<nat> {
    if tasks == [] then []
    else Included(tasks[..|tasks| - 1])
         + if tasks[|tasks| - 1].stage.Explore? && tasks[|tasks| - 1].status.Done? then [tasks[|tasks| - 1].position] else []
  }

  function RankingFor(run: Run, c: Capture): Option<seq<Ranking.Ranked>> {
    if c.evaluations.None? then None
    else Ranking.RankOf(c.evaluations.value, run.request.criteria, Included(run.tasks))
  }

  /** Why a response cannot complete its stage; nothing when it can. */
  function CaptureError(run: Run, stage: Stage, c: Capture): Option<Code> {
    if !c.complete then Some(GenerationInterrupted)
    else if Blank(c.markdown) then Some(EmptyResponse)
    else if run.model.Specific? && c.model != run.model.name then Some(ModelMismatch)
    else if stage.Explore? && c.summary.None? then Some(InvalidSummary)
    else if stage.Explore? then SummaryError(c.summary.value)
    else if stage.Compare? && RankingFor(run, c).None? then Some(InvalidEvaluation)
    else None
  }

  /** A response without its own error is cut off by the run deadline or the response timeout. */
  function Timed(run: Run, attempt: Attempt, c: Capture, now: Millis): Capture {
    var timedOut := attempt.accepted.Some? && SatSub(now, attempt.accepted.value) >= RESPONSE_TIMEOUT_MS;
    if c.error.Some? then c
    else if now >= run.deadline then c.(error := Some(RunDeadline), complete := false)
    else if timedOut then c.(error := Some(ResponseTimeout), complete := false)
    else c
  }

  /** The error that decides the attempt: the adapter's own, or else the validation's. */
  function Verdict(run: Run, stage: Stage, c: Capture): Option<Code> {
    if c.error.Some? then c.error else CaptureError(run, stage, c)
  }

  /** The response belongs to the conversation and model accepted for the attempt. */
  predicate SameTurn(attempt: Attempt, c: Capture) {
    attempt.turn.Some? && attempt.turn.value.conversation == c.conversation
    && attempt.turn.value.model == c.model && attempt.turn.value.url == c.url
  }

  // ---------- Storing a response ----------

  /** Artifact identifiers drawn for one capture. */
  datatype Draws = Draws(text: Id, summary: Id, ranking: Id, manifest: Id)

  predicate FreshDraws(db: Db, d: Draws) {
    && d.text !in db.artifacts && d.summary !in db.artifacts && d.ranking !in db.artifacts && d.manifest !in db.artifacts
    && d.text != d.summary && d.text != d.ranking && d.text != d.manifest
    && d.summary != d.ranking && d.summary != d.manifest && d.ranking != d.manifest
  }

  function TextName(stage: Stage, position: nat): ArtifactName {
    match stage
    case Explore => CandidateText(position)
    case Revise => FinalText
    case _ => StageText(stage)
  }

  function AddArtifact(db: Db, id: Id, a: Artifact): Db {
    db.(artifacts := db.artifacts[id := a])
  }

  function WriteText(db: Db, lease: Lease, c: Capture, complete: bool, now: Millis, d: Draws): Db {
    if Blank(c.markdown) then db
    else AddArtifact(db, d.text,
                     Artifact(lease.run, Some(lease.attempt), TextName(lease.stage, lease.position), Markdown(c.markdown), complete, now))
  }

  /** The structured results of a complete response. */
  function WriteStructured(db: Db, lease: Lease, c: Capture, now: Millis, d: Draws): Db
    requires lease.run in db.runs && lease.attempt.task < |db.runs[lease.run].tasks|
  {
    var run := db.runs[lease.run];
    var summarised :=
      if c.summary.None? then db
      else
        var task := run.tasks[lease.attempt.task].(summary := c.summary);
        SetRun(AddArtifact(db, d.summary,
                           Artifact(lease.run, Some(lease.attempt), SummaryFile(lease.position), SummaryJson(c.summary.value), true, now)),
               lease.run, SetTask(run, lease.attempt.task, task));
    if lease.stage.Compare? && RankingFor(run, c).Some? then
      AddArtifact(summarised, d.ranking,
                  Artifact(lease.run, Some(lease.attempt), ComparisonFile, RankingJson(RankingFor(run, c).value), true, now))
    else summarised
  }

  function ForceMismatchPause(db: Db, r: Id, before: RunStatus, error: Option<Code>): Db
    requires r in db.runs
  {
    if error == Some(ModelMismatch) && !Terminal(before)
    then SetRun(db, r, db.runs[r].(status := Paused, pauseReason := Some(ModelMismatch)))
    else db
  }

  function ClearRateLimits(db: Db, a: Id): Db {
    if a in db.accounts && db.accounts[a].readiness.Ready?
    then db.(accounts := db.accounts[a := db.accounts[a].(rateLimits := 0)])
    else db
  }

  function ExcludedPositions(tasks: seq<Task>): seq<nat> {
    if tasks == [] then []
    else ExcludedPositions(tasks[..|tasks| - 1])
         + if tasks[|tasks| - 1].status.Excluded? then [tasks[|tasks| - 1].position] else []
  }

  /** Publishes the manifest and completes the run. */
  function Finish(db: Db, r: Id, now: Millis, d: Draws): Db
    requires r in db.runs
  {
    var run := db.runs[r];
    var manifest := Artifact(r, None, ManifestFile, Manifest(Some(d.text), ExcludedPositions(run.tasks)), true, now);
    Log(SetRun(AddArtifact(db, d.manifest, manifest), r, run.(status := Completed, pauseReason := None)), r, RunFinished, now)
  }

  function FinalState(complete: bool, c: Capture): AttemptState {
    if complete then Captured else if Blank(c.markdown) then Abandoned else CapturedPartly
  }

  function FinalStatus(s: AttemptState): TaskStatus {
    if s.Captured? then Done else if s.CapturedPartly? then Partial else Broken
  }

  /** A response whose generation is over: the attempt ends and releases its reservation. */
  function StoreFinal(db: Db, lease: Lease, c: Capture, now: Millis, d: Draws): Db
    requires Owns(db, lease)
  {
    var run := db.runs[lease.run];
    var error := Verdict(run, lease.stage, c);
    var complete := c.complete && error.None?;
    var state := FinalState(complete, c);
    var retryable := c.complete && c.error.None? && !complete && error != Some(ModelMismatch);
    var status := if retryable && run.tasks[lease.attempt.task].attempts < 2 && !run.status.Cancelled? then Todo else FinalStatus(state);
    var ended := db.attempts[lease.attempt].(state := state, completed := Some(now), error := error, retryable := retryable);
    var text := WriteText(db, lease, c, complete, now, d);
    var written := if complete then WriteStructured(text, lease, c, now, d) else text;
    var released := Settle(Release(written, lease, ended, status, error), lease.run, now);
    var paused := ForceMismatchPause(released, lease.run, run.status, error);
    var cleared := if complete then ClearRateLimits(paused, lease.account) else paused;
    var logged := Log(cleared, lease.run, ResponseCaptured(lease.attempt), now);
    if complete && lease.stage.Revise? && !run.status.Cancelled? then Finish(logged, lease.run, now, d) else logged
  }

  /** Text saved while ownership of the conversation is unresolved: the reservation stays. */
  function StorePartial(db: Db, lease: Lease, c: Capture, now: Millis, d: Draws): Db
    requires Owns(db, lease)
  {
    var error := Verdict(db.runs[lease.run], lease.stage, c);
    var held := db.attempts[lease.attempt].(state := Uncertain, completed := Some(now), error := error, retryable := false);
    Log(Suspect(WriteText(db, lease, c, false, now, d), lease, held, error), lease.run, ResponseCaptured(lease.attempt), now)
  }

  function StoreCapture(db: Db, lease: Lease, capture: Capture, now: Millis, release: bool, d: Draws): Outcome {
    if !FreshDraws(db, d) then Refuse(db, StorageError)
    else if !Owns(db, lease) then Refuse(db, OwnershipMismatch)
    else
      var attempt := db.attempts[lease.attempt];
      var given := if release then capture else capture.(complete := false);
      var c := Timed(db.runs[lease.run], attempt, given, now);
      if !(attempt.state.Accepted? || attempt.state.Uncertain?) then Refuse(db, InvalidTransition)
      else if !SameTurn(attempt, c) then Refuse(db, CaptureOwnershipMismatch)
      else Outcome(if release then StoreFinal(db, lease, c, now, d) else StorePartial(db, lease, c, now, d), Ok)
  }

  // ---------- Reading back ----------

  /** Highest attempt number of the task, at most n, whose response was captured completely. */
  function LatestCaptured(db: Db, r: Id, i: nat, n: nat): (k: Option<AttemptId>)
    ensures k.Some? ==> k.value.run == r && k.value.task == i && 1 <= k.value.number <= n
    ensures k.Some? ==> k.value in db.attempts && db.attempts[k.value].state.Captured?
    ensures k.None? ==> forall m | 1 <= m <= n ::
                           !(AttemptId(r, i, m) in db.attempts && db.attempts[AttemptId(r, i, m)].state.Captured?)
  {
    if n == 0 then None
    else if AttemptId(r, i, n) in db.attempts && db.attempts[AttemptId(r, i, n)].state.Captured? then Some(AttemptId(r, i, n))
    else LatestCaptured(db, r, i, n - 1)
  }

  /** The row is one the search is after: its run, its name, its attempt, and completeness where that is asked for. */
  predicate Matches(a: Artifact, r: Id, name: ArtifactName, attempt: Option<AttemptId>, whole: bool) {
    a.run == r && a.name == name && (attempt.None? || a.attempt == attempt) && (whole ==> a.complete)
  }

  /** First matching artifact in listing order. */
  function FindArtifact(db: Db, r: Id, name: ArtifactName, attempt: Option<AttemptId>, whole: bool): (f: Option<Id>)
    ensures f.Some? ==> f.value in db.artifacts && Matches(db.artifacts[f.value], r, name, attempt, whole)
    ensures f.None? ==> forall id | id in db.artifacts :: !Matches(db.artifacts[id], r, name, attempt, whole)
  {
    var rows := set id | id in db.artifacts && Matches(db.artifacts[id], r, name, attempt, whole) :: Key(0, db.artifacts[id].created, id);
    var keys := Sorted(rows);
    assert forall id | id in db.artifacts && Matches(db.artifacts[id], r, name, attempt, whole) :: Key(0, db.artifacts[id].created, id) in rows;
    if keys == [] then None else assert keys[0] in keys; Some(keys[0].id)
  }

  /** First completed task of a stage. */
  function DoneTask(tasks: seq<Task>, stage: Stage): (i: Option<nat>)
    ensures i.Some? ==> i.value < |tasks| && tasks[i.value].stage == stage && tasks[i.value].status.Done?
    ensures i.None? ==> forall j | 0 <= j < |tasks| :: !(tasks[j].stage == stage && tasks[j].status.Done?)
  {
    if tasks == [] then None
    else if tasks[0].stage == stage && tasks[0].status.Done? then Some(0)
    else
      var rest := DoneTask(tasks[1..], stage);
      assert forall j | 0 < j < |tasks| :: tasks[j] == tasks[1..][j - 1];
      if rest.Some? then Some(rest.value + 1) else None
  }

  function HandoffName(stage: Stage): ArtifactName {
    if stage.Compare? then ComparisonFile else StageText(stage)
  }

  datatype Handoff = NoEarlierStage | Given(artifact: Id) | Missing

  /** What a later stage is given of an earlier one. */
  function EarlierStage(db: Db, r: Id, stage: Stage): Handoff
    requires r in db.runs
  {
    var i := DoneTask(db.runs[r].tasks, stage);
    if i.None? then NoEarlierStage
    else
      var k := LatestCaptured(db, r, i.value, db.runs[r].tasks[i.value].attempts);
      if k.None? then Missing
      else
        var f := FindArtifact(db, r, HandoffName(stage), k, false);
        if f.None? then Missing else Given(f.value)
  }

  /** The summaries of the included candidates, in order. */
  function Summaries(tasks: seq<Task>): seq<(nat, Option<Summary>)> {
    if tasks == [] then []
    else Summaries(tasks[..|tasks| - 1])
         + if tasks[|tasks| - 1].stage.Explore? && tasks[|tasks| - 1].status.Done?
           then [(tasks[|tasks| - 1].position, tasks[|tasks| - 1].summary)] else []
  }

  function EarlierStages(stage: Stage): seq<Stage> {
    match stage
    case Explore => []
    case Compare => []
    case Synthesize => [Compare]
    case Critique => [Compare, Synthesize]
    case Revise => [Compare, Synthesize, Critique]
  }

  /** The data a stage prompt is built from. */
  datatype Prompt = PromptRefused(code: Code) | PromptData(candidates: seq<(nat, Option<Summary>)>, earlier: map<Stage, Id>)

  function Collect(db: Db, r: Id, stages: seq<Stage>): Option<map<Stage, Id>>
    requires r in db.runs
  {
    if stages == [] then Some(map[])
    else
      var before := Collect(db, r, stages[..|stages| - 1]);
      var stage := stages[|stages| - 1];
      var handoff := EarlierStage(db, r, stage);
      if before.None? || handoff.Missing? then None
      else if handoff.NoEarlierStage? then before
      else Some(before.value[stage := handoff.artifact])
  }

  function PromptFor(db: Db, lease: Lease): Prompt {
    if lease.run !in db.runs then PromptRefused(NotFound)
    else if lease.task.run != lease.run || lease.task.task >= |db.runs[lease.run].tasks| then PromptRefused(NotFound)
    else
      var run := db.runs[lease.run];
      var task := run.tasks[lease.task.task];
      if task.stage.Explore? then PromptData([], map[])
      else
        var earlier := Collect(db, lease.run, EarlierStages(task.stage));
        if earlier.None? then PromptRefused(NotFound) else PromptData(Summaries(run.tasks), earlier.value)
  }

  datatype Result = ResultRefused(code: Code) | FinalResult(manifest: Id, final: Id)

  function ResultOf(db: Db, r: Id): Result {
    if r !in db.runs then ResultRefused(NotFound)
    else if !db.runs[r].status.Completed? then ResultRefused(ResultNotComplete)
    else
      var run := db.runs[r];
      var manifest := FindArtifact(db, r, ManifestFile, None, false);
      var revise := |run.tasks| - 1;
      if manifest.None? then ResultRefused(NotFound)
      else if revise < 0 || !run.tasks[revise].stage.Revise? then ResultRefused(StorageError)
      else
        var k := LatestCaptured(db, r, revise, run.tasks[revise].attempts);
        if k.None? then ResultRefused(StorageError)
        else
          var f := FindArtifact(db, r, FinalText, k, true);
          if f.None? then ResultRefused(NotFound) else FinalResult(manifest.value, f.value)
  }
}
