/** The whole effect of storing a response: when it completes its stage, and what becomes of everything else. */
module CaptureEffects {
  import opened Text
  import opened Tables
  import opened Scheduler
  import opened Artifacts
  import opened Invariant
  import opened Operations
  import opened CaptureOperations
  import opened LeaseTheorems
  import opened LeaseEffects
  import Ranking

  // ---------- When a response may complete its stage ----------

  /** Before the deadline of the run, and less than half an hour after the prompt was accepted. */
  predicate InTime(run: Run, attempt: Attempt, now: Millis) {
    now < run.deadline && (attempt.accepted.Some? ==> now - attempt.accepted.value < 1_800_000)
  }

  predicate AllWritten(items: seq<string>) { items != [] && forall i | 0 <= i < |items| :: Filled(items[i]) }

  predicate SummaryWritten(s: Summary) {
    Filled(s.proposal) && AllWritten(s.strengths) && AllWritten(s.weaknesses) && AllWritten(s.assumptions) && AllWritten(s.nextSteps)
  }

  /** These are the positions of the tasks with this status and stage, in ascending order. */
  ghost predicate ArePositions(q: seq<nat>, tasks: seq<Task>, status: TaskStatus) {
    && (forall i, j | 0 <= i < j < |q| :: q[i] < q[j])
    && forall p: nat :: p in q <==> exists i :: 0 <= i < |tasks| && tasks[i].stage.Explore? && tasks[i].status == status && tasks[i].position == p
  }

  /** The evaluations rank exactly the completed candidates. */
  ghost predicate RanksCandidates(run: Run, c: Capture) {
    c.evaluations.Some? && exists q :: ArePositions(q, run.tasks, Done) && Ranking.Complete(c.evaluations.value, run.request.criteria, q)
  }

  /** The response completes its stage: it came whole and in time, from the model asked for, with what its stage needs. */
  ghost predicate Passes(run: Run, stage: Stage, attempt: Attempt, c: Capture, now: Millis) {
    && c.complete && c.error.None? && InTime(run, attempt, now) && Filled(c.markdown)
    && (run.model.Specific? ==> c.model == run.model.name)
    && (stage.Explore? ==> c.summary.Some? && SummaryWritten(c.summary.value) && c.summary.value.jsonChars <= 6_000)
    && (stage.Compare? ==> RanksCandidates(run, c))
  }

  /** The first thing that speaks against the response. */
  ghost function Objection(run: Run, stage: Stage, attempt: Attempt, c: Capture, now: Millis): Option<Code> {
    if c.error.Some? then c.error
    else if now >= run.deadline then Some(RunDeadline)
    else if !InTime(run, attempt, now) then Some(ResponseTimeout)
    else if !c.complete then Some(GenerationInterrupted)
    else if !Filled(c.markdown) then Some(EmptyResponse)
    else if run.model.Specific? && c.model != run.model.name then Some(ModelMismatch)
    else if stage.Explore? && !(c.summary.Some? && SummaryWritten(c.summary.value)) then Some(InvalidSummary)
    else if stage.Explore? && c.summary.value.jsonChars > 6_000 then Some(ContextTooLarge)
    else if stage.Compare? && !RanksCandidates(run, c) then Some(InvalidEvaluation)
    else None
  }

  lemma PassesIff(run: Run, stage: Stage, attempt: Attempt, c: Capture, now: Millis)
    ensures Passes(run, stage, attempt, c, now) <==> Objection(run, stage, attempt, c, now).None?
  {
    hide Filled, SummaryWritten, RanksCandidates;
  }

  // ---------- The positions of the candidates ----------

  lemma {:induction false} IncludedAre(tasks: seq<Task>)
    requires forall i | 0 <= i < |tasks| && tasks[i].stage.Explore? :: tasks[i].position == i + 1
    ensures ArePositions(Included(tasks), tasks, Done)
    ensures forall p | p in Included(tasks) :: p <= |tasks|
  {
    if tasks != [] {
      var n := |tasks| - 1;
      IncludedAre(tasks[..n]);
      PositionsOneMore(Included(tasks[..n]), tasks, Done);
      hide Included, ArePositions;
      assert Included(tasks) == Included(tasks[..n]) + (if tasks[n].stage.Explore? && tasks[n].status.Done? then [tasks[n].position] else []) by {
        IncludedLast(tasks);
      }
    }
  }

  lemma IncludedLast(tasks: seq<Task>)
    requires tasks != []
    ensures var n := |tasks| - 1;
            Included(tasks) == Included(tasks[..n]) + (if tasks[n].stage.Explore? && tasks[n].status.Done? then [tasks[n].position] else [])
  {
  }

  lemma PositionsOneMore(q: seq<nat>, tasks: seq<Task>, status: TaskStatus)
    requires tasks != [] && (forall i | 0 <= i < |tasks| && tasks[i].stage.Explore? :: tasks[i].position == i + 1)
    requires ArePositions(q, tasks[..|tasks| - 1], status) && forall p | p in q :: p <= |tasks| - 1
    ensures var n := |tasks| - 1;
            var more := q + if tasks[n].stage.Explore? && tasks[n].status == status then [tasks[n].position] else [];
            ArePositions(more, tasks, status) && forall p | p in more :: p <= |tasks|
  {
    var n := |tasks| - 1;
    var before := tasks[..n];
    assert forall i | 0 <= i < n :: before[i] == tasks[i];
    var last := tasks[n].stage.Explore? && tasks[n].status == status;
    var more := q + if last then [tasks[n].position] else [];
    assert forall p: nat :: p in more <==> p in q || (last && p == tasks[n].position);
    forall i | 0 <= i < |tasks| && tasks[i].stage.Explore? && tasks[i].status == status ensures tasks[i].position in more {
      if i < n { assert before[i].stage.Explore? && before[i].status == status && before[i].position == tasks[i].position; }
    }
    forall p: nat | p in more
      ensures exists i :: 0 <= i < |tasks| && tasks[i].stage.Explore? && tasks[i].status == status && tasks[i].position == p
    {
      if p in q {
        var i :| 0 <= i < n && before[i].stage.Explore? && before[i].status == status && before[i].position == p;
        assert tasks[i].stage.Explore? && tasks[i].status == status && tasks[i].position == p;
      }
    }
    forall i, j | 0 <= i < j < |more| ensures more[i] < more[j] {
      if j == |q| { assert q[i] in q; }
    }
  }

  /** There is only one such list. */
  lemma {:induction false} PositionsUnique(q: seq<nat>, s: seq<nat>)
    requires (forall i, j | 0 <= i < j < |q| :: q[i] < q[j]) && (forall i, j | 0 <= i < j < |s| :: s[i] < s[j])
    requires forall p: nat :: p in q <==> p in s
    ensures q == s
  {
    assert (q != [] ==> q[0] in q) && (s != [] ==> s[0] in s);
    if q != [] && s != [] {
      assert q[0] in s && s[0] in q;
      assert q[0] == s[0];
      forall p: nat ensures p in q[1..] <==> p in s[1..] {
        assert p in q <==> p == q[0] || p in q[1..];
        assert p in s <==> p == s[0] || p in s[1..];
      }
      PositionsUnique(q[1..], s[1..]);
    }
  }

  // ---------- The verdict ----------

  lemma CandidatesAre(run: Run)
    requires RunOk(run)
    ensures ArePositions(Included(run.tasks), run.tasks, Done)
  {
    assert forall i | 0 <= i < |run.tasks| && run.tasks[i].stage.Explore? :: run.tasks[i].position == i + 1;
    hide RunOk;
    IncludedAre(run.tasks);
  }

  lemma RanksIff(run: Run, c: Capture)
    requires RunOk(run)
    ensures RankingFor(run, c).Some? <==> RanksCandidates(run, c)
    ensures RankingFor(run, c).Some? ==> Ranking.IsRanking(RankingFor(run, c), c.evaluations.value, run.request.criteria, Included(run.tasks))
  {
    CandidatesAre(run);
    hide RunOk, Included, Ranking.Complete;
    if RanksCandidates(run, c) {
      var q :| ArePositions(q, run.tasks, Done) && Ranking.Complete(c.evaluations.value, run.request.criteria, q);
      SamePositions(q, Included(run.tasks), run.tasks, Done);
    }
    if RankingFor(run, c).Some? {
      assert Ranking.Complete(c.evaluations.value, run.request.criteria, Included(run.tasks));
    }
  }

  lemma SamePositions(q: seq<nat>, s: seq<nat>, tasks: seq<Task>, status: TaskStatus)
    requires ArePositions(q, tasks, status) && ArePositions(s, tasks, status)
    ensures q == s
  {
    assert forall p: nat :: p in q <==> p in s;
    PositionsUnique(q, s);
  }

  lemma AllWrittenIff(items: seq<string>)
    ensures AllFilled(items) <==> AllWritten(items)
  {
    forall i | 0 <= i < |items| ensures Filled(items[i]) <==> !Blank(items[i]) { FilledIff(items[i]); }
    hide Filled, Blank;
  }

  lemma SummaryErrorIs(s: Summary)
    ensures SummaryError(s)
            == if !SummaryWritten(s) then Some(InvalidSummary) else if s.jsonChars > 6_000 then Some(ContextTooLarge) else None
  {
    FilledIff(s.proposal);
    AllWrittenIff(s.strengths);
    AllWrittenIff(s.weaknesses);
    AllWrittenIff(s.assumptions);
    AllWrittenIff(s.nextSteps);
    hide Filled, Blank, AllFilled, AllWritten;
  }

  lemma TimedIs(run: Run, attempt: Attempt, c: Capture, now: Millis)
    ensures Timed(run, attempt, c, now)
            == if c.error.Some? || InTime(run, attempt, now) then c
               else c.(complete := false, error := Some(if now >= run.deadline then RunDeadline else ResponseTimeout))
  {
  }

  /** The verdict on a response is the first objection to it. */
  lemma VerdictIs(run: Run, stage: Stage, attempt: Attempt, c: Capture, now: Millis)
    requires RunOk(run)
    ensures var t := Timed(run, attempt, c, now);
            && Verdict(run, stage, t) == Objection(run, stage, attempt, c, now)
            && (t.complete && Verdict(run, stage, t).None? <==> Objection(run, stage, attempt, c, now).None?)
            && t.markdown == c.markdown && t.summary == c.summary && t.evaluations == c.evaluations
  {
    var t := Timed(run, attempt, c, now);
    TimedIs(run, attempt, c, now);
    FilledIff(c.markdown);
    if c.summary.Some? { SummaryErrorIs(c.summary.value); }
    RanksIff(run, t);
    hide RunOk, Timed, Filled, Blank, SummaryWritten, SummaryError, RankingFor, Ranking.Complete, ArePositions, Ranking.IsRanking;
    assert RanksCandidates(run, t) <==> RanksCandidates(run, c);
    hide RanksCandidates;
  }

  // ---------- A capture that ends its attempt ----------

  predicate Over(s: RunStatus) { s.Completed? || s.Cancelled? || s.Failed? }

  /** The response may be asked for once more by the scheduler itself. */
  predicate Again(run: Run, attempt: Attempt, c: Capture, now: Millis, objection: Option<Code>) {
    c.complete && c.error.None? && InTime(run, attempt, now) && objection.Some? && objection != Some(ModelMismatch)
  }

  function EndState(c: Capture, objection: Option<Code>): AttemptState {
    if objection.None? then Captured else if Filled(c.markdown) then CapturedPartly else Abandoned
  }

  function EndTask(run: Run, task: Task, attempt: Attempt, c: Capture, now: Millis, objection: Option<Code>): Task {
    var status :=
      if objection.None? then Done
      else if Again(run, attempt, c, now, objection) && task.attempts < 2 && !run.status.Cancelled? then Todo
      else if Filled(c.markdown) then Partial else Broken;
    task.(status := status, error := objection, summary := if objection.None? && c.summary.Some? then c.summary else task.summary)
  }

  /** The run after a response: led back from a reconciliation by its last reservation, paused when the model was another
      one, completed by its revision. */
  function EndRun(run: Run, i: nat, stage: Stage, attempt: Attempt, c: Capture, now: Millis, objection: Option<Code>, last: bool): Run
    requires i < |run.tasks|
  {
    var led := LedBack(run.(tasks := run.tasks[i := EndTask(run, run.tasks[i], attempt, c, now, objection)]), last);
    if objection == Some(ModelMismatch) && !Over(run.status) then led.(status := Paused, pauseReason := Some(ModelMismatch))
    else if objection.None? && stage.Revise? && !run.status.Cancelled? then led.(status := Completed, pauseReason := None)
    else led
  }

  lemma WrittenRows(d: Db, lease: Lease, c: Capture, complete: bool, now: Millis, draws: Draws)
    requires Owns(d, lease)
    ensures var w := Written(d, lease, c, complete, now, draws);
            var run := d.runs[lease.run];
            var task := run.tasks[lease.attempt.task];
            w == d.(artifacts := w.artifacts,
                    runs := d.runs[lease.run := run.(tasks := run.tasks[lease.attempt.task :=
                              task.(summary := if complete && c.summary.Some? then c.summary else task.summary)])])
  {
    TextKeepsRows(d, lease, c, complete, now, draws);
    var run := d.runs[lease.run];
    assert run.(tasks := run.tasks[lease.attempt.task := run.tasks[lease.attempt.task]]) == run;
    assert d.runs[lease.run := run] == d.runs;
    hide WriteText, RankingFor;
  }

  lemma WrittenIsOwned(d: Db, lease: Lease, c: Capture, complete: bool, now: Millis, draws: Draws)
    requires Owns(d, lease)
    ensures Owns(Written(d, lease, c, complete, now, draws), lease)
    ensures IsLast(Written(d, lease, c, complete, now, draws), lease) <==> IsLast(d, lease)
  {
    WrittenRows(d, lease, c, complete, now, draws);
    hide Written;
  }

  /** What the end of the attempt writes, in terms of the objection. */
  lemma EndedIs(d: Db, lease: Lease, capture: Capture, now: Millis)
    requires Valid(d) && Owns(d, lease)
    ensures var run, a := d.runs[lease.run], d.attempts[lease.attempt];
            var c := Timed(run, a, capture, now);
            var o := Objection(run, lease.stage, a, capture, now);
            var r := Ended(d, lease, c, now);
            && IsComplete(d, lease, c) == o.None? && r.2 == o
            && r.0 == a.(state := EndState(capture, o), completed := Some(now), error := o, retryable := Again(run, a, capture, now, o))
            && r.1 == EndTask(run, run.tasks[lease.attempt.task], a, capture, now, o).status
            && c.markdown == capture.markdown && c.summary == capture.summary
  {
    hide Valid;
    RunIsOk(d, lease.run);
    var run, a := d.runs[lease.run], d.attempts[lease.attempt];
    VerdictIs(run, lease.stage, a, capture, now);
    TimedIs(run, a, capture, now);
    FilledIff(capture.markdown);
    hide RunOk, Verdict, Objection, Timed, Filled, Blank, Owns;
  }

  lemma MismatchIs(d: Db, r: Id, before: RunStatus, error: Option<Code>)
    requires r in d.runs
    ensures ForceMismatchPause(d, r, before, error)
            == if error == Some(ModelMismatch) && !Over(before)
               then d.(runs := d.runs[r := d.runs[r].(status := Paused, pauseReason := Some(ModelMismatch))]) else d
  {
  }

  /** The end of an attempt after a summary was written to its task. */
  lemma ReleaseAfterWriting(d: Db, w: Db, lease: Lease, attempt: Attempt, task: Task, now: Millis)
    requires Owns(d, lease) && Owns(w, lease) && (IsLast(w, lease) <==> IsLast(d, lease))
    requires task == d.runs[lease.run].tasks[lease.attempt.task].(status := task.status, error := task.error, summary := task.summary)
    requires var run, i := d.runs[lease.run], lease.attempt.task;
             w == d.(artifacts := w.artifacts,
                     runs := d.runs[lease.run := run.(tasks := run.tasks[i := run.tasks[i].(summary := task.summary)])])
    ensures Joined(w, lease.attempt) && lease.run == lease.attempt.run
    ensures var run, i := d.runs[lease.run], lease.attempt.task;
            var led := LedBack(run.(tasks := run.tasks[i := task]), IsLast(d, lease));
            ForceMismatchPause(Settle(Release(w, lease, attempt, task.status, task.error), lease.run, now), lease.run, run.status, task.error)
            == d.(attempts := d.attempts[lease.attempt := attempt], reservations := d.reservations - {lease.reservation},
                  runs := d.runs[lease.run := if task.error == Some(ModelMismatch) && !Over(run.status)
                                              then led.(status := Paused, pauseReason := Some(ModelMismatch)) else led],
                  artifacts := w.artifacts,
                  events := d.events + if run.status.Reconciling? && IsLast(d, lease) then [Event(lease.run, ReconciliationFinished, now)] else [])
  {
    var run, i := d.runs[lease.run], lease.attempt.task;
    OwnedJoin(w, lease);
    hide IsLast, Over, Settle, ForceMismatchPause, WithTask, Release;
    ReleasedRows(w, lease, attempt, task.status, task.error, now);
    var f := Settle(Release(w, lease, attempt, task.status, task.error), lease.run, now);
    MismatchIs(f, lease.run, run.status, task.error);
    SameTask(run, i, task.status, task.error, task);
    hide Owns;
  }

  /** The rows before the log entry and the completion of the run. */
  lemma EndedRowsAre(d: Db, lease: Lease, capture: Capture, now: Millis, draws: Draws)
    requires Valid(d) && Owns(d, lease)
    ensures var run, a, i := d.runs[lease.run], d.attempts[lease.attempt], lease.attempt.task;
            var c := Timed(run, a, capture, now);
            var o := Objection(run, lease.stage, a, capture, now);
            var led := LedBack(run.(tasks := run.tasks[i := EndTask(run, run.tasks[i], a, capture, now, o)]), IsLast(d, lease));
            EndedRows(d, lease, c, now, draws)
            == d.(attempts := d.attempts[lease.attempt := a.(
                    state := EndState(capture, o), completed := Some(now), error := o, retryable := Again(run, a, capture, now, o))],
                  reservations := d.reservations - {lease.reservation},
                  runs := d.runs[lease.run := if o == Some(ModelMismatch) && !Over(run.status)
                                              then led.(status := Paused, pauseReason := Some(ModelMismatch)) else led],
                  artifacts := Written(d, lease, c, o.None?, now, draws).artifacts,
                  events := d.events + if run.status.Reconciling? && IsLast(d, lease) then [Event(lease.run, ReconciliationFinished, now)] else [])
  {
    var run, a, i := d.runs[lease.run], d.attempts[lease.attempt], lease.attempt.task;
    var c := Timed(run, a, capture, now);
    var o := Objection(run, lease.stage, a, capture, now);
    hide Valid, Timed, Objection, Written, IsComplete, Ended, Settle, ForceMismatchPause, Again, EndState, Over, IsLast, Release,
      LedBack;
    EndedIs(d, lease, capture, now);
    WrittenRows(d, lease, c, o.None?, now, draws);
    WrittenIsOwned(d, lease, c, o.None?, now, draws);
    ReleaseAfterWriting(d, Written(d, lease, c, o.None?, now, draws), lease, Ended(d, lease, c, now).0,
                        EndTask(run, run.tasks[i], a, capture, now, o), now);
  }

  /** First the summary and then the status, or both at once. */
  lemma SameTask(run: Run, i: nat, status: TaskStatus, error: Option<Code>, task: Task)
    requires i < |run.tasks| && task == run.tasks[i].(status := status, error := error, summary := task.summary)
    ensures WithTask(run.(tasks := run.tasks[i := run.tasks[i].(summary := task.summary)]), i, status, error)
            == run.(tasks := run.tasks[i := task])
  {
  }

  /** A response is taken from the owner of an accepted or uncertain attempt, for the conversation and model accepted. */
  lemma CaptureIsAccepted(d: Db, lease: Lease, capture: Capture, now: Millis, release: bool, draws: Draws)
    requires Valid(d) && FreshDraws(d, draws)
    ensures var o := StoreCapture(d, lease, capture, now, release, draws);
            && (!o.reply.Ok? ==> o.reply.Refused? && o.db == d)
            && (o.reply.Refused? ==>
                  o.reply.code ==
                  if !Owns(d, lease) then OwnershipMismatch
                  else if lease.attempt in d.attempts && (d.attempts[lease.attempt].state.Accepted? || d.attempts[lease.attempt].state.Uncertain?)
                  then CaptureOwnershipMismatch else InvalidTransition)
            && (o.reply.Ok? <==>
                  && Owns(d, lease) && lease.attempt in d.attempts
                  && (d.attempts[lease.attempt].state.Accepted? || d.attempts[lease.attempt].state.Uncertain?)
                  && d.attempts[lease.attempt].turn.Some?
                  && d.attempts[lease.attempt].turn.value.conversation == capture.conversation
                  && d.attempts[lease.attempt].turn.value.url == capture.url && d.attempts[lease.attempt].turn.value.model == capture.model)
  {
    hide Valid, Owns, StoreFinal, StorePartial, FreshDraws;
    if Owns(d, lease) {
      OwnedRows(d, lease);
      TimedKeeps(d.runs[lease.run], d.attempts[lease.attempt], if release then capture else capture.(complete := false), now);
    }
  }

  lemma TimedKeeps(run: Run, attempt: Attempt, c: Capture, now: Millis)
    ensures var t := Timed(run, attempt, c, now); t == c.(complete := t.complete, error := t.error)
  {
  }

  /** A response that ends its attempt: what becomes of the attempt, its task, its run, its reservation and its account.
      The attempt is captured exactly when the response passes, and nothing but artifacts is written beside this. */
  lemma CaptureEffect(d: Db, lease: Lease, capture: Capture, now: Millis, draws: Draws)
    requires Valid(d) && StoreCapture(d, lease, capture, now, true, draws).reply.Ok?
    ensures lease.run in d.runs && lease.attempt.task < |d.runs[lease.run].tasks| && lease.attempt in d.attempts && lease.account in d.accounts
    ensures var e := StoreCapture(d, lease, capture, now, true, draws).db;
            var run, a := d.runs[lease.run], d.attempts[lease.attempt];
            var o := Objection(run, lease.stage, a, capture, now);
            && (o.None? <==> Passes(run, lease.stage, a, capture, now))
            && e == d.(attempts := d.attempts[lease.attempt := a.(
                         state := EndState(capture, o), completed := Some(now), error := o, retryable := Again(run, a, capture, now, o))],
                       reservations := d.reservations - {lease.reservation},
                       runs := d.runs[lease.run := EndRun(run, lease.attempt.task, lease.stage, a, capture, now, o, IsLast(d, lease))],
                       accounts := if o.None? && d.accounts[lease.account].readiness.Ready?
                                   then d.accounts[lease.account := d.accounts[lease.account].(rateLimits := 0)] else d.accounts,
                       artifacts := e.artifacts,
                       events := d.events
                         + (if run.status.Reconciling? && IsLast(d, lease) then [Event(lease.run, ReconciliationFinished, now)] else [])
                         + [Event(lease.run, ResponseCaptured(lease.attempt), now)]
                         + if o.None? && lease.stage.Revise? && !run.status.Cancelled? then [Event(lease.run, RunFinished, now)] else [])
  {
    hide Valid, StoreCapture, Owns, Timed, Objection, Passes, EndedRows, IsLast, Again, EndState, EndTask, Over, LedBack, IsComplete;
    FinalOwned(d, lease, capture, now, draws);
    OwnedRows(d, lease);
    var run, a := d.runs[lease.run], d.attempts[lease.attempt];
    var c := Timed(run, a, capture, now);
    PassesIff(run, lease.stage, a, capture, now);
    EndedIs(d, lease, capture, now);
    EndedRowsAre(d, lease, capture, now, draws);
    StoreFinalIs(d, lease, c, now, draws);
    hide StoreFinal, Written;
  }

  lemma FinalOwned(d: Db, lease: Lease, capture: Capture, now: Millis, draws: Draws)
    requires StoreCapture(d, lease, capture, now, true, draws).reply.Ok?
    ensures Owns(d, lease) && FreshDraws(d, draws)
    ensures StoreCapture(d, lease, capture, now, true, draws).db
            == StoreFinal(d, lease, Timed(d.runs[lease.run], d.attempts[lease.attempt], capture, now), now, draws)
  {
    hide Timed, FreshDraws, StoreFinal;
  }

  // ---------- What is stored ----------

  function NameOf(lease: Lease): ArtifactName {
    if lease.stage.Explore? then CandidateText(lease.position)
    else if lease.stage.Revise? then FinalText else StageText(lease.stage)
  }

  /** The text, complete or not. */
  function TextStored(lease: Lease, c: Capture, complete: bool, now: Millis, draws: Draws): map<Id, Artifact> {
    if Filled(c.markdown)
    then map[draws.text := Artifact(lease.run, Some(lease.attempt), NameOf(lease), Markdown(c.markdown), complete, now)]
    else map[]
  }

  function SummaryStored(lease: Lease, c: Capture, now: Millis, draws: Draws): map<Id, Artifact> {
    if c.summary.Some?
    then map[draws.summary := Artifact(lease.run, Some(lease.attempt), SummaryFile(lease.position), SummaryJson(c.summary.value), true, now)]
    else map[]
  }

  function RankingStored(lease: Lease, rows: seq<Ranking.Ranked>, now: Millis, draws: Draws): map<Id, Artifact> {
    if lease.stage.Compare?
    then map[draws.ranking := Artifact(lease.run, Some(lease.attempt), ComparisonFile, RankingJson(rows), true, now)]
    else map[]
  }

  /** The structured results of a response that passes. */
  function ResultsStored(lease: Lease, c: Capture, rows: seq<Ranking.Ranked>, now: Millis, draws: Draws): map<Id, Artifact> {
    SummaryStored(lease, c, now, draws) + RankingStored(lease, rows, now, draws)
  }

  /** The manifest of a run that this response completes: its final text, and the candidates that were given up. */
  function ManifestStored(lease: Lease, excluded: seq<nat>, now: Millis, draws: Draws): map<Id, Artifact> {
    map[draws.manifest := Artifact(lease.run, None, ManifestFile, Manifest(Some(draws.text), excluded), true, now)]
  }

  lemma TextIsStored(d: Db, lease: Lease, c: Capture, complete: bool, now: Millis, draws: Draws)
    ensures WriteText(d, lease, c, complete, now, draws).artifacts == d.artifacts + TextStored(lease, c, complete, now, draws)
  {
    FilledIff(c.markdown);
    hide Filled, Blank;
    assert NameOf(lease) == TextName(lease.stage, lease.position);
    assert d.artifacts + map[] == d.artifacts;
  }

  lemma ResultsAreStored(d: Db, lease: Lease, c: Capture, rows: seq<Ranking.Ranked>, now: Millis, draws: Draws)
    requires lease.run in d.runs && lease.attempt.task < |d.runs[lease.run].tasks|
    requires lease.stage.Compare? ==> RankingFor(d.runs[lease.run], c) == Some(rows)
    ensures WriteStructured(d, lease, c, now, draws).artifacts == d.artifacts + ResultsStored(lease, c, rows, now, draws)
  {
    hide RankingFor;
    Join(d.artifacts, SummaryStored(lease, c, now, draws), RankingStored(lease, rows, now, draws));
  }

  lemma Join(a: map<Id, Artifact>, b: map<Id, Artifact>, c: map<Id, Artifact>)
    ensures a + (b + c) == (a + b) + c && a + map[] == a
    ensures forall id, x :: a + map[id := x] == a[id := x]
  {
  }

  lemma {:induction false} ExcludedAre(tasks: seq<Task>)
    requires forall i | 0 <= i < |tasks| && tasks[i].stage.Explore? :: tasks[i].position == i + 1
    requires forall i | 0 <= i < |tasks| && tasks[i].status.Excluded? :: tasks[i].stage.Explore?
    ensures ArePositions(ExcludedPositions(tasks), tasks, Excluded)
    ensures forall p | p in ExcludedPositions(tasks) :: p <= |tasks|
  {
    if tasks != [] {
      var n := |tasks| - 1;
      ExcludedAre(tasks[..n]);
      PositionsOneMore(ExcludedPositions(tasks[..n]), tasks, Excluded);
      hide ArePositions;
      ExcludedLast(tasks);
    }
  }

  lemma ExcludedLast(tasks: seq<Task>)
    requires tasks != []
    ensures var n := |tasks| - 1;
            ExcludedPositions(tasks) == ExcludedPositions(tasks[..n]) + (if tasks[n].status.Excluded? then [tasks[n].position] else [])
  {
  }

  lemma {:induction false} ExcludedSame(s: seq<Task>, t: seq<Task>)
    requires |s| == |t| && forall i | 0 <= i < |s| ::
               (s[i].status.Excluded? <==> t[i].status.Excluded?) && s[i].position == t[i].position
    ensures ExcludedPositions(s) == ExcludedPositions(t)
  {
    if s != [] { ExcludedSame(s[..|s| - 1], t[..|t| - 1]); }
  }

  /** The positions given up in a run. */
  lemma RunExcluded(run: Run)
    requires RunOk(run)
    ensures ArePositions(ExcludedPositions(run.tasks), run.tasks, Excluded)
  {
    forall i | 0 <= i < |run.tasks| && run.tasks[i].status.Excluded? ensures run.tasks[i].stage.Explore? {
      assert TaskOk(run.tasks[i], run.allowIncomplete);
    }
    assert forall i | 0 <= i < |run.tasks| && run.tasks[i].stage.Explore? :: run.tasks[i].position == i + 1;
    hide RunOk;
    ExcludedAre(run.tasks);
  }

  /** What the rows of a passing response hold before the manifest. */
  lemma WrittenIs(d: Db, lease: Lease, c: Capture, complete: bool, rows: seq<Ranking.Ranked>, now: Millis, draws: Draws)
    requires Owns(d, lease) && (complete && lease.stage.Compare? ==> RankingFor(d.runs[lease.run], c) == Some(rows))
    ensures Written(d, lease, c, complete, now, draws).artifacts
            == d.artifacts + TextStored(lease, c, complete, now, draws) + if complete then ResultsStored(lease, c, rows, now, draws) else map[]
  {
    TextIsStored(d, lease, c, complete, now, draws);
    TextKeepsRows(d, lease, c, complete, now, draws);
    hide WriteText, WriteStructured, TextStored, ResultsStored, RankingFor;
    if complete {
      ResultsAreStored(WriteText(d, lease, c, complete, now, draws), lease, c, rows, now, draws);
    } else {
      assert d.artifacts + TextStored(lease, c, complete, now, draws) + map[] == d.artifacts + TextStored(lease, c, complete, now, draws);
    }
  }

  /** The ranking and the exclusions are those of the run. */
  ghost predicate Documents(run: Run, stage: Stage, c: Capture, rows: seq<Ranking.Ranked>, excluded: seq<nat>) {
    && (stage.Compare? && c.evaluations.Some? ==>
          exists q :: ArePositions(q, run.tasks, Done) && Ranking.IsRanking(Some(rows), c.evaluations.value, run.request.criteria, q))
    && ArePositions(excluded, run.tasks, Excluded)
  }

  /** Exactly what a response stores: its text if it has any, complete when it passes; with it the summary, the ranking of
      the completed candidates, and, when the run is complete, the manifest. */
  lemma CaptureStores(d: Db, lease: Lease, capture: Capture, now: Millis, draws: Draws) returns (rows: seq<Ranking.Ranked>, excluded: seq<nat>)
    requires Valid(d) && StoreCapture(d, lease, capture, now, true, draws).reply.Ok?
    ensures lease.run in d.runs && lease.attempt in d.attempts
    ensures var o := Objection(d.runs[lease.run], lease.stage, d.attempts[lease.attempt], capture, now);
            && (o.None? ==> Documents(d.runs[lease.run], lease.stage, capture, rows, excluded))
            && StoreCapture(d, lease, capture, now, true, draws).db.artifacts
               == d.artifacts + TextStored(lease, capture, o.None?, now, draws)
                  + (if o.None? then ResultsStored(lease, capture, rows, now, draws) else map[])
                  + if o.None? && lease.stage.Revise? && !d.runs[lease.run].status.Cancelled?
                    then ManifestStored(lease, excluded, now, draws) else map[]
  {
    hide Valid, StoreCapture, Owns, Timed, Objection, EndedRows, IsComplete, RankingFor, ArePositions, Ranking.IsRanking, ResultsStored,
      TextStored, ManifestStored, Written, StoreFinal, Logged, Finish;
    FinalOwned(d, lease, capture, now, draws);
    OwnedRows(d, lease);
    RunIsOk(d, lease.run);
    hide RunOk;
    var run, a := d.runs[lease.run], d.attempts[lease.attempt];
    var o := Objection(run, lease.stage, a, capture, now);
    var c := Timed(run, a, capture, now);
    EndedIs(d, lease, capture, now);
    rows := if RankingFor(run, c).Some? then RankingFor(run, c).value else [];
    excluded := ExcludedPositions(run.tasks);
    RunExcluded(run);
    RankingIs(run, lease.stage, a, capture, now);
    WrittenIs(d, lease, c, o.None?, rows, now, draws);
    StoreFinalIs(d, lease, c, now, draws);
    LoggedExcluded(d, lease, capture, now, draws);
    SameStored(lease, c, capture, o.None?, rows, now, draws);
    FinishStores(Logged(d, lease, c, now, draws), lease, now, draws);
    Join(Logged(d, lease, c, now, draws).artifacts, map[], map[]);
  }

  lemma FinishStores(e: Db, lease: Lease, now: Millis, draws: Draws)
    requires lease.run in e.runs
    ensures Finish(e, lease.run, now, draws).artifacts
            == e.artifacts + ManifestStored(lease, ExcludedPositions(e.runs[lease.run].tasks), now, draws)
  {
    hide ExcludedPositions;
    Join(e.artifacts, map[], map[]);
  }

  lemma RankingIs(run: Run, stage: Stage, a: Attempt, capture: Capture, now: Millis)
    requires RunOk(run)
    ensures var c := Timed(run, a, capture, now);
            Objection(run, stage, a, capture, now).None? && stage.Compare? ==>
              && c.evaluations.Some? && c.evaluations == capture.evaluations && RankingFor(run, c).Some?
              && ArePositions(Included(run.tasks), run.tasks, Done)
              && Ranking.IsRanking(RankingFor(run, c), c.evaluations.value, run.request.criteria, Included(run.tasks))
  {
    var c := Timed(run, a, capture, now);
    TimedKeeps(run, a, capture, now);
    RanksIff(run, c);
    CandidatesAre(run);
    RanksIff(run, capture);
    hide Timed, RankingFor, ArePositions, Ranking.IsRanking, Ranking.Complete;
    assert RanksCandidates(run, c) <==> RanksCandidates(run, capture);
    hide RanksCandidates;
  }

  lemma SameStored(lease: Lease, c: Capture, capture: Capture, complete: bool, rows: seq<Ranking.Ranked>, now: Millis, draws: Draws)
    requires c.markdown == capture.markdown && c.summary == capture.summary
    ensures TextStored(lease, c, complete, now, draws) == TextStored(lease, capture, complete, now, draws)
    ensures ResultsStored(lease, c, rows, now, draws) == ResultsStored(lease, capture, rows, now, draws)
  {
  }

  lemma LoggedExcluded(d: Db, lease: Lease, capture: Capture, now: Millis, draws: Draws)
    requires Valid(d) && Owns(d, lease)
    ensures var e := Logged(d, lease, Timed(d.runs[lease.run], d.attempts[lease.attempt], capture, now), now, draws);
            var c := Timed(d.runs[lease.run], d.attempts[lease.attempt], capture, now);
            lease.run in e.runs && ExcludedPositions(e.runs[lease.run].tasks) == ExcludedPositions(d.runs[lease.run].tasks)
            && e.artifacts
               == Written(d, lease, c, Objection(d.runs[lease.run], lease.stage, d.attempts[lease.attempt], capture, now).None?, now, draws).artifacts
  {
    hide Valid, Owns, Timed, Objection, EndedRows, IsLast, Again, EndState, Over, IsComplete, Written;
    OwnedRows(d, lease);
    EndedRowsAre(d, lease, capture, now, draws);
    var run, a := d.runs[lease.run], d.attempts[lease.attempt];
    var e := Logged(d, lease, Timed(run, a, capture, now), now, draws);
    ExcludedSame(e.runs[lease.run].tasks, run.tasks);
  }

  // ---------- preserve_partial ----------

  /** Text saved while the conversation is in doubt: the attempt stays, uncertain, with its reservation and its running
      task; the run waits for reconciliation; and the text is stored as incomplete. */
  lemma PartialEffect(d: Db, lease: Lease, capture: Capture, now: Millis, draws: Draws)
    requires Valid(d) && StoreCapture(d, lease, capture, now, false, draws).reply.Ok?
    ensures lease.run in d.runs && lease.attempt.task < |d.runs[lease.run].tasks| && lease.attempt in d.attempts
    ensures var run, a := d.runs[lease.run], d.attempts[lease.attempt];
            var o := Objection(run, lease.stage, a, capture.(complete := false), now);
            && o.Some?
            && StoreCapture(d, lease, capture, now, false, draws).db
               == d.(attempts := d.attempts[lease.attempt := a.(state := Uncertain, completed := Some(now), error := o, retryable := false)],
                     runs := d.runs[lease.run := Doubted(WithTask(run, lease.attempt.task, Active, o), o)],
                     artifacts := d.artifacts + TextStored(lease, capture, false, now, draws),
                     events := d.events + [Event(lease.run, ResponseCaptured(lease.attempt), now)])
  {
    hide Valid, StoreCapture, Owns, Timed, Objection, RunOk, Verdict, WriteText, TextStored, RankingFor;
    PartialOwned(d, lease, capture, now, draws);
    OwnedRows(d, lease);
    RunIsOk(d, lease.run);
    var run, a := d.runs[lease.run], d.attempts[lease.attempt];
    var c := Timed(run, a, capture.(complete := false), now);
    VerdictIs(run, lease.stage, a, capture.(complete := false), now);
    PartialObjection(run, lease.stage, a, capture, now);
    TextIsStored(d, lease, c, false, now, draws);
    TextKeepsRows(d, lease, c, false, now, draws);
    SameStored(lease, c, capture.(complete := false), false, [], now, draws);
    SameStored(lease, capture.(complete := false), capture, false, [], now, draws);
    OwnedJoin(d, lease);
  }

  lemma PartialObjection(run: Run, stage: Stage, a: Attempt, capture: Capture, now: Millis)
    ensures Objection(run, stage, a, capture.(complete := false), now).Some?
  {
  }

  lemma PartialOwned(d: Db, lease: Lease, capture: Capture, now: Millis, draws: Draws)
    requires StoreCapture(d, lease, capture, now, false, draws).reply.Ok?
    ensures Owns(d, lease) && FreshDraws(d, draws)
    ensures StoreCapture(d, lease, capture, now, false, draws).db
            == StorePartial(d, lease, Timed(d.runs[lease.run], d.attempts[lease.attempt], capture.(complete := false), now), now, draws)
  {
    hide Timed, FreshDraws, StorePartial;
  }
}
