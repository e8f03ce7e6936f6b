/** A history that brings a run to its synthesis, interrupts it there, and hands the cut text on. */
module Witness {
  import opened Text
  import opened Tables
  import opened Ordering
  import opened Scheduler
  import opened Runs
  import opened Artifacts
  import opened Invariant
  import opened CaptureOperations
  import opened Histories
  import opened Handoffs
  import opened OperatorHold
  import opened Texts
  import Ranking

  // ---------- The run ----------

  const ASKED := Request(0, "concept", "", 5, [Ranking.Criterion("fit", 100)], "key")
  const TRACK := NewRun(ASKED, Current, Queued, 0)
  const SUMMARY := Summary("p", ["s"], ["w"], ["a"], ["n"], 0)
  const TURN := Turn("c", "u", "t", "m")

  /** The rows of a run whose first `n` tasks were completed at their first attempt. */
  function TrackTask(n: nat, i: nat): Task {
    if i < n then NewTask(5, i).(status := Done, attempts := 1, summary := if i < 5 then Some(SUMMARY) else None) else NewTask(5, i)
  }

  function TrackTasks(n: nat): (tasks: seq<Task>)
    ensures |tasks| == 9 && forall i | 0 <= i < 9 :: tasks[i] == TrackTask(n, i)
  {
    seq(9, i requires 0 <= i < 9 => TrackTask(n, i))
  }

  /** One task is worked on every thirty seconds. */
  function At(n: nat): Millis
    requires n <= 9
  {
    SUBMISSION_SPACING_MS * n
  }

  function KeyOf(n: nat): AttemptId { AttemptId(0, n, 1) }

  function LeaseOf(n: nat): Lease { Lease(n, 0, 0, TaskId(0, n), KeyOf(n), StageAt(5, n), NewTask(5, n).position) }

  function DrawsOf(n: nat): Draws { Draws(4 * n, 4 * n + 1, 4 * n + 2, 4 * n + 3) }

  function EvaluationOf(i: nat): Ranking.Evaluation {
    Ranking.Evaluation(i + 1, [Ranking.Score("fit", 50, "r")], ["d"], "u")
  }

  function Evaluations(): (q: seq<Ranking.Evaluation>)
    ensures |q| == 5 && forall i | 0 <= i < 5 :: q[i] == EvaluationOf(i)
  {
    seq(5, i requires 0 <= i < 5 => EvaluationOf(i))
  }

  function AnswerTo(n: nat): Capture {
    Capture("text", if n < 5 then Some(SUMMARY) else None, if n == 5 then Some(Evaluations()) else None, "c", "u", "m", true, None)
  }

  // ---------- The rows on the way ----------

  /** The only account is ready; it may prepare from time At(n) on and submit from time At(m) on. */
  ghost predicate OpenAccount(d: Db, n: nat, m: nat)
    requires n <= 9 && m <= 9
  {
    && d.accounts.Keys == {0} && d.accounts[0].readiness.Ready? && d.accounts[0].capacity == 10
    && d.accounts[0].nextSubmit <= At(n) && d.accounts[0].submissionAllowed <= At(m) && d.accounts[0].cooldownUntil == 0
  }

  predicate Stored(m: map<Id, Artifact>, n: nat) {
    forall id | id in m :: id < 4 * n && (m[id].attempt.Some? ==> m[id].attempt.value.task < n)
  }

  /** The first `n` tasks are complete and nothing is in progress. */
  ghost predicate OnTrack(d: Db, n: nat)
    requires n <= 9
  {
    && OpenAccount(d, n, n) && d.reservations == map[] && Stored(d.artifacts, n)
    && d.runs.Keys == {0} && Waiting(d.runs[0].status)
    && d.runs[0] == TRACK.(status := d.runs[0].status, submissions := n, tasks := TrackTasks(n))
  }

  /** The first `n` tasks are complete and the next one is in progress. */
  ghost predicate InProgress(d: Db, n: nat, submissions: nat, attempt: Attempt)
    requires n < 9
  {
    && OpenAccount(d, n + 1, if submissions > n then n + 1 else n) && Stored(d.artifacts, n)
    && d.reservations == map[n := Reservation(0, 0, KeyOf(n), At(n), SUBMISSION_SPACING_MS)]
    && d.runs.Keys == {0}
    && d.runs[0] == TRACK.(status := Running, submissions := submissions,
                           tasks := TrackTasks(n)[n := TrackTask(n, n).(status := Active, attempts := 1)])
    && KeyOf(n) in d.attempts && d.attempts[KeyOf(n)] == attempt
  }

  function Answered(n: nat): Attempt
    requires n < 9
  {
    Attempt(Accepted, At(n), Some(TURN), Some(At(n)), None, None, false)
  }

  // ---------- Claim, submit, accept ----------

  lemma {:induction false} ExploresDone(tasks: seq<Task>, m: nat)
    requires m <= |tasks| && forall i | 0 <= i < m :: tasks[i].stage.Explore? && tasks[i].status.Done?
    ensures CompletedExplores(tasks[..m]) == m
  {
    if m > 0 {
      assert tasks[..m][..m - 1] == tasks[..m - 1];
      ExploresDone(tasks, m - 1);
    }
  }

  lemma {:induction false} MoreExplores(tasks: seq<Task>, m: nat)
    requires m <= |tasks|
    ensures CompletedExplores(tasks[..m]) <= CompletedExplores(tasks)
    decreases |tasks|
  {
    if m < |tasks| {
      var n := |tasks| - 1;
      assert tasks[..n][..m] == tasks[..m];
      MoreExplores(tasks[..n], m);
    } else {
      assert tasks[..m] == tasks;
    }
  }

  lemma TrackExplored(run: Run, n: nat)
    requires run.tasks == TrackTasks(n) && 5 <= n
    ensures ExplorationDone(run)
  {
    ExploresDone(run.tasks, 5);
    MoreExplores(run.tasks, 5);
  }

  lemma TrackNext(run: Run, n: nat)
    requires run.tasks == TrackTasks(n) && n < 9
    ensures NextTask(run) == Some(n)
  {
    if n >= 5 {
      TrackExplored(run, n);
      assert n > 5 ==> run.tasks[n - 1].status.Done?;
    }
    hide ExplorationDone;
    assert Startable(run, run.tasks[n]);
    forall i | 0 <= i < n ensures !Startable(run, run.tasks[i]) {
      assert run.tasks[i].status.Done?;
    }
  }

  lemma NothingExpires(d: Db, n: nat)
    requires n < 9 && OnTrack(d, n)
    ensures ExpiredRuns(d, At(n)) == []
  {
    assert forall r | r in d.runs :: !PastDeadline(d.runs[r], At(n));
    assert (set r | r in d.runs && PastDeadline(d.runs[r], At(n)) :: Ordering.Key(0, 0, r)) == {};
  }

  lemma OneCandidate(d: Db, n: nat)
    requires n < 9 && OnTrack(d, n)
    ensures Candidates(d) == [0]
  {
    var k := Ordering.Key(LastGrant(d.events, 0), 0, 0);
    assert CandidateKeys(d) == {k};
    AscendingUnique(Sorted(CandidateKeys(d)), [k]);
  }

  lemma TrackGrantable(d: Db, n: nat)
    requires n < 9 && OnTrack(d, n)
    ensures Grantable(d, 0, At(n))
  {
    TrackNext(d.runs[0], n);
    assert Scheduler.Held(d.reservations, 0) == {};
  }

  lemma TrackClaims(d: Db, n: nat)
    requires n < 9 && OnTrack(d, n)
    ensures Claim(d, At(n), 0, n) == Outcome(Grant(d, 0, n, At(n), SUBMISSION_SPACING_MS, n), Claimed(Some(LeaseOf(n))))
  {
    NothingExpires(d, n);
    OneCandidate(d, n);
    TrackGrantable(d, n);
    TrackNext(d.runs[0], n);
    hide Grantable, NextTask, ExpiredRuns, Candidates, Grant;
  }

  lemma TrackRuns(d: Db, n: nat)
    requires n < 9 && OnTrack(d, n)
    ensures 0 in d.runs && n < |d.runs[0].tasks| && d.runs[0].request.account in d.accounts
  {
    hide Stored;
  }

  lemma TrackPrepares(d: Db, n: nat)
    requires n < 9 && OnTrack(d, n)
    ensures InProgress(Apply(d, Step(DoClaim(0, n), At(n))).db, n, n, FRESH_ATTEMPT.(created := At(n)))
  {
    hide Claim, Grant, InProgress, OnTrack, TrackTasks, StageAt;
    TrackRuns(d, n);
    TrackClaims(d, n);
    TrackGrants(d, n);
  }

  lemma TrackGrants(d: Db, n: nat)
    requires n < 9 && OnTrack(d, n)
    ensures InProgress(Grant(d, 0, n, At(n), SUBMISSION_SPACING_MS, n), n, n, FRESH_ATTEMPT.(created := At(n)))
  {
    hide Stored;
    var f := Grant(d, 0, n, At(n), SUBMISSION_SPACING_MS, n);
    assert f.runs[0].tasks == TrackTasks(n)[n := TrackTask(n, n).(status := Active, attempts := 1)];
  }

  lemma TrackOwns(d: Db, n: nat, submissions: nat, attempt: Attempt)
    requires n < 9 && InProgress(d, n, submissions, attempt)
    ensures Owns(d, LeaseOf(n))
  {
  }

  lemma TrackBegins(d: Db, n: nat)
    requires n < 9 && InProgress(d, n, n, FRESH_ATTEMPT.(created := At(n)))
    ensures InProgress(Apply(d, Step(DoBegin(LeaseOf(n)), At(n))).db, n, n + 1, FRESH_ATTEMPT.(created := At(n), state := Submitting))
  {
    TrackOwns(d, n, n, FRESH_ATTEMPT.(created := At(n)));
    hide Owns;
  }

  lemma TrackAccepts(d: Db, n: nat)
    requires n < 9 && InProgress(d, n, n + 1, FRESH_ATTEMPT.(created := At(n), state := Submitting))
    ensures InProgress(Apply(d, Step(DoAccept(LeaseOf(n), TURN, true), At(n))).db, n, n + 1, Answered(n))
  {
    TrackOwns(d, n, n + 1, FRESH_ATTEMPT.(created := At(n), state := Submitting));
    hide Owns;
  }

  /** Claim, submission and acceptance of task `n`. */
  function Sending(n: nat): seq<Step>
    requires n < 9
  {
    [Step(DoClaim(0, n), At(n)), Step(DoBegin(LeaseOf(n)), At(n)), Step(DoAccept(LeaseOf(n), TURN, true), At(n))]
  }

  lemma TrackSends(states: seq<Db>, steps: seq<Step>, n: nat) returns (more: seq<Db>)
    requires History(states, steps) && n < 9 && OnTrack(states[|steps|], n)
    ensures History(more, steps + Sending(n)) && InProgress(more[|steps| + 3], n, n + 1, Answered(n))
  {
    hide Apply, OnTrack, InProgress, History;
    var s := Sending(n);
    Extends(states, steps, s[0]);
    TrackPrepares(states[|steps|], n);
    var m1 := states + [Apply(states[|steps|], s[0]).db];
    Extends(m1, steps + [s[0]], s[1]);
    TrackBegins(m1[|steps| + 1], n);
    var m2 := m1 + [Apply(m1[|steps| + 1], s[1]).db];
    Extends(m2, steps + [s[0]] + [s[1]], s[2]);
    TrackAccepts(m2[|steps| + 2], n);
    more := m2 + [Apply(m2[|steps| + 2], s[2]).db];
    assert steps + [s[0]] + [s[1]] + [s[2]] == steps + s;
  }

  // ---------- Complete responses ----------

  lemma Wording()
    ensures !Blank("text") && !Blank("p") && !Blank("s") && !Blank("w") && !Blank("a") && !Blank("n") && !Blank("r") && !Blank("u")
    ensures !Blank("concept") && !Blank("key") && !Blank("fit")
  {
    assert "text"[0] == 't' && "p"[0] == 'p' && "s"[0] == 's' && "w"[0] == 'w' && "a"[0] == 'a' && "n"[0] == 'n' && "r"[0] == 'r';
    assert "u"[0] == 'u' && "concept"[0] == 'c' && "key"[0] == 'k' && "fit"[0] == 'f';
  }

  lemma {:induction false} IncludedFirst(tasks: seq<Task>, m: nat)
    requires m <= |tasks|
    requires forall i | 0 <= i < m :: tasks[i].stage.Explore? && tasks[i].status.Done? && tasks[i].position == i + 1
    ensures Included(tasks[..m]) == seq(m, i => i + 1)
  {
    if m > 0 {
      assert tasks[..m][..m - 1] == tasks[..m - 1];
      IncludedFirst(tasks, m - 1);
    }
  }

  lemma {:induction false} IncludedOnly(tasks: seq<Task>, m: nat)
    requires m <= |tasks| && forall i | m <= i < |tasks| :: !tasks[i].stage.Explore?
    ensures Included(tasks) == Included(tasks[..m])
    decreases |tasks|
  {
    if m < |tasks| {
      var n := |tasks| - 1;
      assert tasks[..n][..m] == tasks[..m];
      IncludedOnly(tasks[..n], m);
    } else {
      assert tasks[..m] == tasks;
    }
  }

  lemma EvaluationsOk()
    ensures Ranking.AllOk(Evaluations(), ASKED.criteria)
  {
    Wording();
    hide Blank;
    forall i | 0 <= i < 5 ensures Ranking.EvaluationOk(Evaluations()[i], ASKED.criteria) {
      assert Ranking.ScoredNames(Evaluations()[i].scores) == ["fit"] == Ranking.CriterionNames(ASKED.criteria);
    }
  }

  lemma TrackRanking(run: Run, c: Capture)
    requires run.request == ASKED && run.tasks == TrackTasks(5)[5 := TrackTask(5, 5).(status := Active, attempts := 1)]
    requires c.evaluations == Some(Evaluations())
    ensures RankingFor(run, c).Some?
  {
    IncludedFirst(run.tasks, 5);
    IncludedOnly(run.tasks, 5);
    EvaluationsOk();
    hide Included, Ranking.AllOk;
    assert Ranking.EvaluatedCandidates(Evaluations()) == seq(5, i => i + 1);
    assert Ranking.NoDup(Included(run.tasks));
  }

  lemma TrackVerdict(run: Run, n: nat)
    requires n < 9 && run.request == ASKED && run.model == Current
    requires run.tasks == TrackTasks(n)[n := TrackTask(n, n).(status := Active, attempts := 1)]
    ensures Verdict(run, StageAt(5, n), AnswerTo(n)).None?
  {
    Wording();
    hide Blank, RankingFor;
    if n == 5 { TrackRanking(run, AnswerTo(n)); }
  }

  lemma TrackFresh(d: Db, n: nat)
    requires Stored(d.artifacts, n)
    ensures FreshDraws(d, DrawsOf(n))
  {
  }

  /** The answer is stored as it is. */
  lemma TrackStores(d: Db, n: nat)
    requires n < 9 && InProgress(d, n, n + 1, Answered(n))
    ensures Owns(d, LeaseOf(n)) && IsComplete(d, LeaseOf(n), AnswerTo(n))
    ensures var o := StoreCapture(d, LeaseOf(n), AnswerTo(n), At(n), true, DrawsOf(n));
            var e := Logged(d, LeaseOf(n), AnswerTo(n), At(n), DrawsOf(n));
            o.reply.Ok? && 0 in e.runs && o.db == if n == 8 then Finish(e, 0, At(n), DrawsOf(n)) else e
  {
    TrackOwns(d, n, n + 1, Answered(n));
    TrackVerdict(d.runs[0], n);
    TrackFresh(d, n);
    assert Timed(d.runs[0], d.attempts[KeyOf(n)], AnswerTo(n), At(n)) == AnswerTo(n);
    StoreFinalIs(d, LeaseOf(n), AnswerTo(n), At(n), DrawsOf(n));
    hide Verdict, StoreFinal, Logged, Owns, FreshDraws;
  }

  /** The rows with the answer written. */
  lemma TrackWrites(d: Db, n: nat)
    requires n < 9 && InProgress(d, n, n + 1, Answered(n)) && Owns(d, LeaseOf(n))
    ensures var e := Written(d, LeaseOf(n), AnswerTo(n), true, At(n), DrawsOf(n));
            && Stored(e.artifacts, n + 1)
            && e == d.(artifacts := e.artifacts, runs := d.runs[0 := SetTask(d.runs[0], n, d.runs[0].tasks[n].(summary := TrackTask(9, n).summary))])
  {
    hide Owns, RankingFor, TextName, OpenAccount;
    TextIsThere(d, n);
    var t := WriteText(d, LeaseOf(n), AnswerTo(n), true, At(n), DrawsOf(n));
    hide WriteText, InProgress;
    assert SetTask(d.runs[0], n, d.runs[0].tasks[n]) == d.runs[0];
    assert d.runs[0 := d.runs[0]] == d.runs;
  }

  lemma TextIsThere(d: Db, n: nat)
    requires n < 9 && Stored(d.artifacts, n)
    ensures var t := WriteText(d, LeaseOf(n), AnswerTo(n), true, At(n), DrawsOf(n)); Stored(t.artifacts, n + 1) && t == d.(artifacts := t.artifacts)
  {
    hide Blank, TextName;
  }

  /** The next task is complete, and its attempt has ended. */
  ghost predicate Complete(d: Db, n: nat)
    requires n < 9
  {
    && OpenAccount(d, n + 1, n + 1) && d.reservations == map[] && Stored(d.artifacts, n + 1)
    && d.runs.Keys == {0} && d.runs[0] == TRACK.(status := Running, submissions := n + 1, tasks := TrackTasks(n + 1))
  }

  lemma TrackReleases(d: Db, e: Db, n: nat, attempt: Attempt)
    requires n < 9 && InProgress(d, n, n + 1, Answered(n)) && Stored(e.artifacts, n + 1)
    requires e == d.(artifacts := e.artifacts, runs := d.runs[0 := SetTask(d.runs[0], n, d.runs[0].tasks[n].(summary := TrackTask(9, n).summary))])
    ensures Joined(e, KeyOf(n)) && Complete(Release(e, LeaseOf(n), attempt, Done, None), n)
  {
    hide Stored;
    var f := Release(e, LeaseOf(n), attempt, Done, None);
    assert f.runs[0].tasks == TrackTasks(n + 1);
  }

  lemma TrackEndedRows(d: Db, n: nat)
    requires n < 9 && InProgress(d, n, n + 1, Answered(n))
    requires Owns(d, LeaseOf(n)) && IsComplete(d, LeaseOf(n), AnswerTo(n))
    ensures Complete(EndedRows(d, LeaseOf(n), AnswerTo(n), At(n), DrawsOf(n)), n)
  {
    TrackWrites(d, n);
    var e := Written(d, LeaseOf(n), AnswerTo(n), true, At(n), DrawsOf(n));
    var r := Ended(d, LeaseOf(n), AnswerTo(n), At(n));
    assert r.1 == Done && r.2 == None;
    TrackReleases(d, e, n, r.0);
    hide Written, Verdict, IsComplete, Ended, Owns, InProgress, OpenAccount, Release, Stored;
  }

  lemma TrackEnds(d: Db, n: nat)
    requires n < 9 && InProgress(d, n, n + 1, Answered(n))
    requires Owns(d, LeaseOf(n)) && IsComplete(d, LeaseOf(n), AnswerTo(n))
    ensures OnTrack(Logged(d, LeaseOf(n), AnswerTo(n), At(n), DrawsOf(n)), n + 1)
  {
    hide EndedRows, IsComplete, Owns, InProgress;
    TrackEndedRows(d, n);
  }

  lemma TrackCompletes(d: Db, n: nat)
    requires n < 8 && InProgress(d, n, n + 1, Answered(n))
    ensures OnTrack(Apply(d, Step(DoCapture(LeaseOf(n), AnswerTo(n), true, DrawsOf(n)), At(n))).db, n + 1)
  {
    hide InProgress, OnTrack, StoreCapture, Owns, IsComplete, Logged;
    TrackStores(d, n);
    TrackEnds(d, n);
  }

  // ---------- The whole way ----------

  lemma Registered(s: Step)
    requires s == Step(DoRegister(0, "a@b", Some("p"), true, 10, true), 0)
    ensures Apply(EMPTY, s).db == EMPTY.(accounts := map[0 := REGISTERED], sessions := Apply(EMPTY, s).db.sessions)
  {
    Plain();
    hide Blank, Trim, EqIgnoreCase;
  }

  lemma AskedIsOk()
    ensures RequestOk(ASKED)
  {
    Wording();
    hide Blank;
    assert Ranking.TotalWeight(ASKED.criteria) == 100 by { assert ASKED.criteria[1..] == []; }
  }

  lemma Asked(d: Db, s: Step)
    requires d == EMPTY.(accounts := map[0 := REGISTERED], sessions := d.sessions)
    requires s == Step(DoSubmit(ASKED, Some(Current), 0), 0)
    ensures OnTrack(Apply(d, s).db, 0)
  {
    AskedIsOk();
    hide RequestOk;
    assert !KeyUsed(d, ASKED.key);
    assert TRACK.tasks == TrackTasks(0);
  }

  /** A history after which the first `n` tasks of the run are complete. */
  lemma {:induction false} TrackIsReachable(n: nat) returns (states: seq<Db>, steps: seq<Step>)
    requires n <= 8
    ensures History(states, steps) && OnTrack(states[|steps|], n)
  {
    hide Apply, OnTrack, InProgress, History;
    if n == 0 {
      var s0, s1 := Step(DoRegister(0, "a@b", Some("p"), true, 10, true), 0), Step(DoSubmit(ASKED, Some(Current), 0), 0);
      EmptyHistory();
      Extends([EMPTY], [], s0);
      Registered(s0);
      var d := Apply(EMPTY, s0).db;
      Extends([EMPTY] + [d], [] + [s0], s1);
      Asked(d, s1);
      states, steps := [EMPTY] + [d] + [Apply(d, s1).db], [] + [s0] + [s1];
    } else {
      var before, done := TrackIsReachable(n - 1);
      var more := TrackSends(before, done, n - 1);
      steps := done + Sending(n - 1);
      var s := Step(DoCapture(LeaseOf(n - 1), AnswerTo(n - 1), true, DrawsOf(n - 1)), At(n - 1));
      Extends(more, steps, s);
      TrackCompletes(more[|steps|], n - 1);
      states, steps := more + [Apply(more[|steps|], s).db], steps + [s];
    }
  }

  lemma EmptyHistory()
    ensures History([EMPTY], [])
  {
  }

  /** A run can be completed. */
  lemma CompletionIsReachable() returns (d: Db)
    ensures Reachable(d) && 0 in d.runs && d.runs[0].status.Completed?
  {
    hide Apply, OnTrack, InProgress, History, StoreCapture, Owns, IsComplete, Logged;
    var before, done := TrackIsReachable(8);
    var more := TrackSends(before, done, 8);
    var steps := done + Sending(8);
    var s := Step(DoCapture(LeaseOf(8), AnswerTo(8), true, DrawsOf(8)), At(8));
    Extends(more, steps, s);
    TrackStores(more[|steps|], 8);
    d := Apply(more[|steps|], s).db;
    CaptureStep(more[|steps|], s);
    assert (more + [d])[|steps + [s]|] == d;
  }

  lemma CaptureStep(d: Db, s: Step)
    requires s.command.DoCapture?
    ensures Apply(d, s) == StoreCapture(d, s.command.lease, s.command.capture, s.now, s.command.release, s.command.draws)
  {
    hide StoreCapture;
  }

  // ---------- The interruption ----------

  lemma SynthesisMayBeInterrupted(d: Db, t: Millis)
    requires InProgress(d, 6, 7, Answered(6)) && At(6) <= t < At(6) + RESPONSE_TIMEOUT_MS
    ensures MayBeInterrupted(d, LeaseOf(6), t) && FreshDraws(d, DrawsOf(6)) && FreshDraws(d, DrawsOf(7))
  {
    TrackOwns(d, 6, 7, Answered(6));
    hide Owns;
  }

  /** A reachable history: five candidates, their comparison, and a synthesis whose text is first saved cut off and then
      captured whole. The critique that follows is given the text that was cut off. */
  lemma InterruptionIsReachable() returns (states: seq<Db>, steps: seq<Step>)
    ensures History(states, steps) && |steps| >= 2
    ensures var n := |steps|;
            && steps[n - 2] == Step(DoCapture(LeaseOf(6), Response(TURN, "cut off"), false, DrawsOf(6)), At(6))
            && steps[n - 1] == Step(DoCapture(LeaseOf(6), Response(TURN, "whole"), true, DrawsOf(7)), At(7))
            && Apply(states[n - 2], steps[n - 2]).reply.Ok? && Apply(states[n - 1], steps[n - 1]).reply.Ok?
            && Completes(states[n - 1], LeaseOf(6), Response(TURN, "whole"), At(7), DrawsOf(7))
            && 0 in states[n].runs && EarlierStage(states[n], 0, Synthesize) == Given(DrawsOf(6).text)
            && DrawsOf(6).text in states[n].artifacts && states[n].artifacts[DrawsOf(6).text].content == Markdown("cut off")
  {
    hide Apply, OnTrack, InProgress, StoreCapture, EarlierStage, Completes, NewAreStored, MayBeInterrupted, FreshDraws, Valid;
    var before, done := TrackIsReachable(6);
    var more := TrackSends(before, done, 6);
    var some := done + Sending(6);
    var d := more[|some|];
    SynthesisMayBeInterrupted(d, At(6));
    SynthesisMayBeInterrupted(d, At(7));
    HistoryIsValid(more, some, |some|);
    assert d.attempts[KeyOf(6)].turn == Some(TURN) by { SynthesisTurn(d); }
    EveryInterruptionShowsIt(d, LeaseOf(6), At(6), DrawsOf(6), At(7), DrawsOf(7));
    var s1 := Step(DoCapture(LeaseOf(6), Response(TURN, "cut off"), false, DrawsOf(6)), At(6));
    var s2 := Step(DoCapture(LeaseOf(6), Response(TURN, "whole"), true, DrawsOf(7)), At(7));
    Extends(more, some, s1);
    var e := Apply(d, s1).db;
    CaptureStep(d, s1);
    Extends(more + [e], some + [s1], s2);
    CaptureStep(e, s2);
    FinalStores(e, LeaseOf(6), Response(TURN, "whole"), At(7), DrawsOf(7));
    states, steps := more + [e] + [Apply(e, s2).db], some + [s1] + [s2];
  }

  lemma SynthesisTurn(d: Db)
    requires InProgress(d, 6, 7, Answered(6))
    ensures KeyOf(6) in d.attempts && d.attempts[KeyOf(6)].turn == Some(TURN)
  {
  }
}
