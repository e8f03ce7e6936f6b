/** Each kind of row change keeps the invariant; the operations are sequences of these changes. */
module Preservation {
  import opened Text
  import opened Tables
  import opened Scheduler
  import opened Artifacts
  import opened Invariant

  /** What one step of an operation must achieve. */
  ghost predicate Good(d: Db, e: Db) {
    Valid(e) && Evolves(d, e)
  }

  lemma GoodTrans(d: Db, e: Db, f: Db)
    requires Good(d, e) && Good(e, f)
    ensures Good(d, f)
  {
    EvolvesTrans(d, e, f);
  }

  // ---------- Runs ----------

  lemma {:induction false} ExploresMonotone(a: seq<Task>, b: seq<Task>)
    requires |a| == |b|
    requires forall i | 0 <= i < |a| :: b[i].stage == a[i].stage && (a[i].status.Done? ==> b[i].status.Done?)
    ensures CompletedExplores(a) <= CompletedExplores(b)
  {
    if a != [] {
      ExploresMonotone(a[..|a| - 1], b[..|b| - 1]);
    }
  }

  /** Progress is never lost: what was complete enough to start a stage stays so. */
  lemma StageOpenKeeps(r: Run, s: Run, i: nat)
    requires RunEvolves(r, s) && StageOpen(r, i)
    ensures StageOpen(s, i)
  {
    assert forall j | 0 <= j < |r.tasks| :: TaskEvolves(r.tasks[j], s.tasks[j]);
    ExploresMonotone(r.tasks, s.tasks);
  }

  /** Replacing one open task row keeps the run well formed. */
  lemma OneTaskKeepsRun(r: Run, s: Run, i: nat, t: Task)
    requires RunOk(r) && i < |r.tasks| && !r.tasks[i].status.Done? && !r.tasks[i].status.Excluded?
    requires s.tasks == r.tasks[i := t] && TaskEvolves(r.tasks[i], t) && TaskOk(t, s.allowIncomplete)
    requires RunEvolves(r, s)
    requires i >= r.request.candidates && t.attempts > 0 ==> StageOpen(r, i)
    requires s.submissions <= s.limit && RecoveryOk(s) && !s.status.Failed?
    requires s.status.Completed? ==> s.tasks[r.request.candidates + 3].status.Done?
    ensures RunOk(s)
  {
    forall j | 0 <= j < |s.tasks| ensures TaskOk(s.tasks[j], s.allowIncomplete) {
      assert TaskOk(r.tasks[j], r.allowIncomplete);
    }
    forall j | r.request.candidates <= j < |s.tasks| && s.tasks[j].attempts > 0 ensures StageOpen(s, j) {
      StageOpenKeeps(r, s, j);
    }
  }

  // ---------- The log: everything but charging a submission ----------

  lemma {:induction false} SubmissionsSuffix(d: seq<Event>, e: seq<Event>, r: Id)
    requires d <= e && forall i | |d| <= i < |e| :: !(Starts(e[i]) && e[i].run == r)
    ensures Submissions(e, r) == Submissions(d, r)
    decreases |e|
  {
    if |e| == |d| {
      assert e == d;
    } else {
      assert d <= e[..|e| - 1];
      SubmissionsSuffix(d, e[..|e| - 1], r);
    }
  }

  lemma {:induction false} NoSubmissions(e: seq<Event>, r: Id)
    requires forall i | 0 <= i < |e| :: e[i].run != r
    ensures Submissions(e, r) == 0 && Resumes(e, r) == 0
  {
    if e != [] { NoSubmissions(e[..|e| - 1], r); }
  }

  lemma {:induction false} ResumesMonotone(d: seq<Event>, e: seq<Event>, r: Id)
    requires d <= e
    ensures Resumes(d, r) <= Resumes(e, r)
    decreases |e|
  {
    if |e| == |d| {
      assert e == d;
    } else {
      assert d <= e[..|e| - 1];
      ResumesMonotone(d, e[..|e| - 1], r);
    }
  }

  ghost predicate NoNewStarts(d: Db, e: Db) {
    && d.events <= e.events
    && (forall i | |d.events| <= i < |e.events| :: !Starts(e.events[i]) && e.events[i].run in e.runs)
    && (forall r | r in d.runs && r in e.runs :: e.runs[r].submissions == d.runs[r].submissions)
    && (forall r | r in e.runs && r !in d.runs :: e.runs[r].submissions == 0)
    && (forall k | k in e.attempts && Charged(e.attempts[k].state) :: k in d.attempts && Charged(d.attempts[k].state))
  }

  lemma StartedKeeps(d: seq<Event>, e: seq<Event>, k: AttemptId)
    requires Started(d, k) && d <= e
    ensures Started(e, k)
  {
    var i :| 0 <= i < |d| && d[i].kind == SubmissionStarted(k);
    assert e[i] == d[i];
  }

  lemma QuietLog(d: Db, e: Db)
    requires LogOk(d) && Evolves(d, e) && NoNewStarts(d, e)
    ensures LogOk(e)
  {
    forall i | 0 <= i < |e.events| ensures StartOk(e, e.events[i]) {
      if i < |d.events| { assert StartOk(d, d.events[i]) && d.events[i] == e.events[i]; }
    }
    forall r | r in e.runs ensures e.runs[r].submissions == Submissions(e.events, r) {
      SubmissionsSuffix(d.events, e.events, r);
      if r !in d.runs {
        assert forall i | 0 <= i < |d.events| :: StartOk(d, d.events[i]);
        NoSubmissions(d.events, r);
      }
    }
    forall k | k in e.attempts && Charged(e.attempts[k].state) ensures Started(e.events, k) {
      StartedKeeps(d.events, e.events, k);
    }
  }

  lemma OldStart(d: Db, e: Db, i: nat, a: Id)
    requires LogOk(d) && RunsOk(d) && Evolves(d, e) && NoNewStarts(d, e)
    requires i < |e.events| && StartsOn(e, e.events[i], a)
    ensures i < |d.events| && d.events[i] == e.events[i] && a in d.accounts && StartsOn(d, d.events[i], a)
  {
    assert i < |d.events|;
    assert d.events[i] == e.events[i] && StartOk(d, d.events[i]);
    assert RunEvolves(d.runs[d.events[i].run], e.runs[d.events[i].run]);
  }

  lemma QuietPacing(d: Db, e: Db)
    requires PacingOk(d) && LogOk(d) && RunsOk(d) && Evolves(d, e) && NoNewStarts(d, e)
    ensures PacingOk(e)
  {
    forall i, a | 0 <= i < |e.events| && a in e.accounts && StartsOn(e, e.events[i], a)
      ensures NextAfter(e.events[i].at) <= e.accounts[a].submissionAllowed
    {
      OldStart(d, e, i, a);
    }
    forall i, j, a | 0 <= i < j < |e.events| && StartsOn(e, e.events[i], a) && StartsOn(e, e.events[j], a)
      ensures NextAfter(e.events[i].at) <= e.events[j].at
    {
      OldStart(d, e, i, a);
      OldStart(d, e, j, a);
    }
  }

  // ---------- Budgets ----------

  lemma {:induction false} SubmittableMonotone(d: Db, e: Db, r: Id, n: nat)
    requires r in d.runs && r in e.runs && n <= |d.runs[r].tasks| && |e.runs[r].tasks| == |d.runs[r].tasks|
    requires forall i | 0 <= i < n :: Submittable(d, r, i) <= Submittable(e, r, i)
    ensures TotalSubmittable(d, r, n) <= TotalSubmittable(e, r, n)
  {
    if n > 0 { SubmittableMonotone(d, e, r, n - 1); }
  }

  ghost predicate NoNewClaims(d: Db, e: Db) {
    && (forall r, i | r in d.runs && r in e.runs && 0 <= i < |d.runs[r].tasks| && i < |e.runs[r].tasks| ::
          Claims(e.runs[r].tasks[i]) <= Claims(d.runs[r].tasks[i]) || Claims(e.runs[r].tasks[i]) <= 2)
    && (forall r, i | r in e.runs && r !in d.runs && 0 <= i < |e.runs[r].tasks| :: Claims(e.runs[r].tasks[i]) <= 2)
  }

  ghost predicate SubmittableGrows(d: Db, e: Db) {
    forall r, i | r in d.runs && r in e.runs && 0 <= i < |d.runs[r].tasks| && i < |e.runs[r].tasks| ::
      Submittable(d, r, i) <= Submittable(e, r, i)
  }

  lemma QuietBudget(d: Db, e: Db)
    requires BudgetOk(d) && Evolves(d, e) && NoNewStarts(d, e) && NoNewClaims(d, e) && SubmittableGrows(d, e)
    ensures BudgetOk(e)
  {
    forall r | r in d.runs
      ensures |e.runs[r].tasks| == |d.runs[r].tasks| && Resumes(d.events, r) <= Resumes(e.events, r)
      ensures e.runs[r].submissions <= TotalSubmittable(e, r, |e.runs[r].tasks|)
    {
      assert RunEvolves(d.runs[r], e.runs[r]);
      ResumesMonotone(d.events, e.events, r);
      SubmittableMonotone(d, e, r, |d.runs[r].tasks|);
    }
  }

  // ---------- Artifacts ----------

  lemma HasArtifactKeeps(d: Db, e: Db, r: Id, name: ArtifactName, k: Option<AttemptId>)
    requires HasArtifact(d, r, name, k) && Evolves(d, e)
    ensures HasArtifact(e, r, name, k)
  {
    var id :| id in d.artifacts && Matches(d.artifacts[id], r, name, k, true);
    assert id in e.artifacts && e.artifacts[id] == d.artifacts[id];
  }

  /** The attempt's own result is stored. */
  ghost predicate HasResult(db: Db, k: AttemptId) {
    Counted(db, k) &&
    HasArtifact(db, k.run, ResultName(db.runs[k.run].tasks[k.task].stage, db.runs[k.run].tasks[k.task].position), Some(k))
  }

  lemma HasResultKeeps(d: Db, e: Db, k: AttemptId)
    requires HasResult(d, k) && Evolves(d, e)
    ensures HasResult(e, k)
  {
    assert RunEvolves(d.runs[k.run], e.runs[k.run]);
    assert TaskEvolves(d.runs[k.run].tasks[k.task], e.runs[k.run].tasks[k.task]);
    HasArtifactKeeps(d, e, k.run, ResultName(d.runs[k.run].tasks[k.task].stage, d.runs[k.run].tasks[k.task].position), Some(k));
  }

  ghost predicate NoNewResults(d: Db, e: Db) {
    && (forall k | k in e.attempts && Counted(e, k) && e.attempts[k].state.Captured? ::
          HasResult(e, k) || (k in d.attempts && Counted(d, k) && d.attempts[k].state.Captured?))
    && (forall r | r in e.runs && e.runs[r].status.Completed? ::
          HasArtifact(e, r, ManifestFile, None) || (r in d.runs && d.runs[r].status.Completed?))
  }

  lemma QuietArtifacts(d: Db, e: Db)
    requires ArtifactsOk(d) && Evolves(d, e) && NoNewResults(d, e)
    ensures ArtifactsOk(e)
  {
    forall k | k in e.attempts && Counted(e, k) && e.attempts[k].state.Captured? ensures HasResult(e, k) {
      if !HasResult(e, k) {
        assert HasResult(d, k);
        HasResultKeeps(d, e, k);
      }
    }
    forall r | r in e.runs && e.runs[r].status.Completed? ensures HasArtifact(e, r, ManifestFile, None) {
      if !HasArtifact(e, r, ManifestFile, None) {
        HasArtifactKeeps(d, e, r, ManifestFile, None);
      }
    }
  }

  /** The log, pacing, budgets and artifacts survive every step that charges no submission. */
  lemma QuietRest(d: Db, e: Db)
    requires RunsOk(d) && LogOk(d) && PacingOk(d) && BudgetOk(d) && ArtifactsOk(d) && Evolves(d, e)
    requires NoNewStarts(d, e) && NoNewClaims(d, e) && SubmittableGrows(d, e) && NoNewResults(d, e)
    ensures LogOk(e) && PacingOk(e) && BudgetOk(e) && ArtifactsOk(e)
  {
    QuietLog(d, e);
    QuietPacing(d, e);
    QuietBudget(d, e);
    QuietArtifacts(d, e);
  }

  // ---------- Steps that touch neither tasks nor attempts ----------

  /** Only the status, pause reason and remembered status of the run may change. */
  predicate HeaderStep(r: Run, s: Run) {
    && s == r.(status := s.status, pauseReason := s.pauseReason, recovery := s.recovery)
    && (Terminal(r.status) ==> s.status == r.status)
    && RecoveryOk(s) && !s.status.Failed? && (s.status.Completed? ==> r.status.Completed?)
  }

  ghost predicate QuietEvents(d: Db, e: Db) {
    && d.events <= e.events
    && forall i | |d.events| <= i < |e.events| :: !Starts(e.events[i]) && e.events[i].run in e.runs
  }

  ghost predicate Neutral(d: Db, e: Db) {
    && e.attempts == d.attempts && e.reservations == d.reservations && e.artifacts == d.artifacts
    && e.runs.Keys == d.runs.Keys && (forall r | r in d.runs :: HeaderStep(d.runs[r], e.runs[r]))
    && (forall a | a in d.accounts :: a in e.accounts && AccountEvolves(d.accounts[a], e.accounts[a]))
    && AccountsOk(e) && e.sessions.Keys == e.accounts.Keys
    && QuietEvents(d, e)
  }

  lemma HeaderStepKeepsRun(r: Run, s: Run)
    requires RunOk(r) && HeaderStep(r, s)
    ensures RunOk(s) && RunEvolves(r, s)
  {
    forall i | 0 <= i < |r.tasks| ensures TaskEvolves(r.tasks[i], s.tasks[i]) {}
    forall j | r.request.candidates <= j < |s.tasks| && s.tasks[j].attempts > 0 ensures StageOpen(s, j) {
      StageOpenKeeps(r, s, j);
    }
  }

  ghost predicate SameTasks(d: Db, e: Db) {
    && e.runs.Keys == d.runs.Keys
    && forall r | r in d.runs ::
         && e.runs[r].tasks == d.runs[r].tasks && e.runs[r].request == d.runs[r].request
         && (d.runs[r].status.Cancelled? ==> e.runs[r].status.Cancelled?)
  }

  lemma AttemptsFrame(d: Db, e: Db)
    requires AttemptsOk(d) && e.attempts == d.attempts && SameTasks(d, e)
    ensures AttemptsOk(e)
  {
    forall k | Counted(e, k) ensures k in e.attempts {
      assert Counted(d, k);
    }
    forall k | k in e.attempts ensures Counted(e, k) && Agrees(e, k) {
      assert Counted(d, k) && Agrees(d, k);
    }
  }

  /** The same attempts are live. */
  ghost predicate SameLive(d: Db, e: Db) {
    && (forall k | k in d.attempts && Live(d.attempts[k].state) :: k in e.attempts && Live(e.attempts[k].state))
    && (forall k | k in e.attempts && Live(e.attempts[k].state) :: k in d.attempts && Live(d.attempts[k].state))
  }

  ghost predicate SameRequests(d: Db, e: Db) {
    forall r | r in d.runs :: r in e.runs && e.runs[r].request == d.runs[r].request
  }

  lemma ReservationsFrame(d: Db, e: Db)
    requires ReservationsOk(d) && e.reservations == d.reservations && SameLive(d, e) && SameRequests(d, e)
    ensures ReservationsOk(e)
  {
    forall k | k in e.attempts && Live(e.attempts[k].state) ensures Reserved(e, k) {
      assert Reserved(d, k);
    }
    forall x | x in e.reservations ensures ReservationOk(e, e.reservations[x]) {
      assert ReservationOk(d, d.reservations[x]);
    }
  }

  lemma CapacityFrame(d: Db, e: Db)
    requires RunsOk(d) && ReservationsOk(d) && CapacityOk(d) && e.reservations == d.reservations
    requires forall a | a in d.accounts :: a in e.accounts && e.accounts[a].capacity == d.accounts[a].capacity
    ensures CapacityOk(e)
  {
    forall a | a in e.accounts ensures |Held(e.reservations, a)| <= Min(e.accounts[a].capacity, MAX_SLOTS) {
      if a !in d.accounts {
        assert forall x | x in d.reservations :: ReservationOk(d, d.reservations[x]);
        assert Held(d.reservations, a) == {};
      }
    }
  }

  lemma AccountsFrame(d: Db, e: Db)
    requires AccountsOk(d) && e.accounts == d.accounts
    ensures AccountsOk(e)
  {
  }

  lemma NeutralRuns(d: Db, e: Db)
    requires RunsOk(d) && Neutral(d, e)
    ensures RunsOk(e) && Evolves(d, e) && SameTasks(d, e)
  {
    forall r | r in d.runs
      ensures RunOk(e.runs[r]) && RunEvolves(d.runs[r], e.runs[r]) && e.runs[r].request == d.runs[r].request
      ensures d.runs[r].status.Cancelled? ==> e.runs[r].status.Cancelled?
    {
      HeaderStepKeepsRun(d.runs[r], e.runs[r]);
    }
  }

  lemma NeutralIsQuiet(d: Db, e: Db)
    requires Neutral(d, e)
    ensures NoNewStarts(d, e) && NoNewClaims(d, e) && SubmittableGrows(d, e)
  {
    assert forall r | r in d.runs :: HeaderStep(d.runs[r], e.runs[r]);
  }

  lemma NeutralResults(d: Db, e: Db)
    requires Neutral(d, e)
    ensures NoNewResults(d, e)
  {
    assert forall r | r in d.runs :: HeaderStep(d.runs[r], e.runs[r]);
  }

  lemma NeutralKeeps(d: Db, e: Db)
    requires Valid(d) && Neutral(d, e)
    ensures Good(d, e)
  {
    NeutralRuns(d, e);
    AttemptsFrame(d, e);
    ReservationsFrame(d, e);
    CapacityFrame(d, e);
    NeutralIsQuiet(d, e);
    NeutralResults(d, e);
    QuietRest(d, e);
  }

  // ---------- Steps on one attempt and its task ----------

  /** The rows of one attempt `k` and its task changed, and the header of its run. */
  ghost predicate OnAttempt(d: Db, e: Db, k: AttemptId) {
    && k.run in d.runs && k.run in e.runs && k.task < |d.runs[k.run].tasks| && k.task < |e.runs[k.run].tasks|
    && k in e.attempts
    && e.runs == d.runs[k.run := e.runs[k.run]] && e.attempts == d.attempts[k := e.attempts[k]]
    && e.runs[k.run].tasks == d.runs[k.run].tasks[k.task := e.runs[k.run].tasks[k.task]]
    && e.runs[k.run].request == d.runs[k.run].request
    && (d.runs[k.run].status.Cancelled? ==> e.runs[k.run].status.Cancelled?)
  }

  /** `k` is the latest attempt of its task afterwards: it was already, or it has just been added to a queued task. */
  predicate Latest(d: Db, e: Db, k: AttemptId)
    requires k.run in d.runs && k.run in e.runs && k.task < |d.runs[k.run].tasks| && k.task < |e.runs[k.run].tasks|
  {
    var t := d.runs[k.run].tasks[k.task];
    && k.number == e.runs[k.run].tasks[k.task].attempts && k.number > 0
    && (k.number == t.attempts || (k.number == t.attempts + 1 && t.status.Todo?))
  }

  lemma AttemptsStep(d: Db, e: Db, k: AttemptId)
    requires AttemptsOk(d) && OnAttempt(d, e, k) && Latest(d, e, k)
    requires Explains(e.attempts[k].state, e.runs[k.run].tasks[k.task].status) && TurnKnown(e.attempts[k])
    requires e.attempts[k].state.Stopped? ==> e.runs[k.run].status.Cancelled?
    ensures AttemptsOk(e)
  {
    forall q | Counted(e, q) ensures q in e.attempts {
      assert q != k ==> Counted(d, q);
    }
    forall q | q in e.attempts ensures Counted(e, q) && Agrees(e, q) && TurnKnown(e.attempts[q]) {
      if q != k {
        assert Counted(d, q) && Agrees(d, q);
      }
    }
  }

  /** Attempts other than the live ones of other tasks keep their rows. */
  lemma SubmittableStep(d: Db, e: Db, k: AttemptId)
    requires AttemptsOk(d) && OnAttempt(d, e, k) && Latest(d, e, k)
    requires k in d.attempts ==> (e.attempts[k].state.Prepared? ==> d.attempts[k].state.Prepared?)
    requires k !in d.attempts ==> e.attempts[k].state.Prepared?
    ensures SubmittableGrows(d, e)
  {
    forall r, i | r in d.runs && r in e.runs && 0 <= i < |d.runs[r].tasks| && i < |e.runs[r].tasks|
      ensures Submittable(d, r, i) <= Submittable(e, r, i)
    {
      var q := AttemptId(r, i, d.runs[r].tasks[i].attempts);
      if r == k.run && i == k.task && k.number != d.runs[r].tasks[i].attempts {
        assert !Counted(d, k) && k !in d.attempts;
        assert q.number > 0 ==> Counted(d, q) && Agrees(d, q);
      }
    }
  }

  lemma RunsStep(d: Db, e: Db, k: AttemptId)
    requires RunsOk(d) && OnAttempt(d, e, k) && RunOk(e.runs[k.run])
    requires e.accounts.Keys == d.accounts.Keys && e.sessions == d.sessions
    ensures RunsOk(e)
  {
  }

  lemma EvolvesStep(d: Db, e: Db, k: AttemptId)
    requires OnAttempt(d, e, k) && RunEvolves(d.runs[k.run], e.runs[k.run])
    requires k in d.attempts ==> AttemptEvolves(d.attempts[k], e.attempts[k])
    requires forall a | a in d.accounts :: a in e.accounts && AccountEvolves(d.accounts[a], e.accounts[a])
    requires e.artifacts == d.artifacts && d.events <= e.events
    ensures Evolves(d, e)
  {
    forall r | r in d.runs ensures r in e.runs && RunEvolves(d.runs[r], e.runs[r]) {
      assert r != k.run ==> e.runs[r] == d.runs[r];
    }
  }

  // ---------- Steps on one run that leave the attempts alone ----------

  lemma OneRunOk(d: Db, e: Db, r: Id)
    requires RunsOk(d) && r in d.runs && r in e.runs && e.runs == d.runs[r := e.runs[r]]
    requires RunOk(e.runs[r]) && e.runs[r].request == d.runs[r].request
    requires e.accounts == d.accounts && e.sessions == d.sessions
    ensures RunsOk(e)
  {
  }

  lemma OneRunEvolves(d: Db, e: Db, r: Id)
    requires r in d.runs && r in e.runs && e.runs == d.runs[r := e.runs[r]] && RunEvolves(d.runs[r], e.runs[r])
    requires e.accounts == d.accounts && e.attempts == d.attempts && d.events <= e.events
    requires forall id | id in d.artifacts :: id in e.artifacts && e.artifacts[id] == d.artifacts[id]
    ensures Evolves(d, e)
  {
    forall s | s in d.runs ensures s in e.runs && RunEvolves(d.runs[s], e.runs[s]) {
      assert s != r ==> e.runs[s] == d.runs[s];
    }
  }
}
