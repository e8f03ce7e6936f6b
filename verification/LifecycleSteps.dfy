/** The steps that create, reopen, document and finish a run keep the invariant. */
module LifecycleSteps {
  import opened Text
  import opened Tables
  import opened Runs
  import opened Artifacts
  import opened Invariant
  import opened Preservation
  import opened Steps

  // ---------- Creating a run ----------

  /** What `submit` has checked before it inserts. */
  ghost predicate MayCreate(d: Db, q: Request, now: Millis, r: Id) {
    RequestOk(q) && !KeyUsed(d, q.key) && q.account in d.accounts && SatAdd(now, RUN_DEADLINE_MS) > now && r !in d.runs
  }

  function Created(d: Db, q: Request, model: ModelSelection, now: Millis, r: Id): Db
    requires q.account in d.accounts
  {
    Log(SetRun(d, r, NewRun(q, model, StatusFor(d.accounts[q.account]), now)), r, RunCreated, now)
  }

  lemma NewRunOk(q: Request, model: ModelSelection, status: RunStatus, now: Millis)
    requires RequestOk(q) && SatAdd(now, RUN_DEADLINE_MS) > now && (status.Queued? || status.WaitingForAuth?)
    ensures RunOk(NewRun(q, model, status, now))
  {
  }

  lemma CreatedRuns(d: Db, q: Request, model: ModelSelection, now: Millis, r: Id)
    requires RunsOk(d) && MayCreate(d, q, now, r)
    ensures RunsOk(Created(d, q, model, now, r)) && Evolves(d, Created(d, q, model, now, r))
  {
    NewRunOk(q, model, StatusFor(d.accounts[q.account]), now);
    var e := Created(d, q, model, now, r);
    forall s | s in d.runs ensures RunEvolves(d.runs[s], e.runs[s]) {}
  }

  lemma CreatedAttempts(d: Db, q: Request, model: ModelSelection, now: Millis, r: Id)
    requires AttemptsOk(d) && MayCreate(d, q, now, r)
    ensures AttemptsOk(Created(d, q, model, now, r))
  {
    var e := Created(d, q, model, now, r);
    forall k | Counted(e, k) ensures Counted(d, k) {}
    forall k | k in e.attempts ensures Counted(e, k) && Agrees(e, k) {
      assert Counted(d, k) && Agrees(d, k);
    }
  }

  lemma CreatedQuiet(d: Db, q: Request, model: ModelSelection, now: Millis, r: Id)
    requires AttemptsOk(d) && MayCreate(d, q, now, r)
    ensures var e := Created(d, q, model, now, r);
            NoNewStarts(d, e) && NoNewClaims(d, e) && SubmittableGrows(d, e) && NoNewResults(d, e) && SameLive(d, e) && SameRequests(d, e)
  {
    assert forall k | k in d.attempts :: Counted(d, k);
  }

  lemma CreateKeeps(d: Db, q: Request, model: ModelSelection, now: Millis, r: Id)
    requires Valid(d) && MayCreate(d, q, now, r)
    ensures Good(d, Created(d, q, model, now, r))
  {
    var e := Created(d, q, model, now, r);
    CreatedRuns(d, q, model, now, r);
    CreatedAttempts(d, q, model, now, r);
    CreatedQuiet(d, q, model, now, r);
    ReservationsFrame(d, e);
    CapacityFrame(d, e);
    AccountsFrame(d, e);
    QuietRest(d, e);
  }

  // ---------- Reopening a run ----------

  /** The task rows an operator resume produces. */
  function ResumedTasks(d: Db, r: Id, allowIncomplete: bool): seq<Task>
    requires r in d.runs
  {
    if allowIncomplete then ExcludeOpen(d.runs[r].tasks) else Requeue(d, r)
  }

  ghost predicate MayReopen(d: Db, r: Id, allowIncomplete: bool) {
    && r in d.runs && d.runs[r].status.Paused? && d.runs[r].request.account in d.accounts
    && (allowIncomplete ==> SubsetAvailable(d, r))
  }

  function Reopened(d: Db, r: Id, allowIncomplete: bool, now: Millis): Db
    requires r in d.runs && d.runs[r].request.account in d.accounts
  {
    Reopen(d, r, ResumedTasks(d, r, allowIncomplete), allowIncomplete, now)
  }

  /** A running task shows in the reservations of its run. */
  lemma ActiveHolds(d: Db, r: Id, i: nat)
    requires AttemptsOk(d) && ReservationsOk(d) && RunsOk(d) && r in d.runs && i < |d.runs[r].tasks|
    requires d.runs[r].tasks[i].status.Active?
    ensures HoldsReservation(d, r)
  {
    var k := AttemptId(r, i, d.runs[r].tasks[i].attempts);
    assert TaskOk(d.runs[r].tasks[i], d.runs[r].allowIncomplete);
    assert Counted(d, k) && Agrees(d, k);
    assert Reserved(d, k);
    var x :| x in d.reservations && d.reservations[x].attempt == k;
    assert ReservationOk(d, d.reservations[x]);
  }

  /** One task row before and after an operator resume. */
  predicate TaskReopened(t: Task, u: Task, allowIncomplete: bool) {
    && TaskEvolves(t, u) && u == t.(status := u.status, error := u.error)
    && TaskOk(u, allowIncomplete)
  }

  predicate RunReopened(r: Run, s: Run) {
    && |s.tasks| == |r.tasks| && (forall i | 0 <= i < |r.tasks| :: TaskReopened(r.tasks[i], s.tasks[i], s.allowIncomplete))
    && s == r.(tasks := s.tasks, status := s.status, pauseReason := s.pauseReason, allowIncomplete := s.allowIncomplete)
    && (r.allowIncomplete ==> s.allowIncomplete)
    && r.status.Paused? && (s.status.Queued? || s.status.WaitingForAuth?)
  }

  lemma ReopenedRunOk(r: Run, s: Run)
    requires RunOk(r) && RunReopened(r, s)
    ensures RunOk(s) && RunEvolves(r, s)
  {
    assert forall i | 0 <= i < |r.tasks| :: TaskReopened(r.tasks[i], s.tasks[i], s.allowIncomplete);
    forall j | r.request.candidates <= j < |s.tasks| && s.tasks[j].attempts > 0 ensures StageOpen(s, j) {
      StageOpenKeeps(r, s, j);
    }
  }

  lemma ResumedTask(d: Db, r: Id, allowIncomplete: bool, i: nat)
    requires r in d.runs && RunOk(d.runs[r]) && i < |d.runs[r].tasks|
    ensures var t, u := d.runs[r].tasks[i], ResumedTasks(d, r, allowIncomplete)[i];
            && TaskReopened(t, u, d.runs[r].allowIncomplete || allowIncomplete)
            && Claims(u) <= Claims(t) + if allowIncomplete then 0 else 1
  {
    assert TaskOk(d.runs[r].tasks[i], d.runs[r].allowIncomplete);
  }

  lemma ReopenedIsReopened(d: Db, r: Id, allowIncomplete: bool, now: Millis)
    requires RunsOk(d) && MayReopen(d, r, allowIncomplete)
    ensures RunReopened(d.runs[r], Reopened(d, r, allowIncomplete, now).runs[r])
  {
    forall i | 0 <= i < |d.runs[r].tasks|
      ensures TaskReopened(d.runs[r].tasks[i], ResumedTasks(d, r, allowIncomplete)[i], d.runs[r].allowIncomplete || allowIncomplete)
    {
      ResumedTask(d, r, allowIncomplete, i);
    }
  }

  /** The latest attempt still explains the task it belongs to. */
  lemma ResumedAgrees(d: Db, r: Id, allowIncomplete: bool, k: AttemptId)
    requires AttemptsOk(d) && ReservationsOk(d) && RunsOk(d) && MayReopen(d, r, allowIncomplete)
    requires k in d.attempts && k.run == r && Counted(d, k)
    requires k.number == d.runs[r].tasks[k.task].attempts
    ensures Explains(d.attempts[k].state, ResumedTasks(d, r, allowIncomplete)[k.task].status)
  {
    assert Agrees(d, k);
    if allowIncomplete && d.runs[r].tasks[k.task].status.Active? { ActiveHolds(d, r, k.task); }
  }

  lemma ReopenedAttempts(d: Db, e: Db, r: Id)
    requires AttemptsOk(d) && r in d.runs && r in e.runs && RunReopened(d.runs[r], e.runs[r])
    requires e.runs == d.runs[r := e.runs[r]] && e.attempts == d.attempts
    requires forall k | k in d.attempts && k.run == r && Counted(d, k) && k.number == d.runs[r].tasks[k.task].attempts ::
               Explains(d.attempts[k].state, e.runs[r].tasks[k.task].status)
    ensures AttemptsOk(e)
  {
    assert forall i | 0 <= i < |d.runs[r].tasks| :: TaskReopened(d.runs[r].tasks[i], e.runs[r].tasks[i], e.runs[r].allowIncomplete);
    forall k | Counted(e, k) ensures Counted(d, k) {}
    forall k | k in e.attempts ensures Counted(e, k) && Agrees(e, k) {
      assert Counted(d, k) && Agrees(d, k);
    }
  }

  ghost predicate OneReopened(d: Db, e: Db, r: Id, allowIncomplete: bool, now: Millis) {
    && r in d.runs && r in e.runs && RunReopened(d.runs[r], e.runs[r])
    && e == d.(runs := d.runs[r := e.runs[r]], events := d.events + [Event(r, RunResumed(allowIncomplete), now)])
  }

  lemma ReopenedQuiet(d: Db, e: Db, r: Id, allowIncomplete: bool, now: Millis)
    requires OneReopened(d, e, r, allowIncomplete, now)
    ensures NoNewStarts(d, e) && SubmittableGrows(d, e) && SameLive(d, e) && SameRequests(d, e)
  {
    assert forall i | 0 <= i < |d.runs[r].tasks| :: TaskReopened(d.runs[r].tasks[i], e.runs[r].tasks[i], e.runs[r].allowIncomplete);
  }

  lemma ReopenedResults(d: Db, e: Db, r: Id, allowIncomplete: bool, now: Millis)
    requires AttemptsOk(d) && OneReopened(d, e, r, allowIncomplete, now)
    ensures NoNewResults(d, e)
  {
    assert forall k | k in d.attempts :: Counted(d, k);
  }

  /** Every requeued task is paid for by the operator's resume event. */
  lemma ReopenedBudget(d: Db, e: Db, r: Id, allowIncomplete: bool, now: Millis)
    requires BudgetOk(d) && OneReopened(d, e, r, allowIncomplete, now) && SubmittableGrows(d, e)
    requires forall i | 0 <= i < |d.runs[r].tasks| ::
               Claims(e.runs[r].tasks[i]) <= Claims(d.runs[r].tasks[i]) + if allowIncomplete then 0 else 1
    ensures BudgetOk(e)
  {
    assert e.events[..|d.events|] == d.events;
    forall s | s in e.runs
      ensures Resumes(e.events, s) == Resumes(d.events, s) + if s == r && !allowIncomplete then 1 else 0
      ensures |e.runs[s].tasks| == |d.runs[s].tasks|
      ensures e.runs[s].submissions <= TotalSubmittable(e, s, |e.runs[s].tasks|)
    {
      SubmittableMonotone(d, e, s, |d.runs[s].tasks|);
    }
  }

  lemma ReopenedEvolves(d: Db, e: Db, r: Id, allowIncomplete: bool, now: Millis)
    requires RunsOk(d) && OneReopened(d, e, r, allowIncomplete, now)
    ensures RunsOk(e) && Evolves(d, e)
  {
    ReopenedRunOk(d.runs[r], e.runs[r]);
    OneRunOk(d, e, r);
    OneRunEvolves(d, e, r);
  }

  lemma ReopenKeeps(d: Db, r: Id, allowIncomplete: bool, now: Millis)
    requires Valid(d) && MayReopen(d, r, allowIncomplete)
    ensures Good(d, Reopened(d, r, allowIncomplete, now))
  {
    var e := Reopened(d, r, allowIncomplete, now);
    ReopenedIsReopened(d, r, allowIncomplete, now);
    assert OneReopened(d, e, r, allowIncomplete, now);
    forall i | 0 <= i < |d.runs[r].tasks|
      ensures Claims(e.runs[r].tasks[i]) <= Claims(d.runs[r].tasks[i]) + if allowIncomplete then 0 else 1
    {
      ResumedTask(d, r, allowIncomplete, i);
    }
    forall k | k in d.attempts && k.run == r && Counted(d, k) && k.number == d.runs[r].tasks[k.task].attempts
      ensures Explains(d.attempts[k].state, e.runs[r].tasks[k.task].status)
    {
      ResumedAgrees(d, r, allowIncomplete, k);
    }
    ReopenedEvolves(d, e, r, allowIncomplete, now);
    ReopenedAttempts(d, e, r);
    ReopenedQuiet(d, e, r, allowIncomplete, now);
    ReopenedBudget(d, e, r, allowIncomplete, now);
    ReopenedResults(d, e, r, allowIncomplete, now);
    ReservationsFrame(d, e);
    CapacityFrame(d, e);
    AccountsFrame(d, e);
    QuietLog(d, e);
    QuietPacing(d, e);
    QuietArtifacts(d, e);
  }

  // ---------- Storing artifacts ----------

  ghost predicate ArtifactsGrow(d: Db, e: Db) {
    forall id | id in d.artifacts :: id in e.artifacts && e.artifacts[id] == d.artifacts[id]
  }

  /** Artifacts are added, and the running task of attempt `k` may get its summary. */
  ghost predicate Documents(d: Db, e: Db, k: AttemptId) {
    && k in d.attempts && Live(d.attempts[k].state)
    && k.run in d.runs && k.run in e.runs && k.task < |d.runs[k.run].tasks| && k.task < |e.runs[k.run].tasks|
    && e == d.(artifacts := e.artifacts, runs := d.runs[k.run := e.runs[k.run]])
    && e.runs[k.run] == SetTask(d.runs[k.run], k.task, d.runs[k.run].tasks[k.task].(summary := e.runs[k.run].tasks[k.task].summary))
    && ArtifactsGrow(d, e)
  }

  lemma SummaryRun(r: Run, s: Run, i: nat)
    requires RunOk(r) && i < |r.tasks| && r.tasks[i].status.Active? && TaskOk(r.tasks[i], r.allowIncomplete)
    requires i < |s.tasks| && s == SetTask(r, i, r.tasks[i].(summary := s.tasks[i].summary))
    ensures RunOk(s) && RunEvolves(r, s)
  {
    forall j | 0 <= j < |r.tasks| ensures TaskEvolves(r.tasks[j], s.tasks[j]) {
      assert j != i ==> s.tasks[j] == r.tasks[j];
    }
    if i >= r.request.candidates {
      assert StageOpen(r, i);
    }
    OneTaskKeepsRun(r, s, i, s.tasks[i]);
  }

  lemma DocumentTables(d: Db, e: Db, k: AttemptId)
    requires RunsOk(d) && AttemptsOk(d) && Documents(d, e, k)
    ensures RunsOk(e) && Evolves(d, e)
  {
    Row(d, k);
    SummaryRun(d.runs[k.run], e.runs[k.run], k.task);
    OneRunOk(d, e, k.run);
    OneRunEvolves(d, e, k.run);
  }

  lemma DocumentAttempts(d: Db, e: Db, k: AttemptId)
    requires RunsOk(d) && AttemptsOk(d) && Documents(d, e, k)
    ensures AttemptsOk(e)
  {
    Row(d, k);
    assert OnAttempt(d, e, k) && Latest(d, e, k);
    AttemptsStep(d, e, k);
  }

  lemma DocumentQuiet(d: Db, e: Db, k: AttemptId)
    requires Documents(d, e, k)
    ensures NoNewStarts(d, e) && NoNewClaims(d, e) && SubmittableGrows(d, e) && SameLive(d, e) && SameRequests(d, e)
  {
  }

  lemma DocumentResults(d: Db, e: Db, k: AttemptId)
    requires AttemptsOk(d) && Documents(d, e, k)
    ensures NoNewResults(d, e)
  {
    assert forall q | q in d.attempts :: Counted(d, q);
  }

  lemma DocumentKeeps(d: Db, e: Db, k: AttemptId)
    requires Valid(d) && Documents(d, e, k)
    ensures Good(d, e)
  {
    DocumentTables(d, e, k);
    DocumentAttempts(d, e, k);
    DocumentQuiet(d, e, k);
    DocumentResults(d, e, k);
    ReservationsFrame(d, e);
    CapacityFrame(d, e);
    AccountsFrame(d, e);
    QuietRest(d, e);
  }

  // ---------- Finishing a run ----------

  ghost predicate MayFinish(d: Db, r: Id, draws: Draws) {
    && r in d.runs && !Terminal(d.runs[r].status) && draws.manifest !in d.artifacts
    && RunOk(d.runs[r]) && d.runs[r].tasks[d.runs[r].request.candidates + 3].status.Done?
  }

  lemma FinishRun(d: Db, r: Id, now: Millis, draws: Draws)
    requires MayFinish(d, r, draws)
    ensures RunOk(Finish(d, r, now, draws).runs[r]) && RunEvolves(d.runs[r], Finish(d, r, now, draws).runs[r])
  {
    var s := Finish(d, r, now, draws).runs[r];
    assert RunEvolves(d.runs[r], s);
    forall j | d.runs[r].request.candidates <= j < |s.tasks| && s.tasks[j].attempts > 0 ensures StageOpen(s, j) {
      StageOpenKeeps(d.runs[r], s, j);
    }
  }

  lemma FinishTables(d: Db, r: Id, now: Millis, draws: Draws)
    requires RunsOk(d) && MayFinish(d, r, draws)
    ensures var e := Finish(d, r, now, draws); RunsOk(e) && Evolves(d, e)
  {
    var e := Finish(d, r, now, draws);
    FinishRun(d, r, now, draws);
    OneRunOk(d, e, r);
    OneRunEvolves(d, e, r);
  }

  lemma FinishQuiet(d: Db, r: Id, now: Millis, draws: Draws)
    requires MayFinish(d, r, draws)
    ensures var e := Finish(d, r, now, draws);
            NoNewStarts(d, e) && NoNewClaims(d, e) && SubmittableGrows(d, e) && SameLive(d, e) && SameRequests(d, e) && SameTasks(d, e)
  {
  }

  lemma FinishResults(d: Db, r: Id, now: Millis, draws: Draws)
    requires MayFinish(d, r, draws)
    ensures NoNewResults(d, Finish(d, r, now, draws))
  {
    var e := Finish(d, r, now, draws);
    assert Matches(e.artifacts[draws.manifest], r, ManifestFile, None, true);
  }

  lemma FinishKeeps(d: Db, r: Id, now: Millis, draws: Draws)
    requires Valid(d) && MayFinish(d, r, draws)
    ensures Good(d, Finish(d, r, now, draws))
  {
    var e := Finish(d, r, now, draws);
    FinishTables(d, r, now, draws);
    FinishQuiet(d, r, now, draws);
    FinishResults(d, r, now, draws);
    AttemptsFrame(d, e);
    ReservationsFrame(d, e);
    CapacityFrame(d, e);
    AccountsFrame(d, e);
    QuietRest(d, e);
  }
}
