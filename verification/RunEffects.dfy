/** The whole effect of the transactions on one run: submit, suspend, resume, cancel, and resume after reattachment. */
module RunEffects {
  import opened Text
  import opened Tables
  import opened Scheduler
  import opened Recovery
  import opened Runs
  import opened Invariant
  import opened Operations
  import opened Conditions
  import opened LeaseEffects
  import Ranking

  // ---------- submit ----------

  /** Criteria with distinct names and positive weights that add up to 100. */
  predicate GoodCriteria(q: Request) {
    && 1 <= |q.criteria| <= 10 && Ranking.TotalWeight(q.criteria) == 100
    && (forall i | 0 <= i < |q.criteria| :: Filled(q.criteria[i].name) && |q.criteria[i].name| <= 120 && q.criteria[i].weight >= 1)
    && forall i, j | 0 <= i < |q.criteria| && 0 <= j < |q.criteria| && Trim(q.criteria[i].name) == Trim(q.criteria[j].name) :: i == j
  }

  predicate GoodRequest(q: Request) {
    && Filled(q.concept) && |q.concept| <= 64_000 && |q.constraints| <= 16_000 && 5 <= q.candidates <= 10
    && Filled(q.key) && Utf8Length(q.key) <= 128 && GoodCriteria(q)
  }

  lemma RequestIff(q: Request)
    ensures RequestOk(q) <==> GoodRequest(q)
  {
    FilledIff(q.concept);
    FilledIff(q.key);
    forall i | 0 <= i < |q.criteria| ensures Filled(q.criteria[i].name) <==> !Blank(q.criteria[i].name) {
      FilledIff(q.criteria[i].name);
    }
    hide Filled, Blank, Trim;
  }

  /** The row of a new run: the candidates in order, then the four reductions, three hours, and two submissions a task. */
  ghost predicate IsNewRun(run: Run, q: Request, model: ModelSelection, account: Account, now: Millis) {
    && run.request == q && run.model == model && run.created == now && run.deadline == Clamp(now + 10_800_000)
    && run.submissions == 0 && run.limit == 2 * (q.candidates + 4) && !run.allowIncomplete && run.recovery.None? && run.pauseReason.None?
    && run.status == (if account.readiness.Ready? || account.readiness.Cooldown? then Queued else WaitingForAuth)
    && |run.tasks| == q.candidates + 4
    && (forall i | 0 <= i < q.candidates :: run.tasks[i] == Task(Explore, i + 1, Todo, 0, None, None))
    && run.tasks[q.candidates..]
       == [Task(Compare, 0, Todo, 0, None, None), Task(Synthesize, 0, Todo, 0, None, None), Task(Critique, 0, Todo, 0, None, None),
           Task(Revise, 0, Todo, 0, None, None)]
  }

  lemma NewRunIs(q: Request, model: ModelSelection, account: Account, now: Millis)
    ensures IsNewRun(NewRun(q, model, StatusFor(account), now), q, model, account, now)
  {
    var tasks := NewTasks(q.candidates);
    assert forall i | q.candidates <= i < |tasks| :: tasks[i] == NewTask(q.candidates, i);
  }

  /** The model that counts: the caller's, or the one confirmed for the account. */
  predicate ModelFor(d: Db, account: Id, named: Option<ModelSelection>, model: ModelSelection) {
    && (if named.Some? then model == named.value else account in d.sessions && d.sessions[account].model == Some(model))
    && (model.Specific? ==> Filled(model.name) && Utf8Length(model.name) <= 200)
  }

  /** A request is taken exactly when it is well formed and new, its model is known, its account is registered, and the
      clock leaves room for a deadline; a repeated one names its run. Nothing but the new run is written. */
  lemma SubmitEffect(d: Db, q: Request, model: Option<ModelSelection>, now: Millis, r: Id)
    requires Valid(d)
    ensures var o := Submit(d, q, model, now, r);
            && (o.reply.Submitted? && o.reply.run in d.runs ==> o.db == d && d.runs[o.reply.run].request == q && GoodRequest(q))
            && (o.reply.Refused? ==> o.db == d) && (o.reply.Submitted? || o.reply.Refused?)
            && (o.reply.Refused? ==>
                  o.reply.code == if !GoodRequest(q) then InvalidRequest
                                  else if exists s :: s in d.runs && d.runs[s].request.key == q.key then IdempotencyConflict
                                  else if model.None? && q.account !in d.sessions then NotFound
                                  else if model.None? && d.sessions[q.account].model.None? then ModelSelectionRequired
                                  else if forall m :: !ModelFor(d, q.account, model, m) then InvalidModel
                                  else if q.account !in d.accounts then AccountNotFound
                                  else StorageError)
            && (o.reply.Submitted? && o.reply.run !in d.runs <==>
                  && GoodRequest(q) && (forall s | s in d.runs :: d.runs[s].request.key != q.key)
                  && (exists m :: ModelFor(d, q.account, model, m)) && q.account in d.accounts
                  && now < MAX_MS && r !in d.runs)
            && (o.reply.Submitted? && o.reply.run !in d.runs ==>
                  && o.reply.run == r && r in o.db.runs
                  && o.db == d.(runs := d.runs[r := o.db.runs[r]], events := d.events + [Event(r, RunCreated, now)])
                  && q.account in d.accounts && ModelFor(d, q.account, model, o.db.runs[r].model)
                  && IsNewRun(o.db.runs[r], q, o.db.runs[r].model, d.accounts[q.account], now))
            && ((exists s :: s in d.runs && d.runs[s].request == q) && GoodRequest(q) ==> o.reply.Submitted? && o.reply.run in d.runs)
  {
    hide Valid, Filled, GoodRequest, RequestOk, IsNewRun, NewRun;
    RequestIff(q);
    var chosen := ChosenModel(d, q.account, model);
    if chosen.0.Some? {
      ModelIff(d, q.account, model, chosen.0.value);
      if q.account in d.accounts { NewRunIs(q, chosen.0.value, d.accounts[q.account], now); }
      assert NewRun(q, chosen.0.value, Queued, now).model == chosen.0.value by { NewRunModel(q, chosen.0.value, Queued, now); }
      NewRunModel(q, chosen.0.value, WaitingForAuth, now);
    }
    forall m | ModelFor(d, q.account, model, m) ensures chosen.0 == Some(m) {}
    KeysAreUnique(d);
  }

  lemma NewRunModel(q: Request, model: ModelSelection, status: RunStatus, now: Millis)
    ensures NewRun(q, model, status, now).model == model
  {
  }

  lemma ModelIff(d: Db, account: Id, named: Option<ModelSelection>, model: ModelSelection)
    requires ChosenModel(d, account, named).0 == Some(model)
    ensures ModelOk(model) <==> ModelFor(d, account, named, model)
  {
    if model.Specific? { FilledIff(model.name); }
  }

  lemma KeysAreUnique(d: Db)
    requires Valid(d)
    ensures forall r, s | r in d.runs && s in d.runs && d.runs[r].request.key == d.runs[s].request.key :: r == s
  {
  }

  // ---------- suspend ----------

  lemma SuspendEffect(d: Db, r: Id, reason: Code, now: Millis)
    ensures var o := Suspend(d, r, reason, now);
            && (o.reply.Ok? <==> r in d.runs && (d.runs[r].status.Paused? || d.runs[r].status.Queued? || d.runs[r].status.Running?
                                                 || d.runs[r].status.WaitingForAuth?))
            && (!o.reply.Ok? ==> o.reply == Refused(if r in d.runs then InvalidTransition else NotFound) && o.db == d)
            && (o.reply.Ok? ==> r in o.db.runs && o.db.runs[r].status.Paused?)
            && (o.reply.Ok? && d.runs[r].status.Paused? ==> o.db == d)
            && (o.reply.Ok? && !d.runs[r].status.Paused? ==>
                  o.db == d.(runs := d.runs[r := d.runs[r].(status := Paused, pauseReason := Some(reason))],
                             events := d.events + [Event(r, RunPaused, now)]))
  {
  }

  // ---------- cancel ----------

  /** A run that has not ended otherwise is cancelled, and nothing else of it changes: its reservations wait for their
      acknowledgement. */
  lemma CancelEffect(d: Db, r: Id, now: Millis)
    ensures var o := Cancel(d, r, now);
            && (o.reply.Ok? <==> r in d.runs && !d.runs[r].status.Completed? && !d.runs[r].status.Failed?)
            && (!o.reply.Ok? ==> o.reply == Refused(if r in d.runs then InvalidTransition else NotFound) && o.db == d)
            && (o.reply.Ok? ==> r in o.db.runs && o.db.runs[r].status.Cancelled?)
            && (o.reply.Ok? && d.runs[r].status.Cancelled? ==> o.db == d)
            && (o.reply.Ok? && !d.runs[r].status.Cancelled? ==>
                  o.db == d.(runs := d.runs[r := d.runs[r].(status := Cancelled, pauseReason := None)],
                             events := d.events + [Event(r, RunCancelled, now)]))
  {
  }

  // ---------- resume ----------

  /** What an operator's retry does to a task: every stopped task that may have another attempt is queued. */
  predicate RetriedTask(t: Task, u: Task) {
    u == if (t.status.Broken? || t.status.Partial?) && t.attempts < 28 then t.(status := Todo, error := None) else t
  }

  /** What going on with a subset does to a task: every candidate that is not complete is excluded. */
  predicate SubsetTask(t: Task, u: Task) {
    u == if t.stage.Explore? && !t.status.Done? then t.(status := Excluded) else t
  }

  /** At least three candidates are complete, nothing of the run is reserved, and no reduction was touched. */
  predicate MayTakeSubset(d: Db, r: Id)
    requires r in d.runs
  {
    && |CompletedCandidates(d.runs[r].tasks)| >= 3
    && (forall x | x in d.reservations :: d.reservations[x].run != r)
    && forall i | 0 <= i < |d.runs[r].tasks| && !d.runs[r].tasks[i].stage.Explore? :: d.runs[r].tasks[i].status.Todo?
  }

  lemma SubsetIff(d: Db, r: Id)
    requires r in d.runs
    ensures SubsetAvailable(d, r) <==> MayTakeSubset(d, r)
  {
    CompletedExploresCounts(d.runs[r].tasks);
    hide CompletedExplores, CompletedCandidates;
  }

  /** The stopped tasks of a run that is not cancelled are those whose latest attempt failed or was partial. */
  lemma RetryableIff(d: Db, r: Id, i: nat)
    requires Valid(d) && r in d.runs && i < |d.runs[r].tasks| && !d.runs[r].status.Cancelled?
    ensures Retryable(d, r, i)
            <==> (d.runs[r].tasks[i].status.Broken? || d.runs[r].tasks[i].status.Partial?) && d.runs[r].tasks[i].attempts < 28
  {
    hide ReservationsOk, CapacityOk, AccountsOk, LogOk, PacingOk, BudgetOk, ArtifactsOk;
    RunIsOk(d, r);
    var k := AttemptId(r, i, d.runs[r].tasks[i].attempts);
    assert TaskOk(d.runs[r].tasks[i], d.runs[r].allowIncomplete);
    hide RunsOk, RunOk;
    if d.runs[r].tasks[i].status.Broken? || d.runs[r].tasks[i].status.Partial? {
      assert Counted(d, k);
      assert Agrees(d, k);
    }
  }

  lemma ResumeIsAccepted(d: Db, r: Id, allowIncomplete: bool, now: Millis)
    requires Valid(d)
    ensures var o := Resume(d, r, allowIncomplete, now);
            && (o.reply.Ok? <==>
                  && r in d.runs && now < d.runs[r].deadline && d.runs[r].submissions < d.runs[r].limit
                  && if (d.runs[r].status.Running? || d.runs[r].status.Queued?) && !allowIncomplete then true
                     else d.runs[r].status.Paused? && (allowIncomplete ==> MayTakeSubset(d, r)))
            && (!o.reply.Ok? ==> o.reply.Refused? && o.db == d)
            && (o.reply.Refused? ==>
                  o.reply.code == if r !in d.runs then NotFound
                                  else if now >= d.runs[r].deadline then RunDeadline
                                  else if d.runs[r].submissions >= d.runs[r].limit then BudgetExhausted
                                  else if !d.runs[r].status.Paused? then InvalidTransition
                                  else SubsetUnavailable)
            && (o.reply.Ok? && !d.runs[r].status.Paused? ==> o.db == d)
  {
    hide Valid, MayTakeSubset, SubsetAvailable, ExcludeOpen, Requeue;
    if r in d.runs {
      RunIsOk(d, r);
      SubsetIff(d, r);
    }
  }

  /** A paused run goes back to work: queued when its account can work or merely cools down, otherwise waiting for a
      login; every stopped task is tried again, or every open candidate is given up. */
  lemma ResumeEffect(d: Db, r: Id, allowIncomplete: bool, now: Millis)
    requires Valid(d) && r in d.runs && d.runs[r].status.Paused? && Resume(d, r, allowIncomplete, now).reply.Ok?
    ensures d.runs[r].request.account in d.accounts
    ensures var e := Resume(d, r, allowIncomplete, now).db;
            var run, readiness := d.runs[r], d.accounts[d.runs[r].request.account].readiness;
            && r in e.runs && |e.runs[r].tasks| == |run.tasks|
            && e == d.(runs := d.runs[r := e.runs[r]], events := d.events + [Event(r, RunResumed(allowIncomplete), now)])
            && e.runs[r] == run.(status := if readiness.Ready? || readiness.Cooldown? then Queued else WaitingForAuth,
                                 pauseReason := None, allowIncomplete := run.allowIncomplete || allowIncomplete, tasks := e.runs[r].tasks)
            && forall i | 0 <= i < |run.tasks| ::
                 if allowIncomplete then SubsetTask(run.tasks[i], e.runs[r].tasks[i]) else RetriedTask(run.tasks[i], e.runs[r].tasks[i])
  {
    hide Valid, SubsetAvailable, Retryable;
    RunIsOk(d, r);
    hide RunOk;
    forall i | 0 <= i < |d.runs[r].tasks| ensures
      Retryable(d, r, i)
      <==> (d.runs[r].tasks[i].status.Broken? || d.runs[r].tasks[i].status.Partial?) && d.runs[r].tasks[i].attempts < 28
    {
      RetryableIff(d, r, i);
    }
  }

  // ---------- resume_reattached ----------

  /** A reconciliation ends when every conversation still reserved was accepted and has just been reattached; the run goes
      back to where it was. */
  lemma ReattachedEffect(d: Db, r: Id, attached: set<AttemptId>, now: Millis)
    requires Valid(d)
    ensures var o := ResumeReattached(d, r, attached, now);
            && (o.reply == Flag(true) <==>
                  && r in d.runs && d.runs[r].status.Reconciling?
                  && forall x | x in d.reservations && d.reservations[x].run == r ::
                       && d.reservations[x].attempt in attached && d.reservations[x].attempt in d.attempts
                       && d.attempts[d.reservations[x].attempt].state.Accepted? && d.attempts[d.reservations[x].attempt].turn.Some?)
            && (o.reply == Flag(false) || o.reply == Refused(NotFound) || o.reply == Flag(true))
            && (o.reply == Refused(NotFound) <==> r !in d.runs)
            && (o.reply != Flag(true) ==> o.db == d)
            && (o.reply == Flag(true) ==>
                  o.db == d.(runs := d.runs[r := LedBack(d.runs[r], true)], events := d.events + [Event(r, ConversationsReconciled, now)]))
  {
    hide Valid;
  }
}
