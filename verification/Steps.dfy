/** The steps that start, charge, keep and end an attempt keep the invariant. */
module Steps {
  import opened Tables
  import opened Scheduler
  import opened Invariant
  import opened Preservation

  // ---------- Reading one row out of the invariant ----------

  lemma Row(db: Db, k: AttemptId)
    requires RunsOk(db) && AttemptsOk(db) && k in db.attempts
    ensures Counted(db, k) && Agrees(db, k) && TurnKnown(db.attempts[k]) && Joined(db, k)
    ensures RunOk(db.runs[k.run]) && db.runs[k.run].request.account in db.accounts
    ensures TaskOk(db.runs[k.run].tasks[k.task], db.runs[k.run].allowIncomplete)
    ensures Live(db.attempts[k].state) ==> k.number == db.runs[k.run].tasks[k.task].attempts && db.runs[k.run].tasks[k.task].status.Active?
  {
  }

  /** A lease on a live attempt, the latest of its running task, in a run of its account. */
  ghost predicate Leased(db: Db, lease: Lease) {
    var k := lease.attempt;
    && k in db.attempts && Live(db.attempts[k].state) && TurnKnown(db.attempts[k])
    && Counted(db, k) && k.run == lease.run
    && k.number == db.runs[lease.run].tasks[k.task].attempts && db.runs[lease.run].tasks[k.task].status.Active?
    && RunOk(db.runs[lease.run]) && TaskOk(db.runs[lease.run].tasks[k.task], db.runs[lease.run].allowIncomplete)
    && !db.runs[lease.run].status.Completed?
    && lease.account in db.accounts && db.runs[lease.run].request.account == lease.account
    && lease.reservation in db.reservations && db.reservations[lease.reservation].attempt == k
    && ReservationOk(db, db.reservations[lease.reservation])
    && db.runs[lease.run].tasks[k.task].stage == lease.stage && db.runs[lease.run].tasks[k.task].position == lease.position
  }

  lemma OwnedRow(db: Db, lease: Lease)
    requires RunsOk(db) && AttemptsOk(db) && ReservationsOk(db) && Owns(db, lease)
    ensures Leased(db, lease)
  {
    assert ReservationOk(db, db.reservations[lease.reservation]);
    Row(db, lease.attempt);
    CompletedIsDone(db.runs[lease.run]);
  }

  /** In a completed run every task is completed or excluded. */
  lemma CompletedIsDone(run: Run)
    requires RunOk(run)
    ensures run.status.Completed? ==> forall i | 0 <= i < |run.tasks| :: run.tasks[i].status.Done? || run.tasks[i].status.Excluded?
  {
    if run.status.Completed? {
      var last := run.request.candidates + 3;
      assert TaskOk(run.tasks[last], run.allowIncomplete) && StageOpen(run, last);
    }
  }

  lemma StartableIsOpen(run: Run, i: nat)
    requires RunOk(run) && i < |run.tasks| && Startable(run, run.tasks[i])
    ensures i >= run.request.candidates ==> StageOpen(run, i)
  {
    var n := run.request.candidates;
    if i > n {
      var p := Prerequisite(run.tasks[i].stage).value;
      var j :| 0 <= j < |run.tasks| && run.tasks[j].stage == p && run.tasks[j].status.Done?;
      assert j == i - 1;
      assert TaskOk(run.tasks[j], run.allowIncomplete) && StageOpen(run, j);
    }
  }

  // ---------- Starting an attempt ----------

  lemma GrantShape(d: Db, r: Id, i: nat, now: Millis, spacing: int, x: Id)
    requires AttemptsOk(d) && r in d.runs && i < |d.runs[r].tasks| && Startable(d.runs[r], d.runs[r].tasks[i])
    requires Waiting(d.runs[r].status) && d.runs[r].request.account in d.accounts
    ensures var e := Grant(d, r, i, now, spacing, x);
            var k := AttemptId(r, i, d.runs[r].tasks[i].attempts + 1);
            k !in d.attempts && OnAttempt(d, e, k) && Latest(d, e, k)
  {
    assert !Counted(d, AttemptId(r, i, d.runs[r].tasks[i].attempts + 1));
  }

  lemma GrantRun(d: Db, r: Id, i: nat, now: Millis, spacing: int, x: Id)
    requires RunsOk(d) && r in d.runs && i < |d.runs[r].tasks| && Startable(d.runs[r], d.runs[r].tasks[i])
    requires Waiting(d.runs[r].status) && d.runs[r].request.account in d.accounts
    ensures var e := Grant(d, r, i, now, spacing, x); RunOk(e.runs[r]) && RunEvolves(d.runs[r], e.runs[r])
  {
    var e := Grant(d, r, i, now, spacing, x);
    assert TaskOk(d.runs[r].tasks[i], d.runs[r].allowIncomplete);
    StartableIsOpen(d.runs[r], i);
    OneTaskKeepsRun(d.runs[r], e.runs[r], i, e.runs[r].tasks[i]);
  }

  lemma GrantRuns(d: Db, r: Id, i: nat, now: Millis, spacing: int, x: Id)
    requires RunsOk(d) && r in d.runs && i < |d.runs[r].tasks| && Startable(d.runs[r], d.runs[r].tasks[i])
    requires Waiting(d.runs[r].status) && d.runs[r].request.account in d.accounts
    requires spacing >= 0 && now >= d.accounts[d.runs[r].request.account].nextSubmit
    requires AttemptId(r, i, d.runs[r].tasks[i].attempts + 1) !in d.attempts
    requires OnAttempt(d, Grant(d, r, i, now, spacing, x), AttemptId(r, i, d.runs[r].tasks[i].attempts + 1))
    ensures RunsOk(Grant(d, r, i, now, spacing, x)) && Evolves(d, Grant(d, r, i, now, spacing, x))
  {
    var e := Grant(d, r, i, now, spacing, x);
    var k := AttemptId(r, i, d.runs[r].tasks[i].attempts + 1);
    GrantRun(d, r, i, now, spacing, x);
    RunsStep(d, e, k);
    EvolvesStep(d, e, k);
  }

  lemma GrantReservations(d: Db, r: Id, i: nat, now: Millis, spacing: int, x: Id)
    requires ReservationsOk(d) && r in d.runs && i < |d.runs[r].tasks| && d.runs[r].request.account in d.accounts
    requires x !in d.reservations && AttemptId(r, i, d.runs[r].tasks[i].attempts + 1) !in d.attempts
    requires SUBMISSION_SPACING_MS <= spacing <= SUBMISSION_SPACING_MS + MAX_JITTER_MS
    ensures ReservationsOk(Grant(d, r, i, now, spacing, x))
  {
    var e := Grant(d, r, i, now, spacing, x);
    var k := AttemptId(r, i, d.runs[r].tasks[i].attempts + 1);
    assert e.reservations[x].attempt == k;
    forall q | q in e.attempts && Live(e.attempts[q].state) ensures Reserved(e, q) {
      if q != k {
        assert Reserved(d, q);
        var y :| y in d.reservations && d.reservations[y].attempt == q;
        assert y in e.reservations && e.reservations[y].attempt == q;
      }
    }
    forall y | y in e.reservations ensures ReservationOk(e, e.reservations[y]) && (y != x ==> e.reservations[y].attempt != k) {
      if y != x { assert ReservationOk(d, d.reservations[y]); }
    }
  }

  lemma HeldAdd(m: map<Id, Reservation>, x: Id, held: Reservation, a: Id)
    requires x !in m
    ensures |Scheduler.Held(m[x := held], a)| == |Scheduler.Held(m, a)| + if held.account == a then 1 else 0
  {
    assert Scheduler.Held(m[x := held], a) == Scheduler.Held(m, a) + if held.account == a then {x} else {};
  }

  lemma HeldRemove(m: map<Id, Reservation>, x: Id, a: Id)
    ensures Scheduler.Held(m - {x}, a) == Scheduler.Held(m, a) - {x}
    ensures |Scheduler.Held(m - {x}, a)| <= |Scheduler.Held(m, a)|
  {
    assert Scheduler.Held(m - {x}, a) == Scheduler.Held(m, a) - {x};
  }

  lemma GrantCapacity(d: Db, r: Id, i: nat, now: Millis, spacing: int, x: Id)
    requires CapacityOk(d) && r in d.runs && i < |d.runs[r].tasks| && d.runs[r].request.account in d.accounts
    requires x !in d.reservations
    requires |Scheduler.Held(d.reservations, d.runs[r].request.account)| < Min(d.accounts[d.runs[r].request.account].capacity, MAX_SLOTS)
    ensures CapacityOk(Grant(d, r, i, now, spacing, x))
  {
    var e := Grant(d, r, i, now, spacing, x);
    forall a | a in e.accounts ensures |Scheduler.Held(e.reservations, a)| <= Min(e.accounts[a].capacity, MAX_SLOTS) {
      HeldAdd(d.reservations, x, e.reservations[x], a);
    }
  }

  /** What `claim` has checked before it starts a task. */
  ghost predicate MayGrant(d: Db, r: Id, i: nat, now: Millis, spacing: int, x: Id) {
    && r in d.runs && i < |d.runs[r].tasks| && Startable(d.runs[r], d.runs[r].tasks[i])
    && Waiting(d.runs[r].status) && AccountOpen(d, d.runs[r].request.account, now)
    && x !in d.reservations && SUBMISSION_SPACING_MS <= spacing <= SUBMISSION_SPACING_MS + MAX_JITTER_MS
  }

  lemma GrantQuiet(d: Db, r: Id, i: nat, now: Millis, spacing: int, x: Id)
    requires MayGrant(d, r, i, now, spacing, x) && AccountsOk(d)
    requires AttemptId(r, i, d.runs[r].tasks[i].attempts + 1) !in d.attempts
    ensures var e := Grant(d, r, i, now, spacing, x); NoNewStarts(d, e) && NoNewClaims(d, e) && AccountsOk(e)
  {
  }

  lemma GrantResults(d: Db, r: Id, i: nat, now: Millis, spacing: int, x: Id)
    requires MayGrant(d, r, i, now, spacing, x) && AttemptsOk(d)
    ensures NoNewResults(d, Grant(d, r, i, now, spacing, x))
  {
  }

  lemma GrantKeeps(d: Db, r: Id, i: nat, now: Millis, spacing: int, x: Id)
    requires Valid(d) && MayGrant(d, r, i, now, spacing, x)
    ensures Good(d, Grant(d, r, i, now, spacing, x))
  {
    var e := Grant(d, r, i, now, spacing, x);
    var k := AttemptId(r, i, d.runs[r].tasks[i].attempts + 1);
    GrantShape(d, r, i, now, spacing, x);
    GrantRuns(d, r, i, now, spacing, x);
    AttemptsStep(d, e, k);
    GrantReservations(d, r, i, now, spacing, x);
    GrantCapacity(d, r, i, now, spacing, x);
    GrantQuiet(d, r, i, now, spacing, x);
    GrantResults(d, r, i, now, spacing, x);
    SubmittableStep(d, e, k);
    QuietRest(d, e);
  }

  // ---------- Charging a submission ----------

  lemma ChargeShape(d: Db, lease: Lease, now: Millis)
    requires Leased(d, lease) && Owns(d, lease) && d.attempts[lease.attempt].state.Prepared?
    requires Waiting(d.runs[lease.run].status)
    ensures var e := Charge(d, lease, now);
            OnAttempt(d, e, lease.attempt) && Latest(d, e, lease.attempt) && SameLive(d, e) && SameRequests(d, e)
  {
    var e := Charge(d, lease, now);
    assert e.runs[lease.run].tasks == d.runs[lease.run].tasks[lease.attempt.task := e.runs[lease.run].tasks[lease.attempt.task]];
  }

  lemma ChargeRun(d: Db, lease: Lease, now: Millis)
    requires Leased(d, lease) && Owns(d, lease) && Waiting(d.runs[lease.run].status) && !Exhausted(d.runs[lease.run], now)
    ensures var e := Charge(d, lease, now); RunOk(e.runs[lease.run]) && RunEvolves(d.runs[lease.run], e.runs[lease.run])
  {
    var e := Charge(d, lease, now);
    var r, s := d.runs[lease.run], e.runs[lease.run];
    assert s.tasks == r.tasks[lease.attempt.task := r.tasks[lease.attempt.task]];
    assert RunEvolves(r, s);
    if lease.attempt.task >= r.request.candidates {
      assert StageOpen(r, lease.attempt.task);
    }
    OneTaskKeepsRun(r, s, lease.attempt.task, r.tasks[lease.attempt.task]);
  }

  lemma ChargeAccounts(d: Db, lease: Lease, now: Millis)
    requires Leased(d, lease) && Owns(d, lease) && AccountsOk(d) && now >= d.accounts[lease.account].submissionAllowed
    ensures AccountsOk(Charge(d, lease, now))
    ensures forall a | a in d.accounts :: a in Charge(d, lease, now).accounts && AccountEvolves(d.accounts[a], Charge(d, lease, now).accounts[a])
  {
  }

  /** The log so far, seen after one more submission. */
  lemma ChargeOldEvent(d: Db, lease: Lease, now: Millis, i: nat)
    requires LogOk(d) && Leased(d, lease) && Owns(d, lease) && d.attempts[lease.attempt].state.Prepared? && i < |d.events|
    ensures var e := Charge(d, lease, now);
            && e.events[i] == d.events[i] && StartOk(e, e.events[i]) && StartOk(d, d.events[i])
            && (Starts(d.events[i]) ==> d.events[i].kind.attempt != lease.attempt)
  {
    assert StartOk(d, d.events[i]);
  }

  lemma ChargeCounts(d: Db, lease: Lease, now: Millis)
    requires LogOk(d) && Leased(d, lease) && Owns(d, lease)
    ensures var e := Charge(d, lease, now); forall r | r in e.runs :: e.runs[r].submissions == Submissions(e.events, r)
  {
    var e := Charge(d, lease, now);
    assert e.events[..|d.events|] == d.events;
    forall r | r in e.runs ensures e.runs[r].submissions == Submissions(e.events, r) {
      assert d.runs[r].submissions == Submissions(d.events, r);
    }
  }

  lemma ChargeLog(d: Db, lease: Lease, now: Millis)
    requires LogOk(d) && Leased(d, lease) && Owns(d, lease) && d.attempts[lease.attempt].state.Prepared?
    ensures LogOk(Charge(d, lease, now))
  {
    var e := Charge(d, lease, now);
    var n := |d.events|;
    forall i | 0 <= i < n
      ensures e.events[i] == d.events[i] && StartOk(e, e.events[i]) && (Starts(d.events[i]) ==> d.events[i].kind.attempt != lease.attempt)
    {
      ChargeOldEvent(d, lease, now, i);
    }
    ChargeCounts(d, lease, now);
    assert e.events[n].kind == SubmissionStarted(lease.attempt);
    forall k | k in e.attempts && Charged(e.attempts[k].state) ensures Started(e.events, k) {
      if k != lease.attempt { StartedKeeps(d.events, e.events, k); }
    }
  }

  lemma ChargeOldStart(d: Db, lease: Lease, now: Millis, i: nat, a: Id)
    requires LogOk(d) && RunsOk(d) && Leased(d, lease) && Owns(d, lease) && d.attempts[lease.attempt].state.Prepared?
    requires i < |d.events| && StartsOn(Charge(d, lease, now), d.events[i], a)
    ensures a in d.accounts && StartsOn(d, d.events[i], a)
  {
    assert StartOk(d, d.events[i]);
  }

  /** Every earlier submission on an account keeps its distance to the account's next slot. */
  lemma ChargePacingSlots(d: Db, lease: Lease, now: Millis, i: nat, a: Id)
    requires PacingOk(d) && LogOk(d) && RunsOk(d) && Leased(d, lease) && Owns(d, lease)
    requires d.attempts[lease.attempt].state.Prepared? && now >= d.accounts[lease.account].submissionAllowed
    requires i <= |d.events| && a in d.accounts && StartsOn(Charge(d, lease, now), Charge(d, lease, now).events[i], a)
    ensures var e := Charge(d, lease, now); NextAfter(e.events[i].at) <= e.accounts[a].submissionAllowed
    ensures i < |d.events| && a == lease.account ==> NextAfter(d.events[i].at) <= now
  {
    if i < |d.events| { ChargeOldStart(d, lease, now, i, a); }
  }

  lemma ChargePacing(d: Db, lease: Lease, now: Millis)
    requires PacingOk(d) && LogOk(d) && RunsOk(d) && Leased(d, lease) && Owns(d, lease)
    requires d.attempts[lease.attempt].state.Prepared? && now >= d.accounts[lease.account].submissionAllowed
    ensures PacingOk(Charge(d, lease, now))
  {
    var e := Charge(d, lease, now);
    var n := |d.events|;
    forall i, a | 0 <= i < |e.events| && a in e.accounts && StartsOn(e, e.events[i], a)
      ensures NextAfter(e.events[i].at) <= e.accounts[a].submissionAllowed
    {
      ChargePacingSlots(d, lease, now, i, a);
    }
    forall i, j, a | 0 <= i < j < |e.events| && StartsOn(e, e.events[i], a) && StartsOn(e, e.events[j], a)
      ensures NextAfter(e.events[i].at) <= e.events[j].at
    {
      ChargeOldStart(d, lease, now, i, a);
      if j < n {
        ChargeOldStart(d, lease, now, j, a);
      } else {
        ChargePacingSlots(d, lease, now, i, a);
      }
    }
  }

  lemma {:induction false} TotalBump(d: Db, e: Db, r: Id, i: nat, n: nat)
    requires r in d.runs && r in e.runs && i < n <= |d.runs[r].tasks| && |e.runs[r].tasks| == |d.runs[r].tasks|
    requires forall j | 0 <= j < n :: Submittable(d, r, j) <= Submittable(e, r, j)
    requires Submittable(d, r, i) + 1 <= Submittable(e, r, i)
    ensures TotalSubmittable(d, r, n) + 1 <= TotalSubmittable(e, r, n)
  {
    if i == n - 1 {
      SubmittableMonotone(d, e, r, n - 1);
    } else {
      TotalBump(d, e, r, i, n - 1);
    }
  }

  lemma ChargeBudget(d: Db, lease: Lease, now: Millis)
    requires BudgetOk(d) && Leased(d, lease) && Owns(d, lease) && d.attempts[lease.attempt].state.Prepared?
    requires SubmittableGrows(d, Charge(d, lease, now))
    ensures BudgetOk(Charge(d, lease, now))
  {
    var e := Charge(d, lease, now);
    forall r | r in e.runs
      ensures e.runs[r].submissions <= TotalSubmittable(e, r, |e.runs[r].tasks|)
      ensures e.runs[r].tasks == d.runs[r].tasks && Resumes(d.events, r) <= Resumes(e.events, r)
    {
      ResumesMonotone(d.events, e.events, r);
      if r == lease.run {
        TotalBump(d, e, r, lease.attempt.task, |d.runs[r].tasks|);
      } else {
        SubmittableMonotone(d, e, r, |d.runs[r].tasks|);
      }
    }
  }

  /** What `begin_submission` has checked before it charges. */
  ghost predicate MayCharge(d: Db, lease: Lease, now: Millis) {
    && Owns(d, lease) && lease.account in d.accounts && Waiting(d.runs[lease.run].status) && !Exhausted(d.runs[lease.run], now)
    && now >= d.accounts[lease.account].submissionAllowed && d.attempts[lease.attempt].state.Prepared?
  }

  lemma ChargeRuns(d: Db, lease: Lease, now: Millis)
    requires RunsOk(d) && Leased(d, lease) && MayCharge(d, lease, now) && OnAttempt(d, Charge(d, lease, now), lease.attempt)
    requires forall a | a in d.accounts :: a in Charge(d, lease, now).accounts && AccountEvolves(d.accounts[a], Charge(d, lease, now).accounts[a])
    ensures var e := Charge(d, lease, now); RunsOk(e) && Evolves(d, e)
  {
    var e := Charge(d, lease, now);
    ChargeRun(d, lease, now);
    RunsStep(d, e, lease.attempt);
    EvolvesStep(d, e, lease.attempt);
  }

  lemma ChargeResults(d: Db, lease: Lease, now: Millis)
    requires AttemptsOk(d) && Leased(d, lease) && MayCharge(d, lease, now)
    ensures NoNewResults(d, Charge(d, lease, now))
  {
  }

  lemma ChargeKeeps(d: Db, lease: Lease, now: Millis)
    requires Valid(d) && MayCharge(d, lease, now)
    ensures Good(d, Charge(d, lease, now))
  {
    var e := Charge(d, lease, now);
    OwnedRow(d, lease);
    ChargeAccounts(d, lease, now);
    ChargeShape(d, lease, now);
    ChargeRuns(d, lease, now);
    ChargeResults(d, lease, now);
    AttemptsStep(d, e, lease.attempt);
    SubmittableStep(d, e, lease.attempt);
    ReservationsFrame(d, e);
    CapacityFrame(d, e);
    ChargeLog(d, lease, now);
    ChargePacing(d, lease, now);
    ChargeBudget(d, lease, now);
    QuietArtifacts(d, e);
  }

  // ---------- Keeping or ending a live attempt ----------

  /** The live attempt `k`, the status and error of its task, and the header of its run are rewritten. */
  ghost predicate Touches(d: Db, e: Db, k: AttemptId) {
    && OnAttempt(d, e, k) && k in d.attempts
    && Live(d.attempts[k].state) && AttemptEvolves(d.attempts[k], e.attempts[k]) && TurnKnown(e.attempts[k])
    && (Charged(e.attempts[k].state) ==> Charged(d.attempts[k].state))
    && e.accounts == d.accounts && e.sessions == d.sessions && e.artifacts == d.artifacts && QuietEvents(d, e)
    && HeaderStep(d.runs[k.run], e.runs[k.run].(tasks := d.runs[k.run].tasks))
    && TaskTouched(d.runs[k.run].tasks[k.task], e.runs[k.run].tasks[k.task], e.attempts[k].state)
  }

  /** A running task is requeued only before its second attempt, and finishes an exploration only with a summary. */
  predicate TaskTouched(t: Task, u: Task, s: AttemptState) {
    && t.status.Active? && u == t.(status := u.status, error := u.error)
    && Explains(s, u.status) && !u.status.Excluded?
    && (u.status.Todo? ==> t.attempts < 2)
    && (u.stage.Explore? && u.status.Done? ==> u.summary.Some?)
  }

  lemma TouchRun(r: Run, s: Run, i: nat, state: AttemptState)
    requires RunOk(r) && i < |r.tasks| == |s.tasks| && TaskOk(r.tasks[i], r.allowIncomplete)
    requires HeaderStep(r, s.(tasks := r.tasks)) && s.tasks == r.tasks[i := s.tasks[i]]
    requires TaskTouched(r.tasks[i], s.tasks[i], state)
    ensures RunOk(s) && RunEvolves(r, s)
  {
    forall j | 0 <= j < |r.tasks| ensures TaskEvolves(r.tasks[j], s.tasks[j]) {
      assert j != i ==> s.tasks[j] == r.tasks[j];
    }
    if i >= r.request.candidates {
      assert StageOpen(r, i);
    }
    OneTaskKeepsRun(r, s, i, s.tasks[i]);
  }

  lemma TouchTables(d: Db, e: Db, k: AttemptId)
    requires RunsOk(d) && Touches(d, e, k)
    ensures RunsOk(e) && Evolves(d, e)
  {
    assert RunOk(d.runs[k.run]) && TaskOk(d.runs[k.run].tasks[k.task], d.runs[k.run].allowIncomplete);
    TouchRun(d.runs[k.run], e.runs[k.run], k.task, e.attempts[k].state);
    RunsStep(d, e, k);
    EvolvesStep(d, e, k);
  }

  lemma TouchAttempts(d: Db, e: Db, k: AttemptId)
    requires RunsOk(d) && AttemptsOk(d) && Touches(d, e, k)
    requires e.attempts[k].state.Stopped? ==> e.runs[k.run].status.Cancelled?
    ensures AttemptsOk(e) && SubmittableGrows(d, e)
  {
    Row(d, k);
    AttemptsStep(d, e, k);
    SubmittableStep(d, e, k);
  }

  lemma TouchQuiet(d: Db, e: Db, k: AttemptId)
    requires Touches(d, e, k)
    ensures NoNewStarts(d, e) && NoNewClaims(d, e)
  {
  }

  lemma TouchResults(d: Db, e: Db, k: AttemptId)
    requires AttemptsOk(d) && Touches(d, e, k) && Evolves(d, e)
    requires e.attempts[k].state.Captured? ==> HasResult(d, k)
    ensures NoNewResults(d, e)
  {
    if e.attempts[k].state.Captured? {
      HasResultKeeps(d, e, k);
    }
    forall q | q in e.attempts && Counted(e, q) && e.attempts[q].state.Captured?
      ensures HasResult(e, q) || (q in d.attempts && Counted(d, q) && d.attempts[q].state.Captured?)
    {
      if q != k { assert Counted(d, q); }
    }
  }

  lemma TouchHistory(d: Db, e: Db, k: AttemptId)
    requires RunsOk(d) && AttemptsOk(d) && LogOk(d) && PacingOk(d) && BudgetOk(d) && ArtifactsOk(d)
    requires Touches(d, e, k) && Evolves(d, e) && SubmittableGrows(d, e)
    requires e.attempts[k].state.Captured? ==> HasResult(d, k)
    ensures LogOk(e) && PacingOk(e) && BudgetOk(e) && ArtifactsOk(e)
  {
    TouchQuiet(d, e, k);
    TouchResults(d, e, k);
    QuietRest(d, e);
  }

  /** Everything but the reservations, for any rewrite of a live attempt. */
  lemma TouchKeeps(d: Db, e: Db, k: AttemptId)
    requires Valid(d) && Touches(d, e, k)
    requires e.attempts[k].state.Stopped? ==> e.runs[k.run].status.Cancelled?
    requires e.attempts[k].state.Captured? ==> HasResult(d, k)
    requires ReservationsOk(e) && CapacityOk(e)
    ensures Good(d, e)
  {
    TouchTables(d, e, k);
    TouchAttempts(d, e, k);
    TouchHistory(d, e, k);
    AccountsFrame(d, e);
  }

  lemma TouchLive(d: Db, e: Db, k: AttemptId)
    requires Touches(d, e, k) && Live(e.attempts[k].state)
    ensures SameLive(d, e) && SameRequests(d, e)
  {
  }

  lemma KeepKeeps(d: Db, e: Db, k: AttemptId)
    requires Valid(d) && Touches(d, e, k) && Live(e.attempts[k].state) && e.reservations == d.reservations
    ensures Good(d, e)
  {
    TouchLive(d, e, k);
    ReservationsFrame(d, e);
    CapacityFrame(d, e);
    TouchKeeps(d, e, k);
  }

  lemma ReleaseReservations(d: Db, e: Db, k: AttemptId, x: Id)
    requires ReservationsOk(d) && Touches(d, e, k) && !Live(e.attempts[k].state)
    requires x in d.reservations && d.reservations[x].attempt == k && e.reservations == d.reservations - {x}
    ensures ReservationsOk(e)
  {
    forall q | q in e.attempts && Live(e.attempts[q].state) ensures Reserved(e, q) {
      assert q != k && Reserved(d, q);
      var y :| y in d.reservations && d.reservations[y].attempt == q;
      assert y in e.reservations && e.reservations[y].attempt == q;
    }
    forall y | y in e.reservations ensures ReservationOk(e, e.reservations[y]) {
      assert ReservationOk(d, d.reservations[y]) && d.reservations[y].attempt != k;
    }
  }

  lemma ReleaseKeeps(d: Db, e: Db, k: AttemptId, x: Id)
    requires Valid(d) && Touches(d, e, k) && !Live(e.attempts[k].state)
    requires x in d.reservations && d.reservations[x].attempt == k && e.reservations == d.reservations - {x}
    requires e.attempts[k].state.Stopped? ==> e.runs[k.run].status.Cancelled?
    requires e.attempts[k].state.Captured? ==> HasResult(d, k)
    ensures Good(d, e)
  {
    ReleaseReservations(d, e, k, x);
    forall a | a in e.accounts ensures |Scheduler.Held(e.reservations, a)| <= Min(e.accounts[a].capacity, MAX_SLOTS) {
      HeldRemove(d.reservations, x, a);
    }
    TouchKeeps(d, e, k);
  }
}
