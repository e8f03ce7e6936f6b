/** What `recover` does, row by row, and why a second recovery changes nothing. */
module RecoveryTheorems {
  import opened Text
  import opened Tables
  import opened Ordering
  import opened Recovery
  import opened Invariant
  import opened Steps
  import opened Operations
  import opened RecoveryOperations
  import opened Transitions

  // ---------- The rows after some leases have been recovered ----------

  predicate IsPrepared(d: Db, k: AttemptId) { k in d.attempts && d.attempts[k].state.Prepared? }

  predicate NamesAttempt(leases: seq<Lease>, k: AttemptId) {
    exists i | 0 <= i < |leases| :: leases[i].attempt == k
  }

  /** Some lease of the run is on an attempt the provider may hold. */
  predicate HeldBack(d: Db, leases: seq<Lease>, r: Id) {
    exists i | 0 <= i < |leases| :: leases[i].run == r && !IsPrepared(d, leases[i].attempt)
  }

  function RecoveredAttempt(a: Attempt, now: Millis): Attempt {
    if a.state.Prepared?
    then a.(state := Abandoned, error := Some(InterruptedBeforeSubmission), retryable := true, completed := Some(now))
    else if a.state.Submitting? then a.(state := Uncertain, error := Some(SubmissionUncertain))
    else a
  }

  function RecoveredTask(t: Task): Task {
    t.(status := if t.attempts < 2 then Todo else Broken, error := Some(InterruptedBeforeSubmission))
  }

  predicate AttemptPartly(d: Db, e: Db, leases: seq<Lease>, now: Millis, k: AttemptId)
    requires k in d.attempts && k in e.attempts
  {
    e.attempts[k] == if NamesAttempt(leases, k) then RecoveredAttempt(d.attempts[k], now) else d.attempts[k]
  }

  predicate TaskPartly(d: Db, leases: seq<Lease>, k: AttemptId, t: Task, u: Task) {
    u == if IsPrepared(d, k) && NamesAttempt(leases, k) then RecoveredTask(t) else t
  }

  predicate RunPartly(d: Db, leases: seq<Lease>, r: Id, run: Run, after: Run) {
    && |after.tasks| == |run.tasks|
    && (forall i | 0 <= i < |run.tasks| :: TaskPartly(d, leases, AttemptId(r, i, run.tasks[i].attempts), run.tasks[i], after.tasks[i]))
    && after == (if HeldBack(d, leases, r) && Relabellable(run) then Unresolved(run, Some(RestartReconciliation)) else run).(tasks := after.tasks)
  }

  predicate ReservationPartly(d: Db, e: Db, leases: seq<Lease>, x: Id)
    requires x in d.reservations
  {
    if Names(leases, x) && IsPrepared(d, d.reservations[x].attempt) then x !in e.reservations
    else x in e.reservations && e.reservations[x] == d.reservations[x]
  }

  ghost predicate PartlyRecovered(d: Db, e: Db, leases: seq<Lease>, now: Millis) {
    && e == d.(attempts := e.attempts, reservations := e.reservations, runs := e.runs, events := e.events)
    && e.attempts.Keys == d.attempts.Keys && e.runs.Keys == d.runs.Keys && e.reservations.Keys <= d.reservations.Keys
    && (forall k | k in d.attempts :: AttemptPartly(d, e, leases, now, k))
    && (forall x | x in d.reservations :: ReservationPartly(d, e, leases, x))
    && (forall r | r in d.runs :: RunPartly(d, leases, r, d.runs[r], e.runs[r]))
    && CalmLog(d.events, e.events)
  }

  /** The leases `recover` returns: those not on a prepared attempt. */
  function Kept(d: Db, leases: seq<Lease>): (kept: seq<Lease>)
    ensures forall i | 0 <= i < |kept| :: kept[i] in leases && !IsPrepared(d, kept[i].attempt)
  {
    if leases == [] then []
    else Kept(d, leases[..|leases| - 1])
         + if IsPrepared(d, leases[|leases| - 1].attempt) then [] else [leases[|leases| - 1]]
  }

  // ---------- One more lease ----------

  /** The lease is on the live, latest attempt of its task, and no other lease of the list names its attempt. */
  ghost predicate NextLease(d: Db, leases: seq<Lease>) {
    leases != [] &&
    var lease := leases[|leases| - 1];
    && Leased(d, lease) && Joined(d, lease.attempt)
    && !NamesAttempt(leases[..|leases| - 1], lease.attempt) && !Names(leases[..|leases| - 1], lease.reservation)
    && forall x | x in d.reservations && x != lease.reservation :: d.reservations[x].attempt != lease.attempt
  }

  lemma NamesLast(leases: seq<Lease>, k: AttemptId, x: Id)
    requires leases != []
    ensures NamesAttempt(leases, k) <==> NamesAttempt(leases[..|leases| - 1], k) || leases[|leases| - 1].attempt == k
    ensures Names(leases, x) <==> Names(leases[..|leases| - 1], x) || leases[|leases| - 1].reservation == x
  {
    var n := |leases| - 1;
    assert forall i | 0 <= i < n :: leases[..n][i] == leases[i];
    if NamesAttempt(leases, k) {
      var i :| 0 <= i < |leases| && leases[i].attempt == k;
      assert i < n ==> leases[..n][i].attempt == k;
    }
    if Names(leases, x) {
      var i :| 0 <= i < |leases| && leases[i].reservation == x;
      assert i < n ==> leases[..n][i].reservation == x;
    }
  }

  lemma HeldBackLast(d: Db, leases: seq<Lease>, r: Id)
    requires leases != []
    ensures HeldBack(d, leases, r)
            <==> HeldBack(d, leases[..|leases| - 1], r) || (leases[|leases| - 1].run == r && !IsPrepared(d, leases[|leases| - 1].attempt))
  {
    var n := |leases| - 1;
    assert forall i | 0 <= i < n :: leases[..n][i] == leases[i];
    if HeldBack(d, leases, r) {
      var i :| 0 <= i < |leases| && leases[i].run == r && !IsPrepared(d, leases[i].attempt);
      assert i < n ==> leases[..n][i].run == r;
    }
  }

  function RecoveredRun(run: Run, lease: Lease, prepared: bool): Run
    requires lease.attempt.task < |run.tasks|
  {
    if prepared then SetTask(run, lease.attempt.task, RecoveredTask(run.tasks[lease.attempt.task]))
    else if Relabellable(run) then Unresolved(run, Some(RestartReconciliation))
    else run
  }

  /** One lease at a time: its attempt, its reservation and its run. */
  ghost predicate Recovers(e: Db, f: Db, lease: Lease, now: Millis)
    requires Resolvable(e, lease)
  {
    && f.attempts == e.attempts[lease.attempt := RecoveredAttempt(e.attempts[lease.attempt], now)]
    && f.reservations == (if IsPrepared(e, lease.attempt) then e.reservations - {lease.reservation} else e.reservations)
    && f.runs == e.runs[lease.run := RecoveredRun(e.runs[lease.run], lease, IsPrepared(e, lease.attempt))]
    && f == e.(attempts := f.attempts, reservations := f.reservations, runs := f.runs, events := f.events)
    && CalmLog(e.events, f.events)
  }

  lemma RewindRecovers(e: Db, lease: Lease, now: Millis)
    requires Resolvable(e, lease) && IsPrepared(e, lease.attempt)
    ensures Recovers(e, Rewind(e, lease, now), lease, now)
  {
  }

  lemma OneCalmEvent(e: Db, lease: Lease, now: Millis)
    ensures CalmLog(e.events, e.events)
    ensures CalmLog(e.events, e.events + [Event(lease.run, ReconciliationStarted(lease.attempt), now)])
  {
  }

  lemma HoldBackRecovers(e: Db, lease: Lease, now: Millis)
    requires Resolvable(e, lease) && !IsPrepared(e, lease.attempt)
    ensures Recovers(e, HoldBack(e, lease, now), lease, now)
  {
    hide Unresolved, Recovery.SameShape, CalmLog;
    OneCalmEvent(e, lease, now);
    assert e.runs[lease.run := e.runs[lease.run]] == e.runs;
    assert e.attempts[lease.attempt := e.attempts[lease.attempt]] == e.attempts;
  }

  lemma RecoverOneRecovers(e: Db, lease: Lease, now: Millis)
    requires Resolvable(e, lease)
    ensures Recovers(e, RecoverOne(e, lease, now), lease, now)
  {
    hide Rewind, HoldBack, Recovers;
    if IsPrepared(e, lease.attempt) { RewindRecovers(e, lease, now); } else { HoldBackRecovers(e, lease, now); }
  }

  lemma StepAttempt(d: Db, e: Db, f: Db, leases: seq<Lease>, now: Millis, k: AttemptId)
    requires NextLease(d, leases) && Resolvable(e, leases[|leases| - 1]) && Recovers(e, f, leases[|leases| - 1], now)
    requires k in d.attempts && k in e.attempts && AttemptPartly(d, e, leases[..|leases| - 1], now, k)
    ensures AttemptPartly(d, f, leases, now, k)
  {
    hide Leased, Names, NamesAttempt, RecoveredAttempt, RecoveredRun;
    NamesLast(leases, k, 0);
  }

  lemma StepReservation(d: Db, e: Db, f: Db, leases: seq<Lease>, now: Millis, x: Id)
    requires NextLease(d, leases) && Resolvable(e, leases[|leases| - 1]) && Recovers(e, f, leases[|leases| - 1], now)
    requires IsPrepared(e, leases[|leases| - 1].attempt) == IsPrepared(d, leases[|leases| - 1].attempt)
    requires x in d.reservations && ReservationPartly(d, e, leases[..|leases| - 1], x)
    ensures ReservationPartly(d, f, leases, x)
  {
    hide Names, NamesAttempt, RecoveredAttempt, RecoveredRun, IsPrepared, RunOk, TaskOk;
    NamesLast(leases, leases[|leases| - 1].attempt, x);
  }

  lemma StepTask(d: Db, leases: seq<Lease>, r: Id, i: nat, run: Run, mid: Run, after: Run)
    requires leases != [] && i < |run.tasks| == |mid.tasks| == |after.tasks|
    requires TaskPartly(d, leases[..|leases| - 1], AttemptId(r, i, run.tasks[i].attempts), run.tasks[i], mid.tasks[i])
    requires var k := leases[|leases| - 1].attempt;
             && (AttemptId(r, i, run.tasks[i].attempts) == k ==> !NamesAttempt(leases[..|leases| - 1], k))
             && after.tasks[i] == if AttemptId(r, i, run.tasks[i].attempts) == k && IsPrepared(d, k) then RecoveredTask(mid.tasks[i])
                                  else mid.tasks[i]
    ensures TaskPartly(d, leases, AttemptId(r, i, run.tasks[i].attempts), run.tasks[i], after.tasks[i])
  {
    NamesLast(leases, AttemptId(r, i, run.tasks[i].attempts), 0);
  }

  lemma StepRun(d: Db, e: Db, f: Db, leases: seq<Lease>, now: Millis, r: Id)
    requires NextLease(d, leases) && Resolvable(e, leases[|leases| - 1]) && Recovers(e, f, leases[|leases| - 1], now)
    requires IsPrepared(e, leases[|leases| - 1].attempt) == IsPrepared(d, leases[|leases| - 1].attempt)
    requires r in d.runs && r in e.runs && RunPartly(d, leases[..|leases| - 1], r, d.runs[r], e.runs[r])
    ensures r in f.runs && RunPartly(d, leases, r, d.runs[r], f.runs[r])
  {
    hide Names, NamesAttempt, RecoveredAttempt, IsPrepared, RunOk, TaskOk, HeldBack, TaskPartly, CalmLog, RecoveredTask;
    HeldBackLast(d, leases, r);
    forall i | 0 <= i < |d.runs[r].tasks|
      ensures |f.runs[r].tasks| == |d.runs[r].tasks|
      ensures TaskPartly(d, leases, AttemptId(r, i, d.runs[r].tasks[i].attempts), d.runs[r].tasks[i], f.runs[r].tasks[i])
    {
      StepTask(d, leases, r, i, d.runs[r], e.runs[r], f.runs[r]);
    }
  }

  lemma StillPrepared(d: Db, e: Db, leases: seq<Lease>, now: Millis)
    requires NextLease(d, leases) && PartlyRecovered(d, e, leases[..|leases| - 1], now)
    ensures IsPrepared(e, leases[|leases| - 1].attempt) == IsPrepared(d, leases[|leases| - 1].attempt)
  {
    assert AttemptPartly(d, e, leases[..|leases| - 1], now, leases[|leases| - 1].attempt);
    hide ReservationPartly, RunPartly;
  }

  lemma StepTables(d: Db, e: Db, f: Db, leases: seq<Lease>, now: Millis)
    requires NextLease(d, leases) && PartlyRecovered(d, e, leases[..|leases| - 1], now)
    requires Resolvable(e, leases[|leases| - 1]) && Recovers(e, f, leases[|leases| - 1], now)
    ensures f == d.(attempts := f.attempts, reservations := f.reservations, runs := f.runs, events := f.events)
    ensures f.attempts.Keys == d.attempts.Keys && f.runs.Keys == d.runs.Keys && f.reservations.Keys <= d.reservations.Keys
    ensures CalmLog(d.events, f.events)
  {
    hide AttemptPartly, ReservationPartly, RunPartly, RecoveredAttempt, RecoveredRun, IsPrepared;
  }

  lemma StepRecovered(d: Db, e: Db, f: Db, leases: seq<Lease>, now: Millis)
    requires NextLease(d, leases) && PartlyRecovered(d, e, leases[..|leases| - 1], now)
    requires Resolvable(e, leases[|leases| - 1]) && Recovers(e, f, leases[|leases| - 1], now)
    ensures PartlyRecovered(d, f, leases, now)
  {
    hide AttemptPartly, ReservationPartly, RunPartly, NextLease, IsPrepared, Recovers, CalmLog;
    StillPrepared(d, e, leases, now);
    StepTables(d, e, f, leases, now);
    forall k | k in d.attempts ensures AttemptPartly(d, f, leases, now, k) {
      StepAttempt(d, e, f, leases, now, k);
    }
    forall x | x in d.reservations ensures ReservationPartly(d, f, leases, x) {
      StepReservation(d, e, f, leases, now, x);
    }
    forall r | r in d.runs ensures r in f.runs && RunPartly(d, leases, r, d.runs[r], f.runs[r]) {
      StepRun(d, e, f, leases, now, r);
    }
  }

  // ---------- All leases ----------

  /** No two leases are on the same attempt, and each is on a live, latest attempt that it alone reserves. */
  ghost predicate SoleLeases(d: Db, leases: seq<Lease>)
    ensures SoleLeases(d, leases) ==> forall i | 0 <= i < |leases| :: Resolvable(d, leases[i])
  {
    && (forall i | 0 <= i < |leases| :: Leased(d, leases[i]) && Joined(d, leases[i].attempt))
    && (forall i, j | 0 <= i < j < |leases| :: leases[i].reservation != leases[j].reservation)
    && (forall x, y | x in d.reservations && y in d.reservations && d.reservations[x].attempt == d.reservations[y].attempt :: x == y)
  }

  lemma SoleIsNext(d: Db, leases: seq<Lease>)
    requires SoleLeases(d, leases) && leases != []
    ensures NextLease(d, leases) && SoleLeases(d, leases[..|leases| - 1])
  {
    hide RunOk, TaskOk, ReservationOk;
    var n := |leases| - 1;
    assert forall i | 0 <= i < n :: leases[..n][i] == leases[i];
    assert Leased(d, leases[n]);
    assert !Names(leases[..n], leases[n].reservation);
  }

  lemma NothingRecovered(d: Db, now: Millis)
    ensures PartlyRecovered(d, d, [], now)
  {
  }

  lemma PartlyResolvable(d: Db, e: Db, leases: seq<Lease>, now: Millis, lease: Lease)
    requires PartlyRecovered(d, e, leases, now) && Resolvable(d, lease)
    ensures Resolvable(e, lease) && lease.attempt in e.attempts
  {
    assert RunPartly(d, leases, lease.run, d.runs[lease.run], e.runs[lease.run]);
  }

  lemma {:induction false} RecoverAllIs(d: Db, leases: seq<Lease>, now: Millis)
    requires SoleLeases(d, leases)
    ensures PartlyRecovered(d, RecoverAll(d, leases, now).0, leases, now)
    ensures RecoverAll(d, leases, now).1 == Kept(d, leases)
  {
    hide SoleLeases, PartlyRecovered, RecoverOne, Recovers, Leased, NextLease, Resolvable;
    if leases == [] {
      NothingRecovered(d, now);
    } else {
      var n := |leases| - 1;
      SoleIsNext(d, leases);
      RecoverAllIs(d, leases[..n], now);
      var e := RecoverAll(d, leases[..n], now).0;
      PartlyResolvable(d, e, leases[..n], now, leases[n]);
      RecoverOneRecovers(e, leases[n], now);
      StillPrepared(d, e, leases, now);
      StepRecovered(d, e, RecoverOne(e, leases[n], now), leases, now);
    }
  }

  // ---------- recover, row by row ----------

  /** Some reservation of the run is on an attempt the provider may hold. */
  predicate InDoubt(d: Db, r: Id) {
    exists x | x in d.reservations :: d.reservations[x].run == r && !IsPrepared(d, d.reservations[x].attempt)
  }

  ghost predicate RunRecovered(d: Db, r: Id, after: Run)
    requires r in d.runs
  {
    var run := d.runs[r];
    && |after.tasks| == |run.tasks|
    && (forall i | 0 <= i < |run.tasks| ::
          after.tasks[i] == if IsPrepared(d, AttemptId(r, i, run.tasks[i].attempts)) then RecoveredTask(run.tasks[i]) else run.tasks[i])
    && after == if InDoubt(d, r) && !run.status.Reconciling? && !run.status.Completed? && !run.status.Cancelled? && !run.status.Failed?
                then run.(tasks := after.tasks, status := Reconciling, recovery := Some(run.status),
                          pauseReason := Some(RestartReconciliation))
                else run.(tasks := after.tasks)
  }

  /** Every prepared attempt fails and frees its reservation; every submission in progress becomes uncertain and keeps it. */
  ghost predicate Recovered(d: Db, e: Db, now: Millis) {
    && e == d.(attempts := e.attempts, reservations := e.reservations, runs := e.runs, events := e.events)
    && e.attempts.Keys == d.attempts.Keys && (forall k | k in d.attempts :: e.attempts[k] == RecoveredAttempt(d.attempts[k], now))
    && (forall x :: x in e.reservations <==> x in d.reservations && !IsPrepared(d, d.reservations[x].attempt))
    && (forall x | x in e.reservations :: e.reservations[x] == d.reservations[x])
    && e.runs.Keys == d.runs.Keys && (forall r | r in d.runs :: RunRecovered(d, r, e.runs[r]))
    && CalmLog(d.events, e.events)
  }

  lemma OneReservationEach(d: Db)
    requires Valid(d)
    ensures forall x, y | x in d.reservations && y in d.reservations && d.reservations[x].attempt == d.reservations[y].attempt :: x == y
  {
  }

  lemma ActiveLeasesSole(d: Db)
    requires Valid(d)
    ensures ForeignKeys(d) && SoleLeases(d, ActiveLeases(d))
  {
    hide Valid, Leased, ForeignKeys, ActiveLeases, Owns;
    ValidForeignKeys(d);
    ActiveLeasesOwned(d);
    OneReservationEach(d);
    forall i | 0 <= i < |ActiveLeases(d)| ensures Leased(d, ActiveLeases(d)[i]) && Joined(d, ActiveLeases(d)[i].attempt) {
      OwnedIsLeased(d, ActiveLeases(d)[i]);
      assert Resolvable(d, ActiveLeases(d)[i]);
    }
  }

  lemma ActiveLeasesCover(d: Db, x: Id)
    requires ForeignKeys(d) && x in d.reservations
    ensures Names(ActiveLeases(d), x) && NamesAttempt(ActiveLeases(d), d.reservations[x].attempt)
  {
    var keys := Sorted(ReservationKeys(d));
    assert Key(0, d.reservations[x].created, x) in ReservationKeys(d);
    var i :| 0 <= i < |keys| && keys[i] == Key(0, d.reservations[x].created, x);
    assert ActiveLeases(d)[i] == LeaseOf(d, x);
  }

  lemma ActiveAttempts(d: Db, k: AttemptId)
    requires Valid(d) && k in d.attempts && Live(d.attempts[k].state)
    ensures ForeignKeys(d) && NamesAttempt(ActiveLeases(d), k)
  {
    ValidForeignKeys(d);
    assert Reserved(d, k);
    var x :| x in d.reservations && d.reservations[x].attempt == k;
    ActiveLeasesCover(d, x);
  }

  lemma ActiveInDoubt(d: Db, r: Id)
    requires ForeignKeys(d)
    ensures HeldBack(d, ActiveLeases(d), r) <==> InDoubt(d, r)
  {
    hide Joined, ForeignKeys, IsPrepared;
    var leases := ActiveLeases(d);
    if HeldBack(d, leases, r) {
      var i :| 0 <= i < |leases| && leases[i].run == r && !IsPrepared(d, leases[i].attempt);
      assert leases[i] == LeaseOf(d, leases[i].reservation);
    }
    if InDoubt(d, r) {
      var x :| x in d.reservations && d.reservations[x].run == r && !IsPrepared(d, d.reservations[x].attempt);
      ActiveLeasesCover(d, x);
      var i :| 0 <= i < |leases| && leases[i].reservation == x;
      assert leases[i] == LeaseOf(d, leases[i].reservation);
    }
  }

  lemma RecoveredRunRow(d: Db, e: Db, r: Id, now: Millis)
    requires Valid(d) && ForeignKeys(d) && PartlyRecovered(d, e, ActiveLeases(d), now) && r in d.runs
    ensures RunRecovered(d, r, e.runs[r])
  {
    hide Valid, ForeignKeys, ActiveLeases, RecoveredTask, HeldBack, InDoubt, AttemptPartly, ReservationPartly, CalmLog;
    var leases := ActiveLeases(d);
    ActiveInDoubt(d, r);
    assert RunPartly(d, leases, r, d.runs[r], e.runs[r]);
    forall i | 0 <= i < |d.runs[r].tasks|
      ensures IsPrepared(d, AttemptId(r, i, d.runs[r].tasks[i].attempts)) ==> NamesAttempt(leases, AttemptId(r, i, d.runs[r].tasks[i].attempts))
    {
      var k := AttemptId(r, i, d.runs[r].tasks[i].attempts);
      if IsPrepared(d, k) { ActiveAttempts(d, k); }
    }
  }

  lemma RecoveredAttemptRow(d: Db, e: Db, k: AttemptId, now: Millis)
    requires Valid(d) && ForeignKeys(d) && PartlyRecovered(d, e, ActiveLeases(d), now) && k in d.attempts
    ensures e.attempts[k] == RecoveredAttempt(d.attempts[k], now)
  {
    hide Valid, ForeignKeys, ActiveLeases, RunPartly, ReservationPartly, CalmLog;
    assert AttemptPartly(d, e, ActiveLeases(d), now, k);
    if Live(d.attempts[k].state) { ActiveAttempts(d, k); }
  }

  lemma RecoveredReservation(d: Db, e: Db, x: Id, now: Millis)
    requires ForeignKeys(d) && PartlyRecovered(d, e, ActiveLeases(d), now) && x in d.reservations
    ensures x in e.reservations <==> !IsPrepared(d, d.reservations[x].attempt)
    ensures x in e.reservations ==> e.reservations[x] == d.reservations[x]
  {
    ActiveLeasesCover(d, x);
    assert ReservationPartly(d, e, ActiveLeases(d), x);
  }

  /** What recovery writes to the log for the last of these leases. */
  function LastLogged(d: Db, leases: seq<Lease>, now: Millis): seq<Event>
    requires leases != [] && leases[|leases| - 1].run in d.runs
  {
    var n := |leases| - 1;
    var lease := leases[n];
    if IsPrepared(d, lease.attempt) then [Event(lease.run, RecoveredBeforeSubmission(lease.attempt), now)]
    else if Relabellable(d.runs[lease.run]) && !HeldBack(d, leases[..n], lease.run)
    then [Event(lease.run, ReconciliationStarted(lease.attempt), now)]
    else []
  }

  /** What recovery writes to the log: every attempt that was never submitted, and for every run in doubt the first of its
      conversations. */
  function RecoveryLog(d: Db, leases: seq<Lease>, now: Millis): seq<Event>
    requires forall i | 0 <= i < |leases| :: leases[i].run in d.runs
  {
    if leases == [] then [] else RecoveryLog(d, leases[..|leases| - 1], now) + LastLogged(d, leases, now)
  }

  lemma OneLogged(d: Db, e: Db, leases: seq<Lease>, lease: Lease, now: Millis)
    requires leases != [] && leases[|leases| - 1] == lease && lease.run in d.runs && Resolvable(e, lease)
    requires RunPartly(d, leases[..|leases| - 1], lease.run, d.runs[lease.run], e.runs[lease.run])
    requires IsPrepared(e, lease.attempt) == IsPrepared(d, lease.attempt)
    ensures RecoverOne(e, lease, now).events == e.events + LastLogged(d, leases, now)
  {
    hide HeldBack, TaskPartly;
    assert e.events + [] == e.events;
  }

  lemma {:induction false} RecoverAllLogs(d: Db, leases: seq<Lease>, now: Millis)
    requires SoleLeases(d, leases)
    ensures forall i | 0 <= i < |leases| :: leases[i].run in d.runs
    ensures RecoverAll(d, leases, now).0.events == d.events + RecoveryLog(d, leases, now)
  {
    SoleRuns(d, leases);
    hide SoleLeases, PartlyRecovered, RecoverOne, NextLease, Resolvable, IsPrepared, LastLogged;
    if leases != [] {
      var n := |leases| - 1;
      SoleIsNext(d, leases);
      RecoverAllLogs(d, leases[..n], now);
      RecoverAllIs(d, leases[..n], now);
      var e := RecoverAll(d, leases[..n], now).0;
      PartlyResolvable(d, e, leases[..n], now, leases[n]);
      StillPrepared(d, e, leases, now);
      LastRun(d, e, leases, now);
      OneLogged(d, e, leases, leases[n], now);
      LogsJoin(d.events, RecoveryLog(d, leases[..n], now), LastLogged(d, leases, now));
    } else {
      assert d.events + [] == d.events;
    }
  }

  lemma LastRun(d: Db, e: Db, leases: seq<Lease>, now: Millis)
    requires leases != [] && PartlyRecovered(d, e, leases[..|leases| - 1], now) && leases[|leases| - 1].run in d.runs
    ensures var r := leases[|leases| - 1].run; r in e.runs && RunPartly(d, leases[..|leases| - 1], r, d.runs[r], e.runs[r])
  {
    hide AttemptPartly, ReservationPartly, RunPartly, CalmLog;
  }

  lemma LogsJoin(a: seq<Event>, b: seq<Event>, c: seq<Event>)
    ensures (a + b) + c == a + (b + c)
  {
  }

  lemma SoleRuns(d: Db, leases: seq<Lease>)
    requires SoleLeases(d, leases)
    ensures forall i | 0 <= i < |leases| :: leases[i].run in d.runs
  {
    assert forall i | 0 <= i < |leases| :: Resolvable(d, leases[i]);
    hide SoleLeases;
  }

  /** The log of a recovery, oldest reservation first. */
  lemma RecoverIsLogged(d: Db, now: Millis)
    requires Valid(d)
    ensures ForeignKeys(d) && (forall i | 0 <= i < |ActiveLeases(d)| :: ActiveLeases(d)[i].run in d.runs)
    ensures Recover(d, now).db.events == d.events + RecoveryLog(d, ActiveLeases(d), now)
  {
    hide Valid, ForeignKeys, SoleLeases, RecoverAll, ActiveLeases, RecoveryLog;
    ActiveLeasesSole(d);
    RecoverAllLogs(d, ActiveLeases(d), now);
  }

  /** The whole effect of `recover`: it never charges, never submits and requeues only what was never submitted. */
  lemma RecoverIsPointwise(d: Db, now: Millis)
    requires Valid(d)
    ensures ForeignKeys(d) && Recovered(d, Recover(d, now).db, now)
    ensures Recover(d, now).reply == Leases(Kept(d, ActiveLeases(d)))
  {
    hide Valid, ForeignKeys, SoleLeases, RecoverAll, ActiveLeases, AttemptPartly, ReservationPartly, RunPartly, RunRecovered, CalmLog, Kept;
    ActiveLeasesSole(d);
    RecoverAllIs(d, ActiveLeases(d), now);
    var e := Recover(d, now).db;
    forall k | k in d.attempts ensures e.attempts[k] == RecoveredAttempt(d.attempts[k], now) {
      RecoveredAttemptRow(d, e, k, now);
    }
    forall x | x in d.reservations
      ensures (x in e.reservations <==> !IsPrepared(d, d.reservations[x].attempt))
              && (x in e.reservations ==> e.reservations[x] == d.reservations[x])
    {
      RecoveredReservation(d, e, x, now);
    }
    forall r | r in d.runs ensures RunRecovered(d, r, e.runs[r]) {
      RecoveredRunRow(d, e, r, now);
    }
  }

  // ---------- A second recovery ----------

  /** Recovery has nothing to do for this lease. */
  predicate Settled(e: Db, lease: Lease) {
    && Resolvable(e, lease) && !Relabellable(e.runs[lease.run])
    && (e.attempts[lease.attempt].state.Accepted? || e.attempts[lease.attempt].state.Uncertain?)
  }

  ghost predicate AllSettled(e: Db, leases: seq<Lease>)
    ensures AllSettled(e, leases) ==> forall i | 0 <= i < |leases| :: Resolvable(e, leases[i])
  {
    forall i | 0 <= i < |leases| :: Settled(e, leases[i])
  }

  lemma SettledStays(e: Db, lease: Lease, now: Millis)
    requires Settled(e, lease)
    ensures RecoverOne(e, lease, now) == e
  {
  }

  lemma SettledPrefix(e: Db, leases: seq<Lease>)
    requires AllSettled(e, leases) && leases != []
    ensures AllSettled(e, leases[..|leases| - 1]) && Settled(e, leases[|leases| - 1])
  {
    hide Settled;
  }

  lemma {:induction false} NothingLeft(e: Db, leases: seq<Lease>, now: Millis)
    requires AllSettled(e, leases)
    ensures RecoverAll(e, leases, now) == (e, leases)
  {
    if leases != [] {
      var n := |leases| - 1;
      SettledPrefix(e, leases);
      SettledStays(e, leases[n], now);
      NotPreparedNow(e, leases[n]);
      hide AllSettled, Settled, RecoverOne, Recovery.SameShape;
      NothingLeft(e, leases[..n], now);
      assert leases[..n] + [leases[n]] == leases;
    }
  }

  lemma NotPreparedNow(e: Db, lease: Lease)
    requires Settled(e, lease)
    ensures lease.attempt in e.attempts && !e.attempts[lease.attempt].state.Prepared?
  {
  }

  lemma ReservedRow(d: Db, x: Id)
    requires Valid(d) && x in d.reservations
    ensures Readable(d, x) && Live(d.attempts[d.reservations[x].attempt].state)
    ensures d.reservations[x].run == d.reservations[x].attempt.run && d.reservations[x].run in d.runs
  {
    assert ReservationOk(d, d.reservations[x]);
    Row(d, d.reservations[x].attempt);
  }

  lemma RecoveredIsSettled(d: Db, e: Db, now: Millis, x: Id)
    requires Valid(d) && Recovered(d, e, now) && x in e.reservations
    ensures Readable(e, x) && Settled(e, LeaseOf(e, x)) && LeaseOf(e, x).reservation == x
    ensures Readable(d, x) && LeaseOf(d, x) == LeaseOf(e, x)
  {
    hide Valid, CalmLog;
    ReservedRow(d, x);
    assert InDoubt(d, d.reservations[x].run);
    assert RunRecovered(d, d.reservations[x].run, e.runs[d.reservations[x].run]);
    hide InDoubt;
  }

  function KeptKeys(e: Db, keys: seq<Key>): (q: seq<Key>)
    ensures forall k :: k in q <==> k in keys && k.id in e.reservations
    ensures Ascending(keys) ==> Ascending(q)
  {
    if keys == [] then []
    else
      var n := |keys| - 1;
      assert forall k :: k in keys <==> k in keys[..n] || k == keys[n];
      var q := KeptKeys(e, keys[..n]);
      assert Ascending(keys) ==> forall k | k in q :: Before(k, keys[n]);
      q + if keys[n].id in e.reservations then [keys[n]] else []
  }

  /** The reservations left read as they did before. */
  ghost predicate StillRead(d: Db, e: Db) {
    forall x | x in e.reservations ::
      Readable(d, x) && Readable(e, x) && e.reservations[x] == d.reservations[x] && LeaseOf(e, x) == LeaseOf(d, x)
  }

  ghost predicate AllReadable(d: Db, keys: seq<Key>)
    ensures AllReadable(d, keys) ==> forall i | 0 <= i < |keys| :: Readable(d, keys[i].id)
  {
    forall i | 0 <= i < |keys| :: Readable(d, keys[i].id)
  }

  lemma KeptAppend(d: Db, keys: seq<Key>, last: Key)
    requires AllReadable(d, keys + [last])
    ensures AllReadable(d, keys) && Readable(d, last.id)
    ensures Kept(d, LeasesOf(d, keys + [last]))
            == Kept(d, LeasesOf(d, keys)) + if IsPrepared(d, d.reservations[last.id].attempt) then [] else [LeaseOf(d, last.id)]
  {
    assert (keys + [last])[|keys|] == last;
    assert forall i | 0 <= i < |keys| :: (keys + [last])[i] == keys[i];
    var leases := LeasesOf(d, keys + [last]);
    assert leases[..|keys|] == LeasesOf(d, keys);
    hide LeasesOf, Joined, IsPrepared;
  }

  lemma LeasesAppend(e: Db, keys: seq<Key>, last: Key)
    requires AllReadable(e, keys) && Readable(e, last.id)
    ensures AllReadable(e, keys + [last]) && LeasesOf(e, keys + [last]) == LeasesOf(e, keys) + [LeaseOf(e, last.id)]
  {
    assert forall i | 0 <= i < |keys| :: (keys + [last])[i] == keys[i];
    hide Readable, LeaseOf;
  }

  /** Filtering the leases is filtering their keys. */
  lemma {:induction false} KeptLeases(d: Db, e: Db, keys: seq<Key>)
    requires StillRead(d, e) && AllReadable(d, keys)
    requires forall x | x in d.reservations :: x in e.reservations <==> !IsPrepared(d, d.reservations[x].attempt)
    ensures AllReadable(e, KeptKeys(e, keys))
    ensures Kept(d, LeasesOf(d, keys)) == LeasesOf(e, KeptKeys(e, keys))
  {
    if keys != [] {
      var n := |keys| - 1;
      var before, last := keys[..n], keys[n];
      assert before + [last] == keys;
      hide LeasesOf, Kept, LeaseOf, IsPrepared, AllReadable;
      KeptAppend(d, before, last);
      KeptLeases(d, e, before);
      if last.id in e.reservations {
        LeasesAppend(e, KeptKeys(e, before), last);
      }
    }
  }

  lemma KeptKeysAreSorted(d: Db, e: Db)
    requires StillRead(d, e)
    ensures KeptKeys(e, Sorted(ReservationKeys(d))) == Sorted(ReservationKeys(e))
  {
    var keys := Sorted(ReservationKeys(d));
    hide LeaseOf, Joined, KeptKeys;
    forall k ensures k in KeptKeys(e, keys) <==> k in Sorted(ReservationKeys(e)) {
      assert k in keys <==> k in ReservationKeys(d);
      if k.id in e.reservations { assert Readable(d, k.id) && Readable(e, k.id); }
    }
    AscendingUnique(KeptKeys(e, keys), Sorted(ReservationKeys(e)));
  }

  lemma RecoveredLeases(d: Db, e: Db, now: Millis)
    requires Valid(d) && Recovered(d, e, now) && ForeignKeys(e)
    ensures ForeignKeys(d) && Kept(d, ActiveLeases(d)) == ActiveLeases(e)
  {
    hide Valid, RunRecovered, CalmLog, RecoveredAttempt, Joined, Settled, LeaseOf, IsPrepared;
    ValidForeignKeys(d);
    forall x | x in e.reservations
      ensures Readable(d, x) && Readable(e, x) && e.reservations[x] == d.reservations[x] && LeaseOf(e, x) == LeaseOf(d, x)
    {
      RecoveredIsSettled(d, e, now, x);
    }
    var keys := Sorted(ReservationKeys(d));
    assert AllReadable(d, keys) by {
      assert forall i | 0 <= i < |keys| :: keys[i] in keys;
    }
    hide Kept, KeptKeys, LeasesOf, AllReadable;
    KeptLeases(d, e, keys);
    KeptKeysAreSorted(d, e);
  }

  /** The leases a recovery returns are the ones still active after it, oldest first. */
  lemma RecoverReturnsActive(d: Db, now: Millis)
    requires Valid(d)
    ensures ForeignKeys(d) && ForeignKeys(Recover(d, now).db)
    ensures Recover(d, now).reply == Leases(ActiveLeases(Recover(d, now).db))
  {
    hide Valid, Recover, Recovered, ForeignKeys, Evolves;
    RecoverIsPointwise(d, now);
    RecoverKeeps(d, now);
    ValidForeignKeys(Recover(d, now).db);
    RecoveredLeases(d, Recover(d, now).db, now);
  }

  lemma RecoveredAllSettled(d: Db, e: Db, now: Millis)
    requires Valid(d) && Recovered(d, e, now) && ForeignKeys(e)
    ensures AllSettled(e, ActiveLeases(e))
  {
    hide Valid, Recovered, Settled, Joined, ForeignKeys;
    forall i | 0 <= i < |ActiveLeases(e)| ensures Settled(e, ActiveLeases(e)[i]) {
      assert ActiveLeases(e)[i] == LeaseOf(e, ActiveLeases(e)[i].reservation);
      RecoveredIsSettled(d, e, now, ActiveLeases(e)[i].reservation);
    }
  }

  /** Recovering again, at any time, changes no row and returns the same leases. */
  lemma RecoverIsIdempotent(d: Db, now: Millis, later: Millis)
    requires Valid(d)
    ensures ForeignKeys(d) && ForeignKeys(Recover(d, now).db)
    ensures Recover(Recover(d, now).db, later) == Recover(d, now)
  {
    RecoverReturnsActive(d, now);
    RecoverIsPointwise(d, now);
    var one := Recover(d, now);
    hide Valid, ForeignKeys, Recovered, AllSettled, RecoverAll, ActiveLeases;
    RecoveredAllSettled(d, one.db, now);
    NothingLeft(one.db, ActiveLeases(one.db), later);
  }
}
