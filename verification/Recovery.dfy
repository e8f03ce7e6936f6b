/** The transactions of crates/jailgun-workflow/src/recovery.rs. */
module Recovery {
  import opened Text
  import opened Tables
  import opened Ordering
  import opened Scheduler

  /** The reservation can be read with its attempt, run and task. */
  predicate Readable(db: Db, x: Id) { x in db.reservations && Joined(db, db.reservations[x].attempt) }

  function LeaseOf(db: Db, x: Id): Lease
    requires Readable(db, x)
  {
    var held := db.reservations[x];
    var task := db.runs[held.attempt.run].tasks[held.attempt.task];
    Lease(x, held.account, held.run, TaskId(held.attempt.run, held.attempt.task), held.attempt, task.stage, task.position)
  }

  function ReservationKeys(db: Db): set<Key> {
    set x | x in db.reservations && Joined(db, db.reservations[x].attempt) :: Key(0, db.reservations[x].created, x)
  }

  function LeasesOf(db: Db, keys: seq<Key>): (leases: seq<Lease>)
    requires forall i | 0 <= i < |keys| :: Readable(db, keys[i].id)
    ensures |leases| == |keys| && forall i | 0 <= i < |keys| :: leases[i] == LeaseOf(db, keys[i].id)
  {
    seq(|keys|, i requires 0 <= i < |keys| => LeaseOf(db, keys[i].id))
  }

  /** Every reservation joined with its attempt and task, oldest first. */
  function ActiveLeases(db: Db): (leases: seq<Lease>)
    ensures forall i | 0 <= i < |leases| ::
              && Readable(db, leases[i].reservation)
              && leases[i] == LeaseOf(db, leases[i].reservation)
  {
    var keys := Sorted(ReservationKeys(db));
    assert forall i | 0 <= i < |keys| :: keys[i] in keys;
    LeasesOf(db, keys)
  }

  /** A prepared attempt was never submitted: it fails, and its task may start again. */
  function Rewind(db: Db, lease: Lease, now: Millis): (d: Db)
    requires Joined(db, lease.attempt) && lease.run == lease.attempt.run
    ensures SameShape(db, d)
  {
    var task := db.runs[lease.run].tasks[lease.attempt.task];
    var ended := db.attempts[lease.attempt].(
      state := Abandoned, error := Some(InterruptedBeforeSubmission), retryable := true, completed := Some(now));
    Log(Release(db, lease, ended, if task.attempts < 2 then Todo else Broken, Some(InterruptedBeforeSubmission)),
        lease.run, RecoveredBeforeSubmission(lease.attempt), now)
  }

  /** An attempt the provider may hold stays reserved; its run waits for reconciliation. */
  function HoldBack(db: Db, lease: Lease, now: Millis): (d: Db)
    requires Joined(db, lease.attempt) && lease.run == lease.attempt.run
    ensures SameShape(db, d)
  {
    var attempt := db.attempts[lease.attempt];
    var run := db.runs[lease.run];
    var marked :=
      if attempt.state.Submitting?
      then db.(attempts := db.attempts[lease.attempt := attempt.(state := Uncertain, error := Some(SubmissionUncertain))])
      else db;
    if Terminal(run.status) || run.status.Reconciling? then marked
    else Log(SetRun(marked, lease.run, Unresolved(run, Some(RestartReconciliation))), lease.run, ReconciliationStarted(lease.attempt), now)
  }

  predicate Resolvable(db: Db, lease: Lease) {
    Joined(db, lease.attempt) && lease.run == lease.attempt.run
  }

  /** The same attempts, and the same runs with as many tasks. */
  ghost predicate SameShape(db: Db, d: Db) {
    && d.attempts.Keys == db.attempts.Keys && d.runs.Keys == db.runs.Keys
    && forall r | r in db.runs :: |d.runs[r].tasks| == |db.runs[r].tasks|
  }

  function RecoverOne(db: Db, lease: Lease, now: Millis): (d: Db)
    requires Resolvable(db, lease)
    ensures SameShape(db, d)
  {
    if db.attempts[lease.attempt].state.Prepared? then Rewind(db, lease, now) else HoldBack(db, lease, now)
  }

  /** The loop of `recover` over a prefix of the leases: the rows so far and the leases still reserved. */
  function RecoverAll(db: Db, leases: seq<Lease>, now: Millis): (r: (Db, seq<Lease>))
    requires forall i | 0 <= i < |leases| :: Resolvable(db, leases[i])
    ensures SameShape(db, r.0)
  {
    if leases == [] then (db, [])
    else
      var n := |leases| - 1;
      var lease := leases[n];
      var before := RecoverAll(db, leases[..n], now);
      assert Resolvable(db, lease) && |before.0.runs[lease.run].tasks| == |db.runs[lease.run].tasks|;
      (RecoverOne(before.0, lease, now),
       if before.0.attempts[lease.attempt].state.Prepared? then before.1 else before.1 + [lease])
  }

  /** The rows join up: (attempt_id, run_id) of a reservation is a foreign key. */
  predicate ForeignKeys(db: Db) {
    forall x | x in db.reservations :: Joined(db, db.reservations[x].attempt) && db.reservations[x].run == db.reservations[x].attempt.run
  }

  function Recover(db: Db, now: Millis): Outcome
    requires ForeignKeys(db)
  {
    var r := RecoverAll(db, ActiveLeases(db), now);
    Outcome(r.0, Leases(r.1))
  }

  /** A remaining conversation was accepted and has just been reattached. */
  predicate ReattachedNow(db: Db, k: AttemptId, attached: set<AttemptId>) {
    k in db.attempts && db.attempts[k].state.Accepted? && db.attempts[k].turn.Some? && k in attached
  }

  function ResumeReattached(db: Db, r: Id, attached: set<AttemptId>, now: Millis): Outcome {
    if r !in db.runs then Refuse(db, NotFound)
    else if !db.runs[r].status.Reconciling? then Outcome(db, Flag(false))
    else if exists x | x in db.reservations :: db.reservations[x].run == r && !ReattachedNow(db, db.reservations[x].attempt, attached)
    then Outcome(db, Flag(false))
    else Outcome(Log(SetRun(db, r, Reconciled(db.runs[r])), r, ConversationsReconciled, now), Flag(true))
  }

  function Reattach(db: Db, lease: Lease, conversation: string, now: Millis): Outcome {
    if !Owns(db, lease) then Refuse(db, OwnershipMismatch)
    else
      var attempt := db.attempts[lease.attempt];
      if attempt.state.Accepted? && attempt.turn.Some? && attempt.turn.value.conversation == conversation
      then Outcome(Log(db, lease.run, ConversationReattached(lease.attempt), now), Ok)
      else Refuse(db, ReconciliationRequired)
  }
}
