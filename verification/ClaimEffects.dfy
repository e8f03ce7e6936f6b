/** The whole effect of a claim: what it grants, and what becomes of the runs it does not grant. */
module ClaimEffects {
  import opened Text
  import opened Tables
  import opened Ordering
  import opened Scheduler
  import opened Invariant
  import opened Operations
  import opened Transitions
  import opened Conditions
  import opened Fairness

  // ---------- What becomes of a run that is not granted ----------

  predicate MayWork(run: Run) { run.status.Queued? || run.status.Running? }

  /** Past its deadline and not yet paused for that. */
  predicate Overdue(run: Run, now: Millis) {
    && (MayWork(run) || run.status.Paused? || run.status.WaitingForAuth?)
    && run.deadline <= now && run.pauseReason != Some(RunDeadline)
  }

  /** Why a run that had its turn is paused. */
  ghost function PauseInTurn(run: Run, free: bool, now: Millis): Option<Code> {
    if run.deadline <= now then Some(RunDeadline)
    else if run.submissions >= run.limit then Some(BudgetExhausted)
    else if free && CannotGoOn(run) then Some(IncompleteResults)
    else None
  }

  /** The run `a` is listed before `b`: granted less recently, or created earlier, or with a smaller name. */
  predicate InTurn(d: Db, a: Id, b: Id)
    requires a in d.runs && b in d.runs
  {
    var g, h := LastGrant(d.events, a), LastGrant(d.events, b);
    var s, t := d.runs[a].created, d.runs[b].created;
    g < h || (g == h && (s < t || (s == t && a < b)))
  }

  /** A claim that returns this had the run's turn: it granted nothing, or a run listed later. */
  predicate HadTurn(d: Db, r: Id, lease: Option<Lease>)
    requires r in d.runs
  {
    lease.None? || (lease.value.run in d.runs && InTurn(d, r, lease.value.run))
  }

  /** Why a claim that returns this pauses the run. */
  ghost function PauseReason(d: Db, r: Id, now: Millis, lease: Option<Lease>): Option<Code>
    requires r in d.runs
  {
    if Overdue(d.runs[r], now) then Some(RunDeadline)
    else if MayWork(d.runs[r]) && HadTurn(d, r, lease)
    then PauseInTurn(d.runs[r], AccountFree(d, d.runs[r].request.account, now), now)
    else None
  }

  function AfterPause(run: Run, reason: Option<Code>): Run {
    if reason.Some? then run.(status := Paused, pauseReason := reason) else run
  }

  function Pauses(ids: seq<Id>, now: Millis): (log: seq<Event>)
    ensures |log| == |ids| && forall i | 0 <= i < |ids| :: log[i] == Event(ids[i], RunPaused, now)
  {
    seq(|ids|, i requires 0 <= i < |ids| => Event(ids[i], RunPaused, now))
  }

  // ---------- The deadline sweep ----------

  lemma PausesJoin(a: seq<Id>, b: seq<Id>, now: Millis)
    ensures Pauses(a + b, now) == Pauses(a, now) + Pauses(b, now)
  {
  }

  /** The rows after these runs have been paused at their deadline. */
  ghost predicate SweptRows(d: Db, ids: seq<Id>, now: Millis, e: Db) {
    && e == d.(runs := e.runs, events := d.events + Pauses(ids, now)) && e.runs.Keys == d.runs.Keys
    && forall r | r in d.runs :: e.runs[r] == AfterPause(d.runs[r], if r in ids then Some(RunDeadline) else None)
  }

  lemma SweptOneMore(d: Db, ids: seq<Id>, r: Id, now: Millis, e: Db)
    requires SweptRows(d, ids, now, e) && r in d.runs && r !in ids
    ensures SweptRows(d, ids + [r], now, PauseRun(e, r, RunDeadline, now))
  {
    PausesJoin(ids, [r], now);
    hide Pauses;
    assert Pauses([r], now) == [Event(r, RunPaused, now)] by { OnePause(r, now); }
  }

  lemma OnePause(r: Id, now: Millis)
    ensures Pauses([r], now) == [Event(r, RunPaused, now)]
  {
  }

  lemma {:induction false} PauseAllRows(d: Db, ids: seq<Id>, now: Millis)
    requires Distinct(ids) && forall i | 0 <= i < |ids| :: ids[i] in d.runs
    ensures SweptRows(d, ids, now, PauseAll(d, ids, now))
  {
    if ids == [] {
      assert d.events + Pauses(ids, now) == d.events;
    } else {
      var n := |ids| - 1;
      PauseAllRows(d, ids[..n], now);
      assert ids[n] !in ids[..n] && ids == ids[..n] + [ids[n]];
      SweptOneMore(d, ids[..n], ids[n], now, PauseAll(d, ids[..n], now));
      hide SweptRows;
    }
  }

  lemma ExpiredAreOverdue(d: Db, now: Millis)
    ensures Distinct(ExpiredRuns(d, now))
    ensures forall r :: r in ExpiredRuns(d, now) <==> r in d.runs && Overdue(d.runs[r], now)
  {
    var s := set r | r in d.runs && PastDeadline(d.runs[r], now) :: Key(0, 0, r);
    var keys := Sorted(s);
    var ids := ExpiredRuns(d, now);
    assert ids == Ids(keys);
    forall i, j | 0 <= i < j < |ids| ensures ids[i] != ids[j] {
      assert Before(keys[i], keys[j]) && keys[i] in s && keys[j] in s;
    }
    forall r | r in d.runs && Overdue(d.runs[r], now) ensures r in ids {
      assert Key(0, 0, r) in s;
      var i :| 0 <= i < |keys| && keys[i] == Key(0, 0, r);
      assert ids[i] == r;
    }
  }

  // ---------- The loop ----------

  lemma StuckIff(run: Run)
    requires RunOk(run)
    ensures NextTask(run).None? && Stuck(run) <==> CannotGoOn(run)
  {
    hide RunOk, CanStart, NextTask;
    NextIsFirst(run);
  }

  /** What the loop does to a run it passes over. */
  lemma PassOverRow(d: Db, r: Id, now: Millis)
    requires r in d.runs && RunOk(d.runs[r])
    ensures var reason := PauseInTurn(d.runs[r], AccountFree(d, d.runs[r].request.account, now), now);
            PassOver(d, r, now)
            == if reason.Some? then d.(runs := d.runs[r := AfterPause(d.runs[r], reason)], events := d.events + Pauses([r], now)) else d
  {
    StuckIff(d.runs[r]);
    FreeIff(d, d.runs[r].request.account, now);
    hide RunOk, CannotGoOn, AccountOpen, AccountFree, NextTask, Stuck;
    assert Pauses([r], now) == [Event(r, RunPaused, now)];
  }

  lemma GrantableIff(d: Db, r: Id, now: Millis)
    requires r in d.runs && RunOk(d.runs[r])
    ensures Grantable(d, r, now)
            <==> && now < d.runs[r].deadline && d.runs[r].submissions < d.runs[r].limit
                 && AccountFree(d, d.runs[r].request.account, now) && exists i: nat :: CanStart(d.runs[r], i)
  {
    FreeIff(d, d.runs[r].request.account, now);
    NextIsFirst(d.runs[r]);
    hide RunOk, CanStart, NextTask, AccountOpen, AccountFree;
  }

  /** The runs among these that are paused when they have their turn, in order. */
  ghost function PausedInTurn(d: Db, ids: seq<Id>, now: Millis): seq<Id>
    requires forall i | 0 <= i < |ids| :: ids[i] in d.runs
  {
    if ids == [] then []
    else
      var run := d.runs[ids[0]];
      (if PauseInTurn(run, AccountFree(d, run.request.account, now), now).Some? then [ids[0]] else []) + PausedInTurn(d, ids[1..], now)
  }

  lemma {:induction false} PausedInTurnAre(d: Db, ids: seq<Id>, now: Millis)
    requires Distinct(ids) && forall i | 0 <= i < |ids| :: ids[i] in d.runs
    ensures Distinct(PausedInTurn(d, ids, now))
    ensures forall r :: r in PausedInTurn(d, ids, now)
                        <==> r in ids && PauseInTurn(d.runs[r], AccountFree(d, d.runs[r].request.account, now), now).Some?
  {
    hide PauseInTurn, AccountFree;
    if ids != [] {
      PausedInTurnAre(d, ids[1..], now);
      assert ids[0] !in ids[1..];
      assert forall r :: r in ids <==> r == ids[0] || r in ids[1..];
    }
  }

  lemma {:induction false} PausedInTurnFrame(d: Db, e: Db, ids: seq<Id>, now: Millis)
    requires forall i | 0 <= i < |ids| :: ids[i] in d.runs && ids[i] in e.runs && e.runs[ids[i]] == d.runs[ids[i]]
    requires e.accounts == d.accounts && e.reservations == d.reservations
    ensures PausedInTurn(e, ids, now) == PausedInTurn(d, ids, now)
  {
    if ids != [] {
      PausedInTurnFrame(d, e, ids[1..], now);
      SameFree(d, e, d.runs[ids[0]].request.account, now);
      hide AccountFree, PauseInTurn;
    }
  }

  lemma SameFree(d: Db, e: Db, a: Id, now: Millis)
    requires e.accounts == d.accounts && e.reservations == d.reservations
    ensures AccountFree(e, a, now) == AccountFree(d, a, now)
  {
  }

  ghost function RowInTurn(d: Db, r: Id, now: Millis): Run
    requires r in d.runs
  {
    AfterPause(d.runs[r], PauseInTurn(d.runs[r], AccountFree(d, d.runs[r].request.account, now), now))
  }

  /** The rows after the loop has passed over these runs. */
  ghost predicate PassedRuns(d: Db, passed: seq<Id>, now: Millis, m: Db) {
    && m == d.(runs := m.runs, events := m.events) && m.runs.Keys == d.runs.Keys
    && forall r | r in d.runs :: m.runs[r] == if r in passed then RowInTurn(d, r, now) else d.runs[r]
  }

  ghost predicate PassedRows(d: Db, ids: seq<Id>, now: Millis, n: nat, m: Db)
    requires n <= |ids| && forall i | 0 <= i < |ids| :: ids[i] in d.runs
  {
    PassedRuns(d, ids[..n], now, m) && m.events == d.events + Pauses(PausedInTurn(d, ids[..n], now), now)
  }

  lemma {:induction false} LoopRows(d: Db, ids: seq<Id>, now: Millis, spacing: int, x: Id) returns (n: nat, m: Db)
    requires Distinct(ids) && forall i | 0 <= i < |ids| :: ids[i] in d.runs && RunOk(d.runs[ids[i]])
    ensures n <= |ids| && PassedRows(d, ids, now, n, m)
    ensures forall i | 0 <= i < n :: !Grantable(d, ids[i], now)
    ensures n < |ids| ==> ids[n] in m.runs && m.runs[ids[n]] == d.runs[ids[n]] && Grantable(m, ids[n], now)
    ensures ClaimFrom(d, ids, now, spacing, x) == GrantFirst(m, ids, n, now, spacing, x)
    decreases |ids|
  {
    hide Grantable, Grant, PassOver, PauseInTurn, AccountFree, NextTask, RunOk;
    if ids == [] || Grantable(d, ids[0], now) {
      n, m := 0, d;
      NothingPassed(d, ids, now);
    } else {
      var e := PassOver(d, ids[0], now);
      PassOverRow(d, ids[0], now);
      forall i | 0 <= i < |ids[1..]|
        ensures ids[1..][i] in d.runs && ids[1..][i] in e.runs && e.runs[ids[1..][i]] == d.runs[ids[1..][i]]
        ensures Grantable(e, ids[1..][i], now) == Grantable(d, ids[1..][i], now)
      {
        assert ids[1..][i] == ids[i + 1] != ids[0];
        GrantableFrame(d, e, ids[1..][i], now);
      }
      n, m := LoopRows(e, ids[1..], now, spacing, x);
      hide PassedRows;
      PassedOneMore(d, e, ids, now, n, m);
      if n < |ids[1..]| { assert ids[1..][n] == ids[n + 1]; }
      forall i | 0 <= i < n + 1 ensures !Grantable(d, ids[i], now) {
        if i > 0 { assert ids[1..][i - 1] == ids[i]; }
      }
      n := n + 1;
    }
  }

  lemma NothingPassed(d: Db, ids: seq<Id>, now: Millis)
    requires forall i | 0 <= i < |ids| :: ids[i] in d.runs
    ensures PassedRows(d, ids, now, 0, d)
  {
    assert d.events + Pauses([], now) == d.events;
    assert ids[..0] == [];
  }

  lemma PassedOneMore(d: Db, e: Db, ids: seq<Id>, now: Millis, n: nat, m: Db)
    requires ids != [] && Distinct(ids) && (forall i | 0 <= i < |ids| :: ids[i] in d.runs) && RunOk(d.runs[ids[0]])
    requires e == PassOver(d, ids[0], now) && n <= |ids[1..]|
    requires forall i | 0 <= i < |ids[1..]| :: ids[1..][i] in e.runs && e.runs[ids[1..][i]] == d.runs[ids[1..][i]]
    requires PassedRows(e, ids[1..], now, n, m)
    ensures PassedRows(d, ids, now, n + 1, m)
  {
    hide PassOver, PauseInTurn, AccountFree, RunOk, PausedInTurn, Pauses, PassedRuns;
    PassOverRow(d, ids[0], now);
    var rest := ids[1..][..n];
    assert ids[..n + 1] == [ids[0]] + rest && ids[0] !in rest;
    PausedInTurnFrame(d, e, rest, now);
    FirstPause(d, ids[0], rest, now);
    JoinLogs(d.events, Pauses([ids[0]], now), Pauses(PausedInTurn(d, rest, now), now));
    PassedRunsOneMore(d, e, ids[0], rest, now, m);
  }

  lemma JoinLogs(a: seq<Event>, b: seq<Event>, c: seq<Event>)
    ensures (a + b) + c == a + (b + c) && a + ([] + c) == a + c
  {
  }

  lemma PassedRunsOneMore(d: Db, e: Db, r: Id, rest: seq<Id>, now: Millis, m: Db)
    requires r in d.runs && r !in rest && e.runs.Keys == d.runs.Keys && PassedRuns(e, rest, now, m)
    requires e == d.(runs := e.runs, events := e.events) && e.runs == d.runs[r := RowInTurn(d, r, now)]
    ensures PassedRuns(d, [r] + rest, now, m)
  {
    hide PauseInTurn, AccountFree;
    forall q | q in d.runs ensures m.runs[q] == if q in [r] + rest then RowInTurn(d, q, now) else d.runs[q] {
      SameFree(d, e, d.runs[q].request.account, now);
    }
  }

  lemma FirstPause(d: Db, r: Id, rest: seq<Id>, now: Millis)
    requires r in d.runs && forall i | 0 <= i < |rest| :: rest[i] in d.runs
    ensures var reason := PauseInTurn(d.runs[r], AccountFree(d, d.runs[r].request.account, now), now);
            && PausedInTurn(d, [r] + rest, now) == (if reason.Some? then [r] else []) + PausedInTurn(d, rest, now)
            && Pauses(PausedInTurn(d, [r] + rest, now), now)
               == (if reason.Some? then Pauses([r], now) else []) + Pauses(PausedInTurn(d, rest, now), now)
  {
    hide PauseInTurn, AccountFree, Pauses;
    assert ([r] + rest)[1..] == rest;
    PausesJoin([r], PausedInTurn(d, rest, now), now);
  }

  // ---------- The order of the candidates ----------

  lemma CandidatesInTurn(d: Db)
    ensures forall r :: r in Candidates(d) <==> r in d.runs && MayWork(d.runs[r])
    ensures forall i, j | 0 <= i < j < |Candidates(d)| :: InTurn(d, Candidates(d)[i], Candidates(d)[j])
  {
    var keys := Sorted(CandidateKeys(d));
    var ids := Candidates(d);
    assert ids == Ids(keys);
    forall i, j | 0 <= i < j < |ids| ensures InTurn(d, ids[i], ids[j]) {
      assert Before(keys[i], keys[j]) && keys[i] in CandidateKeys(d) && keys[j] in CandidateKeys(d);
    }
    forall r | r in d.runs && MayWork(d.runs[r]) ensures r in ids {
      assert Key(LastGrant(d.events, r), d.runs[r].created, r) in CandidateKeys(d);
      var i :| 0 <= i < |keys| && keys[i] == Key(LastGrant(d.events, r), d.runs[r].created, r);
      assert ids[i] == r;
    }
  }

  lemma SameTurn(d: Db, e: Db, a: Id, b: Id)
    requires Sweep(d, e) && a in d.runs && b in d.runs
    ensures a in e.runs && b in e.runs && (InTurn(e, a, b) <==> InTurn(d, a, b))
  {
    LastGrantCalm(d.events, e.events, a);
    LastGrantCalm(d.events, e.events, b);
    assert Relabelled(d.runs[a], e.runs[a]) && Relabelled(d.runs[b], e.runs[b]);
    hide LastGrant, CalmLog;
  }

  lemma OneWay(d: Db, a: Id, b: Id)
    requires a in d.runs && b in d.runs
    ensures !(InTurn(d, a, b) && InTurn(d, b, a)) && !InTurn(d, a, a)
  {
    hide LastGrant;
  }

  // ---------- The claim ----------

  /** Queued or running, in time, within its budget, its account free, and a task that can start. */
  ghost predicate Servable(d: Db, r: Id, now: Millis)
    requires r in d.runs
  {
    && MayWork(d.runs[r]) && now < d.runs[r].deadline && d.runs[r].submissions < d.runs[r].limit
    && AccountFree(d, d.runs[r].request.account, now) && exists i: nat :: CanStart(d.runs[r], i)
  }

  /** The rows a returned lease stands for. */
  ghost predicate Granted(d: Db, e: Db, lease: Lease, now: Millis, jitter: int, x: Id) {
    lease.run in d.runs &&
    var r, i := lease.run, lease.attempt.task;
    var run, a, k := d.runs[r], d.runs[r].request.account, lease.attempt;
    && Servable(d, r, now) && CanStart(run, i) && (forall j: nat | j < i :: !CanStart(run, j)) && a in d.accounts
    && k == AttemptId(r, i, run.tasks[i].attempts + 1)
    && lease == Lease(x, a, r, TaskId(r, i), k, run.tasks[i].stage, run.tasks[i].position)
    && r in e.runs
    && e.runs[r] == run.(status := Running,
                         tasks := run.tasks[i := run.tasks[i].(status := Active, attempts := run.tasks[i].attempts + 1, error := None)])
    && e.attempts == d.attempts[k := Attempt(Prepared, now, None, None, None, None, false)]
    && e.reservations == d.reservations[x := Reservation(a, r, k, now, 30_000 + jitter)]
    && e.accounts == d.accounts[a := d.accounts[a].(nextSubmit := SatAdd(now, 30_000 + jitter))]
  }

  lemma GrantIs(d: Db, m: Db, r: Id, now: Millis, jitter: int, x: Id)
    requires r in d.runs && r in m.runs && m.runs[r] == d.runs[r] && RunOk(d.runs[r]) && MayWork(d.runs[r]) && Grantable(m, r, now)
    requires m == d.(runs := m.runs, events := m.events)
    ensures var i := NextTask(m.runs[r]).value;
            var lease := LeaseFor(m.runs[r], r, i, x);
            && Granted(d, Grant(m, r, i, now, SUBMISSION_SPACING_MS + jitter, x), lease, now, jitter, x)
            && Grant(m, r, i, now, SUBMISSION_SPACING_MS + jitter, x).events == m.events + [Event(r, AttemptPrepared(lease.attempt), now)]
            && Grant(m, r, i, now, SUBMISSION_SPACING_MS + jitter, x).runs.Keys == m.runs.Keys
            && forall q | q in m.runs && q != r :: Grant(m, r, i, now, SUBMISSION_SPACING_MS + jitter, x).runs[q] == m.runs[q]
  {
    GrantableIff(m, r, now);
    SameFree(d, m, d.runs[r].request.account, now);
    NextIsFirst(d.runs[r]);
    hide RunOk, CanStart, NextTask, AccountFree, Grantable;
    GrantableAccount(m, r, now);
  }

  lemma GrantableAccount(m: Db, r: Id, now: Millis)
    requires r in m.runs && Grantable(m, r, now)
    ensures m.runs[r].request.account in m.accounts && NextTask(m.runs[r]).Some?
  {
  }

  /** The rows before a lease is granted. */
  ghost predicate Waited(d: Db, m: Db, now: Millis, lease: Option<Lease>, paused: seq<Id>) {
    && m == d.(runs := m.runs, events := d.events + Pauses(paused, now)) && m.runs.Keys == d.runs.Keys
    && Distinct(paused) && (forall r :: r in paused <==> r in d.runs && PauseReason(d, r, now, lease).Some?)
    && forall r | r in d.runs :: m.runs[r] == AfterPause(d.runs[r], PauseReason(d, r, now, lease))
  }

  /** The whole effect of a claim. Every run that is overdue, and every queued or running run that had its turn and is past
      its deadline, out of budget, or unable to go on with its account free, is paused for that reason and logged; if a
      lease is returned, it stands for the first task that can start of the first run in turn that can be served; if none
      is, no run can be served. Nothing else changes. */
  ghost predicate Claims(d: Db, o: Outcome, now: Millis, jitter: int, x: Id, paused: seq<Id>) {
    && o.reply.Claimed? && Distinct(paused)
    && (forall r :: r in paused <==> r in d.runs && PauseReason(d, r, now, o.reply.lease).Some?)
    && o.db.runs.Keys == d.runs.Keys
    && (forall r | r in d.runs && (o.reply.lease.Some? ==> r != o.reply.lease.value.run) ::
          o.db.runs[r] == AfterPause(d.runs[r], PauseReason(d, r, now, o.reply.lease)))
    && match o.reply.lease
       case None =>
         && o.db == d.(runs := o.db.runs, events := d.events + Pauses(paused, now))
         && forall r | r in d.runs :: !Servable(d, r, now)
       case Some(lease) =>
         && o.db == d.(runs := o.db.runs, attempts := o.db.attempts, reservations := o.db.reservations, accounts := o.db.accounts,
                       events := d.events + Pauses(paused, now) + [Event(lease.run, AttemptPrepared(lease.attempt), now)])
         && Granted(d, o.db, lease, now, jitter, x)
         && forall r | r in d.runs && r != lease.run && Servable(d, r, now) :: InTurn(d, lease.run, r)
  }

  /** What a claim returns after passing over the first `n` candidates. */
  function LeaseReturned(m: Db, ids: seq<Id>, n: nat, x: Id, now: Millis): Option<Lease>
    requires n < |ids| ==> ids[n] in m.runs && Grantable(m, ids[n], now)
  {
    if n < |ids| then Some(LeaseFor(m.runs[ids[n]], ids[n], NextTask(m.runs[ids[n]]).value, x)) else None
  }

  /** The runs passed over are those that had their turn. */
  lemma PassedHadTurn(d: Db, e: Db, n: nat, lease: Option<Lease>, r: Id)
    requires Sweep(d, e) && n <= |Candidates(e)| && r in d.runs && r in e.runs
    requires lease.None? <==> n == |Candidates(e)|
    requires lease.Some? ==> lease.value.run == Candidates(e)[n]
    ensures r in Candidates(e)[..n] <==> MayWork(e.runs[r]) && HadTurn(d, r, lease)
  {
    hide Candidates, InTurn, Sweep;
    CandidatesInTurn(e);
    var ids := Candidates(e);
    SweptKeys(d, e);
    if n < |ids| { SameTurn(d, e, r, ids[n]); }
    if r in ids {
      var p :| 0 <= p < |ids| && ids[p] == r;
      if n < |ids| { OneWay(e, r, ids[n]); }
    }
  }

  lemma SweptKeys(d: Db, e: Db)
    requires Sweep(d, e)
    ensures e.runs.Keys == d.runs.Keys && e.accounts == d.accounts && e.reservations == d.reservations
  {
  }

  /** One run under sweep and loop. */
  lemma OneWaited(d: Db, e: Db, m: Db, r: Id, now: Millis, lease: Option<Lease>, passed: seq<Id>)
    requires r in d.runs && r in e.runs && e.accounts == d.accounts && e.reservations == d.reservations
    requires e.runs[r] == AfterPause(d.runs[r], if Overdue(d.runs[r], now) then Some(RunDeadline) else None)
    requires r in passed <==> MayWork(e.runs[r]) && HadTurn(d, r, lease)
    requires r in m.runs && m.runs[r] == if r in passed then RowInTurn(e, r, now) else e.runs[r]
    ensures m.runs[r] == AfterPause(d.runs[r], PauseReason(d, r, now, lease))
    ensures PauseReason(d, r, now, lease).Some?
            <==> || Overdue(d.runs[r], now)
                 || (r in passed && PauseInTurn(e.runs[r], AccountFree(e, e.runs[r].request.account, now), now).Some?)
  {
    hide PauseInTurn, AccountFree, HadTurn;
    SameFree(d, e, d.runs[r].request.account, now);
  }

  /** Sweep and loop together pause the runs that are to be paused. */
  lemma WaitedRows(d: Db, e: Db, n: nat, m: Db, now: Millis, lease: Option<Lease>)
    requires SweptRows(d, ExpiredRuns(d, now), now, e) && Sweep(d, e)
    requires (forall i | 0 <= i < |Candidates(e)| :: Candidates(e)[i] in e.runs) && n <= |Candidates(e)|
    requires PassedRows(e, Candidates(e), now, n, m) && (lease.None? <==> n == |Candidates(e)|)
    requires lease.Some? ==> lease.value.run == Candidates(e)[n]
    ensures Waited(d, m, now, lease, ExpiredRuns(d, now) + PausedInTurn(e, Candidates(e)[..n], now))
  {
    hide Candidates, PauseInTurn, AccountFree, InTurn, Sweep, Pauses, PausedInTurn, ExpiredRuns, HadTurn, PauseReason, Overdue,
      AfterPause, RowInTurn, MayWork;
    var expired, passed := ExpiredRuns(d, now), Candidates(e)[..n];
    CandidatesDistinct(e);
    ExpiredAreOverdue(d, now);
    SweptKeys(d, e);
    forall r | r in d.runs
      ensures r in passed ==> !Overdue(d.runs[r], now)
      ensures m.runs[r] == AfterPause(d.runs[r], PauseReason(d, r, now, lease))
      ensures PauseReason(d, r, now, lease).Some?
              <==> || Overdue(d.runs[r], now)
                   || (r in passed && PauseInTurn(e.runs[r], AccountFree(e, e.runs[r].request.account, now), now).Some?)
    {
      PassedHadTurn(d, e, n, lease, r);
      OneWaited(d, e, m, r, now, lease, passed);
      SweptIsPassedOver(d.runs[r], e.runs[r], now);
    }
    WaitedLog(d, e, now, passed);
    JoinLogs(d.events, Pauses(expired, now), Pauses(PausedInTurn(e, passed, now), now));
  }

  lemma SweptIsPassedOver(run: Run, swept: Run, now: Millis)
    requires Overdue(run, now) ==> swept == AfterPause(run, Some(RunDeadline))
    ensures Overdue(run, now) ==> !MayWork(swept)
  {
  }

  lemma WaitedLog(d: Db, e: Db, now: Millis, passed: seq<Id>)
    requires Distinct(passed) && forall i | 0 <= i < |passed| :: passed[i] in e.runs
    requires forall r | r in passed :: r !in ExpiredRuns(d, now)
    ensures var paused := ExpiredRuns(d, now) + PausedInTurn(e, passed, now);
            && Distinct(paused) && Pauses(paused, now) == Pauses(ExpiredRuns(d, now), now) + Pauses(PausedInTurn(e, passed, now), now)
            && forall r :: r in paused <==>
                 || r in ExpiredRuns(d, now)
                 || (r in passed && PauseInTurn(e.runs[r], AccountFree(e, e.runs[r].request.account, now), now).Some?)
  {
    hide PauseInTurn, AccountFree, Pauses, PausedInTurn, ExpiredRuns, Overdue;
    ExpiredAreOverdue(d, now);
    PausedInTurnAre(e, passed, now);
    PausesJoin(ExpiredRuns(d, now), PausedInTurn(e, passed, now), now);
    DistinctJoin(ExpiredRuns(d, now), PausedInTurn(e, passed, now));
  }

  lemma DistinctJoin(a: seq<Id>, b: seq<Id>)
    requires Distinct(a) && Distinct(b) && forall r | r in b :: r !in a
    ensures Distinct(a + b)
  {
    forall i, j | 0 <= i < j < |a + b| ensures (a + b)[i] != (a + b)[j] {
      if i < |a| <= j { assert a[i] in a && b[j - |a|] in b; }
    }
  }

  lemma ServableIff(d: Db, e: Db, r: Id, now: Millis)
    requires r in d.runs && r in e.runs && RunOk(e.runs[r]) && e.accounts == d.accounts && e.reservations == d.reservations
    requires e.runs[r] == AfterPause(d.runs[r], if Overdue(d.runs[r], now) then Some(RunDeadline) else None)
    ensures Servable(d, r, now) <==> MayWork(e.runs[r]) && Grantable(e, r, now)
  {
    GrantableIff(e, r, now);
    SameFree(d, e, d.runs[r].request.account, now);
    hide RunOk, AccountFree, Grantable, CanStart;
  }

  lemma NothingGranted(d: Db, m: Db, now: Millis, jitter: int, x: Id, paused: seq<Id>)
    requires Waited(d, m, now, None, paused) && forall r | r in d.runs :: !Servable(d, r, now)
    ensures Claims(d, Outcome(m, Claimed(None)), now, jitter, x, paused)
  {
    hide PauseReason, Servable, Pauses, Distinct;
  }

  lemma OneGranted(d: Db, m: Db, e: Db, lease: Lease, now: Millis, jitter: int, x: Id, paused: seq<Id>)
    requires Waited(d, m, now, Some(lease), paused) && Granted(d, e, lease, now, jitter, x)
    requires e == m.(runs := e.runs, attempts := e.attempts, reservations := e.reservations, accounts := e.accounts,
                     events := m.events + [Event(lease.run, AttemptPrepared(lease.attempt), now)])
    requires e.runs.Keys == m.runs.Keys && forall r | r in m.runs && r != lease.run :: e.runs[r] == m.runs[r]
    requires forall r | r in d.runs && r != lease.run && Servable(d, r, now) :: InTurn(d, lease.run, r)
    ensures Claims(d, Outcome(e, Claimed(Some(lease))), now, jitter, x, paused)
  {
    hide PauseReason, Servable, Pauses, Distinct, Granted, InTurn;
  }

  /** The servable runs are candidates that were not passed over. */
  lemma ServableLater(d: Db, e: Db, n: nat, r: Id, now: Millis)
    requires Sweep(d, e) && SweptRows(d, ExpiredRuns(d, now), now, e) && r in d.runs && r in e.runs && RunOk(e.runs[r])
    requires n <= |Candidates(e)| && Servable(d, r, now)
    requires forall i | 0 <= i < n :: Candidates(e)[i] in e.runs && !Grantable(e, Candidates(e)[i], now)
    ensures n < |Candidates(e)|
    ensures Candidates(e)[n] in d.runs && (r != Candidates(e)[n] ==> InTurn(d, Candidates(e)[n], r))
  {
    hide Candidates, Sweep, RunOk, Grantable, Servable, InTurn, ExpiredRuns;
    ExpiredAreOverdue(d, now);
    SweptKeys(d, e);
    ServableIff(d, e, r, now);
    CandidatesInTurn(e);
    var p :| 0 <= p < |Candidates(e)| && Candidates(e)[p] == r;
    assert Candidates(e)[n] in Candidates(e);
    SameTurn(d, e, Candidates(e)[n], r);
  }

  lemma ClaimEffect(d: Db, now: Millis, jitter: int, x: Id) returns (paused: seq<Id>)
    requires Valid(d) && 0 <= jitter <= 5_000 && x !in d.reservations
    ensures Claims(d, Claim(d, now, jitter, x), now, jitter, x, paused)
  {
    hide Valid, Evolves, PauseAll, ClaimFrom, Candidates, ExpiredRuns, RunOk, Grantable, Grant, NextTask, InTurn, Sweep,
      AccountFree, CanStart, PauseReason, PassedRows, SweptRows, Servable, PausedInTurn, Pauses, Granted, Distinct, Claims, Waited;
    var e := Swept(d, now);
    var ids := Candidates(e);
    ExpiredAreOverdue(d, now);
    PauseAllRows(d, ExpiredRuns(d, now), now);
    SweptSweeps(d, now);
    SweptKeys(d, e);
    SweepKeeps(d, now);
    CandidatesDistinct(e);
    forall r | r in e.runs ensures RunOk(e.runs[r]) { RunIsOk(e, r); }
    var n, m := LoopRows(e, ids, now, SUBMISSION_SPACING_MS + jitter, x);
    var lease := LeaseReturned(m, ids, n, x, now);
    WaitedRows(d, e, n, m, now, lease);
    paused := ExpiredRuns(d, now) + PausedInTurn(e, ids[..n], now);
    forall r | r in d.runs && Servable(d, r, now)
      ensures n < |ids| && ids[n] in d.runs && (r != ids[n] ==> InTurn(d, ids[n], r))
    {
      ServableLater(d, e, n, r, now);
    }
    if n < |ids| {
      SweptUntouched(d, e, ids[n], now);
      GrantAfter(d, e, m, n, now, jitter, x, paused);
    } else {
      NothingGranted(d, m, now, jitter, x, paused);
    }
  }

  /** A candidate was not touched by the sweep. */
  lemma SweptUntouched(d: Db, e: Db, r: Id, now: Millis)
    requires SweptRows(d, ExpiredRuns(d, now), now, e) && r in e.runs && MayWork(e.runs[r])
    ensures r in d.runs && e.runs[r] == d.runs[r]
  {
    hide ExpiredRuns;
  }

  lemma GrantAfter(d: Db, e: Db, m: Db, n: nat, now: Millis, jitter: int, x: Id, paused: seq<Id>)
    requires n < |Candidates(e)| && Candidates(e)[n] in d.runs && Candidates(e)[n] in e.runs && Candidates(e)[n] in m.runs
    requires var r := Candidates(e)[n]; m.runs[r] == d.runs[r] && RunOk(d.runs[r]) && MayWork(d.runs[r]) && Grantable(m, r, now)
    requires Waited(d, m, now, LeaseReturned(m, Candidates(e), n, x, now), paused)
    requires forall r | r in d.runs && Servable(d, r, now) :: r != Candidates(e)[n] ==> InTurn(d, Candidates(e)[n], r)
    ensures Claims(d, GrantFirst(m, Candidates(e), n, now, SUBMISSION_SPACING_MS + jitter, x), now, jitter, x, paused)
  {
    hide Candidates, RunOk, Grantable, NextTask, InTurn, PauseReason, Servable, Pauses, Granted, Distinct, Claims;
    var r := Candidates(e)[n];
    GrantableAccount(m, r, now);
    GrantIs(d, m, r, now, jitter, x);
    var i := NextTask(m.runs[r]).value;
    OneGranted(d, m, Grant(m, r, i, now, SUBMISSION_SPACING_MS + jitter, x), LeaseFor(m.runs[r], r, i, x), now, jitter, x, paused);
  }
}
