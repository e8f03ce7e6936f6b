/** What a single transaction does to each table: the facts the theorems about histories rest on. */
module Transitions {
  import opened Text
  import opened Tables
  import opened Scheduler
  import opened Accounts
  import opened Operations

  // ---------- Sweeps over runs ----------

  /** Neither starts an attempt nor charges a submission. */
  predicate Calm(k: EventKind) { !k.AttemptPrepared? && !k.SubmissionStarted? }

  ghost predicate CalmLog(d: seq<Event>, e: seq<Event>) {
    d <= e && forall i | |d| <= i < |e| :: Calm(e[i].kind)
  }

  /** Only the status and pause reason of the run may change, and a reconciliation neither starts nor ends. */
  predicate Relabelled(r: Run, s: Run) {
    && s == r.(status := s.status, pauseReason := s.pauseReason)
    && (r.status.Reconciling? || s.status.Reconciling? || Terminal(r.status) || Terminal(s.status) ==> s == r)
  }

  /** A sweep that relabels runs and logs it. */
  ghost predicate Sweep(d: Db, e: Db) {
    && e == d.(runs := e.runs, events := e.events)
    && e.runs.Keys == d.runs.Keys && (forall r | r in d.runs :: Relabelled(d.runs[r], e.runs[r]))
    && CalmLog(d.events, e.events)
  }

  lemma SweepTrans(d: Db, e: Db, f: Db)
    requires Sweep(d, e) && Sweep(e, f)
    ensures Sweep(d, f)
  {
    forall r | r in d.runs ensures Relabelled(d.runs[r], f.runs[r]) {
      assert Relabelled(d.runs[r], e.runs[r]) && Relabelled(e.runs[r], f.runs[r]);
    }
  }

  predicate Relabellable(run: Run) { !run.status.Reconciling? && !Terminal(run.status) }

  lemma RelabelSweeps(d: Db, r: Id, s: Run, kind: EventKind, now: Millis)
    requires r in d.runs && Relabelled(d.runs[r], s) && Calm(kind)
    ensures Sweep(d, Log(SetRun(d, r, s), r, kind, now))
  {
  }

  ghost predicate AllRelabellable(d: Db, ids: seq<Id>) {
    forall i | 0 <= i < |ids| :: ids[i] in d.runs && Relabellable(d.runs[ids[i]])
  }

  lemma StillRelabellable(d: Db, e: Db, r: Id)
    requires Sweep(d, e) && r in d.runs && Relabellable(d.runs[r])
    ensures r in e.runs && Relabellable(e.runs[r])
  {
    assert Relabelled(d.runs[r], e.runs[r]);
  }

  lemma {:induction false} PauseAllSweeps(d: Db, ids: seq<Id>, now: Millis)
    requires AllRelabellable(d, ids)
    ensures Sweep(d, PauseAll(d, ids, now))
  {
    if ids != [] {
      var n := |ids| - 1;
      var e := PauseAll(d, ids[..n], now);
      PauseAllSweeps(d, ids[..n], now);
      StillRelabellable(d, e, ids[n]);
      RelabelSweeps(e, ids[n], e.runs[ids[n]].(status := Paused, pauseReason := Some(RunDeadline)), RunPaused, now);
      hide Sweep;
      SweepTrans(d, e, PauseAll(d, ids, now));
    }
  }

  lemma {:induction false} AwaitLoginAllSweeps(d: Db, ids: seq<Id>, reason: Code, now: Millis)
    requires AllRelabellable(d, ids)
    ensures Sweep(d, AwaitLoginAll(d, ids, reason, now))
  {
    if ids != [] {
      var n := |ids| - 1;
      var e := AwaitLoginAll(d, ids[..n], reason, now);
      AwaitLoginAllSweeps(d, ids[..n], reason, now);
      StillRelabellable(d, e, ids[n]);
      RelabelSweeps(e, ids[n], e.runs[ids[n]].(status := WaitingForAuth, pauseReason := Some(reason)), AccountLoginRequired, now);
      hide Sweep;
      SweepTrans(d, e, AwaitLoginAll(d, ids, reason, now));
    }
  }

  lemma {:induction false} RequeueAllSweeps(d: Db, ids: seq<Id>, now: Millis)
    requires AllRelabellable(d, ids)
    ensures Sweep(d, RequeueAll(d, ids, now))
  {
    if ids != [] {
      var n := |ids| - 1;
      var e := RequeueAll(d, ids[..n], now);
      RequeueAllSweeps(d, ids[..n], now);
      StillRelabellable(d, e, ids[n]);
      RelabelSweeps(e, ids[n], e.runs[ids[n]].(status := Queued, pauseReason := None), AccountVerified, now);
      hide Sweep;
      if e.runs[ids[n]].deadline > now { SweepTrans(d, e, RequeueAll(d, ids, now)); }
    }
  }

  lemma {:induction false} NoteRateLimitSweeps(d: Db, ids: seq<Id>, now: Millis)
    ensures Sweep(d, NoteRateLimit(d, ids, now))
  {
    if ids != [] { NoteRateLimitSweeps(d, ids[..|ids| - 1], now); }
  }

  // ---------- claim ----------

  lemma PauseSweeps(d: Db, r: Id, reason: Code, now: Millis)
    requires r in d.runs && Relabellable(d.runs[r])
    ensures Sweep(d, PauseRun(d, r, reason, now))
    ensures forall q | q in d.runs && q != r :: PauseRun(d, r, reason, now).runs[q] == d.runs[q]
  {
    hide Sweep;
    RelabelSweeps(d, r, d.runs[r].(status := Paused, pauseReason := Some(reason)), RunPaused, now);
  }

  lemma PassOverSweeps(d: Db, r: Id, now: Millis)
    requires r in d.runs && Waiting(d.runs[r].status)
    ensures Sweep(d, PassOver(d, r, now))
    ensures forall q | q in d.runs && q != r :: PassOver(d, r, now).runs[q] == d.runs[q]
  {
    hide Sweep, Exhausted, AccountOpen, NextTask, Stuck, PauseRun;
    NoSweep(d);
    PauseSweeps(d, r, RunDeadline, now);
    PauseSweeps(d, r, BudgetExhausted, now);
    PauseSweeps(d, r, IncompleteResults, now);
  }

  lemma NoSweep(d: Db)
    ensures Sweep(d, d)
  {
  }

  /** The loop of `claim` passes over some runs, and then stops at the first one it can grant. */
  ghost predicate StopsAt(d: Db, ids: seq<Id>, now: Millis, n: nat, m: Db) {
    && n <= |ids| && Sweep(d, m)
    && (forall i | n <= i < |ids| :: ids[i] in d.runs && ids[i] in m.runs && m.runs[ids[i]] == d.runs[ids[i]])
    && (forall i | 0 <= i < n :: ids[i] in d.runs && !Grantable(d, ids[i], now))
    && (n < |ids| ==> Grantable(m, ids[n], now))
  }

  /** Whether a run can be granted depends on its own row, its account and the reservations alone. */
  lemma GrantableFrame(d: Db, e: Db, r: Id, now: Millis)
    requires r in d.runs && r in e.runs && e.runs[r] == d.runs[r] && e.accounts == d.accounts && e.reservations == d.reservations
    ensures Grantable(e, r, now) == Grantable(d, r, now)
  {
  }

  function GrantFirst(m: Db, ids: seq<Id>, n: nat, now: Millis, spacing: int, x: Id): Outcome
    requires n < |ids| ==> ids[n] in m.runs && Grantable(m, ids[n], now)
  {
    if n >= |ids| then Outcome(m, Claimed(None))
    else
      var i := NextTask(m.runs[ids[n]]).value;
      Outcome(Grant(m, ids[n], i, now, spacing, x), Claimed(Some(LeaseFor(m.runs[ids[n]], ids[n], i, x))))
  }

  lemma {:induction false} ClaimFromStops(d: Db, ids: seq<Id>, now: Millis, spacing: int, x: Id) returns (n: nat, m: Db)
    requires Distinct(ids) && forall i | 0 <= i < |ids| :: ids[i] in d.runs && Waiting(d.runs[ids[i]].status)
    ensures StopsAt(d, ids, now, n, m) && ClaimFrom(d, ids, now, spacing, x) == GrantFirst(m, ids, n, now, spacing, x)
    decreases |ids|
  {
    hide AccountOpen, NextTask, Exhausted, Grant, PassOver;
    if ids == [] || Grantable(d, ids[0], now) {
      n, m := 0, d;
    } else {
      var e := PassOver(d, ids[0], now);
      PassOverSweeps(d, ids[0], now);
      forall i | 0 <= i < |ids[1..]|
        ensures ids[1..][i] in e.runs && ids[1..][i] in d.runs && e.runs[ids[1..][i]] == d.runs[ids[1..][i]]
        ensures Waiting(e.runs[ids[1..][i]].status) && Grantable(e, ids[1..][i], now) == Grantable(d, ids[1..][i], now)
      {
        assert ids[1..][i] == ids[i + 1] != ids[0];
        GrantableFrame(d, e, ids[1..][i], now);
      }
      n, m := ClaimFromStops(e, ids[1..], now, spacing, x);
      StopsOneLater(d, e, ids, now, n, m);
      n := n + 1;
    }
  }

  lemma StopsOneLater(d: Db, e: Db, ids: seq<Id>, now: Millis, n: nat, m: Db)
    requires ids != [] && ids[0] in d.runs && !Grantable(d, ids[0], now) && Sweep(d, e) && StopsAt(e, ids[1..], now, n, m)
    requires forall i | 0 <= i < |ids[1..]| ::
               && ids[1..][i] in d.runs && ids[1..][i] in e.runs && e.runs[ids[1..][i]] == d.runs[ids[1..][i]]
               && Grantable(e, ids[1..][i], now) == Grantable(d, ids[1..][i], now)
    ensures StopsAt(d, ids, now, n + 1, m)
  {
    hide Grantable;
    SweepTrans(d, e, m);
    hide Sweep;
    forall i | n + 1 <= i < |ids| ensures ids[i] in d.runs && ids[i] in m.runs && m.runs[ids[i]] == d.runs[ids[i]] {
      assert ids[1..][i - 1] == ids[i];
    }
    forall i | 0 <= i < n + 1 ensures ids[i] in d.runs && !Grantable(d, ids[i], now) {
      if i > 0 { assert ids[1..][i - 1] == ids[i]; }
    }
  }

  /** The rows after the deadline sweep of `claim`. */
  function Swept(d: Db, now: Millis): Db { PauseAll(d, ExpiredRuns(d, now), now) }

  lemma SweptSweeps(d: Db, now: Millis)
    ensures Sweep(d, Swept(d, now))
  {
    hide PauseAll;
    PauseAllSweeps(d, ExpiredRuns(d, now), now);
  }

  /** A claim sweeps the expired runs, passes over some candidates, and grants at most one. */
  lemma ClaimShape(d: Db, now: Millis, jitter: int, x: Id) returns (n: nat, m: Db)
    requires 0 <= jitter <= MAX_JITTER_MS && x !in d.reservations
    ensures Sweep(d, m) && StopsAt(Swept(d, now), Candidates(Swept(d, now)), now, n, m)
    ensures Claim(d, now, jitter, x)
            == GrantFirst(m, Candidates(Swept(d, now)), n, now, SUBMISSION_SPACING_MS + jitter, x)
  {
    hide PauseAll, ClaimFrom, GrantFirst, Grantable;
    var e := Swept(d, now);
    SweptSweeps(d, now);
    CandidatesDistinct(e);
    n, m := ClaimFromStops(e, Candidates(e), now, SUBMISSION_SPACING_MS + jitter, x);
    SweepTrans(d, e, m);
  }
}
