/** Runs are served in turn: nobody is granted twice while another eligible run waits. */
module Fairness {
  import opened Text
  import opened Tables
  import opened Ordering
  import opened Scheduler
  import opened Runs
  import opened Recovery
  import opened Invariant
  import opened Histories
  import opened Transitions
  import opened StepRules

  /** Queued or running, within deadline and budget, its account ready, paced and below capacity, and a task to start. */
  predicate Eligible(d: Db, r: Id, now: Millis) {
    r in d.runs && Waiting(d.runs[r].status) && Grantable(d, r, now)
  }

  /** The step is a claim that starts a task of run `r`. */
  ghost predicate Grants(d: Db, s: Step, r: Id)
  {
    var reply := Apply(d, s).reply;
    s.command.DoClaim? && reply.Claimed? && reply.lease.Some? && reply.lease.value.run == r
  }

  // ---------- The deadline sweep does not reach eligible runs ----------

  lemma {:induction false} PauseAllOthers(d: Db, ids: seq<Id>, now: Millis, r: Id)
    requires r in d.runs && r !in ids && forall i | 0 <= i < |ids| :: ids[i] in d.runs
    ensures PauseAll(d, ids, now).runs[r] == d.runs[r]
  {
    if ids != [] {
      PauseAllOthers(d, ids[..|ids| - 1], now, r);
    }
  }

  lemma SweptKeepsEligible(d: Db, r: Id, now: Millis)
    requires Eligible(d, r, now)
    ensures Eligible(Swept(d, now), r, now)
  {
    hide PauseAll, AccountOpen, NextTask;
    SweptSweeps(d, now);
    assert r !in ExpiredRuns(d, now);
    PauseAllOthers(d, ExpiredRuns(d, now), now, r);
    hide Exhausted, ExpiredRuns, Relabelled;
    GrantableFrame(d, Swept(d, now), r, now);
  }

  lemma {:induction false} LastGrantCalm(d: seq<Event>, e: seq<Event>, r: Id)
    requires CalmLog(d, e)
    ensures LastGrant(e, r) == LastGrant(d, r)
    decreases |e|
  {
    if |e| == |d| {
      assert e == d;
    } else {
      assert d <= e[..|e| - 1];
      LastGrantCalm(d, e[..|e| - 1], r);
    }
  }

  lemma {:induction false} LastGrantCovers(e: seq<Event>, r: Id, i: nat)
    requires i < |e| && e[i].run == r && e[i].kind.AttemptPrepared?
    ensures LastGrant(e, r) >= i + 1
  {
  }

  /** Candidates are listed by their last grant. */
  lemma CandidateOrder(d: Db, n: nat, p: nat)
    requires n < p < |Candidates(d)|
    ensures LastGrant(d.events, Candidates(d)[n]) <= LastGrant(d.events, Candidates(d)[p])
  {
    var keys := Sorted(CandidateKeys(d));
    assert Before(keys[n], keys[p]) && keys[n] in keys && keys[p] in keys;
  }

  lemma EligibleIsCandidate(d: Db, r: Id, now: Millis) returns (p: nat)
    requires Eligible(d, r, now)
    ensures p < |Candidates(d)| && Candidates(d)[p] == r
  {
    var keys := Sorted(CandidateKeys(d));
    assert Key(LastGrant(d.events, r), d.runs[r].created, r) in CandidateKeys(d);
    p :| 0 <= p < |keys| && keys[p] == Key(LastGrant(d.events, r), d.runs[r].created, r);
  }

  /** The run a claim picks was granted no later than any other eligible run. */
  lemma PicksLeastRecent(d: Db, now: Millis, jitter: int, x: Id, b: Id)
    requires Claim(d, now, jitter, x).reply.Claimed? && Claim(d, now, jitter, x).reply.lease.Some?
    requires Eligible(d, b, now) && b != Claim(d, now, jitter, x).reply.lease.value.run
    ensures LastGrant(d.events, Claim(d, now, jitter, x).reply.lease.value.run) <= LastGrant(d.events, b)
  {
    hide PauseAll, ClaimFrom, Grant, Grantable, NextTask, Candidates, LastGrant, Relabelled;
    var e := Swept(d, now);
    var n, m := ClaimShape(d, now, jitter, x);
    var a := Candidates(e)[n];
    assert a == Claim(d, now, jitter, x).reply.lease.value.run;
    SweptSweeps(d, now);
    SweptKeepsEligible(d, b, now);
    var p := EligibleIsCandidate(e, b, now);
    assert n < p;
    CandidateOrder(e, n, p);
    LastGrantCalm(d.events, e.events, a);
    LastGrantCalm(d.events, e.events, b);
  }

  lemma {:induction false} PauseAllPauses(d: Db, ids: seq<Id>, now: Millis, r: Id)
    requires r in ids && forall i | 0 <= i < |ids| :: ids[i] in d.runs
    ensures PauseAll(d, ids, now).runs[r].status.Paused?
  {
    var n := |ids| - 1;
    if ids[n] != r {
      assert r in ids[..n];
      PauseAllPauses(d, ids[..n], now, r);
    }
  }

  /** A run still waiting after the sweep was not touched by it. */
  lemma EligibleBeforeSweep(d: Db, r: Id, now: Millis)
    requires Eligible(Swept(d, now), r, now)
    ensures Eligible(d, r, now)
  {
    hide PauseAll, AccountOpen, NextTask, Exhausted;
    SweptSweeps(d, now);
    if r in ExpiredRuns(d, now) { PauseAllPauses(d, ExpiredRuns(d, now), now, r); }
    PauseAllOthers(d, ExpiredRuns(d, now), now, r);
    hide ExpiredRuns, Relabelled;
    GrantableFrame(d, Swept(d, now), r, now);
  }

  /** A claim returns nothing only when nobody is eligible, and what it returns is a lease for an eligible run. */
  lemma ClaimServesTheEligible(d: Db, now: Millis, jitter: int, x: Id)
    requires 0 <= jitter <= MAX_JITTER_MS && x !in d.reservations
    ensures var reply := Claim(d, now, jitter, x).reply;
            && reply.Claimed?
            && (reply.lease.Some? ==> Eligible(d, reply.lease.value.run, now))
            && (reply.lease.None? ==> forall r | r in d.runs :: !Eligible(d, r, now))
  {
    hide PauseAll, ClaimFrom, Grant, NextTask, Candidates, AccountOpen, Exhausted, Relabelled, ExpiredRuns;
    var e := Swept(d, now);
    var n, m := ClaimShape(d, now, jitter, x);
    SweptSweeps(d, now);
    if n < |Candidates(e)| {
      var a := Candidates(e)[n];
      StoppedIsEligible(d, e, m, now, n);
      EligibleBeforeSweep(d, a, now);
    } else {
      forall r | r in d.runs ensures !Eligible(d, r, now) {
        if Eligible(d, r, now) {
          SweptKeepsEligible(d, r, now);
          var p := EligibleIsCandidate(e, r, now);
        }
      }
    }
  }

  lemma StoppedIsEligible(d: Db, e: Db, m: Db, now: Millis, n: nat)
    requires n < |Candidates(e)| && StopsAt(e, Candidates(e), now, n, m) && Sweep(e, m)
    ensures Eligible(e, Candidates(e)[n], now)
  {
    hide AccountOpen, NextTask, Exhausted, Relabelled;
    GrantableFrame(e, m, Candidates(e)[n], now);
  }

  /** A newly submitted run, with a model named by the caller or confirmed on the account, is eligible at once, and stays
      a candidate for the next claim until its deadline. */
  lemma NewRunIsEligible(d: Db, q: Request, model: Option<ModelSelection>, now: Millis, r: Id, later: Millis)
    requires RequestOk(q) && !KeyUsed(d, q.key) && r !in d.runs && AccountOpen(d, q.account, later)
    requires ChosenModel(d, q.account, model).0.Some? && ModelOk(ChosenModel(d, q.account, model).0.value)
    requires now <= later < SatAdd(now, RUN_DEADLINE_MS)
    ensures Submit(d, q, model, now, r).reply == Submitted(r)
    ensures Eligible(Submit(d, q, model, now, r).db, r, later)
  {
    hide RequestOk, ModelOk, KeyUsed;
    var run := NewRun(q, ChosenModel(d, q.account, model).0.value, Queued, now);
    assert run.tasks[0] == NewTask(q.candidates, 0);
    CandidateCount(q);
    assert Startable(run, run.tasks[0]);
  }

  lemma CandidateCount(q: Request)
    requires RequestOk(q)
    ensures 5 <= q.candidates <= 10
  {
  }

  // ---------- Histories ----------

  /** The step that appended the event at index `q`. */
  lemma {:induction false} AppendedBy(states: seq<Db>, steps: seq<Step>, i: nat, j: nat, q: nat) returns (m: nat)
    requires History(states, steps) && i <= j <= |steps|
    requires |states[i].events| <= q < |states[j].events|
    ensures i <= m < j && |states[m].events| <= q < |states[m + 1].events|
    ensures states[m + 1].events[q] == states[j].events[q]
    decreases j
  {
    hide Apply, ForeignKeys, Valid;
    HistoryEvolves(states, steps, j - 1, j);
    if |states[j - 1].events| <= q {
      m := j - 1;
    } else {
      m := AppendedBy(states, steps, i, j - 1, q);
    }
  }

  lemma GrantIsLogged(d: Db, s: Step, r: Id)
    requires Valid(d) && Grants(d, s, r)
    ensures var e := Apply(d, s).db.events;
            |d.events| < |e| && e[|e| - 1].run == r && e[|e| - 1].kind.AttemptPrepared?
  {
    hide Valid, ForeignKeys, Apply;
    StepLogs(d, s);
  }

  lemma LoggedIsGrant(d: Db, s: Step, q: nat)
    requires Valid(d) && |d.events| <= q < |Apply(d, s).db.events|
    requires Apply(d, s).db.events[q].kind.AttemptPrepared?
    ensures Grants(d, s, Apply(d, s).db.events[q].run)
  {
    hide Valid, ForeignKeys, Apply;
    StepLogs(d, s);
  }

  lemma GrantOrder(d: Db, s: Step, a: Id, b: Id)
    requires Grants(d, s, a) && Eligible(d, b, s.now) && a != b
    ensures LastGrant(d.events, a) <= LastGrant(d.events, b)
  {
    hide ForeignKeys, Eligible, LastGrant, Claim;
    PicksLeastRecent(d, s.now, s.command.jitter, s.command.x, b);
  }

  /** Least recently served: between two grants to run `a`, every other run eligible at the second was granted itself. */
  lemma GrantsAlternate(states: seq<Db>, steps: seq<Step>, i: nat, j: nat, a: Id, b: Id) returns (m: nat)
    requires History(states, steps) && i < j < |steps| && a != b
    requires Grants(states[i], steps[i], a) && Grants(states[j], steps[j], a)
    requires Eligible(states[j], b, steps[j].now)
    ensures i < m < j && Grants(states[m], steps[m], b)
  {
    hide Apply, ForeignKeys, Valid, Evolves, Grants, Eligible, LastGrant;
    HistoryIsValid(states, steps, i);
    GrantIsLogged(states[i], steps[i], a);
    var p := |states[i + 1].events| - 1;
    HistoryEvolves(states, steps, i + 1, j);
    EvolvesLog(states[i + 1], states[j]);
    LastGrantCovers(states[j].events, a, p);
    GrantOrder(states[j], steps[j], a, b);
    var q := LastGrant(states[j].events, b) - 1;
    assert states[j].events[q].run == b && states[j].events[q].kind.AttemptPrepared?;
    m := AppendedBy(states, steps, i + 1, j, q);
    HistoryIsValid(states, steps, m);
    LoggedIsGrant(states[m], steps[m], q);
  }

  lemma EvolvesLog(d: Db, e: Db)
    requires Evolves(d, e)
    ensures d.events <= e.events
  {
  }
}
