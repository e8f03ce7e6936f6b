/** When work may start and what a claim leaves alone, written over the rows themselves. */
module Conditions {
  import opened Tables
  import opened Scheduler
  import opened Runs
  import opened Invariant

  // ---------- Tasks ----------

  function CompletedCandidates(tasks: seq<Task>): set<nat> {
    set i: nat | i < |tasks| && tasks[i].stage.Explore? && tasks[i].status.Done?
  }

  lemma {:induction false} CompletedExploresCounts(tasks: seq<Task>)
    ensures CompletedExplores(tasks) == |CompletedCandidates(tasks)|
  {
    if tasks == [] {
      assert CompletedCandidates(tasks) == {};
    } else {
      var n := |tasks| - 1;
      var last := tasks[n].stage.Explore? && tasks[n].status.Done?;
      CompletedExploresCounts(tasks[..n]);
      assert CompletedCandidates(tasks) == CompletedCandidates(tasks[..n]) + if last then {n} else {};
    }
  }

  /** Every candidate is completed, or excluded where that is allowed, and at least three are completed. */
  predicate CandidatesSettled(run: Run) {
    && (forall i | 0 <= i < |run.tasks| && i < run.request.candidates ::
          run.tasks[i].status.Done? || (run.allowIncomplete && run.tasks[i].status.Excluded?))
    && |CompletedCandidates(run.tasks)| >= 3
  }

  /** The task is queued, and all it builds on is there: a reduction needs the candidates and the reduction before it. */
  predicate CanStart(run: Run, i: nat) {
    && i < |run.tasks| && run.tasks[i].status.Todo? && run.tasks[i].attempts < 28
    && (i >= run.request.candidates ==> CandidatesSettled(run) && (i > run.request.candidates ==> run.tasks[i - 1].status.Done?))
  }

  lemma SettledIff(run: Run)
    requires RunOk(run)
    ensures ExplorationDone(run) <==> CandidatesSettled(run)
  {
    hide TaskOk;
    CompletedExploresCounts(run.tasks);
    hide CompletedCandidates, CompletedExplores;
    assert forall i | 0 <= i < |run.tasks| :: run.tasks[i].stage == StageAt(run.request.candidates, i);
  }

  lemma StartableIff(run: Run, i: nat)
    requires RunOk(run) && i < |run.tasks|
    ensures Startable(run, run.tasks[i]) <==> CanStart(run, i)
  {
    SettledIff(run);
    hide TaskOk, ExplorationDone, CandidatesSettled;
    var n := run.request.candidates;
    assert run.tasks[i].stage == StageAt(n, i);
    if i > n {
      assert run.tasks[i - 1].stage == StageAt(n, i - 1);
      assert forall j | 0 <= j < |run.tasks| && run.tasks[j].stage == StageAt(n, i - 1) :: j == i - 1;
    }
  }

  /** The first task that can start is the next one. */
  lemma NextIsFirst(run: Run)
    requires RunOk(run)
    ensures NextTask(run).None? <==> forall i: nat :: !CanStart(run, i)
    ensures NextTask(run).Some? ==> CanStart(run, NextTask(run).value) && forall i: nat | i < NextTask(run).value :: !CanStart(run, i)
  {
    hide RunOk, Startable, CanStart, NextTask;
    forall i: nat | i < |run.tasks| ensures Startable(run, run.tasks[i]) <==> CanStart(run, i) { StartableIff(run, i); }
    assert forall i: nat | i >= |run.tasks| :: !CanStart(run, i) by { NoTaskBeyond(run); }
  }

  lemma NoTaskBeyond(run: Run)
    ensures forall i: nat | i >= |run.tasks| :: !CanStart(run, i)
  {
  }

  /** Nothing runs, nothing can start, and something has failed or is only partial. */
  ghost predicate CannotGoOn(run: Run) {
    && (forall i: nat :: !CanStart(run, i))
    && (forall i | 0 <= i < |run.tasks| :: !run.tasks[i].status.Active?)
    && exists i :: 0 <= i < |run.tasks| && (run.tasks[i].status.Broken? || run.tasks[i].status.Partial?)
  }

  // ---------- Accounts ----------

  /** The account is ready, its last claim is long enough ago, no cooldown is on, and a slot is free. */
  predicate AccountFree(d: Db, a: Id, now: Millis) {
    && a in d.accounts && d.accounts[a].readiness.Ready? && d.accounts[a].nextSubmit <= now && d.accounts[a].cooldownUntil <= now
    && var held := |set x | x in d.reservations && d.reservations[x].account == a|;
       held < d.accounts[a].capacity && held < 10
  }

  lemma FreeIff(d: Db, a: Id, now: Millis)
    ensures AccountOpen(d, a, now) <==> AccountFree(d, a, now)
  {
    assert Scheduler.Held(d.reservations, a) == set x | x in d.reservations && d.reservations[x].account == a;
  }
}
