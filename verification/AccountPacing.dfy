/** How closely submissions on one account may follow each other. */
module AccountPacing {
  import opened Tables
  import opened Scheduler
  import opened Invariant
  import opened Transitions
  import opened Histories

  /** Positions in the log of the submissions on account `a`, across all runs. */
  function Starts(db: Db, a: Id, n: nat): (q: seq<nat>)
    requires n <= |db.events|
    ensures forall p | 0 <= p < |q| :: q[p] < n && StartsOn(db, db.events[q[p]], a)
    ensures forall p, s | 0 <= p < s < |q| :: q[p] < q[s]
    ensures forall i | 0 <= i < n && StartsOn(db, db.events[i], a) :: i in q
  {
    if n == 0 then []
    else
      var q := Starts(db, a, n - 1);
      if StartsOn(db, db.events[n - 1], a) then q + [n - 1] else q
  }

  /** The times of the submissions on account `a`, in the order they were made. */
  function SubmissionTimes(db: Db, a: Id): (times: seq<Millis>) {
    var q := Starts(db, a, |db.events|);
    seq(|q|, p requires 0 <= p < |q| => db.events[q[p]].at)
  }

  lemma SatAddTwice(t: Millis, m: nat, n: nat)
    ensures SatAdd(SatAdd(t, m), n) == SatAdd(t, m + n)
  {
  }

  /** Submissions p and q on one account are at least (q - p) spacings apart, up to the end of time. */
  lemma {:induction false} LeastSpacing(db: Db, a: Id, p: nat, q: nat)
    requires Reachable(db) && p <= q < |SubmissionTimes(db, a)|
    ensures SatAdd(SubmissionTimes(db, a)[p], 30_000 * (q - p)) <= SubmissionTimes(db, a)[q]
    decreases q
  {
    hide Reachable, SubmissionTimes;
    var times := SubmissionTimes(db, a);
    if p < q {
      LeastSpacing(db, a, p, q - 1);
      NeighboursAreSpaced(db, a, q);
      SatAddTwice(times[p], 30_000 * (q - 1 - p), 30_000);
    }
  }

  lemma NeighboursAreSpaced(db: Db, a: Id, q: nat)
    requires Reachable(db) && 0 < q < |SubmissionTimes(db, a)|
    ensures SatAdd(SubmissionTimes(db, a)[q - 1], 30_000) <= SubmissionTimes(db, a)[q]
  {
    hide Reachable, RunsOk, AttemptsOk, ReservationsOk, CapacityOk, AccountsOk, LogOk, BudgetOk, ArtifactsOk;
    ReachableIsValid(db);
    var s := Starts(db, a, |db.events|);
    assert s[q - 1] < s[q] && StartsOn(db, db.events[s[q - 1]], a) && StartsOn(db, db.events[s[q]], a);
    assert NextAfter(db.events[s[q - 1]].at) <= db.events[s[q]].at;
  }

  // ---------- The spacings that were drawn ----------

  /** A submission on account `a`. */
  ghost predicate Submits(d: Db, s: Step, a: Id) {
    s.command.DoBegin? && s.command.lease.account == a && BeginSubmission(d, s.command.lease, s.now).reply.Ok?
  }

  /** The spacing drawn for the reservation that is submitted; nothing for any other step. */
  ghost function Spacing(d: Db, s: Step, a: Id): int {
    if Submits(d, s, a) then d.reservations[s.command.lease.reservation].spacing else 0
  }

  /** The spacings of all submissions on the account from step `i` up to step `j`. */
  ghost function Spacings(states: seq<Db>, steps: seq<Step>, i: nat, j: nat, a: Id): int
    requires i <= j <= |steps| && j <= |states|
  {
    if i == j then 0 else Spacings(states, steps, i, j - 1, a) + Spacing(states[j - 1], steps[j - 1], a)
  }

  lemma SubmissionOpensAt(d: Db, s: Step, a: Id)
    requires Valid(d) && Submits(d, s, a)
    ensures a in d.accounts && d.accounts[a].submissionAllowed <= s.now
    ensures a in Apply(d, s).db.accounts && Apply(d, s).db.accounts[a].submissionAllowed == SatAdd(s.now, Spacing(d, s, a))
    ensures SUBMISSION_SPACING_MS <= Spacing(d, s, a) <= SUBMISSION_SPACING_MS + MAX_JITTER_MS
  {
    hide RunsOk, AttemptsOk, CapacityOk, AccountsOk, LogOk, PacingOk, BudgetOk, ArtifactsOk, Exhausted;
    assert ReservationOk(d, d.reservations[s.command.lease.reservation]);
  }

  lemma AllowedGrows(d: Db, e: Db, a: Id)
    requires Evolves(d, e) && a in d.accounts
    ensures a in e.accounts && d.accounts[a].submissionAllowed <= e.accounts[a].submissionAllowed
  {
    assert AccountEvolves(d.accounts[a], e.accounts[a]);
  }

  lemma {:induction false} AllowedAfterSpacings(states: seq<Db>, steps: seq<Step>, i: nat, j: nat, a: Id)
    requires History(states, steps) && i < j <= |steps| && Submits(states[i], steps[i], a)
    ensures Spacings(states, steps, i, j, a) > 0 && a in states[j].accounts
    ensures SatAdd(steps[i].now, Spacings(states, steps, i, j, a)) <= states[j].accounts[a].submissionAllowed
    decreases j
  {
    hide Valid, Apply, Evolves, Submits, SatAdd, Spacing;
    var d, s := states[j - 1], steps[j - 1];
    assert states[j] == Apply(d, s).db;
    HistoryIsValid(states, steps, j - 1);
    if i == j - 1 {
      SubmissionOpensAt(d, s, a);
      assert Spacings(states, steps, i, j - 1, a) == 0;
    } else {
      AllowedAfterSpacings(states, steps, i, j - 1, a);
      var before, more := Spacings(states, steps, i, j - 1, a), Spacing(d, s, a);
      if Submits(d, s, a) {
        SubmissionOpensAt(d, s, a);
        SatAddTwice(steps[i].now, before, more);
        SatAddGrows(SatAdd(steps[i].now, before), s.now, more);
      } else {
        NoSpacing(d, s, a);
        ApplyKeeps(d, s);
        AllowedGrows(d, states[j], a);
      }
    }
  }

  lemma NoSpacing(d: Db, s: Step, a: Id)
    requires !Submits(d, s, a)
    ensures Spacing(d, s, a) == 0
  {
    hide Submits;
  }

  lemma SatAddGrows(t: Millis, u: Millis, n: int)
    requires t <= u
    ensures SatAdd(t, n) <= SatAdd(u, n)
  {
  }

  /** Any two submissions on an account are as far apart as the spacings drawn for the first and for all those between
      them add up to, up to the end of time. */
  lemma SubmissionsAreSpaced(states: seq<Db>, steps: seq<Step>, i: nat, j: nat, a: Id)
    requires History(states, steps) && i < j < |steps| && Submits(states[i], steps[i], a) && Submits(states[j], steps[j], a)
    ensures SatAdd(steps[i].now, Spacings(states, steps, i, j, a)) <= steps[j].now
  {
    hide Valid, Apply, Submits, Spacings, SatAdd;
    AllowedAfterSpacings(states, steps, i, j, a);
    HistoryIsValid(states, steps, j);
    SubmissionOpensAt(states[j], steps[j], a);
  }

  // ---------- Windows ----------

  function InWindow(times: seq<Millis>, lo: int, width: nat): set<nat> {
    set q: nat | q < |times| && lo <= times[q] < lo + width
  }

  lemma {:induction false} Interval(s: set<nat>, lo: nat, n: nat)
    requires forall q | q in s :: lo <= q < lo + n
    ensures |s| <= n
  {
    if n == 0 {
      assert s == {};
    } else {
      var last := lo + n - 1;
      Interval(s - {last}, lo, n - 1);
      assert s <= (s - {last}) + {last};
    }
  }

  lemma {:induction false} LeastOf(s: set<nat>) returns (m: nat)
    requires s != {}
    ensures m in s && forall q | q in s :: m <= q
    decreases |s|
  {
    var x :| x in s;
    if s == {x} {
      m := x;
    } else {
      assert s - {x} != {} by { assert s == (s - {x}) + {x}; }
      var y := LeastOf(s - {x});
      m := if x <= y then x else y;
    }
  }

  /** Any window of `width` milliseconds that ends before the end of time holds at most one submission per spacing. */
  lemma WindowsAreBounded(db: Db, a: Id, lo: int, width: nat)
    requires Reachable(db) && lo + width <= MAX_MS
    ensures |InWindow(SubmissionTimes(db, a), lo, width)| <= (width + 29_999) / 30_000
  {
    var times := SubmissionTimes(db, a);
    var s := InWindow(times, lo, width);
    if s != {} {
      var p := LeastOf(s);
      var n := (width + 29_999) / 30_000;
      forall q | q in s ensures p <= q < p + n {
        LeastSpacing(db, a, p, q);
      }
      Interval(s, p, n);
    }
  }

  // ---------- A claim may be submitted at once ----------

  lemma AccountIsPaced(d: Db, a: Id)
    requires Valid(d) && a in d.accounts
    ensures d.accounts[a].submissionAllowed <= d.accounts[a].nextSubmit
  {
    assert AccountOk(d.accounts[a]);
  }

  lemma GrantedMayBegin(m: Db, r: Id, now: Millis, spacing: int, x: Id)
    requires r in m.runs && Waiting(m.runs[r].status) && Grantable(m, r, now)
    requires m.accounts[m.runs[r].request.account].submissionAllowed <= m.accounts[m.runs[r].request.account].nextSubmit
    ensures var i := NextTask(m.runs[r]).value;
            BeginSubmission(Grant(m, r, i, now, spacing, x), LeaseFor(m.runs[r], r, i, x), now).reply.Ok?
  {
    hide Startable;
  }

  lemma SameAccounts(d: Db, m: Db)
    requires Sweep(d, m)
    ensures m.accounts == d.accounts
  {
  }

  /** The lease a claim returns can be submitted at the time of the claim. */
  lemma ClaimThenBegin(d: Db, now: Millis, jitter: int, x: Id)
    requires Valid(d) && Claim(d, now, jitter, x).reply.Claimed? && Claim(d, now, jitter, x).reply.lease.Some?
    ensures BeginSubmission(Claim(d, now, jitter, x).db, Claim(d, now, jitter, x).reply.lease.value, now).reply.Ok?
  {
    hide Valid, Sweep, PauseAll, ClaimFrom, Grant, BeginSubmission, NextTask, Exhausted;
    var n, m := ClaimShape(d, now, jitter, x);
    var ids := Candidates(Swept(d, now));
    assert m.runs[ids[n]] == Swept(d, now).runs[ids[n]];
    SameAccounts(d, m);
    AccountIsPaced(d, m.runs[ids[n]].request.account);
    GrantedMayBegin(m, ids[n], now, SUBMISSION_SPACING_MS + jitter, x);
  }
}
