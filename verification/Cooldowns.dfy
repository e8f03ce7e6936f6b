/** A rate limit keeps an account shut until somebody verifies it after the cooldown. */
module Cooldowns {
  import opened Text
  import opened Tables
  import opened Scheduler
  import opened Accounts
  import opened Recovery
  import opened Invariant
  import opened Histories
  import opened Transitions
  import opened StepRules

  /** The account is not ready and will not be before `until`. */
  predicate Shut(d: Db, a: Id, until: Millis) {
    a in d.accounts && !d.accounts[a].readiness.Ready? && d.accounts[a].cooldownUntil >= until
  }

  /** A verification or confirmation of the account that succeeds. */
  ghost predicate Reopens(d: Db, s: Step, a: Id)
  {
    Apply(d, s).reply.Ok? && ((s.command.DoVerify? && s.command.a == a) || (s.command.DoConfirm? && s.command.a == a))
  }

  /** A claim that reserves on the account, or a submission charged to it. */
  ghost predicate Uses(d: Db, s: Step, a: Id)
  {
    var reply := Apply(d, s).reply;
    || (s.command.DoClaim? && reply.Claimed? && reply.lease.Some? && reply.lease.value.account == a)
    || (s.command.DoBegin? && reply.Ok? && s.command.lease.account == a)
  }

  lemma ReadinessKeepsShut(d: Db, e: Db, a: Id, until: Millis)
    requires Shut(d, a, until) && SameReadiness(d, e, a)
    ensures Shut(e, a, until)
  {
  }

  /** The account itself is verified, confirmed, expired or limited. */
  lemma ConcernedKeepsShut(d: Db, s: Step, a: Id, until: Millis)
    requires Shut(d, a, until) && Concerns(s.command, a)
    ensures if Reopens(d, s, a) then s.now >= until else Shut(Apply(d, s).db, a, until)
  {
    hide VerifyAccount, ConfirmAccount, AccountLoginExpired, RateLimited, RetryAt;
    if s.command.DoVerify? {
      VerifiedAccounts(d, a, s.command.identity, s.now, s.command.operator);
    } else if s.command.DoConfirm? {
      ConfirmedAccounts(d, a, s.command.identity, s.command.choice, s.now);
    } else if s.command.DoExpire? {
      ExpiredAccounts(d, a, s.now);
    } else {
      LimitedAccounts(d, a, s.command.retry, s.now);
    }
  }

  lemma ShutIsUnclaimed(d: Db, now: Millis, jitter: int, x: Id, a: Id, until: Millis)
    requires Shut(d, a, until)
    ensures var reply := Claim(d, now, jitter, x).reply; !(reply.Claimed? && reply.lease.Some? && reply.lease.value.account == a)
  {
    hide PauseAll, ClaimFrom, NextTask, ExpiredRuns, Candidates, Sweep, Exhausted;
    if 0 <= jitter <= MAX_JITTER_MS && x !in d.reservations {
      var n, m := ClaimShape(d, now, jitter, x);
      SweepKeepsAccounts(d, m);
    }
  }

  lemma ShutIsUnused(d: Db, s: Step, a: Id, until: Millis)
    requires Shut(d, a, until)
    ensures !Uses(d, s, a)
  {
    hide Claim, Owns, Exhausted;
    if s.command.DoClaim? { ShutIsUnclaimed(d, s.now, s.command.jitter, s.command.x, a, until); }
  }

  /** A shut account stays shut and unused under every transaction but a verification at or after the cooldown. */
  lemma StepKeepsShut(d: Db, s: Step, a: Id, until: Millis)
    requires Valid(d) && Shut(d, a, until)
    ensures !Uses(d, s, a)
    ensures if Reopens(d, s, a) then s.now >= until else Shut(Apply(d, s).db, a, until)
  {
    ShutIsUnused(d, s, a, until);
    assert a in d.accounts;
    hide Valid, Shut, Uses, Apply, SameReadiness;
    if Concerns(s.command, a) {
      ConcernedKeepsShut(d, s, a, until);
    } else {
      UnconcernedKeepReadiness(d, s, a);
      ReadinessKeepsShut(d, Apply(d, s).db, a, until);
    }
  }

  lemma RateLimitShuts(d: Db, a: Id, retry: Option<Millis>, now: Millis)
    requires a in d.accounts
    ensures var e := RateLimited(d, a, retry, now).db;
            a in e.accounts && Shut(e, a, e.accounts[a].cooldownUntil) && e.accounts[a].cooldownUntil >= d.accounts[a].cooldownUntil
            && e.accounts[a].cooldownUntil >= RetryAt(retry, now)
  {
    hide NoteRateLimit, ActiveRunIds, RetryAt;
  }

  lemma LimitStep(d: Db, s: Step, a: Id)
    requires s.command.DoRateLimit? && s.command.a == a && a in d.accounts
    ensures var e := Apply(d, s).db; a in e.accounts && Shut(e, a, e.accounts[a].cooldownUntil)
  {
    hide ForeignKeys, RateLimited;
    RateLimitShuts(d, a, s.command.retry, s.now);
  }

  /** The first verification after the limit. */
  lemma {:induction false} FirstReopening(states: seq<Db>, steps: seq<Step>, i: nat, j: nat, a: Id,
      until: Millis) returns (m: nat)
    requires History(states, steps) && i <= j < |steps| && Shut(states[i], a, until) && Uses(states[j], steps[j], a)
    ensures i <= m < j && Reopens(states[m], steps[m], a) && steps[m].now >= until
    decreases j - i
  {
    hide Valid, ForeignKeys, Apply, Shut, Reopens, Uses;
    HistoryIsValid(states, steps, i);
    StepKeepsShut(states[i], steps[i], a, until);
    assert i < j;
    if Reopens(states[i], steps[i], a) {
      m := i;
    } else {
      m := FirstReopening(states, steps, i + 1, j, a, until);
    }
  }

  /** After a rate limit that leaves the account shut until U, it is not used again before a verification or a
      confirmation that succeeds at a time of at least U. */
  lemma CooldownIsAGate(states: seq<Db>, steps: seq<Step>, i: nat, j: nat, a: Id) returns (m: nat)
    requires History(states, steps) && i < j < |steps|
    requires a in states[i].accounts && steps[i].command.DoRateLimit? && steps[i].command.a == a && a in states[i + 1].accounts
    requires Uses(states[j], steps[j], a)
    ensures i < m < j && Reopens(states[m], steps[m], a) && steps[m].now >= states[i + 1].accounts[a].cooldownUntil
  {
    hide Apply, Shut, Uses, Reopens, ForeignKeys;
    LimitStep(states[i], steps[i], a);
    m := FirstReopening(states, steps, i + 1, j, a, states[i + 1].accounts[a].cooldownUntil);
  }

  /** With a clock that never runs backwards, the account is not used before its cooldown is over. */
  lemma NoUseBeforeCooldown(states: seq<Db>, steps: seq<Step>, i: nat, j: nat, a: Id)
    requires History(states, steps) && i < j < |steps|
    requires a in states[i].accounts && steps[i].command.DoRateLimit? && steps[i].command.a == a && a in states[i + 1].accounts
    requires Uses(states[j], steps[j], a)
    requires forall p, q | 0 <= p <= q < |steps| :: steps[p].now <= steps[q].now
    ensures steps[j].now >= states[i + 1].accounts[a].cooldownUntil
  {
    hide Apply, Uses, Reopens, ForeignKeys;
    var m := CooldownIsAGate(states, steps, i, j, a);
  }
}
