/** A second rate limit holds an account until an operator acts: when that is so, and when it is not. */
module OperatorHold {
  import opened Text
  import opened Tables
  import opened Accounts
  import opened Invariant
  import opened Histories
  import opened StepRules
  import opened Cooldowns

  predicate IsHeld(d: Db, a: Id) { a in d.accounts && d.accounts[a].readiness.OnHold? }

  predicate IsReady(d: Db, a: Id) { a in d.accounts && d.accounts[a].readiness.Ready? }

  /** Not ready, and rate limited since it last was: one more rate limit holds the account. */
  predicate Limited(d: Db, a: Id) { a in d.accounts && !d.accounts[a].readiness.Ready? && d.accounts[a].rateLimits >= 1 }

  /** The operator's way out: an operator's verification, or a confirmation, that succeeds. */
  ghost predicate OperatorReopens(d: Db, s: Step, a: Id) {
    Reopens(d, s, a) && (s.command.DoVerify? ==> s.command.operator)
  }

  /** The other ways out: the login expires, or an operator's verification is refused for another identity. */
  ghost predicate Loosens(d: Db, s: Step, a: Id) {
    || (s.command.DoExpire? && s.command.a == a)
    || (s.command.DoVerify? && s.command.a == a && s.command.operator && Apply(d, s).reply == Refused(IdentityMismatch))
  }

  predicate Limits(s: Step, a: Id) { s.command.DoRateLimit? && s.command.a == a }

  // ---------- One transaction ----------

  lemma HeldIsLimited(d: Db, a: Id)
    requires Valid(d) && IsHeld(d, a)
    ensures Limited(d, a)
  {
    assert AccountOk(d.accounts[a]);
  }

  /** What a transaction concerning a limited account makes of it. */
  lemma ConcernedRow(d: Db, s: Step, a: Id)
    requires Limited(d, a) && Concerns(s.command, a)
    ensures var e := Apply(d, s).db;
            && (IsReady(e, a) || Limited(e, a)) && (Limits(s, a) ==> IsHeld(e, a))
            && (!Limits(s, a) && IsHeld(e, a) ==> IsHeld(d, a)) && (Loosens(d, s, a) ==> !IsHeld(e, a) && !IsReady(e, a))
            && (IsHeld(d, a) ==> IsHeld(e, a) || Loosens(d, s, a) || OperatorReopens(d, s, a))
            && (IsReady(e, a) ==> Reopens(d, s, a))
  {
    hide VerifyAccount, ConfirmAccount, AccountLoginExpired, RateLimited, RetryAt;
    if s.command.DoVerify? {
      VerifiedAccounts(d, a, s.command.identity, s.now, s.command.operator);
    } else if s.command.DoConfirm? {
      ConfirmedAccounts(d, a, s.command.identity, s.command.choice, s.now);
    } else if s.command.DoExpire? {
      ExpiredAccounts(d, a, s.now);
    } else {
      LimitedAccounts(d, a, s.command.retry, s.now);
    }
  }

  /** A limited account under any transaction: a rate limit holds it, nothing else does, and it is freed from a hold only
      by the operator or by one of the other ways out. */
  lemma StepOfLimited(d: Db, s: Step, a: Id)
    requires Valid(d) && Limited(d, a)
    ensures var e := Apply(d, s).db;
            && (IsReady(e, a) || Limited(e, a)) && (Limits(s, a) ==> IsHeld(e, a))
            && (!Limits(s, a) && IsHeld(e, a) ==> IsHeld(d, a)) && (Loosens(d, s, a) ==> !IsHeld(e, a) && !IsReady(e, a))
            && (IsHeld(d, a) ==> IsHeld(e, a) || Loosens(d, s, a) || OperatorReopens(d, s, a))
            && (IsReady(e, a) ==> Reopens(d, s, a))
  {
    if Concerns(s.command, a) {
      ConcernedRow(d, s, a);
    } else {
      hide Valid, Apply;
      UnconcernedKeepReadiness(d, s, a);
    }
  }

  lemma HeldIsShut(d: Db, s: Step, a: Id)
    requires IsHeld(d, a)
    ensures !Uses(d, s, a)
  {
    hide Uses;
    ShutIsUnused(d, s, a, d.accounts[a].cooldownUntil);
  }

  // ---------- Histories ----------

  /** An account on hold is used again only after an operator has reopened it, or after one of the other ways out. */
  lemma {:induction false} HeldIsFreedFirst(states: seq<Db>, steps: seq<Step>, i: nat, j: nat, a: Id) returns (m: nat)
    requires History(states, steps) && i <= j < |steps| && IsHeld(states[i], a) && Uses(states[j], steps[j], a)
    ensures i <= m < j && IsHeld(states[m], a)
    ensures OperatorReopens(states[m], steps[m], a) || Loosens(states[m], steps[m], a)
    decreases j - i
  {
    hide Valid, Apply, Uses, OperatorReopens, Loosens, IsHeld, Limited;
    HistoryIsValid(states, steps, i);
    HeldIsLimited(states[i], a);
    HeldIsShut(states[i], steps[i], a);
    StepOfLimited(states[i], steps[i], a);
    assert i < j;
    if OperatorReopens(states[i], steps[i], a) || Loosens(states[i], steps[i], a) {
      m := i;
    } else {
      m := HeldIsFreedFirst(states, steps, i + 1, j, a);
    }
  }

  /** One of the other ways out was taken, and no rate limit has come since. */
  ghost predicate LoosenedSince(states: seq<Db>, steps: seq<Step>, i: nat, j: nat, a: Id)
    requires j <= |steps| && j <= |states|
  {
    exists m | i <= m < j :: Loosens(states[m], steps[m], a) && forall n | m < n < j :: !Limits(steps[n], a)
  }

  ghost predicate NotReadyFrom(states: seq<Db>, i: nat, j: nat, a: Id) {
    forall k | i <= k <= j && k < |states| :: !IsReady(states[k], a)
  }

  lemma LoosenedNext(states: seq<Db>, steps: seq<Step>, i: nat, j: nat, a: Id)
    requires i < j <= |steps| && j <= |states|
    ensures LoosenedSince(states, steps, i, j, a)
            <==> Loosens(states[j - 1], steps[j - 1], a) || (LoosenedSince(states, steps, i, j - 1, a) && !Limits(steps[j - 1], a))
  {
    hide Loosens, Limits;
    if LoosenedSince(states, steps, i, j - 1, a) && !Limits(steps[j - 1], a) {
      var m :| i <= m < j - 1 && Loosens(states[m], steps[m], a) && forall n | m < n < j - 1 :: !Limits(steps[n], a);
      assert forall n | m < n < j :: !Limits(steps[n], a);
    }
    if LoosenedSince(states, steps, i, j, a) {
      var m :| i <= m < j && Loosens(states[m], steps[m], a) && forall n | m < n < j :: !Limits(steps[n], a);
      if m < j - 1 { assert !Limits(steps[j - 1], a); }
    }
  }

  lemma LoosensIsNoLimit(d: Db, s: Step, a: Id)
    ensures Loosens(d, s, a) ==> !Limits(s, a)
  {
  }

  /** While the account has not been ready again, the hold lasts exactly as long as no other way out has been taken since
      the last rate limit. */
  lemma {:induction false} HoldLastsIff(states: seq<Db>, steps: seq<Step>, i: nat, j: nat, a: Id)
    requires History(states, steps) && i <= j <= |steps| && IsHeld(states[i], a) && NotReadyFrom(states, i, j, a)
    ensures Limited(states[j], a)
    ensures IsHeld(states[j], a) <==> !LoosenedSince(states, steps, i, j, a)
    decreases j
  {
    hide Valid, Apply, OperatorReopens, Loosens, Limits, IsHeld, Limited, LoosenedSince;
    if i == j {
      HistoryIsValid(states, steps, i);
      HeldIsLimited(states[i], a);
      NothingYet(states, steps, i, a);
    } else {
      var d, s := states[j - 1], steps[j - 1];
      HoldLastsIff(states, steps, i, j - 1, a);
      HistoryIsValid(states, steps, j - 1);
      StepOfLimited(d, s, a);
      LoosenedNext(states, steps, i, j, a);
      LoosensIsNoLimit(d, s, a);
      assert states[j] == Apply(d, s).db && !IsReady(states[j], a);
      if OperatorReopens(d, s, a) { ReopenedIsReady(d, s, a); }
    }
  }

  lemma NothingYet(states: seq<Db>, steps: seq<Step>, i: nat, a: Id)
    requires i <= |steps| && i <= |states|
    ensures !LoosenedSince(states, steps, i, i, a)
  {
  }

  lemma ReopenedIsReady(d: Db, s: Step, a: Id)
    requires OperatorReopens(d, s, a)
    ensures IsReady(Apply(d, s).db, a)
  {
    hide VerifyAccount, ConfirmAccount;
    if s.command.DoVerify? {
      VerifiedAccounts(d, a, s.command.identity, s.now, s.command.operator);
    } else {
      ConfirmedAccounts(d, a, s.command.identity, s.command.choice, s.now);
    }
  }

  /** Whoever makes the account ready after the hold is the operator, unless one of the other ways out came first. */
  lemma ReopenedByTheOperator(states: seq<Db>, steps: seq<Step>, i: nat, j: nat, a: Id)
    requires History(states, steps) && i <= j < |steps| && IsHeld(states[i], a) && NotReadyFrom(states, i, j, a)
    requires IsReady(states[j + 1], a) && !LoosenedSince(states, steps, i, j, a)
    ensures OperatorReopens(states[j], steps[j], a)
  {
    hide Valid, Apply, OperatorReopens, Limited, LoosenedSince;
    HoldLastsIff(states, steps, i, j, a);
    HistoryIsValid(states, steps, j);
    StepOfLimited(states[j], steps[j], a);
    hide Loosens;
  }

  /** A verification without an operator that has nothing else against it. */
  predicate InOrder(d: Db, a: Id, identity: Identity, now: Millis) {
    && a in d.accounts && a in d.sessions && !d.sessions[a].lifecycle.SessionCancelled?
    && now >= d.accounts[a].cooldownUntil && Confirms(d.accounts[a], identity) && !ProviderTaken(d, a, identity.id)
  }

  lemma InOrderUnlessHeld(d: Db, a: Id, identity: Identity, now: Millis)
    requires InOrder(d, a, identity, now)
    ensures VerifyAccount(d, a, identity, now, false).reply.Ok? <==> !IsHeld(d, a)
  {
    hide Confirms, ProviderTaken, RequeueAll, AwaitLoginAll, RunIds, ActiveRunIds;
  }

  /** Where the code falls short, and exactly where: an account put on hold until an operator acts is made ready by an
      ordinary verification if and only if, since its last rate limit, its login has expired or an operator's
      verification has been refused for another identity. */
  lemma OperatorIsNeededIff(states: seq<Db>, steps: seq<Step>, i: nat, j: nat, a: Id, identity: Identity, now: Millis)
    requires History(states, steps) && i <= j <= |steps| && IsHeld(states[i], a) && NotReadyFrom(states, i, j, a)
    requires InOrder(states[j], a, identity, now)
    ensures VerifyAccount(states[j], a, identity, now, false).reply.Ok? <==> LoosenedSince(states, steps, i, j, a)
  {
    hide Valid, Apply, IsHeld, Limited, LoosenedSince, InOrder, VerifyAccount;
    HoldLastsIff(states, steps, i, j, a);
    InOrderUnlessHeld(states[j], a, identity, now);
  }

  // ---------- The hold lifted, from the empty store ----------

  const REGISTERED := Account("a@b", Some("p"), 10, Ready, 0, 0, 0, 0)
  const SIGNED_IN := Identity("p", "a@b")

  lemma Plain()
    ensures !Blank("a@b") && Trim("a@b") == "a@b" && EqIgnoreCase("a@b", "a@b") && !Blank("p")
  {
    assert "a@b"[0] == 'a' && "a@b"[2] == 'b' && "p"[0] == 'p';
  }

  /** Only account 0 exists, it is not cancelled, and this is its row. */
  predicate OnlyAccount(d: Db, account: Account) {
    d.accounts == map[0 := account] && 0 in d.sessions && !d.sessions[0].lifecycle.SessionCancelled?
  }

  lemma RegisteredExample(s: Step)
    requires s == Step(DoRegister(0, "a@b", Some("p"), true, 10, true), 0)
    ensures OnlyAccount(Apply(EMPTY, s).db, REGISTERED)
  {
    Plain();
    hide Blank, Trim, EqIgnoreCase;
  }

  lemma LimitedExample(d: Db, s: Step, account: Account)
    requires OnlyAccount(d, account) && s.command == DoRateLimit(0, None)
    ensures OnlyAccount(Apply(d, s).db,
                        account.(rateLimits := account.rateLimits + 1,
                                 cooldownUntil := Max(account.cooldownUntil, RetryAt(None, s.now)),
                                 readiness := if account.rateLimits >= 1 then OnHold else Cooldown))
  {
    hide NoteRateLimit, ActiveRunIds, RetryAt;
  }

  /** Two rate limits hold the only account. */
  lemma HeldExample() returns (states: seq<Db>, steps: seq<Step>)
    ensures |steps| == 3 && |states| == 4 && History(states, steps)
    ensures steps[0].command.DoRegister? && steps[1].command.DoRateLimit? && steps[2].command.DoRateLimit?
    ensures OnlyAccount(states[3], REGISTERED.(readiness := OnHold, rateLimits := 2, cooldownUntil := 300_001))
  {
    hide Apply, OnlyAccount;
    var s0 := Step(DoRegister(0, "a@b", Some("p"), true, 10, true), 0);
    var s1, s2 := Step(DoRateLimit(0, None), 0), Step(DoRateLimit(0, None), 1);
    steps := [s0, s1, s2];
    var d1 := Apply(EMPTY, s0).db;
    RegisteredExample(s0);
    var d2 := Apply(d1, s1).db;
    LimitedExample(d1, s1, REGISTERED);
    var d3 := Apply(d2, s2).db;
    LimitedExample(d2, s2, REGISTERED.(readiness := Cooldown, rateLimits := 1, cooldownUntil := 300_000));
    states := [EMPTY, d1, d2, d3];
  }

  lemma ExpiredExample(d: Db, s: Step, account: Account)
    requires OnlyAccount(d, account) && s.command == DoExpire(0)
    ensures OnlyAccount(Apply(d, s).db, account.(readiness := Expired))
  {
    hide AwaitLoginAll, ActiveRunIds;
    SessionsOfExpiry(d, ActiveRunIds(d, 0), s.now);
    SessionsOfExpiry(SetAccount(d, 0, account.(readiness := Expired)), ActiveRunIds(d, 0), s.now);
  }

  lemma {:induction false} SessionsOfExpiry(d: Db, ids: seq<Id>, now: Millis)
    requires forall i | 0 <= i < |ids| :: ids[i] in d.runs
    ensures var e := AwaitLoginAll(d, ids, AuthenticationExpired, now); e.accounts == d.accounts && e.sessions == d.sessions
  {
    if ids != [] { SessionsOfExpiry(d, ids[..|ids| - 1], now); }
  }

  lemma VerifiedExample(d: Db, s: Step, account: Account)
    requires OnlyAccount(d, account) && account.email == "a@b" && account.provider == Some("p") && !account.readiness.OnHold?
    requires s.command == DoVerify(0, SIGNED_IN, false) && s.now >= account.cooldownUntil
    ensures Apply(d, s).reply.Ok? && IsReady(Apply(d, s).db, 0)
  {
    Plain();
    hide VerifyAccount, Blank, Trim, EqIgnoreCase;
    assert !ProviderTaken(d, 0, "p");
    InOrderUnlessHeld(d, 0, SIGNED_IN, s.now);
    VerifiedAccounts(d, 0, SIGNED_IN, s.now, false);
  }

  /** A reachable state in which no operator has acted since the hold and an ordinary verification succeeds: register,
      two rate limits, an expired login, and a verification without an operator. */
  lemma HoldLiftedExample() returns (states: seq<Db>, steps: seq<Step>)
    ensures |steps| == 5 && History(states, steps) && IsHeld(states[3], 0)
    ensures steps[0].command.DoRegister? && steps[1].command.DoRateLimit? && steps[2].command.DoRateLimit?
    ensures steps[3].command == DoExpire(0) && steps[4].command == DoVerify(0, SIGNED_IN, false)
    ensures Apply(states[4], steps[4]).reply.Ok? && IsReady(states[5], 0)
  {
    hide Apply, History;
    var before, done := HeldExample();
    var held := REGISTERED.(readiness := OnHold, rateLimits := 2, cooldownUntil := 300_001);
    var s3, s4 := Step(DoExpire(0), 2), Step(DoVerify(0, SIGNED_IN, false), 300_001);
    Extends(before, done, s3);
    ExpiredExample(before[3], s3, held);
    var middle, steps4 := before + [Apply(before[3], s3).db], done + [s3];
    Extends(middle, steps4, s4);
    VerifiedExample(middle[4], s4, held.(readiness := Expired));
    states, steps := middle + [Apply(middle[4], s4).db], steps4 + [s4];
  }
}
