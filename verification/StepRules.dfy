/** Rules that every single transaction obeys, whatever its arguments. */
module StepRules {
  import opened Text
  import opened Tables
  import opened Scheduler
  import opened Runs
  import opened Accounts
  import opened Recovery
  import opened Artifacts
  import opened Invariant
  import opened CaptureOperations
  import opened RecoveryOperations
  import opened Histories
  import opened Transitions
  import opened RecoveryTheorems
  import opened LeaseTheorems

  // ---------- Account commands ----------

  predicate OnAccounts(c: Command) {
    c.DoRegister? || c.DoVerify? || c.DoConfirm? || c.DoExpire? || c.DoRateLimit? || c.DoLoginState? || c.DoObserve?
  }

  lemma RunIdsRelabellable(d: Db, a: Id)
    ensures AllRelabellable(d, ActiveRunIds(d, a)) && AllRelabellable(d, RunIds(d, a, WaitingForAuth))
  {
  }

  lemma VerifySweeps(d: Db, a: Id, identity: Identity, now: Millis, operator: bool)
    ensures var e := VerifyAccount(d, a, identity, now, operator).db; Sweep(d.(accounts := e.accounts, sessions := e.sessions), e)
  {
    hide Sweep, RunIds, ActiveRunIds, AwaitLoginAll, RequeueAll, Confirms, ProviderTaken;
    NoSweep(d);
    RunIdsRelabellable(d, a);
    if a in d.accounts {
      var mismatched := SetAccount(d, a, d.accounts[a].(readiness := Mismatch));
      AwaitLoginAllSweeps(mismatched, ActiveRunIds(d, a), IdentityMismatch, now);
      SweepKeepsAccounts(mismatched, AwaitLoginAll(mismatched, ActiveRunIds(d, a), IdentityMismatch, now));
      var ready := SetAccount(d, a, d.accounts[a].(provider := Some(identity.id), readiness := Ready, cooldownUntil := 0,
                                                   rateLimits := if operator then 0 else d.accounts[a].rateLimits));
      RequeueAllSweeps(ready, RunIds(d, a, WaitingForAuth), now);
      SweepKeepsAccounts(ready, RequeueAll(ready, RunIds(d, a, WaitingForAuth), now));
    }
  }

  lemma ExpireSweeps(d: Db, a: Id, now: Millis)
    ensures var e := AccountLoginExpired(d, a, now).db; Sweep(d.(accounts := e.accounts, sessions := e.sessions), e)
  {
    hide Sweep, ActiveRunIds, AwaitLoginAll;
    NoSweep(d);
    RunIdsRelabellable(d, a);
    if a in d.accounts {
      var expired := SetAccount(d, a, d.accounts[a].(readiness := Expired));
      AwaitLoginAllSweeps(expired, ActiveRunIds(d, a), AuthenticationExpired, now);
      SweepKeepsAccounts(expired, AwaitLoginAll(expired, ActiveRunIds(d, a), AuthenticationExpired, now));
    }
  }

  lemma RateLimitSweeps(d: Db, a: Id, retry: Option<Millis>, now: Millis)
    ensures var e := RateLimited(d, a, retry, now).db; Sweep(d.(accounts := e.accounts, sessions := e.sessions), e)
  {
    hide Sweep, ActiveRunIds, NoteRateLimit, RetryAt;
    NoSweep(d);
    if a in d.accounts {
      var account := d.accounts[a];
      var limited := SetAccount(d, a, account.(rateLimits := account.rateLimits + 1,
                                               cooldownUntil := Max(account.cooldownUntil, RetryAt(retry, now)),
                                               readiness := if account.rateLimits >= 1 then OnHold else Cooldown));
      NoteRateLimitSweeps(limited, ActiveRunIds(d, a), now);
      SweepKeepsAccounts(limited, NoteRateLimit(limited, ActiveRunIds(d, a), now));
    }
  }

  lemma ConfirmSweeps(d: Db, a: Id, identity: Identity, model: ModelSelection, now: Millis)
    ensures var e := ConfirmAccount(d, a, identity, model, now).db; Sweep(d.(accounts := e.accounts, sessions := e.sessions), e)
  {
    hide Sweep, RunIds, RequeueAll, Confirms, ProviderTaken, RecentlyObserved;
    NoSweep(d);
    RunIdsRelabellable(d, a);
    if ConfirmAccount(d, a, identity, model, now).reply.Ok? {
      var ready := d.accounts[a].(provider := Some(d.sessions[a].observation.value.identity.id), readiness := Ready,
                                  cooldownUntil := 0, rateLimits := 0);
      var confirmed := d.sessions[a].(model := Some(model), lifecycle := SessionReady, error := None, loginExpires := None);
      var m := SetSession(SetAccount(d, a, ready), a, confirmed);
      RequeueAllSweeps(m, RunIds(d, a, WaitingForAuth), now);
      SweepKeepsAccounts(m, RequeueAll(m, RunIds(d, a, WaitingForAuth), now));
    }
  }

  lemma SweepKeepsAccounts(d: Db, m: Db)
    requires Sweep(d, m)
    ensures m.accounts == d.accounts && m.sessions == d.sessions && m.attempts == d.attempts
    ensures m.reservations == d.reservations && m.artifacts == d.artifacts
  {
  }

  /** An account command relabels runs at most; attempts, reservations and reconciliations are out of its reach. */
  lemma AccountCommandsSweep(d: Db, s: Step)
    requires OnAccounts(s.command)
    ensures var e := Apply(d, s).db; Sweep(d.(accounts := e.accounts, sessions := e.sessions), e)
  {
    hide Sweep, VerifyAccount, ConfirmAccount, AccountLoginExpired, RateLimited, ForeignKeys;
    if s.command.DoVerify? {
      VerifySweeps(d, s.command.a, s.command.identity, s.now, s.command.operator);
    } else if s.command.DoConfirm? {
      ConfirmSweeps(d, s.command.a, s.command.identity, s.command.choice, s.now);
    } else if s.command.DoExpire? {
      ExpireSweeps(d, s.command.a, s.now);
    } else if s.command.DoRateLimit? {
      RateLimitSweeps(d, s.command.a, s.command.retry, s.now);
    } else {
      hide Apply;
      SessionsSweep(d, s);
    }
  }

  lemma SessionsSweep(d: Db, s: Step)
    requires (s.command.DoRegister? || s.command.DoLoginState? || s.command.DoObserve?)
    ensures var e := Apply(d, s).db; Sweep(d.(accounts := e.accounts, sessions := e.sessions), e)
  {
    hide Sweep, ForeignKeys, Register, LoginState, ObserveAccount;
    var e := Apply(d, s).db;
    NoSweep(d.(accounts := e.accounts, sessions := e.sessions));
    if s.command.DoRegister? {
      RegisterRows(d, s.command.a, s.command.email, s.command.provider, s.command.verified, s.command.capacity, s.command.placed);
    } else if s.command.DoLoginState? {
      LoginStateRows(d, s.command.a, s.command.state, s.command.error, s.command.expires);
    } else {
      ObserveRows(d, s.command.a, s.command.observation, s.now);
    }
  }

  lemma RegisterRows(d: Db, a: Id, email: string, provider: Option<string>, verified: bool, capacity: nat, placed: bool)
    ensures var e := Register(d, a, email, provider, verified, capacity, placed).db; e == d.(accounts := e.accounts, sessions := e.sessions)
  {
    hide EmailUsed, ProviderTaken, Blank, EqIgnoreCase;
  }

  lemma LoginStateRows(d: Db, a: Id, state: Lifecycle, error: Option<Code>, expires: Option<Millis>)
    ensures var e := LoginState(d, a, state, error, expires).db; e == d.(sessions := e.sessions)
  {
  }

  lemma ObserveRows(d: Db, a: Id, o: Observation, now: Millis)
    ensures var e := ObserveAccount(d, a, o, now).db; e == d.(sessions := e.sessions)
  {
    hide Confirms, ObservationOk;
  }

  // ---------- Account rows ----------

  /** A verification makes the account ready, marks a mismatch, or changes nothing; a held account listens to operators only. */
  lemma VerifiedAccounts(d: Db, a: Id, identity: Identity, now: Millis, operator: bool)
    ensures var o := VerifyAccount(d, a, identity, now, operator);
            if o.reply.Ok? then
              && a in d.accounts && now >= d.accounts[a].cooldownUntil && (d.accounts[a].readiness.OnHold? ==> operator)
              && o.db.accounts == d.accounts[a := d.accounts[a].(
                   provider := Some(identity.id), readiness := Ready, cooldownUntil := 0,
                   rateLimits := if operator then 0 else d.accounts[a].rateLimits)]
            else if o.reply == Refused(IdentityMismatch) then
              && a in d.accounts && (d.accounts[a].readiness.OnHold? ==> operator)
              && o.db.accounts == d.accounts[a := d.accounts[a].(readiness := Mismatch)]
            else o.db == d
  {
    hide Sweep, RunIds, ActiveRunIds, AwaitLoginAll, RequeueAll, Confirms, ProviderTaken;
    RunIdsRelabellable(d, a);
    if a in d.accounts {
      var mismatched := SetAccount(d, a, d.accounts[a].(readiness := Mismatch));
      AwaitLoginAllSweeps(mismatched, ActiveRunIds(d, a), IdentityMismatch, now);
      SweepKeepsAccounts(mismatched, AwaitLoginAll(mismatched, ActiveRunIds(d, a), IdentityMismatch, now));
      var ready := SetAccount(d, a, d.accounts[a].(provider := Some(identity.id), readiness := Ready, cooldownUntil := 0,
                                                   rateLimits := if operator then 0 else d.accounts[a].rateLimits));
      RequeueAllSweeps(ready, RunIds(d, a, WaitingForAuth), now);
      SweepKeepsAccounts(ready, RequeueAll(ready, RunIds(d, a, WaitingForAuth), now));
    }
  }

  lemma ConfirmedAccounts(d: Db, a: Id, identity: Identity, model: ModelSelection, now: Millis)
    ensures var o := ConfirmAccount(d, a, identity, model, now);
            if o.reply.Ok? then
              && a in d.accounts && a in d.sessions && d.sessions[a].observation.Some? && now >= d.accounts[a].cooldownUntil
              && o.db.accounts == d.accounts[a := d.accounts[a].(
                   provider := Some(d.sessions[a].observation.value.identity.id), readiness := Ready, cooldownUntil := 0, rateLimits := 0)]
            else o.db == d
  {
    hide Sweep, RunIds, RequeueAll, Confirms, ProviderTaken, RecentlyObserved;
    RunIdsRelabellable(d, a);
    if ConfirmAccount(d, a, identity, model, now).reply.Ok? {
      var ready := d.accounts[a].(provider := Some(d.sessions[a].observation.value.identity.id), readiness := Ready,
                                  cooldownUntil := 0, rateLimits := 0);
      var confirmed := d.sessions[a].(model := Some(model), lifecycle := SessionReady, error := None, loginExpires := None);
      var m := SetSession(SetAccount(d, a, ready), a, confirmed);
      RequeueAllSweeps(m, RunIds(d, a, WaitingForAuth), now);
      SweepKeepsAccounts(m, RequeueAll(m, RunIds(d, a, WaitingForAuth), now));
    }
  }

  lemma ExpiredAccounts(d: Db, a: Id, now: Millis)
    ensures var e := AccountLoginExpired(d, a, now).db;
            && e.sessions == d.sessions
            && e.accounts == if a in d.accounts then d.accounts[a := d.accounts[a].(readiness := Expired)] else d.accounts
  {
    hide Sweep, ActiveRunIds, AwaitLoginAll;
    RunIdsRelabellable(d, a);
    if a in d.accounts {
      var expired := SetAccount(d, a, d.accounts[a].(readiness := Expired));
      AwaitLoginAllSweeps(expired, ActiveRunIds(d, a), AuthenticationExpired, now);
      SweepKeepsAccounts(expired, AwaitLoginAll(expired, ActiveRunIds(d, a), AuthenticationExpired, now));
    }
  }

  lemma LimitedAccounts(d: Db, a: Id, retry: Option<Millis>, now: Millis)
    ensures var e := RateLimited(d, a, retry, now).db;
            e.accounts == if a in d.accounts then d.accounts[a := d.accounts[a].(
                               rateLimits := d.accounts[a].rateLimits + 1,
                               cooldownUntil := Max(d.accounts[a].cooldownUntil, RetryAt(retry, now)),
                               readiness := if d.accounts[a].rateLimits >= 1 then OnHold else Cooldown)]
                          else d.accounts
  {
    hide NoteRateLimit, ActiveRunIds, RetryAt;
  }

  // ---------- Every other transaction and the readiness of an account ----------

  /** Neither readiness nor cooldown nor hold changes; a ready account may forget its rate limits. */
  predicate SameReadiness(d: Db, e: Db, a: Id)
    requires a in d.accounts
  {
    a in e.accounts &&
    var x, y := d.accounts[a], e.accounts[a];
    y.readiness == x.readiness && y.cooldownUntil == x.cooldownUntil && (y.rateLimits == x.rateLimits || x.readiness.Ready?)
  }

  lemma SameAccountsReady(d: Db, e: Db, a: Id)
    requires a in d.accounts && e.accounts == d.accounts
    ensures SameReadiness(d, e, a)
  {
  }

  lemma ClaimReadiness(d: Db, now: Millis, jitter: int, x: Id, a: Id)
    requires a in d.accounts
    ensures SameReadiness(d, Claim(d, now, jitter, x).db, a)
  {
    hide PauseAll, ClaimFrom, NextTask, ExpiredRuns, Candidates, Sweep, Exhausted;
    if 0 <= jitter <= MAX_JITTER_MS && x !in d.reservations {
      var n, m := ClaimShape(d, now, jitter, x);
      SweepKeepsAccounts(d, m);
    }
  }

  lemma EndedRowsAccounts(d: Db, lease: Lease, c: Capture, now: Millis, draws: Draws)
    requires Owns(d, lease)
    ensures EndedRows(d, lease, c, now, draws).accounts == d.accounts
  {
    hide Ended, IsComplete, Reconciled, WriteText, WriteStructured;
    WrittenAccounts(d, lease, c, IsComplete(d, lease, c), now, draws);
    hide Written;
  }

  lemma WrittenAccounts(d: Db, lease: Lease, c: Capture, complete: bool, now: Millis, draws: Draws)
    requires Owns(d, lease)
    ensures Written(d, lease, c, complete, now, draws).accounts == d.accounts
  {
    TextKeepsRows(d, lease, c, complete, now, draws);
    hide RankingFor, WriteText;
  }

  lemma CaptureReadiness(d: Db, lease: Lease, capture: Capture, now: Millis, release: bool, draws: Draws, a: Id)
    requires a in d.accounts
    ensures SameReadiness(d, StoreCapture(d, lease, capture, now, release, draws).db, a)
  {
    hide Timed, StoreFinal, EndedRows, IsComplete, FreshDraws, SameTurn, Blank, Verdict;
    if Owns(d, lease) {
      var c := Timed(d.runs[lease.run], d.attempts[lease.attempt], if release then capture else capture.(complete := false), now);
      StoreFinalIs(d, lease, c, now, draws);
      EndedRowsAccounts(d, lease, c, now, draws);
    }
  }

  lemma BeginReadiness(d: Db, lease: Lease, now: Millis, a: Id)
    requires a in d.accounts
    ensures SameReadiness(d, BeginSubmission(d, lease, now).db, a)
  {
    hide Owns, Exhausted;
  }

  lemma FailAccounts(d: Db, lease: Lease, code: Code, disposition: Disposition, now: Millis)
    ensures FailAttempt(d, lease, code, disposition, now).db.accounts == d.accounts
  {
    hide Live, Unresolved, Reconciled;
  }

  lemma AcknowledgeAccounts(d: Db, lease: Lease, now: Millis)
    ensures AcknowledgeCancel(d, lease, now).db.accounts == d.accounts
  {
    hide Live;
  }

  lemma LeaseReadiness(d: Db, s: Step, a: Id)
    requires a in d.accounts && LeaseOfCommand(s.command).Some?
    ensures SameReadiness(d, Apply(d, s).db, a)
  {
    hide Owns, StoreCapture, BeginSubmission, FailAttempt, AcknowledgeCancel, SameReadiness;
    if s.command.DoCapture? {
      CaptureReadiness(d, s.command.lease, s.command.capture, s.now, s.command.release, s.command.draws, a);
    } else if s.command.DoBegin? {
      BeginReadiness(d, s.command.lease, s.now, a);
    } else if s.command.DoFail? {
      FailAccounts(d, s.command.lease, s.command.code, s.command.disposition, s.now);
      SameAccountsReady(d, Apply(d, s).db, a);
    } else if s.command.DoAcknowledge? {
      AcknowledgeAccounts(d, s.command.lease, s.now);
      SameAccountsReady(d, Apply(d, s).db, a);
    } else {
      SameAccountsReady(d, Apply(d, s).db, a);
    }
  }

  lemma RunReadiness(d: Db, s: Step, a: Id)
    requires a in d.accounts
    requires !s.command.DoClaim? && !s.command.DoRecover? && !OnAccounts(s.command) && LeaseOfCommand(s.command).None?
    ensures SameReadiness(d, Apply(d, s).db, a)
  {
    hide RequestOk, ModelOk, ChosenModel, NewRun, SubsetAvailable, ExcludeOpen, Requeue, ReattachedNow, SameReadiness;
    SameAccountsReady(d, Apply(d, s).db, a);
  }

  lemma RecoverReadiness(d: Db, now: Millis, a: Id)
    requires Valid(d) && a in d.accounts
    ensures ForeignKeys(d) && SameReadiness(d, Recover(d, now).db, a)
  {
    hide Valid, ForeignKeys, Recover, RunRecovered, CalmLog, RecoveredAttempt, SameReadiness;
    RecoverIsPointwise(d, now);
    SameAccountsReady(d, Recover(d, now).db, a);
  }

  lemma RegisterReadiness(d: Db, s: Step, a: Id)
    requires a in d.accounts && (s.command.DoRegister? || s.command.DoLoginState? || s.command.DoObserve?)
    ensures SameReadiness(d, Apply(d, s).db, a)
  {
    hide Confirms, ObservationOk, EmailUsed, ProviderTaken, Blank, EqIgnoreCase;
  }

  /** The transactions that may change the readiness of an account. */
  predicate Concerns(c: Command, a: Id) {
    (c.DoVerify? || c.DoConfirm? || c.DoExpire? || c.DoRateLimit?) && c.a == a
  }

  lemma OthersAccounts(d: Db, s: Step, a: Id)
    requires a in d.accounts && !Concerns(s.command, a)
    requires s.command.DoVerify? || s.command.DoConfirm? || s.command.DoExpire? || s.command.DoRateLimit?
    ensures SameReadiness(d, Apply(d, s).db, a)
  {
    hide VerifyAccount, ConfirmAccount, AccountLoginExpired, RateLimited, RetryAt;
    if s.command.DoVerify? {
      VerifiedAccounts(d, s.command.a, s.command.identity, s.now, s.command.operator);
    } else if s.command.DoConfirm? {
      ConfirmedAccounts(d, s.command.a, s.command.identity, s.command.choice, s.now);
    } else if s.command.DoExpire? {
      ExpiredAccounts(d, s.command.a, s.now);
    } else {
      LimitedAccounts(d, s.command.a, s.command.retry, s.now);
    }
  }

  /** Only a verification, a confirmation, an expired login or a rate limit of the account itself touches its readiness. */
  lemma UnconcernedKeepReadiness(d: Db, s: Step, a: Id)
    requires Valid(d) && a in d.accounts && !Concerns(s.command, a)
    ensures SameReadiness(d, Apply(d, s).db, a)
  {
    hide Valid, ForeignKeys, SameReadiness, Claim, Recover;
    ValidForeignKeys(d);
    if s.command.DoClaim? {
      ClaimReadiness(d, s.now, s.command.jitter, s.command.x, a);
    } else if s.command.DoRecover? {
      RecoverReadiness(d, s.now, a);
    } else {
      hide Apply;
      if s.command.DoVerify? || s.command.DoConfirm? || s.command.DoExpire? || s.command.DoRateLimit? {
        OthersAccounts(d, s, a);
      } else if s.command.DoRegister? || s.command.DoLoginState? || s.command.DoObserve? {
        RegisterReadiness(d, s, a);
      } else if LeaseOfCommand(s.command).Some? {
        LeaseReadiness(d, s, a);
      } else {
        RunReadiness(d, s, a);
      }
    }
  }

  // ---------- What starts and what is charged ----------

  /** Only a claim that returns a lease logs a start, and only a granted submission logs a charge. */
  ghost predicate LogRule(d: Db, s: Step, o: Outcome) {
    && d.events <= o.db.events
    && (forall i | |d.events| <= i < |o.db.events| :: Calm(o.db.events[i].kind) ||
          (s.command.DoClaim? && o.reply.Claimed? && o.reply.lease.Some?
           && o.db.events[i] == Event(o.reply.lease.value.run, AttemptPrepared(o.reply.lease.value.attempt), s.now)) ||
          (s.command.DoBegin? && o.reply.Ok?
           && o.db.events[i] == Event(s.command.lease.run, SubmissionStarted(s.command.lease.attempt), s.now)))
    && (s.command.DoClaim? && o.reply.Claimed? && o.reply.lease.Some? ==>
          (&& |d.events| < |o.db.events|
           && o.db.events[|o.db.events| - 1] == Event(o.reply.lease.value.run, AttemptPrepared(o.reply.lease.value.attempt), s.now)))
  }

  lemma CalmRule(d: Db, s: Step, o: Outcome)
    requires CalmLog(d.events, o.db.events) && !s.command.DoClaim?
    ensures LogRule(d, s, o)
  {
  }

  lemma SweepLog(d: Db, m: Db)
    requires Sweep(d, m)
    ensures CalmLog(d.events, m.events)
  {
  }

  /** One start, after calm events. */
  lemma GrantLog(d: seq<Event>, m: seq<Event>, e: Event)
    requires CalmLog(d, m)
    ensures d <= m + [e] && |d| < |m + [e]| && (m + [e])[|m|] == e
    ensures forall i | |d| <= i < |m + [e]| :: Calm((m + [e])[i].kind) || (m + [e])[i] == e
  {
  }

  lemma ClaimLog(d: Db, now: Millis, jitter: int, x: Id)
    ensures LogRule(d, Step(DoClaim(jitter, x), now), Claim(d, now, jitter, x))
  {
    hide PauseAll, ClaimFrom, AccountOpen, Exhausted, NextTask, ExpiredRuns, Candidates, Sweep, Calm, CalmLog;
    if 0 <= jitter <= MAX_JITTER_MS && x !in d.reservations {
      var n, m := ClaimShape(d, now, jitter, x);
      SweepLog(d, m);
      var ids := Candidates(Swept(d, now));
      hide StopsAt, Claim;
      if n < |ids| {
        var i := NextTask(m.runs[ids[n]]).value;
        GrantLog(d.events, m.events, Event(ids[n], AttemptPrepared(AttemptId(ids[n], i, m.runs[ids[n]].tasks[i].attempts + 1)), now));
      } else {
        CalmOnly(d.events, m.events);
      }
    }
  }

  lemma CalmOnly(d: seq<Event>, m: seq<Event>)
    requires CalmLog(d, m)
    ensures d <= m && forall i | |d| <= i < |m| :: Calm(m[i].kind)
  {
  }

  lemma CalmTrans(d: seq<Event>, e: seq<Event>, f: seq<Event>)
    requires CalmLog(d, e) && CalmLog(e, f)
    ensures CalmLog(d, f)
  {
  }

  lemma OneCalm(d: Db, r: Id, kind: EventKind, now: Millis)
    requires Calm(kind)
    ensures CalmLog(d.events, d.events) && CalmLog(d.events, Log(d, r, kind, now).events)
  {
  }

  lemma SettleCalm(d: Db, r: Id, now: Millis)
    requires r in d.runs
    ensures CalmLog(d.events, Settle(d, r, now).events)
  {
    hide CalmLog;
    OneCalm(d, r, ReconciliationFinished, now);
  }

  lemma EndedRowsCalm(d: Db, lease: Lease, c: Capture, now: Millis, draws: Draws)
    requires Owns(d, lease)
    ensures CalmLog(d.events, EndedRows(d, lease, c, now, draws).events)
  {
    hide CalmLog, Settle, Ended, IsComplete, RankingFor, Blank;
    var r := Ended(d, lease, c, now);
    var e := Written(d, lease, c, IsComplete(d, lease, c), now, draws);
    WrittenJoined(d, lease, c, IsComplete(d, lease, c), now, draws);
    SettleCalm(Release(e, lease, r.0, r.1, r.2), lease.run, now);
  }

  lemma CaptureCalm(d: Db, lease: Lease, capture: Capture, now: Millis, release: bool, draws: Draws)
    ensures CalmLog(d.events, StoreCapture(d, lease, capture, now, release, draws).db.events)
  {
    hide CalmLog, FreshDraws, Timed, Verdict, SameTurn, EndedRows, IsComplete, StoreFinal, WriteText;
    OneCalm(d, lease.run, ResponseCaptured(lease.attempt), now);
    if StoreCapture(d, lease, capture, now, release, draws).reply.Ok? && release {
      var c := Timed(d.runs[lease.run], d.attempts[lease.attempt], capture, now);
      var e := EndedRows(d, lease, c, now, draws);
      var f := Log(e, lease.run, ResponseCaptured(lease.attempt), now);
      EndedRowsCalm(d, lease, c, now, draws);
      StoreFinalIs(d, lease, c, now, draws);
      OneCalm(e, lease.run, ResponseCaptured(lease.attempt), now);
      OneCalm(f, lease.run, RunFinished, now);
      CalmTrans(d.events, e.events, f.events);
      CalmTrans(d.events, f.events, Log(f, lease.run, RunFinished, now).events);
    } else if Owns(d, lease) {
      WrittenEvents(d, lease, Timed(d.runs[lease.run], d.attempts[lease.attempt], capture.(complete := false), now), now, draws);
    }
  }

  lemma WrittenEvents(d: Db, lease: Lease, c: Capture, now: Millis, draws: Draws)
    ensures WriteText(d, lease, c, false, now, draws).events == d.events
  {
  }

  lemma FailCalm(d: Db, lease: Lease, code: Code, disposition: Disposition, now: Millis)
    ensures CalmLog(d.events, FailAttempt(d, lease, code, disposition, now).db.events)
  {
    hide CalmLog, Settle, Owns, Unresolved;
    OneCalm(d, lease.run, AttemptFailed(lease.attempt), now);
    if FailAttempt(d, lease, code, disposition, now).reply.Ok? && !disposition.Ambiguous? {
      OwnedJoined(d, lease);
      var retryable := disposition.DefinitelyNotAccepted? || disposition.CompletedRetryable?;
      var ended := d.attempts[lease.attempt].(error := Some(code), retryable := retryable, completed := Some(now));
      var status := if retryable && lease.attempt.number < 2 && !d.runs[lease.run].status.Cancelled? then Todo else Broken;
      var e := Release(d, lease, ended.(state := Abandoned), status, Some(code));
      SettleCalm(e, lease.run, now);
      OneCalm(Settle(e, lease.run, now), lease.run, AttemptFailed(lease.attempt), now);
      CalmTrans(d.events, Settle(e, lease.run, now).events, Log(Settle(e, lease.run, now), lease.run, AttemptFailed(lease.attempt), now).events);
    }
  }

  lemma OwnedJoined(d: Db, lease: Lease)
    requires Owns(d, lease)
    ensures Joined(d, lease.attempt) && lease.run == lease.attempt.run
  {
  }

  lemma RecoverCalm(d: Db, now: Millis)
    requires Valid(d)
    ensures ForeignKeys(d) && CalmLog(d.events, Recover(d, now).db.events)
  {
    hide Valid;
    RecoverIsPointwise(d, now);
    hide RunRecovered, CalmLog;
  }

  lemma AccountCalm(d: Db, s: Step)
    requires OnAccounts(s.command)
    ensures CalmLog(d.events, Apply(d, s).db.events)
  {
    hide ForeignKeys, Apply, CalmLog, Relabelled;
    AccountCommandsSweep(d, s);
  }

  lemma StepLogs(d: Db, s: Step)
    requires Valid(d)
    ensures LogRule(d, s, Apply(d, s))
  {
    hide Valid, ForeignKeys, LogRule, OnAccounts, Claim, StoreCapture, FailAttempt, Recover;
    ValidForeignKeys(d);
    if s.command.DoClaim? {
      ClaimLog(d, s.now, s.command.jitter, s.command.x);
    } else if s.command.DoCapture? {
      CaptureCalm(d, s.command.lease, s.command.capture, s.now, s.command.release, s.command.draws);
      CalmRule(d, s, Apply(d, s));
    } else if s.command.DoFail? {
      FailCalm(d, s.command.lease, s.command.code, s.command.disposition, s.now);
      CalmRule(d, s, Apply(d, s));
    } else if s.command.DoRecover? {
      RecoverCalm(d, s.now);
      CalmRule(d, s, Apply(d, s));
    } else if OnAccounts(s.command) {
      AccountCalm(d, s);
      CalmRule(d, s, Apply(d, s));
    } else {
      OtherLogs(d, s);
    }
  }

  lemma RunCommandsCalm(d: Db, s: Step)
    requires s.command.DoSubmit? || s.command.DoSuspend? || s.command.DoResume? || s.command.DoCancel? || s.command.DoResumeReattached?
    ensures CalmLog(d.events, Apply(d, s).db.events)
  {
    hide ForeignKeys, RequestOk, ModelOk, ChosenModel, SubsetAvailable, ExcludeOpen, Requeue, CalmLog, NewRun, Reconciled;
    var e := Apply(d, s).db;
    OneCalm(d, 0, RunFinished, s.now);
    if e != d { OneCalm(d, e.events[|d.events|].run, e.events[|d.events|].kind, s.now); }
  }

  lemma LeaseCommandsCalm(d: Db, s: Step)
    requires (s.command.DoAccept? || s.command.DoAcknowledge? || s.command.DoReattach?)
    ensures CalmLog(d.events, Apply(d, s).db.events)
  {
    hide ForeignKeys, CalmLog, Owns;
    var e := Apply(d, s).db;
    OneCalm(d, 0, RunFinished, s.now);
    if e != d { OneCalm(d, e.events[|d.events|].run, e.events[|d.events|].kind, s.now); }
  }

  lemma BeginLog(d: Db, lease: Lease, now: Millis)
    ensures LogRule(d, Step(DoBegin(lease), now), BeginSubmission(d, lease, now))
  {
    hide Owns;
  }

  lemma OtherLogs(d: Db, s: Step)
    requires !OnAccounts(s.command)
    requires !s.command.DoClaim? && !s.command.DoCapture? && !s.command.DoFail? && !s.command.DoRecover?
    ensures LogRule(d, s, Apply(d, s))
  {
    hide ForeignKeys, LogRule, CalmLog, BeginSubmission, Submit, Suspend, Resume, Cancel, ResumeReattached, Accept, AcknowledgeCancel, Reattach;
    if s.command.DoBegin? {
      BeginLog(d, s.command.lease, s.now);
    } else {
      if LeaseOfCommand(s.command).Some? { LeaseCommandsCalm(d, s); } else { RunCommandsCalm(d, s); }
      CalmRule(d, s, Apply(d, s));
    }
  }
}
