/** Crash recovery, reattachment and the account transactions keep the invariant. */
module RecoveryOperations {
  import opened Text
  import opened Tables
  import opened Ordering
  import opened Scheduler
  import opened Accounts
  import opened Recovery
  import opened Invariant
  import opened Preservation
  import opened Steps
  import opened Operations

  // ---------- recover ----------

  lemma RewindKeeps(d: Db, lease: Lease, now: Millis)
    requires Valid(d) && Owns(d, lease) && d.attempts[lease.attempt].state.Prepared?
    ensures Good(d, Rewind(d, lease, now))
  {
    hide Valid, Evolves, RunOk, HasResult;
    OwnedIsLeased(d, lease);
    var ended := d.attempts[lease.attempt].(
      state := Abandoned, error := Some(InterruptedBeforeSubmission), retryable := true, completed := Some(now));
    var status := if d.runs[lease.run].tasks[lease.attempt.task].attempts < 2 then Todo else Broken;
    EndKeeps(d, lease, ended, status, Some(InterruptedBeforeSubmission));
    var e := Release(d, lease, ended, status, Some(InterruptedBeforeSubmission));
    LogKeeps(e, lease.run, RecoveredBeforeSubmission(lease.attempt), now);
    GoodTrans(d, e, Rewind(d, lease, now));
  }

  /** The attempt as recovery marks it: a submission in progress becomes uncertain. */
  function Marked(d: Db, lease: Lease): Db
    requires Joined(d, lease.attempt)
  {
    var attempt := d.attempts[lease.attempt];
    if attempt.state.Submitting?
    then d.(attempts := d.attempts[lease.attempt := attempt.(state := Uncertain, error := Some(SubmissionUncertain))])
    else d
  }

  lemma MarkedTouches(d: Db, lease: Lease)
    requires Leased(d, lease) && Joined(d, lease.attempt) && d.attempts[lease.attempt].state.Submitting?
    ensures var e := Marked(d, lease);
            Touches(d, e, lease.attempt) && Live(e.attempts[lease.attempt].state) && e.reservations == d.reservations
  {
    var e := Marked(d, lease);
    assert e.runs == d.runs[lease.run := e.runs[lease.run]];
    assert e.runs[lease.run].tasks == d.runs[lease.run].tasks[lease.attempt.task := d.runs[lease.run].tasks[lease.attempt.task]];
  }

  lemma MarkedKeeps(d: Db, lease: Lease)
    requires Valid(d) && Owns(d, lease)
    ensures Good(d, Marked(d, lease))
  {
    hide Valid, Evolves, Leased, Touches;
    OwnedIsLeased(d, lease);
    Reflexive(d);
    if d.attempts[lease.attempt].state.Submitting? {
      MarkedTouches(d, lease);
      KeepKeeps(d, Marked(d, lease), lease.attempt);
    }
  }

  lemma HoldBackKeeps(d: Db, lease: Lease, now: Millis)
    requires Valid(d) && Owns(d, lease)
    ensures Good(d, HoldBack(d, lease, now))
  {
    hide Valid, Evolves;
    var e := Marked(d, lease);
    var run := d.runs[lease.run];
    MarkedKeeps(d, lease);
    if !Terminal(run.status) && !run.status.Reconciling? {
      RunIsOk(d, lease.run);
      OneHeader(e, lease.run, Unresolved(run, Some(RestartReconciliation)), ReconciliationStarted(lease.attempt), now);
      GoodTrans(d, e, HoldBack(d, lease, now));
    }
  }

  lemma RecoverOneKeeps(d: Db, lease: Lease, now: Millis)
    requires Valid(d) && Owns(d, lease)
    ensures Good(d, RecoverOne(d, lease, now))
  {
    hide Valid, Evolves, Rewind, HoldBack;
    if d.attempts[lease.attempt].state.Prepared? { RewindKeeps(d, lease, now); } else { HoldBackKeeps(d, lease, now); }
  }

  lemma RecoverOneReservations(d: Db, lease: Lease, now: Millis)
    requires Resolvable(d, lease)
    ensures RecoverOne(d, lease, now).reservations
            == if d.attempts[lease.attempt].state.Prepared? then d.reservations - {lease.reservation} else d.reservations
  {
  }

  lemma ValidForeignKeys(d: Db)
    requires Valid(d)
    ensures ForeignKeys(d)
  {
    forall x | x in d.reservations
      ensures Joined(d, d.reservations[x].attempt) && d.reservations[x].run == d.reservations[x].attempt.run
    {
      assert ReservationOk(d, d.reservations[x]);
      Row(d, d.reservations[x].attempt);
    }
  }

  /** The leases name different reservations. */
  predicate DistinctLeases(leases: seq<Lease>) {
    forall i, j | 0 <= i < j < |leases| :: leases[i].reservation != leases[j].reservation
  }

  lemma ActiveLeasesOwned(d: Db)
    requires ForeignKeys(d)
    ensures DistinctLeases(ActiveLeases(d))
    ensures AllOwned(d, ActiveLeases(d))
  {
    var keys := Sorted(ReservationKeys(d));
    forall i, j | 0 <= i < j < |keys| ensures keys[i].id != keys[j].id {
      assert keys[i] in keys && keys[j] in keys && Before(keys[i], keys[j]);
    }
  }

  /** A lease stays owned while its reservation row and the tasks of its run stay where they are. */
  lemma OwnsKeeps(d: Db, e: Db, lease: Lease)
    requires Owns(d, lease) && Evolves(d, e)
    requires lease.reservation in e.reservations && e.reservations[lease.reservation] == d.reservations[lease.reservation]
    ensures Owns(e, lease)
  {
    assert RunEvolves(d.runs[lease.run], e.runs[lease.run]);
    assert TaskEvolves(d.runs[lease.run].tasks[lease.attempt.task], e.runs[lease.run].tasks[lease.attempt.task]);
  }

  ghost predicate AllOwned(d: Db, leases: seq<Lease>)
    ensures AllOwned(d, leases) ==> forall i | 0 <= i < |leases| :: Resolvable(d, leases[i])
  {
    forall i | 0 <= i < |leases| :: Owns(d, leases[i])
  }

  predicate Names(leases: seq<Lease>, x: Id) {
    exists i | 0 <= i < |leases| :: leases[i].reservation == x
  }

  /** Only reservations named by the leases have gone. */
  ghost predicate OthersReserved(d: Db, e: Db, leases: seq<Lease>) {
    forall x | x in d.reservations && !Names(leases, x) :: x in e.reservations && e.reservations[x] == d.reservations[x]
  }

  lemma NamedLater(leases: seq<Lease>, n: nat, x: Id)
    requires n <= |leases|
    ensures Names(leases[..n], x) ==> Names(leases, x)
  {
    if Names(leases[..n], x) {
      var i :| 0 <= i < n && leases[..n][i].reservation == x;
      assert leases[i].reservation == x;
    }
  }

  lemma RecoverStepKeeps(d: Db, e: Db, leases: seq<Lease>, now: Millis)
    requires leases != [] && AllOwned(d, leases) && DistinctLeases(leases)
    requires Good(d, e) && OthersReserved(d, e, leases[..|leases| - 1]) && Resolvable(e, leases[|leases| - 1])
    ensures Good(d, RecoverOne(e, leases[|leases| - 1], now))
    ensures OthersReserved(d, RecoverOne(e, leases[|leases| - 1], now), leases)
  {
    hide Valid, Evolves, RecoverOne, Resolvable;
    var lease := leases[|leases| - 1];
    assert Owns(d, lease) && lease.reservation in d.reservations;
    assert !Names(leases[..|leases| - 1], lease.reservation);
    hide Owns;
    OwnsKeeps(d, e, lease);
    RecoverOneKeeps(e, lease, now);
    RecoverOneReservations(e, lease, now);
    var f := RecoverOne(e, lease, now);
    GoodTrans(d, e, f);
    forall x | x in d.reservations && !Names(leases, x) ensures x in f.reservations && f.reservations[x] == d.reservations[x] {
      assert x != lease.reservation;
      NamedLater(leases, |leases| - 1, x);
    }
  }

  lemma {:induction false} RecoverAllKeeps(d: Db, leases: seq<Lease>, now: Millis)
    requires Valid(d) && DistinctLeases(leases) && AllOwned(d, leases)
    ensures Good(d, RecoverAll(d, leases, now).0) && OthersReserved(d, RecoverAll(d, leases, now).0, leases)
  {
    hide Valid, Evolves, RecoverOne, Owns, Resolvable;
    if leases == [] {
      Reflexive(d);
    } else {
      hide Good, OthersReserved;
      var n := |leases| - 1;
      assert forall i | 0 <= i < n :: leases[..n][i] == leases[i];
      RecoverAllKeeps(d, leases[..n], now);
      StillResolvable(d, RecoverAll(d, leases[..n], now).0, leases[n]);
      RecoverStepKeeps(d, RecoverAll(d, leases[..n], now).0, leases, now);
    }
  }

  lemma StillResolvable(d: Db, e: Db, lease: Lease)
    requires Resolvable(d, lease) && Good(d, e)
    ensures Resolvable(e, lease)
  {
    assert RunEvolves(d.runs[lease.run], e.runs[lease.run]);
  }

  lemma RecoverKeeps(d: Db, now: Millis)
    requires Valid(d)
    ensures ForeignKeys(d) && Good(d, Recover(d, now).db)
  {
    hide Valid, Evolves, RecoverAll, ActiveLeases, Owns, ForeignKeys;
    ValidForeignKeys(d);
    ActiveLeasesOwned(d);
    RecoverAllKeeps(d, ActiveLeases(d), now);
  }

  // ---------- resume_reattached, reattached ----------

  lemma ResumeReattachedKeeps(d: Db, r: Id, attached: set<AttemptId>, now: Millis)
    requires Valid(d)
    ensures Good(d, ResumeReattached(d, r, attached, now).db)
  {
    hide Valid, Evolves;
    Reflexive(d);
    if r in d.runs && d.runs[r].status.Reconciling? {
      RunIsOk(d, r);
      OneHeader(d, r, Reconciled(d.runs[r]), ConversationsReconciled, now);
    }
  }

  lemma ReattachKeeps(d: Db, lease: Lease, conversation: string, now: Millis)
    requires Valid(d)
    ensures Good(d, Reattach(d, lease, conversation, now).db)
  {
    hide Valid, Evolves;
    Reflexive(d);
    if Owns(d, lease) { LogKeeps(d, lease.run, ConversationReattached(lease.attempt), now); }
  }

  // ---------- The runs of one account ----------

  lemma AwaitLoginKeeps(d: Db, r: Id, reason: Code, now: Millis)
    requires Valid(d) && r in d.runs && !Terminal(d.runs[r].status)
    ensures Good(d, AwaitLogin(d, r, reason, now)) && StillOpen(d, AwaitLogin(d, r, reason, now))
  {
    hide Valid, Evolves;
    RunIsOk(d, r);
    OneHeader(d, r, d.runs[r].(status := WaitingForAuth, pauseReason := Some(reason)), AccountLoginRequired, now);
  }

  lemma {:induction false} AwaitLoginAllKeeps(d: Db, ids: seq<Id>, reason: Code, now: Millis)
    requires Valid(d) && forall i | 0 <= i < |ids| :: ids[i] in d.runs && !Terminal(d.runs[ids[i]].status)
    ensures Good(d, AwaitLoginAll(d, ids, reason, now)) && StillOpen(d, AwaitLoginAll(d, ids, reason, now))
  {
    hide Valid, Evolves, AwaitLogin;
    if ids == [] {
      Reflexive(d);
    } else {
      var n := |ids| - 1;
      var e := AwaitLoginAll(d, ids[..n], reason, now);
      AwaitLoginAllKeeps(d, ids[..n], reason, now);
      AwaitLoginKeeps(e, ids[n], reason, now);
      GoodTrans(d, e, AwaitLoginAll(d, ids, reason, now));
    }
  }

  lemma RequeuedKeeps(d: Db, r: Id, now: Millis)
    requires Valid(d) && r in d.runs && !Terminal(d.runs[r].status)
    ensures Good(d, Requeued(d, r, now)) && StillOpen(d, Requeued(d, r, now))
  {
    hide Valid, Evolves;
    Reflexive(d);
    RunIsOk(d, r);
    OneHeader(d, r, d.runs[r].(status := Queued, pauseReason := None), AccountVerified, now);
  }

  lemma {:induction false} RequeueAllKeeps(d: Db, ids: seq<Id>, now: Millis)
    requires Valid(d) && forall i | 0 <= i < |ids| :: ids[i] in d.runs && !Terminal(d.runs[ids[i]].status)
    ensures Good(d, RequeueAll(d, ids, now)) && StillOpen(d, RequeueAll(d, ids, now))
  {
    hide Valid, Evolves, Requeued;
    if ids == [] {
      Reflexive(d);
    } else {
      var n := |ids| - 1;
      var e := RequeueAll(d, ids[..n], now);
      RequeueAllKeeps(d, ids[..n], now);
      RequeuedKeeps(e, ids[n], now);
      GoodTrans(d, e, RequeueAll(d, ids, now));
    }
  }

  lemma {:induction false} NoteRateLimitKeeps(d: Db, ids: seq<Id>, now: Millis)
    requires Valid(d) && forall i | 0 <= i < |ids| :: ids[i] in d.runs
    ensures Good(d, NoteRateLimit(d, ids, now))
  {
    hide Valid, Evolves;
    if ids == [] {
      Reflexive(d);
    } else {
      var e := NoteRateLimit(d, ids[..|ids| - 1], now);
      NoteRateLimitKeeps(d, ids[..|ids| - 1], now);
      LogKeeps(e, ids[|ids| - 1], AccountRateLimited, now);
      GoodTrans(d, e, NoteRateLimit(d, ids, now));
    }
  }

  // ---------- Accounts ----------

  lemma RegisterNeutral(d: Db, a: Id, account: Account, session: Session)
    requires RunsOk(d) && a !in d.accounts && AccountsOk(SetAccount(d, a, account))
    ensures Neutral(d, SetSession(SetAccount(d, a, account), a, session))
  {
    hide RunOk, HeaderStep;
    forall q | q in d.runs ensures HeaderStep(d.runs[q], d.runs[q]) {
      HeaderSame(d.runs[q]);
    }
  }

  lemma RegisterKeeps(d: Db, a: Id, email: string, provider: Option<string>, verified: bool, capacity: nat, placed: bool)
    requires Valid(d)
    ensures Good(d, Register(d, a, email, provider, verified, capacity, placed).db)
  {
    var e := Register(d, a, email, provider, verified, capacity, placed).db;
    if e != d {
      AccountStep(d, SetAccount(d, a, e.accounts[a]), a);
      RegisterNeutral(d, a, e.accounts[a], e.sessions[a]);
      hide Valid, Evolves, Neutral;
      NeutralKeeps(d, e);
    } else {
      Reflexive(d);
    }
  }

  lemma RateLimitedKeeps(d: Db, a: Id, retry: Option<Millis>, now: Millis)
    requires Valid(d)
    ensures Good(d, RateLimited(d, a, retry, now).db)
  {
    hide Valid, Evolves, RetryAt;
    Reflexive(d);
    if a in d.accounts {
      var account := d.accounts[a];
      var limited := account.(rateLimits := account.rateLimits + 1,
                              cooldownUntil := Max(account.cooldownUntil, RetryAt(retry, now)),
                              readiness := if account.rateLimits >= 1 then OnHold else Cooldown);
      var e := SetAccount(d, a, limited);
      AccountIsOk(d, a);
      AccountKeeps(d, a, limited);
      NoteRateLimitKeeps(e, ActiveRunIds(d, a), now);
      GoodTrans(d, e, RateLimited(d, a, retry, now).db);
    }
  }

  lemma SessionNeutral(d: Db, a: Id, session: Session)
    requires RunsOk(d) && AccountsOk(d) && a in d.sessions
    ensures Neutral(d, SetSession(d, a, session))
  {
    hide RunOk, HeaderStep;
    forall q | q in d.runs ensures HeaderStep(d.runs[q], d.runs[q]) {
      HeaderSame(d.runs[q]);
    }
    AccountsFrame(d, SetSession(d, a, session));
  }

  lemma SessionKeeps(d: Db, a: Id, session: Session)
    requires Valid(d) && a in d.sessions
    ensures Good(d, SetSession(d, a, session))
  {
    SessionNeutral(d, a, session);
    hide Valid, Evolves, Neutral;
    NeutralKeeps(d, SetSession(d, a, session));
  }

  lemma LoginStateKeeps(d: Db, a: Id, state: Lifecycle, error: Option<Code>, expires: Option<Millis>)
    requires Valid(d)
    ensures Good(d, LoginState(d, a, state, error, expires).db)
  {
    hide Valid, Evolves;
    Reflexive(d);
    var e := LoginState(d, a, state, error, expires).db;
    if a in d.sessions && e != d { SessionKeeps(d, a, e.sessions[a]); }
  }

  lemma ObserveAccountKeeps(d: Db, a: Id, o: Observation, now: Millis)
    requires Valid(d)
    ensures Good(d, ObserveAccount(d, a, o, now).db)
  {
    hide Valid, Evolves, Confirms, ObservationOk;
    Reflexive(d);
    if a in d.sessions { SessionKeeps(d, a, d.sessions[a].(observation := Some(o), observed := Some(now), error := None)); }
  }

  lemma LoggedOutKeeps(d: Db, a: Id, now: Millis)
    requires Valid(d) && a in d.accounts
    ensures Good(d, AwaitLoginAll(SetAccount(d, a, d.accounts[a].(readiness := Expired)), ActiveRunIds(d, a), AuthenticationExpired, now))
    ensures Good(d, AwaitLoginAll(SetAccount(d, a, d.accounts[a].(readiness := Mismatch)), ActiveRunIds(d, a), IdentityMismatch, now))
  {
    hide Valid, Evolves, AwaitLoginAll;
    AccountIsOk(d, a);
    AccountKeeps(d, a, d.accounts[a].(readiness := Mismatch));
    AccountKeeps(d, a, d.accounts[a].(readiness := Expired));
    var e, f := SetAccount(d, a, d.accounts[a].(readiness := Mismatch)), SetAccount(d, a, d.accounts[a].(readiness := Expired));
    AwaitLoginAllKeeps(e, ActiveRunIds(d, a), IdentityMismatch, now);
    AwaitLoginAllKeeps(f, ActiveRunIds(d, a), AuthenticationExpired, now);
    GoodTrans(d, e, AwaitLoginAll(e, ActiveRunIds(d, a), IdentityMismatch, now));
    GoodTrans(d, f, AwaitLoginAll(f, ActiveRunIds(d, a), AuthenticationExpired, now));
  }

  lemma AccountLoginExpiredKeeps(d: Db, a: Id, now: Millis)
    requires Valid(d)
    ensures Good(d, AccountLoginExpired(d, a, now).db)
  {
    hide Valid, Evolves, AwaitLoginAll, ActiveRunIds;
    Reflexive(d);
    if a in d.accounts { LoggedOutKeeps(d, a, now); }
  }

  lemma ReflexiveGood(d: Db)
    requires Valid(d)
    ensures Good(d, d)
  {
    Reflexive(d);
  }

  lemma ReadyKeeps(d: Db, a: Id, provider: string, rateLimits: nat, now: Millis)
    requires Valid(d) && a in d.accounts && !ProviderTaken(d, a, provider)
    requires d.accounts[a].provider.None? || d.accounts[a].provider.value == provider
    ensures var ready := d.accounts[a].(provider := Some(provider), readiness := Ready, cooldownUntil := 0, rateLimits := rateLimits);
            && Good(d, SetAccount(d, a, ready))
            && Good(d, RequeueAll(SetAccount(d, a, ready), RunIds(d, a, WaitingForAuth), now))
  {
    hide Valid, Evolves, ProviderTaken, RequeueAll;
    var ready := d.accounts[a].(provider := Some(provider), readiness := Ready, cooldownUntil := 0, rateLimits := rateLimits);
    var e := SetAccount(d, a, ready);
    AccountIsOk(d, a);
    AccountKeeps(d, a, ready);
    RequeueAllKeeps(e, RunIds(d, a, WaitingForAuth), now);
    GoodTrans(d, e, RequeueAll(e, RunIds(d, a, WaitingForAuth), now));
  }

  lemma VerifyAccountKeeps(d: Db, a: Id, identity: Identity, now: Millis, operator: bool)
    requires Valid(d)
    ensures Good(d, VerifyAccount(d, a, identity, now, operator).db)
  {
    hide Valid, Evolves, Good, ProviderTaken, RequeueAll, AwaitLoginAll, RunIds, ActiveRunIds, Blank, Trim, EqIgnoreCase;
    ReflexiveGood(d);
    if a in d.accounts && a in d.sessions {
      if !Confirms(d.accounts[a], identity) {
        LoggedOutKeeps(d, a, now);
      } else if !ProviderTaken(d, a, identity.id) {
        ReadyKeeps(d, a, identity.id, if operator then 0 else d.accounts[a].rateLimits, now);
      }
    }
  }

  lemma ConfirmAccountKeeps(d: Db, a: Id, identity: Identity, model: ModelSelection, now: Millis)
    requires Valid(d)
    ensures Good(d, ConfirmAccount(d, a, identity, model, now).db)
  {
    hide Valid, Evolves, ProviderTaken, RecentlyObserved, Blank, Trim, EqIgnoreCase, RequeueAll, RunIds;
    Reflexive(d);
    var g := ConfirmAccount(d, a, identity, model, now);
    if a in d.accounts && g.reply.Ok? {
      AccountIsOk(d, a);
      var o := d.sessions[a].observation.value;
      var ready := d.accounts[a].(provider := Some(o.identity.id), readiness := Ready, cooldownUntil := 0, rateLimits := 0);
      var confirmed := d.sessions[a].(model := Some(model), lifecycle := SessionReady, error := None, loginExpires := None);
      var e := SetAccount(d, a, ready);
      var f := SetSession(e, a, confirmed);
      AccountKeeps(d, a, ready);
      SessionKeeps(e, a, confirmed);
      RequeueAllKeeps(f, RunIds(d, a, WaitingForAuth), now);
      GoodTrans(d, e, f);
      GoodTrans(d, f, g.db);
    }
  }
}
