/** The whole effect of the transactions on an account, and on the runs that use it. */
module AccountEffects {
  import opened Text
  import opened Tables
  import opened Ordering
  import opened Scheduler
  import opened Accounts
  import opened Invariant
  import opened Operations
  import opened Conditions
  import opened ClaimEffects

  // ---------- Runs of an account ----------

  lemma {:induction false} RunIdsAre(d: Db, a: Id, status: RunStatus)
    ensures forall r :: r in RunIds(d, a, status) <==> r in d.runs && d.runs[r].request.account == a && d.runs[r].status == status
    ensures Distinct(RunIds(d, a, status))
  {
    var s := set r | r in d.runs && d.runs[r].request.account == a && d.runs[r].status == status :: Key(0, d.runs[r].created, r);
    var keys := Sorted(s);
    var ids := RunIds(d, a, status);
    assert ids == Ids(keys);
    forall r | r in d.runs && d.runs[r].request.account == a && d.runs[r].status == status ensures r in ids {
      assert Key(0, d.runs[r].created, r) in s;
      var i :| 0 <= i < |keys| && keys[i] == Key(0, d.runs[r].created, r);
      assert ids[i] == r;
    }
    forall i, j | 0 <= i < j < |ids| ensures ids[i] != ids[j] {
      assert Before(keys[i], keys[j]) && keys[i] in s && keys[j] in s;
    }
  }

  lemma ActiveRunIdsAre(d: Db, a: Id)
    ensures forall r :: r in ActiveRunIds(d, a)
                        <==> r in d.runs && d.runs[r].request.account == a && (d.runs[r].status.Running? || d.runs[r].status.Queued?)
    ensures Distinct(ActiveRunIds(d, a))
  {
    hide RunIds;
    RunIdsAre(d, a, Running);
    RunIdsAre(d, a, Queued);
    var ids := RunIds(d, a, Running) + RunIds(d, a, Queued);
    forall i, j | 0 <= i < j < |ids| ensures ids[i] != ids[j] {
      if i < |RunIds(d, a, Running)| <= j { assert ids[i] in RunIds(d, a, Running) && ids[j] in RunIds(d, a, Queued); }
    }
  }

  /** One event for each of these runs, and no others. */
  ghost predicate LoggedFor(d: Db, e: Db, ids: set<Id>, kind: EventKind, now: Millis) {
    && d.events <= e.events && |e.events| == |d.events| + |ids|
    && (forall i | |d.events| <= i < |e.events| :: e.events[i].run in ids && e.events[i] == Event(e.events[i].run, kind, now))
    && forall r | r in ids :: exists i :: |d.events| <= i < |e.events| && e.events[i] == Event(r, kind, now)
  }

  lemma LoggedOneMore(d: Db, e: Db, ids: set<Id>, kind: EventKind, now: Millis, r: Id, f: Db)
    requires LoggedFor(d, e, ids, kind, now) && r !in ids && f.events == e.events + [Event(r, kind, now)]
    ensures LoggedFor(d, f, ids + {r}, kind, now)
  {
    forall q | q in ids + {r} ensures exists i :: |d.events| <= i < |f.events| && f.events[i] == Event(q, kind, now) {
      if q == r {
        assert f.events[|e.events|] == Event(r, kind, now);
      } else {
        var i :| |d.events| <= i < |e.events| && e.events[i] == Event(q, kind, now);
        assert f.events[i] == Event(q, kind, now);
      }
    }
  }

  lemma NothingLogged(d: Db, e: Db, kind: EventKind, now: Millis)
    requires e.events == d.events
    ensures LoggedFor(d, e, {}, kind, now)
  {
  }

  lemma SameLog(d: Db, e: Db, f: Db, ids: set<Id>, kind: EventKind, now: Millis)
    requires LoggedFor(d, f, ids, kind, now) && e.events == d.events
    ensures LoggedFor(e, f, ids, kind, now)
  {
  }

  /** What a login that is lost does to a run. */
  function Awaiting(run: Run, reason: Code): Run { run.(status := WaitingForAuth, pauseReason := Some(reason)) }

  /** Exactly these runs wait for a login. */
  ghost predicate AwaitRows(d: Db, e: Db, ids: set<Id>, reason: Code, now: Millis) {
    && e == d.(runs := e.runs, events := e.events) && e.runs.Keys == d.runs.Keys && LoggedFor(d, e, ids, AccountLoginRequired, now)
    && forall r | r in d.runs :: e.runs[r] == if r in ids then Awaiting(d.runs[r], reason) else d.runs[r]
  }

  function Members(ids: seq<Id>): set<Id> { set r | r in ids }

  lemma LastMember(ids: seq<Id>)
    requires ids != [] && Distinct(ids)
    ensures var n := |ids| - 1; ids[n] !in Members(ids[..n]) && Members(ids) == Members(ids[..n]) + {ids[n]} && Distinct(ids[..n])
  {
    var n := |ids| - 1;
    assert ids == ids[..n] + [ids[n]];
    assert forall i | 0 <= i < n :: ids[..n][i] == ids[i];
  }

  lemma AwaitOneMore(d: Db, e: Db, ids: set<Id>, r: Id, reason: Code, now: Millis)
    requires AwaitRows(d, e, ids, reason, now) && r in d.runs && r !in ids
    ensures AwaitRows(d, AwaitLogin(e, r, reason, now), ids + {r}, reason, now)
  {
    hide LoggedFor;
    LoggedOneMore(d, e, ids, AccountLoginRequired, now, r, AwaitLogin(e, r, reason, now));
  }

  lemma {:induction false} AwaitAllRows(d: Db, ids: seq<Id>, reason: Code, now: Millis)
    requires Distinct(ids) && forall i | 0 <= i < |ids| :: ids[i] in d.runs
    ensures AwaitRows(d, AwaitLoginAll(d, ids, reason, now), Members(ids), reason, now)
  {
    if ids == [] {
      NothingLogged(d, d, AccountLoginRequired, now);
      hide LoggedFor;
    } else {
      var n := |ids| - 1;
      LastMember(ids);
      hide AwaitRows, Members, Distinct;
      AwaitAllRows(d, ids[..n], reason, now);
      AwaitOneMore(d, AwaitLoginAll(d, ids[..n], reason, now), Members(ids[..n]), ids[n], reason, now);
    }
  }

  /** Exactly these runs go back to the queue. */
  ghost predicate QueuedRows(d: Db, e: Db, ids: set<Id>, now: Millis) {
    && e == d.(runs := e.runs, events := e.events) && e.runs.Keys == d.runs.Keys && LoggedFor(d, e, ids, AccountVerified, now)
    && forall r | r in d.runs :: e.runs[r] == if r in ids then d.runs[r].(status := Queued, pauseReason := None) else d.runs[r]
  }

  function DeadlineAhead(d: Db, ids: seq<Id>, now: Millis): set<Id>
    requires forall i | 0 <= i < |ids| :: ids[i] in d.runs
  {
    set r | r in ids && d.runs[r].deadline > now
  }

  lemma QueueOneMore(d: Db, e: Db, ids: set<Id>, r: Id, now: Millis)
    requires QueuedRows(d, e, ids, now) && r in d.runs && r !in ids
    ensures QueuedRows(d, Requeued(e, r, now), if d.runs[r].deadline > now then ids + {r} else ids, now)
  {
    hide LoggedFor;
    if d.runs[r].deadline > now { LoggedOneMore(d, e, ids, AccountVerified, now, r, Requeued(e, r, now)); }
  }

  lemma AheadOneMore(d: Db, ids: seq<Id>, now: Millis)
    requires ids != [] && Distinct(ids) && forall i | 0 <= i < |ids| :: ids[i] in d.runs
    ensures var n := |ids| - 1;
            && ids[n] !in DeadlineAhead(d, ids[..n], now)
            && DeadlineAhead(d, ids, now) == if d.runs[ids[n]].deadline > now then DeadlineAhead(d, ids[..n], now) + {ids[n]} else DeadlineAhead(d, ids[..n], now)
  {
    var n := |ids| - 1;
    assert ids == ids[..n] + [ids[n]];
  }

  lemma {:induction false} RequeueAllRows(d: Db, ids: seq<Id>, now: Millis)
    requires Distinct(ids) && forall i | 0 <= i < |ids| :: ids[i] in d.runs
    ensures QueuedRows(d, RequeueAll(d, ids, now), DeadlineAhead(d, ids, now), now)
  {
    if ids == [] {
      NothingLogged(d, d, AccountVerified, now);
      hide LoggedFor;
    } else {
      var n := |ids| - 1;
      AheadOneMore(d, ids, now);
      LastMember(ids);
      hide QueuedRows, DeadlineAhead, Members, Distinct, Requeued;
      RequeueAllRows(d, ids[..n], now);
      QueueOneMore(d, RequeueAll(d, ids[..n], now), DeadlineAhead(d, ids[..n], now), ids[n], now);
    }
  }

  // ---------- The runs under the transactions of their account ----------

  /** The queued and running runs of the account. */
  function AtWork(d: Db, a: Id): set<Id> {
    set r | r in d.runs && d.runs[r].request.account == a && (d.runs[r].status.Queued? || d.runs[r].status.Running?)
  }

  /** The runs of the account that wait for a login and are in time. */
  function AwaitingLogin(d: Db, a: Id, now: Millis): set<Id> {
    set r | r in d.runs && d.runs[r].request.account == a && d.runs[r].status.WaitingForAuth? && now < d.runs[r].deadline
  }

  /** Every queued or running run of the account waits for a login, and no other run changes. */
  ghost predicate LoginLost(d: Db, e: Db, a: Id, reason: Code, now: Millis) {
    && e.runs.Keys == d.runs.Keys && LoggedFor(d, e, AtWork(d, a), AccountLoginRequired, now)
    && forall r | r in d.runs :: e.runs[r] == if r in AtWork(d, a) then Awaiting(d.runs[r], reason) else d.runs[r]
  }

  /** Every run of the account that waits for a login and is in time is queued, and no other run changes. */
  ghost predicate LoginBack(d: Db, e: Db, a: Id, now: Millis) {
    && e.runs.Keys == d.runs.Keys && LoggedFor(d, e, AwaitingLogin(d, a, now), AccountVerified, now)
    && forall r | r in d.runs :: e.runs[r] == if r in AwaitingLogin(d, a, now) then d.runs[r].(status := Queued, pauseReason := None) else d.runs[r]
  }

  lemma LostRows(d: Db, e: Db, a: Id, reason: Code, now: Millis)
    requires e.runs == d.runs && e.events == d.events
    ensures var f := AwaitLoginAll(e, ActiveRunIds(d, a), reason, now);
            LoginLost(d, f, a, reason, now) && f == e.(runs := f.runs, events := f.events)
  {
    hide ActiveRunIds, LoggedFor;
    var ids := ActiveRunIds(d, a);
    ActiveRunIdsAre(d, a);
    AwaitAllRows(e, ids, reason, now);
    var f := AwaitLoginAll(e, ids, reason, now);
    SameLog(e, d, f, Members(ids), AccountLoginRequired, now);
    assert Members(ids) == AtWork(d, a);
  }

  lemma BackRows(d: Db, e: Db, a: Id, now: Millis)
    requires e.runs == d.runs && e.events == d.events
    ensures var f := RequeueAll(e, RunIds(d, a, WaitingForAuth), now);
            LoginBack(d, f, a, now) && f == e.(runs := f.runs, events := f.events)
  {
    hide RunIds, LoggedFor;
    var ids := RunIds(d, a, WaitingForAuth);
    RunIdsAre(d, a, WaitingForAuth);
    RequeueAllRows(e, ids, now);
    var f := RequeueAll(e, ids, now);
    SameLog(e, d, f, DeadlineAhead(e, ids, now), AccountVerified, now);
    assert DeadlineAhead(e, ids, now) == AwaitingLogin(d, a, now);
  }

  // ---------- verify ----------

  /** The identity is named, has the e-mail of the account up to case and surrounding space, and is the one bound to the
      account, if any. */
  predicate Belongs(account: Account, identity: Identity) {
    && Filled(identity.id) && EqIgnoreCase(account.email, Trim(identity.email))
    && (account.provider.Some? ==> account.provider.value == identity.id)
  }

  lemma BelongsIff(account: Account, identity: Identity)
    ensures Confirms(account, identity) <==> Belongs(account, identity)
  {
    FilledIff(identity.id);
    hide Filled, Blank, Trim, EqIgnoreCase;
  }

  /** Nobody else is bound to the provider identity. */
  predicate Unbound(d: Db, a: Id, provider: string) {
    forall b | b in d.accounts && b != a :: d.accounts[b].provider != Some(provider)
  }

  /** The login may be looked at: no cancelled session, the cooldown over, and an operator where the account is held. */
  predicate MayVerify(d: Db, a: Id, now: Millis, operator: bool) {
    && a in d.accounts && a in d.sessions && !d.sessions[a].lifecycle.SessionCancelled?
    && d.accounts[a].cooldownUntil <= now && (d.accounts[a].readiness.OnHold? ==> operator)
  }

  lemma VerifyEffect(d: Db, a: Id, identity: Identity, now: Millis, operator: bool)
    ensures var o := VerifyAccount(d, a, identity, now, operator);
            && (o.reply.Ok? <==> MayVerify(d, a, now, operator) && Belongs(d.accounts[a], identity) && Unbound(d, a, identity.id))
            && (o.reply == Refused(IdentityMismatch) <==> MayVerify(d, a, now, operator) && !Belongs(d.accounts[a], identity))
            && (o.reply.Ok? || o.reply.Refused?)
            && (o.reply.Refused? ==>
                  o.reply.code == if a !in d.accounts then NotFound
                                  else if a !in d.sessions then StorageError
                                  else if d.sessions[a].lifecycle.SessionCancelled? then LoginCancelled
                                  else if !MayVerify(d, a, now, operator) then AccountCoolingDown
                                  else if !Belongs(d.accounts[a], identity) then IdentityMismatch
                                  else StorageError)
            && (o.reply.Ok? ==>
                  && LoginBack(d, o.db, a, now)
                  && o.db == d.(runs := o.db.runs, events := o.db.events, accounts := d.accounts[a := d.accounts[a].(
                       provider := Some(identity.id), readiness := Ready, cooldownUntil := 0,
                       rateLimits := if operator then 0 else d.accounts[a].rateLimits)]))
            && (o.reply == Refused(IdentityMismatch) ==>
                  && LoginLost(d, o.db, a, IdentityMismatch, now)
                  && o.db == d.(runs := o.db.runs, events := o.db.events, accounts := d.accounts[a := d.accounts[a].(readiness := Mismatch)]))
            && (o.reply.Refused? && o.reply != Refused(IdentityMismatch) ==> o.db == d)
  {
    hide Confirms, Belongs, LoginLost, LoginBack, AwaitLoginAll, RequeueAll, RunIds, ActiveRunIds;
    if a in d.accounts {
      BelongsIff(d.accounts[a], identity);
      LostRows(d, SetAccount(d, a, d.accounts[a].(readiness := Mismatch)), a, IdentityMismatch, now);
      BackRows(d, SetAccount(d, a, d.accounts[a].(provider := Some(identity.id), readiness := Ready, cooldownUntil := 0,
                                                  rateLimits := if operator then 0 else d.accounts[a].rateLimits)), a, now);
    }
  }

  // ---------- account_expired and rate_limited ----------

  lemma ExpireEffect(d: Db, a: Id, now: Millis)
    ensures var o := AccountLoginExpired(d, a, now);
            && (o.reply.Ok? <==> a in d.accounts) && (!o.reply.Ok? ==> o.reply == Refused(NotFound) && o.db == d)
            && (o.reply.Ok? ==>
                  && LoginLost(d, o.db, a, AuthenticationExpired, now)
                  && o.db == d.(runs := o.db.runs, events := o.db.events, accounts := d.accounts[a := d.accounts[a].(readiness := Expired)]))
  {
    hide LoginLost, AwaitLoginAll, ActiveRunIds;
    if a in d.accounts { LostRows(d, SetAccount(d, a, d.accounts[a].(readiness := Expired)), a, AuthenticationExpired, now); }
  }

  lemma {:induction false} NotedRows(d: Db, ids: seq<Id>, now: Millis)
    requires Distinct(ids)
    ensures LoggedFor(d, NoteRateLimit(d, ids, now), Members(ids), AccountRateLimited, now)
  {
    if ids == [] {
      NothingLogged(d, d, AccountRateLimited, now);
    } else {
      var n := |ids| - 1;
      LastMember(ids);
      hide LoggedFor, Members, Distinct;
      NotedRows(d, ids[..n], now);
      LoggedOneMore(d, NoteRateLimit(d, ids[..n], now), Members(ids[..n]), AccountRateLimited, now, ids[n], NoteRateLimit(d, ids, now));
    }
  }

  /** A rate limit shuts the account until the greatest of its old cooldown, the time of the limit, and the retry time given
      or else five minutes later; the second one since the last reset holds it. Every run at work is told. */
  lemma RateLimitEffect(d: Db, a: Id, retry: Option<Millis>, now: Millis)
    ensures var o := RateLimited(d, a, retry, now);
            && (o.reply.Ok? <==> a in d.accounts) && (!o.reply.Ok? ==> o.reply == Refused(NotFound) && o.db == d)
            && (o.reply.Ok? ==>
                  && a in o.db.accounts
                  && var account, until := d.accounts[a], o.db.accounts[a].cooldownUntil;
                     var asked := if retry.Some? then retry.value else Clamp(now + 300_000);
                  && until in {account.cooldownUntil, now, asked} && until >= account.cooldownUntil && until >= now && until >= asked
                  && o.db == d.(events := o.db.events, accounts := d.accounts[a := account.(
                       rateLimits := account.rateLimits + 1, cooldownUntil := until,
                       readiness := if account.rateLimits == 0 then Cooldown else OnHold)])
                  && LoggedFor(d, o.db, AtWork(d, a), AccountRateLimited, now))
  {
    hide LoggedFor, NoteRateLimit, ActiveRunIds;
    if a in d.accounts {
      var e := SetAccount(d, a, d.accounts[a].(rateLimits := d.accounts[a].rateLimits + 1,
                                               cooldownUntil := Max(d.accounts[a].cooldownUntil, RetryAt(retry, now)),
                                               readiness := if d.accounts[a].rateLimits >= 1 then OnHold else Cooldown));
      var ids := ActiveRunIds(d, a);
      ActiveRunIdsAre(d, a);
      NotedRows(e, ids, now);
      SameLog(e, d, NoteRateLimit(e, ids, now), Members(ids), AccountRateLimited, now);
      assert Members(ids) == AtWork(d, a);
    }
  }

  /** A run whose login has come back is served like any other. */
  lemma BackToWork(d: Db, a: Id, identity: Identity, now: Millis, operator: bool, r: Id, later: Millis)
    requires VerifyAccount(d, a, identity, now, operator).reply.Ok? && r in d.runs && r in AwaitingLogin(d, a, now)
    requires now <= later < d.runs[r].deadline && d.runs[r].submissions < d.runs[r].limit && exists i: nat :: CanStart(d.runs[r], i)
    requires AccountFree(VerifyAccount(d, a, identity, now, operator).db, a, later)
    ensures var e := VerifyAccount(d, a, identity, now, operator).db; r in e.runs && Servable(e, r, later)
  {
    hide VerifyAccount, AccountFree, MayVerify, Belongs, Unbound, LoggedFor;
    VerifyEffect(d, a, identity, now, operator);
    var e := VerifyAccount(d, a, identity, now, operator).db;
    var i: nat :| CanStart(d.runs[r], i);
    assert CanStart(e.runs[r], i);
  }

  // ---------- confirm ----------

  /** What the operator confirms is what was observed in the browser at most thirty seconds ago. */
  predicate MayConfirm(d: Db, a: Id, identity: Identity, model: ModelSelection, now: Millis) {
    && a in d.accounts && a in d.sessions && d.accounts[a].cooldownUntil <= now
    && var session := d.sessions[a];
    && (session.lifecycle.Verifying? || session.lifecycle.SessionReady?)
    && session.observed.Some? && now - 30_000 <= session.observed.value <= now && session.observation.Some?
    && var seen := session.observation.value;
    && seen.identity.id == identity.id && EqIgnoreCase(seen.identity.email, identity.email)
    && (model.Specific? ==> model.name == seen.model || model.name in seen.available)
    && Belongs(d.accounts[a], seen.identity) && Unbound(d, a, seen.identity.id)
  }

  lemma ConfirmEffect(d: Db, a: Id, identity: Identity, model: ModelSelection, now: Millis)
    ensures var o := ConfirmAccount(d, a, identity, model, now);
            && (o.reply.Ok? <==> MayConfirm(d, a, identity, model, now))
            && (!o.reply.Ok? ==> o.reply.Refused? && o.db == d)
            && (a in d.accounts && a in d.sessions && d.accounts[a].cooldownUntil > now && o.reply.Refused? ==>
                  o.reply.code in {VerificationExpired, InvalidTransition, ModelUnavailable, AccountCoolingDown})
            && (a !in d.sessions ==> o.reply == Refused(NotFound))
            && (a in d.sessions ==>
                  (o.reply == Refused(VerificationExpired) <==>
                     || !(d.sessions[a].lifecycle.Verifying? || d.sessions[a].lifecycle.SessionReady?)
                     || d.sessions[a].observed.None?
                     || !(now - 30_000 <= d.sessions[a].observed.value <= now)))
            && (o.reply.Ok? ==>
                  && LoginBack(d, o.db, a, now)
                  && o.db == d.(runs := o.db.runs, events := o.db.events,
                                accounts := d.accounts[a := d.accounts[a].(
                                  provider := Some(identity.id), readiness := Ready, cooldownUntil := 0, rateLimits := 0)],
                                sessions := d.sessions[a := d.sessions[a].(
                                  model := Some(model), lifecycle := SessionReady, error := None, loginExpires := None)]))
  {
    hide Confirms, Belongs, LoginBack, RequeueAll, RunIds, EqIgnoreCase;
    if a in d.accounts && a in d.sessions && d.sessions[a].observation.Some? {
      var seen := d.sessions[a].observation.value;
      BelongsIff(d.accounts[a], seen.identity);
      var e := SetAccount(d, a, d.accounts[a].(provider := Some(seen.identity.id), readiness := Ready, cooldownUntil := 0, rateLimits := 0));
      BackRows(d, SetSession(e, a, d.sessions[a].(model := Some(model), lifecycle := SessionReady, error := None, loginExpires := None)),
               a, now);
    }
  }

  // ---------- register, login_state, observe ----------

  /** A registration is taken when the account is new with an e-mail and identity nobody else has, or is there already with
      the same ones. */
  lemma RegisterEffect(d: Db, a: Id, email: string, provider: Option<string>, verified: bool, capacity: nat, placed: bool)
    ensures var o := Register(d, a, email, provider, verified, capacity, placed);
            && (o.reply.Ok? <==>
                  && Filled(email) && capacity >= 1 && placed
                  && if a in d.accounts then EqIgnoreCase(d.accounts[a].email, email) && d.accounts[a].provider == provider
                     else && (forall b | b in d.accounts :: !EqIgnoreCase(d.accounts[b].email, email))
                          && (provider.Some? ==> Unbound(d, a, provider.value)))
            && (!o.reply.Ok? ==> o.reply.Refused? && o.db == d)
            && (o.reply.Refused? ==>
                  o.reply.code == if !Filled(email) || capacity == 0 || !placed then AccountInvalid
                                  else if a in d.accounts then IdentityConflict else StorageError)
            && (o.reply.Ok? && a in d.accounts ==> o.db == d)
            && (o.reply.Ok? && a !in d.accounts ==>
                  o.db == d.(accounts := d.accounts[a := Account(email, provider, capacity,
                                                                 if verified && provider.Some? then Ready else LoginRequired, 0, 0, 0, 0)],
                             sessions := d.sessions[a := Session(Disconnected, None, None, None, None, None)]))
  {
    FilledIff(email);
    hide Filled, Blank, EqIgnoreCase;
  }

  lemma LoginStateEffect(d: Db, a: Id, state: Lifecycle, error: Option<Code>, expires: Option<Millis>)
    ensures var o := LoginState(d, a, state, error, expires);
            && (o.reply.Ok? <==> a in d.sessions && (d.sessions[a].lifecycle.SessionCancelled? ==> state.Starting? || state.SessionCancelled?))
            && (!o.reply.Ok? ==> o.reply == Refused(if a in d.sessions then LoginCancelled else NotFound) && o.db == d)
            && (o.reply.Ok? ==>
                  o.db == d.(sessions := d.sessions[a := Session(
                    state, d.sessions[a].model, if state.Starting? then None else d.sessions[a].observation,
                    if state.Starting? then None else d.sessions[a].observed, expires, error)]))
  {
  }

  /** An observation is kept when it belongs to the account and is of sane size; the reply tells whether the account was
      bound to an identity before. */
  lemma ObserveEffect(d: Db, a: Id, o: Observation, now: Millis)
    requires Valid(d)
    ensures var out := ObserveAccount(d, a, o, now);
            && (out.reply.Flag? <==>
                  && a in d.accounts && Belongs(d.accounts[a], o.identity) && Filled(o.model) && |o.available| <= 100
                  && forall i | 0 <= i < |o.available| :: Utf8Length(o.available[i]) <= 200)
            && (!out.reply.Flag? ==> out.reply.Refused? && out.db == d)
            && (out.reply.Refused? ==>
                  out.reply.code == if a !in d.accounts then NotFound
                                    else if !Belongs(d.accounts[a], o.identity) then IdentityMismatch else InvalidTransition)
            && (out.reply.Flag? ==>
                  && a in d.sessions && out.reply.value == d.accounts[a].provider.Some?
                  && out.db == d.(sessions := d.sessions[a := d.sessions[a].(observation := Some(o), observed := Some(now), error := None)]))
  {
    hide Valid, Filled, Blank, Confirms, Belongs;
    AccountHasSession(d, a);
    FilledIff(o.model);
    if a in d.accounts { BelongsIff(d.accounts[a], o.identity); }
  }

  lemma AccountHasSession(d: Db, a: Id)
    requires Valid(d)
    ensures a in d.accounts <==> a in d.sessions
  {
  }
}
