/** The transactions of accounts.rs and account_sessions.rs in crates/jailgun-workflow/src. */
module Accounts {
  import opened Text
  import opened Tables
  import opened Ordering
  import opened Scheduler

  // ---------- Registration ----------

  predicate EmailUsed(db: Db, email: string) {
    exists a | a in db.accounts :: EqIgnoreCase(db.accounts[a].email, email)
  }

  /** Another account is already bound to this provider identity. */
  predicate ProviderTaken(db: Db, a: Id, provider: string) {
    exists b | b in db.accounts :: b != a && db.accounts[b].provider == Some(provider)
  }

  /** `placed` is the verdict of the profile, port and name checks. */
  function Register(db: Db, a: Id, email: string, provider: Option<string>, verified: bool, capacity: nat,
      placed: bool): Outcome {
    if Blank(email) || capacity == 0 || !placed then Refuse(db, AccountInvalid)
    else if a in db.accounts then
      if EqIgnoreCase(db.accounts[a].email, email) && db.accounts[a].provider == provider then Outcome(db, Ok)
      else Refuse(db, IdentityConflict)
    else if EmailUsed(db, email) || (provider.Some? && ProviderTaken(db, a, provider.value)) then Refuse(db, StorageError)
    else
      var readiness := if verified && provider.Some? then Ready else LoginRequired;
      Outcome(
        db.(accounts := db.accounts[a := Account(email, provider, capacity, readiness, 0, 0, 0, 0)],
            sessions := db.sessions[a := Session(Disconnected, None, None, None, None, None)]),
        Ok)
  }

  // ---------- Runs of one account ----------

  function RunIds(db: Db, a: Id, status: RunStatus): (ids: seq<Id>)
    ensures forall i | 0 <= i < |ids| ::
              ids[i] in db.runs && db.runs[ids[i]].request.account == a && db.runs[ids[i]].status == status
  {
    var keys := Sorted(set r | r in db.runs && db.runs[r].request.account == a && db.runs[r].status == status ::
                         Key(0, db.runs[r].created, r));
    assert forall i | 0 <= i < |keys| :: keys[i] in keys;
    Ids(keys)
  }

  function ActiveRunIds(db: Db, a: Id): (ids: seq<Id>)
    ensures forall i | 0 <= i < |ids| ::
              ids[i] in db.runs && db.runs[ids[i]].request.account == a && Waiting(db.runs[ids[i]].status)
  {
    RunIds(db, a, Running) + RunIds(db, a, Queued)
  }

  function AwaitLogin(db: Db, r: Id, reason: Code, now: Millis): Db
    requires r in db.runs
  {
    Log(SetRun(db, r, db.runs[r].(status := WaitingForAuth, pauseReason := Some(reason))), r, AccountLoginRequired, now)
  }

  function AwaitLoginAll(db: Db, ids: seq<Id>, reason: Code, now: Millis): (d: Db)
    requires forall i | 0 <= i < |ids| :: ids[i] in db.runs
    ensures d.runs.Keys == db.runs.Keys
  {
    if ids == [] then db
    else AwaitLogin(AwaitLoginAll(db, ids[..|ids| - 1], reason, now), ids[|ids| - 1], reason, now)
  }

  /** A run waiting for a login goes back to the queue unless its deadline has passed. */
  function Requeued(db: Db, r: Id, now: Millis): Db
    requires r in db.runs
  {
    if db.runs[r].deadline > now
    then Log(SetRun(db, r, db.runs[r].(status := Queued, pauseReason := None)), r, AccountVerified, now)
    else db
  }

  function RequeueAll(db: Db, ids: seq<Id>, now: Millis): (d: Db)
    requires forall i | 0 <= i < |ids| :: ids[i] in db.runs
    ensures d.runs.Keys == db.runs.Keys
  {
    if ids == [] then db
    else Requeued(RequeueAll(db, ids[..|ids| - 1], now), ids[|ids| - 1], now)
  }

  function NoteRateLimit(db: Db, ids: seq<Id>, now: Millis): (d: Db)
    ensures d == db.(events := d.events)
  {
    if ids == [] then db
    else Log(NoteRateLimit(db, ids[..|ids| - 1], now), ids[|ids| - 1], AccountRateLimited, now)
  }

  // ---------- Readiness ----------

  /** `confirm_identity`: a named identity with this account's e-mail and, once bound, the bound provider. */
  predicate Confirms(account: Account, identity: Identity) {
    && !Blank(identity.id) && EqIgnoreCase(account.email, Trim(identity.email))
    && (account.provider.None? || account.provider.value == identity.id)
  }

  function SetAccount(db: Db, a: Id, account: Account): Db {
    db.(accounts := db.accounts[a := account])
  }

  function VerifyAccount(db: Db, a: Id, identity: Identity, now: Millis, operator: bool): Outcome {
    if a !in db.accounts then Refuse(db, NotFound)
    else if a !in db.sessions then Refuse(db, StorageError)
    else if db.sessions[a].lifecycle.SessionCancelled? then Refuse(db, LoginCancelled)
    else
      var account := db.accounts[a];
      if now < account.cooldownUntil || (account.readiness.OnHold? && !operator) then Refuse(db, AccountCoolingDown)
      else if !Confirms(account, identity) then
        // This refusal commits: the account is marked and its runs wait for a login.
        Refuse(AwaitLoginAll(SetAccount(db, a, account.(readiness := Mismatch)), ActiveRunIds(db, a), IdentityMismatch, now), IdentityMismatch)
      else if ProviderTaken(db, a, identity.id) then Refuse(db, StorageError)
      else
        var ready := account.(provider := Some(identity.id), readiness := Ready, cooldownUntil := 0,
                              rateLimits := if operator then 0 else account.rateLimits);
        Outcome(RequeueAll(SetAccount(db, a, ready), RunIds(db, a, WaitingForAuth), now), Ok)
  }

  function AccountLoginExpired(db: Db, a: Id, now: Millis): Outcome {
    if a !in db.accounts then Refuse(db, NotFound)
    else
      Outcome(AwaitLoginAll(SetAccount(db, a, db.accounts[a].(readiness := Expired)), ActiveRunIds(db, a), AuthenticationExpired, now), Ok)
  }

  /** The cooldown a rate limit asks for: its retry time, or five minutes, and never the past. */
  function RetryAt(retry: Option<Millis>, now: Millis): Millis {
    Max(if retry.Some? then retry.value else SatAdd(now, RATE_LIMIT_MS), now)
  }

  function RateLimited(db: Db, a: Id, retry: Option<Millis>, now: Millis): Outcome {
    if a !in db.accounts then Refuse(db, NotFound)
    else
      var account := db.accounts[a];
      var limited := account.(rateLimits := account.rateLimits + 1,
                              cooldownUntil := Max(account.cooldownUntil, RetryAt(retry, now)),
                              readiness := if account.rateLimits >= 1 then OnHold else Cooldown);
      Outcome(NoteRateLimit(SetAccount(db, a, limited), ActiveRunIds(db, a), now), Ok)
  }

  // ---------- Login sessions ----------

  function SetSession(db: Db, a: Id, session: Session): Db {
    db.(sessions := db.sessions[a := session])
  }

  function LoginState(db: Db, a: Id, state: Lifecycle, error: Option<Code>, expires: Option<Millis>): Outcome {
    if a !in db.sessions then Refuse(db, NotFound)
    else
      var session := db.sessions[a];
      if session.lifecycle.SessionCancelled? && !(state.Starting? || state.SessionCancelled?) then Refuse(db, LoginCancelled)
      else
        var moved := session.(lifecycle := state, error := error, loginExpires := expires);
        Outcome(SetSession(db, a, if state.Starting? then moved.(observation := None, observed := None) else moved), Ok)
  }

  predicate ObservationOk(o: Observation) {
    !Blank(o.model) && |o.available| <= 100 && forall i | 0 <= i < |o.available| :: Utf8Length(o.available[i]) <= 200
  }

  function ObserveAccount(db: Db, a: Id, o: Observation, now: Millis): Outcome {
    if a !in db.accounts then Refuse(db, NotFound)
    else if !Confirms(db.accounts[a], o.identity) then Refuse(db, IdentityMismatch)
    else if !ObservationOk(o) then Refuse(db, InvalidTransition)
    else
      var seen := if a in db.sessions
                  then SetSession(db, a, db.sessions[a].(observation := Some(o), observed := Some(now), error := None))
                  else db;
      Outcome(seen, Flag(db.accounts[a].provider.Some?))
  }

  /** The session shows an identity observed at most thirty seconds ago. */
  predicate RecentlyObserved(session: Session, now: Millis) {
    && (session.lifecycle.Verifying? || session.lifecycle.SessionReady?)
    && session.observed.Some? && session.observed.value <= now && now - session.observed.value <= OBSERVATION_MS
  }

  function ConfirmAccount(db: Db, a: Id, identity: Identity, model: ModelSelection, now: Millis): Outcome {
    if a !in db.sessions then Refuse(db, NotFound)
    else
      var session := db.sessions[a];
      if !RecentlyObserved(session, now) then Refuse(db, VerificationExpired)
      else if session.observation.None? then Refuse(db, InvalidTransition)
      else
        var o := session.observation.value;
        if o.identity.id != identity.id || !EqIgnoreCase(o.identity.email, identity.email) then Refuse(db, InvalidTransition)
        else if model.Specific? && model.name != o.model && model.name !in o.available then Refuse(db, ModelUnavailable)
        else if a !in db.accounts then Refuse(db, StorageError)
        else
          var account := db.accounts[a];
          if now < account.cooldownUntil then Refuse(db, AccountCoolingDown)
          else if !Confirms(account, o.identity) then Refuse(db, InvalidTransition)
          else if ProviderTaken(db, a, o.identity.id) then Refuse(db, StorageError)
          else
            var ready := account.(provider := Some(o.identity.id), readiness := Ready, cooldownUntil := 0, rateLimits := 0);
            var confirmed := session.(model := Some(model), lifecycle := SessionReady, error := None, loginExpires := None);
            Outcome(RequeueAll(SetSession(SetAccount(db, a, ready), a, confirmed), RunIds(db, a, WaitingForAuth), now), Ok)
  }
}
