/** Sequences of transactions: the single writer thread applies them one after another. */
module Histories {
  import opened Text
  import opened Tables
  import opened Scheduler
  import opened Runs
  import opened Accounts
  import opened Recovery
  import opened Artifacts
  import opened Invariant
  import opened Operations
  import opened CaptureOperations
  import opened RecoveryOperations

  /** One call of the store, with the clock, the jitter and the identifiers drawn for it. */
  datatype Command =
    | DoRegister(a: Id, email: string, provider: Option<string>, verified: bool, capacity: nat, placed: bool)
    | DoSubmit(q: Request, model: Option<ModelSelection>, r: Id)
    | DoClaim(jitter: int, x: Id)
    | DoBegin(lease: Lease)
    | DoAccept(lease: Lease, turn: Turn, valid: bool)
    | DoFail(lease: Lease, code: Code, disposition: Disposition)
    | DoCapture(lease: Lease, capture: Capture, release: bool, draws: Draws)
    | DoAcknowledge(lease: Lease)
    | DoSuspend(r: Id, reason: Code)
    | DoResume(r: Id, allowIncomplete: bool)
    | DoCancel(r: Id)
    | DoRecover
    | DoResumeReattached(r: Id, attached: set<AttemptId>)
    | DoReattach(lease: Lease, conversation: string)
    | DoVerify(a: Id, identity: Identity, operator: bool)
    | DoConfirm(a: Id, identity: Identity, choice: ModelSelection)
    | DoExpire(a: Id)
    | DoRateLimit(a: Id, retry: Option<Millis>)
    | DoLoginState(a: Id, state: Lifecycle, error: Option<Code>, expires: Option<Millis>)
    | DoObserve(a: Id, observation: Observation)

  datatype Step = Step(command: Command, now: Millis)

  ghost function Apply(db: Db, s: Step): Outcome
  {
    match s.command
    case DoRegister(a, email, provider, verified, capacity, placed) => Register(db, a, email, provider, verified, capacity, placed)
    case DoSubmit(q, model, r) => Submit(db, q, model, s.now, r)
    case DoClaim(jitter, x) => Claim(db, s.now, jitter, x)
    case DoBegin(lease) => BeginSubmission(db, lease, s.now)
    case DoAccept(lease, turn, valid) => Accept(db, lease, turn, valid, s.now)
    case DoFail(lease, code, disposition) => FailAttempt(db, lease, code, disposition, s.now)
    case DoCapture(lease, capture, release, draws) => StoreCapture(db, lease, capture, s.now, release, draws)
    case DoAcknowledge(lease) => AcknowledgeCancel(db, lease, s.now)
    case DoSuspend(r, reason) => Suspend(db, r, reason, s.now)
    case DoResume(r, allowIncomplete) => Resume(db, r, allowIncomplete, s.now)
    case DoCancel(r) => Cancel(db, r, s.now)
    case DoRecover => if ForeignKeys(db) then Recover(db, s.now) else Refuse(db, StorageError)  // the keys hold in every reachable state
    case DoResumeReattached(r, attached) => ResumeReattached(db, r, attached, s.now)
    case DoReattach(lease, conversation) => Reattach(db, lease, conversation, s.now)
    case DoVerify(a, identity, operator) => VerifyAccount(db, a, identity, s.now, operator)
    case DoConfirm(a, identity, choice) => ConfirmAccount(db, a, identity, choice, s.now)
    case DoExpire(a) => AccountLoginExpired(db, a, s.now)
    case DoRateLimit(a, retry) => RateLimited(db, a, retry, s.now)
    case DoLoginState(a, state, error, expires) => LoginState(db, a, state, error, expires)
    case DoObserve(a, observation) => ObserveAccount(db, a, observation, s.now)
  }

  /** Every operation, whatever its arguments and outcome, keeps the invariant and moves rows only forward. */
  lemma ApplyKeeps(d: Db, s: Step)
    requires Valid(d)
    ensures Valid(Apply(d, s).db) && Evolves(d, Apply(d, s).db)
  {
    hide Valid, Evolves, ForeignKeys, Claim, Submit, Register, BeginSubmission, Accept, FailAttempt, StoreCapture, AcknowledgeCancel,
      Suspend, Resume, Cancel, Recover, ResumeReattached, Reattach, VerifyAccount, ConfirmAccount, AccountLoginExpired, RateLimited,
      LoginState, ObserveAccount;
    ValidForeignKeys(d);
    match s.command
    case DoRegister(a, email, provider, verified, capacity, placed) => RegisterKeeps(d, a, email, provider, verified, capacity, placed);
    case DoSubmit(q, model, r) => SubmitKeeps(d, q, model, s.now, r);
    case DoClaim(jitter, x) => ClaimKeeps(d, s.now, jitter, x);
    case DoBegin(lease) => BeginSubmissionKeeps(d, lease, s.now);
    case DoAccept(lease, turn, valid) => AcceptKeeps(d, lease, turn, valid, s.now);
    case DoFail(lease, code, disposition) => FailAttemptKeeps(d, lease, code, disposition, s.now);
    case DoCapture(lease, capture, release, draws) => StoreCaptureKeeps(d, lease, capture, s.now, release, draws);
    case DoAcknowledge(lease) => AcknowledgeCancelKeeps(d, lease, s.now);
    case DoSuspend(r, reason) => SuspendKeeps(d, r, reason, s.now);
    case DoResume(r, allowIncomplete) => ResumeKeeps(d, r, allowIncomplete, s.now);
    case DoCancel(r) => CancelKeeps(d, r, s.now);
    case DoRecover => RecoverKeeps(d, s.now);
    case DoResumeReattached(r, attached) => ResumeReattachedKeeps(d, r, attached, s.now);
    case DoReattach(lease, conversation) => ReattachKeeps(d, lease, conversation, s.now);
    case DoVerify(a, identity, operator) => VerifyAccountKeeps(d, a, identity, s.now, operator);
    case DoConfirm(a, identity, choice) => ConfirmAccountKeeps(d, a, identity, choice, s.now);
    case DoExpire(a) => AccountLoginExpiredKeeps(d, a, s.now);
    case DoRateLimit(a, retry) => RateLimitedKeeps(d, a, retry, s.now);
    case DoLoginState(a, state, error, expires) => LoginStateKeeps(d, a, state, error, expires);
    case DoObserve(a, observation) => ObserveAccountKeeps(d, a, observation, s.now);
  }

  lemma EmptyIsValid()
    ensures Valid(EMPTY)
  {
    assert forall a | a in EMPTY.accounts :: |Scheduler.Held(EMPTY.reservations, a)| <= Min(EMPTY.accounts[a].capacity, MAX_SLOTS);
  }

  /** A history: `states[0]` is empty and every step is one transaction. */
  ghost predicate History(states: seq<Db>, steps: seq<Step>) {
    && |states| == |steps| + 1 && states[0] == EMPTY
    && forall i | 0 <= i < |steps| :: states[i + 1] == Apply(states[i], steps[i]).db
  }

  /** One more transaction. */
  lemma Extends(states: seq<Db>, steps: seq<Step>, s: Step)
    requires History(states, steps)
    ensures |states| == |steps| + 1 && History(states + [Apply(states[|steps|], s).db], steps + [s])
  {
    hide Apply;
  }

  ghost predicate Reachable(db: Db) {
    exists states, steps :: History(states, steps) && states[|steps|] == db
  }

  /** The invariant holds throughout every history. */
  lemma {:induction false} HistoryIsValid(states: seq<Db>, steps: seq<Step>, i: nat)
    requires History(states, steps) && i <= |steps|
    ensures Valid(states[i])
  {
    hide Valid, Evolves, Apply, ForeignKeys;
    if i == 0 {
      EmptyIsValid();
    } else {
      HistoryIsValid(states, steps, i - 1);
      ApplyKeeps(states[i - 1], steps[i - 1]);
    }
  }

  lemma ReachableIsValid(db: Db)
    requires Reachable(db)
    ensures Valid(db)
  {
    hide Valid;
    var states, steps :| History(states, steps) && states[|steps|] == db;
    HistoryIsValid(states, steps, |steps|);
  }

  /** Whatever happens in between, rows only move forward. */
  lemma {:induction false} HistoryEvolves(states: seq<Db>, steps: seq<Step>, i: nat, j: nat)
    requires History(states, steps) && i <= j <= |steps|
    ensures Evolves(states[i], states[j])
  {
    hide Valid, Evolves, Apply, ForeignKeys;
    if i == j {
      Reflexive(states[i]);
    } else {
      HistoryEvolves(states, steps, i, j - 1);
      HistoryIsValid(states, steps, j - 1);
      ApplyKeeps(states[j - 1], steps[j - 1]);
      EvolvesTrans(states[i], states[j - 1], states[j]);
    }
  }
}
