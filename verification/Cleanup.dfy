/** Preserving a remote checkout before resetting it (crates/jailgun-deploy/src/cleanup.rs). */
module Cleanup {
  import opened Text

  // ---------- Requests, snapshots, receipts ----------

  datatype Policy = Block | Adopt | PreserveReset
  datatype Outcome = AlreadySynced | PreservedReset | Adopted

  datatype Snapshot = Snapshot(head: Option<string>, originMain: Option<string>, status: string)

  predicate Clean(status: string) { Blank(status) }

  datatype Request = Request(
    runId: string, tab: Option<nat>, host: string, directory: string, policy: Policy, receipts: string)

  datatype Receipt = Receipt(
    request: Request, outcome: Outcome, timestamp: string, initialHead: Option<string>, initialOrigin: Option<string>,
    preservedRef: Option<string>, preservedSha: Option<string>, resetTo: Option<string>,
    finalHead: Option<string>, finalStatus: string, path: string)

  datatype CleanupError =
    | DirtyRemote(status: string) | MissingHead | MissingOriginMain | DivergentBlocked(head: string, origin: string)
    | PreserveRef | ReceiptFailed | ResetFailed | FetchFailed | Backend

  datatype Result = Done(receipt: Receipt) | Failed(error: CleanupError)

  // ---------- Names ----------

  predicate SafeChar(c: char) { '0' <= c <= '9' || 'A' <= c <= 'Z' || 'a' <= c <= 'z' || c == '-' || c == '_' }

  function Dashed(value: string): (s: string)
    ensures |s| == |value| && forall i | 0 <= i < |s| :: s[i] == if SafeChar(value[i]) then value[i] else '-'
  {
    seq(|value|, i requires 0 <= i < |value| => if SafeChar(value[i]) then value[i] else '-')
  }

  function TrimDashes(s: string): (r: string)
    ensures forall i | 0 <= i < |r| :: r[i] in s
    ensures r != "" ==> r[0] != '-' && r[|r| - 1] != '-'
    ensures s == "" || (s[0] != '-' && s[|s| - 1] != '-') ==> r == s
  {
    if s == "" then ""
    else if s[0] == '-' then TrimDashes(s[1..])
    else if s[|s| - 1] == '-' then TrimDashes(s[..|s| - 1])
    else s
  }

  /** A fragment that is safe inside a reference name and a file name. */
  function Sanitize(value: string): (r: string)
    ensures r != "" && r[0] != '-' && r[|r| - 1] != '-'
    ensures forall i | 0 <= i < |r| :: SafeChar(r[i])
  {
    var fragment := TrimDashes(Dashed(value));
    if fragment == "" then "unknown" else fragment
  }

  function Decimal(n: nat): string {
    if n < 10 then [('0' as int + n) as char] else Decimal(n / 10) + [('0' as int + n % 10) as char]
  }

  function ReceiptFile(request: Request, timestamp: string): string {
    var tab := if request.tab.Some? then "tab-" + Decimal(request.tab.value) else "no-tab";
    Sanitize(request.runId) + "-" + tab + "-" + Sanitize(timestamp) + "-remote-cleanup.json"
  }

  function ReceiptPath(request: Request, timestamp: string): string {
    request.receipts + "/" + Sanitize(request.runId) + "/" + ReceiptFile(request, timestamp)
  }

  function Dotless(c: char): char { if c == ':' || c == '.' then '-' else c }

  function RefLeaf(runId: string, timestamp: string): string {
    Sanitize(runId) + "-" + seq(|timestamp|, i requires 0 <= i < |timestamp| => Dotless(timestamp[i]))
  }

  function RefName(runId: string, timestamp: string): string { "refs/heads/jailgun-preserved/" + RefLeaf(runId, timestamp) }

  function BaseReceipt(request: Request, outcome: Outcome, initial: Snapshot, timestamp: string): Receipt {
    Receipt(request, outcome, timestamp, initial.head, initial.originMain, None, None, None, None, "", ReceiptPath(request, timestamp))
  }

  predicate Safe(s: string) { forall i | 0 <= i < |s| :: SafeChar(s[i]) || s[i] == '.' }

  predicate Leaf(s: string) { s != "" && s[0] != '-' && Safe(s) }

  lemma SafeJoin(a: string, b: string)
    requires Safe(a) && Safe(b)
    ensures Safe(a + b)
  {
    hide SafeChar;
  }

  /** Below its own prefix, the reference has characters a branch may have, when the timestamp has. */
  lemma RefLeafIsSafe(runId: string, timestamp: string)
    requires forall i | 0 <= i < |timestamp| :: SafeChar(timestamp[i]) || timestamp[i] == ':' || timestamp[i] == '.'
    ensures Leaf(RefLeaf(runId, timestamp)) && '.' !in RefLeaf(runId, timestamp)
  {
    var stamp := seq(|timestamp|, i requires 0 <= i < |timestamp| => Dotless(timestamp[i]));
    assert Safe(stamp) && '.' !in stamp;
    hide Safe;
    assert Safe(Sanitize(runId)) && '.' !in Sanitize(runId) by { SanitizedIsSafe(runId); }
    assert Safe("-") by { DashesAreSafe(); }
    SafeJoin(Sanitize(runId), "-");
    SafeJoin(Sanitize(runId) + "-", stamp);
  }

  lemma SanitizedIsSafe(value: string)
    ensures Safe(Sanitize(value)) && '.' !in Sanitize(value)
  {
    hide Sanitize;
  }

  lemma DashesAreSafe()
    ensures Safe("-") && Safe("tab-") && Safe("no-tab") && Safe("-remote-cleanup.json")
  {
  }

  lemma {:induction false} DecimalIsSafe(n: nat)
    ensures Safe(Decimal(n))
  {
    if n >= 10 { DecimalIsSafe(n / 10); }
  }

  /** The receipt is a plain file below the directory of its run, whatever the run and the timestamp hold. */
  lemma ReceiptFileIsSafe(request: Request, timestamp: string)
    ensures Leaf(Sanitize(request.runId)) && Leaf(ReceiptFile(request, timestamp))
  {
    hide Safe, Sanitize, Decimal;
    var run := Sanitize(request.runId);
    var tab := if request.tab.Some? then "tab-" + Decimal(request.tab.value) else "no-tab";
    DashesAreSafe();
    SanitizedIsSafe(request.runId);
    SanitizedIsSafe(timestamp);
    if request.tab.Some? {
      DecimalIsSafe(request.tab.value);
      SafeJoin("tab-", Decimal(request.tab.value));
    }
    SafeJoin(run, "-");
    SafeJoin(run + "-", tab);
    SafeJoin(run + "-" + tab, "-");
    SafeJoin(run + "-" + tab + "-", Sanitize(timestamp));
    SafeJoin(run + "-" + tab + "-" + Sanitize(timestamp), "-remote-cleanup.json");
  }

  // ---------- The remote side ----------

  /** HEAD is on a branch or names a commit itself. */
  datatype Head = OnBranch(name: string) | Detached(commit: string)

  /** A checkout that others change at any time. */
  datatype Checkout = Checkout(head: Head, originMain: Option<string>, status: string, refs: map<string, string>)

  /** The commit of HEAD; a branch without a commit has none. */
  function HeadCommit(c: Checkout): Option<string> {
    match c.head
    case Detached(commit) => Some(commit)
    case OnBranch(name) => if name in c.refs then Some(c.refs[name]) else None
  }

  /** `git reset --hard`: the branch HEAD is on moves, or HEAD itself. */
  function Moved(c: Checkout, target: string): (m: Checkout)
    ensures HeadCommit(m) == Some(target)
    ensures forall name | name in c.refs && c.head != OnBranch(name) :: name in m.refs && m.refs[name] == c.refs[name]
  {
    match c.head
    case Detached(_) => c.(head := Detached(target))
    case OnBranch(name) => c.(refs := c.refs[name := target])
  }

  predicate Holds(c: Checkout, name: string, sha: string) { name in c.refs && c.refs[name] == sha }

  datatype Answer = Good(value: Snapshot) | Bad(error: CleanupError)

  /** What was called, what it met, and what it answered: nothing when it went well, or the error of the backend. */
  datatype Call =
    | Looked(answer: Answer)
    | Created(name: string, sha: string, error: Option<CleanupError>)
    | Wrote(receipt: Receipt, error: Option<CleanupError>)
    | Fetched(error: Option<CleanupError>)
    | ResetTo(expected: string, name: string, target: string, before: Checkout, after: Checkout, error: Option<CleanupError>)

  /** The remote checkout. Before every call it is in whatever state others have put it, and any call may fail with any
      error, before its work or after it: `world`, `broken` and `worked` are the adversary's choices. */
  class Remote {
    const world: nat -> Checkout
    const broken: nat -> Option<CleanupError>
    const worked: nat -> bool
    var checkout: Checkout
    var step: nat
    ghost var calls: seq<Call>

    constructor (world: nat -> Checkout, broken: nat -> Option<CleanupError>, worked: nat -> bool)
      ensures calls == []
    {
      this.world, this.broken, this.worked := world, broken, worked;
      checkout, step, calls := world(0), 0, [];
    }

    method Arrive() returns (error: Option<CleanupError>, works: bool)
      modifies this`checkout, this`step
      ensures error.None? ==> works
    {
      checkout := world(step);
      error := broken(step);
      works := error.None? || worked(step);
      step := step + 1;
    }

    method Look() returns (answer: Answer)
      modifies this
      ensures calls == old(calls) + [Looked(answer)]
    {
      var error, works := Arrive();
      answer := if error.None? then Good(Snapshot(HeadCommit(checkout), checkout.originMain, checkout.status)) else Bad(error.value);
      calls := calls + [Looked(answer)];
    }

    /** Creates the reference; it must not exist yet. */
    method CreateRef(name: string, sha: string) returns (error: Option<CleanupError>)
      modifies this
      ensures calls == old(calls) + [Created(name, sha, error)]
    {
      var works;
      error, works := Arrive();
      if name in checkout.refs {
        error := if error.None? then Some(Backend) else error;
      } else if works {
        checkout := checkout.(refs := checkout.refs[name := sha]);
      }
      calls := calls + [Created(name, sha, error)];
    }

    method WriteReceipt(receipt: Receipt) returns (error: Option<CleanupError>)
      modifies this
      ensures calls == old(calls) + [Wrote(receipt, error)]
    {
      var works;
      error, works := Arrive();
      calls := calls + [Wrote(receipt, error)];
    }

    method Fetch() returns (error: Option<CleanupError>)
      modifies this
      ensures calls == old(calls) + [Fetched(error)]
    {
      var works;
      error, works := Arrive();
      calls := calls + [Fetched(error)];
    }

    /** The guarded reset: it rechecks HEAD, the reference, the target and the status under the mutation lock, and moves
        HEAD only then. It may still fail to work, or lose its answer. */
    method ResetPreserved(expected: string, name: string, target: string) returns (error: Option<CleanupError>)
      modifies this
      ensures |calls| == |old(calls)| + 1 && calls[..|old(calls)|] == old(calls)
      ensures var call := calls[|old(calls)|];
              && call.ResetTo? && call.expected == expected && call.name == name && call.target == target && call.error == error
              && Guarded(call)
    {
      var works;
      error, works := Arrive();
      var before := checkout;
      var held := HeadCommit(before) == Some(expected) && Holds(before, name, expected)
                  && before.originMain == Some(target) && before.status == "";
      if held && works {
        checkout := Moved(before, target);
      } else if error.None? {
        error := Some(Backend);
      }
      calls := calls + [ResetTo(expected, name, target, before, checkout, error)];
    }
  }

  /** The reset took place. */
  predicate TookPlace(call: Call)
    requires call.ResetTo?
  {
    call.error.None? || call.after != call.before
  }

  /** A reset that takes place meets the old HEAD under its reference and nothing uncommitted, ends at its target, and
      leaves the old HEAD under the reference exactly when HEAD was not on that reference (or had nowhere to move). */
  predicate Guarded(call: Call)
    requires call.ResetTo?
  {
    TookPlace(call) ==>
      && HeadCommit(call.before) == Some(call.expected) && call.before.status == ""
      && Holds(call.before, call.name, call.expected) && call.before.originMain == Some(call.target)
      && call.after == Moved(call.before, call.target) && HeadCommit(call.after) == Some(call.target)
      && (Holds(call.after, call.name, call.expected) <==> call.before.head != OnBranch(call.name) || call.target == call.expected)
  }

  /** The guards do not look at the branch: with HEAD on the preserving reference they pass, and the reset moves it. */
  lemma ResetMayMoveTheReference(name: string, head: string, target: string)
    requires head != target
    ensures var before := Checkout(OnBranch(name), Some(target), "", map[name := head]);
            var call := ResetTo(head, name, target, before, Moved(before, target), None);
            && Guarded(call) && TookPlace(call) && HeadCommit(before) == Some(head) && !Holds(call.after, name, head)
  {
    assert !Holds(Moved(Checkout(OnBranch(name), Some(target), "", map[name := head]), target), name, head);
  }

  // ---------- The order of calls ----------

  /** The call at index `i` looked at a clean checkout with this HEAD. */
  predicate LookedClean(calls: seq<Call>, i: nat, head: string) {
    i < |calls| && calls[i].Looked? && calls[i].answer.Good? && Clean(calls[i].answer.value.status) && calls[i].answer.value.head == Some(head)
  }

  /** The receipt names the reference that holds `head`, and the target. */
  predicate Names(receipt: Receipt, head: string, name: string, target: Option<string>) {
    && receipt.preservedRef == Some(name) && receipt.preservedSha == Some(head) && receipt.resetTo == target
    && receipt.initialHead == Some(head) && receipt.outcome.PreservedReset?
  }

  /** Everything that comes before a reset, in order, in a protocol that starts at index `n`. */
  predicate Prepared(calls: seq<Call>, n: nat, i: nat) {
    i == n + 6 && i < |calls| && calls[i].ResetTo? &&
    var head, name, target := calls[i].expected, calls[i].name, calls[i].target;
    && LookedClean(calls, n, head)
    && calls[n + 1] == Created(name, head, None)
    && calls[n + 2].Wrote? && calls[n + 2].error.None? && Names(calls[n + 2].receipt, head, name, calls[n].answer.value.originMain)
    && calls[n + 3] == Fetched(None)
    && LookedClean(calls, n + 4, head) && calls[n + 4].answer.value.originMain == Some(target)
    && calls[n + 5].Wrote? && calls[n + 5].error.None? && Names(calls[n + 5].receipt, head, name, Some(target))
  }

  /** Every reset since index `n` is prepared, and guarded when it takes place. */
  ghost predicate ResetsPrepared(calls: seq<Call>, n: nat) {
    forall i | n <= i < |calls| && calls[i].ResetTo? :: Prepared(calls, n, i) && Guarded(calls[i])
  }

  predicate Harmless(c: Call) { c.Looked? || c.Wrote? }

  /** What is written names the request, its time, and the places derived from them. */
  predicate Addressed(c: Call, request: Request, timestamp: string) {
    && (c.Created? ==> c.name == RefName(request.runId, timestamp))
    && (c.Wrote? ==> c.receipt.request == request && c.receipt.timestamp == timestamp && c.receipt.path == ReceiptPath(request, timestamp))
  }

  ghost predicate AllAddressed(calls: seq<Call>, n: nat, request: Request, timestamp: string) {
    forall i | n <= i < |calls| :: Addressed(calls[i], request, timestamp)
  }

  /** What a preserved reset reports is what happened. */
  predicate Reported(calls: seq<Call>, n: nat, receipt: Receipt) {
    && |calls| == n + 9 && calls[n + 6].ResetTo? && calls[n + 6].error.None?
    && Names(receipt, calls[n + 6].expected, calls[n + 6].name, Some(calls[n + 6].target))
    && receipt.finalHead == Some(calls[n + 6].target) && Clean(receipt.finalStatus)
    && LookedClean(calls, n + 7, calls[n + 6].target) && calls[n + 7].answer.value.status == receipt.finalStatus
    && calls[n + 8] == Wrote(receipt, None)
  }

  /** An outcome that leaves the checkout alone is recorded, or the error of the writer is handed on. */
  predicate Settled(calls: seq<Call>, n: nat, result: Result, outcome: Outcome) {
    && |calls| == n + 2 && calls[n].Looked? && calls[n].answer.Good? && calls[n + 1].Wrote?
    && calls[n + 1].receipt.outcome == outcome && calls[n + 1].receipt.finalHead == calls[n].answer.value.head
    && calls[n + 1].receipt.preservedRef.None?
    && result == if calls[n + 1].error.None? then Done(calls[n + 1].receipt) else Failed(calls[n + 1].error.value)
  }

  /** The error a preserved reset reports when this was its last call; `late` after the reset. */
  function Blamed(call: Call, head: string, late: bool): Option<CleanupError> {
    match call
    case Created(_, _, error) => if error.None? then None else Some(PreserveRef)
    case Wrote(_, error) => if error.None? then None else Some(ReceiptFailed)
    case Fetched(error) => if error.None? then None else Some(FetchFailed)
    case ResetTo(_, _, _, _, _, error) => if error.None? then None else Some(ResetFailed)
    case Looked(Bad(error)) => Some(error)
    case Looked(Good(seen)) =>
      if !Clean(seen.status) then Some(if late then ResetFailed else DirtyRemote(seen.status))
      else if seen.head != Some(head) then Some(ResetFailed)
      else if seen.originMain.None? && !late then Some(MissingOriginMain)
      else None
  }

  /** A preserved reset is reported as it happened, or its last call is to blame. */
  predicate Ended(calls: seq<Call>, n: nat, result: Result) {
    match result
    case Done(receipt) => receipt.outcome.PreservedReset? && Reported(calls, n, receipt)
    case Failed(error) => BlameIsOn(calls, n, error)
  }

  predicate BlameIsOn(calls: seq<Call>, n: nat, error: CleanupError) {
    && n + 1 < |calls| <= n + 9 && calls[n].Looked? && calls[n].answer.Good? && calls[n].answer.value.head.Some?
    && if |calls| <= n + 7 then Blamed(calls[|calls| - 1], calls[n].answer.value.head.value, false) == Some(error)
       else calls[n + 6].ResetTo? && Blamed(calls[|calls| - 1], calls[n + 6].target, true) == Some(error)
  }

  // ---------- The protocol ----------

  /** Against any remote: a reset happens only in a run that asked for it, after the old HEAD was preserved, recorded and
      seen unchanged and clean again, and after its exact target was recorded. */
  method CleanupRemoteCheckout(remote: Remote, request: Request, timestamp: string) returns (result: Result)
    modifies remote
    ensures old(remote.calls) <= remote.calls && ResetsPrepared(remote.calls, |old(remote.calls)|)
    ensures AllAddressed(remote.calls, |old(remote.calls)|, request, timestamp)
    ensures !request.policy.PreserveReset? ==> forall i | |old(remote.calls)| <= i < |remote.calls| :: Harmless(remote.calls[i])
    ensures var n := |old(remote.calls)|;
            n < |remote.calls| && remote.calls[n].Looked? &&
            var seen := remote.calls[n].answer;
            && (seen.Bad? ==> result == Failed(seen.error) && |remote.calls| == n + 1)
            && (seen.Good? ==>
                  && (!Clean(seen.value.status) ==> result == Failed(DirtyRemote(seen.value.status)) && |remote.calls| == n + 1)
                  && (Clean(seen.value.status) && seen.value.head.None? ==> result == Failed(MissingHead) && |remote.calls| == n + 1)
                  && (Clean(seen.value.status) && seen.value.head.Some? && seen.value.originMain.None? ==>
                        result == Failed(MissingOriginMain) && |remote.calls| == n + 1)
                  && (Clean(seen.value.status) && seen.value.head.Some? && seen.value.originMain.Some? ==>
                        if seen.value.head == seen.value.originMain then Settled(remote.calls, n, result, AlreadySynced)
                        else match request.policy
                             case Block => result == Failed(DivergentBlocked(seen.value.head.value, seen.value.originMain.value))
                                           && |remote.calls| == n + 1
                             case Adopt => Settled(remote.calls, n, result, Adopted)
                             case PreserveReset => Ended(remote.calls, n, result)))
  {
    var initial := remote.Look();
    if initial.Bad? {
      return Failed(initial.error);
    }
    var seen := initial.value;
    if !Clean(seen.status) {
      return Failed(DirtyRemote(seen.status));
    }
    if seen.head.None? {
      return Failed(MissingHead);
    }
    if seen.originMain.None? {
      return Failed(MissingOriginMain);
    }
    if seen.head == seen.originMain {
      result := Settle(remote, BaseReceipt(request, AlreadySynced, seen, timestamp), seen);
      return;
    }
    match request.policy
    case Block =>
      result := Failed(DivergentBlocked(seen.head.value, seen.originMain.value));
    case Adopt =>
      result := Settle(remote, BaseReceipt(request, Adopted, seen, timestamp), seen);
    case PreserveReset =>
      result := PreserveThenReset(remote, request, seen, timestamp);
  }

  /** Records an outcome that leaves the checkout as it is. */
  method Settle(remote: Remote, base: Receipt, seen: Snapshot) returns (result: Result)
    modifies remote
    ensures var receipt := base.(finalHead := seen.head, finalStatus := seen.status);
            exists error :: remote.calls == old(remote.calls) + [Wrote(receipt, error)]
                            && result == if error.None? then Done(receipt) else Failed(error.value)
  {
    var receipt := base.(finalHead := seen.head, finalStatus := seen.status);
    var error := remote.WriteReceipt(receipt);
    result := if error.None? then Done(receipt) else Failed(error.value);
  }

  /** The calls that prepare a reset, when all of them go well. */
  predicate Preparation(calls: seq<Call>, n: nat, receipt: Receipt) {
    |calls| == n + 6 && calls[n].Looked? && calls[n].answer.Good? && calls[n].answer.value.head.Some? &&
    var head := calls[n].answer.value.head.value;
    calls[n + 1].Created? &&
    var name := calls[n + 1].name;
    && LookedClean(calls, n, head) && calls[n + 1] == Created(name, head, None)
    && calls[n + 2].Wrote? && calls[n + 2].error.None? && Names(calls[n + 2].receipt, head, name, calls[n].answer.value.originMain)
    && calls[n + 3] == Fetched(None)
    && LookedClean(calls, n + 4, head) && calls[n + 4].answer.value.originMain == receipt.resetTo
    && calls[n + 5] == Wrote(receipt, None)
    && receipt.resetTo.Some? && Names(receipt, head, name, receipt.resetTo)
  }

  ghost predicate NoResets(calls: seq<Call>, n: nat) {
    forall i | n <= i < |calls| :: !calls[i].ResetTo?
  }

  /** Preserves the old HEAD under a reference, records it, and looks again. */
  method Preserve(remote: Remote, request: Request, initial: Snapshot,
      timestamp: string) returns (receipt: Receipt, error: Option<CleanupError>)
    requires initial.head.Some? && initial.originMain.Some? && Clean(initial.status)
    requires remote.calls != [] && remote.calls[|remote.calls| - 1] == Looked(Good(initial))
    modifies remote
    ensures old(remote.calls) < remote.calls && |remote.calls| <= |old(remote.calls)| + 5
    ensures NoResets(remote.calls, |old(remote.calls)|) && AllAddressed(remote.calls, |old(remote.calls)|, request, timestamp)
    ensures receipt.request == request && receipt.timestamp == timestamp && receipt.path == ReceiptPath(request, timestamp)
    ensures error.None? <==> Preparation(remote.calls, |old(remote.calls)| - 1, receipt)
    ensures error.None? ==> receipt.finalHead.None?
    ensures error == Blamed(remote.calls[|remote.calls| - 1], initial.head.value, false)
  {
    hide Preparation, LookedClean, Names, RefName, ReceiptPath, Blank;
    var head := initial.head.value;
    var name := RefName(request.runId, timestamp);
    ghost var n := |remote.calls| - 1;
    receipt := BaseReceipt(request, PreservedReset, initial, timestamp).(
      preservedRef := Some(name), preservedSha := Some(head), resetTo := initial.originMain);
    ghost var first := receipt;
    error := remote.CreateRef(name, head);
    Unfinished(remote.calls, n, receipt);
    if error.Some? {
      return receipt, Some(PreserveRef);
    }
    error := remote.WriteReceipt(receipt);
    Unfinished(remote.calls, n, receipt);
    if error.Some? {
      return receipt, Some(ReceiptFailed);
    }
    error := remote.Fetch();
    Unfinished(remote.calls, n, receipt);
    if error.Some? {
      return receipt, Some(FetchFailed);
    }
    var fetched := remote.Look();
    Unfinished(remote.calls, n, receipt);
    if fetched.Bad? {
      return receipt, Some(fetched.error);
    }
    if !Clean(fetched.value.status) {
      return receipt, Some(DirtyRemote(fetched.value.status));
    }
    if fetched.value.head != Some(head) {
      return receipt, Some(ResetFailed);
    }
    if fetched.value.originMain.None? {
      return receipt, Some(MissingOriginMain);
    }
    receipt := receipt.(resetTo := fetched.value.originMain);
    error := remote.WriteReceipt(receipt);
    if error.None? {
      Finished(remote.calls, n, initial, fetched.value, name, first, receipt);
    } else {
      Unfinished(remote.calls, n, receipt);
      error := Some(ReceiptFailed);
    }
  }

  lemma Unfinished(calls: seq<Call>, n: nat, receipt: Receipt)
    requires |calls| != n + 6 || calls[n + 5] != Wrote(receipt, None)
    ensures !Preparation(calls, n, receipt)
  {
  }

  lemma Finished(calls: seq<Call>, n: nat, initial: Snapshot, fetched: Snapshot, name: string, first: Receipt, receipt: Receipt)
    requires |calls| == n + 6 && initial.head.Some? && Clean(initial.status) && Clean(fetched.status)
    requires fetched.head == initial.head && fetched.originMain.Some?
    requires calls[n] == Looked(Good(initial)) && calls[n + 1] == Created(name, initial.head.value, None)
    requires calls[n + 2] == Wrote(first, None) && calls[n + 3] == Fetched(None) && calls[n + 4] == Looked(Good(fetched))
    requires calls[n + 5] == Wrote(receipt, None)
    requires first.preservedRef == Some(name) && first.preservedSha == initial.head && first.resetTo == initial.originMain
    requires first.initialHead == initial.head && first.outcome.PreservedReset?
    requires receipt == first.(resetTo := fetched.originMain)
    ensures Preparation(calls, n, receipt)
  {
  }

  method PreserveThenReset(remote: Remote, request: Request, initial: Snapshot, timestamp: string) returns (result: Result)
    requires initial.head.Some? && initial.originMain.Some? && Clean(initial.status)
    requires remote.calls != [] && remote.calls[|remote.calls| - 1] == Looked(Good(initial))
    modifies remote
    ensures old(remote.calls) <= remote.calls && ResetsPrepared(remote.calls, |old(remote.calls)| - 1)
    ensures Ended(remote.calls, |old(remote.calls)| - 1, result) && AllAddressed(remote.calls, |old(remote.calls)|, request, timestamp)
    ensures |remote.calls| == |old(remote.calls)| + 8 && (remote.calls[|remote.calls| - 1].Wrote? && remote.calls[|remote.calls| - 1].error.None?)
            ==> result.Done?
  {
    hide RefName, ReceiptPath, AllAddressed;
    var receipt, error := Preserve(remote, request, initial, timestamp);
    if error.Some? {
      return Failed(error.value);
    }
    ghost var prepared := remote.calls;
    var target := receipt.resetTo.value;
    error := remote.ResetPreserved(receipt.preservedSha.value, receipt.preservedRef.value, target);
    assert Prepared(remote.calls, |old(remote.calls)| - 1, |prepared|) by { ResetIsPrepared(prepared, remote.calls, |old(remote.calls)| - 1, receipt); }
    OneMoreAddressed(prepared, remote.calls, |old(remote.calls)|, request, timestamp);
    if error.Some? {
      return Failed(ResetFailed);
    }
    ghost var reset := remote.calls;
    var final := remote.Look();
    OneMoreAddressed(reset, remote.calls, |old(remote.calls)|, request, timestamp);
    if final.Bad? {
      return Failed(final.error);
    }
    if !Clean(final.value.status) || final.value.head != Some(target) {
      return Failed(ResetFailed);
    }
    receipt := receipt.(finalHead := final.value.head, finalStatus := final.value.status);
    ghost var seen := remote.calls;
    error := remote.WriteReceipt(receipt);
    OneMoreAddressed(seen, remote.calls, |old(remote.calls)|, request, timestamp);
    if error.Some? {
      return Failed(ReceiptFailed);
    }
    result := Done(receipt);
  }

  lemma OneMoreAddressed(before: seq<Call>, calls: seq<Call>, n: nat, request: Request, timestamp: string)
    requires AllAddressed(before, n, request, timestamp) && n <= |before| && |calls| == |before| + 1 && calls[..|before|] == before
    requires Addressed(calls[|before|], request, timestamp)
    ensures AllAddressed(calls, n, request, timestamp)
  {
    hide Addressed;
    assert forall i | 0 <= i < |before| :: calls[i] == before[i];
  }

  lemma ResetIsPrepared(before: seq<Call>, calls: seq<Call>, n: nat, receipt: Receipt)
    requires Preparation(before, n, receipt) && |calls| == |before| + 1 && calls[..|before|] == before
    requires calls[n + 6].ResetTo? && calls[n + 6].expected == receipt.preservedSha.value
    requires calls[n + 6].name == receipt.preservedRef.value && calls[n + 6].target == receipt.resetTo.value
    ensures Prepared(calls, n, n + 6)
  {
    assert forall i | 0 <= i < |before| :: calls[i] == before[i];
  }
}
