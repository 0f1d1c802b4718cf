// The core state engine over any sequence of operations: conservation of realized
// revenue, what a closed task has been through, and the audit chain.
module CoreRuns {
  import opened Prelude
  import opened Ordering
  import opened AuditChain
  import opened CoreState

  datatype Op =
    | Add(title: string, troop: string, revenue: int, key: Option<string>, newId: string, now: string)
    | Fetch
    | Fail(id: string, reason: string)
    | Claim(id: string, result: string, provider: string)
    | Accept(id: string, receipt: Receipt, verdict: Verdict)
    | Close(id: string, amount: int, revenueId: string)
    | Disable(provider: string, reason: string)
    | Log(name: string, text: string)

  ghost function Apply(env: Env, s: State, op: Op, stamp: Stamp): State {
    match op
    case Add(title, troop, revenue, key, newId, now) => AddTask(env, s, title, troop, revenue, key, newId, now, stamp).0
    case Fetch => FetchNext(env, s, stamp).0
    case Fail(id, reason) => Else(s, MarkFailed(env, s, id, reason, stamp))
    case Claim(id, result, provider) => Else(s, RecordClaim(env, s, id, result, provider, stamp))
    case Accept(id, receipt, verdict) => Else(s, ApplyReceipt(env, s, id, receipt, verdict, stamp))
    case Close(id, amount, revenueId) => Else(s, Realize(env, s, id, amount, revenueId, stamp))
    case Disable(provider, reason) => Else(s, DisableProvider(env, s, provider, reason, stamp))
    case Log(name, text) => Else(s, LogAudit(env, s, name, text, stamp))
  }

  function Empty(): State {
    State(map[], map[], [], map[], [])
  }

  ghost predicate StepOk(env: Env, ops: seq<(Op, Stamp)>, states: seq<State>, k: nat)
    requires k < |ops| == |states| - 1
  {
    states[k + 1] == Apply(env, states[k], ops[k].0, ops[k].1)
  }

  // A run from any database, such as a migrated one.
  ghost predicate IsRunFromAny(env: Env, ops: seq<(Op, Stamp)>, states: seq<State>) {
    && |ops| == |states| - 1
    && forall k {:trigger StepOk(env, ops, states, k)} | 0 <= k < |ops| :: StepOk(env, ops, states, k)
  }

  ghost predicate IsRun(env: Env, ops: seq<(Op, Stamp)>, states: seq<State>) {
    IsRunFromAny(env, ops, states) && states[0] == Empty()
  }

  // ---- One transaction ----

  // What any operation does: nothing, or one logged event and the matching change of one task.
  ghost predicate OneEvent(env: Env, s: State, s': State, e: Event) {
    && |s'.audit| == |s.audit| + 1 && s'.audit[..|s.audit|] == s.audit
    && s'.audit[|s.audit|].event == e
    && (Verifies(env.hash, Rows(s.audit)) ==> Verifies(env.hash, Rows(s'.audit)))
  }

  lemma CommitLogs(env: Env, s: State, changed: State, e: Event, stamp: Stamp)
    requires Commit(env, s, changed, e, stamp).Some?
    ensures var s' := Commit(env, s, changed, e, stamp).value;
      OneEvent(env, s, s', e) && s' == changed.(audit := s'.audit)
  {
    hide Verifies, Append;
    var s' := Commit(env, s, changed, e, stamp).value;
    var next := Append(env.hash, Rows(s.audit), Text(env, e, stamp));
    if Verifies(env.hash, Rows(s.audit)) {
      AppendVerifies(env.hash, Rows(s.audit), Text(env, e, stamp));
      assert Rows(s'.audit) == next.value by {
        assert forall i | 0 <= i < |s.audit| :: next.value[i] == next.value[..|s.audit|][i];
      }
    }
  }

  // The change of one task and of the money that goes with each event.
  ghost predicate Moved(s: State, s': State, e: Event) {
    match e
    case TaskAdded(id, title, troop, fingerprint) =>
      && id !in s.tasks && id in s'.tasks && s'.tasks == s.tasks[id := s'.tasks[id]] && s'.tasks[id].status == QUEUED
      && s'.tasks[id].title == title && s'.tasks[id].troop == troop && s'.tasks[id].fingerprint == Some(fingerprint)
      && (s'.tasks[id].idempotencyKey.Some? ==> forall other | other in s.tasks :: s.tasks[other].idempotencyKey != s'.tasks[id].idempotencyKey)
      && s'.receipts == s.receipts && s'.revenues == s.revenues
    case TaskStarted(id) => Turned(s, s', id, QUEUED, RUNNING) && s'.receipts == s.receipts && s'.revenues == s.revenues
    case TaskFailed(id, _) => Turned(s, s', id, RUNNING, FAILED) && s'.receipts == s.receipts && s'.revenues == s.revenues
    case ResultClaimed(id, provider) =>
      && Turned(s, s', id, RUNNING, SUCCESS_CLAIMED) && s'.tasks[id].provider == Some(provider)
      && s'.receipts == s.receipts && s'.revenues == s.revenues
    case ReceiptAccepted(id, receipt) =>
      && Turned(s, s', id, SUCCESS_CLAIMED, VERIFIED) && s'.tasks[id].provider == s.tasks[id].provider
      && s.tasks[id].provider != Some(receipt.verifierId)
      && id !in s.receipts && s'.receipts == s.receipts[id := receipt] && s'.revenues == s.revenues
    case TaskClosed(id, amount, receiptId) =>
      && Turned(s, s', id, VERIFIED, CLOSED) && s'.tasks[id].provider == s.tasks[id].provider
      && id in s.receipts && s.receipts[id].receiptId == receiptId && s'.receipts == s.receipts && amount >= 0
      && exists revenueId :: s'.revenues == s.revenues + (if amount > 0 then [Revenue(revenueId, amount, id)] else [])
    case _ => s'.tasks == s.tasks && s'.receipts == s.receipts && s'.revenues == s.revenues
  }

  // What a task was asked to be never changes.
  predicate SameRequest(a: Task, b: Task) {
    a.title == b.title && a.troop == b.troop && a.claimedRevenue == b.claimedRevenue && a.createdAt == b.createdAt
    && a.idempotencyKey == b.idempotencyKey && a.fingerprint == b.fingerprint
  }

  ghost predicate Turned(s: State, s': State, id: string, before: Status, after: Status) {
    && id in s.tasks && s.tasks[id].status == before
    && id in s'.tasks && s'.tasks == s.tasks[id := s'.tasks[id]] && s'.tasks[id].status == after
    && SameRequest(s.tasks[id], s'.tasks[id])
  }

  ghost predicate Effect(env: Env, s: State, s': State, e: Event) {
    OneEvent(env, s, s', e) && Moved(s, s', e)
  }

  lemma AddIsOneEvent(env: Env, s: State, op: Op, stamp: Stamp)
    requires op.Add? && Apply(env, s, op, stamp) != s
    ensures exists e :: Effect(env, s, Apply(env, s, op, stamp), e)
  {
    hide Verifies, Commit, OneEvent;
    var s' := Apply(env, s, op, stamp);
    if op.key.Some? && op.key.value != "" && KeyUsed(s, op.key.value) {
      var e := IdempotencyMismatch(op.key.value, TaskWithKey(s, op.key.value));
      CommitLogs(env, s, s, e, stamp);
      assert Effect(env, s, s', e);
    } else {
      if op.key.Some? { FreeKey(s, op.key.value); }
      var e := TaskAdded(op.newId, op.title, op.troop, env.fingerprint(op.title, op.troop, op.revenue));
      CommitLogs(env, s, s.(tasks := s.tasks[op.newId := NewTask(env, op.title, op.troop, op.revenue, op.key, op.now)]), e, stamp);
      assert Effect(env, s, s', e);
    }
  }

  lemma FetchIsOneEvent(env: Env, s: State, stamp: Stamp)
    requires FetchNext(env, s, stamp).0 != s
    ensures exists e :: Effect(env, s, FetchNext(env, s, stamp).0, e)
  {
    hide Verifies, Commit, OneEvent, Sooner;
    var s' := FetchNext(env, s, stamp).0;
    assert exists id :: NextQueued(s, id) && s' == Else(s, Commit(env, s, WithStatus(s, id, RUNNING), TaskStarted(id), stamp));
    var id :| NextQueued(s, id) && s' == Else(s, Commit(env, s, WithStatus(s, id, RUNNING), TaskStarted(id), stamp));
    var out := Commit(env, s, WithStatus(s, id, RUNNING), TaskStarted(id), stamp);
    assert out.Some? && s' == out.value;
    CommitLogs(env, s, WithStatus(s, id, RUNNING), TaskStarted(id), stamp);
    assert Effect(env, s, s', TaskStarted(id));
  }

  lemma TurnIsOneEvent(env: Env, s: State, op: Op, stamp: Stamp)
    requires (op.Fail? || op.Claim?) && Apply(env, s, op, stamp) != s
    ensures exists e :: Effect(env, s, Apply(env, s, op, stamp), e)
  {
    hide Verifies, Commit, OneEvent;
    var s' := Apply(env, s, op, stamp);
    if op.Fail? {
      CommitLogs(env, s, WithStatus(s, op.id, FAILED), TaskFailed(op.id, op.reason), stamp);
      assert Effect(env, s, s', TaskFailed(op.id, op.reason));
    } else {
      var t := s.tasks[op.id].(status := SUCCESS_CLAIMED, result := Some(op.result), provider := Some(op.provider));
      CommitLogs(env, s, s.(tasks := s.tasks[op.id := t]), ResultClaimed(op.id, op.provider), stamp);
      assert Effect(env, s, s', ResultClaimed(op.id, op.provider));
    }
  }

  lemma AcceptIsOneEvent(env: Env, s: State, op: Op, stamp: Stamp)
    requires op.Accept? && Apply(env, s, op, stamp) != s
    ensures exists e :: Effect(env, s, Apply(env, s, op, stamp), e)
  {
    hide Verifies, Commit, OneEvent, IsHex, ReceiptIdFree;
    var r := op.receipt;
    var t := s.tasks[op.id].(status := VERIFIED, note := Some(r.verifierId + ":" + r.evidenceRef + ":" + r.evidenceSha));
    CommitLogs(env, s, s.(tasks := s.tasks[op.id := t], receipts := s.receipts[op.id := r]), ReceiptAccepted(op.id, r), stamp);
    assert Effect(env, s, Apply(env, s, op, stamp), ReceiptAccepted(op.id, r));
  }

  lemma CloseIsOneEvent(env: Env, s: State, op: Op, stamp: Stamp)
    requires op.Close? && Apply(env, s, op, stamp) != s
    ensures exists e :: Effect(env, s, Apply(env, s, op, stamp), e)
  {
    hide Verifies, Commit, OneEvent, RevenueFree;
    var s' := Apply(env, s, op, stamp);
    var e := TaskClosed(op.id, op.amount, s.receipts[op.id].receiptId);
    var row := Revenue(op.revenueId, op.amount, op.id);
    var paid := if op.amount > 0 then s.(revenues := s.revenues + [row]) else s;
    CommitLogs(env, s, WithStatus(paid, op.id, CLOSED), e, stamp);
    assert s'.revenues == s.revenues + (if op.amount > 0 then [row] else []);
    assert Effect(env, s, s', e);
  }

  /** Every operation either changes nothing, or logs exactly one event and makes exactly that event's change. */
  lemma ApplyIsOneEvent(env: Env, s: State, op: Op, stamp: Stamp)
    ensures Apply(env, s, op, stamp) == s || exists e :: Effect(env, s, Apply(env, s, op, stamp), e)
  {
    hide Verifies, Commit, OneEvent, AddTask, FetchNext, MarkFailed, RecordClaim, ApplyReceipt, Realize;
    var s' := Apply(env, s, op, stamp);
    if s' != s {
      match op
      case Add(_, _, _, _, _, _) => AddIsOneEvent(env, s, op, stamp);
      case Fetch => FetchIsOneEvent(env, s, stamp);
      case Fail(_, _) => TurnIsOneEvent(env, s, op, stamp);
      case Claim(_, _, _) => TurnIsOneEvent(env, s, op, stamp);
      case Accept(_, _, _) => AcceptIsOneEvent(env, s, op, stamp);
      case Close(_, _, _) => CloseIsOneEvent(env, s, op, stamp);
      case Disable(provider, reason) =>
        CommitLogs(env, s, s.(controls := s.controls[provider := Control(false, reason)]), ProviderDisabled(provider, reason), stamp);
        assert Effect(env, s, s', ProviderDisabled(provider, reason));
      case Log(name, text) =>
        CommitLogs(env, s, s, OtherEvent(name, text), stamp);
        assert Effect(env, s, s', OtherEvent(name, text));
    }
  }

  // ---- What the log says ----

  function ClosedTotal(audit: seq<Entry>): int {
    if audit == [] then 0
    else
      var e := audit[|audit| - 1].event;
      ClosedTotal(audit[..|audit| - 1]) + (if e.TaskClosed? then e.amount else 0)
  }

  function Closures(audit: seq<Entry>, id: string): nat {
    if audit == [] then 0
    else
      var e := audit[|audit| - 1].event;
      Closures(audit[..|audit| - 1], id) + (if e.TaskClosed? && e.taskId == id then 1 else 0)
  }

  ghost predicate ClaimedBy(audit: seq<Entry>, id: string, provider: string) {
    exists i :: 0 <= i < |audit| && audit[i].event == ResultClaimed(id, provider)
  }

  // A claim, then an accepted receipt of another party.
  ghost predicate ClaimedThenAccepted(audit: seq<Entry>, id: string, receipt: Receipt) {
    exists i, j, provider :: 0 <= i < j < |audit| && audit[i].event == ResultClaimed(id, provider)
      && audit[j].event == ReceiptAccepted(id, receipt) && provider != receipt.verifierId
  }

  ghost predicate TaskOk(s: State, id: string) {
    && (id !in s.tasks ==> id !in s.receipts && Closures(s.audit, id) == 0)
    && (id in s.tasks ==>
          && (s.tasks[id].status == SUCCESS_CLAIMED || s.tasks[id].status == VERIFIED || s.tasks[id].status == CLOSED ==>
                s.tasks[id].provider.Some? && ClaimedBy(s.audit, id, s.tasks[id].provider.value))
          && (id in s.receipts <==> s.tasks[id].status == VERIFIED || s.tasks[id].status == CLOSED)
          && (id in s.receipts ==> ClaimedThenAccepted(s.audit, id, s.receipts[id]))
          && Closures(s.audit, id) == if s.tasks[id].status == CLOSED then 1 else 0)
  }

  // A closing event has its cause before it.
  ghost predicate ClosingOk(audit: seq<Entry>, k: nat)
    requires k < |audit|
  {
    var e := audit[k].event;
    e.TaskClosed? ==> e.amount >= 0 && exists receipt: Receipt :: receipt.receiptId == e.receiptId && ClaimedThenAccepted(audit[..k], e.taskId, receipt)
  }

  ghost predicate Inv(env: Env, s: State) {
    && Verifies(env.hash, Rows(s.audit)) && KeysUnique(s.tasks)
    && RealizedRevenue(s.revenues) == ClosedTotal(s.audit)
    && (forall id {:trigger TaskOk(s, id)} :: TaskOk(s, id))
    && (forall k {:trigger ClosingOk(s.audit, k)} | 0 <= k < |s.audit| :: ClosingOk(s.audit, k))
  }

  lemma ClaimedStays(a: seq<Entry>, b: seq<Entry>, id: string, provider: string)
    requires |a| <= |b| && b[..|a|] == a && ClaimedBy(a, id, provider)
    ensures ClaimedBy(b, id, provider)
  {
    var i :| 0 <= i < |a| && a[i].event == ResultClaimed(id, provider);
    assert b[i] == b[..|a|][i];
  }

  lemma AcceptedStays(a: seq<Entry>, b: seq<Entry>, id: string, receipt: Receipt)
    requires |a| <= |b| && b[..|a|] == a && ClaimedThenAccepted(a, id, receipt)
    ensures ClaimedThenAccepted(b, id, receipt)
  {
    var i, j, provider :| 0 <= i < j < |a| && a[i].event == ResultClaimed(id, provider)
      && a[j].event == ReceiptAccepted(id, receipt) && provider != receipt.verifierId;
    assert b[i] == b[..|a|][i] && b[j] == b[..|a|][j];
  }

  lemma EffectKeepsTask(env: Env, s: State, s': State, e: Event, id: string)
    requires Inv(env, s) && Effect(env, s, s', e)
    ensures TaskOk(s', id)
  {
    hide Verifies, ClosingOk, Inv, ClaimedBy, ClaimedThenAccepted, RealizedRevenue, ClosedTotal;
    assert TaskOk(s, id) by { TaskOfInv(env, s, id); }
    assert s'.audit[..|s'.audit| - 1] == s.audit;
    if id in s.tasks && s.tasks[id].provider.Some? && ClaimedBy(s.audit, id, s.tasks[id].provider.value) {
      ClaimedStays(s.audit, s'.audit, id, s.tasks[id].provider.value);
    }
    if id in s.receipts && ClaimedThenAccepted(s.audit, id, s.receipts[id]) {
      AcceptedStays(s.audit, s'.audit, id, s.receipts[id]);
    }
    if e.ResultClaimed? && e.taskId == id {
      JustClaimed(s'.audit, id, e.provider);
    }
    if e.ReceiptAccepted? && e.taskId == id {
      JustAccepted(s.audit, s'.audit, id, s.tasks[id].provider.value, e.receipt);
    }
  }

  lemma TaskOfInv(env: Env, s: State, id: string)
    requires Inv(env, s)
    ensures TaskOk(s, id)
  {
    hide TaskOk, ClosingOk, Verifies;
  }

  lemma JustClaimed(audit: seq<Entry>, id: string, provider: string)
    requires audit != [] && audit[|audit| - 1].event == ResultClaimed(id, provider)
    ensures ClaimedBy(audit, id, provider)
  {
  }

  lemma JustAccepted(a: seq<Entry>, b: seq<Entry>, id: string, provider: string, receipt: Receipt)
    requires |b| == |a| + 1 && b[..|a|] == a && b[|a|].event == ReceiptAccepted(id, receipt)
    requires ClaimedBy(a, id, provider) && provider != receipt.verifierId
    ensures ClaimedThenAccepted(b, id, receipt)
  {
    var i :| 0 <= i < |a| && a[i].event == ResultClaimed(id, provider);
    assert b[i] == b[..|a|][i];
  }

  lemma EffectKeepsMoney(env: Env, s: State, s': State, e: Event)
    requires RealizedRevenue(s.revenues) == ClosedTotal(s.audit) && Effect(env, s, s', e)
    ensures RealizedRevenue(s'.revenues) == ClosedTotal(s'.audit)
  {
    hide Verifies;
    assert s'.audit[..|s'.audit| - 1] == s.audit;
    if e.TaskClosed? {
      var revenueId :| s'.revenues == s.revenues + (if e.amount > 0 then [Revenue(revenueId, e.amount, e.taskId)] else []);
      if e.amount > 0 {
        assert s'.revenues[..|s'.revenues| - 1] == s.revenues;
      } else {
        assert s'.revenues == s.revenues;
      }
    }
  }

  lemma EffectKeepsClosings(env: Env, s: State, s': State, e: Event, k: nat)
    requires Inv(env, s) && Effect(env, s, s', e) && k < |s'.audit|
    ensures ClosingOk(s'.audit, k)
  {
    hide Verifies, ClaimedBy, ClaimedThenAccepted, RealizedRevenue, ClosedTotal, Closures;
    if k < |s.audit| {
      assert ClosingOk(s.audit, k);
      assert s'.audit[k] == s'.audit[..|s.audit|][k] && s'.audit[..k] == s.audit[..k];
    } else if e.TaskClosed? {
      assert TaskOk(s, e.taskId);
      assert s'.audit[..k] == s.audit;
      assert ClaimedThenAccepted(s'.audit[..k], e.taskId, s.receipts[e.taskId]);
    }
  }

  lemma ApplyKeeps(env: Env, s: State, op: Op, stamp: Stamp)
    requires Inv(env, s)
    ensures Inv(env, Apply(env, s, op, stamp))
  {
    hide Apply, Verifies, Moved, TaskOk, ClosingOk, RealizedRevenue, ClosedTotal;
    var s' := Apply(env, s, op, stamp);
    ApplyIsOneEvent(env, s, op, stamp);
    if s' != s {
      var e :| Effect(env, s, s', e);
      forall id ensures TaskOk(s', id) { EffectKeepsTask(env, s, s', e, id); }
      forall k | 0 <= k < |s'.audit| ensures ClosingOk(s'.audit, k) { EffectKeepsClosings(env, s, s', e, k); }
      EffectKeepsMoney(env, s, s', e);
      EffectKeepsKeys(env, s, s', e);
    }
  }

  lemma EffectKeepsKeys(env: Env, s: State, s': State, e: Event)
    requires KeysUnique(s.tasks) && Effect(env, s, s', e)
    ensures KeysUnique(s'.tasks)
  {
    hide OneEvent, KeysUnique;
    match e
    case TaskAdded(id, _, _, _) =>
      KeysGrow(s.tasks, s'.tasks, id);
    case TaskStarted(id) => KeysStay(s.tasks, s'.tasks);
    case TaskFailed(id, _) => KeysStay(s.tasks, s'.tasks);
    case ResultClaimed(id, _) => KeysStay(s.tasks, s'.tasks);
    case ReceiptAccepted(id, _) => KeysStay(s.tasks, s'.tasks);
    case TaskClosed(id, _, _) => KeysStay(s.tasks, s'.tasks);
    case _ =>
  }

  lemma {:induction false} RunInv(env: Env, ops: seq<(Op, Stamp)>, states: seq<State>, k: nat)
    requires IsRun(env, ops, states) && k < |states|
    ensures Inv(env, states[k])
  {
    hide Apply;
    if k > 0 {
      RunInv(env, ops, states, k - 1);
      assert StepOk(env, ops, states, k - 1);
      ApplyKeeps(env, states[k - 1], ops[k - 1].0, ops[k - 1].1);
    }
  }

  // ---- Theorems ----

  /** Conservation: realized revenue is the sum of the amounts of the closing events, and each task is closed
      at most once: exactly once when its status is CLOSED. */
  lemma RevenueIsWhatWasClosed(env: Env, ops: seq<(Op, Stamp)>, states: seq<State>, k: nat, id: string)
    requires IsRun(env, ops, states) && k < |states|
    ensures var s := states[k];
      && RealizedRevenue(s.revenues) == ClosedTotal(s.audit)
      && Closures(s.audit, id) == (if InStatus(s, id, CLOSED) then 1 else 0)
  {
    hide Apply;
    RunInv(env, ops, states, k);
    assert TaskOk(states[k], id);
  }

  /** A task is closed only after its result was claimed and then accepted, with the closing event's receipt,
      by a party other than the one that claimed it. */
  lemma ClosedOnlyAfterAcceptance(env: Env, ops: seq<(Op, Stamp)>, states: seq<State>, k: nat, i: nat)
    requires IsRun(env, ops, states) && k < |states| && i < |states[k].audit| && states[k].audit[i].event.TaskClosed?
    ensures var e := states[k].audit[i].event;
      e.amount >= 0 && exists receipt: Receipt :: receipt.receiptId == e.receiptId && ClaimedThenAccepted(states[k].audit[..i], e.taskId, receipt)
  {
    hide Apply, ClaimedThenAccepted;
    RunInv(env, ops, states, k);
    assert ClosingOk(states[k].audit, i);
  }

  /** The audit chain always verifies. */
  lemma ChainAlwaysVerifies(env: Env, ops: seq<(Op, Stamp)>, states: seq<State>, k: nat)
    requires IsRun(env, ops, states) && k < |states|
    ensures Verifies(env.hash, Rows(states[k].audit))
  {
    RunInv(env, ops, states, k);
  }

  /** From any verifying log, such as one the migration rebuilt, the chain verifies for ever after, and starts with
      the rows it had. */
  lemma {:induction false} ChainKeepsVerifying(env: Env, ops: seq<(Op, Stamp)>, states: seq<State>, k: nat)
    requires IsRunFromAny(env, ops, states) && k < |states| && Verifies(env.hash, Rows(states[0].audit))
    ensures Verifies(env.hash, Rows(states[k].audit))
    ensures |states[0].audit| <= |states[k].audit| && states[k].audit[..|states[0].audit|] == states[0].audit
  {
    hide Apply, Verifies, Moved;
    if k > 0 {
      ChainKeepsVerifying(env, ops, states, k - 1);
      assert StepOk(env, ops, states, k - 1);
      var s, s', n := states[k - 1], states[k], |states[0].audit|;
      ApplyIsOneEvent(env, s, ops[k - 1].0, ops[k - 1].1);
      if s' != s {
        var e :| Effect(env, s, s', e);
        assert s'.audit[..n] == s'.audit[..|s.audit|][..n];
      }
    }
  }

  // Event names without a bar, for the engine's own events and for the names it is asked to log.
  ghost predicate PlainNames(env: Env, ops: seq<(Op, Stamp)>) {
    && (forall e: Event {:trigger env.nameOf(e)} :: !e.OtherEvent? ==> NoBar(env.nameOf(e)))
    && (forall k {:trigger ops[k]} | 0 <= k < |ops| :: PlainOp(env, ops[k].0, ops[k].1))
  }

  predicate PlainOp(env: Env, op: Op, stamp: Stamp) {
    && NoBar(stamp.rowId) && NoBar(stamp.time)
    && (op.Log? ==> NoBar(env.nameOf(OtherEvent(op.name, op.text))))
  }

  // The row an operation appends, if it appends one.
  lemma AppendedRow(env: Env, s: State, op: Op, stamp: Stamp)
    requires PlainOp(env, op, stamp)
    requires forall e: Event {:trigger env.nameOf(e)} :: !e.OtherEvent? ==> NoBar(env.nameOf(e))
    ensures var s' := Apply(env, s, op, stamp);
      s'.audit == s.audit || (|s'.audit| == |s.audit| + 1 && s'.audit[..|s.audit|] == s.audit && Plain(Bare(s'.audit[|s.audit|].row)))
  {
    hide NoBar, Append, Sooner, KeyUsed, IsHex, ReceiptIdFree, RevenueFree, Logged;
    forall changed: State, e: Event | Commit(env, s, changed, e, stamp).Some? && NoBar(env.nameOf(e))
      ensures var a := Commit(env, s, changed, e, stamp).value.audit;
        |a| == |s.audit| + 1 && a[..|s.audit|] == s.audit && Plain(Bare(a[|s.audit|].row))
    {
      LoggedRowIsPlain(env, s.audit, e, stamp);
    }
  }

  lemma LoggedRowIsPlain(env: Env, audit: seq<Entry>, e: Event, stamp: Stamp)
    requires Logged(env, audit, e, stamp).Some? && NoBar(stamp.rowId) && NoBar(stamp.time) && NoBar(env.nameOf(e))
    ensures var a := Logged(env, audit, e, stamp).value;
      |a| == |audit| + 1 && a[..|audit|] == audit && Plain(Bare(a[|audit|].row))
  {
    hide NoBar, Joined;
  }

  lemma {:induction false} EngineRowsArePlain(env: Env, ops: seq<(Op, Stamp)>, states: seq<State>, k: nat)
    requires IsRunFromAny(env, ops, states) && PlainNames(env, ops) && k < |states| && AllPlain(Rows(states[0].audit))
    ensures AllPlain(Rows(states[k].audit))
  {
    hide Apply, NoBar, Plain;
    if k > 0 {
      EngineRowsArePlain(env, ops, states, k - 1);
      assert StepOk(env, ops, states, k - 1);
      var s, s' := states[k - 1], states[k];
      assert PlainOp(env, ops[k - 1].0, ops[k - 1].1);
      AppendedRow(env, s, ops[k - 1].0, ops[k - 1].1);
      forall i | 0 <= i < |s'.audit| ensures Plain(Bare(Rows(s'.audit)[i])) {
        if i < |s.audit| && s'.audit != s.audit {
          assert s'.audit[i] == s'.audit[..|s.audit|][i];
          assert Plain(Bare(Rows(s.audit)[i]));
        } else if s'.audit == s.audit {
          assert Plain(Bare(Rows(s.audit)[i]));
        }
      }
    }
  }

  /** Two databases, each empty or rebuilt and then run by any operations, whose logs end with the same hash hold
      the same log, row for row, or two of their rows collide. */
  lemma SameHashSameLog(env: Env, ops: seq<(Op, Stamp)>, states: seq<State>, k: nat, ops': seq<(Op, Stamp)>, states': seq<State>, k': nat)
    requires HexHash(env.hash) && PlainNames(env, ops) && PlainNames(env, ops')
    requires IsRunFromAny(env, ops, states) && k < |states| && Verifies(env.hash, Rows(states[0].audit)) && AllPlain(Rows(states[0].audit))
    requires IsRunFromAny(env, ops', states') && k' < |states'| && Verifies(env.hash, Rows(states'[0].audit)) && AllPlain(Rows(states'[0].audit))
    requires LastHash(Rows(states[k].audit)) == LastHash(Rows(states'[k'].audit))
    ensures Rows(states[k].audit) == Rows(states'[k'].audit) || Collision(env.hash, Rows(states[k].audit), Rows(states'[k'].audit))
  {
    hide Apply, Verifies, AllPlain, HexHash, LastHash, PlainNames, Collision;
    ChainKeepsVerifying(env, ops, states, k);
    ChainKeepsVerifying(env, ops', states', k');
    EngineRowsArePlain(env, ops, states, k);
    EngineRowsArePlain(env, ops', states', k');
    LastHashPinsTheChain(env.hash, Rows(states[k].audit), Rows(states'[k'].audit));
  }

  // ---- Which logs the last hash pins ----

  ghost predicate HashesApart(rows: seq<Row>) {
    forall i, j | 0 <= i < j < |rows| :: rows[i].hash != rows[j].hash
  }

  lemma AppendedHash(env: Env, s: State, op: Op, stamp: Stamp)
    requires HashesApart(Rows(s.audit))
    ensures HashesApart(Rows(Apply(env, s, op, stamp).audit))
  {
    hide Append, Sooner, KeyUsed, IsHex, ReceiptIdFree, RevenueFree, Logged, HashesApart, Rows;
    forall changed: State, e: Event | Commit(env, s, changed, e, stamp).Some?
      ensures HashesApart(Rows(Commit(env, s, changed, e, stamp).value.audit))
    {
      LoggedHashIsNew(env, s.audit, e, stamp);
    }
  }

  lemma LoggedHashIsNew(env: Env, audit: seq<Entry>, e: Event, stamp: Stamp)
    requires Logged(env, audit, e, stamp).Some? && HashesApart(Rows(audit))
    ensures HashesApart(Rows(Logged(env, audit, e, stamp).value))
  {
    hide Joined, IdFree;
    var a := Logged(env, audit, e, stamp).value;
    assert forall i | 0 <= i < |audit| :: Rows(a)[i] == Rows(audit)[i];
  }

  lemma {:induction false} HashesStayApart(env: Env, ops: seq<(Op, Stamp)>, states: seq<State>, k: nat)
    requires IsRunFromAny(env, ops, states) && k < |states| && HashesApart(Rows(states[0].audit))
    ensures HashesApart(Rows(states[k].audit))
  {
    hide Apply, HashesApart;
    if k > 0 {
      HashesStayApart(env, ops, states, k - 1);
      assert StepOk(env, ops, states, k - 1);
      AppendedHash(env, states[k - 1], ops[k - 1].0, ops[k - 1].1);
    }
  }

  /** Exactly which logs the last hash pins, of all that a database can hold after a migration and any operations: those
      without a bar in any field, payloads included. */
  lemma LogIsPinnedIff(env: Env, ops: seq<(Op, Stamp)>, states: seq<State>, k: nat)
    requires HexHash(env.hash) && IsRunFromAny(env, ops, states) && k < |states|
    requires Verifies(env.hash, Rows(states[0].audit)) && HashesApart(Rows(states[0].audit))
    ensures Pinned(env.hash, Rows(states[k].audit)) <==> AllBarFree(Rows(states[k].audit))
  {
    hide Apply, Verifies, HexHash, Collision, Pinned, AllBarFree;
    ChainKeepsVerifying(env, ops, states, k);
    HashesStayApart(env, ops, states, k);
    DifferentHashesDoNotCollide(env.hash, Rows(states[k].audit));
    PinnedIff(env.hash, Rows(states[k].audit));
  }

  function Rank(s: Status): nat {
    match s
    case QUEUED => 0
    case RUNNING => 1
    case SUCCESS_CLAIMED => 2
    case VERIFIED => 3
    case CLOSED => 4
    case FAILED => 4
  }

  // What no later operation takes back.
  ghost predicate Kept(s: State, s': State, id: string) {
    && |s.audit| <= |s'.audit| && s'.audit[..|s.audit|] == s.audit
    && |s.revenues| <= |s'.revenues| && s'.revenues[..|s.revenues|] == s.revenues
    && (id in s.receipts ==> id in s'.receipts && s'.receipts[id] == s.receipts[id])
    && (id in s.tasks ==>
          && id in s'.tasks
          && SameRequest(s.tasks[id], s'.tasks[id])
          && (s'.tasks[id] == s.tasks[id] || Rank(s.tasks[id].status) < Rank(s'.tasks[id].status)))
  }

  lemma ApplyKeepsHistory(env: Env, s: State, op: Op, stamp: Stamp, id: string)
    ensures Kept(s, Apply(env, s, op, stamp), id)
  {
    hide Apply, Verifies;
    var s' := Apply(env, s, op, stamp);
    ApplyIsOneEvent(env, s, op, stamp);
    if s' != s {
      var e :| Effect(env, s, s', e);
    }
  }

  /** Nothing is taken back: the log, the revenues and the receipts only grow, and a task's status only moves
      forward; a CLOSED or FAILED task never changes again. */
  lemma {:induction false} HistoryOnlyGrows(env: Env, ops: seq<(Op, Stamp)>, states: seq<State>, i: nat, k: nat, id: string)
    requires IsRun(env, ops, states) && i <= k < |states|
    ensures Kept(states[i], states[k], id)
    ensures id in states[i].tasks && Rank(states[i].tasks[id].status) == 4 ==> states[k].tasks[id] == states[i].tasks[id]
    decreases k
  {
    hide Apply;
    if i < k {
      HistoryOnlyGrows(env, ops, states, i, k - 1, id);
      assert StepOk(env, ops, states, k - 1);
      ApplyKeepsHistory(env, states[k - 1], ops[k - 1].0, ops[k - 1].1, id);
      KeptThrough(states[i], states[k - 1], states[k], id);
    }
  }

  lemma KeptThrough(a: State, b: State, c: State, id: string)
    requires Kept(a, b, id) && Kept(b, c, id)
    ensures Kept(a, c, id)
  {
    assert c.audit[..|a.audit|] == c.audit[..|b.audit|][..|a.audit|];
    assert c.revenues[..|a.revenues|] == c.revenues[..|b.revenues|][..|a.revenues|];
  }

  /** Idempotency over runs: once a task exists under a key, the same request with that key returns its id and
      changes nothing, however far the task has come; another request with that key gets nothing. */
  lemma RepeatedAddReturnsTheFirst(env: Env, ops: seq<(Op, Stamp)>, states: seq<State>, i: nat, k: nat, id: string,
                                   title: string, troop: string, revenue: int, key: string, newId: string, now: string, stamp: Stamp)
    requires IsRun(env, ops, states) && i <= k < |states| && key != ""
    requires KeyOf(states[i].tasks, id, key) && states[i].tasks[id].fingerprint.Some? && states[i].tasks[id].fingerprint != Some("")
    ensures var again := AddTask(env, states[k], title, troop, revenue, Some(key), newId, now, stamp);
      if env.fingerprint(title, troop, revenue) == states[i].tasks[id].fingerprint.value
      then again == (states[k], Some(id))
      else again.1.None? && again.0.tasks == states[k].tasks && again.0.revenues == states[k].revenues
  {
    hide Apply, Commit, Verifies;
    RunInv(env, ops, states, k);
    HistoryOnlyGrows(env, ops, states, i, k, id);
    FoundKey(states[k], id, key);
    if env.fingerprint(title, troop, revenue) != states[i].tasks[id].fingerprint.value {
      MismatchOnlyLogs(env, states[k], IdempotencyMismatch(key, id), stamp);
    }
  }

  /** The empty key is the exception: it is not looked up, yet the column is unique, so once a task exists under it
      every further add with it is refused and changes nothing, the very same request included. */
  lemma EmptyKeyIsRefused(env: Env, ops: seq<(Op, Stamp)>, states: seq<State>, i: nat, k: nat, id: string,
                          title: string, troop: string, revenue: int, newId: string, now: string, stamp: Stamp)
    requires IsRun(env, ops, states) && i <= k < |states| && KeyOf(states[i].tasks, id, "")
    ensures AddTask(env, states[k], title, troop, revenue, Some(""), newId, now, stamp) == (states[k], None)
  {
    hide Apply, Commit, Verifies;
    HistoryOnlyGrows(env, ops, states, i, k, id);
    assert HasKey(states[k], id, "");
  }

  /** Exactly when a repeated add returns the first task: with a task stored under the key, when the key is not
      empty and the stored fingerprint is there and is the request's. */
  lemma RepeatedAddReturnsIff(env: Env, ops: seq<(Op, Stamp)>, states: seq<State>, i: nat, k: nat, id: string,
                              title: string, troop: string, revenue: int, key: string, newId: string, now: string, stamp: Stamp)
    requires IsRun(env, ops, states) && i <= k < |states| && KeyOf(states[i].tasks, id, key)
    ensures var again := AddTask(env, states[k], title, troop, revenue, Some(key), newId, now, stamp);
      var stored := states[i].tasks[id].fingerprint;
      && (again.1 == Some(id) <==> key != "" && stored == Some(env.fingerprint(title, troop, revenue)) && stored != Some(""))
      && (again.1 != Some(id) ==> again.1.None?)
      && again.0.tasks == states[k].tasks && again.0.revenues == states[k].revenues
  {
    hide Apply, Commit, Verifies;
    RunInv(env, ops, states, k);
    HistoryOnlyGrows(env, ops, states, i, k, id);
    FoundKey(states[k], id, key);
    if key == "" {
      EmptyKeyIsRefused(env, ops, states, i, k, id, title, troop, revenue, newId, now, stamp);
    } else {
      MismatchOnlyLogs(env, states[k], IdempotencyMismatch(key, id), stamp);
    }
  }

  /** A run in which the same request with an empty key is made twice: the first add returns its task, the second
      nothing, although its task id and its audit row id are new. */
  lemma EmptyKeyRun(env: Env, title: string, troop: string, revenue: int, id: string, other: string, now: string, stamp: Stamp, later: Stamp)
    returns (ops: seq<(Op, Stamp)>, states: seq<State>)
    requires id != other && stamp.rowId != later.rowId
    ensures IsRun(env, ops, states) && |ops| == 2
    ensures ops[0] == (Add(title, troop, revenue, Some(""), id, now), stamp) && ops[1] == (ops[0].0.(newId := other), later)
    ensures AddTask(env, states[0], title, troop, revenue, Some(""), id, now, stamp) == (states[1], Some(id))
    ensures AddTask(env, states[1], title, troop, revenue, Some(""), other, now, later) == (states[1], None) && states[2] == states[1]
    ensures other !in states[1].tasks && IdFree(Rows(states[1].audit), later.rowId)
  {
    hide Joined;
    var first := Add(title, troop, revenue, Some(""), id, now);
    var second := first.(newId := other);
    var s1 := Apply(env, Empty(), first, stamp);
    ops, states := [(first, stamp), (second, later)], [Empty(), s1, Apply(env, s1, second, later)];
    assert StepOk(env, ops, states, 0) && StepOk(env, ops, states, 1);
    EmptyLogTakesAnything(env, TaskAdded(id, title, troop, env.fingerprint(title, troop, revenue)), stamp);
    assert HasKey(s1, id, "");
  }

  lemma EmptyLogTakesAnything(env: Env, e: Event, stamp: Stamp)
    ensures Logged(env, [], e, stamp).Some?
  {
    hide Joined;
    assert Rows([]) == [];
  }

  lemma MismatchOnlyLogs(env: Env, s: State, e: Event, stamp: Stamp)
    ensures var s' := Else(s, Commit(env, s, s, e, stamp)); s'.tasks == s.tasks && s'.revenues == s.revenues
  {
    hide Append;
  }
}
