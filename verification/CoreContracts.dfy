// The core engine's operations from outside: which event each one causes, exactly
// when, what it then changes, and that no event of any log is without its cause.
module CoreContracts {
  import opened Prelude
  import opened Ordering
  import opened AuditChain
  import opened CoreState
  import opened CoreRuns

  predicate Has(s: State, id: string, status: Status) {
    id in s.tasks && s.tasks[id].status == status
  }

  // Queued, and no queued task was created earlier, or at the same time with a smaller id.
  ghost predicate Oldest(s: State, id: string) {
    && Has(s, id, QUEUED)
    && forall other | Has(s, other, QUEUED) ::
      && StrLe(s.tasks[id].createdAt, s.tasks[other].createdAt)
      && (s.tasks[id].createdAt == s.tasks[other].createdAt ==> StrLe(id, other))
  }

  // The receipt is complete, and its evidence digest is one.
  predicate CompleteReceipt(r: Receipt) {
    r.receiptId != "" && r.verifierId != "" && r.evidenceRef != "" && r.integrity != "" && IsHex(r.evidenceSha, 64)
  }

  // The operation is to log this event.
  ghost predicate Due(env: Env, s: State, op: Op, e: Event) {
    match e
    case TaskAdded(id, title, troop, fingerprint) =>
      && op.Add? && op.newId == id && op.title == title && op.troop == troop && fingerprint == env.fingerprint(title, troop, op.revenue)
      && id !in s.tasks && forall other | other in s.tasks && op.key.Some? :: s.tasks[other].idempotencyKey != op.key
    case IdempotencyMismatch(key, existing) =>
      && op.Add? && op.key == Some(key) && key != "" && existing in s.tasks && s.tasks[existing].idempotencyKey == Some(key)
      && (s.tasks[existing].fingerprint == Some(env.fingerprint(op.title, op.troop, op.revenue)) ==> s.tasks[existing].fingerprint == Some(""))
    case TaskStarted(id) => op.Fetch? && Oldest(s, id)
    case TaskFailed(id, reason) => op == Fail(id, reason) && Has(s, id, RUNNING)
    case ResultClaimed(id, provider) => op.Claim? && op.id == id && op.provider == provider && Has(s, id, RUNNING)
    case ReceiptAccepted(id, r) =>
      && op == Accept(id, r, ACCEPT) && env.signed(id, r, ACCEPT) && CompleteReceipt(r)
      && Has(s, id, SUCCESS_CLAIMED) && s.tasks[id].provider != Some(r.verifierId)
      && id !in s.receipts && forall other | other in s.receipts :: s.receipts[other].receiptId != r.receiptId
    case TaskClosed(id, amount, receiptId) =>
      && op.Close? && op.id == id && op.amount == amount >= 0
      && Has(s, id, VERIFIED) && id in s.receipts && s.receipts[id].receiptId == receiptId
      && (amount > 0 ==> forall i | 0 <= i < |s.revenues| :: s.revenues[i].id != op.revenueId && s.revenues[i].sourceTask != id)
    case ProviderDisabled(provider, reason) => op == Disable(provider, reason)
    case OtherEvent(name, text) => op == Log(name, text)
  }

  function NextRow(env: Env, s: State, e: Event, stamp: Stamp): Row {
    var prev := if s.audit == [] then "GENESIS" else s.audit[|s.audit| - 1].row.hash;
    var text := prev + "|" + stamp.rowId + "|" + env.nameOf(e) + "|" + env.textOf(e) + "|" + stamp.time;
    Row(stamp.rowId, env.nameOf(e), env.textOf(e), stamp.time, prev, env.hash(text))
  }

  // The audit table takes the row: its id and its hash are new.
  ghost predicate Fits(env: Env, s: State, e: Event, stamp: Stamp) {
    forall i | 0 <= i < |s.audit| :: s.audit[i].row.id != stamp.rowId && s.audit[i].row.hash != NextRow(env, s, e, stamp).hash
  }

  // The tables after the event.
  ghost function Tables(env: Env, s: State, op: Op, e: Event): State
    requires Due(env, s, op, e)
  {
    match e
    case TaskAdded(id, title, troop, fingerprint) =>
      s.(tasks := s.tasks[id := Task(title, troop, op.revenue, QUEUED, op.now, None, None, None, op.key, Some(fingerprint))])
    case TaskStarted(id) => s.(tasks := s.tasks[id := s.tasks[id].(status := RUNNING)])
    case TaskFailed(id, _) => s.(tasks := s.tasks[id := s.tasks[id].(status := FAILED)])
    case ResultClaimed(id, provider) =>
      s.(tasks := s.tasks[id := s.tasks[id].(status := SUCCESS_CLAIMED, result := Some(op.result), provider := Some(provider))])
    case ReceiptAccepted(id, r) =>
      s.(tasks := s.tasks[id := s.tasks[id].(status := VERIFIED, note := Some(r.verifierId + ":" + r.evidenceRef + ":" + r.evidenceSha))],
         receipts := s.receipts[id := r])
    case TaskClosed(id, amount, _) =>
      s.(tasks := s.tasks[id := s.tasks[id].(status := CLOSED)],
         revenues := s.revenues + if amount > 0 then [Revenue(op.revenueId, amount, id)] else [])
    case ProviderDisabled(provider, reason) => s.(controls := s.controls[provider := Control(false, reason)])
    case IdempotencyMismatch(_, _) => s
    case OtherEvent(_, _) => s
  }

  ghost function Written(env: Env, s: State, op: Op, e: Event, stamp: Stamp): State
    requires Due(env, s, op, e)
  {
    Tables(env, s, op, e).(audit := s.audit + [Entry(e, NextRow(env, s, e, stamp))])
  }

  lemma CommitIs(env: Env, s: State, changed: State, e: Event, stamp: Stamp)
    ensures Commit(env, s, changed, e, stamp) ==
      if Fits(env, s, e, stamp) then Some(changed.(audit := s.audit + [Entry(e, NextRow(env, s, e, stamp))])) else None
  {
    var rows, text := Rows(s.audit), Text(env, e, stamp);
    var row := NextRow(env, s, e, stamp);
    assert GENESIS == "GENESIS";
    assert LastHash(rows) == row.prev;
    assert DigestOf(env.hash, row.prev, text) == row.hash;
    assert IdFree(rows, stamp.rowId) && HashFree(rows, row.hash) <==> Fits(env, s, e, stamp) by {
      assert forall i | 0 <= i < |rows| :: rows[i] == s.audit[i].row;
    }
  }

  lemma OldestIff(s: State, id: string)
    ensures Oldest(s, id) <==> NextQueued(s, id)
  {
    forall a, b ensures a != b ==> !(StrLe(a, b) && StrLe(b, a)) {
      if StrLe(a, b) && StrLe(b, a) { StrLeAntisymmetric(a, b); }
    }
    forall a ensures StrLe(a, a) { StrLeTotal(a, a); }
  }

  lemma OneOldest(s: State, a: string, b: string)
    requires Oldest(s, a) && Oldest(s, b)
    ensures a == b
  {
    StrLeAntisymmetric(s.tasks[a].createdAt, s.tasks[b].createdAt);
    StrLeAntisymmetric(a, b);
  }

  lemma AddIs(env: Env, s: State, op: Op, stamp: Stamp, e: Event)
    requires KeysUnique(s.tasks) && op.Add? && Due(env, s, op, e)
    ensures Apply(env, s, op, stamp) == if Fits(env, s, e, stamp) then Written(env, s, op, e, stamp) else s
  {
    hide Commit, Fits, NextRow, KeysUnique;
    if op.key.Some? {
      FreeKey(s, op.key.value);
    }
    if e.TaskAdded? {
      assert op.key.Some? ==> !KeyUsed(s, op.key.value);
      CommitIs(env, s, s.(tasks := s.tasks[op.newId := NewTask(env, op.title, op.troop, op.revenue, op.key, op.now)]), e, stamp);
    } else if e.IdempotencyMismatch? {
      assert KeyOf(s.tasks, e.existing, e.key);
      FoundKey(s, e.existing, e.key);
      CommitIs(env, s, s, e, stamp);
    }
  }

  lemma FetchIs(env: Env, s: State, stamp: Stamp, id: string)
    requires Oldest(s, id)
    ensures FetchNext(env, s, stamp) ==
      if Fits(env, s, TaskStarted(id), stamp) then (Written(env, s, Fetch, TaskStarted(id), stamp), Some(id)) else (s, None)
  {
    hide Commit, Fits, NextRow, StrLe, Sooner;
    OldestIff(s, id);
    forall other | NextQueued(s, other) ensures other == id {
      OldestIff(s, other);
      OneOldest(s, id, other);
    }
    CommitIs(env, s, WithStatus(s, id, RUNNING), TaskStarted(id), stamp);
  }

  lemma OthersAre(env: Env, s: State, op: Op, stamp: Stamp, e: Event)
    requires !op.Add? && !op.Fetch? && Due(env, s, op, e)
    ensures Apply(env, s, op, stamp) == if Fits(env, s, e, stamp) then Written(env, s, op, e, stamp) else s
  {
    hide Commit, Fits, NextRow, Oldest;
    CommitIs(env, s, Tables(env, s, op, e), e, stamp);
    if e.TaskClosed? {
      assert s.revenues + [] == s.revenues;
    }
  }

  /** What every operation does when an event is due: the tables change as the event says and one row is appended behind the
      last one, or the audit table refuses the row and nothing changes. */
  lemma DueIsWritten(env: Env, s: State, op: Op, stamp: Stamp, e: Event)
    requires KeysUnique(s.tasks) && Due(env, s, op, e)
    ensures Apply(env, s, op, stamp) == if Fits(env, s, e, stamp) then Written(env, s, op, e, stamp) else s
  {
    hide Fits, Oldest, KeysUnique, AddTask, FetchNext;
    if op.Add? {
      AddIs(env, s, op, stamp, e);
    } else if op.Fetch? {
      FetchIs(env, s, stamp, e.taskId);
    } else {
      OthersAre(env, s, op, stamp, e);
    }
  }

  /** No event without its cause: an operation that changes anything had an event due, and the row fitted. */
  lemma ChangeWasDue(env: Env, s: State, op: Op, stamp: Stamp)
    requires KeysUnique(s.tasks) && Apply(env, s, op, stamp) != s
    ensures exists e :: Due(env, s, op, e) && Fits(env, s, e, stamp) && Apply(env, s, op, stamp) == Written(env, s, op, e, stamp)
  {
    hide Fits, Oldest, Apply;
    var e := EventOf(env, s, op, stamp);
    DueIsWritten(env, s, op, stamp, e);
  }

  lemma EventOf(env: Env, s: State, op: Op, stamp: Stamp) returns (e: Event)
    requires Apply(env, s, op, stamp) != s
    ensures Due(env, s, op, e)
  {
    hide Commit, KeysUnique, Oldest, NextQueued;
    match op
    case Add(title, troop, revenue, key, newId, now) =>
      if key.Some? { FreeKey(s, key.value); }
      e := if key.Some? && key.value != "" && KeyUsed(s, key.value)
           then IdempotencyMismatch(key.value, TaskWithKey(s, key.value))
           else TaskAdded(newId, title, troop, env.fingerprint(title, troop, revenue));
    case Fetch =>
      var id :| NextQueued(s, id);
      OldestIff(s, id);
      e := TaskStarted(id);
    case Fail(id, reason) => e := TaskFailed(id, reason);
    case Claim(id, result, provider) => e := ResultClaimed(id, provider);
    case Accept(id, receipt, verdict) => e := ReceiptAccepted(id, receipt);
    case Close(id, amount, revenueId) => e := TaskClosed(id, amount, s.receipts[id].receiptId);
    case Disable(provider, reason) => e := ProviderDisabled(provider, reason);
    case Log(name, text) => e := OtherEvent(name, text);
  }

  /** What a caller of `add_task` and `fetch_next_task` is told: the new id or the started id exactly if its event was logged. */
  lemma RepliesNameTheTask(env: Env, s: State, op: Op, stamp: Stamp, e: Event)
    requires KeysUnique(s.tasks) && Due(env, s, op, e)
    ensures e.TaskAdded? ==> AddTask(env, s, op.title, op.troop, op.revenue, op.key, op.newId, op.now, stamp).1
                             == if Fits(env, s, e, stamp) then Some(op.newId) else None
    ensures e.IdempotencyMismatch? ==> AddTask(env, s, op.title, op.troop, op.revenue, op.key, op.newId, op.now, stamp).1 == None
    ensures e.TaskStarted? ==> FetchNext(env, s, stamp).1 == if Fits(env, s, e, stamp) then Some(e.taskId) else None
  {
    hide Commit, Fits, NextRow, KeysUnique, Oldest, FetchNext;
    if e.TaskStarted? {
      FetchIs(env, s, stamp, e.taskId);
    } else if op.Add? {
      if op.key.Some? { FreeKey(s, op.key.value); }
      if e.TaskAdded? {
        assert op.key.Some? ==> !KeyUsed(s, op.key.value);
        CommitIs(env, s, s.(tasks := s.tasks[op.newId := NewTask(env, op.title, op.troop, op.revenue, op.key, op.now)]), e, stamp);
      } else if e.IdempotencyMismatch? {
        assert KeyOf(s.tasks, e.existing, e.key);
        FoundKey(s, e.existing, e.key);
      }
    }
  }

  // ---- Over runs ----

  // Step `j` of the run logged this event, and was entitled to.
  ghost predicate CausedAt(env: Env, ops: seq<(Op, Stamp)>, states: seq<State>, j: nat, e: Event)
    requires j < |ops| == |states| - 1
  {
    Due(env, states[j], ops[j].0, e) && Fits(env, states[j], e, ops[j].1) && states[j + 1] == Written(env, states[j], ops[j].0, e, ops[j].1)
  }

  lemma KeysUniqueInRun(env: Env, ops: seq<(Op, Stamp)>, states: seq<State>, k: nat)
    requires IsRun(env, ops, states) && k < |states|
    ensures KeysUnique(states[k].tasks)
  {
    RunInv(env, ops, states, k);
  }

  /** Every row of every reachable log was written by an operation of the run that was entitled to its event; the operation
      wrote it in that place, and made exactly the change of that event. */
  lemma {:induction false} EveryRowHasItsCause(env: Env, ops: seq<(Op, Stamp)>, states: seq<State>, k: nat, i: nat) returns (j: nat)
    requires IsRun(env, ops, states) && k < |states| && i < |states[k].audit|
    ensures j < k && |states[j].audit| == i && CausedAt(env, ops, states, j, states[k].audit[i].event)
    ensures states[j + 1].audit == states[k].audit[..i + 1]
    decreases k
  {
    hide Apply, Due, Fits, KeysUnique, NextRow, Tables;
    if k == 0 {
      assert false;
    } else {
      assert StepOk(env, ops, states, k - 1);
      KeysUniqueInRun(env, ops, states, k - 1);
      var s, s' := states[k - 1], states[k];
      if s' != s {
        ChangeWasDue(env, s, ops[k - 1].0, ops[k - 1].1);
      }
      if i < |s.audit| {
        assert s'.audit[..i + 1] == s.audit[..i + 1];
        j := EveryRowHasItsCause(env, ops, states, k - 1, i);
      } else {
        j := k - 1;
      }
    }
  }

  /** An accepted receipt was signed: behind every acceptance of a reachable log stands a complete receipt with a hexadecimal
      digest of its evidence, signed as an acceptance of this task, and behind every closed task such an acceptance. */
  lemma AcceptedMeansSigned(env: Env, ops: seq<(Op, Stamp)>, states: seq<State>, k: nat, i: nat)
    requires IsRun(env, ops, states) && k < |states| && i < |states[k].audit|
    ensures var e := states[k].audit[i].event;
      e.ReceiptAccepted? ==> env.signed(e.taskId, e.receipt, ACCEPT) && CompleteReceipt(e.receipt)
    ensures var e := states[k].audit[i].event;
      e.TaskClosed? ==> exists r: Receipt :: r.receiptId == e.receiptId && env.signed(e.taskId, r, ACCEPT) && CompleteReceipt(r)
  {
    hide Apply, Fits, KeysUnique, NextRow, Tables, CompleteReceipt, Oldest;
    var e := states[k].audit[i].event;
    if e.ReceiptAccepted? {
      var j := EveryRowHasItsCause(env, ops, states, k, i);
    }
    if e.TaskClosed? {
      ClosedOnlyAfterAcceptance(env, ops, states, k, i);
      var receipt: Receipt :| receipt.receiptId == e.receiptId && ClaimedThenAccepted(states[k].audit[..i], e.taskId, receipt);
      var m :| 0 <= m < i && states[k].audit[..i][m].event == ReceiptAccepted(e.taskId, receipt);
      var j := EveryRowHasItsCause(env, ops, states, k, m);
    }
  }
}
