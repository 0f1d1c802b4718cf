// The core state engine and its queue: each operation is one transaction over
// tasks, receipts, revenues, provider controls and the audit log, and rolls back
// as a whole when any of its writes is refused.
module CoreState {
  import opened Prelude
  import opened Ordering
  import opened AuditChain

  datatype Status = QUEUED | RUNNING | SUCCESS_CLAIMED | VERIFIED | CLOSED | FAILED

  datatype Task = Task(
    title: string, troop: string, claimedRevenue: int, status: Status, createdAt: string,
    result: Option<string>, provider: Option<string>, note: Option<string>,
    idempotencyKey: Option<string>, fingerprint: Option<string>)

  datatype Verdict = ACCEPT | OtherVerdict(text: string)

  datatype Receipt = Receipt(receiptId: string, verifierId: string, evidenceRef: string, evidenceSha: string, integrity: string)

  datatype Revenue = Revenue(id: string, amount: int, sourceTask: string)

  datatype Event =
    | IdempotencyMismatch(key: string, existing: string)
    | TaskAdded(taskId: string, title: string, troop: string, fingerprint: string)
    | TaskStarted(taskId: string)
    | TaskFailed(taskId: string, reason: string)
    | ResultClaimed(taskId: string, provider: string)
    | ReceiptAccepted(taskId: string, receipt: Receipt)
    | TaskClosed(taskId: string, amount: int, receiptId: string)
    | ProviderDisabled(provider: string, reason: string)
    | OtherEvent(name: string, text: string)

  datatype Entry = Entry(event: Event, row: Row)

  datatype Control = Control(enabled: bool, reason: string)

  datatype State = State(
    tasks: map<string, Task>, receipts: map<string, Receipt>, revenues: seq<Revenue>,
    controls: map<string, Control>, audit: seq<Entry>)

  // The digest, the event names and canonical payload texts, the request fingerprint, and the signature check
  // of a trusted verifier.
  datatype Env = Env(
    hash: string -> string, nameOf: Event -> string, textOf: Event -> string,
    fingerprint: (string, string, int) -> string,
    signed: (string, Receipt, Verdict) -> bool)

  // The fresh row id and the time of one audit append.
  datatype Stamp = Stamp(rowId: string, time: string)

  function Rows(audit: seq<Entry>): seq<Row> {
    seq(|audit|, i requires 0 <= i < |audit| => audit[i].row)
  }

  function Text(env: Env, e: Event, stamp: Stamp): LegacyRow {
    LegacyRow(stamp.rowId, env.nameOf(e), env.textOf(e), stamp.time)
  }

  /** `_append_audit`; nothing when the table refuses the row. */
  function Logged(env: Env, audit: seq<Entry>, e: Event, stamp: Stamp): Option<seq<Entry>> {
    var next := Append(env.hash, Rows(audit), Text(env, e, stamp));
    if next.None? then None else Some(audit + [Entry(e, next.value[|audit|])])
  }

  // The transaction: the new tables with one event logged, or the old state when the log refuses it.
  function Commit(env: Env, s: State, changed: State, e: Event, stamp: Stamp): Option<State> {
    var audit := Logged(env, s.audit, e, stamp);
    if audit.None? then None else Some(changed.(audit := audit.value))
  }

  function Else(s: State, out: Option<State>): State {
    if out.Some? then out.value else s
  }

  // ---- The unique idempotency key ----

  type Tasks = map<string, Task>

  ghost predicate KeyOf(tasks: Tasks, id: string, key: string) {
    id in tasks && tasks[id].idempotencyKey == Some(key)
  }

  ghost predicate KeysUnique(tasks: Tasks) {
    forall a, b, key: string {:trigger KeyOf(tasks, a, key), KeyOf(tasks, b, key)} :: KeyOf(tasks, a, key) && KeyOf(tasks, b, key) ==> a == b
  }

  // ---- Operations ----

  predicate HasKey(s: State, id: string, key: string)
    requires id in s.tasks
  {
    s.tasks[id].idempotencyKey == Some(key)
  }

  ghost predicate KeyUsed(s: State, key: string) {
    exists id :: id in s.tasks && HasKey(s, id, key)
  }

  ghost function TaskWithKey(s: State, key: string): (id: string)
    requires KeyUsed(s, key)
    ensures id in s.tasks && HasKey(s, id, key)
  {
    var id :| id in s.tasks && HasKey(s, id, key);
    id
  }

  function NewTask(env: Env, title: string, troop: string, revenue: int, key: Option<string>, now: string): Task {
    Task(title, troop, revenue, QUEUED, now, None, None, None, key, Some(env.fingerprint(title, troop, revenue)))
  }

  /** `add_task`: a repeated key returns the first task, if the request is the same; an empty key is not looked
      up, yet the column is still unique. */
  ghost function AddTask(env: Env, s: State, title: string, troop: string, revenue: int, key: Option<string>, newId: string, now: string, stamp: Stamp)
    : (State, Option<string>)
  {
    if key.Some? && key.value != "" && KeyUsed(s, key.value) then
      var existing := TaskWithKey(s, key.value);
      if s.tasks[existing].fingerprint == Some(env.fingerprint(title, troop, revenue)) && s.tasks[existing].fingerprint != Some("")
      then (s, Some(existing))
      else (Else(s, Commit(env, s, s, IdempotencyMismatch(key.value, existing), stamp)), None)
    else if newId in s.tasks || (key.Some? && KeyUsed(s, key.value)) then (s, None)
    else
      var out := Commit(env, s, s.(tasks := s.tasks[newId := NewTask(env, title, troop, revenue, key, now)]),
                        TaskAdded(newId, title, troop, env.fingerprint(title, troop, revenue)), stamp);
      (Else(s, out), if out.Some? then Some(newId) else None)
  }

  predicate Sooner(s: State, a: string, b: string)
    requires a in s.tasks && b in s.tasks
  {
    if s.tasks[a].createdAt != s.tasks[b].createdAt then StrLe(s.tasks[a].createdAt, s.tasks[b].createdAt) else StrLe(a, b)
  }

  ghost predicate NextQueued(s: State, id: string) {
    && id in s.tasks && s.tasks[id].status == QUEUED
    && forall other | other in s.tasks && s.tasks[other].status == QUEUED :: Sooner(s, id, other)
  }

  function WithStatus(s: State, id: string, status: Status): State
    requires id in s.tasks
  {
    s.(tasks := s.tasks[id := s.tasks[id].(status := status)])
  }

  /** `fetch_next_task`: the oldest queued task starts. */
  ghost function FetchNext(env: Env, s: State, stamp: Stamp): (State, Option<string>) {
    if !exists id :: NextQueued(s, id) then (s, None)
    else
      var id :| NextQueued(s, id);
      var out := Commit(env, s, WithStatus(s, id, RUNNING), TaskStarted(id), stamp);
      (Else(s, out), if out.Some? then Some(id) else None)
  }

  predicate InStatus(s: State, id: string, status: Status) {
    id in s.tasks && s.tasks[id].status == status
  }

  /** `mark_task_failed`. */
  function MarkFailed(env: Env, s: State, id: string, reason: string, stamp: Stamp): Option<State> {
    if !InStatus(s, id, RUNNING) then None else Commit(env, s, WithStatus(s, id, FAILED), TaskFailed(id, reason), stamp)
  }

  /** `record_task_claim`. */
  function RecordClaim(env: Env, s: State, id: string, result: string, provider: string, stamp: Stamp): Option<State> {
    if !InStatus(s, id, RUNNING) then None
    else
      var t := s.tasks[id].(status := SUCCESS_CLAIMED, result := Some(result), provider := Some(provider));
      Commit(env, s, s.(tasks := s.tasks[id := t]), ResultClaimed(id, provider), stamp)
  }

  predicate ReceiptIdFree(s: State, receiptId: string) {
    forall id | id in s.receipts :: s.receipts[id].receiptId != receiptId
  }

  /** `apply_verification_receipt`: one signed acceptance, by another party than the one that claimed the result. */
  function ApplyReceipt(env: Env, s: State, id: string, r: Receipt, verdict: Verdict, stamp: Stamp): Option<State> {
    if r.receiptId == "" || r.verifierId == "" || r.evidenceRef == "" || r.evidenceSha == "" || r.integrity == "" then None
    else if verdict != ACCEPT || !IsHex(r.evidenceSha, 64) || !env.signed(id, r, verdict) then None
    else if !InStatus(s, id, SUCCESS_CLAIMED) || s.tasks[id].provider == Some(r.verifierId) then None
    else if id in s.receipts || !ReceiptIdFree(s, r.receiptId) then None
    else
      var t := s.tasks[id].(status := VERIFIED, note := Some(r.verifierId + ":" + r.evidenceRef + ":" + r.evidenceSha));
      Commit(env, s, s.(tasks := s.tasks[id := t], receipts := s.receipts[id := r]), ReceiptAccepted(id, r), stamp)
  }

  predicate RevenueFree(s: State, revenueId: string, id: string) {
    forall i | 0 <= i < |s.revenues| :: s.revenues[i].id != revenueId && s.revenues[i].sourceTask != id
  }

  /** `realize_revenue_and_close`. */
  function Realize(env: Env, s: State, id: string, amount: int, revenueId: string, stamp: Stamp): Option<State> {
    if amount < 0 || !InStatus(s, id, VERIFIED) || id !in s.receipts then None
    else if amount > 0 && !RevenueFree(s, revenueId, id) then None
    else
      var paid := if amount > 0 then s.(revenues := s.revenues + [Revenue(revenueId, amount, id)]) else s;
      Commit(env, s, WithStatus(paid, id, CLOSED), TaskClosed(id, amount, s.receipts[id].receiptId), stamp)
  }

  /** `disable_provider`: fail closed, whatever the earlier setting. */
  function DisableProvider(env: Env, s: State, provider: string, reason: string, stamp: Stamp): Option<State> {
    Commit(env, s, s.(controls := s.controls[provider := Control(false, reason)]), ProviderDisabled(provider, reason), stamp)
  }

  /** `log_audit` of an event that is none of the engine's own. */
  function LogAudit(env: Env, s: State, name: string, text: string, stamp: Stamp): Option<State> {
    Commit(env, s, s, OtherEvent(name, text), stamp)
  }

  function RealizedRevenue(revenues: seq<Revenue>): int {
    if revenues == [] then 0 else RealizedRevenue(revenues[..|revenues| - 1]) + revenues[|revenues| - 1].amount
  }

  lemma FreeKey(s: State, key: string)
    ensures KeyUsed(s, key) || forall id | id in s.tasks :: s.tasks[id].idempotencyKey != Some(key)
  {
    if id :| id in s.tasks && s.tasks[id].idempotencyKey == Some(key) {
      assert HasKey(s, id, key);
    }
  }

  lemma FoundKey(s: State, id: string, key: string)
    requires KeysUnique(s.tasks) && KeyOf(s.tasks, id, key)
    ensures KeyUsed(s, key) && TaskWithKey(s, key) == id
  {
    assert HasKey(s, id, key);
    assert KeyOf(s.tasks, TaskWithKey(s, key), key);
  }

  lemma KeysStay(before: Tasks, after: Tasks)
    requires KeysUnique(before)
    requires after.Keys == before.Keys && forall id | id in before :: after[id].idempotencyKey == before[id].idempotencyKey
    ensures KeysUnique(after)
  {
    forall a, b, key | KeyOf(after, a, key) && KeyOf(after, b, key) ensures a == b {
      assert KeyOf(before, a, key) && KeyOf(before, b, key);
    }
  }

  lemma KeysGrow(before: Tasks, after: Tasks, id: string)
    requires KeysUnique(before) && id !in before
    requires after.Keys == before.Keys + {id} && forall other | other in before :: after[other] == before[other]
    requires after[id].idempotencyKey.Some? ==> forall other | other in before :: before[other].idempotencyKey != after[id].idempotencyKey
    ensures KeysUnique(after)
  {
    forall a, b, key | KeyOf(after, a, key) && KeyOf(after, b, key) ensures a == b {
      if a != id { assert KeyOf(before, a, key); }
      if b != id { assert KeyOf(before, b, key); }
    }
  }
}
