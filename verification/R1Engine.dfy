// R1 source-audit engine: candidate staging, leases with fencing epochs,
// failures with a retry budget, and commits guarded by a cache version CAS.
//
// `Apply` gives the meaning of one engine call on a state value; class
// `R1Engine` carries the calls out on a mutable store and is proved against it.
module R1Engine {
  import opened Prelude
  import opened R1Auth
  import opened R1State

  const RETRY_BUDGET: nat := 2

  // What a commit digest covers; the sorted evidence list is its multiset.
  datatype ReviewPayload = ReviewPayload(
    taskId: string, candidateId: string, inputHash: string, committedState: AuditState,
    verdictReason: string, evidence: multiset<string>)

  // The digests are arbitrary functions: nothing below assumes them injective
  // unless a lemma says so.
  datatype Digests = Digests(taskIdOf: string -> string, payloadHash: ReviewPayload -> string)

  datatype Failure =
    | StaleState | AuthorizationDenied(denial: Denial) | InvalidTick | SchemaError
    | FencingConflict | ReceiptConflict | DeadLettered(reason: string)

  datatype Call =
    | Inspect(main: string, candidate: string, docsHash: string, auth: Decision, runtime: AuthorizationRuntime)
    | AcquireLease(main: string, task: string, worker: string, now: int, leaseTicks: int,
                   auth: Decision, runtime: AuthorizationRuntime)
    | Checkpoint(main: string, task: string, worker: string, epoch: int, now: int, ref: string,
                 auth: Decision, runtime: AuthorizationRuntime)
    | RecordFailure(main: string, task: string, worker: string, epoch: int, now: int, reason: string,
                    auth: Decision, runtime: AuthorizationRuntime)
    | Commit(main: string, task: string, worker: string, epoch: int, now: int,
             committed: Option<AuditState>, verdictReason: string, evidence: seq<string>,
             auth: Decision, runtime: AuthorizationRuntime)

  datatype Reply = TaskRef(taskId: Option<string>) | Epoch(epoch: nat) | Done | Committed(receipt: Receipt)

  function Idem(candidate: string, docsHash: string): string {
    "source-review:" + candidate + ":" + docsHash
  }

  function NeedOf(call: Call): Need {
    match call
    case Inspect(_, c, _, _, _) => Need(SourceCacheInspectOrStage, CandidateTarget(c), P1, PublicTermsMetadataOnly)
    case AcquireLease(_, t, _, _, _, _, _) => Need(TaskAcquireLease, TaskTarget(t), P1, InternalR1StateOnly)
    case Checkpoint(_, t, _, _, _, _, _, _) => Need(TaskCheckpoint, TaskTarget(t), P1, InternalR1StateOnly)
    case RecordFailure(_, t, _, _, _, _, _, _) => Need(TaskRecordFailure, TaskTarget(t), P1, InternalR1StateOnly)
    case Commit(_, t, _, _, _, _, _, _, _, _) => Need(SourceReviewCommit, TaskTarget(t), P1, PublicTermsMetadataOnly)
  }

  // Calls that must show the lease they work under.
  predicate Fenced(call: Call) {
    call.Checkpoint? || call.RecordFailure? || call.Commit?
  }

  function TicksOk(call: Call): bool {
    match call
    case Inspect(_, _, _, _, _) => true
    case AcquireLease(_, _, _, now, ticks, _, _) => now >= 0 && ticks >= 1
    case _ => call.epoch >= 0 && call.now >= 0
  }

  /** Everything a call checks before its transaction starts, in source order. */
  function Guard(engineMain: string, call: Call): Option<Failure> {
    var denied := Validate(call.auth, call.runtime, NeedOf(call));
    if call.main != engineMain then Some(StaleState)
    else if !call.Inspect? && call.worker != call.runtime.actorInstance then Some(AuthorizationDenied(WorkerActorMismatch))
    else if !TicksOk(call) then Some(InvalidTick)
    else if call.Checkpoint? && call.ref == "" then Some(SchemaError)
    else if call.RecordFailure? && call.reason == "" then Some(SchemaError)
    else if denied.Some? then Some(AuthorizationDenied(denied.value))
    else if call.Commit? && (call.committed.None? || !Final(call.committed.value)
                             || (call.committed.value.ExplicitIneligible? && call.evidence == []))
    then Some(SchemaError)
    else None
  }

  // `_lease`: owner, epoch and expiry are all compared.
  predicate HoldsLease(t: Task, worker: string, epoch: int, now: int) {
    t.leaseOwner == Some(worker) && t.leaseEpoch == epoch && t.leaseExpiresAt.Some? && now < t.leaseExpiresAt.value
  }

  function FreshEntry(c: string, h: string): CacheEntry {
    CacheEntry(c, [], [h], h, None, ReviewRequired, "", FreshNew, InitialReview, 0)
  }

  function ChangedEntry(x: CacheEntry, h: string): CacheEntry {
    x.(docsHash := h, docsHashes := if h in x.docsHashes then x.docsHashes else x.docsHashes + [h],
       auditState := ChangedReviewRequired, freshness := FreshChanged, recheckTrigger := DocHashChanged,
       verdictReason := "", version := x.version + 1)
  }

  function FreshTask(tid: string, idem: string, c: string, h: string, version: nat, authRef: string): Task {
    Task(tid, idem, c, h, 0, RETRY_BUDGET, None, None, None, None, 0, version, None, authRef, None)
  }

  function Stage(d: Digests, s: State, c: string, h: string, authRef: string): (State, Option<string>) {
    var idem := Idem(c, h);
    if c in s.cache && s.cache[c].docsHash == h && Final(s.cache[c].auditState) then (s, None)
    else if c in s.cache && s.cache[c].docsHash == h && idem in s.index then (s, Some(s.index[idem]))
    else
      var x := if c in s.cache then ChangedEntry(s.cache[c], h) else FreshEntry(c, h);
      var s1 := s.(cache := s.cache[c := x]);
      if idem in s.index then (s1, Some(s.index[idem]))
      else
        var tid := d.taskIdOf(idem);
        (s1.(tasks := s1.tasks[tid := FreshTask(tid, idem, c, h, x.version, authRef)], index := s1.index[idem := tid]),
         Some(tid))
  }

  function Leased(t: Task, worker: string, now: nat, ticks: nat): Task {
    t.(leaseEpoch := t.leaseEpoch + 1, leaseOwner := Some(worker), heartbeatAt := Some(now), leaseExpiresAt := Some(now + ticks))
  }

  function Failed(t: Task, now: nat, reason: string): Task {
    t.(attemptCount := t.attemptCount + 1, heartbeatAt := Some(now),
       deadLetterReason := if t.attemptCount + 1 > t.retryBudget then Some(reason) else t.deadLetterReason)
  }

  function PayloadOf(t: Task, call: Call): ReviewPayload
    requires call.Commit? && call.committed.Some?
  {
    ReviewPayload(call.task, t.candidateId, t.inputHash, call.committed.value, call.verdictReason, multiset(call.evidence))
  }

  function ReviewedEntry(x: CacheEntry, call: Call): CacheEntry
    requires call.Commit? && call.committed.Some?
  {
    x.(auditState := call.committed.value, verdictReason := call.verdictReason, evidenceRefs := call.evidence,
       freshness := FreshReviewed, recheckTrigger := DocHashChangeOrManual,
       lastCheckedAt := Some(call.runtime.now), version := x.version + 1)
  }

  function ReceiptFor(t: Task, payloadHash: string, version: nat, call: Call): Receipt
    requires call.Commit? && call.committed.Some? && call.auth.Decision? && call.epoch >= 0
  {
    Receipt(ReceiptIdOf(payloadHash), t.idempotencyKey, payloadHash, t.candidateId, call.committed.value, version,
            call.auth.decisionId, call.auth.ownerGateRef, call.epoch, call.worker, call.main)
  }

  function CommitReview(d: Digests, s: State, t: Task, call: Call): Result<(State, Receipt), Failure>
    requires call.Commit? && call.committed.Some? && call.auth.Decision? && call.epoch >= 0
  {
    var ph := d.payloadHash(PayloadOf(t, call));
    var idem := t.idempotencyKey;
    if idem in s.receipts then
      if s.receipts[idem].payloadHash != ph then Err(ReceiptConflict) else Ok((s, s.receipts[idem]))
    else if t.candidateId !in s.cache || s.cache[t.candidateId].version != t.expectedCacheVersion
            || s.cache[t.candidateId].docsHash != t.inputHash then Err(StaleState)
    else
      var x := ReviewedEntry(s.cache[t.candidateId], call);
      var r := ReceiptFor(t, ph, x.version, call);
      Ok((s.(cache := s.cache[t.candidateId := x], receipts := s.receipts[idem := r],
             tasks := s.tasks[call.task := t.(durableReceiptRef := Some(r.receiptId))]), r))
  }

  /** The `mutate` closure of each call, on a value. */
  function Mutate(d: Digests, s: State, call: Call): Result<(State, Reply), Failure>
    requires Guard(call.main, call).None?
  {
    if call.Inspect? then
      var staged := Stage(d, s, call.candidate, call.docsHash, call.auth.decisionId);
      Ok((staged.0, TaskRef(staged.1)))
    else if call.task !in s.tasks then Err(StaleState)
    else
      var t := s.tasks[call.task];
      if Dead(t) then Err(DeadLettered(t.deadLetterReason.value))
      else if call.AcquireLease? then
        if t.leaseOwner.Some? && t.leaseExpiresAt.Some? && call.now < t.leaseExpiresAt.value then Err(FencingConflict)
        else
          var t' := Leased(t, call.worker, call.now, call.leaseTicks);
          Ok((s.(tasks := s.tasks[call.task := t']), Epoch(t'.leaseEpoch)))
      else if !HoldsLease(t, call.worker, call.epoch, call.now) then Err(FencingConflict)
      else match call
        case Checkpoint(_, _, _, _, now, ref, _, _) =>
          Ok((s.(tasks := s.tasks[call.task := t.(checkpointRef := Some(ref), heartbeatAt := Some(now))]), Done))
        case RecordFailure(_, _, _, _, now, reason, _, _) =>
          Ok((s.(tasks := s.tasks[call.task := Failed(t, now, reason)]), Done))
        case Commit(_, _, _, _, _, _, _, _, _, _) =>
          match CommitReview(d, s, t, call) {
            case Err(e) => Err(e)
            case Ok(out) => Ok((out.0, Committed(out.1)))
          }
  }

  /** `PersistentStore.transact`: validate, bump the generation on a change, or leave the state as it was. */
  function Transact(s: State, out: Result<(State, Reply), Failure>): (State, Result<Reply, Failure>) {
    match out
    case Err(e) => (s, Err(e))
    case Ok(done) =>
      if !ValidState(done.0) then (s, Err(SchemaError))
      else if done.0 == s then (s, Ok(done.1))
      else (done.0.(generation := s.generation + 1), Ok(done.1))
  }

  function Apply(d: Digests, engineMain: string, s: State, call: Call): (State, Result<Reply, Failure>) {
    match Guard(engineMain, call)
    case Some(e) => (s, Err(e))
    case None => Transact(s, Mutate(d, s, call))
  }
}
