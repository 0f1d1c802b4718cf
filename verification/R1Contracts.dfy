// Every engine call as a whole: exactly when it succeeds on a valid state, and
// what it then writes, field by field.
module R1Contracts {
  import opened Prelude
  import opened R1Auth
  import opened R1State
  import opened R1Engine
  import opened R1Invariants
  import opened R1Progress
  import R1Runs

  // ---- Who may call ----

  // Workers speak for themselves.
  predicate OwnWorker(call: Call)
    requires !call.Inspect?
  {
    call.worker == call.runtime.actorInstance
  }

  ghost predicate Permitted(m: string, call: Call) {
    && call.main == m
    && match call
       case Inspect(_, c, _, auth, rt) =>
         Accepted(auth, rt, Need(SourceCacheInspectOrStage, CandidateTarget(c), P1, PublicTermsMetadataOnly))
       case AcquireLease(_, t, _, now, ticks, auth, rt) =>
         OwnWorker(call) && now >= 0 && ticks >= 1 && Accepted(auth, rt, Need(TaskAcquireLease, TaskTarget(t), P1, InternalR1StateOnly))
       case Checkpoint(_, t, _, epoch, now, ref, auth, rt) =>
         && OwnWorker(call) && now >= 0 && epoch >= 0 && ref != ""
         && Accepted(auth, rt, Need(TaskCheckpoint, TaskTarget(t), P1, InternalR1StateOnly))
       case RecordFailure(_, t, _, epoch, now, reason, auth, rt) =>
         && OwnWorker(call) && now >= 0 && epoch >= 0 && reason != ""
         && Accepted(auth, rt, Need(TaskRecordFailure, TaskTarget(t), P1, InternalR1StateOnly))
       case Commit(_, t, _, epoch, now, committed, _, evidence, auth, rt) =>
         && OwnWorker(call) && now >= 0 && epoch >= 0
         && (committed == Some(ReviewedNoAdmission) || (committed == Some(ExplicitIneligible) && evidence != []))
         && Accepted(auth, rt, Need(SourceReviewCommit, TaskTarget(t), P1, PublicTermsMetadataOnly))
  }

  /** Exactly which calls get past the guard. */
  lemma GuardIff(m: string, call: Call)
    ensures Guard(m, call).None? <==> Permitted(m, call)
  {
    hide Validate, Accepted;
    AcceptedIff(call.auth, call.runtime, NeedOf(call));
  }

  lemma UnpermittedFails(d: Digests, m: string, s: State, call: Call)
    ensures Apply(d, m, s, call).1.Ok? ==> Permitted(m, call) && Guard(m, call).None?
    ensures Permitted(m, call) ==> Guard(m, call).None? && Guard(call.main, call).None?
  {
    hide Guard, Permitted;
    GuardIff(m, call);
    if Permitted(m, call) {
      MainIsOwn(m, call);
    }
  }

  lemma MainIsOwn(m: string, call: Call)
    requires Permitted(m, call)
    ensures call.main == m
  {
  }

  // ---- Leases, checkpoints and failures ----

  predicate Alive(s: State, tid: string) {
    tid in s.tasks && s.tasks[tid].deadLetterReason in {None, Some("")}
  }

  predicate FreeAt(t: Task, now: int) {
    t.leaseOwner.None? || t.leaseExpiresAt.None? || t.leaseExpiresAt.value <= now
  }

  predicate HeldBy(t: Task, worker: string, epoch: int, now: int) {
    t.leaseOwner == Some(worker) && t.leaseEpoch == epoch && t.leaseExpiresAt.Some? && t.leaseExpiresAt.value > now
  }

  // Only the task changes, and the generation counts the transaction if it changes something.
  function WithTask(s: State, tid: string, t: Task): State
    requires tid in s.tasks
  {
    if t == s.tasks[tid] then s else s.(tasks := s.tasks[tid := t], generation := s.generation + 1)
  }

  /** A lease is given exactly to a permitted caller on a live task whose lease is free, for the asked ticks and under the
      next epoch. */
  lemma AcquireIs(d: Digests, m: string, s: State, call: Call)
    requires call.AcquireLease? && ValidState(s)
    ensures Apply(d, m, s, call).1.Ok? <==> Permitted(m, call) && Alive(s, call.task) && FreeAt(s.tasks[call.task], call.now)
    ensures Apply(d, m, s, call).1.Ok? ==>
      && call.now >= 0 && call.leaseTicks >= 1
      && var t := s.tasks[call.task];
      Apply(d, m, s, call) ==
        (WithTask(s, call.task, t.(leaseOwner := Some(call.worker), leaseEpoch := t.leaseEpoch + 1, heartbeatAt := Some(call.now),
                                   leaseExpiresAt := Some(call.now + call.leaseTicks))),
         Ok(Epoch(t.leaseEpoch + 1)))
  {
    hide Apply, Guard, ValidState, Accepted;
    UnpermittedFails(d, m, s, call);
    if Permitted(m, call) {
      AcquireSucceedsIff(d, m, s, call);
    }
  }

  lemma CheckpointIs(d: Digests, m: string, s: State, call: Call)
    requires call.Checkpoint? && ValidState(s)
    ensures Apply(d, m, s, call).1.Ok? <==>
      Permitted(m, call) && Alive(s, call.task) && HeldBy(s.tasks[call.task], call.worker, call.epoch, call.now)
    ensures Apply(d, m, s, call).1.Ok? ==>
      && call.now >= 0
      && var t := s.tasks[call.task];
      Apply(d, m, s, call) == (WithTask(s, call.task, t.(checkpointRef := Some(call.ref), heartbeatAt := Some(call.now))), Ok(Done))
  {
    hide Guard, ValidState, Accepted;
    UnpermittedFails(d, m, s, call);
    if Permitted(m, call) {
      CheckpointSucceedsIff(d, m, s, call);
      SameTasks(s, call.task);
    }
  }

  lemma SameTasks(s: State, tid: string)
    ensures tid in s.tasks ==> s.(tasks := s.tasks[tid := s.tasks[tid]]) == s
  {
    if tid in s.tasks {
      assert s.tasks[tid := s.tasks[tid]] == s.tasks;
    }
  }

  /** A failure is recorded exactly for a permitted holder of a live task's lease: it counts one attempt, and the one that
      passes the budget dead-letters the task with its own reason. */
  lemma RecordFailureIs(d: Digests, m: string, s: State, call: Call)
    requires call.RecordFailure? && ValidState(s)
    ensures Apply(d, m, s, call).1.Ok? <==>
      Permitted(m, call) && Alive(s, call.task) && HeldBy(s.tasks[call.task], call.worker, call.epoch, call.now)
    ensures Apply(d, m, s, call).1.Ok? ==>
      && call.now >= 0
      && var t := s.tasks[call.task];
      Apply(d, m, s, call) ==
        (WithTask(s, call.task, t.(attemptCount := t.attemptCount + 1, heartbeatAt := Some(call.now),
                                   deadLetterReason := if t.attemptCount < t.retryBudget then t.deadLetterReason else Some(call.reason))),
         Ok(Done))
  {
    hide Guard, ValidState, Accepted;
    UnpermittedFails(d, m, s, call);
    if Permitted(m, call) && Alive(s, call.task) && HeldBy(s.tasks[call.task], call.worker, call.epoch, call.now) {
      var t := s.tasks[call.task];
      var t' := Failed(t, call.now, call.reason);
      EditedTaskValidates(s, call.task, t');
      assert s.tasks[call.task := t'][call.task] != t;
    }
  }

  // ---- Inspections ----

  function KeyOf(c: string, h: string): string {
    "source-review:" + c + ":" + h
  }

  // The entry an inspection of a new or changed document leaves.
  function EntryAfter(s: State, c: string, h: string): CacheEntry {
    if c !in s.cache then CacheEntry(c, [], [h], h, None, ReviewRequired, "", FreshNew, InitialReview, 0)
    else
      var x := s.cache[c];
      CacheEntry(x.candidateId, x.evidenceRefs, if h in x.docsHashes then x.docsHashes else x.docsHashes + [h], h, x.lastCheckedAt,
                 ChangedReviewRequired, "", FreshChanged, DocHashChanged, x.version + 1)
  }

  // The task of a key that has none.
  function TaskAfter(tid: string, c: string, h: string, version: nat, decision: string): Task {
    Task(tid, KeyOf(c, h), c, h, 0, 2, None, None, None, None, 0, version, None, decision, None)
  }

  // The document is the one the entry has, and its review is over or under way.
  predicate Known(s: State, c: string, h: string) {
    c in s.cache && s.cache[c].docsHash == h && (s.cache[c].auditState in {ReviewedNoAdmission, ExplicitIneligible} || KeyOf(c, h) in s.index)
  }

  // What a successful inspection does.
  function Inspected(d: Digests, s: State, c: string, h: string, decision: string): (State, Option<string>) {
    var key := KeyOf(c, h);
    var tid := if key in s.index then s.index[key] else d.taskIdOf(key);
    if Known(s, c, h) then (s, if s.cache[c].auditState in {ReviewedNoAdmission, ExplicitIneligible} then None else Some(tid))
    else
      var x := EntryAfter(s, c, h);
      (State(s.generation + 1, s.cache[c := x],
             if key in s.index then s.tasks else s.tasks[tid := TaskAfter(tid, c, h, x.version, decision)],
             s.index[key := tid], s.receipts),
       Some(tid))
  }

  /** An inspection succeeds exactly for a permitted caller when the document is known, or the candidate can be named and
      the key has a task or gets an id nobody has; a known document changes nothing, a new or changed one opens the entry
      for review under the next version and stages one task against that version. */
  lemma InspectIs(d: Digests, m: string, s: State, call: Call)
    requires call.Inspect? && ValidState(s)
    ensures var c, h := call.candidate, call.docsHash;
      Apply(d, m, s, call).1.Ok? <==>
        && Permitted(m, call)
        && (|| Known(s, c, h)
            || (c != "" && KeyOf(c, h) in s.index)
            || (c != "" && h != "" && d.taskIdOf(KeyOf(c, h)) != "" && d.taskIdOf(KeyOf(c, h)) !in s.tasks))
    ensures Apply(d, m, s, call).1.Ok? ==>
      && call.auth.Decision?
      && var out := Inspected(d, s, call.candidate, call.docsHash, call.auth.decisionId);
      Apply(d, m, s, call) == (out.0, Ok(TaskRef(out.1)))
  {
    hide Guard, ValidState, Accepted, Apply, Stage;
    UnpermittedFails(d, m, s, call);
    if Permitted(m, call) {
      InspectSucceedsIff(d, m, s, call);
      if Stageable(d, s, call.candidate, call.docsHash) {
        InspectGuardGives(m, call);
        StageIs(d, s, call.candidate, call.docsHash, call.auth.decisionId);
      }
    }
  }

  lemma StageIs(d: Digests, s: State, c: string, h: string, decision: string)
    ensures var staged, out := Stage(d, s, c, h, decision), Inspected(d, s, c, h, decision);
      && staged.1 == out.1 && out.0 == (if staged.0 == s then s else staged.0.(generation := s.generation + 1))
  {
    assert Idem(c, h) == KeyOf(c, h);
    var key := KeyOf(c, h);
    if key in s.index {
      assert s.index[key := s.index[key]] == s.index;
    }
    if !Known(s, c, h) && c in s.cache {
      assert s.cache[c := EntryAfter(s, c, h)][c].version != s.cache[c].version;
    }
  }

  // ---- Commits ----

  function PayloadHash(d: Digests, t: Task, call: Call): string
    requires call.Commit? && call.committed.Some?
  {
    d.payloadHash(ReviewPayload(call.task, t.candidateId, t.inputHash, call.committed.value, call.verdictReason, multiset(call.evidence)))
  }

  // The entry is the one the task was staged against.
  predicate Untouched(s: State, t: Task) {
    && t.candidateId in s.cache
    && s.cache[t.candidateId].version == t.expectedCacheVersion && s.cache[t.candidateId].docsHash == t.inputHash
  }

  // The receipt's fields can be stored.
  predicate Writable(hash: string, call: Call)
    requires call.Commit? && call.auth.Decision?
  {
    IsHexAnyCase(hash, 64) && IsHexAnyCase(call.main, 40) && call.worker != "" && call.auth.ownerGateRef != Some("")
  }

  function NewReceipt(hash: string, t: Task, version: nat, call: Call): Receipt
    requires call.Commit? && call.committed.Some? && call.auth.Decision? && call.epoch >= 0 && |hash| >= 20
  {
    Receipt("receipt-" + hash[..20], t.idempotencyKey, hash, t.candidateId, call.committed.value, version,
            call.auth.decisionId, call.auth.ownerGateRef, call.epoch, call.worker, call.main)
  }

  function ReviewedBy(x: CacheEntry, call: Call): CacheEntry
    requires call.Commit? && call.committed.Some?
  {
    CacheEntry(x.candidateId, call.evidence, x.docsHashes, x.docsHash, Some(call.runtime.now), call.committed.value, call.verdictReason,
               FreshReviewed, DocHashChangeOrManual, x.version + 1)
  }

  // What a commit that creates its receipt leaves.
  function CommittedBy(s: State, hash: string, call: Call): State
    requires call.Commit? && call.committed.Some? && call.auth.Decision? && call.epoch >= 0 && |hash| >= 20
    requires call.task in s.tasks && s.tasks[call.task].candidateId in s.cache
  {
    var t := s.tasks[call.task];
    var x := s.cache[t.candidateId];
    var r := NewReceipt(hash, t, x.version + 1, call);
    State(s.generation + 1, s.cache[t.candidateId := ReviewedBy(x, call)],
          s.tasks[call.task := t.(durableReceiptRef := Some(r.receiptId))], s.index, s.receipts[t.idempotencyKey := r])
  }

  lemma CommitGives(m: string, call: Call)
    requires call.Commit? && Permitted(m, call)
    ensures call.committed.Some? && call.auth.Decision? && call.epoch >= 0
  {
  }

  /** A commit succeeds exactly for a permitted holder of a live task's lease, whose key has a receipt of this very payload
      or none while the entry is untouched and the receipt can be stored. It returns the receipt there is, or writes one
      that carries the call's decision, gate, epoch, worker and main beside the entry with its verdict and evidence. */
  lemma CommitIs(d: Digests, m: string, s: State, call: Call)
    requires call.Commit? && ValidState(s)
    ensures Apply(d, m, s, call).1.Ok? <==>
      && Permitted(m, call) && Alive(s, call.task) && HeldBy(s.tasks[call.task], call.worker, call.epoch, call.now)
      && call.committed.Some? && call.auth.Decision?
      && var t := s.tasks[call.task];
      if t.idempotencyKey in s.receipts then s.receipts[t.idempotencyKey].payloadHash == PayloadHash(d, t, call)
      else Untouched(s, t) && Writable(PayloadHash(d, t, call), call)
    ensures Apply(d, m, s, call).1.Ok? ==>
      && call.committed.Some? && call.auth.Decision? && call.epoch >= 0 && call.task in s.tasks
      && var t := s.tasks[call.task]; var hash := PayloadHash(d, t, call);
      if t.idempotencyKey in s.receipts then Apply(d, m, s, call) == (s, Ok(Committed(s.receipts[t.idempotencyKey])))
      else
        && |hash| >= 20 && t.candidateId in s.cache
        && Apply(d, m, s, call) ==
             (CommittedBy(s, hash, call), Ok(Committed(NewReceipt(hash, t, s.cache[t.candidateId].version + 1, call))))
  {
    hide Guard, ValidState, Accepted, Apply, Permitted, IsHexAnyCase;
    UnpermittedFails(d, m, s, call);
    if Permitted(m, call) && call.task in s.tasks {
      CommitGives(m, call);
      if s.tasks[call.task].idempotencyKey in s.receipts {
        ReplayIs(d, m, s, call);
      } else {
        R1Runs.CommitCreatesReceiptIff(d, m, s, call);
        if Apply(d, m, s, call).1.Ok? { NewCommitIs(d, m, s, call); }
      }
    } else if call.task !in s.tasks {
      NoTaskNoCommit(d, m, s, call);
    }
  }

  lemma NoTaskNoCommit(d: Digests, m: string, s: State, call: Call)
    requires call.Commit? && call.task !in s.tasks
    ensures Apply(d, m, s, call).1.Err?
  {
    hide Guard, ValidState;
  }

  lemma ReplayIs(d: Digests, m: string, s: State, call: Call)
    requires call.Commit? && Guard(m, call).None? && Guard(call.main, call).None? && ValidState(s) && call.task in s.tasks
    requires call.committed.Some? && call.auth.Decision? && s.tasks[call.task].idempotencyKey in s.receipts
    ensures var t := s.tasks[call.task];
      && (Apply(d, m, s, call).1.Ok? <==>
            Alive(s, call.task) && HeldBy(t, call.worker, call.epoch, call.now)
            && s.receipts[t.idempotencyKey].payloadHash == PayloadHash(d, t, call))
      && (Apply(d, m, s, call).1.Ok? ==> Apply(d, m, s, call) == (s, Ok(Committed(s.receipts[t.idempotencyKey]))))
  {
    hide Guard, ValidState, ReceiptIdOf;
    var t := s.tasks[call.task];
    assert Alive(s, call.task) <==> !Dead(t);
    assert HeldBy(t, call.worker, call.epoch, call.now) <==> HoldsLease(t, call.worker, call.epoch, call.now);
    assert PayloadHash(d, t, call) == d.payloadHash(PayloadOf(t, call));
  }

  lemma NewCommitIs(d: Digests, m: string, s: State, call: Call)
    requires call.Commit? && Guard(m, call).None? && Guard(call.main, call).None? && call.task in s.tasks && Apply(d, m, s, call).1.Ok?
    requires call.committed.Some? && call.auth.Decision? && s.tasks[call.task].idempotencyKey !in s.receipts
    ensures var t := s.tasks[call.task]; var hash := PayloadHash(d, t, call);
      call.epoch >= 0 && t.candidateId in s.cache
      && (IsHexAnyCase(hash, 64) ==> |hash| >= 20 && Apply(d, m, s, call) == (CommittedBy(s, hash, call), Ok(Committed(NewReceipt(hash, t, s.cache[t.candidateId].version + 1, call)))))
  {
    hide Guard, ValidState;
    CommitGuardGives(m, call);
    var t := s.tasks[call.task];
    assert s.receipts[t.idempotencyKey := ReceiptFor(t, PayloadHash(d, t, call), s.cache[t.candidateId].version + 1, call)] != s.receipts;
  }
}
