// The engine over whole runs: any sequence of calls by any workers, with any
// decisions and any ticks, on one durable store.
module R1Runs {
  import opened Prelude
  import opened R1Auth
  import opened R1State
  import opened R1Engine
  import opened R1Invariants
  import opened R1Steps
  import opened R1Keys

  datatype Step = Step(engineMain: string, call: Call)

  // `states[k]` is the durable state after `k` calls and `replies[k]` the answer to call `k`.
  datatype Behaviour = Behaviour(states: seq<State>, replies: seq<Result<Reply, Failure>>)

  ghost predicate StepOk(d: Digests, run: seq<Step>, b: Behaviour, k: nat)
    requires k < |run| == |b.replies| == |b.states| - 1
  {
    (b.states[k + 1], b.replies[k]) == Apply(d, run[k].engineMain, b.states[k], run[k].call)
  }

  ghost predicate IsRun(d: Digests, run: seq<Step>, b: Behaviour) {
    && |run| == |b.replies| == |b.states| - 1
    && forall k {:trigger StepOk(d, run, b, k)} | 0 <= k < |run| :: StepOk(d, run, b, k)
  }

  // Every sequence of calls on every state has its behaviour.
  ghost function Execute(d: Digests, s0: State, run: seq<Step>): (b: Behaviour)
    ensures IsRun(d, run, b) && b.states[0] == s0
  {
    if run == [] then Behaviour([s0], [])
    else
      var n := |run| - 1;
      var b := Execute(d, s0, run[..n]);
      var out := Apply(d, run[n].engineMain, b.states[n], run[n].call);
      var b' := Behaviour(b.states + [out.0], b.replies + [out.1]);
      RunExtends(d, run, b, b');
      b'
  }

  lemma RunExtends(d: Digests, run: seq<Step>, b: Behaviour, b': Behaviour)
    requires run != [] && var n := |run| - 1;
      && IsRun(d, run[..n], b) && |b'.states| == n + 2 && |b'.replies| == n + 1
      && b'.states[..n + 1] == b.states && b'.replies[..n] == b.replies
      && (b'.states[n + 1], b'.replies[n]) == Apply(d, run[n].engineMain, b.states[n], run[n].call)
    ensures IsRun(d, run, b')
  {
    hide Apply;
    var n := |run| - 1;
    forall k | 0 <= k < |run| ensures StepOk(d, run, b', k) {
      assert b'.states[..n + 1][k] == b'.states[k];
      if k < n {
        assert StepOk(d, run[..n], b, k);
        assert b'.states[..n + 1][k + 1] == b'.states[k + 1] && b'.replies[..n][k] == b'.replies[k];
      }
    }
  }

  // ---- One step of a run ----

  lemma InvStep(d: Digests, run: seq<Step>, b: Behaviour, k: nat)
    requires IsRun(d, run, b) && k < |run| && EngineInv(d, b.states[k])
    ensures EngineInv(d, b.states[k + 1])
  {
    assert StepOk(d, run, b, k);
    ApplyKeeps(d, run[k].engineMain, b.states[k], run[k].call);
  }

  lemma ValidUnderGeneration(s: State, g: nat)
    requires ValidState(s)
    ensures ValidState(s.(generation := g))
  {
    var s' := s.(generation := g);
    forall c | c in s'.cache ensures ValidCacheEntry(s', c) { assert ValidCacheEntry(s, c); }
    forall tid | tid in s'.tasks ensures ValidTask(s', tid) { assert ValidTask(s, tid); }
    forall idem | idem in s'.index ensures ValidIndexEntry(s', idem) { assert ValidIndexEntry(s, idem); }
    forall idem | idem in s'.receipts ensures ValidReceipt(s', idem) { assert ValidReceipt(s, idem); }
  }

  lemma ValidStep(d: Digests, run: seq<Step>, b: Behaviour, k: nat)
    requires IsRun(d, run, b) && k < |run| && ValidState(b.states[k])
    ensures ValidState(b.states[k + 1])
    ensures b.states[k + 1].generation == b.states[k].generation + if b.states[k + 1] != b.states[k] then 1 else 0
    ensures b.replies[k].Err? ==> b.states[k + 1] == b.states[k]
  {
    assert StepOk(d, run, b, k);
    ApplyEffect(d, run[k].engineMain, b.states[k], run[k].call);
    if b.states[k + 1] != b.states[k] {
      ValidUnderGeneration(Mutate(d, b.states[k], run[k].call).value.0, b.states[k].generation + 1);
    }
  }

  lemma TaskStepAt(d: Digests, run: seq<Step>, b: Behaviour, k: nat, tid: string)
    requires IsRun(d, run, b) && k < |run| && ValidState(b.states[k]) && tid in b.states[k].tasks
    ensures TaskMoves(b.states[k], b.states[k + 1], tid)
  {
    assert StepOk(d, run, b, k);
    TaskStep(d, run[k].engineMain, b.states[k], run[k].call, tid);
  }

  lemma EntryStepAt(d: Digests, run: seq<Step>, b: Behaviour, k: nat, c: string)
    requires IsRun(d, run, b) && k < |run| && c in b.states[k].cache
    ensures EntryMoves(b.states[k], b.states[k + 1], c)
  {
    assert StepOk(d, run, b, k);
    EntryStep(d, run[k].engineMain, b.states[k], run[k].call, c);
  }

  lemma ReceiptStepAt(d: Digests, run: seq<Step>, b: Behaviour, k: nat, idem: string)
    requires IsRun(d, run, b) && k < |run| && idem in b.states[k].receipts
    ensures idem in b.states[k + 1].receipts && b.states[k + 1].receipts[idem] == b.states[k].receipts[idem]
  {
    assert StepOk(d, run, b, k);
    ApplyEffect(d, run[k].engineMain, b.states[k], run[k].call);
  }

  // ---- Whole runs ----

  ghost predicate AcquiresAt(run: seq<Step>, b: Behaviour, k: nat, tid: string)
    requires k < |run| && |b.replies| == |run|
  {
    b.replies[k].Ok? && run[k].call.AcquireLease? && run[k].call.task == tid
  }

  // Successful acquisitions of `tid` among the first `k` calls, and who made the last one.
  ghost function Acquisitions(run: seq<Step>, b: Behaviour, k: nat, tid: string): nat
    requires k <= |run| == |b.replies|
  {
    if k == 0 then 0
    else Acquisitions(run, b, k - 1, tid) + if AcquiresAt(run, b, k - 1, tid) then 1 else 0
  }

  ghost function LastAcquirer(run: seq<Step>, b: Behaviour, k: nat, tid: string): Option<string>
    requires k <= |run| == |b.replies|
  {
    if k == 0 then None
    else if AcquiresAt(run, b, k - 1, tid) then Some(run[k - 1].call.worker)
    else LastAcquirer(run, b, k - 1, tid)
  }

  // Transactions that changed the state among the first `k` calls.
  ghost function Changes(b: Behaviour, k: nat): nat
    requires k < |b.states|
  {
    if k == 0 then 0
    else Changes(b, k - 1) + if b.states[k] != b.states[k - 1] then 1 else 0
  }

  lemma {:induction false} ReachableInv(d: Digests, run: seq<Step>, b: Behaviour, k: nat)
    requires IsRun(d, run, b) && EngineInv(d, b.states[0]) && k <= |run|
    ensures EngineInv(d, b.states[k])
  {
    if k > 0 {
      ReachableInv(d, run, b, k - 1);
      InvStep(d, run, b, k - 1);
    }
  }

  /** Referential integrity over runs: every reachable state passes the schema
      validation, and the generation counts the changing transactions. */
  lemma {:induction false} EveryStateValidates(d: Digests, run: seq<Step>, b: Behaviour, k: nat)
    requires IsRun(d, run, b) && ValidState(b.states[0]) && k <= |run|
    ensures ValidState(b.states[k])
    ensures b.states[k].generation == b.states[0].generation + Changes(b, k)
  {
    if k > 0 {
      EveryStateValidates(d, run, b, k - 1);
      ValidStep(d, run, b, k - 1);
    }
  }

  /** No existing task is ever overwritten, with any task-id digest: its identity is
      fixed, its attempts only grow, and once dead-lettered its record is frozen. */
  lemma {:induction false} TaskHistory(d: Digests, run: seq<Step>, b: Behaviour, i: nat, j: nat, tid: string)
    requires IsRun(d, run, b) && ValidState(b.states[0]) && i <= j <= |run| && tid in b.states[i].tasks
    ensures TaskMoves(b.states[i], b.states[j], tid)
    decreases j
  {
    if i < j {
      TaskHistory(d, run, b, i, j - 1, tid);
      EveryStateValidates(d, run, b, j - 1);
      TaskStepAt(d, run, b, j - 1, tid);
    }
  }

  /** Cache versions order the whole history of an entry: an equal version means nothing happened to it in between. */
  lemma {:induction false} EntryHistory(d: Digests, run: seq<Step>, b: Behaviour, i: nat, j: nat, c: string)
    requires IsRun(d, run, b) && i <= j <= |run| && c in b.states[i].cache
    ensures EntryMoves(b.states[i], b.states[j], c)
    decreases j
  {
    if i < j {
      EntryHistory(d, run, b, i, j - 1, c);
      EntryStepAt(d, run, b, j - 1, c);
    }
  }

  /** Receipts are grow-only. */
  lemma {:induction false} ReceiptHistory(d: Digests, run: seq<Step>, b: Behaviour, i: nat, j: nat, idem: string)
    requires IsRun(d, run, b) && i <= j <= |run| && idem in b.states[i].receipts
    ensures idem in b.states[j].receipts && b.states[j].receipts[idem] == b.states[i].receipts[idem]
    decreases j
  {
    if i < j {
      ReceiptHistory(d, run, b, i, j - 1, idem);
      ReceiptStepAt(d, run, b, j - 1, idem);
    }
  }

  // ---- Version compare-and-swap against ABA ----

  ghost predicate StagedAt(b: Behaviour, i: nat, tid: string)
    requires i + 1 < |b.states|
  {
    tid !in b.states[i].tasks && tid in b.states[i + 1].tasks
  }

  ghost predicate ReceiptCreatedAt(b: Behaviour, j: nat, idem: string)
    requires j + 1 < |b.states|
  {
    idem !in b.states[j].receipts && idem in b.states[j + 1].receipts
  }

  // The entry a task was staged against: present, and at the task's expected version.
  ghost predicate EntryAtExpectedVersion(s: State, tid: string)
    requires tid in s.tasks
  {
    var t := s.tasks[tid];
    t.candidateId in s.cache && s.cache[t.candidateId].version == t.expectedCacheVersion
  }

  lemma StagingRecordsVersion(d: Digests, run: seq<Step>, b: Behaviour, i: nat, tid: string)
    requires IsRun(d, run, b) && i < |run| && StagedAt(b, i, tid)
    ensures EntryAtExpectedVersion(b.states[i + 1], tid)
  {
    assert StepOk(d, run, b, i);
    ApplyEffect(d, run[i].engineMain, b.states[i], run[i].call);
  }

  lemma NewReceiptNeedsVersion(d: Digests, run: seq<Step>, b: Behaviour, j: nat, tid: string)
    requires IsRun(d, run, b) && j < |run| && ValidState(b.states[j]) && tid in b.states[j].tasks
    requires ReceiptCreatedAt(b, j, b.states[j].tasks[tid].idempotencyKey)
    ensures run[j].call.Commit? && run[j].call.task == tid && b.replies[j].Ok?
    ensures EntryAtExpectedVersion(b.states[j], tid)
  {
    var s, call := b.states[j], run[j].call;
    assert StepOk(d, run, b, j);
    ApplyEffect(d, run[j].engineMain, s, call);
    assert call.Commit? && call.task in s.tasks;
    assert ValidTask(s, tid) && ValidTask(s, call.task);
  }

  /** A commit creates a receipt only when the candidate's cache entry has been
      the very same entry at every moment since the task was staged, even if the
      document hash changed and came back. */
  lemma CommitSeesAnUntouchedEntry(d: Digests, run: seq<Step>, b: Behaviour, i: nat, j: nat, tid: string, k: nat)
    requires IsRun(d, run, b) && ValidState(b.states[0]) && i < j < |run| && i < k <= j
    requires StagedAt(b, i, tid) && tid in b.states[j].tasks
    requires ReceiptCreatedAt(b, j, b.states[j].tasks[tid].idempotencyKey)
    ensures var c := b.states[j].tasks[tid].candidateId;
      c in b.states[i + 1].cache && c in b.states[k].cache && b.states[k].cache[c] == b.states[i + 1].cache[c]
  {
    var c := b.states[j].tasks[tid].candidateId;
    StagingRecordsVersion(d, run, b, i, tid);
    TaskHistory(d, run, b, i + 1, j, tid);
    EveryStateValidates(d, run, b, j);
    NewReceiptNeedsVersion(d, run, b, j, tid);
    EntryHistory(d, run, b, i + 1, k, c);
    EntryHistory(d, run, b, k, j, c);
  }

  // ---- Lease fencing without a trusted clock ----

  lemma LeaseStepAt(d: Digests, run: seq<Step>, b: Behaviour, k: nat, tid: string)
    requires IsRun(d, run, b) && k < |run| && ValidState(b.states[k])
    ensures tid in b.states[k + 1].tasks ==> LeaseMoves(b.states[k], b.states[k + 1], run[k].call, b.replies[k].Ok?, tid)
    ensures AcquiresAt(run, b, k, tid)
         ==> tid in b.states[k].tasks && b.replies[k].value == Epoch(b.states[k].tasks[tid].leaseEpoch + 1)
    ensures tid in b.states[k].tasks ==> tid in b.states[k + 1].tasks
  {
    assert StepOk(d, run, b, k);
    if tid in b.states[k + 1].tasks {
      LeaseStep(d, run[k].engineMain, b.states[k], run[k].call, tid);
    }
    if AcquiresAt(run, b, k, tid) {
      AcquiredStateDiffers(d, run[k].engineMain, b.states[k], run[k].call);
    }
    if tid in b.states[k].tasks {
      TaskStepAt(d, run, b, k, tid);
    }
  }

  /** The fencing epoch counts the successful acquisitions, and the owner is the latest acquirer. */
  lemma {:induction false} EpochCountsAcquisitions(d: Digests, run: seq<Step>, b: Behaviour, k: nat, tid: string)
    requires IsRun(d, run, b) && ValidState(b.states[0]) && k <= |run| && tid !in b.states[0].tasks
    ensures if tid in b.states[k].tasks
            then b.states[k].tasks[tid].leaseEpoch == Acquisitions(run, b, k, tid)
                 && b.states[k].tasks[tid].leaseOwner == LastAcquirer(run, b, k, tid)
            else Acquisitions(run, b, k, tid) == 0 && LastAcquirer(run, b, k, tid).None?
  {
    if k > 0 {
      EpochCountsAcquisitions(d, run, b, k - 1, tid);
      EveryStateValidates(d, run, b, k - 1);
      LeaseStepAt(d, run, b, k - 1, tid);
    }
  }

  lemma FencedStepAt(d: Digests, run: seq<Step>, b: Behaviour, k: nat)
    requires IsRun(d, run, b) && k < |run| && Fenced(run[k].call) && b.replies[k].Ok?
    ensures var call := run[k].call;
      call.task in b.states[k].tasks && !Dead(b.states[k].tasks[call.task])
      && HoldsLease(b.states[k].tasks[call.task], call.worker, call.epoch, call.now)
  {
    assert StepOk(d, run, b, k);
    ApplyEffect(d, run[k].engineMain, b.states[k], run[k].call);
  }

  /** Whatever ticks the callers pass, a checkpoint, failure or commit that succeeds
      carries the newest epoch and comes from the worker that acquired it. */
  lemma FencedCallIsTheLatestHolder(d: Digests, run: seq<Step>, b: Behaviour, k: nat)
    requires IsRun(d, run, b) && ValidState(b.states[0])
    requires k < |run| && Fenced(run[k].call) && b.replies[k].Ok? && run[k].call.task !in b.states[0].tasks
    ensures run[k].call.epoch == Acquisitions(run, b, k, run[k].call.task)
    ensures LastAcquirer(run, b, k, run[k].call.task) == Some(run[k].call.worker)
  {
    EpochCountsAcquisitions(d, run, b, k, run[k].call.task);
    FencedStepAt(d, run, b, k);
  }

  lemma {:induction false} AcquisitionsGrow(run: seq<Step>, b: Behaviour, i: nat, j: nat, tid: string)
    requires i <= j <= |run| == |b.replies|
    ensures Acquisitions(run, b, i, tid) <= Acquisitions(run, b, j, tid)
    decreases j
  {
    if i < j {
      AcquisitionsGrow(run, b, i, j - 1, tid);
    }
  }

  /** Once the lease has been taken over, every later call with an earlier epoch is refused. */
  lemma SupersededHolderIsFenced(d: Digests, run: seq<Step>, b: Behaviour, i: nat, j: nat, k: nat, tid: string)
    requires IsRun(d, run, b) && ValidState(b.states[0]) && tid !in b.states[0].tasks && i < j < k < |run|
    requires AcquiresAt(run, b, i, tid) && AcquiresAt(run, b, j, tid)
    requires Fenced(run[k].call) && run[k].call.task == tid
    requires b.replies[i].value.Epoch? && b.replies[i].value.epoch == run[k].call.epoch
    ensures b.replies[k].Err? && b.states[k + 1] == b.states[k]
  {
    EveryStateValidates(d, run, b, i);
    LeaseStepAt(d, run, b, i, tid);
    EpochCountsAcquisitions(d, run, b, i, tid);
    assert run[k].call.epoch == Acquisitions(run, b, i + 1, tid);
    AcquisitionsGrow(run, b, i + 1, j, tid);
    AcquisitionsGrow(run, b, j + 1, k, tid);
    assert Acquisitions(run, b, j + 1, tid) == Acquisitions(run, b, j, tid) + 1;
    if b.replies[k].Ok? {
      FencedCallIsTheLatestHolder(d, run, b, k);
    } else {
      EveryStateValidates(d, run, b, k);
      ValidStep(d, run, b, k);
    }
  }

  /** The retry budget over runs: attempts stop at budget + 1, and dead-lettering happens exactly there. */
  lemma AttemptsAreBounded(d: Digests, run: seq<Step>, b: Behaviour, k: nat, tid: string)
    requires IsRun(d, run, b) && EngineInv(d, b.states[0]) && k <= |run| && tid in b.states[k].tasks
    ensures var t := b.states[k].tasks[tid];
      && t.attemptCount <= t.retryBudget + 1 == RETRY_BUDGET + 1
      && (Dead(t) <==> t.attemptCount == t.retryBudget + 1)
  {
    ReachableInv(d, run, b, k);
    assert TaskInv(d, b.states[k], tid);
  }

  // ---- Receipts and the cache ----

  /** A cache entry is final exactly when a receipt of that candidate carries its version and its state,
      and that receipt is unique. */
  lemma FinalMeansExactlyOneReceipt(d: Digests, run: seq<Step>, b: Behaviour, k: nat, c: string)
    requires IsRun(d, run, b) && EngineInv(d, b.states[0]) && k <= |run| && c in b.states[k].cache
    ensures Final(b.states[k].cache[c].auditState) <==> exists idem :: Sealed(b.states[k], c, idem)
    ensures forall i, j | Sealed(b.states[k], c, i) && Sealed(b.states[k], c, j) :: i == j
  {
    ReachableInv(d, run, b, k);
    FinalIffSealed(d, b.states[k], c);
  }

  ghost predicate StoredReply(b: Behaviour, run: seq<Step>, k: nat)
    requires k < |run| == |b.replies| == |b.states| - 1 && run[k].call.Commit?
  {
    var s, s', tid := b.states[k], b.states[k + 1], run[k].call.task;
    && tid in s.tasks && s.tasks[tid].idempotencyKey in s'.receipts
    && b.replies[k] == Ok(Committed(s'.receipts[s.tasks[tid].idempotencyKey]))
  }

  lemma CommittedReceiptIsStored(d: Digests, run: seq<Step>, b: Behaviour, k: nat)
    requires IsRun(d, run, b) && k < |run| && run[k].call.Commit? && b.replies[k].Ok?
    ensures StoredReply(b, run, k)
  {
    assert StepOk(d, run, b, k);
    ApplyEffect(d, run[k].engineMain, b.states[k], run[k].call);
  }

  /** Every successful commit of a task returns the receipt of the first one. */
  lemma ReplaysReturnTheFirstReceipt(d: Digests, run: seq<Step>, b: Behaviour, i: nat, j: nat)
    requires IsRun(d, run, b) && ValidState(b.states[0]) && i < j < |run|
    requires run[i].call.Commit? && run[j].call.Commit? && run[i].call.task == run[j].call.task
    requires b.replies[i].Ok? && b.replies[j].Ok?
    ensures b.replies[i] == b.replies[j]
  {
    var tid := run[i].call.task;
    CommittedReceiptIsStored(d, run, b, i);
    CommittedReceiptIsStored(d, run, b, j);
    TaskHistory(d, run, b, i, j, tid);
    ReceiptHistory(d, run, b, i + 1, j + 1, b.states[i].tasks[tid].idempotencyKey);
  }

  // What a successful commit does to the entry and to the receipt of its task.
  lemma CommitOutcome(d: Digests, run: seq<Step>, b: Behaviour, k: nat)
    requires IsRun(d, run, b) && EngineInv(d, b.states[0]) && k < |run| && run[k].call.Commit? && b.replies[k].Ok?
    ensures StoredReply(b, run, k)
    ensures var s, s' := b.states[k], b.states[k + 1];
      var t := s.tasks[run[k].call.task];
      var c, idem := t.candidateId, t.idempotencyKey;
      && c in s.cache && c in s'.cache && s'.receipts[idem].candidateId == c
      && (idem in s.receipts ==> s' == s)
      && (idem !in s.receipts ==> Final(s'.cache[c].auditState) && Sealed(s', c, idem))
  {
    hide Guard, ValidState, Idem, ReceiptIdOf, Stage;
    CommittedReceiptIsStored(d, run, b, k);
    ReachableInv(d, run, b, k);
    var s, call := b.states[k], run[k].call;
    var t := s.tasks[call.task];
    assert TaskInv(d, s, call.task);
    assert StepOk(d, run, b, k);
    ApplyEffect(d, run[k].engineMain, s, call);
    CommitGuardGives(run[k].engineMain, call);
    if t.idempotencyKey in s.receipts {
      ReceiptOfTask(d, s, call.task);
    }
  }

  lemma ReceiptOfTask(d: Digests, s: State, tid: string)
    requires EngineInv(d, s) && tid in s.tasks && s.tasks[tid].idempotencyKey in s.receipts
    ensures s.receipts[s.tasks[tid].idempotencyKey].candidateId == s.tasks[tid].candidateId
  {
    assert ValidTask(s, tid) && ValidReceipt(s, s.tasks[tid].idempotencyKey);
  }

  /** When a returned receipt means a final entry, read off the state before the call: a successful commit leaves
      the entry FINAL and sealed by the receipt it returns exactly when the task had no receipt yet, or the entry
      still has the version its receipt gave it.  The entry is FINAL without that exactly when another task's
      receipt seals it. */
  lemma CommitReplySealsCacheIff(d: Digests, run: seq<Step>, b: Behaviour, k: nat)
    requires IsRun(d, run, b) && EngineInv(d, b.states[0]) && k < |run| && run[k].call.Commit? && b.replies[k].Ok?
    ensures StoredReply(b, run, k)
    ensures var s', r := b.states[k + 1], b.replies[k].value.receipt;
      r.candidateId in s'.cache
      && (Sealed(s', r.candidateId, r.idempotencyKey) <==> s'.cache[r.candidateId].version == r.cacheVersionAfter)
    ensures var s, s' := b.states[k], b.states[k + 1];
      var t := s.tasks[run[k].call.task];
      var c, idem := t.candidateId, t.idempotencyKey;
      && c in s.cache && c in s'.cache
      && (Final(s'.cache[c].auditState) && Sealed(s', c, idem)
          <==> idem !in s.receipts || s.cache[c].version == s.receipts[idem].cacheVersionAfter)
      && (Final(s'.cache[c].auditState) <==> idem !in s.receipts || Final(s.cache[c].auditState))
      && (Final(s'.cache[c].auditState) && !Sealed(s', c, idem)
          <==> idem in s.receipts && exists other :: other != idem && Sealed(s, c, other))
  {
    hide EngineInv, StepOk;
    CommitOutcome(d, run, b, k);
    ReachableInv(d, run, b, k);
    ReachableInv(d, run, b, k + 1);
    var s, s' := b.states[k], b.states[k + 1];
    var t := s.tasks[run[k].call.task];
    var c, idem := t.candidateId, t.idempotencyKey;
    SealedIff(d, s', idem);
    FinalIffSealed(d, s, c);
    FinalIffSealed(d, s', c);
    if idem in s.receipts {
      SealedIff(d, s, idem);
    }
  }

  lemma SealedIff(d: Digests, s: State, idem: string)
    requires EngineInv(d, s) && idem in s.receipts
    ensures var r := s.receipts[idem];
      && r.idempotencyKey == idem && r.candidateId in s.cache
      && (Sealed(s, r.candidateId, idem) <==> s.cache[r.candidateId].version == r.cacheVersionAfter)
  {
    assert ReceiptInv(d, s, idem) && ValidReceipt(s, idem);
  }

  lemma FinalIffSealed(d: Digests, s: State, c: string)
    requires EngineInv(d, s) && c in s.cache
    ensures Final(s.cache[c].auditState) <==> exists idem :: Sealed(s, c, idem)
    ensures forall i, j | Sealed(s, c, i) && Sealed(s, c, j) :: i == j
  {
    if Final(s.cache[c].auditState) {
      assert Settled(s, c);
    }
    if idem :| Sealed(s, c, idem) {
      assert ValidReceipt(s, idem);
    }
    forall i, j | Sealed(s, c, i) && Sealed(s, c, j) ensures i == j {
      assert DistinctVersions(s, i, j);
    }
  }

  // The entry has moved past the version the task was staged against, and the task has no receipt.
  ghost predicate Overtaken(s: State, tid: string) {
    && tid in s.tasks && s.tasks[tid].idempotencyKey !in s.receipts
    && s.tasks[tid].candidateId in s.cache
    && s.cache[s.tasks[tid].candidateId].version > s.tasks[tid].expectedCacheVersion
  }

  lemma {:induction false} OvertakenStays(d: Digests, run: seq<Step>, b: Behaviour, i: nat, k: nat, tid: string)
    requires IsRun(d, run, b) && ValidState(b.states[0]) && i <= k <= |run| && Overtaken(b.states[i], tid)
    ensures Overtaken(b.states[k], tid)
    decreases k
  {
    hide StepOk, ValidState;
    if i < k {
      OvertakenStays(d, run, b, i, k - 1, tid);
      EveryStateValidates(d, run, b, k - 1);
      TaskHistory(d, run, b, k - 1, k, tid);
      EntryHistory(d, run, b, k - 1, k, b.states[k - 1].tasks[tid].candidateId);
      if b.states[k - 1].tasks[tid].idempotencyKey in b.states[k].receipts {
        NewReceiptNeedsVersion(d, run, b, k - 1, tid);
      }
    }
  }

  /** Once the entry has moved past a task without a receipt, no commit of that task is ever accepted again,
      whatever it says and whoever makes it. */
  lemma OvertakenTaskNeverCommits(d: Digests, run: seq<Step>, b: Behaviour, i: nat, k: nat, tid: string)
    requires IsRun(d, run, b) && ValidState(b.states[0]) && i <= k < |run| && Overtaken(b.states[i], tid)
    requires run[k].call.Commit? && run[k].call.task == tid
    ensures b.replies[k].Err? && b.states[k + 1] == b.states[k]
  {
    hide ValidState;
    OvertakenStays(d, run, b, i, k, tid);
    OvertakenStays(d, run, b, i, k + 1, tid);
    EveryStateValidates(d, run, b, k);
    TaskHistory(d, run, b, k, k + 1, tid);
    ValidStep(d, run, b, k);
    if b.replies[k].Ok? {
      CommittedReceiptIsStored(d, run, b, k);
    }
  }

  // A candidate's two document hashes as two different tasks.
  ghost predicate TwoTasks(d: Digests, c: string, h1: string, h2: string) {
    d.taskIdOf(Idem(c, h1)) != d.taskIdOf(Idem(c, h2)) && h1 != h2
  }

  /** When a document hash goes and comes back, inspection hands out the first task again, and its recorded
      version is stale: no commit of that task can be accepted any more, whatever it says. */
  lemma ReturnedHashHandsOutAStaleTask(d: Digests, c: string, h1: string, h2: string, ref: string, call: Call)
    requires TwoTasks(d, c, h1, h2) && call.Commit? && call.committed.Some? && call.auth.Decision? && call.epoch >= 0
    ensures var tid := d.taskIdOf(Idem(c, h1));
      var s1 := Stage(d, EMPTY_STATE, c, h1, ref).0;
      var s2 := Stage(d, s1, c, h2, ref).0;
      var s3 := Stage(d, s2, c, h1, ref);
      && s3.1 == Some(tid) && tid in s3.0.tasks
      && s3.0.cache[c].docsHash == s3.0.tasks[tid].inputHash == h1
      && CommitReview(d, s3.0, s3.0.tasks[tid], call) == Err(StaleState)
  {
    hide Idem;
  }

  /** A returned receipt does not mean a FINAL cache entry: after a commit the hash goes and comes back, the
      same commit is made again, and it returns the first receipt while the entry stays open for review. */
  lemma ReceiptWithoutSeal(d: Digests, c: string, h1: string, h2: string, ref: string, call: Call)
    requires TwoTasks(d, c, h1, h2) && call.Commit? && call.committed.Some? && call.auth.Decision? && call.epoch >= 0
    requires Final(call.committed.value) && call.task == d.taskIdOf(Idem(c, h1))
    ensures var s1 := Stage(d, EMPTY_STATE, c, h1, ref).0;
      && call.task in s1.tasks
      && var first := CommitReview(d, s1, s1.tasks[call.task], call);
      && first.Ok?
      && var s3 := Stage(d, Stage(d, first.value.0, c, h2, ref).0, c, h1, ref);
      && s3.1 == Some(call.task) && call.task in s3.0.tasks
      && CommitReview(d, s3.0, s3.0.tasks[call.task], call) == Ok((s3.0, first.value.1))
      && c in s3.0.cache && !Final(s3.0.cache[c].auditState)
  {
    hide Idem, ReceiptIdOf;
  }

  // What validation asks of a new receipt beyond what the guard and the task already give.
  ghost predicate Storable(d: Digests, t: Task, call: Call)
    requires call.Commit? && call.committed.Some? && call.auth.Decision?
  {
    && IsHexAnyCase(d.payloadHash(PayloadOf(t, call)), 64) && IsHexAnyCase(call.main, 40)
    && call.worker != "" && call.auth.ownerGateRef != Some("")
  }

  lemma StorableReceiptValidates(d: Digests, m: string, s: State, call: Call)
    requires call.Commit? && Guard(m, call).None? && ValidState(s) && call.task in s.tasks
    requires s.tasks[call.task].idempotencyKey !in s.receipts
    requires CommitReview(d, s, s.tasks[call.task], call).Ok? && Storable(d, s.tasks[call.task], call)
    ensures ValidState(CommitReview(d, s, s.tasks[call.task], call).value.0)
  {
    hide IsHexAnyCase, ReceiptIdOf, Idem, Guard, PayloadOf;
    CommitGuardGives(m, call);
    var t := s.tasks[call.task];
    var s', idem := CommitReview(d, s, t, call).value.0, t.idempotencyKey;
    assert ValidTask(s, call.task) && ValidIndexEntry(s, idem);
    forall c | c in s'.cache ensures ValidCacheEntry(s', c) { assert ValidCacheEntry(s, c); }
    forall tid | tid in s'.tasks ensures ValidTask(s', tid) { assert ValidTask(s, tid); }
    forall i | i in s'.index ensures ValidIndexEntry(s', i) { assert ValidIndexEntry(s, i); }
    forall i | i in s'.receipts ensures ValidReceipt(s', i) {
      if i != idem { assert ValidReceipt(s, i) && ValidIndexEntry(s, i); }
    }
  }

  lemma ValidatedReceiptIsStorable(d: Digests, m: string, s: State, call: Call)
    requires call.Commit? && Guard(m, call).None? && ValidState(s) && call.task in s.tasks
    requires s.tasks[call.task].idempotencyKey !in s.receipts
    requires CommitReview(d, s, s.tasks[call.task], call).Ok?
    requires ValidState(CommitReview(d, s, s.tasks[call.task], call).value.0)
    ensures Storable(d, s.tasks[call.task], call)
  {
    hide IsHexAnyCase, ReceiptIdOf, Idem, Guard, PayloadOf;
    CommitGuardGives(m, call);
    var t := s.tasks[call.task];
    assert ValidReceipt(CommitReview(d, s, t, call).value.0, t.idempotencyKey);
  }

  /** When exactly a commit that passes the guard creates a receipt: the task is alive and leased to the caller, the
      entry is the one it was staged against, and the digest, the main, the worker and the gate reference can be
      stored. */
  lemma CommitCreatesReceiptIff(d: Digests, m: string, s: State, call: Call)
    requires call.Commit? && Guard(m, call).None? && call.task in s.tasks
    requires s.tasks[call.task].idempotencyKey !in s.receipts
    ensures var t := s.tasks[call.task];
      Apply(d, m, s, call).1.Ok? <==>
        && !Dead(t) && HoldsLease(t, call.worker, call.epoch, call.now)
        && t.candidateId in s.cache && s.cache[t.candidateId].version == t.expectedCacheVersion
        && s.cache[t.candidateId].docsHash == t.inputHash
        && ValidState(CommitReview(d, s, t, call).value.0)
    ensures var t := s.tasks[call.task];
      ValidState(s) ==>
        (Apply(d, m, s, call).1.Ok? <==>
          && !Dead(t) && HoldsLease(t, call.worker, call.epoch, call.now)
          && t.candidateId in s.cache && s.cache[t.candidateId].version == t.expectedCacheVersion
          && s.cache[t.candidateId].docsHash == t.inputHash
          && Storable(d, t, call))
  {
    hide ValidState, Storable, Idem, ReceiptIdOf;
    assert Guard(call.main, call).None?;
    if ValidState(s) && CommitReview(d, s, s.tasks[call.task], call).Ok? {
      if Storable(d, s.tasks[call.task], call) { StorableReceiptValidates(d, m, s, call); }
      if ValidState(CommitReview(d, s, s.tasks[call.task], call).value.0) { ValidatedReceiptIsStorable(d, m, s, call); }
    }
  }

  /** The task handed out by an inspection is the asked candidate's own task whenever neither name holds a colon. */
  lemma InspectHandsOutItsOwnTask(d: Digests, m: string, s: State, call: Call)
    requires EngineInv(d, s) && call.Inspect? && Apply(d, m, s, call).1.Ok? && Apply(d, m, s, call).1.value.taskId.Some?
    ensures var s', tid := Apply(d, m, s, call).0, Apply(d, m, s, call).1.value.taskId.value;
      && tid in s'.tasks && tid == d.taskIdOf(Idem(call.candidate, call.docsHash))
      && s'.tasks[tid].idempotencyKey == Idem(call.candidate, call.docsHash)
      && (':' !in call.candidate && ':' !in s'.tasks[tid].candidateId
          ==> s'.tasks[tid].candidateId == call.candidate && s'.tasks[tid].inputHash == call.docsHash)
  {
    ApplyEffect(d, m, s, call);
    ApplyKeeps(d, m, s, call);
    var s', tid := Apply(d, m, s, call).0, Apply(d, m, s, call).1.value.taskId.value;
    var idem := Idem(call.candidate, call.docsHash);
    assert idem in s'.index && s'.index[idem] == tid;
    assert ValidIndexEntry(s', idem) && TaskInv(d, s', tid);
    var t := s'.tasks[tid];
    if ':' !in call.candidate && ':' !in t.candidateId {
      IdemSeparates(call.candidate, call.docsHash, t.candidateId, t.inputHash);
    }
  }
}
