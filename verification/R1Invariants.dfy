// What every engine transaction keeps, with arbitrary digests.
module R1Invariants {
  import opened Prelude
  import opened R1Auth
  import opened R1State
  import opened R1Engine

  ghost predicate TaskInv(d: Digests, s: State, tid: string)
    requires tid in s.tasks
  {
    var t := s.tasks[tid];
    && t.idempotencyKey == Idem(t.candidateId, t.inputHash)
    && tid == d.taskIdOf(t.idempotencyKey)
    && t.candidateId in s.cache && t.expectedCacheVersion <= s.cache[t.candidateId].version
    && ProgressInv(t)
  }

  // The lease and retry bookkeeping of one task.
  ghost predicate ProgressInv(t: Task) {
    && t.retryBudget == RETRY_BUDGET
    && t.attemptCount <= t.retryBudget + 1
    && (Dead(t) <==> t.attemptCount == t.retryBudget + 1)
    && (t.deadLetterReason.Some? ==> Dead(t))
    && (t.leaseOwner.Some? <==> t.leaseEpoch > 0)
    && (t.leaseOwner.Some? <==> t.leaseExpiresAt.Some?)
    && (t.attemptCount > 0 ==> t.leaseEpoch > 0)
  }

  // A receipt is bound to its task by the digested payload and to the cache by a version.
  ghost predicate ReceiptInv(d: Digests, s: State, idem: string)
    requires idem in s.receipts
  {
    var r := s.receipts[idem];
    && r.candidateId in s.cache
    && 1 <= r.cacheVersionAfter <= s.cache[r.candidateId].version
    && (r.cacheVersionAfter == s.cache[r.candidateId].version ==> s.cache[r.candidateId].auditState == r.committedState)
    && Digested(d, s, idem)
  }

  ghost predicate Digested(d: Digests, s: State, idem: string)
    requires idem in s.receipts
  {
    idem in s.index && exists p: ReviewPayload :: p.taskId == s.index[idem] && s.receipts[idem].payloadHash == d.payloadHash(p)
  }

  // The receipt that made the cache entry of candidate `c` final.
  ghost predicate Sealed(s: State, c: string, idem: string) {
    && c in s.cache && idem in s.receipts
    && s.receipts[idem].candidateId == c
    && s.receipts[idem].cacheVersionAfter == s.cache[c].version
    && s.receipts[idem].committedState == s.cache[c].auditState
  }

  ghost predicate Settled(s: State, c: string) {
    exists idem :: Sealed(s, c, idem)
  }

  ghost predicate DistinctVersions(s: State, i: string, j: string)
    requires i in s.receipts && j in s.receipts
  {
    i != j && s.receipts[i].candidateId == s.receipts[j].candidateId
    ==> s.receipts[i].cacheVersionAfter != s.receipts[j].cacheVersionAfter
  }

  ghost predicate EngineInv(d: Digests, s: State) {
    && ValidState(s)
    && (forall tid {:trigger TaskInv(d, s, tid)} | tid in s.tasks :: TaskInv(d, s, tid))
    && (forall idem {:trigger ReceiptInv(d, s, idem)} | idem in s.receipts :: ReceiptInv(d, s, idem))
    && (forall i, j {:trigger DistinctVersions(s, i, j)} | i in s.receipts && j in s.receipts :: DistinctVersions(s, i, j))
    && (forall c {:trigger Settled(s, c)} | c in s.cache && Final(s.cache[c].auditState) :: Settled(s, c))
  }

  lemma EmptyInv(d: Digests)
    ensures EngineInv(d, EMPTY_STATE)
  {
  }

  /** A transaction either leaves the state alone or installs the edited copy with the next generation. */
  lemma ApplyEffect(d: Digests, m: string, s: State, call: Call)
    ensures var out := Apply(d, m, s, call);
      || out.0 == s
      || (&& Guard(m, call).None? && Guard(call.main, call).None? && call.main == m
          && Mutate(d, s, call).Ok? && ValidState(Mutate(d, s, call).value.0)
          && out.0 == Mutate(d, s, call).value.0.(generation := s.generation + 1)
          && out.1 == Ok(Mutate(d, s, call).value.1))
    ensures var out := Apply(d, m, s, call);
      out.1.Ok? ==> Guard(m, call).None? && Guard(call.main, call).None? && call.main == m
                    && Mutate(d, s, call).Ok? && out.1.value == Mutate(d, s, call).value.1
    ensures Apply(d, m, s, call).1.Err? ==> Apply(d, m, s, call).0 == s
  {
  }

  lemma CommitGuardGives(m: string, call: Call)
    requires call.Commit? && Guard(m, call).None?
    ensures call.committed.Some? && Final(call.committed.value) && call.auth.Decision? && call.auth.decisionId != "" && call.epoch >= 0
  {
  }

  // Two states that agree on everything the receipts and the cache say.
  lemma SettledCarries(s: State, s': State)
    requires s.cache == s'.cache && s.receipts == s'.receipts
    ensures forall c | Settled(s, c) :: Settled(s', c)
  {
    forall c | Settled(s, c)
      ensures Settled(s', c)
    {
      var idem :| Sealed(s, c, idem);
      assert Sealed(s', c, idem);
    }
  }

  lemma KeepsUnderGeneration(d: Digests, s: State, g: nat)
    requires EngineInv(d, s)
    ensures EngineInv(d, s.(generation := g))
  {
    var s' := s.(generation := g);
    SettledCarries(s, s');
    forall tid | tid in s'.tasks ensures TaskInv(d, s', tid) && ValidTask(s', tid) {
      assert TaskInv(d, s, tid) && ValidTask(s, tid);
    }
    forall idem | idem in s'.receipts ensures ReceiptInv(d, s', idem) && ValidReceipt(s', idem) {
      assert ReceiptInv(d, s, idem) && ValidReceipt(s, idem);
    }
    forall i, j | i in s'.receipts && j in s'.receipts ensures DistinctVersions(s', i, j) {
      assert DistinctVersions(s, i, j);
    }
    forall c | c in s'.cache && Final(s'.cache[c].auditState) ensures Settled(s', c) {
      assert Settled(s, c);
    }
    forall c | c in s'.cache ensures ValidCacheEntry(s', c) {
      assert ValidCacheEntry(s, c);
    }
    forall idem | idem in s'.index ensures ValidIndexEntry(s', idem) {
      assert ValidIndexEntry(s, idem);
    }
  }

  // Editing one task in its progress fields only.
  ghost predicate SameIdentity(t: Task, t': Task) {
    && t.taskId == t'.taskId && t.idempotencyKey == t'.idempotencyKey && t.candidateId == t'.candidateId
    && t.inputHash == t'.inputHash && t.retryBudget == t'.retryBudget
    && t.expectedCacheVersion == t'.expectedCacheVersion && t.authorizationRef == t'.authorizationRef
  }

  lemma TaskEditKeeps(d: Digests, s: State, tid: string, t': Task)
    requires EngineInv(d, s) && tid in s.tasks
    requires SameIdentity(s.tasks[tid], t') && ProgressInv(t')
    requires ValidState(s.(tasks := s.tasks[tid := t']))
    ensures EngineInv(d, s.(tasks := s.tasks[tid := t']))
  {
    var s' := s.(tasks := s.tasks[tid := t']);
    SettledCarries(s, s');
    forall k | k in s'.tasks ensures TaskInv(d, s', k) {
      assert TaskInv(d, s, k);
    }
    forall idem | idem in s'.receipts ensures ReceiptInv(d, s', idem) {
      assert ReceiptInv(d, s, idem);
    }
    forall i, j | i in s'.receipts && j in s'.receipts ensures DistinctVersions(s', i, j) {
      assert DistinctVersions(s, i, j);
    }
    forall c | c in s'.cache && Final(s'.cache[c].auditState) ensures Settled(s', c) {
      assert Settled(s, c);
    }
  }

  lemma StageKeepsTasks(d: Digests, s: State, c: string, h: string, authRef: string)
    requires EngineInv(d, s)
    ensures var s' := Stage(d, s, c, h, authRef).0;
      forall tid {:trigger TaskInv(d, s', tid)} | tid in s'.tasks :: TaskInv(d, s', tid)
  {
    var s' := Stage(d, s, c, h, authRef).0;
    forall tid | tid in s'.tasks
      ensures TaskInv(d, s', tid)
    {
      if tid in s.tasks {
        assert TaskInv(d, s, tid);
      }
    }
  }

  // Staging never touches a receipt, and moves a cache entry only to a later version.
  lemma StageKeepsReceipts(d: Digests, s: State, c: string, h: string, authRef: string)
    requires EngineInv(d, s)
    ensures var s' := Stage(d, s, c, h, authRef).0;
      forall idem {:trigger ReceiptInv(d, s', idem)} | idem in s'.receipts :: ReceiptInv(d, s', idem)
  {
    var s' := Stage(d, s, c, h, authRef).0;
    forall idem | idem in s'.receipts
      ensures ReceiptInv(d, s', idem)
    {
      assert ReceiptInv(d, s, idem);
      assert Digested(d, s', idem);
    }
  }

  lemma StageKeeps(d: Digests, s: State, c: string, h: string, authRef: string)
    requires EngineInv(d, s) && ValidState(Stage(d, s, c, h, authRef).0)
    ensures EngineInv(d, Stage(d, s, c, h, authRef).0)
  {
    var s' := Stage(d, s, c, h, authRef).0;
    StageKeepsTasks(d, s, c, h, authRef);
    StageKeepsReceipts(d, s, c, h, authRef);
    assert s'.receipts == s.receipts;
    forall i, j | i in s'.receipts && j in s'.receipts ensures DistinctVersions(s', i, j) {
      assert DistinctVersions(s, i, j);
    }
    forall k | k in s'.cache && Final(s'.cache[k].auditState)
      ensures Settled(s', k)
    {
      assert s'.cache[k] == s.cache[k];
      assert Settled(s, k);
      var idem :| Sealed(s, k, idem);
      assert Sealed(s', k, idem);
    }
  }

  lemma CommitKeeps(d: Digests, s: State, call: Call)
    requires EngineInv(d, s)
    requires call.Commit? && call.committed.Some? && Final(call.committed.value) && call.auth.Decision? && call.epoch >= 0
    requires call.task in s.tasks
    requires CommitReview(d, s, s.tasks[call.task], call).Ok? && ValidState(CommitReview(d, s, s.tasks[call.task], call).value.0)
    ensures EngineInv(d, CommitReview(d, s, s.tasks[call.task], call).value.0)
  {
    var t := s.tasks[call.task];
    var s' := CommitReview(d, s, t, call).value.0;
    var key, c := t.idempotencyKey, t.candidateId;
    assert TaskInv(d, s, call.task) && ValidTask(s, call.task);
    if key !in s.receipts {
      assert d.payloadHash(PayloadOf(t, call)) == s'.receipts[key].payloadHash && PayloadOf(t, call).taskId == s'.index[key];
      forall tid | tid in s'.tasks ensures TaskInv(d, s', tid) {
        assert TaskInv(d, s, tid);
      }
      forall idem | idem in s'.receipts
        ensures ReceiptInv(d, s', idem)
      {
        if idem != key {
          assert ReceiptInv(d, s, idem);
        }
      }
      forall i, j | i in s'.receipts && j in s'.receipts ensures DistinctVersions(s', i, j) {
        if i != key { assert ReceiptInv(d, s, i); }
        if j != key { assert ReceiptInv(d, s, j); }
        if i != key && j != key { assert DistinctVersions(s, i, j); }
      }
      assert Sealed(s', c, key);
      forall k | k in s'.cache && Final(s'.cache[k].auditState)
        ensures Settled(s', k)
      {
        if k != c {
          assert Settled(s, k);
          var idem :| Sealed(s, k, idem);
          assert Sealed(s', k, idem);
        }
      }
    }
  }

  lemma MutateKeeps(d: Digests, s: State, call: Call)
    requires EngineInv(d, s) && Guard(call.main, call).None?
    requires Mutate(d, s, call).Ok? && ValidState(Mutate(d, s, call).value.0)
    ensures EngineInv(d, Mutate(d, s, call).value.0)
  {
    if call.Inspect? {
      StageKeeps(d, s, call.candidate, call.docsHash, call.auth.decisionId);
    } else if call.Commit? {
      CommitKeeps(d, s, call);
    } else {
      assert TaskInv(d, s, call.task);
      TaskEditKeeps(d, s, call.task, Mutate(d, s, call).value.0.tasks[call.task]);
    }
  }

  /** Every engine call keeps the invariant, whatever the digests, ticks and decisions passed to it. */
  lemma ApplyKeeps(d: Digests, m: string, s: State, call: Call)
    requires EngineInv(d, s)
    ensures EngineInv(d, Apply(d, m, s, call).0)
  {
    ApplyEffect(d, m, s, call);
    if Apply(d, m, s, call).0 != s {
      MutateKeeps(d, s, call);
      KeepsUnderGeneration(d, Mutate(d, s, call).value.0, s.generation + 1);
    }
  }
}
