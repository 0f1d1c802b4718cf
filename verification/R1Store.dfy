// The engine carried out on a mutable store.  Each method edits the sections in
// place, step by step as the source's `mutate` closures do, and is proved to
// have the meaning `R1Engine.Apply` gives the call.
module R1Store {
  import opened Prelude
  import opened R1Auth
  import opened R1State
  import opened R1Engine

  class Engine {
    const digests: Digests
    const canonicalMain: string
    var generation: nat
    var cache: map<string, CacheEntry>
    var tasks: map<string, Task>
    var index: map<string, string>
    var receipts: map<string, Receipt>

    function Contents(): State
      reads this
    {
      State(generation, cache, tasks, index, receipts)
    }

    constructor (digests: Digests, canonicalMain: string)
      ensures Contents() == EMPTY_STATE
      ensures this.digests == digests && this.canonicalMain == canonicalMain
    {
      this.digests, this.canonicalMain := digests, canonicalMain;
      generation, cache, tasks, index, receipts := 0, map[], map[], map[], map[];
    }

    // `_materialize_store`: work on a snapshot that passes validation.
    constructor Materialize(digests: Digests, canonicalMain: string, state: State)
      requires ValidState(state)
      ensures Contents() == state
      ensures this.digests == digests && this.canonicalMain == canonicalMain
    {
      this.digests, this.canonicalMain := digests, canonicalMain;
      generation, cache, tasks, index, receipts :=
        state.generation, state.cache, state.tasks, state.index, state.receipts;
    }

    // The end of `transact`: the sections hold the edited copy.
    method Finish(before: State, reply: Reply) returns (r: Result<Reply, Failure>)
      modifies this
      ensures (Contents(), r) == Transact(before, Ok((old(Contents()), reply)))
    {
      var edited := Contents();
      if !ValidState(edited) {
        generation, cache, tasks, index, receipts :=
          before.generation, before.cache, before.tasks, before.index, before.receipts;
        return Err(SchemaError);
      }
      if edited != before {
        generation := before.generation + 1;
      }
      r := Ok(reply);
    }

    // The `mutate` closure of `inspect_candidate`.
    method StageInPlace(candidate: string, docsHash: string, authRef: string) returns (tid: Option<string>)
      modifies this
      ensures (Contents(), tid) == Stage(digests, old(Contents()), candidate, docsHash, authRef)
    {
      var idem := Idem(candidate, docsHash);
      if candidate in cache && cache[candidate].docsHash == docsHash {
        if Final(cache[candidate].auditState) {
          return None;
        }
        if idem in index {
          return Some(index[idem]);
        }
      }
      if candidate !in cache {
        cache := cache[candidate := FreshEntry(candidate, docsHash)];
      } else {
        var x := cache[candidate].(docsHash := docsHash);
        if docsHash !in x.docsHashes {
          x := x.(docsHashes := x.docsHashes + [docsHash]);
        }
        x := x.(auditState := ChangedReviewRequired, freshness := FreshChanged,
                recheckTrigger := DocHashChanged, verdictReason := "");
        cache := cache[candidate := x.(version := x.version + 1)];
      }
      if idem in index {
        return Some(index[idem]);
      }
      var newTid := digests.taskIdOf(idem);
      tasks := tasks[newTid := FreshTask(newTid, idem, candidate, docsHash, cache[candidate].version, authRef)];
      index := index[idem := newTid];
      tid := Some(newTid);
    }

    method InspectCandidate(main: string, candidate: string, docsHash: string, auth: Decision, runtime: AuthorizationRuntime)
      returns (r: Result<Reply, Failure>)
      modifies this
      ensures (Contents(), r)
           == Apply(digests, canonicalMain, old(Contents()), Inspect(main, candidate, docsHash, auth, runtime))
    {
      var call := Inspect(main, candidate, docsHash, auth, runtime);
      var refused := Guard(canonicalMain, call);
      if refused.Some? {
        return Err(refused.value);
      }
      var before := Contents();
      var tid := StageInPlace(candidate, docsHash, auth.decisionId);
      r := Finish(before, TaskRef(tid));
    }

    method AcquireLease(main: string, task: string, worker: string, now: int, leaseTicks: int,
                        auth: Decision, runtime: AuthorizationRuntime) returns (r: Result<Reply, Failure>)
      modifies this
      ensures (Contents(), r) == Apply(digests, canonicalMain, old(Contents()),
                                       Call.AcquireLease(main, task, worker, now, leaseTicks, auth, runtime))
    {
      var call := Call.AcquireLease(main, task, worker, now, leaseTicks, auth, runtime);
      var refused := Guard(canonicalMain, call);
      if refused.Some? {
        return Err(refused.value);
      }
      var before := Contents();
      if task !in tasks {
        return Err(StaleState);
      }
      var t := tasks[task];
      if Dead(t) {
        return Err(DeadLettered(t.deadLetterReason.value));
      }
      if t.leaseOwner.Some? && t.leaseExpiresAt.Some? && now < t.leaseExpiresAt.value {
        return Err(FencingConflict);
      }
      t := t.(leaseEpoch := t.leaseEpoch + 1);
      t := t.(leaseOwner := Some(worker), heartbeatAt := Some(now));
      t := t.(leaseExpiresAt := Some(now + leaseTicks));
      tasks := tasks[task := t];
      r := Finish(before, Epoch(t.leaseEpoch));
    }

    method Checkpoint(main: string, task: string, worker: string, epoch: int, now: int, ref: string,
                      auth: Decision, runtime: AuthorizationRuntime) returns (r: Result<Reply, Failure>)
      modifies this
      ensures (Contents(), r) == Apply(digests, canonicalMain, old(Contents()),
                                       Call.Checkpoint(main, task, worker, epoch, now, ref, auth, runtime))
    {
      var call := Call.Checkpoint(main, task, worker, epoch, now, ref, auth, runtime);
      var refused := Guard(canonicalMain, call);
      if refused.Some? {
        return Err(refused.value);
      }
      var before := Contents();
      if task !in tasks {
        return Err(StaleState);
      }
      var t := tasks[task];
      if Dead(t) {
        return Err(DeadLettered(t.deadLetterReason.value));
      }
      if !HoldsLease(t, worker, epoch, now) {
        return Err(FencingConflict);
      }
      tasks := tasks[task := t.(checkpointRef := Some(ref), heartbeatAt := Some(now))];
      r := Finish(before, Done);
    }

    method RecordFailure(main: string, task: string, worker: string, epoch: int, now: int, reason: string,
                         auth: Decision, runtime: AuthorizationRuntime) returns (r: Result<Reply, Failure>)
      modifies this
      ensures (Contents(), r) == Apply(digests, canonicalMain, old(Contents()),
                                       Call.RecordFailure(main, task, worker, epoch, now, reason, auth, runtime))
    {
      var call := Call.RecordFailure(main, task, worker, epoch, now, reason, auth, runtime);
      var refused := Guard(canonicalMain, call);
      if refused.Some? {
        return Err(refused.value);
      }
      var before := Contents();
      if task !in tasks {
        return Err(StaleState);
      }
      var t := tasks[task];
      if Dead(t) {
        return Err(DeadLettered(t.deadLetterReason.value));
      }
      if !HoldsLease(t, worker, epoch, now) {
        return Err(FencingConflict);
      }
      t := t.(attemptCount := t.attemptCount + 1, heartbeatAt := Some(now));
      if t.attemptCount > t.retryBudget {
        t := t.(deadLetterReason := Some(reason));
      }
      assert t == Failed(tasks[task], now, reason);
      tasks := tasks[task := t];
      r := Finish(before, Done);
    }

    method CommitReview(main: string, task: string, worker: string, epoch: int, now: int, committed: Option<AuditState>,
                        verdictReason: string, evidence: seq<string>, auth: Decision, runtime: AuthorizationRuntime)
      returns (r: Result<Reply, Failure>)
      modifies this
      ensures (Contents(), r)
           == Apply(digests, canonicalMain, old(Contents()),
                    Commit(main, task, worker, epoch, now, committed, verdictReason, evidence, auth, runtime))
    {
      var call := Commit(main, task, worker, epoch, now, committed, verdictReason, evidence, auth, runtime);
      var refused := Guard(canonicalMain, call);
      if refused.Some? {
        return Err(refused.value);
      }
      var before := Contents();
      if task !in tasks {
        return Err(StaleState);
      }
      var t := tasks[task];
      if Dead(t) {
        return Err(DeadLettered(t.deadLetterReason.value));
      }
      if !HoldsLease(t, worker, epoch, now) {
        return Err(FencingConflict);
      }
      var ph := digests.payloadHash(PayloadOf(t, call));
      if t.idempotencyKey in receipts {
        var first := receipts[t.idempotencyKey];
        if first.payloadHash != ph {
          return Err(ReceiptConflict);
        }
        r := Finish(before, Committed(first));
        return;
      }
      if t.candidateId !in cache {
        return Err(StaleState);
      }
      var x := cache[t.candidateId];
      if x.version != t.expectedCacheVersion || x.docsHash != t.inputHash {
        return Err(StaleState);
      }
      x := ReviewedEntry(x, call);
      cache := cache[t.candidateId := x];
      var receipt := ReceiptFor(t, ph, x.version, call);
      receipts := receipts[t.idempotencyKey := receipt];
      tasks := tasks[task := t.(durableReceiptRef := Some(receipt.receiptId))];
      r := Finish(before, Committed(receipt));
    }
  }
}
