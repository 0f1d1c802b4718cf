// What one engine call can and cannot change.
module R1Steps {
  import opened Prelude
  import opened R1Auth
  import opened R1State
  import opened R1Engine
  import opened R1Invariants

  // How one call relates the states before and after it, seen from a task, a
  // cache entry and a receipt.
  ghost predicate TaskMoves(s: State, s': State, tid: string)
    requires tid in s.tasks
  {
    && tid in s'.tasks
    && SameIdentity(s.tasks[tid], s'.tasks[tid])
    && s.tasks[tid].attemptCount <= s'.tasks[tid].attemptCount
    && s.tasks[tid].leaseEpoch <= s'.tasks[tid].leaseEpoch
    && (Dead(s.tasks[tid]) ==> s'.tasks[tid] == s.tasks[tid])
  }

  ghost predicate EntryMoves(s: State, s': State, c: string)
    requires c in s.cache
  {
    && c in s'.cache
    && (s'.cache[c] == s.cache[c] || s'.cache[c].version > s.cache[c].version)
  }

  ghost predicate LeaseMoves(s: State, s': State, call: Call, ok: bool, tid: string)
    requires tid in s'.tasks
  {
    var t' := s'.tasks[tid];
    if tid !in s.tasks then t'.leaseEpoch == 0 && t'.leaseOwner.None? && !(ok && call.AcquireLease? && call.task == tid)
    else if ok && call.AcquireLease? && call.task == tid then
      t'.leaseEpoch == s.tasks[tid].leaseEpoch + 1 && t'.leaseOwner == Some(call.worker)
    else t'.leaseEpoch == s.tasks[tid].leaseEpoch && t'.leaseOwner == s.tasks[tid].leaseOwner
  }

  /** A digest collision cannot redirect an existing task: such a transaction fails validation. */
  lemma StageOverwritesNoTask(d: Digests, s: State, c: string, h: string, authRef: string, tid: string)
    requires ValidState(s) && ValidState(Stage(d, s, c, h, authRef).0)
    requires tid in s.tasks
    ensures tid in Stage(d, s, c, h, authRef).0.tasks && Stage(d, s, c, h, authRef).0.tasks[tid] == s.tasks[tid]
  {
    var s' := Stage(d, s, c, h, authRef).0;
    assert ValidTask(s, tid);
    var key := s.tasks[tid].idempotencyKey;
    assert key in s'.index && ValidIndexEntry(s', key);
  }

  lemma TaskStep(d: Digests, m: string, s: State, call: Call, tid: string)
    requires ValidState(s) && tid in s.tasks
    ensures TaskMoves(s, Apply(d, m, s, call).0, tid)
  {
    ApplyEffect(d, m, s, call);
    if Apply(d, m, s, call).0 != s && call.Inspect? {
      StageOverwritesNoTask(d, s, call.candidate, call.docsHash, call.auth.decisionId, tid);
    }
  }

  lemma EntryStep(d: Digests, m: string, s: State, call: Call, c: string)
    requires c in s.cache
    ensures EntryMoves(s, Apply(d, m, s, call).0, c)
  {
    ApplyEffect(d, m, s, call);
  }

  lemma LeaseStep(d: Digests, m: string, s: State, call: Call, tid: string)
    requires ValidState(s) && tid in Apply(d, m, s, call).0.tasks
    ensures LeaseMoves(s, Apply(d, m, s, call).0, call, Apply(d, m, s, call).1.Ok?, tid)
  {
    ApplyEffect(d, m, s, call);
    if tid in s.tasks && call.Inspect? && Apply(d, m, s, call).0 != s {
      StageOverwritesNoTask(d, s, call.candidate, call.docsHash, call.auth.decisionId, tid);
    }
    if call.AcquireLease? && Apply(d, m, s, call).1.Ok? {
      AcquiredStateDiffers(d, m, s, call);
    }
  }

  // A successful acquisition always changes the state, so it always takes effect.
  lemma AcquiredStateDiffers(d: Digests, m: string, s: State, call: Call)
    requires call.AcquireLease? && Apply(d, m, s, call).1.Ok?
    ensures call.task in s.tasks && Apply(d, m, s, call).0 != s
    ensures call.task in Apply(d, m, s, call).0.tasks
    ensures Apply(d, m, s, call).1.value == Epoch(s.tasks[call.task].leaseEpoch + 1)
  {
    ApplyEffect(d, m, s, call);
    var t := s.tasks[call.task];
    assert Mutate(d, s, call).value.0.tasks[call.task].leaseEpoch == t.leaseEpoch + 1;
  }
}
