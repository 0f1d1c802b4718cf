// What an invocation does about an earlier attempt at its task that ran out.
module Stage1Retry {
  import opened Prelude
  import opened R1Auth
  import opened R1State
  import opened R1Engine
  import opened R1Invariants
  import opened R1Contracts
  import opened Stage1Control
  import opened Stage1Seal
  import opened Stage1Runtime
  import opened Stage1Invariants
  import Runs = Stage1Runs
  import opened Stage1Adapter
  import opened Stage1Progress

  // The task an invocation is about to lease: alive, and its lease free at the invocation's tick.
  ghost predicate Leasable(env: Env, r: Remote, w: Worker, t: Task) {
    var tid := TaskIdFor(env, w.envelope);
    && OnTrack(env, r, w) && w.phase == Leasing(tid)
    && Alive(r.r1, tid) && r.r1.tasks[tid] == t && FreeAt(t, w.tick)
  }

  // An earlier attempt was made, left no receipt, and its lease is over.
  predicate RanOut(t: Task, tick: int) {
    t.leaseEpoch > 0 && t.durableReceiptRef.None? && t.leaseExpiresAt.Some? && t.leaseExpiresAt.value <= tick
  }

  lemma InvocationIsPermitted(env: Env, w: Worker)
    requires SealCovers(env, w.envelope, w.sealed) && OwnTask(env, w) && w.tick >= 0
    requires w.snap.canonicalMain == w.sealed.canonicalMain && (w.phase.Leasing? || w.phase.Failing?) && (w.phase.Failing? ==> w.phase.epoch >= 0)
    ensures Guard(w.sealed.canonicalMain, PhaseCall(w)).None?
  {
    hide Validate, Idem;
    var call := PhaseCall(w);
    assert Stage1Seal.KeyOf(call) in AUTH_KEYS;
    assert NeedOf(call) == ExpectedNeed(env, w.envelope, Stage1Seal.KeyOf(call));
  }

  lemma CallPermitted(env: Env, r: Remote, w: Worker)
    requires OnTrack(env, r, w) && (w.phase.Leasing? || w.phase.Failing?)
    ensures Permitted(w.sealed.canonicalMain, PhaseCall(w)) && ValidState(r.r1) && w.store == r.r1
  {
    hide RemoteInv, Guard, Permitted, ValidState, SealCovers;
    StateOfRemote(env, r);
    EnvelopeOfWorker(env, r, w);
    InvocationIsPermitted(env, w);
    GuardIff(w.sealed.canonicalMain, PhaseCall(w));
  }

  /** The lease call goes through, and what follows it is the recording of a failure exactly if an earlier attempt ran out. */
  lemma LeaseLeadsToFailureIff(env: Env, r: Remote, w: Worker, t: Task)
    requires Leasable(env, r, w, t) && t.retryBudget == RETRY_BUDGET
    ensures var out := TakeIfRunnable(env, r, w); var tid := TaskIdFor(env, w.envelope);
      && out.Continues? && OnTrack(env, out.remote, out.worker) && out.worker.tick == w.tick && out.worker.envelope == w.envelope
      && tid in out.remote.r1.tasks
      && out.remote.r1.tasks[tid] == t.(leaseOwner := Some(w.envelope.workerId), leaseEpoch := t.leaseEpoch + 1,
                                        heartbeatAt := Some(w.tick), leaseExpiresAt := Some(w.tick + 10))
      && out.worker.phase == if RanOut(t, w.tick) then Failing(tid, t.leaseEpoch + 1, t.leaseEpoch) else Checkpointing(tid, t.leaseEpoch + 1)
  {
    hide RemoteInv, SealCovers, Apply, Permitted, ValidState, Idem, CountedExactly, TakeIfRunnable;
    var call := PhaseCall(w);
    CallPermitted(env, r, w);
    AcquireIs(env.engine, w.sealed.canonicalMain, r.r1, call);
    var out := Apply(env.engine, w.sealed.canonicalMain, r.r1, call);
    var tid := TaskIdFor(env, w.envelope);
    StepContinues(env, r, w, out.0, out.1.value,
                  if RanOut(t, w.tick) then Failing(tid, t.leaseEpoch + 1, t.leaseEpoch) else Checkpointing(tid, t.leaseEpoch + 1));
  }

  lemma FailureGoesThrough(env: Env, r: Remote, w: Worker, t: Task)
    requires OnTrack(env, r, w) && w.phase.Failing? && w.phase.task == TaskIdFor(env, w.envelope)
    requires Alive(r.r1, w.phase.task) && r.r1.tasks[w.phase.task] == t && HeldBy(t, w.envelope.workerId, w.phase.epoch, w.tick)
    ensures var out := TakeIfRunnable(env, r, w); var tid := TaskIdFor(env, w.envelope);
      && out.Continues? && OnTrack(env, out.remote, out.worker)
      && tid in out.remote.r1.tasks
      && out.remote.r1.tasks[tid] == t.(attemptCount := t.attemptCount + 1, heartbeatAt := Some(w.tick),
                                        deadLetterReason := if t.attemptCount < t.retryBudget then t.deadLetterReason else Some(EXPIRED_REASON))
      && out.worker.phase == if t.attemptCount < t.retryBudget then Checkpointing(tid, w.phase.epoch) else Releasing(Exhausted)
  {
    hide RemoteInv, SealCovers, Apply, Permitted, ValidState, Idem, CountedExactly, TakeIfRunnable;
    var call := PhaseCall(w);
    CallPermitted(env, r, w);
    RecordFailureIs(env.engine, w.sealed.canonicalMain, r.r1, call);
    var out := Apply(env.engine, w.sealed.canonicalMain, r.r1, call);
    StepContinues(env, r, w, out.0, out.1.value,
                  if t.attemptCount < t.retryBudget then Checkpointing(w.phase.task, w.phase.epoch) else Releasing(Exhausted));
  }

  /** An earlier attempt that ran out costs one attempt, recorded by the next invocation left alone right after its lease:
      it goes on to its checkpoint while attempts are left, and otherwise the task is dead-lettered and the claim released. */
  lemma ExpiredAttemptIsCounted(env: Env, r: Remote, w: Worker, t: Task)
    requires Leasable(env, r, w, t) && t.retryBudget == RETRY_BUDGET && RanOut(t, w.tick)
    ensures var tid, a := TaskIdFor(env, w.envelope), TakeIfRunnable(env, r, w);
      && a.Continues?
      && var b := TakeIfRunnable(env, a.remote, a.worker);
      && b.Continues? && OnTrack(env, b.remote, b.worker) && tid in b.remote.r1.tasks
      && var t' := b.remote.r1.tasks[tid];
      && t'.attemptCount == t.attemptCount + 1 && t'.leaseEpoch == t.leaseEpoch + 1
      && (if t.attemptCount < RETRY_BUDGET then b.worker.phase == Checkpointing(tid, t.leaseEpoch + 1) && !Dead(t')
          else b.worker.phase == Releasing(Exhausted) && t'.deadLetterReason == Some(EXPIRED_REASON))
  {
    hide RemoteInv, OnTrack, TakeIfRunnable, Idem;
    LeaseLeadsToFailureIff(env, r, w, t);
    var a := TakeIfRunnable(env, r, w);
    var tid := TaskIdFor(env, w.envelope);
    FailureGoesThrough(env, a.remote, a.worker, a.remote.r1.tasks[tid]);
  }
}
