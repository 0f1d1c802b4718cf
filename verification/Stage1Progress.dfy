// Progress: an invocation that nobody interrupts, for a candidate the store does
// not know, ends released with its receipt durable and counted.
module Stage1Progress {
  import opened Prelude
  import opened R1Auth
  import opened R1State
  import opened R1Engine
  import opened R1Invariants
  import opened R1Progress
  import R1Runs
  import opened Stage1Control
  import opened Stage1Seal
  import opened Stage1Runtime
  import opened Stage1Invariants
  import Runs = Stage1Runs
  import opened Stage1Adapter

  // The store has never heard of the envelope's candidate, key or task.
  ghost predicate NeverSeen(env: Env, s: State, e: Envelope) {
    && e.candidateId !in s.cache && Idem(e.candidateId, e.docsHash) !in s.index
    && TaskIdFor(env, e) !in s.tasks && TaskIdFor(env, e) != ""
  }

  ghost predicate HexPayloads(env: Env) {
    forall p {:trigger env.engine.payloadHash(p)} :: IsHexAnyCase(env.engine.payloadHash(p), 64)
  }

  // A worker in step with a remote whose main is the sealed one.
  ghost predicate OnTrack(env: Env, r: Remote, w: Worker) {
    && RemoteInv(env, r) && WorkerInv(env, r, w) && w.snap == r
    && r.canonicalMain == w.sealed.canonicalMain && IsHexAnyCase(r.canonicalMain, 40)
    && w.tick >= 0 && PlainCommitGrant(w.sealed)
  }

  predicate PlainCommitGrant(sealed: Sealed) {
    CommitKey in sealed.operations ==>
      sealed.operations[CommitKey].Decision? ==> sealed.operations[CommitKey].ownerGateRef != Some("")
  }

  // ---- The claim ----

  // Nobody holds the claim, or its time is up.
  predicate ClaimOpen(c: Control, now: int) {
    c.claimId.Some? && c.claimExpiresAt.Some? ==> c.claimExpiresAt.value <= now
  }

  ghost predicate Preparable(env: Env, r: Remote, e: Event)
    requires e.Begin?
  {
    && ValidEnvelope(e.envelope) && Seal(env, e.bundle, e.envelope, r.canonicalMain).Ok?
    && |ReceiptIds(r.r1)| < MAX_TERMINAL && ClaimOpen(r.control, e.bundle.workerRuntime.now) && e.claimId != ""
    && r.canonicalMain == r.control.identity.canonicalMain
    && e.bundle.workerRuntime.now < r.control.identity.activatedAt + WINDOW_SECONDS
  }

  /** Exactly when an invocation gets as far as its claim: the bundle seals, fewer receipts are durable than the ceiling
      allows, the claim is free or over, the main is the activation's, and the window is open. */
  lemma PrepareSucceedsIff(env: Env, r: Remote, e: Event)
    requires e.Begin? && RemoteInv(env, r)
    ensures Prepare(env, r, e).Some? <==> Preparable(env, r, e)
    ensures Prepare(env, r, e).Some? ==>
      var w := Prepare(env, r, e).value;
      && w.phase.Claiming? && w.snap == r && w.envelope == e.envelope && w.claimId == e.claimId && w.tick == e.tick
      && w.sealed == Seal(env, e.bundle, e.envelope, r.canonicalMain).value
  {
    hide Seal, ValidEnvelope, EngineInv, AttemptsBehindEpochs, Reconcile, ValidIdentity, ReceiptIds, Elements, Extends;
    assert ValidState(r.r1) by { StateOfRemote(env, r); }
    ReconcileIs(r.control, r.r1);
    if Seal(env, e.bundle, e.envelope, r.canonicalMain).Ok? && Reconcile(r.control, r.r1).Ok? {
      var c := Reconcile(r.control, r.r1).value;
      BelowTheCeilingIff(r, c);
      SealKeepsClock(env, e.bundle, e.envelope, r.canonicalMain);
      ClaimGiven(c, e.claimId, e.bundle.workerRuntime.now);
    }
  }

  lemma BelowTheCeilingIff(r: Remote, c: Control)
    requires ValidControl(r.control) && CountInv(r) && Extends(r.control, c, ReceiptIds(r.r1))
    ensures ValidControl(c) && r.highWater <= c.terminalCount
    ensures |ReceiptIds(r.r1)| < MAX_TERMINAL <==> !c.paused && c.terminalCount < MAX_TERMINAL
    ensures c.identity == r.control.identity && c.claimId == r.control.claimId && c.claimExpiresAt == r.control.claimExpiresAt
  {
    hide ValidIdentity, ReceiptIds;
    ElementsSize(c.counted);
    ElementsSize(r.control.counted);
  }

  lemma StateOfRemote(env: Env, r: Remote)
    requires RemoteInv(env, r)
    ensures ValidState(r.r1)
  {
  }

  lemma SealKeepsClock(env: Env, b: Bundle, e: Envelope, m: string)
    requires Seal(env, b, e, m).Ok?
    ensures Seal(env, b, e, m).value.trustedNow == b.workerRuntime.now && Seal(env, b, e, m).value.operations == b.operations
    ensures Seal(env, b, e, m).value.canonicalMain == m && IsHexAnyCase(m, 40)
  {
    hide Validate, FirstDenial, ValidEnvelope;
  }

  lemma ClaimGiven(c: Control, claimId: string, now: int)
    requires ValidControl(c)
    ensures ClaimControl(c, claimId, now).Ok? <==> ClaimOpen(c, now) && claimId != ""
  {
    hide ValidIdentity;
  }

  lemma ClaimGoesThrough(env: Env, r: Remote, w: Worker)
    requires OnTrack(env, r, w) && w.phase.Claiming?
    ensures var r' := r.(control := w.phase.claimed, head := r.head + 1);
      var w' := w.(phase := Inspecting, snap := r', store := r.r1);
      TakeIfRunnable(env, r, w) == Continues(r', w') && OnTrack(env, r', w') && r'.r1 == r.r1
  {
    hide RemoteInv, SealCovers, Reconcile, EngineStep;
    assert ValidControl(w.phase.claimed) by { ClaimedIsValid(w); }
    Runs.TakeKeeps(env, r, w);
  }

  lemma ClaimedIsValid(w: Worker)
    requires w.phase.Claiming? && ClaimPrepared(w)
    ensures ValidControl(w.phase.claimed)
  {
    hide Reconcile;
  }

  // ---- The engine steps ----

  lemma InvocationGuardPasses(env: Env, w: Worker)
    requires SealCovers(env, w.envelope, w.sealed) && OwnTask(env, w) && w.tick >= 0
    requires w.snap.canonicalMain == w.sealed.canonicalMain
    requires w.phase.Inspecting? || w.phase.Leasing? || w.phase.Checkpointing? || w.phase.Committing?
    ensures Guard(w.sealed.canonicalMain, PhaseCall(w)).None?
  {
    hide Validate, Idem;
    var call := PhaseCall(w);
    var key := KeyOf(call);
    assert key in AUTH_KEYS;
    assert NeedOf(call) == ExpectedNeed(env, w.envelope, key);
  }

  lemma StepContinues(env: Env, r: Remote, w: Worker, s': State, reply: Reply, phase: Phase)
    requires OnTrack(env, r, w) && !w.phase.Claiming? && !w.phase.Releasing? && Runnable(w)
    requires Apply(env.engine, w.sealed.canonicalMain, w.store, PhaseCall(w)) == (s', Ok(reply))
    requires NextPhase(w, s', reply) == Some(phase)
    ensures var r' := r.(r1 := s', head := r.head + 1);
      var w' := w.(phase := phase, snap := r', store := s');
      TakeIfRunnable(env, r, w) == Continues(r', w') && OnTrack(env, r', w')
  {
    hide EngineInv, SealCovers, Apply, CountInv, AttemptsBehindEpochs, ValidControl, NextPhase, PhaseCall;
    assert ValidState(s') by {
      ApplyKeeps(env.engine, w.sealed.canonicalMain, w.store, PhaseCall(w));
      ValidOfInv(env.engine, s');
    }
    Runs.TakeKeeps(env, r, w);
  }

  lemma ValidOfInv(d: Digests, s: State)
    requires EngineInv(d, s)
    ensures ValidState(s)
  {
  }

  // What the steps have left of the task and of everything else.
  ghost predicate Underway(env: Env, s0: State, s: State, e: Envelope, t: Task) {
    var c, idem, tid := e.candidateId, Idem(e.candidateId, e.docsHash), TaskIdFor(env, e);
    && s.cache == s0.cache[c := FreshEntry(c, e.docsHash)]
    && s.tasks == s0.tasks[tid := t] && s.index == s0.index[idem := tid] && s.receipts == s0.receipts
    && idem !in s0.receipts && s0.tasks.Keys + {tid} == s.tasks.Keys
    && t.taskId == tid && t.idempotencyKey == idem && t.candidateId == c && t.inputHash == e.docsHash
    && t.expectedCacheVersion == 0 && t.retryBudget == RETRY_BUDGET && t.deadLetterReason.None?
  }

  lemma InspectGoesThrough(env: Env, r: Remote, w: Worker)
    requires OnTrack(env, r, w) && w.phase.Inspecting? && NeverSeen(env, r.r1, w.envelope)
    ensures var out := TakeIfRunnable(env, r, w);
      && out.Continues? && OnTrack(env, out.remote, out.worker)
      && out.worker.phase == Leasing(TaskIdFor(env, w.envelope)) && out.worker.envelope == w.envelope
      && TaskIdFor(env, w.envelope) in out.remote.r1.tasks
      && var t := out.remote.r1.tasks[TaskIdFor(env, w.envelope)];
      Underway(env, r.r1, out.remote.r1, w.envelope, t) && t.leaseOwner.None? && t.leaseEpoch == 0
  {
    hide RemoteInv, SealCovers, Apply, Guard, ValidState, Idem, CountedExactly;
    var e, call := w.envelope, PhaseCall(w);
    assert ValidState(r.r1) by { StateOfRemote(env, r); }
    EnvelopeOfWorker(env, r, w);
    InvocationGuardPasses(env, w);
    InspectSucceedsIff(env.engine, w.sealed.canonicalMain, r.r1, call);
    NoReceiptWithoutKey(r.r1, Idem(e.candidateId, e.docsHash));
    var out := Apply(env.engine, w.sealed.canonicalMain, r.r1, call);
    StepContinues(env, r, w, out.0, out.1.value, Leasing(TaskIdFor(env, e)));
  }

  lemma EnvelopeOfWorker(env: Env, r: Remote, w: Worker)
    requires WorkerInv(env, r, w)
    ensures ValidEnvelope(w.envelope) && w.envelope.candidateId != "" && w.envelope.docsHash != "" && w.envelope.workerId != ""
    ensures SealCovers(env, w.envelope, w.sealed) && OwnTask(env, w)
  {
  }

  lemma NoReceiptWithoutKey(s: State, idem: string)
    requires ValidState(s) && idem !in s.index
    ensures idem !in s.receipts
  {
    if idem in s.receipts {
      ReceiptIsIndexed(s, idem);
    }
  }

  lemma ReceiptIsIndexed(s: State, idem: string)
    requires ValidState(s) && idem in s.receipts
    ensures idem in s.index
  {
    assert ValidReceipt(s, idem);
  }

  lemma LeaseGoesThrough(env: Env, s0: State, r: Remote, w: Worker, t: Task)
    requires OnTrack(env, r, w) && w.phase == Leasing(TaskIdFor(env, w.envelope))
    requires Underway(env, s0, r.r1, w.envelope, t) && t.leaseOwner.None? && t.leaseEpoch == 0
    ensures var out := TakeIfRunnable(env, r, w);
      && out.Continues? && OnTrack(env, out.remote, out.worker)
      && out.worker.phase == Checkpointing(TaskIdFor(env, w.envelope), 1) && out.worker.envelope == w.envelope && out.worker.tick == w.tick
      && Underway(env, s0, out.remote.r1, w.envelope, Leased(t, w.envelope.workerId, w.tick, LEASE_TICKS))
  {
    hide RemoteInv, SealCovers, Apply, Guard, ValidState, Idem, CountedExactly, FreshEntry;
    var call := PhaseCall(w);
    assert ValidState(r.r1) by { StateOfRemote(env, r); }
    EnvelopeOfWorker(env, r, w);
    InvocationGuardPasses(env, w);
    AcquireSucceedsIff(env.engine, w.sealed.canonicalMain, r.r1, call);
    var out := Apply(env.engine, w.sealed.canonicalMain, r.r1, call);
    StepContinues(env, r, w, out.0, out.1.value, Checkpointing(TaskIdFor(env, w.envelope), 1));
  }

  lemma CheckpointGoesThrough(env: Env, s0: State, r: Remote, w: Worker, t: Task)
    requires OnTrack(env, r, w) && w.phase == Checkpointing(TaskIdFor(env, w.envelope), 1)
    requires Underway(env, s0, r.r1, w.envelope, t) && HoldsLease(t, w.envelope.workerId, 1, w.tick + 2)
    ensures var out := TakeIfRunnable(env, r, w);
      && out.Continues? && OnTrack(env, out.remote, out.worker)
      && out.worker.phase == Committing(TaskIdFor(env, w.envelope), 1) && out.worker.envelope == w.envelope && out.worker.tick == w.tick
      && TaskIdFor(env, w.envelope) in out.remote.r1.tasks
      && var t' := out.remote.r1.tasks[TaskIdFor(env, w.envelope)];
      Underway(env, s0, out.remote.r1, w.envelope, t') && HoldsLease(t', w.envelope.workerId, 1, w.tick + 2)
  {
    hide RemoteInv, SealCovers, Apply, Guard, ValidState, Idem, CountedExactly, FreshEntry;
    var call := PhaseCall(w);
    assert ValidState(r.r1) by { StateOfRemote(env, r); }
    EnvelopeOfWorker(env, r, w);
    InvocationGuardPasses(env, w);
    CheckpointSucceedsIff(env.engine, w.sealed.canonicalMain, r.r1, call);
    var out := Apply(env.engine, w.sealed.canonicalMain, r.r1, call);
    StepContinues(env, r, w, out.0, out.1.value, Committing(TaskIdFor(env, w.envelope), 1));
  }

  // One receipt more, under the envelope's key; one entry, task and index row more.
  ghost predicate Reviewed(env: Env, s0: State, s: State, e: Envelope) {
    var c, idem, tid := e.candidateId, Idem(e.candidateId, e.docsHash), TaskIdFor(env, e);
    && s.cache.Keys == s0.cache.Keys + {c} && s.tasks.Keys == s0.tasks.Keys + {tid} && s.index == s0.index[idem := tid]
    && idem !in s0.receipts && idem in s.receipts && s.receipts == s0.receipts[idem := s.receipts[idem]]
    && Final(s.cache[c].auditState) && s.cache[c].docsHash == e.docsHash
  }

  lemma CommitGoesThrough(env: Env, s0: State, r: Remote, w: Worker, t: Task)
    requires OnTrack(env, r, w) && HexPayloads(env) && w.phase == Committing(TaskIdFor(env, w.envelope), 1)
    requires Underway(env, s0, r.r1, w.envelope, t) && HoldsLease(t, w.envelope.workerId, 1, w.tick + 2)
    ensures var out := TakeIfRunnable(env, r, w);
      && out.Continues? && OnTrack(env, out.remote, out.worker)
      && out.worker.phase == Releasing(Finished) && Reviewed(env, s0, out.remote.r1, w.envelope)
  {
    hide RemoteInv, SealCovers, Guard, ValidState, Idem, CountedExactly, IsHexAnyCase, ReceiptIdOf;
    var m, call := w.sealed.canonicalMain, PhaseCall(w);
    assert ValidState(r.r1) by { StateOfRemote(env, r); }
    EnvelopeOfWorker(env, r, w);
    InvocationGuardPasses(env, w);
    CommitGuardGives(m, call);
    assert R1Runs.Storable(env.engine, t, call) by { CommitIsStorable(env, w, t); }
    R1Runs.CommitCreatesReceiptIff(env.engine, m, r.r1, call);
    var out := Apply(env.engine, m, r.r1, call);
    CommitWrites(env, s0, r.r1, w.envelope, t, m, call);
    StepContinues(env, r, w, out.0, out.1.value, Releasing(Finished));
  }

  lemma CommitIsStorable(env: Env, w: Worker, t: Task)
    requires w.phase.Committing? && HexPayloads(env) && PlainCommitGrant(w.sealed) && ValidEnvelope(w.envelope)
    requires IsHexAnyCase(w.snap.canonicalMain, 40) && PhaseCall(w).auth.Decision?
    ensures R1Runs.Storable(env.engine, t, PhaseCall(w))
  {
    hide IsHexAnyCase;
    assert IsHexAnyCase(env.engine.payloadHash(PayloadOf(t, PhaseCall(w))), 64);
  }

  lemma CommitWrites(env: Env, s0: State, s: State, e: Envelope, t: Task, m: string, call: Call)
    requires Underway(env, s0, s, e, t) && call.Commit? && call.task == TaskIdFor(env, e)
    requires Guard(m, call).None? && Apply(env.engine, m, s, call).1.Ok?
    ensures Reviewed(env, s0, Apply(env.engine, m, s, call).0, e)
    ensures Apply(env.engine, m, s, call).1.value.Committed?
  {
    hide Guard, ValidState, Idem, ReceiptIdOf, PayloadOf;
    CommitGuardGives(m, call);
    ApplyEffect(env.engine, m, s, call);
    var out := Apply(env.engine, m, s, call).0;
    assert s.tasks[call.task] == t;
    assert out.receipts != s.receipts;
  }

  // ---- The release ----

  lemma ReleaseGoesThrough(env: Env, r: Remote, w: Worker)
    requires OnTrack(env, r, w) && w.phase.Releasing?
    ensures var out := TakeIfRunnable(env, r, w);
      && out.Released? && RemoteInv(env, out.remote) && out.remote.r1 == r.r1 && out.remote.control.claimId.None?
      && out.remote.canonicalMain == r.canonicalMain && out.remote.control.identity == r.control.identity
      && CountedExactly(out.remote.control, r.r1)
  {
    hide EngineInv, SealCovers, AttemptsBehindEpochs, Reconcile, ValidIdentity, Elements, ReceiptIds;
    assert ValidState(r.r1) by { StateOfRemote(env, r); }
    ReconcileIs(r.control, r.r1);
    var finished := Reconcile(r.control, r.r1).value;
    ReleasedIsValid(r.control, finished, ReceiptIds(r.r1), w.claimId);
    Runs.TakeKeeps(env, r, w);
    ExtendedCounts(r.control, finished, r.r1);
  }

  lemma ReleasedIsValid(c: Control, finished: Control, ids: set<string>, claimId: string)
    requires ValidControl(c) && Extends(c, finished, ids) && c.claimId == Some(claimId)
    ensures ReleaseControl(finished, claimId).Ok? && ValidControl(ReleaseControl(finished, claimId).value)
    ensures ReleaseControl(finished, claimId).value.claimId.None?
    ensures ReleaseControl(finished, claimId).value.identity == c.identity
    ensures ReleaseControl(finished, claimId).value.counted == finished.counted
  {
    hide ValidIdentity;
  }

  lemma ExtendedCounts(c: Control, finished: Control, s: State)
    requires Extends(c, finished, ReceiptIds(s)) && Elements(c.counted) <= ReceiptIds(s)
    ensures Elements(finished.counted) == ReceiptIds(s)
  {
  }

  // ---- The whole invocation ----

  lemma DriveOn(env: Env, r: Remote, w: Worker)
    requires TakeIfRunnable(env, r, w).Continues?
    ensures var out := TakeIfRunnable(env, r, w); Drive(env, r, w) == Drive(env, out.remote, out.worker)
  {
    hide TakeIfRunnable;
    TakeDescends(env, r, w);
  }

  lemma DriveEnds(env: Env, r: Remote, w: Worker)
    requires !TakeIfRunnable(env, r, w).Continues?
    ensures Drive(env, r, w) == TakeIfRunnable(env, r, w)
  {
    hide TakeIfRunnable;
  }

  // The main and the activation a remote belongs to.
  predicate SameActivation(r: Remote, r': Remote) {
    r'.canonicalMain == r.canonicalMain && r'.control.identity == r.control.identity
  }

  lemma TakeKeepsActivation(env: Env, r: Remote, w: Worker)
    requires RemoteInv(env, r) && WorkerInv(env, r, w)
    ensures SameActivation(r, TakeIfRunnable(env, r, w).remote)
  {
    hide EngineInv, SealCovers, CountInv, AttemptsBehindEpochs, Reconcile, ValidIdentity, ReceiptIds, Elements, Apply, NextPhase;
    if w.phase.Claiming? && InStep(r, w) {
      Runs.ReconcileGuards(r.control, r.r1);
      ReconcileIs(r.control, r.r1);
    } else if w.phase.Releasing? && InStep(r, w) && Reconcile(r.control, r.r1).Ok? {
      Runs.ReconcileGuards(r.control, r.r1);
      ReconcileIs(r.control, r.r1);
    }
  }

  lemma {:induction false} DriveKeepsActivation(env: Env, r: Remote, w: Worker)
    requires RemoteInv(env, r) && WorkerInv(env, r, w)
    ensures SameActivation(r, Drive(env, r, w).remote)
    decreases Stage1Adapter.Rank(w.phase)
  {
    hide RemoteInv, WorkerInv, Take;
    TakeKeepsActivation(env, r, w);
    var out := TakeIfRunnable(env, r, w);
    if out.Continues? {
      TakeDescends(env, r, w);
      Runs.TakeKeeps(env, r, w);
      DriveKeepsActivation(env, out.remote, out.worker);
    }
  }

  lemma TrackIsSound(env: Env, r: Remote, w: Worker)
    requires OnTrack(env, r, w)
    ensures RemoteInv(env, r) && WorkerInv(env, r, w)
  {
  }

  // `outs` are the calls of `w` one after the other, all of them accepted.
  ghost predicate Calls(env: Env, r: Remote, w: Worker, outs: seq<Outcome>) {
    && |outs| > 0 && outs[0] == TakeIfRunnable(env, r, w)
    && (forall i | 0 <= i < |outs| :: outs[i].Continues?)
    && forall i | 0 <= i < |outs| - 1 :: outs[i + 1] == TakeIfRunnable(env, outs[i].remote, outs[i].worker)
  }

  lemma {:induction false} DriveThrough(env: Env, r: Remote, w: Worker, outs: seq<Outcome>)
    requires Calls(env, r, w, outs)
    ensures Drive(env, r, w) == Drive(env, outs[|outs| - 1].remote, outs[|outs| - 1].worker)
    decreases |outs|
  {
    hide TakeIfRunnable, Drive;
    DriveOn(env, r, w);
    if |outs| > 1 {
      assert Calls(env, outs[0].remote, outs[0].worker, outs[1..]);
      DriveThrough(env, outs[0].remote, outs[0].worker, outs[1..]);
    }
  }

  lemma EngineKeepsControl(env: Env, r: Remote, w: Worker)
    requires !w.phase.Claiming? && !w.phase.Releasing?
    ensures var r' := TakeIfRunnable(env, r, w).remote;
      r'.control == r.control && r'.canonicalMain == r.canonicalMain && r'.highWater == r.highWater
  {
    hide Apply, PhaseCall, NextPhase, ValidState;
  }

  lemma ClaimingRuns(env: Env, w: Worker)
    requires w.phase.Claiming?
    ensures Runnable(w)
  {
  }

  /** Claim, inspect, lease, checkpoint, commit: a claiming worker that is on track, for a candidate the store does not
      know, left alone, makes its receipt durable while the control is still as it was claimed. */
  lemma CommitIsReached(env: Env, r: Remote, w: Worker) returns (outs: seq<Outcome>)
    requires OnTrack(env, r, w) && w.phase.Claiming? && HexPayloads(env) && NeverSeen(env, r.r1, w.envelope)
    ensures Calls(env, r, w, outs) && |outs| == 5 && outs[4].Continues?
    ensures var out := outs[4];
      && OnTrack(env, out.remote, out.worker) && out.worker.phase == Releasing(Finished)
      && Reviewed(env, r.r1, out.remote.r1, w.envelope)
      && out.remote.control == w.phase.claimed && out.remote.canonicalMain == r.canonicalMain
  {
    hide OnTrack, NeverSeen, Underway, Reviewed, RemoteInv, TakeIfRunnable, TaskIdFor, Leased, HoldsLease, HexPayloads;
    var s0, e := r.r1, w.envelope;
    ClaimGoesThrough(env, r, w);
    var a := TakeIfRunnable(env, r, w);
    InspectGoesThrough(env, a.remote, a.worker);
    EngineKeepsControl(env, a.remote, a.worker);
    var b := TakeIfRunnable(env, a.remote, a.worker);
    var t := b.remote.r1.tasks[TaskIdFor(env, e)];
    LeaseGoesThrough(env, s0, b.remote, b.worker, t);
    EngineKeepsControl(env, b.remote, b.worker);
    var c := TakeIfRunnable(env, b.remote, b.worker);
    assert b.worker.tick >= 0 by { TickOfTrack(env, b.remote, b.worker); }
    var leased := Leased(t, e.workerId, b.worker.tick, LEASE_TICKS);
    assert t.leaseEpoch == 0;
    LeaseHolds(t, e.workerId, b.worker.tick);
    CheckpointGoesThrough(env, s0, c.remote, c.worker, leased);
    EngineKeepsControl(env, c.remote, c.worker);
    var d := TakeIfRunnable(env, c.remote, c.worker);
    CommitGoesThrough(env, s0, d.remote, d.worker, d.remote.r1.tasks[TaskIdFor(env, e)]);
    EngineKeepsControl(env, d.remote, d.worker);
    var f := TakeIfRunnable(env, d.remote, d.worker);
    outs := [a, b, c, d, f];
  }

  /** Progress: the same worker, left alone to its end, is released: the receipt is durable, the entry final, the count
      settled and the claim free. */
  lemma InvocationSucceeds(env: Env, r: Remote, w: Worker)
    requires OnTrack(env, r, w) && w.phase.Claiming? && HexPayloads(env) && NeverSeen(env, r.r1, w.envelope)
    ensures var out := Drive(env, r, w);
      && out.Released? && RemoteInv(env, out.remote) && Reviewed(env, r.r1, out.remote.r1, w.envelope)
      && out.remote.control.claimId.None? && CountedExactly(out.remote.control, out.remote.r1)
      && SameActivation(r, out.remote)
  {
    hide WorkerInv, SameActivation, OnTrack, NeverSeen, Reviewed, RemoteInv, TakeIfRunnable, Drive, HexPayloads, Calls;
    var outs := CommitIsReached(env, r, w);
    DriveThrough(env, r, w, outs);
    var f := outs[4];
    ReleaseGoesThrough(env, f.remote, f.worker);
    DriveEnds(env, f.remote, f.worker);
    assert RemoteInv(env, r) && WorkerInv(env, r, w) by { TrackIsSound(env, r, w); }
    DriveKeepsActivation(env, r, w);
  }

  lemma TickOfTrack(env: Env, r: Remote, w: Worker)
    requires OnTrack(env, r, w)
    ensures w.tick >= 0
  {
  }

  lemma LeaseHolds(t: Task, worker: string, tick: nat)
    requires t.leaseEpoch == 0
    ensures HoldsLease(Leased(t, worker, tick, LEASE_TICKS), worker, 1, tick + 2)
  {
  }
}
