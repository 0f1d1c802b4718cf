// Stage 1 over whole runs of competing, crashing workers.
module Stage1Runs {
  import opened Prelude
  import opened Ordering
  import opened R1State
  import opened R1Engine
  import opened R1Invariants
  import opened R1Steps
  import opened Stage1Control
  import opened Stage1Seal
  import opened Stage1Runtime
  import opened Stage1Invariants

  ghost predicate StepOk(env: Env, events: seq<Event>, worlds: seq<World>, k: nat)
    requires k < |events| == |worlds| - 1
  {
    worlds[k + 1] == Step(env, worlds[k], events[k])
  }

  // A run from the empty control and the empty R1 state.
  ghost predicate IsRun(env: Env, identity: Identity, events: seq<Event>, worlds: seq<World>) {
    && |events| == |worlds| - 1
    && ValidIdentity(identity) && worlds[0] == InitialWorld(identity, identity.canonicalMain)
    && forall k {:trigger StepOk(env, events, worlds, k)} | 0 <= k < |events| :: StepOk(env, events, worlds, k)
  }

  // ---- One event ----

  lemma BeginKeeps(env: Env, r: Remote, e: Event)
    requires RemoteInv(env, r) && e.Begin? && Prepare(env, r, e).Some?
    ensures WorkerInv(env, r, Prepare(env, r, e).value)
  {
    hide RemoteInv, SealCovers, Seal;
    SealingCovers(env, e.bundle, e.envelope, r.canonicalMain);
  }

  // What an adapter call by `w` may leave behind.
  ghost predicate TookWell(env: Env, r: Remote, out: Outcome) {
    && RemoteInv(env, out.remote)
    && (out.remote == r || out.remote.head == r.head + 1)
    && (out.Continues? ==> WorkerInv(env, out.remote, out.worker) && out.remote.head == r.head + 1)
    && (out.remote.control != r.control ==> CountedExactly(out.remote.control, out.remote.r1))
    && (forall idem | idem in r.r1.receipts ::
          idem in out.remote.r1.receipts && out.remote.r1.receipts[idem] == r.r1.receipts[idem])
  }

  lemma TakeClaim(env: Env, r: Remote, w: Worker)
    requires RemoteInv(env, r) && WorkerInv(env, r, w) && w.phase.Claiming? && InStep(r, w)
    ensures var r' := r.(control := w.phase.claimed, head := r.head + 1);
      TookWell(env, r, Continues(r', w.(phase := Inspecting, snap := r', store := r'.r1)))
  {
    var r' := r.(control := w.phase.claimed, head := r.head + 1);
    ClaimKeeps(env, r, w);
    ClaimedWorkerKeeps(env, r', w);
  }

  lemma ClaimedWorkerKeeps(env: Env, r: Remote, w: Worker)
    requires SealCovers(env, w.envelope, w.sealed) && CountedExactly(r.control, r.r1) && r.control.claimId == Some(w.claimId)
    ensures WorkerInv(env, r, w.(phase := Inspecting, snap := r, store := r.r1))
  {
  }

  lemma TakeRelease(env: Env, r: Remote, w: Worker)
    requires RemoteInv(env, r) && WorkerInv(env, r, w) && w.phase.Releasing?
    ensures TookWell(env, r, Take(env, r, w))
  {
    hide EngineInv, CountInv, SealCovers, ValidControl, AttemptsBehindEpochs, ReceiptIds, Reconcile, ReleaseControl;
    if Take(env, r, w).Released? {
      var finished := Reconcile(w.snap.control, w.snap.r1).value;
      ReleaseKeeps(env, r, w, finished, ReleaseControl(finished, w.claimId).value);
    }
  }

  // An engine step either changes nothing remotely, or persists exactly the engine's new state.
  ghost predicate EngineOutcome(env: Env, r: Remote, w: Worker, s': State, reply: Result<Reply, Failure>, out: Outcome)
    requires !w.phase.Claiming? && !w.phase.Releasing?
  {
    || out == Stopped(r)
    || (&& InStep(r, w) && r.control.claimId == Some(w.claimId)
        && Apply(env.engine, w.sealed.canonicalMain, w.store, PhaseCall(w)) == (s', reply)
        && out.remote == r.(r1 := s', head := r.head + 1) && !out.Released?
        && (out.Continues? ==>
             && reply.Ok? && out.worker == w.(phase := out.worker.phase, snap := out.remote, store := s')
             && NextPhase(w, s', reply.value) == Some(out.worker.phase)))
  }

  lemma EngineOutcomes(env: Env, r: Remote, w: Worker)
    requires !w.phase.Claiming? && !w.phase.Releasing?
    ensures var done := Apply(env.engine, w.sealed.canonicalMain, w.store, PhaseCall(w));
      EngineOutcome(env, r, w, done.0, done.1, EngineStep(env, r, w))
  {
  }

  lemma TakeEngine(env: Env, r: Remote, w: Worker, s': State, reply: Result<Reply, Failure>, out: Outcome)
    requires RemoteInv(env, r) && WorkerInv(env, r, w) && !w.phase.Claiming? && !w.phase.Releasing?
    requires EngineOutcome(env, r, w, s', reply, out)
    ensures TookWell(env, r, out)
  {
    if out != Stopped(r) {
      PersistKeeps(env, r, w, s');
      ReceiptIdsStep(env.engine, w.sealed.canonicalMain, w.store, PhaseCall(w));
      if out.Continues? {
        WorkerKeeps(env, r, w, s', reply.value, out.worker.phase);
      }
    }
  }

  lemma TakeKeeps(env: Env, r: Remote, w: Worker)
    requires RemoteInv(env, r) && WorkerInv(env, r, w)
    ensures TookWell(env, r, Take(env, r, w))
  {
    hide RemoteInv, WorkerInv, EngineStep, Apply, Reconcile;
    if w.phase.Claiming? {
      if ClaimInvocation(r, w.snap.head, w.phase.claimed).Some? {
        TakeClaim(env, r, w);
      }
    } else if w.phase.Releasing? {
      TakeRelease(env, r, w);
    } else {
      var done := Apply(env.engine, w.sealed.canonicalMain, w.store, PhaseCall(w));
      EngineOutcomes(env, r, w);
      TakeEngine(env, r, w, done.0, done.1, Take(env, r, w));
    }
  }

  // A worker that was not the one to move falls behind or stays as it was.
  lemma OthersKeep(env: Env, r: Remote, r': Remote, w: Worker)
    requires WorkerInv(env, r, w) && (r' == r || r'.head == r.head + 1)
    ensures WorkerInv(env, r', w)
  {
  }

  lemma InstallKeeps(env: Env, world: World, id: nat, out: Outcome)
    requires WorldInv(env, world) && TookWell(env, world.remote, out)
    ensures WorldInv(env, Install(world, id, out))
  {
    var world' := Install(world, id, out);
    forall k | k in world'.workers ensures WorkerInv(env, world'.remote, world'.workers[k]) {
      if k != id {
        OthersKeep(env, world.remote, world'.remote, world.workers[k]);
      }
    }
  }

  lemma MovedMainKeeps(env: Env, world: World, m: string)
    requires WorldInv(env, world)
    ensures WorldInv(env, world.(remote := world.remote.(canonicalMain := m)))
  {
    var world' := world.(remote := world.remote.(canonicalMain := m));
    forall k | k in world'.workers ensures WorkerInv(env, world'.remote, world'.workers[k]) {
      assert WorkerInv(env, world.remote, world.workers[k]);
    }
  }

  // The receipts and the counts across one event.
  ghost predicate RemoteMoves(r: Remote, r': Remote) {
    && (r'.control != r.control ==> CountedExactly(r'.control, r'.r1))
    && (forall idem | idem in r.r1.receipts :: idem in r'.r1.receipts && r'.r1.receipts[idem] == r.r1.receipts[idem])
  }

  lemma AdvanceKeeps(env: Env, world: World, id: nat)
    requires WorldInv(env, world) && id in world.workers
    ensures WorldInv(env, Step(env, world, Advance(id)))
    ensures RemoteMoves(world.remote, Step(env, world, Advance(id)).remote)
  {
    hide Take, RemoteInv, WorkerInv, Runnable;
    var w := world.workers[id];
    assert WorkerInv(env, world.remote, w);
    if Runnable(w) {
      TakeKeeps(env, world.remote, w);
      InstallKeeps(env, world, id, Take(env, world.remote, w));
    } else {
      InstallKeeps(env, world, id, Stopped(world.remote));
    }
  }

  lemma BegunKeeps(env: Env, world: World, e: Event)
    requires WorldInv(env, world) && e.Begin?
    ensures WorldInv(env, Step(env, world, e)) && Step(env, world, e).remote == world.remote
  {
    hide Prepare, RemoteInv, WorkerInv;
    if Prepare(env, world.remote, e).Some? {
      BeginKeeps(env, world.remote, e);
    }
  }

  lemma StepKeeps(env: Env, world: World, event: Event)
    requires WorldInv(env, world)
    ensures WorldInv(env, Step(env, world, event))
    ensures RemoteMoves(world.remote, Step(env, world, event).remote)
  {
    if event.Begin? {
      BegunKeeps(env, world, event);
    } else if event.Advance? {
      if event.id in world.workers { AdvanceKeeps(env, world, event.id); }
    } else if event.MainMoves? {
      MovedMainKeeps(env, world, event.main);
    }
  }

  lemma InitialKeeps(env: Env, identity: Identity)
    requires ValidIdentity(identity)
    ensures WorldInv(env, InitialWorld(identity, identity.canonicalMain))
  {
    EmptyInv(env.engine);
    assert ReceiptIds(EMPTY_STATE) == {};
    assert Elements([]) == {};
  }

  lemma {:induction false} EveryWorldKeeps(env: Env, identity: Identity, events: seq<Event>, worlds: seq<World>, k: nat)
    requires IsRun(env, identity, events, worlds) && k < |worlds|
    ensures WorldInv(env, worlds[k])
  {
    hide Step, WorldInv, InitialWorld;
    if k == 0 {
      InitialKeeps(env, identity);
    } else {
      EveryWorldKeeps(env, identity, events, worlds, k - 1);
      assert StepOk(env, events, worlds, k - 1);
      StepKeeps(env, worlds[k - 1], events[k - 1]);
    }
  }

  // ---- The theorems ----

  /** Under any number of competing workers, lease expiries and crashes, at every moment: the durable
      receipts stay within the ceiling; the counted ids are a duplicate-free subset of the durable receipt
      ids missing at most one, and that one only while an invocation holds the claim; the stage is paused
      exactly when the count has reached the ceiling. */
  lemma CeilingAndCounts(env: Env, identity: Identity, events: seq<Event>, worlds: seq<World>, k: nat)
    requires IsRun(env, identity, events, worlds) && k < |worlds|
    ensures var r := worlds[k].remote;
      && |ReceiptIds(r.r1)| <= MAX_TERMINAL
      && Distinct(r.control.counted) && r.control.terminalCount == |r.control.counted|
      && Elements(r.control.counted) <= ReceiptIds(r.r1)
      && |ReceiptIds(r.r1) - Elements(r.control.counted)| <= 1
      && (r.control.claimId.None? ==> Elements(r.control.counted) == ReceiptIds(r.r1))
      && (r.control.paused <==> r.control.terminalCount == MAX_TERMINAL)
      && ValidState(r.r1) && ValidControl(r.control)
  {
    EveryWorldKeeps(env, identity, events, worlds, k);
    var r := worlds[k].remote;
    ElementsSize(r.control.counted);
    SubsetSize(Elements(r.control.counted), ReceiptIds(r.r1));
  }

  /** Every claim and every release leaves the counted ids equal to the durable receipt ids. */
  lemma ClaimAndReleaseSettleTheCount(env: Env, identity: Identity, events: seq<Event>, worlds: seq<World>, k: nat)
    requires IsRun(env, identity, events, worlds) && k < |events|
    requires worlds[k + 1].remote.control != worlds[k].remote.control
    ensures Elements(worlds[k + 1].remote.control.counted) == ReceiptIds(worlds[k + 1].remote.r1)
  {
    EveryWorldKeeps(env, identity, events, worlds, k);
    assert StepOk(env, events, worlds, k);
    StepKeeps(env, worlds[k], events[k]);
  }

  lemma ClaimedFrom(c: Control, reconciled: Control, ids: set<string>, claimId: string, now: int, claimed: Control)
    requires ValidControl(c) && Extends(c, reconciled, ids) && ClaimControl(reconciled, claimId, now) == Ok(claimed)
    ensures c.claimId.None? || now >= c.claimExpiresAt.value
    ensures claimed.claimId == Some(claimId) && claimed.claimExpiresAt == Some(now + INVOCATION_LEASE_SECONDS)
    ensures reconciled.identity == c.identity
  {
    hide ValidIdentity;
  }

  // What a worker about to claim has checked against the control it will replace.
  ghost predicate FairClaim(r: Remote, w: Worker, next: Control) {
    && w.phase.Claiming? && w.snap.control == r.control
    && (r.control.claimId.None? || (r.control.claimExpiresAt.Some? && w.sealed.trustedNow >= r.control.claimExpiresAt.value))
    && next.claimId == Some(w.claimId) && next.claimExpiresAt == Some(w.sealed.trustedNow + INVOCATION_LEASE_SECONDS)
    && w.snap.canonicalMain == r.control.identity.canonicalMain
    && w.sealed.trustedNow < r.control.identity.activatedAt + WINDOW_SECONDS
  }

  lemma TakenClaimIsFair(env: Env, r: Remote, w: Worker)
    requires RemoteInv(env, r) && WorkerInv(env, r, w) && w.phase.Claiming? && ClaimInvocation(r, w.snap.head, w.phase.claimed).Some?
    ensures FairClaim(r, w, w.phase.claimed)
  {
    hide EngineInv, SealCovers, CountInv, AttemptsBehindEpochs, Reconcile, ValidIdentity, Extends, ClaimControl;
    ReconcileGuards(r.control, r.r1);
    ReconcileIs(r.control, r.r1);
    ClaimedFrom(r.control, Reconcile(r.control, r.r1).value, ReceiptIds(r.r1), w.claimId, w.sealed.trustedNow, w.phase.claimed);
  }

  lemma ReconcileGuards(c: Control, s: State)
    requires Reconcile(c, s).Ok?
    ensures ValidControl(c) && ValidState(s)
  {
  }

  // Only the claiming phase puts a claim into the control.
  lemma OtherPhasesClaimNothing(env: Env, r: Remote, w: Worker)
    requires !w.phase.Claiming?
    ensures var c := Take(env, r, w).remote.control;
      c.claimId.None? || (c.claimId == r.control.claimId && c.claimExpiresAt == r.control.claimExpiresAt)
  {
    hide Apply, Reconcile, NextPhase, ValidControl;
  }

  /** Single invocation: the claim passes to a worker only when nobody held it or the holder's five minutes were
      over by the worker's trusted clock, with the very control the worker looked at, for the canonical main of the
      activation, and inside the seven-day window. */
  lemma ClaimsAreExclusive(env: Env, identity: Identity, events: seq<Event>, worlds: seq<World>, k: nat)
    requires IsRun(env, identity, events, worlds) && k < |events|
    requires var c, c' := worlds[k].remote.control, worlds[k + 1].remote.control;
      c'.claimId.Some? && (c'.claimId != c.claimId || c'.claimExpiresAt != c.claimExpiresAt)
    ensures events[k].Advance? && events[k].id in worlds[k].workers
    ensures FairClaim(worlds[k].remote, worlds[k].workers[events[k].id], worlds[k + 1].remote.control)
  {
    hide Take, Prepare, Runnable, FairClaim, RemoteInv, WorkerInv;
    EveryWorldKeeps(env, identity, events, worlds, k);
    assert StepOk(env, events, worlds, k);
    var r, w := worlds[k].remote, worlds[k].workers[events[k].id];
    assert WorkerInv(env, r, w);
    if !w.phase.Claiming? {
      OtherPhasesClaimNothing(env, r, w);
    } else {
      ClaimTakesEffect(env, r, w);
      TakenClaimIsFair(env, r, w);
    }
  }

  lemma ClaimTakesEffect(env: Env, r: Remote, w: Worker)
    requires w.phase.Claiming? && Take(env, r, w).remote.control != r.control
    ensures ClaimInvocation(r, w.snap.head, w.phase.claimed).Some? && Take(env, r, w).remote.control == w.phase.claimed
  {
  }

  /** A crash between the lease and the failure record under-counts attempts; they still stay
      behind the epochs, and within the retry budget. */
  lemma AttemptsStayBehindEpochs(env: Env, identity: Identity, events: seq<Event>, worlds: seq<World>, k: nat, tid: string)
    requires IsRun(env, identity, events, worlds) && k < |worlds| && tid in worlds[k].remote.r1.tasks
    ensures var t := worlds[k].remote.r1.tasks[tid];
      && (t.attemptCount == 0 || t.attemptCount <= t.leaseEpoch - 1)
      && t.attemptCount <= RETRY_BUDGET + 1
      && (Dead(t) <==> t.attemptCount == RETRY_BUDGET + 1)
  {
    EveryWorldKeeps(env, identity, events, worlds, k);
    assert TaskInv(env.engine, worlds[k].remote.r1, tid);
  }

  /** Exactly once: a durable receipt, once written, is the receipt of its key for the rest of the run. */
  lemma {:induction false} DurableReceiptsStay(
    env: Env, identity: Identity, events: seq<Event>, worlds: seq<World>, i: nat, j: nat, idem: string)
    requires IsRun(env, identity, events, worlds) && i <= j < |worlds| && idem in worlds[i].remote.r1.receipts
    ensures idem in worlds[j].remote.r1.receipts
         && worlds[j].remote.r1.receipts[idem] == worlds[i].remote.r1.receipts[idem]
    decreases j
  {
    hide Step, WorldInv, InitialWorld;
    if i < j {
      DurableReceiptsStay(env, identity, events, worlds, i, j - 1, idem);
      EveryWorldKeeps(env, identity, events, worlds, j - 1);
      assert StepOk(env, events, worlds, j - 1);
      StepKeeps(env, worlds[j - 1], events[j - 1]);
    }
  }

  lemma WorkerIsSealed(env: Env, world: World, id: nat)
    requires WorldInv(env, world) && id in world.workers
    ensures SealCovers(env, world.workers[id].envelope, world.workers[id].sealed) && OwnTask(env, world.workers[id])
  {
    hide RemoteInv, SealCovers, OwnTask, CountedExactly, FailureDue, ClaimPrepared, InStep;
    assert WorkerInv(env, world.remote, world.workers[id]);
  }

  lemma PhaseCallIsInvocation(env: Env, w: Worker)
    requires OwnTask(env, w) && !w.phase.Claiming? && !w.phase.Releasing?
    ensures InvocationCall(w.envelope, w.sealed, TaskIdFor(env, w.envelope), PhaseCall(w))
  {
    hide TaskIdFor;
  }

  /** In no reachable world can an invocation be denied authorization by an engine call: the sealed
      bundle covers them all, whatever the adapter has done to the original since. */
  lemma NoEngineCallIsDenied(env: Env, identity: Identity, events: seq<Event>, worlds: seq<World>, k: nat, id: nat)
    requires IsRun(env, identity, events, worlds) && k < |worlds| && id in worlds[k].workers
    requires !worlds[k].workers[id].phase.Claiming? && !worlds[k].workers[id].phase.Releasing?
    ensures var w := worlds[k].workers[id];
      !DeniesAuthorization(env, w.sealed.canonicalMain, w.store, PhaseCall(w))
  {
    hide DeniesAuthorization, Step, WorldInv, SealCovers, InvocationCall, PhaseCall, OwnTask;
    EveryWorldKeeps(env, identity, events, worlds, k);
    var w := worlds[k].workers[id];
    WorkerIsSealed(env, worlds[k], id);
    PhaseCallIsInvocation(env, w);
    CoveredCallPasses(env, w.envelope, w.sealed, w.sealed.canonicalMain, w.store, PhaseCall(w));
  }

  // ---- From receipt ids to receipts ----

  // Event `j` of the run commits payload `p`, and creates the receipt of key `idem`.
  ghost predicate CommittedAt(env: Env, events: seq<Event>, worlds: seq<World>, j: nat, idem: string, p: ReviewPayload)
    requires j < |events| == |worlds| - 1
  {
    && events[j].Advance? && events[j].id in worlds[j].workers
    && CommitsPayload(env, worlds[j].workers[events[j].id], idem, p)
    && CreatesReceipt(env, worlds[j].remote.r1, worlds[j + 1].remote.r1, idem, p)
  }

  ghost predicate CommitsPayload(env: Env, w: Worker, idem: string, p: ReviewPayload) {
    && w.phase.Committing? && w.phase.task in w.store.tasks
    && idem == w.store.tasks[w.phase.task].idempotencyKey == Idem(p.candidateId, p.inputHash)
    && p == PayloadOf(w.store.tasks[w.phase.task], PhaseCall(w))
  }

  ghost predicate CreatesReceipt(env: Env, s: State, s': State, idem: string, p: ReviewPayload) {
    && idem !in s.receipts && idem in s'.receipts
    && s'.receipts[idem].payloadHash == env.engine.payloadHash(p)
  }

  // A commit call that creates a receipt, as one engine transaction.
  lemma NewReceiptOfCall(d: Digests, m: string, s: State, call: Call, idem: string)
    requires EngineInv(d, s) && idem !in s.receipts && idem in Apply(d, m, s, call).0.receipts
    ensures call.Commit? && call.committed.Some? && call.task in s.tasks
    ensures var t := s.tasks[call.task];
      && idem == t.idempotencyKey == Idem(t.candidateId, t.inputHash)
      && Apply(d, m, s, call).0.receipts[idem].payloadHash == d.payloadHash(PayloadOf(t, call))
  {
    hide Apply, Guard, ValidState, Idem, ReceiptIdOf;
    ApplyEffect(d, m, s, call);
    assert call.Commit? && call.task in s.tasks;
    CommitGuardGives(m, call);
    assert TaskInv(d, s, call.task);
  }

  lemma CreatedByItsCommit(env: Env, r: Remote, w: Worker, idem: string) returns (p: ReviewPayload)
    requires RemoteInv(env, r) && WorkerInv(env, r, w)
    requires idem !in r.r1.receipts && idem in Take(env, r, w).remote.r1.receipts
    ensures CommitsPayload(env, w, idem, p) && CreatesReceipt(env, r.r1, Take(env, r, w).remote.r1, idem, p)
  {
    hide EngineInv, Apply, CountInv, SealCovers, AttemptsBehindEpochs, ValidControl, Reconcile, PersistState, NextPhase, Idem, PhaseCall;
    OnlyEngineStepsWrite(env, r, w);
    EngineOutcomes(env, r, w);
    var call := PhaseCall(w);
    NewReceiptOfCall(env.engine, w.sealed.canonicalMain, w.store, call, idem);
    CommitCallIsCommitting(w);
    p := PayloadOf(w.store.tasks[call.task], call);
  }

  lemma CommitCallIsCommitting(w: Worker)
    requires !w.phase.Claiming? && !w.phase.Releasing? && PhaseCall(w).Commit?
    ensures w.phase.Committing? && PhaseCall(w).task == w.phase.task
  {
  }

  lemma OnlyEngineStepsWrite(env: Env, r: Remote, w: Worker)
    ensures w.phase.Claiming? || w.phase.Releasing? ==> Take(env, r, w).remote.r1 == r.r1
  {
    hide Reconcile, ValidControl, ReleaseControl, EngineStep;
  }

  lemma {:induction false} ReceiptHasItsCommit(
    env: Env, identity: Identity, events: seq<Event>, worlds: seq<World>, k: nat, idem: string) returns (j: nat, p: ReviewPayload)
    requires IsRun(env, identity, events, worlds) && k < |worlds| && idem in worlds[k].remote.r1.receipts
    ensures j < k && CommittedAt(env, events, worlds, j, idem, p)
    ensures worlds[k].remote.r1.receipts[idem].payloadHash == env.engine.payloadHash(p)
    decreases k
  {
    hide Take, Prepare, Runnable, RemoteInv, WorkerInv, CommitsPayload, PhaseCall;
    assert k > 0;
    EveryWorldKeeps(env, identity, events, worlds, k - 1);
    assert StepOk(env, events, worlds, k - 1);
    if idem in worlds[k - 1].remote.r1.receipts {
      j, p := ReceiptHasItsCommit(env, identity, events, worlds, k - 1, idem);
      StepKeeps(env, worlds[k - 1], events[k - 1]);
    } else {
      j := k - 1;
      var w := worlds[j].workers[events[j].id];
      assert WorkerInv(env, worlds[j].remote, w);
      p := CreatedByItsCommit(env, worlds[j].remote, w, idem);
    }
  }

  // Two commits of different payloads before `k` whose digests agree on the part a receipt id keeps.
  ghost predicate SharedReceiptId(env: Env, events: seq<Event>, worlds: seq<World>, k: nat)
    requires k <= |events| == |worlds| - 1
  {
    exists a: nat, b: nat, i, j, p, q :: a < k && b < k && SameIdCommits(env, events, worlds, a, b, i, j, p, q)
  }

  ghost predicate SameIdCommits(env: Env, events: seq<Event>, worlds: seq<World>, a: nat, b: nat, i: string, j: string,
                                p: ReviewPayload, q: ReviewPayload)
    requires a < |events| == |worlds| - 1 && b < |events|
  {
    && CommittedAt(env, events, worlds, a, i, p) && CommittedAt(env, events, worlds, b, j, q) && p != q
    && ReceiptIdOf(env.engine.payloadHash(p)) == ReceiptIdOf(env.engine.payloadHash(q))
  }

  function IdOfReceipt(s: State, idem: string): string {
    if idem in s.receipts then s.receipts[idem].receiptId else ""
  }

  lemma TwoReceiptsOneId(s: State)
    requires |s.receipts| > |ReceiptIds(s)|
    ensures exists i, j :: i in s.receipts && j in s.receipts && i != j && s.receipts[i].receiptId == s.receipts[j].receiptId
  {
    var f := (idem: string) => IdOfReceipt(s, idem);
    ImageSize(s.receipts.Keys, f);
    assert Image(s.receipts.Keys, f) == ReceiptIds(s);
    assert |s.receipts| == |s.receipts.Keys|;
    if i, j :| i in s.receipts.Keys && j in s.receipts.Keys && f(i) == f(j) && i != j {
      assert s.receipts[i].receiptId == s.receipts[j].receiptId;
    }
  }

  /** In every run the receipts themselves stay within the ceiling, unless two commits of that very run, with
      different payloads, were given the same receipt id by the truncated digest. */
  lemma AtMostCeilingReceipts(env: Env, identity: Identity, events: seq<Event>, worlds: seq<World>, k: nat)
    requires IsRun(env, identity, events, worlds) && k < |worlds|
    ensures |worlds[k].remote.r1.receipts| <= MAX_TERMINAL || SharedReceiptId(env, events, worlds, k)
  {
    hide Step, WorldInv, CommitsPayload, CreatesReceipt, Idem, ReceiptIdOf;
    CeilingAndCounts(env, identity, events, worlds, k);
    var s := worlds[k].remote.r1;
    if |s.receipts| > MAX_TERMINAL {
      TwoReceiptsOneId(s);
      var i, j :| i in s.receipts && j in s.receipts && i != j && s.receipts[i].receiptId == s.receipts[j].receiptId;
      assert ValidReceipt(s, i) && ValidReceipt(s, j);
      var a, p := ReceiptHasItsCommit(env, identity, events, worlds, k, i);
      var b, q := ReceiptHasItsCommit(env, identity, events, worlds, k, j);
      PayloadNamesKey(env, events, worlds, a, i, p);
      PayloadNamesKey(env, events, worlds, b, j, q);
      assert SameIdCommits(env, events, worlds, a, b, i, j, p, q);
    }
  }

  lemma PayloadNamesKey(env: Env, events: seq<Event>, worlds: seq<World>, j: nat, idem: string, p: ReviewPayload)
    requires j < |events| == |worlds| - 1 && CommittedAt(env, events, worlds, j, idem, p)
    ensures idem == Idem(p.candidateId, p.inputHash)
  {
    hide Idem, PhaseCall;
  }
}
