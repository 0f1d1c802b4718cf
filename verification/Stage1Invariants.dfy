// What one adapter step keeps, for the remote and for the workers still in step with it.
module Stage1Invariants {
  import opened Prelude
  import opened Ordering
  import opened R1State
  import opened R1Engine
  import opened R1Invariants
  import opened R1Steps
  import opened Stage1Control
  import opened Stage1Seal
  import opened Stage1Runtime

  ghost predicate CountedExactly(c: Control, s: State) {
    Elements(c.counted) == ReceiptIds(s)
  }

  // An attempt is recorded only after a later acquisition.
  ghost predicate AttemptsBehindEpochs(s: State) {
    forall tid | tid in s.tasks :: s.tasks[tid].attemptCount == 0 || s.tasks[tid].attemptCount < s.tasks[tid].leaseEpoch
  }

  ghost predicate CountInv(r: Remote) {
    var counted, ids := Elements(r.control.counted), ReceiptIds(r.r1);
    && counted <= ids
    && |ids - counted| <= 1
    && (counted != ids ==> r.control.claimId.Some?)
    && (r.control.paused <==> r.control.terminalCount >= MAX_TERMINAL)
    && (r.control.claimId.Some? ==> r.control.terminalCount < MAX_TERMINAL)
    && |ids| <= MAX_TERMINAL
    && r.highWater <= r.control.terminalCount
  }

  ghost predicate RemoteInv(env: Env, r: Remote) {
    && EngineInv(env.engine, r.r1)
    && ValidControl(r.control)
    && CountInv(r)
    && AttemptsBehindEpochs(r.r1)
  }

  // A worker in step with the remote: no adapter call by anyone since its last one.
  ghost predicate InStep(r: Remote, w: Worker) {
    w.snap.head == r.head
  }

  ghost predicate OwnTask(env: Env, w: Worker) {
    match w.phase
    case Leasing(task) => task == TaskIdFor(env, w.envelope)
    case Failing(task, _, _) => task == TaskIdFor(env, w.envelope)
    case Checkpointing(task, _) => task == TaskIdFor(env, w.envelope)
    case Committing(task, _) => task == TaskIdFor(env, w.envelope)
    case _ => true
  }

  // The recording of a failure still leaves the attempts behind the epochs.
  ghost predicate FailureDue(s: State, w: Worker) {
    w.phase.Failing? ==>
      w.phase.task in s.tasks && s.tasks[w.phase.task].attemptCount + 1 < s.tasks[w.phase.task].leaseEpoch
  }

  ghost predicate WorkerInv(env: Env, r: Remote, w: Worker) {
    && w.snap.head <= r.head
    && SealCovers(env, w.envelope, w.sealed)
    && OwnTask(env, w)
    && (!w.phase.Claiming? ==> w.store == w.snap.r1)
    && (w.phase.Claiming? ==> ClaimPrepared(w))
    && (InStep(r, w) ==>
         && w.snap.control == r.control && w.snap.r1 == r.r1
         && FailureDue(r.r1, w)
         && (!w.phase.Claiming? ==> r.control.claimId == Some(w.claimId))
         && (!w.phase.Claiming? && !w.phase.Releasing? ==> CountedExactly(r.control, r.r1)))
  }

  // The claim was built from the snapshot by reconciling and passing the ceiling.
  ghost predicate ClaimPrepared(w: Worker)
    requires w.phase.Claiming?
  {
    && Reconcile(w.snap.control, w.snap.r1).Ok?
    && var c := Reconcile(w.snap.control, w.snap.r1).value;
    && !c.paused && c.terminalCount < MAX_TERMINAL && w.snap.highWater <= c.terminalCount
    && w.snap.canonicalMain == c.identity.canonicalMain && w.sealed.trustedNow < c.identity.activatedAt + WINDOW_SECONDS
    && ClaimControl(c, w.claimId, w.sealed.trustedNow) == Ok(w.phase.claimed)
    && w.store == w.snap.r1
  }

  ghost predicate WorldInv(env: Env, world: World) {
    && RemoteInv(env, world.remote)
    && forall id {:trigger world.workers[id]} | id in world.workers :: WorkerInv(env, world.remote, world.workers[id])
  }

  // ---- Sets of receipt ids ----

  lemma {:induction false} ElementsSize(q: seq<string>)
    requires Distinct(q)
    ensures |Elements(q)| == |q|
  {
    if q != [] {
      ElementsSize(q[1..]);
      assert Distinct(q[1..]);
      assert q[0] !in q[1..];
      assert Elements(q) == {q[0]} + Elements(q[1..]);
    } else {
      assert Elements(q) == {};
    }
  }

  // How one engine call changes the receipt ids: not at all, or one new id by a commit.
  lemma ReceiptIdsStep(d: Digests, m: string, s: State, call: Call)
    ensures var s' := Apply(d, m, s, call).0;
      && ReceiptIds(s) <= ReceiptIds(s')
      && |ReceiptIds(s') - ReceiptIds(s)| <= 1
      && (!call.Commit? ==> ReceiptIds(s') == ReceiptIds(s))
      && (forall idem | idem in s.receipts :: idem in s'.receipts && s'.receipts[idem] == s.receipts[idem])
  {
    hide Apply, Guard, ValidState, Idem;
    var s' := Apply(d, m, s, call).0;
    ApplyEffect(d, m, s, call);
    if s'.receipts != s.receipts {
      var idem := s.tasks[call.task].idempotencyKey;
      var id := s'.receipts[idem].receiptId;
      assert s'.receipts == s.receipts[idem := s'.receipts[idem]] && idem !in s.receipts;
      OneMoreReceipt(s, s', idem);
      assert ReceiptIds(s') - ReceiptIds(s) <= {id};
      SubsetSize(ReceiptIds(s') - ReceiptIds(s), {id});
    }
  }

  lemma OneMoreReceipt(s: State, s': State, idem: string)
    requires idem !in s.receipts && idem in s'.receipts && s'.receipts == s.receipts[idem := s'.receipts[idem]]
    ensures ReceiptIds(s') == ReceiptIds(s) + {s'.receipts[idem].receiptId}
  {
    forall k | k in s.receipts ensures s.receipts[k].receiptId in ReceiptIds(s') {
      assert s'.receipts[k] == s.receipts[k];
    }
    assert s'.receipts[idem].receiptId in ReceiptIds(s');
  }

  // ---- The claim and the release ----

  // Counting every durable id on top of a subset of them counts exactly them.
  lemma ExtensionCounts(c: Control, out: Control, ids: set<string>)
    requires ValidControl(c) && Extends(c, out, ids) && Elements(c.counted) <= ids && |ids| <= MAX_TERMINAL
    ensures Elements(out.counted) == ids && c.terminalCount <= out.terminalCount == |ids|
  {
    assert Elements(out.counted) == ids;
    ElementsSize(c.counted);
    ElementsSize(out.counted);
    SubsetSize(Elements(c.counted), ids);
  }

  // What reconciling a control with the durable receipts does to the counts.
  lemma ReconciledCounts(r: Remote, c: Control)
    requires ValidControl(r.control) && CountInv(r) && Reconcile(r.control, r.r1) == Ok(c)
    ensures Extends(r.control, c, ReceiptIds(r.r1))
    ensures CountedExactly(c, r.r1)
    ensures r.control.terminalCount <= c.terminalCount <= MAX_TERMINAL
    ensures c.paused <==> c.terminalCount >= MAX_TERMINAL
  {
    ReconcileIs(r.control, r.r1);
    ExtensionCounts(r.control, c, ReceiptIds(r.r1));
  }

  lemma ExactCountsKeep(r: Remote)
    requires CountedExactly(r.control, r.r1) && r.control.terminalCount == |ReceiptIds(r.r1)| <= MAX_TERMINAL
    requires r.control.paused <==> r.control.terminalCount >= MAX_TERMINAL
    requires r.control.claimId.Some? ==> r.control.terminalCount < MAX_TERMINAL
    requires r.highWater <= r.control.terminalCount
    ensures CountInv(r)
  {
    assert ReceiptIds(r.r1) - Elements(r.control.counted) == {};
  }

  lemma ClaimKeeps(env: Env, r: Remote, w: Worker)
    requires RemoteInv(env, r) && w.phase.Claiming? && ClaimPrepared(w)
    requires w.snap.control == r.control && w.snap.r1 == r.r1
    ensures var r' := r.(control := w.phase.claimed, head := r.head + 1);
      RemoteInv(env, r') && CountedExactly(r'.control, r'.r1) && r'.control.claimId == Some(w.claimId)
  {
    var c := Reconcile(r.control, r.r1).value;
    ReconciledCounts(r, c);
    ElementsSize(c.counted);
    ExactCountsKeep(r.(control := w.phase.claimed, head := r.head + 1));
  }

  lemma ReleaseKeeps(env: Env, r: Remote, w: Worker, finished: Control, released: Control)
    requires RemoteInv(env, r) && WorkerInv(env, r, w) && w.phase.Releasing?
    requires Reconcile(w.snap.control, w.snap.r1) == Ok(finished) && ReleaseControl(finished, w.claimId) == Ok(released)
    requires ReleaseInvocation(r, w.snap.head, w.claimId, released).Some?
    ensures var r' := ReleaseInvocation(r, w.snap.head, w.claimId, released).value;
      RemoteInv(env, r') && CountedExactly(r'.control, r'.r1) && r'.control.claimId.None?
  {
    ReconciledCounts(r, finished);
    ElementsSize(finished.counted);
    ExactCountsKeep(ReleaseInvocation(r, w.snap.head, w.claimId, released).value);
  }

  // ---- The engine calls ----

  lemma OnlyCommittingCommits(w: Worker)
    requires !w.phase.Claiming? && !w.phase.Releasing? && !w.phase.Committing?
    ensures !PhaseCall(w).Commit?
  {
  }

  lemma CountKept(env: Env, r: Remote, w: Worker, s': State)
    requires RemoteInv(env, r) && WorkerInv(env, r, w) && InStep(r, w) && !w.phase.Claiming? && !w.phase.Releasing?
    requires s' == Apply(env.engine, w.sealed.canonicalMain, w.store, PhaseCall(w)).0
    ensures CountInv(r.(r1 := s', head := r.head + 1))
    ensures !w.phase.Committing? ==> CountedExactly(r.control, s')
  {
    hide Apply, EngineInv, AttemptsBehindEpochs, SealCovers, PhaseCall, ReceiptIds, FailureDue;
    if !w.phase.Committing? { OnlyCommittingCommits(w); }
    ReceiptIdsStep(env.engine, w.sealed.canonicalMain, w.store, PhaseCall(w));
    var ids, ids' := ReceiptIds(r.r1), ReceiptIds(s');
    ElementsSize(r.control.counted);
    SubsetSize(ids, ids');
    assert ids' - Elements(r.control.counted) == ids' - ids;
  }

  // Attempts of every task stay behind its epochs when a recorded failure was due.
  lemma AttemptsKept(d: Digests, m: string, s: State, call: Call)
    requires ValidState(s) && AttemptsBehindEpochs(s)
    requires call.RecordFailure? && call.task in s.tasks ==> s.tasks[call.task].attemptCount + 1 < s.tasks[call.task].leaseEpoch
    ensures AttemptsBehindEpochs(Apply(d, m, s, call).0)
  {
    hide Apply, Idem;
    var s' := Apply(d, m, s, call).0;
    ApplyEffect(d, m, s, call);
    if s' != s && call.Inspect? {
      forall tid | tid in s'.tasks
        ensures s'.tasks[tid].attemptCount == 0 || s'.tasks[tid].attemptCount < s'.tasks[tid].leaseEpoch
      {
        if tid in s.tasks {
          StageOverwritesNoTask(d, s, call.candidate, call.docsHash, call.auth.decisionId, tid);
        }
      }
    }
  }

  lemma FailureBecomesDue(d: Digests, m: string, s: State, call: Call)
    requires call.AcquireLease? && AttemptsBehindEpochs(s) && Apply(d, m, s, call).1.Ok?
    ensures var s' := Apply(d, m, s, call).0;
      && call.task in s.tasks && call.task in s'.tasks
      && (s.tasks[call.task].leaseEpoch > 0 ==> s'.tasks[call.task].attemptCount + 1 < s'.tasks[call.task].leaseEpoch)
  {
    ApplyEffect(d, m, s, call);
    AcquiredStateDiffers(d, m, s, call);
  }

  lemma InspectedTaskIsOwn(d: Digests, m: string, s: State, call: Call)
    requires EngineInv(d, s) && call.Inspect? && Apply(d, m, s, call).1.Ok?
    ensures var reply := Apply(d, m, s, call).1.value;
      reply.TaskRef? && (reply.taskId.Some? ==> reply.taskId.value == d.taskIdOf(Idem(call.candidate, call.docsHash)))
  {
    ApplyEffect(d, m, s, call);
    var idem := Idem(call.candidate, call.docsHash);
    if idem in s.index {
      assert ValidIndexEntry(s, idem) && TaskInv(d, s, s.index[idem]);
    }
  }

  // The remote after a persisted engine call.
  lemma PersistKeeps(env: Env, r: Remote, w: Worker, s': State)
    requires RemoteInv(env, r) && WorkerInv(env, r, w) && InStep(r, w) && !w.phase.Claiming? && !w.phase.Releasing?
    requires s' == Apply(env.engine, w.sealed.canonicalMain, w.store, PhaseCall(w)).0
    ensures RemoteInv(env, r.(r1 := s', head := r.head + 1))
  {
    hide Apply, SealCovers, CountInv, AttemptsBehindEpochs, ValidControl, CountedExactly;
    ApplyKeeps(env.engine, w.sealed.canonicalMain, w.store, PhaseCall(w));
    CountKept(env, r, w, s');
    AttemptsKept(env.engine, w.sealed.canonicalMain, w.store, PhaseCall(w));
  }

  // The worker after it.
  lemma WorkerKeeps(env: Env, r: Remote, w: Worker, s': State, reply: Reply, phase: Phase)
    requires RemoteInv(env, r) && WorkerInv(env, r, w) && InStep(r, w) && !w.phase.Claiming? && !w.phase.Releasing?
    requires Apply(env.engine, w.sealed.canonicalMain, w.store, PhaseCall(w)) == (s', Ok(reply))
    requires r.control.claimId == Some(w.claimId) && NextPhase(w, s', reply) == Some(phase)
    ensures var r' := r.(r1 := s', head := r.head + 1);
      WorkerInv(env, r', w.(phase := phase, snap := r', store := s'))
  {
    hide Apply, EngineInv, SealCovers, CountInv, ValidControl, CountedExactly;
    CountKept(env, r, w, s');
    if w.phase.Inspecting? {
      InspectedTaskIsOwn(env.engine, w.sealed.canonicalMain, w.store, PhaseCall(w));
    } else if w.phase.Leasing? {
      FailureBecomesDue(env.engine, w.sealed.canonicalMain, w.store, PhaseCall(w));
    }
  }
}
