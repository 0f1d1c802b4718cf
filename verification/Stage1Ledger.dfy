// Stage 1 with the concrete ledger's rule for transitions: a call whose payload the
// ledger would not verify is refused, and its invocation stops. Any other refusal of
// the ledger is a crash of the caller.
module Stage1Ledger {
  import opened Prelude
  import opened R1State
  import opened R1Engine
  import opened R1Invariants
  import opened Stage1Control
  import opened Stage1Seal
  import opened Stage1Runtime
  import opened Stage1Invariants
  import Runs = Stage1Runs
  import Ledger
  import LedgerAppend

  // What the ledger compares of a payload.
  function PayloadOf(r: Remote): Ledger.Payload {
    Ledger.Payload(0, r.control, r.r1, None)
  }

  function OperationIn(p: Phase): Ledger.Operation {
    match p
    case Claiming(_) => Ledger.ClaimInvocation
    case Releasing(_) => Ledger.ReleaseInvocation
    case _ => Ledger.PersistR1State
  }

  ghost predicate Accepts(r: Remote, w: Worker, r': Remote) {
    Ledger.Semantics(PayloadOf(r), PayloadOf(r'), OperationIn(w.phase), w.claimId)
  }

  // The call would write, and the ledger does not let it.
  ghost predicate Refused(env: Env, r: Remote, w: Worker) {
    Runnable(w) && var r' := Take(env, r, w).remote; r' != r && !Accepts(r, w, r')
  }

  // The event of the abstract runtime that has the same effect.
  ghost function Effective(env: Env, world: World, event: Event): Event {
    if event.Advance? && event.id in world.workers && Refused(env, world.remote, world.workers[event.id])
    then Crash(event.id) else event
  }

  ghost function LedgerStep(env: Env, world: World, event: Event): World {
    Step(env, world, Effective(env, world, event))
  }

  ghost predicate StepOk(env: Env, events: seq<Event>, worlds: seq<World>, k: nat)
    requires k < |events| == |worlds| - 1
  {
    worlds[k + 1] == LedgerStep(env, worlds[k], events[k])
  }

  ghost predicate IsRun(env: Env, identity: Identity, events: seq<Event>, worlds: seq<World>) {
    && |events| == |worlds| - 1
    && ValidIdentity(identity) && worlds[0] == InitialWorld(identity, identity.canonicalMain)
    && forall k {:trigger StepOk(env, events, worlds, k)} | 0 <= k < |events| :: StepOk(env, events, worlds, k)
  }

  /** Every run under the ledger's rule goes through the worlds of a run over the abstract adapter, so what holds of all
      of those holds of it. */
  lemma RunIsAbstractRun(env: Env, identity: Identity, events: seq<Event>, worlds: seq<World>) returns (effective: seq<Event>)
    requires IsRun(env, identity, events, worlds)
    ensures Runs.IsRun(env, identity, effective, worlds)
  {
    hide Step, Effective;
    effective := EffectiveEvents(env, events, worlds, |events|);
    forall k | 0 <= k < |effective| ensures Runs.StepOk(env, effective, worlds, k) {
      assert StepOk(env, events, worlds, k);
    }
  }

  ghost function EffectiveEvents(env: Env, events: seq<Event>, worlds: seq<World>, n: nat): (out: seq<Event>)
    requires n <= |events| == |worlds| - 1
    ensures |out| == n && forall k | 0 <= k < n :: out[k] == Effective(env, worlds[k], events[k])
  {
    if n == 0 then [] else EffectiveEvents(env, events, worlds, n - 1) + [Effective(env, worlds[n - 1], events[n - 1])]
  }

  lemma WorldHolds(env: Env, identity: Identity, events: seq<Event>, worlds: seq<World>, k: nat)
    requires IsRun(env, identity, events, worlds) && k < |worlds|
    ensures WorldInv(env, worlds[k])
  {
    hide WorldInv;
    var effective := RunIsAbstractRun(env, identity, events, worlds);
    Runs.EveryWorldKeeps(env, identity, effective, worlds, k);
  }

  // ---- What the ledger refuses ----

  // A claim that the adapter would have made on the control this remote has.
  ghost predicate ClaimOnUnreconciled(r: Remote, w: Worker) {
    w.phase.Claiming? && InStep(r, w) && !Reconciled(r.control, r.r1)
  }

  lemma ClaimRefusedIff(env: Env, r: Remote, w: Worker)
    requires RemoteInv(env, r) && WorkerInv(env, r, w) && w.phase.Claiming?
    ensures Refused(env, r, w) <==> ClaimOnUnreconciled(r, w)
  {
    hide EngineInv, SealCovers, AttemptsBehindEpochs, Reconcile, Ledger.Semantics, Reconciled, CountInv;
    if InStep(r, w) {
      var r' := r.(control := w.phase.claimed, head := r.head + 1);
      assert ValidControl(w.phase.claimed) by { ClaimIsValid(w); }
      assert Take(env, r, w).remote == r';
      LedgerAppend.RuntimeClaimAcceptedIff(PayloadOf(r), PayloadOf(r'), w.claimId, w.sealed.trustedNow);
    }
  }

  lemma ClaimIsValid(w: Worker)
    requires w.phase.Claiming? && ClaimPrepared(w)
    ensures ValidControl(w.phase.claimed)
  {
    hide Reconcile;
  }

  lemma EngineCallsPass(env: Env, r: Remote, w: Worker)
    requires RemoteInv(env, r) && WorkerInv(env, r, w) && !w.phase.Claiming? && !w.phase.Releasing?
    ensures !Refused(env, r, w)
  {
    hide EngineInv, SealCovers, AttemptsBehindEpochs, CountInv, ValidControl, EngineStep;
    var done := Apply(env.engine, w.sealed.canonicalMain, w.store, PhaseCall(w));
    Runs.EngineOutcomes(env, r, w);
  }

  lemma ReleasesPass(env: Env, r: Remote, w: Worker)
    requires RemoteInv(env, r) && WorkerInv(env, r, w) && w.phase.Releasing?
    ensures !Refused(env, r, w)
  {
    hide EngineInv, SealCovers, AttemptsBehindEpochs, CountInv, Reconcile, ValidIdentity, ReceiptIds;
    var finished := Reconcile(w.snap.control, w.snap.r1);
    if InStep(r, w) && finished.Ok? {
      Runs.ReconcileGuards(r.control, r.r1);
      ReconcileIs(r.control, r.r1);
    }
  }

  /** Exactly what the ledger's rule refuses of the calls that the runtime makes, in every reachable world: a claim on a
      control that does not count all durable receipts. Persists and releases always pass. */
  lemma RefusedIff(env: Env, identity: Identity, events: seq<Event>, worlds: seq<World>, k: nat, id: nat)
    requires IsRun(env, identity, events, worlds) && k < |worlds| && id in worlds[k].workers
    ensures var r, w := worlds[k].remote, worlds[k].workers[id];
      Refused(env, r, w) <==> ClaimOnUnreconciled(r, w)
  {
    hide RemoteInv, WorkerInv, Refused, Step;
    WorldHolds(env, identity, events, worlds, k);
    WorldRefusedIff(env, worlds[k], id);
  }

  lemma WorldRefusedIff(env: Env, world: World, id: nat)
    requires WorldInv(env, world) && id in world.workers
    ensures Refused(env, world.remote, world.workers[id]) <==> ClaimOnUnreconciled(world.remote, world.workers[id])
  {
    hide RemoteInv, WorkerInv, Refused;
    var r, w := world.remote, world.workers[id];
    if w.phase.Claiming? {
      ClaimRefusedIff(env, r, w);
    } else if w.phase.Releasing? {
      ReleasesPass(env, r, w);
    } else {
      EngineCallsPass(env, r, w);
    }
  }

  // ---- A control left unreconciled ----

  // A receipt is uncounted, and no invocation that holds the claim is at the head.
  ghost predicate Stuck(world: World) {
    && !Reconciled(world.remote.control, world.remote.r1)
    && forall id {:trigger world.workers[id]} | id in world.workers ::
         world.workers[id].phase.Claiming? || !InStep(world.remote, world.workers[id])
  }

  ghost predicate SameLedger(r: Remote, r': Remote) {
    r' == r.(canonicalMain := r'.canonicalMain)
  }

  lemma StaleCallsWriteNothing(env: Env, r: Remote, w: Worker)
    requires !InStep(r, w)
    ensures Take(env, r, w) == Stopped(r)
  {
    hide Apply, Reconcile, PhaseCall, NextPhase;
  }

  lemma StuckStays(env: Env, world: World, event: Event)
    requires WorldInv(env, world) && Stuck(world)
    ensures Stuck(LedgerStep(env, world, event)) && SameLedger(world.remote, LedgerStep(env, world, event).remote)
  {
    hide RemoteInv, WorkerInv, Reconciled, Take, Prepare, Refused;
    match event
    case Begin(id, _, _, _, _) =>
      if Prepare(env, world.remote, event).Some? {
        PreparedClaims(env, world.remote, event);
      }
    case Advance(id) =>
      if id in world.workers {
        var w := world.workers[id];
        if InStep(world.remote, w) {
          WorldRefusedIff(env, world, id);
        } else {
          StaleCallsWriteNothing(env, world.remote, w);
        }
      }
    case Crash(id) =>
    case MainMoves(m) =>
  }

  lemma PreparedClaims(env: Env, r: Remote, e: Event)
    requires e.Begin? && Prepare(env, r, e).Some?
    ensures Prepare(env, r, e).value.phase.Claiming?
  {
    hide Seal, Reconcile, ValidState, ValidEnvelope;
  }

  /** Once a receipt is uncounted and its claim holder is gone, no call of any invocation is ever accepted again: the
      control, the state and the head stay as they are for the rest of the run, whoever comes and whenever. */
  lemma {:induction false} StuckForever(env: Env, identity: Identity, events: seq<Event>, worlds: seq<World>, i: nat, k: nat)
    requires IsRun(env, identity, events, worlds) && i <= k < |worlds| && Stuck(worlds[i])
    ensures Stuck(worlds[k]) && SameLedger(worlds[i].remote, worlds[k].remote)
    decreases k
  {
    hide LedgerStep, WorldInv, Stuck;
    if i < k {
      StuckForever(env, identity, events, worlds, i, k - 1);
      WorldHolds(env, identity, events, worlds, k - 1);
      assert StepOk(env, events, worlds, k - 1);
      StuckStays(env, worlds[k - 1], events[k - 1]);
    }
  }
}
