// A concrete Stage-1 run under the ledger's rule that crashes after its commit: the
// receipt stays uncounted, and the next invocation's claim is refused.
module Stage1LedgerExamples {
  import opened Prelude
  import opened R1State
  import opened R1Engine
  import opened R1Invariants
  import opened R1Examples
  import opened Stage1Control
  import opened Stage1Seal
  import opened Stage1Runtime
  import opened Stage1Invariants
  import Runs = Stage1Runs
  import opened Stage1Adapter
  import opened Stage1Progress
  import opened Stage1Examples
  import opened Stage1Ledger
  import Ledger
  import opened Traces

  ghost function LedgerStepper(env: Env): (World, Event) -> World {
    (w, e) => LedgerStep(env, w, e)
  }

  // One worker, alone.
  function Alone(r: Remote, w: Worker): World {
    World(r, map[0 := w])
  }

  lemma OneCall(env: Env, r: Remote, w: Worker)
    requires WorldInv(env, Alone(r, w)) && (w.phase.Claiming? ==> Reconciled(r.control, r.r1))
    requires TakeIfRunnable(env, r, w).Continues?
    ensures var out := TakeIfRunnable(env, r, w);
      && LedgerStep(env, Alone(r, w), Advance(0)) == Alone(out.remote, out.worker)
      && WorldInv(env, Alone(out.remote, out.worker)) && !out.worker.phase.Claiming?
  {
    hide RemoteInv, WorkerInv, Refused, Reconciled, Take, Runnable;
    var world, out := Alone(r, w), TakeIfRunnable(env, r, w);
    assert world.workers[0] == w;
    WorldRefusedIff(env, world, 0);
    Runs.StepKeeps(env, world, Advance(0));
    TakeDescends(env, r, w);
    assert Step(env, world, Advance(0)) == Install(world, 0, out);
    assert map[0 := w][0 := out.worker] == map[0 := out.worker];
  }

  lemma {:induction false} AllCalls(env: Env, r: Remote, w: Worker, outs: seq<Outcome>)
    requires WorldInv(env, Alone(r, w)) && (w.phase.Claiming? ==> Reconciled(r.control, r.r1)) && Calls(env, r, w, outs)
    ensures var last := outs[|outs| - 1];
      After(LedgerStepper(env), Alone(r, w), Advances(0, |outs|)) == Alone(last.remote, last.worker)
    decreases |outs|
  {
    hide WorldInv, LedgerStep, TakeIfRunnable, Reconciled;
    OneCall(env, r, w);
    assert Advances(0, |outs|)[0] == Advance(0) && Advances(0, |outs|)[1..] == Advances(0, |outs| - 1);
    if |outs| > 1 {
      assert Calls(env, outs[0].remote, outs[0].worker, outs[1..]);
      AllCalls(env, outs[0].remote, outs[0].worker, outs[1..]);
    } else {
      assert Advances(0, 0) == [];
    }
  }

  // After the lease of the first claim is over.
  const LATER := 300

  function LateBegin(): Event {
    Begin(1, EnvelopeFor("b"), BundleAt("b", LATER), "j", 0)
  }

  function UncountedEvents(): seq<Event> {
    [BeginFor("a")] + Advances(0, 5) + [Crash(0)]
  }

  // The world the crash leaves: the first receipt is durable, nothing is counted, and the claim is still the crashed one's.
  ghost predicate LeftUncounted(world: World) {
    var r := world.remote;
    && world.workers == map[] && RemoteInv(ENV, r) && r.canonicalMain == MAIN && r.control.identity == IDENTITY
    && r.control.counted == [] && r.r1.receipts.Keys == {Idem("a", "h")}
    && r.control.claimId == Some("i") && r.control.claimExpiresAt == Some(INVOCATION_LEASE_SECONDS)
  }

  lemma EmptyReconciles(c: Control)
    requires c == EmptyControl(IDENTITY)
    ensures Reconcile(c, EMPTY_STATE) == Ok(c) && Reconciled(c, EMPTY_STATE)
  {
    IdentityIsValid();
    assert ReceiptIds(EMPTY_STATE) == {};
    ReconcileUnchangedIff(c, EMPTY_STATE);
  }

  // The first invocation, prepared on the empty control.
  lemma FirstWorker(world: World) returns (w: Worker)
    requires world == InitialWorld(IDENTITY, MAIN)
    ensures LedgerStep(ENV, world, BeginFor("a")) == Alone(world.remote, w) && WorldInv(ENV, Alone(world.remote, w))
    ensures OnTrack(ENV, world.remote, w) && w.phase.Claiming? && w.claimId == "i" && w.envelope == EnvelopeFor("a") && NeverSeen(ENV, world.remote.r1, w.envelope)
    ensures var c := world.remote.control;
      w.phase.claimed == c.(claimId := Some("i"), claimExpiresAt := Some(INVOCATION_LEASE_SECONDS)) && Reconciled(c, world.remote.r1)
  {
    hide RemoteInv, Prepare, Seal, WorkerInv, NeverSeen, HexPayloads, Idem, ValidEnvelope, ValidIdentity, EngineInv;
    var e, r := BeginFor("a"), world.remote;
    FirstIsReady(world);
    EmptyReconciles(r.control);
    assert |ReceiptIds(r.r1)| < MAX_TERMINAL by { NoClaimIsOpen(ENV, r); }
    PrepareSucceedsIff(ENV, r, e);
    SealKeepsClock(ENV, e.bundle, e.envelope, r.canonicalMain);
    Runs.BeginKeeps(ENV, r, e);
    w := Prepare(ENV, r, e).value;
    assert ClaimPrepared(w) by { ClaimingIsPrepared(r, w); }
    ClaimFromEmpty(r, w);
    assert map[][0 := w] == map[0 := w];
  }

  lemma ClaimingIsPrepared(r: Remote, w: Worker)
    requires w.phase.Claiming? && WorkerInv(ENV, r, w)
    ensures ClaimPrepared(w)
  {
  }

  lemma CrashLeavesUncounted(world: World)
    requires world == InitialWorld(IDENTITY, MAIN)
    ensures LeftUncounted(After(LedgerStepper(ENV), world, UncountedEvents()))
  {
    hide RemoteInv, LedgerStep, WorldInv, OnTrack, NeverSeen, HexPayloads, Calls, Idem, EngineInv, BundleAt, Advances, BeginFor, Reconciled, After;
    var e, r := BeginFor("a"), world.remote;
    HexEnv();
    var w := FirstWorker(world);
    var outs := CommitIsReached(ENV, r, w);
    AllCalls(ENV, r, w, outs);
    var f := outs[4];
    TrackIsSound(ENV, f.remote, f.worker);
    AfterBoth(LedgerStepper(ENV), world, [e] + Advances(0, 5), [Crash(0)]);
    AfterBoth(LedgerStepper(ENV), world, [e], Advances(0, 5));
    AfterOne(world, e);
    AfterOne(Alone(f.remote, f.worker), Crash(0));
    CrashedAlone(f.remote, f.worker);
  }

  lemma CrashedAlone(r: Remote, w: Worker)
    ensures LedgerStep(ENV, Alone(r, w), Crash(0)) == World(r, map[])
  {
    assert (map[0 := w] - {0}).Keys == {};
  }

  // What the crash left is stuck, although a later invocation gets as far as its claim: the abstract adapter would
  // accept the claim, and the ledger's rule refuses it.
  lemma LateClaimIsRefused(world: World) returns (w: Worker)
    requires LeftUncounted(world)
    ensures Stuck(world)
    ensures LedgerStep(ENV, world, LateBegin()) == World(world.remote, map[1 := w])
    ensures w.phase.Claiming? && Refused(ENV, world.remote, w)
    ensures Step(ENV, World(world.remote, map[1 := w]), Advance(1)).remote.control.claimId == Some("j")
  {
    hide RemoteInv, Prepare, Seal, WorkerInv, Idem, ValidEnvelope, ValidIdentity, EngineInv, Reconciled, ReceiptIds;
    var e, r := LateBegin(), world.remote;
    OneIsUncounted(r);
    BundleSeals("b", LATER);
    PrepareSucceedsIff(ENV, r, e);
    Runs.BeginKeeps(ENV, r, e);
    w := Prepare(ENV, r, e).value;
    assert map[][1 := w] == map[1 := w];
    assert ClaimPrepared(w) by { ClaimingIsPrepared(r, w); }
    ClaimRefusedIff(ENV, r, w);
    LateClaim(r, w);
  }

  lemma OneIsUncounted(r: Remote)
    requires r.control.counted == [] && r.r1.receipts.Keys == {Idem("a", "h")}
    ensures !Reconciled(r.control, r.r1) && |ReceiptIds(r.r1)| == 1
  {
    hide Idem;
    var id := r.r1.receipts[Idem("a", "h")].receiptId;
    OneKeyOneId(r.r1, Idem("a", "h"));
    assert id in ReceiptIds(r.r1) && id !in Elements(r.control.counted);
  }

  // The same call on the abstract adapter.
  lemma LateClaim(r: Remote, w: Worker)
    requires w.phase.Claiming? && w.snap == r && ClaimPrepared(w) && w.claimId == "j"
    ensures Step(ENV, World(r, map[1 := w]), Advance(1)).remote.control.claimId == Some("j")
  {
    hide Reconcile, ValidIdentity;
  }

  /** The boundary is reached: an invocation commits its review and crashes, so its receipt stays uncounted; when its
      lease is over another invocation gets as far as its claim, which the abstract adapter would accept and the ledger's
      rule refuses. And so it stays, in every continuation. */
  lemma UncountedRun() returns (events: seq<Event>, worlds: seq<World>)
    ensures IsRun(ENV, IDENTITY, events, worlds) && |events| == 9
    ensures Stuck(worlds[7]) && worlds[7].workers == map[] && worlds[7].remote.r1.receipts != map[]
    ensures events[8] == Advance(1) && 1 in worlds[8].workers && worlds[8].workers[1].phase.Claiming?
    ensures Refused(ENV, worlds[8].remote, worlds[8].workers[1]) && worlds[9] == worlds[7]
    ensures Step(ENV, worlds[8], events[8]).remote != worlds[8].remote
  {
    hide LedgerStep, Step, ValidIdentity, Trace, LeftUncounted, Refused, Stuck, RemoteInv, Idem, BundleAt;
    var world := InitialWorld(IDENTITY, MAIN);
    var before := UncountedEvents();
    assert |before| == 7;
    events := before + [LateBegin(), Advance(1)];
    worlds := Trace(LedgerStepper(ENV), world, events);
    IdentityIsValid();
    forall k | 0 <= k < |events| ensures StepOk(ENV, events, worlds, k) {
      TraceSteps(LedgerStepper(ENV), world, events, k);
    }
    TracePrefix(LedgerStepper(ENV), world, before, [LateBegin(), Advance(1)]);
    CrashLeavesUncounted(world);
    assert StepOk(ENV, events, worlds, 7) && StepOk(ENV, events, worlds, 8);
    LeftHolds(worlds[7]);
    var w := LateClaimIsRefused(worlds[7]);
    RefusedIsDropped(worlds[7].remote, w);
  }

  lemma LeftHolds(world: World)
    requires LeftUncounted(world)
    ensures world == World(world.remote, map[]) && world.remote.r1.receipts != map[] && world.remote.control.claimId == Some("i")
  {
    hide RemoteInv, Idem;
    assert Idem("a", "h") in world.remote.r1.receipts;
  }

  lemma RefusedIsDropped(r: Remote, w: Worker)
    requires Refused(ENV, r, w)
    ensures LedgerStep(ENV, World(r, map[1 := w]), Advance(1)) == World(r, map[])
  {
    hide Refused;
    assert (map[1 := w] - {1}).Keys == {};
  }

  lemma AfterOne(world: World, e: Event)
    ensures After(LedgerStepper(ENV), world, [e]) == LedgerStep(ENV, world, e)
  {
    hide LedgerStep;
    assert [e][1..] == [];
    assert After(LedgerStepper(ENV), LedgerStep(ENV, world, e), []) == LedgerStep(ENV, world, e);
  }

  lemma ClaimFromEmpty(r: Remote, w: Worker)
    requires r == InitialWorld(IDENTITY, MAIN).remote && Reconcile(r.control, r.r1) == Ok(r.control)
    requires w.phase.Claiming? && w.snap == r && ClaimPrepared(w) && w.sealed.trustedNow == 0 && w.claimId == "i"
    ensures w.phase.claimed == r.control.(claimId := Some("i"), claimExpiresAt := Some(INVOCATION_LEASE_SECONDS))
  {
    hide Reconcile, ValidIdentity;
  }
}
