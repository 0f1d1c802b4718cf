// A concrete Stage-1 run from the empty control with two durable receipts.
module Stage1Examples {
  import opened Prelude
  import opened R1Auth
  import opened R1State
  import opened R1Engine
  import opened R1Invariants
  import opened R1Progress
  import opened R1Examples
  import opened Stage1Control
  import opened Stage1Seal
  import opened Stage1Runtime
  import opened Stage1Invariants
  import Runs = Stage1Runs
  import opened Stage1Adapter
  import opened Stage1Progress
  import opened Traces

  ghost function Stepper(env: Env): (World, Event) -> World {
    (w, e) => Step(env, w, e)
  }

  function Advances(id: nat, n: nat): seq<Event> {
    if n == 0 then [] else [Advance(id)] + Advances(id, n - 1)
  }

  lemma {:induction false} AfterAdvances(env: Env, world: World, id: nat, n: nat)
    ensures After(Stepper(env), world, Advances(id, n)) == AdvanceTimes(env, world, id, n)
    decreases n
  {
    hide Step;
    if n > 0 {
      assert Advances(id, n)[1..] == Advances(id, n - 1);
      AfterAdvances(env, Step(env, world, Advance(id)), id, n - 1);
    }
  }

  // ---- One invocation in a quiet world ----

  function Invocation(e: Event): seq<Event>
    requires e.Begin?
  {
    [e] + Advances(e.id, 7)
  }

  ghost predicate Ready(env: Env, world: World, e: Event)
    requires e.Begin?
  {
    var r := world.remote;
    && e.id !in world.workers && RemoteInv(env, r) && r.control.claimId.None? && r.control.terminalCount < MAX_TERMINAL
    && ValidEnvelope(e.envelope) && Seal(env, e.bundle, e.envelope, r.canonicalMain).Ok?
    && r.canonicalMain == r.control.identity.canonicalMain && e.claimId != "" && e.tick >= 0
    && e.bundle.workerRuntime.now < r.control.identity.activatedAt + WINDOW_SECONDS
    && (CommitKey in e.bundle.operations && e.bundle.operations[CommitKey].Decision?
        ==> e.bundle.operations[CommitKey].ownerGateRef != Some(""))
    && NeverSeen(env, r.r1, e.envelope)
  }

  /** Begin and seven advances, with nobody in between, review a candidate the store does not know. */
  lemma InvocationReviews(env: Env, world: World, e: Event)
    requires e.Begin? && HexPayloads(env) && Ready(env, world, e)
    ensures var after := After(Stepper(env), world, Invocation(e));
      && e.id !in after.workers && RemoteInv(env, after.remote)
      && Reviewed(env, world.remote.r1, after.remote.r1, e.envelope)
      && after.remote.control.claimId.None? && CountedExactly(after.remote.control, after.remote.r1)
      && SameActivation(world.remote, after.remote)
  {
    hide RemoteInv, Prepare, Seal, Drive, Take, WorkerInv, Reviewed, NeverSeen, HexPayloads, CountedExactly, SameActivation;
    assert |ReceiptIds(world.remote.r1)| < MAX_TERMINAL by { NoClaimIsOpen(env, world.remote); }
    PrepareSucceedsIff(env, world.remote, e);
    Runs.BeginKeeps(env, world.remote, e);
    SealKeepsClock(env, e.bundle, e.envelope, world.remote.canonicalMain);
    var w := Prepare(env, world.remote, e).value;
    InvocationSucceeds(env, world.remote, w);
    var begun := Step(env, world, e);
    DriveIsARun(env, begun, e.id, 7);
    AfterAdvances(env, begun, e.id, 7);
    assert Invocation(e)[0] == e && Invocation(e)[1..] == Advances(e.id, 7);
  }

  lemma NoClaimIsOpen(env: Env, r: Remote)
    requires RemoteInv(env, r) && r.control.claimId.None? && r.control.terminalCount < MAX_TERMINAL
    ensures |ReceiptIds(r.r1)| < MAX_TERMINAL
  {
    hide ReceiptIds, ValidIdentity, EngineInv, AttemptsBehindEpochs;
    ElementsSize(r.control.counted);
  }

  // ---- Two candidates ----

  function ByTask(p: ReviewPayload): string {
    if p.taskId == Idem("a", "h") then Fill(64, 'a') else Fill(64, 'b')
  }

  function OneText(enqueue: Decision, operations: map<OpKey, Decision>): string {
    "d"
  }

  const ENV: Env := Stage1Seal.Env(Digests(KeyItself, ByTask), OneText)

  const IDENTITY: Identity := Identity("r", MAIN, MAIN, Stage1Control.RuntimeBranch, MAIN, 0)

  function EnvelopeFor(c: string): Envelope {
    Envelope(c, "h", WORKER, ReviewedNoAdmission, "v", [])
  }

  function BundleAt(c: string, at: int): Bundle {
    Bundle(Granted(EnqueueNeed()),
           map[InspectKey := Granted(ExpectedNeed(ENV, EnvelopeFor(c), InspectKey)),
               LeaseKey := Granted(ExpectedNeed(ENV, EnvelopeFor(c), LeaseKey)),
               CheckpointKey := Granted(ExpectedNeed(ENV, EnvelopeFor(c), CheckpointKey)),
               FailureKey := Granted(ExpectedNeed(ENV, EnvelopeFor(c), FailureKey)),
               CommitKey := Granted(ExpectedNeed(ENV, EnvelopeFor(c), CommitKey))],
           RuntimeAt(at), RuntimeAt(at), MAIN, "p", "d", true, true)
  }

  function BundleFor(c: string): Bundle {
    BundleAt(c, 0)
  }

  function BeginFor(c: string): Event {
    Begin(0, EnvelopeFor(c), BundleFor(c), "i", 0)
  }

  lemma BundleSeals(c: string, at: int)
    requires c != "" && 0 <= at < GRANT_SECONDS
    ensures Seal(ENV, BundleAt(c, at), EnvelopeFor(c), MAIN).Ok?
    ensures ValidEnvelope(EnvelopeFor(c))
  {
    hide Validate, Idem, IsHexAnyCase;
    HexConstants();
    var b, e := BundleAt(c, at), EnvelopeFor(c);
    assert b.operations.Keys == AUTH_KEYS;
    GrantIsAccepted(EnqueueNeed(), at);
    forall key | key in AUTH_KEYS ensures Validate(b.operations[key], RuntimeAt(at), ExpectedNeed(ENV, e, key)).None? {
      GrantIsAccepted(ExpectedNeed(ENV, e, key), at);
    }
    NoDenial(b, e, [InspectKey, LeaseKey, CheckpointKey, FailureKey, CommitKey]);
  }

  lemma {:induction false} NoDenial(b: Bundle, e: Envelope, keys: seq<OpKey>)
    requires forall k | k in keys :: k in b.operations && Validate(b.operations[k], b.workerRuntime, ExpectedNeed(ENV, e, k)).None?
    ensures FirstDenial(ENV, b, e, keys).None?
    decreases |keys|
  {
    hide Validate, ExpectedNeed;
    if keys != [] {
      NoDenial(b, e, keys[1..]);
    }
  }

  lemma HexEnv()
    ensures HexPayloads(ENV)
  {
  }

  lemma IdentityIsValid()
    ensures ValidIdentity(IDENTITY)
  {
    HexConstants();
  }

  lemma DistinctKeys()
    ensures Idem("a", "h") != Idem("b", "h") && Idem("a", "h") != "" && Idem("b", "h") != ""
  {
    assert Idem("a", "h")[14] == 'a' && Idem("b", "h")[14] == 'b';
  }

  // After the first review the second candidate is still unknown and the count is one.
  lemma SecondIsReady(world: World, first: World)
    requires world == InitialWorld(IDENTITY, MAIN)
    requires 0 !in first.workers && RemoteInv(ENV, first.remote) && Reviewed(ENV, world.remote.r1, first.remote.r1, EnvelopeFor("a"))
    requires first.remote.control.claimId.None? && CountedExactly(first.remote.control, first.remote.r1)
    requires SameActivation(world.remote, first.remote)
    ensures Ready(ENV, first, BeginFor("b"))
  {
    hide EngineInv, Seal, AttemptsBehindEpochs, Idem, ValidIdentity, ValidEnvelope, IsHexAnyCase;
    DistinctKeys();
    BundleSeals("b", 0);
    var c, s := first.remote.control, first.remote.r1;
    ElementsSize(c.counted);
    OneKeyOneId(s, Idem("a", "h"));
  }

  lemma OneKeyOneId(s: State, idem: string)
    requires idem in s.receipts && s.receipts.Keys == {idem}
    ensures |ReceiptIds(s)| == 1
  {
    assert ReceiptIds(s) == {s.receipts[idem].receiptId};
  }

  lemma FirstIsReady(world: World)
    requires world == InitialWorld(IDENTITY, MAIN)
    ensures Ready(ENV, world, BeginFor("a"))
  {
    hide Seal, Idem, ValidEnvelope;
    DistinctKeys();
    BundleSeals("a", 0);
    IdentityIsValid();
    Runs.InitialKeeps(ENV, IDENTITY);
  }

  // The two receipts have different ids, because their tasks' digests differ.
  lemma IdsDiffer(s: State)
    requires EngineInv(ENV.engine, s) && Idem("a", "h") in s.receipts && Idem("b", "h") in s.receipts
    requires s.index == map[Idem("a", "h") := Idem("a", "h"), Idem("b", "h") := Idem("b", "h")]
    ensures s.receipts[Idem("a", "h")].receiptId != s.receipts[Idem("b", "h")].receiptId
  {
    hide Idem;
    DistinctKeys();
    var i, j := Idem("a", "h"), Idem("b", "h");
    assert ReceiptInv(ENV.engine, s, i) && ReceiptInv(ENV.engine, s, j) && ValidReceipt(s, i) && ValidReceipt(s, j);
    assert s.receipts[i].payloadHash == Fill(64, 'a') && s.receipts[j].payloadHash == Fill(64, 'b');
    assert ReceiptIdOf(Fill(64, 'a'))[8] == 'a' && ReceiptIdOf(Fill(64, 'b'))[8] == 'b';
  }

  // The world after both invocations.
  lemma BothReviewed(world: World, last: World)
    requires world == InitialWorld(IDENTITY, MAIN)
    requires last == After(Stepper(ENV), After(Stepper(ENV), world, Invocation(BeginFor("a"))), Invocation(BeginFor("b")))
    ensures var s := last.remote.r1;
      && EngineInv(ENV.engine, s) && s.receipts.Keys == {Idem("a", "h"), Idem("b", "h")}
      && s.index == map[Idem("a", "h") := Idem("a", "h"), Idem("b", "h") := Idem("b", "h")]
      && CountedExactly(last.remote.control, s)
  {
    hide Ready, RemoteInv, Idem, HexPayloads, CountedExactly, SameActivation, Invocation, After, EngineInv, BundleFor, ValidEnvelope;
    HexEnv();
    FirstIsReady(world);
    InvocationReviews(ENV, world, BeginFor("a"));
    var first := After(Stepper(ENV), world, Invocation(BeginFor("a")));
    SecondIsReady(world, first);
    InvocationReviews(ENV, first, BeginFor("b"));
    EngineOfRemote(last.remote);
  }

  lemma BothCounted(s: State)
    requires EngineInv(ENV.engine, s) && s.receipts.Keys == {Idem("a", "h"), Idem("b", "h")}
    requires s.index == map[Idem("a", "h") := Idem("a", "h"), Idem("b", "h") := Idem("b", "h")]
    ensures |s.receipts| == 2 && |ReceiptIds(s)| == 2
    ensures s.receipts[Idem("a", "h")].receiptId != s.receipts[Idem("b", "h")].receiptId
  {
    hide Idem, EngineInv;
    var i, j := Idem("a", "h"), Idem("b", "h");
    DistinctKeys();
    IdsDiffer(s);
    assert ReceiptIds(s) == {s.receipts[i].receiptId, s.receipts[j].receiptId};
    assert |s.receipts| == |s.receipts.Keys| == 2;
  }

  lemma TraceIsRun(events: seq<Event>)
    ensures Runs.IsRun(ENV, IDENTITY, events, Trace(Stepper(ENV), InitialWorld(IDENTITY, MAIN), events))
  {
    hide Step, ValidIdentity, Trace;
    var world := InitialWorld(IDENTITY, MAIN);
    IdentityIsValid();
    forall k | 0 <= k < |events| ensures Runs.StepOk(ENV, events, Trace(Stepper(ENV), world, events), k) {
      TraceSteps(Stepper(ENV), world, events, k);
    }
  }

  /** Receipts can be made: a run from the empty control that ends with two durable receipts of different ids,
      both counted, and no two of its commits sharing a receipt id. */
  lemma TwoReceiptsRun() returns (events: seq<Event>, worlds: seq<World>)
    ensures Runs.IsRun(ENV, IDENTITY, events, worlds)
    ensures var s := worlds[|events|].remote.r1;
      && |s.receipts| == 2 && |ReceiptIds(s)| == 2
      && CountedExactly(worlds[|events|].remote.control, s)
    ensures !Runs.SharedReceiptId(ENV, events, worlds, |events|)
  {
    hide Step, After, Trace, Idem, CountedExactly, Invocation, EngineInv, Runs.IsRun, Runs.SharedReceiptId;
    var world := InitialWorld(IDENTITY, MAIN);
    var one, two := Invocation(BeginFor("a")), Invocation(BeginFor("b"));
    events := one + two;
    worlds := Trace(Stepper(ENV), world, events);
    TraceIsRun(events);
    TraceEnds(Stepper(ENV), world, events);
    AfterBoth(Stepper(ENV), world, one, two);
    BothReviewed(world, worlds[|events|]);
    BothCounted(worlds[|events|].remote.r1);
    DistinctKeys();
    NoSharedId(events, worlds, Idem("a", "h"), Idem("b", "h"));
  }

  lemma EngineOfRemote(r: Remote)
    requires RemoteInv(ENV, r)
    ensures EngineInv(ENV.engine, r.r1)
  {
  }

  // Payloads that share a receipt id would have the same key, and a key's receipt is created once.
  lemma NoSharedId(events: seq<Event>, worlds: seq<World>, i: string, j: string)
    requires Runs.IsRun(ENV, IDENTITY, events, worlds)
    requires worlds[|events|].remote.r1.receipts.Keys == {i, j} && i != j
    requires worlds[|events|].remote.r1.receipts[i].receiptId != worlds[|events|].remote.r1.receipts[j].receiptId
    ensures !Runs.SharedReceiptId(ENV, events, worlds, |events|)
  {
    hide Idem, ReceiptIdOf, Step, Runs.CommittedAt;
    if Runs.SharedReceiptId(ENV, events, worlds, |events|) {
      var a: nat, b: nat, x, y, p, q :| a < |events| && b < |events| && Runs.SameIdCommits(ENV, events, worlds, a, b, x, y, p, q);
      CommitLeavesItsId(events, worlds, a, x, p);
      CommitLeavesItsId(events, worlds, b, y, q);
      CreatedOnce(events, worlds, a, b, x, p, q);
    }
  }

  lemma CommitLeavesItsId(events: seq<Event>, worlds: seq<World>, a: nat, x: string, p: ReviewPayload)
    requires Runs.IsRun(ENV, IDENTITY, events, worlds) && a < |events| && Runs.CommittedAt(ENV, events, worlds, a, x, p)
    ensures var r := worlds[|events|].remote.r1.receipts;
      x in r && r[x].receiptId == ReceiptIdOf(ENV.engine.payloadHash(p))
  {
    hide Idem, ReceiptIdOf, Step, ByTask, Runs.CommitsPayload;
    Runs.DurableReceiptsStay(ENV, IDENTITY, events, worlds, a + 1, |events|, x);
    Runs.CeilingAndCounts(ENV, IDENTITY, events, worlds, |events|);
    assert ValidReceipt(worlds[|events|].remote.r1, x);
  }

  lemma CreatedOnce(events: seq<Event>, worlds: seq<World>, a: nat, b: nat, x: string, p: ReviewPayload, q: ReviewPayload)
    requires Runs.IsRun(ENV, IDENTITY, events, worlds) && a < |events| && b < |events|
    ensures Runs.CommittedAt(ENV, events, worlds, a, x, p) && Runs.CommittedAt(ENV, events, worlds, b, x, q) ==> p == q
  {
    hide Idem, Step, ByTask, PhaseCall;
    if Runs.CommittedAt(ENV, events, worlds, a, x, p) && Runs.CommittedAt(ENV, events, worlds, b, x, q) {
      if a < b {
        Runs.DurableReceiptsStay(ENV, IDENTITY, events, worlds, a + 1, b, x);
      } else if b < a {
        Runs.DurableReceiptsStay(ENV, IDENTITY, events, worlds, b + 1, a, x);
      }
    }
  }
}
