// The composed control plane makes progress: a call that nobody disturbs goes
// through its two pushes, and a first claim lands on a concrete ledger.
module Stage1OnLedgerExamples {
  import opened Prelude
  import opened R1State
  import R1Examples
  import opened Stage1Control
  import opened Stage1Invariants
  import Runtime = Stage1Runtime
  import Progress = Stage1Progress
  import Examples = Stage1Examples
  import Stage = Stage1Ledger
  import LedgerRule = Stage1LedgerExamples
  import opened LedgerTags
  import Ledger
  import LedgerAppend
  import LedgerExamples
  import L = LedgerRuns
  import opened Stage1OnLedger
  import opened Stage1OnLedgerRuns
  import opened Traces

  lemma NextTagIsFree(env: Ledger.Env, r: L.Remote, main: string, p: Ledger.Payload)
    requires Ledger.LoadOk(env, main, r.branch, r.journal, r.commits)
    requires p.sequence == r.commits[r.branch].payload.sequence + 1 <= MAX_SEQUENCE
    ensures Ledger.TagFor(env, p) !in r.journal
  {
    hide ParseTag, PrintTag, Ledger.ChainOk, Ledger.ValidPayload, Ledger.AnchorOk, Ledger.HighWater;
    var entries := LedgerAppend.LoadedEntries(env, main, r.branch, r.journal, r.commits);
    TagRoundTrip(Ledger.Key(env), p.sequence, p.control.terminalCount);
    assert Ledger.TagFor(env, p) in r.journal ==> Ledger.RefEntered(Ledger.Key(env), r.journal, entries, Ledger.TagFor(env, p));
  }

  // An invocation that has loaded the branch for its next call, which the ledger would write.
  ghost predicate ReadyToCall(env: Env, w: World, id: nat, sha: Sha) {
    var r := w.ledger.remote;
    && Inv(env, w) && id in w.jobs && w.jobs[id].Calling? && w.jobs[id].base == r.branch && r.branch in r.commits
    && ClientOf(w, id) == L.Loaded(Main(env), r.branch) && r.main == Main(env) && sha !in r.commits
    && Ledger.LoadOk(env.ledger, Main(env), r.branch, r.journal, r.commits)
    && RequestOf(env.stage, w.jobs[id].worker).Some?
    && Ledger.NewPayload(env.ledger, r.branch, r.commits[r.branch].payload, Main(env), RequestOf(env.stage, w.jobs[id].worker).value).Some?
  }

  function CallEvents(id: nat, sha: Sha): seq<Event> {
    [CheckTag(id, sha), CheckMain(id), PushJournal(id), CheckMain(id), PushBranch(id)]
  }

  function WithClient(w: World, id: nat, c: L.Client): World {
    w.(ledger := L.Becomes(w.ledger, Name(id), c))
  }

  lemma Checked(env: Env, w: World, id: nat, sha: Sha)
    requires ReadyToCall(env, w, id, sha)
    ensures var r, req := w.ledger.remote, RequestOf(env.stage, w.jobs[id].worker).value;
      var p := Ledger.NewPayload(env.ledger, r.branch, r.commits[r.branch].payload, Main(env), req).value;
      && p.sequence == r.commits[r.branch].payload.sequence + 1 && Ledger.TagFor(env.ledger, p) !in r.journal
      && Step(env, w, CheckTag(id, sha)) == WithClient(w, id, L.TagFree(Main(env), r.branch, req, sha))
  {
    hide Inv, RequestOf, Ledger.NewPayload, Ledger.LoadOk, Ledger.TagFor, Ledger.AuthVerifies, Ledger.Semantics, Ledger.AnchorOk;
    var r, req := w.ledger.remote, RequestOf(env.stage, w.jobs[id].worker).value;
    var prev := r.commits[r.branch].payload;
    var p := Ledger.NewPayload(env.ledger, r.branch, prev, Main(env), req).value;
    LedgerAppend.WrittenAuthVerifies(env.ledger, r.branch, prev, Main(env), req);
    NextTagIsFree(env.ledger, r, Main(env), p);
  }

  lemma MainChecked(env: Env, w: World, id: nat)
    requires id in w.jobs && w.ledger.remote.main == Main(env)
    ensures var c := ClientOf(w, id);
      && (c.TagFree? ==> Step(env, w, CheckMain(id)) == WithClient(w, id, L.MainSeen(c.main, c.head, c.req, c.sha)))
      && (c.Journaled? ==> Step(env, w, CheckMain(id)) == WithClient(w, id, L.MainSeenAgain(c.head, c.sha)))
  {
  }

  // The world after the tag push of `p`.
  function WithTag(env: Env, w: World, id: nat, head: Sha, p: Ledger.Payload, sha: Sha): World {
    var r := w.ledger.remote;
    World(L.World(r.(journal := LedgerAppend.Tagged(env.ledger, r.journal, p, sha), commits := LedgerAppend.Committed(r.commits, head, p, sha)),
                  w.ledger.clients[Name(id) := L.Journaled(head, sha)]), w.jobs)
  }

  lemma TagPushed(env: Env, w: World, id: nat, p: Ledger.Payload)
    requires id in w.jobs && ClientOf(w, id).MainSeen? && L.Written(env.ledger, w.ledger.remote, ClientOf(w, id)) == Some(p)
    requires ClientOf(w, id).sha !in w.ledger.remote.commits && Ledger.TagFor(env.ledger, p) !in w.ledger.remote.journal
    ensures Step(env, w, PushJournal(id)) == WithTag(env, w, id, ClientOf(w, id).head, p, ClientOf(w, id).sha)
  {
    hide Ledger.NewPayload, Ledger.TagFor;
  }

  function LoadEvents(id: nat): seq<Event> {
    [ReadMain(id), ReadHead(id), FinishLoad(id)]
  }

  /** The load before a call goes through exactly if the branch still is where the invocation left it and loads: then the
      invocation holds the branch and may call; otherwise it has ended. */
  lemma LoadGoesThroughIff(env: Env, w: World, id: nat)
    requires id in w.jobs && w.jobs[id].Calling? && ClientOf(w, id).Idle?
    ensures var r := w.ledger.remote;
      After(OnLedgerStepper(env), w, LoadEvents(id)) ==
        if r.branch == w.jobs[id].base && Ledger.LoadOk(env.ledger, r.main, r.branch, r.journal, r.commits)
        then WithClient(w, id, L.Loaded(r.main, r.branch))
        else World(L.Becomes(w.ledger, Name(id), L.Idle), w.jobs - {id})
  {
    hide Ledger.LoadOk, After;
    var r := w.ledger.remote;
    AfterThree(OnLedgerStepper(env), w, ReadMain(id), ReadHead(id), FinishLoad(id));
    var a := Step(env, w, ReadMain(id));
    assert a == WithClient(w, id, L.SawMain(r.main));
    ClientReplaced(w, id, L.SawMain(r.main), L.SawHead(r.main, r.branch));
    var b := Step(env, a, ReadHead(id));
    assert b == WithClient(w, id, L.SawHead(r.main, r.branch));
    ClientReplaced(w, id, L.SawHead(r.main, r.branch), L.Loaded(r.main, r.branch));
    ClientReplaced(w, id, L.SawHead(r.main, r.branch), L.Idle);
  }

  lemma ClientReplaced(w: World, id: nat, c: L.Client, c': L.Client)
    ensures WithClient(WithClient(w, id, c), id, c') == WithClient(w, id, c')
  {
    assert w.ledger.clients[Name(id) := c][Name(id) := c'] == w.ledger.clients[Name(id) := c'];
  }

  /** A branch push that comes too late, or for a commit nobody has, ends its invocation and moves nothing. */
  lemma LatePushEnds(env: Env, w: World, id: nat)
    requires id in w.jobs && ClientOf(w, id).MainSeenAgain? && !Lands(w, id)
    ensures Step(env, w, PushBranch(id)) == World(L.Becomes(w.ledger, Name(id), L.Idle), w.jobs - {id})
  {
    hide Ledger.LoadOk;
  }

  /** A call that nobody disturbs goes through: after its five remote operations the branch is at the payload it asked
      for, and the invocations have seen one step of the adapter. */
  lemma CallGoesThrough(env: Env, w: World, id: nat, sha: Sha)
    requires ReadyToCall(env, w, id, sha)
    ensures var w', r := After(OnLedgerStepper(env), w, CallEvents(id, sha)), w.ledger.remote;
      && Inv(env, w') && w'.ledger.remote.branch == sha && sha in w'.ledger.remote.commits
      && Ledger.NewPayload(env.ledger, r.branch, r.commits[r.branch].payload, Main(env), RequestOf(env.stage, w.jobs[id].worker).value)
           == Some(w'.ledger.remote.commits[sha].payload)
      && Seen(env, w') == Stage.LedgerStep(env.stage, Seen(env, w), Runtime.Advance(id))
  {
    hide Inv, Step, RequestOf, Ledger.NewPayload, Ledger.LoadOk, Ledger.TagFor, Stage.LedgerStep, Steps, Seen, After;
    var r, req := w.ledger.remote, RequestOf(env.stage, w.jobs[id].worker).value;
    var p := Ledger.NewPayload(env.ledger, r.branch, r.commits[r.branch].payload, Main(env), req).value;
    Checked(env, w, id, sha);
    var a := Step(env, w, CheckTag(id, sha));
    MainChecked(env, a, id);
    var b := Step(env, a, CheckMain(id));
    TagPushed(env, b, id, p);
    var c := Step(env, b, PushJournal(id));
    MainChecked(env, c, id);
    var d := Step(env, c, CheckMain(id));
    QuietStage(env, w, CheckTag(id, sha));
    QuietStage(env, a, CheckMain(id));
    QuietStage(env, b, PushJournal(id));
    QuietStage(env, c, CheckMain(id));
    assert Lands(d, id);
    LandsOnce(env, d, id);
    AfterFive(env, w, CheckTag(id, sha), CheckMain(id), PushJournal(id), CheckMain(id), PushBranch(id));
  }

  ghost function OnLedgerStepper(env: Env): (World, Event) -> World {
    (w, e) => Step(env, w, e)
  }

  lemma AfterFive(env: Env, w: World, a: Event, b: Event, c: Event, d: Event, e: Event)
    ensures After(OnLedgerStepper(env), w, [a, b, c, d, e]) ==
      Step(env, Step(env, Step(env, Step(env, Step(env, w, a), b), c), d), e)
  {
    hide Step, After;
    assert [a, b, c, d, e] == [a, b, c] + [d, e];
    AfterBoth(OnLedgerStepper(env), w, [a, b, c], [d, e]);
    AfterThree(OnLedgerStepper(env), w, a, b, c);
    AfterTwo(OnLedgerStepper(env), Step(env, Step(env, Step(env, w, a), b), c), d, e);
  }

  // A step that keeps its invocation and does not win a push shows the invocations nothing.
  lemma QuietStage(env: Env, w: World, e: Event)
    requires Inv(env, w) && (e.CheckTag? || e.CheckMain? || e.PushJournal?) && e.id in Step(env, w, e).jobs
    ensures Inv(env, Step(env, w, e)) && Seen(env, Step(env, w, e)) == Seen(env, w)
  {
    hide Step, L.WorldInv, JobsOk, TagsOk, Inv;
    EveryStep(env, w, e);
    StepsKeep(env, w, Step(env, w, e), StageEvent(env, w, e));
    NothingIsSeen(env, w);
  }

  lemma NothingIsSeen(env: Env, w: World)
    ensures Stage.LedgerStep(env.stage, Seen(env, w), Nothing(env)) == Seen(env, w)
  {
  }

  lemma LandsOnce(env: Env, w: World, id: nat)
    requires Inv(env, w) && Lands(w, id)
    ensures var w' := Step(env, w, PushBranch(id));
      && Inv(env, w') && w'.ledger.remote.branch == ClientOf(w, id).sha && w'.ledger.remote.commits == w.ledger.remote.commits
      && Seen(env, w') == Stage.LedgerStep(env.stage, Seen(env, w), Runtime.Advance(id))
  {
    hide Inv, L.WorldInv, JobsOk, TagsOk, Resumed, L.Step, Stage.LedgerStep, Seen;
    EveryStep(env, w, PushBranch(id));
    StepsKeep(env, w, Step(env, w, PushBranch(id)), Runtime.Advance(id));
    PushedLedger(env, w, id);
    DropIsIdle(env, Micro(env, w, L.PushBranch(Name(id))), id);
  }

  // ---- A first claim ----

  const LEDGER_ENV: Ledger.Env :=
    Ledger.Env(Ledger.Anchor(Examples.IDENTITY, 0, "key"), LedgerExamples.OneDigest, LedgerExamples.OneMac, LedgerExamples.OneKey)

  const ON: Env := Stage1OnLedger.Env(Examples.ENV, LEDGER_ENV)

  function Genesis(): Ledger.Payload {
    Ledger.Payload(0, EmptyControl(Examples.IDENTITY), EMPTY_STATE, None)
  }

  function FirstWorld(): World {
    World(L.World(L.Remote(R1Examples.MAIN, 0, map[], map[0 := Ledger.Commit(None, Genesis())], [0]), map[]), map[])
  }

  lemma FirstIsInitial()
    ensures Initial(ON, FirstWorld()) && LedgerExamples.Provisioned(ON.ledger, FirstWorld().ledger)
  {
    hide ValidIdentity;
    Examples.IdentityIsValid();
    LedgerExamples.HexText();
    assert ValidState(EMPTY_STATE);
    assert ValidControl(EmptyControl(Examples.IDENTITY));
  }

  function FetchEvents(): seq<Event> {
    [Start(Examples.BeginFor("a")), ReadMain(0), ReadHead(0)]
  }

  // The world before the first load is accepted.
  function FetchingWorld(): World {
    World(L.Becomes(FirstWorld().ledger, Name(0), L.SawHead(R1Examples.MAIN, 0)), map[0 := Fetching(Examples.BeginFor("a"))])
  }

  lemma FetchReaches()
    ensures After(OnLedgerStepper(ON), FirstWorld(), FetchEvents()) == FetchingWorld()
  {
    hide Examples.BundleAt, EmptyControl, After;
    AfterThree(OnLedgerStepper(ON), FirstWorld(), Start(Examples.BeginFor("a")), ReadMain(0), ReadHead(0));
    assert map[Name(0) := L.SawMain(R1Examples.MAIN)][Name(0) := L.SawHead(R1Examples.MAIN, 0)] == map[Name(0) := L.SawHead(R1Examples.MAIN, 0)];
  }

  lemma FetchingIsSeen()
    ensures Seen(ON, FetchingWorld()) == Runtime.InitialWorld(Examples.IDENTITY, R1Examples.MAIN)
  {
    assert Workers(FetchingWorld().jobs) == map[];
  }

  lemma FetchingLoads()
    ensures Begins(ON, FetchingWorld(), 0)
  {
    hide LedgerExamples.Provisioned, Ledger.LoadOk, EmptyControl;
    FirstIsInitial();
    LedgerExamples.GenesisLoads(LEDGER_ENV, FirstWorld().ledger);
  }

  // The invocations see the first one begin.
  lemma LoadedIsSeen(w': World) returns (worker: Runtime.Worker)
    requires Inv(ON, FetchingWorld()) && w' == Step(ON, FetchingWorld(), FinishLoad(0))
    ensures Inv(ON, w') && 0 in w'.jobs && w'.jobs[0].Calling? && w'.jobs[0].worker == worker
    ensures worker.phase.Claiming? && worker.claimId == "i"
    ensures worker.phase.claimed == EmptyControl(Examples.IDENTITY).(claimId := Some("i"), claimExpiresAt := Some(INVOCATION_LEASE_SECONDS))
  {
    hide L.WorldInv, JobsOk, TagsOk, Inv, Step, Ledger.LoadOk, Stage.LedgerStep, EmptyControl, FetchingWorld, Begins;
    var w, seen := FetchingWorld(), Runtime.InitialWorld(Examples.IDENTITY, R1Examples.MAIN);
    FetchingLoads();
    FetchingIsSeen();
    FetchingBegin();
    EveryStep(ON, w, FinishLoad(0));
    StepsKeep(ON, w, w', Examples.BeginFor("a"));
    worker := LedgerRule.FirstWorker(seen);
    assert Seen(ON, w') == LedgerRule.Alone(seen.remote, worker);
    assert 0 in Workers(w'.jobs) && Workers(w'.jobs)[0] == worker;
  }

  lemma FetchingBegin()
    ensures 0 in FetchingWorld().jobs && FetchingWorld().jobs[0] == Fetching(Examples.BeginFor("a"))
  {
  }

  lemma LoadedClient(w': World)
    requires w' == Step(ON, FetchingWorld(), FinishLoad(0)) && 0 in w'.jobs && w'.jobs[0].Calling?
    ensures w'.ledger.remote == FirstWorld().ledger.remote && w'.jobs[0].base == 0 && ClientOf(w', 0) == L.Loaded(R1Examples.MAIN, 0)
  {
    hide Ledger.LoadOk, Runtime.Prepare, EmptyControl, Examples.BundleAt;
    FetchingLoads();
  }

  // What the ledger writes for a first claim.
  lemma FirstClaimIsWritten(req: Ledger.Request)
    requires req == Ledger.ClaimRequest("i", EmptyControl(Examples.IDENTITY).(claimId := Some("i"), claimExpiresAt := Some(INVOCATION_LEASE_SECONDS)))
    ensures var p := Ledger.NewPayload(LEDGER_ENV, 0, Genesis(), R1Examples.MAIN, req);
      p.Some? && p.value.control == req.control
  {
    hide Ledger.NewPayload, ValidIdentity, LedgerAppend.HexDigests;
    FirstIsInitial();
    LedgerAppend.AppendWritesTheRequest(LEDGER_ENV, 0, Genesis(), R1Examples.MAIN, req);
  }

  lemma FirstClaimIsReady(w': World)
    requires Inv(ON, FetchingWorld()) && w' == Step(ON, FetchingWorld(), FinishLoad(0))
    ensures ReadyToCall(ON, w', 0, 1)
  {
    hide Inv, Step, Ledger.LoadOk, Ledger.NewPayload, EmptyControl, FetchingWorld, LedgerExamples.Provisioned, Runtime.Prepare;
    var worker := LoadedIsSeen(w');
    LoadedClient(w');
    FirstIsInitial();
    LedgerExamples.GenesisLoads(LEDGER_ENV, FirstWorld().ledger);
    FirstClaimIsWritten(Ledger.ClaimRequest("i", worker.phase.claimed));
  }

  /** A claim does land: a run of the whole control plane from a provisioned ledger, in which an invocation loads, claims
      and moves the branch to its claim. */
  lemma FirstClaimLands() returns (events: seq<Event>, worlds: seq<World>)
    ensures IsRun(ON, events, worlds) && |events| == 9
    ensures var r := worlds[9].ledger.remote;
      && r.branch == 1 && 1 in r.commits && r.commits[1].payload.control.claimId == Some("i") && r.commits[1].payload.sequence == 1
  {
    hide Step, Initial, Inv, ReadyToCall, FetchingWorld, Trace, After, EmptyControl, Ledger.NewPayload, RequestOf;
    var start, load := FirstWorld(), [FinishLoad(0)];
    FirstIsInitial();
    events := FetchEvents() + (load + CallEvents(0, 1));
    worlds := Trace(OnLedgerStepper(ON), start, events);
    forall k | 0 <= k < |events| ensures StepOk(ON, events, worlds, k) {
      TraceSteps(OnLedgerStepper(ON), start, events, k);
    }
    TracePrefix(OnLedgerStepper(ON), start, FetchEvents(), load + CallEvents(0, 1));
    FetchReaches();
    EveryWorldHolds(ON, events, worlds, 3);
    var loaded := Step(ON, FetchingWorld(), FinishLoad(0));
    FirstClaimIsReady(loaded);
    TraceEnds(OnLedgerStepper(ON), start, events);
    AfterBoth(OnLedgerStepper(ON), start, FetchEvents(), load + CallEvents(0, 1));
    AfterBoth(OnLedgerStepper(ON), FetchingWorld(), load, CallEvents(0, 1));
    AfterLoad();
    CallGoesThrough(ON, loaded, 0, 1);
    FirstCallIs(loaded);
    var worker := LoadedIsSeen(loaded);
    FirstClaimIsWritten(Ledger.ClaimRequest("i", worker.phase.claimed));
    WrittenIs(LEDGER_ENV, 0, Genesis(), R1Examples.MAIN, Ledger.ClaimRequest("i", worker.phase.claimed));
  }

  lemma AfterLoad()
    ensures After(OnLedgerStepper(ON), FetchingWorld(), [FinishLoad(0)]) == Step(ON, FetchingWorld(), FinishLoad(0))
  {
    hide Step, FetchingWorld;
    assert [FinishLoad(0)][1..] == [];
    assert After(OnLedgerStepper(ON), Step(ON, FetchingWorld(), FinishLoad(0)), []) == Step(ON, FetchingWorld(), FinishLoad(0));
  }

  lemma FirstCallIs(w': World)
    requires Inv(ON, FetchingWorld()) && w' == Step(ON, FetchingWorld(), FinishLoad(0))
    ensures w'.ledger.remote.branch == 0 && w'.ledger.remote.commits == map[0 := Ledger.Commit(None, Genesis())]
    ensures 0 in w'.jobs && w'.jobs[0].Calling? && w'.jobs[0].worker.phase.Claiming?
    ensures RequestOf(ON.stage, w'.jobs[0].worker) == Some(Ledger.ClaimRequest("i", w'.jobs[0].worker.phase.claimed))
  {
    hide Inv, Step, EmptyControl, FetchingWorld;
    var worker := LoadedIsSeen(w');
    LoadedClient(w');
  }
}
