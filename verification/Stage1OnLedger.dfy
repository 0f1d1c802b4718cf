// The whole control plane: any number of Stage-1 invocations, each of whose adapter
// calls is a load, a tag push and a branch push on the journal-first ledger, with
// crashes and other clients' steps between any two remote operations.
module Stage1OnLedger {
  import opened Prelude
  import opened R1State
  import R1Engine
  import opened Stage1Control
  import Stage1Seal
  import opened Stage1Invariants
  import Runtime = Stage1Runtime
  import StageRuns = Stage1Runs
  import Stage = Stage1Ledger
  import opened LedgerTags
  import Ledger
  import LedgerChain
  import LedgerAppend
  import L = LedgerRuns
  import Safety = LedgerSafety

  type Sha = Ledger.Sha

  datatype Env = Env(stage: Stage1Seal.Env, ledger: Ledger.Env)

  // An invocation before its first snapshot, and one whose next call expects the head `base`.
  datatype Job =
    | Fetching(begin: Runtime.Event)
    | Calling(worker: Runtime.Worker, base: Sha)

  datatype World = World(ledger: L.World, jobs: map<nat, Job>)

  datatype Event =
    | Start(begin: Runtime.Event)
    | ReadMain(id: nat)
    | ReadHead(id: nat)
    | FinishLoad(id: nat)
    | CheckTag(id: nat, sha: Sha)
    | CheckMain(id: nat)
    | PushJournal(id: nat)
    | PushBranch(id: nat)
    | Crash(id: nat)
    | MoveMain(main: string)

  // The ledger client of an invocation.
  function Name(id: nat): string {
    Fill(id, 'w')
  }

  lemma NamesDiffer(a: nat, b: nat)
    ensures Name(a) == Name(b) <==> a == b
  {
    assert |Name(a)| == a && |Name(b)| == b;
  }

  function Main(env: Env): string {
    env.ledger.anchor.identity.canonicalMain
  }

  // The snapshot of a payload; heads are counted from one.
  function Snap(p: Ledger.Payload, main: string): Runtime.Remote {
    Runtime.Remote(p.sequence + 1, main, p.control.terminalCount, p.control, p.r1)
  }

  // The request of a worker's next call; none when it stops before the call.
  ghost function RequestOf(env: Stage1Seal.Env, w: Runtime.Worker): Option<Ledger.Request> {
    if !Runtime.Runnable(w) then None
    else match w.phase
      case Claiming(claimed) => Some(Ledger.ClaimRequest(w.claimId, claimed))
      case Releasing(_) =>
        (match Reconcile(w.snap.control, w.snap.r1)
         case Err(_) => None
         case Ok(finished) =>
           match ReleaseControl(finished, w.claimId)
           case Err(_) => None
           case Ok(released) => Some(Ledger.ReleaseRequest(w.claimId, released)))
      case _ =>
        var done := R1Engine.Apply(env.engine, w.sealed.canonicalMain, w.store, Runtime.PhaseCall(w));
        if done.1.Err? then None else Some(Ledger.PersistRequest(w.claimId, done.0))
  }

  // The worker after its call has returned the snapshot `snap`; none when that was its last.
  ghost function Resumed(env: Stage1Seal.Env, w: Runtime.Worker, snap: Runtime.Remote): Option<Runtime.Worker> {
    match w.phase
    case Claiming(_) => Some(w.(phase := Runtime.Inspecting, snap := snap, store := snap.r1))
    case Releasing(_) => None
    case _ =>
      var done := R1Engine.Apply(env.engine, w.sealed.canonicalMain, w.store, Runtime.PhaseCall(w));
      if done.1.Err? then None
      else
        var phase := Runtime.NextPhase(w, done.0, done.1.value);
        if phase.None? then None else Some(w.(phase := phase.value, snap := snap, store := done.0))
  }

  function ClientOf(w: World, id: nat): L.Client {
    L.ClientOf(w.ledger, Name(id))
  }

  ghost function Micro(env: Env, w: World, e: L.Event): World {
    w.(ledger := L.Step(env.ledger, w.ledger, e))
  }

  ghost function Dropped(env: Env, w: World, id: nat): World {
    World(L.Step(env.ledger, w.ledger, L.Crash(Name(id))), w.jobs - {id})
  }

  // A refusal ends the invocation.
  ghost function Settled(env: Env, w: World, id: nat): World {
    if ClientOf(w, id).Idle? then Dropped(env, w, id) else w
  }

  // The load under way accepts the head it read.
  ghost predicate Accepts(env: Env, w: World, id: nat) {
    var r, c := w.ledger.remote, ClientOf(w, id);
    c.SawHead? && Ledger.LoadOk(env.ledger, c.main, c.head, r.journal, r.commits)
  }

  // The first load of an invocation ends, and with it the local work up to the claim.
  ghost function Fetched(env: Env, w: World, id: nat): World
    requires id in w.jobs && w.jobs[id].Fetching? && w.jobs[id].begin.Begin? && Accepts(env, w, id)
  {
    var c, r := ClientOf(w, id), w.ledger.remote;
    var loaded := Micro(env, w, L.FinishLoad(Name(id)));
    var prepared := Runtime.Prepare(env.stage, Snap(r.commits[c.head].payload, c.main), w.jobs[id].begin);
    if prepared.None? then Dropped(env, loaded, id)
    else loaded.(jobs := w.jobs[id := Calling(prepared.value, c.head)])
  }

  ghost function Load(env: Env, w: World, id: nat): World {
    if id !in w.jobs || !ClientOf(w, id).SawHead? then w
    else if !Accepts(env, w, id) then Dropped(env, w, id)
    else match w.jobs[id]
      case Fetching(begin) => if begin.Begin? then Fetched(env, w, id) else Dropped(env, w, id)
      case Calling(_, base) =>
        if ClientOf(w, id).head == base then Micro(env, w, L.FinishLoad(Name(id))) else Dropped(env, w, id)
  }

  ghost function Build(env: Env, w: World, id: nat, sha: Sha): World {
    var c := ClientOf(w, id);
    if id !in w.jobs || !w.jobs[id].Calling? || !c.Loaded? || c.head != w.jobs[id].base then w
    else
      var req := RequestOf(env.stage, w.jobs[id].worker);
      if req.None? then Dropped(env, w, id)
      else Settled(env, Micro(env, w, L.CheckTag(Name(id), req.value, sha)), id)
  }

  // The branch push of `id` wins.
  predicate Lands(w: World, id: nat) {
    && id in w.jobs && w.jobs[id].Calling?
    && ClientOf(w, id).MainSeenAgain? && w.ledger.remote.branch == ClientOf(w, id).head
    && ClientOf(w, id).sha in w.ledger.remote.commits
  }

  ghost function Landed(env: Env, w: World, id: nat): World
    requires Lands(w, id)
  {
    var sha := ClientOf(w, id).sha;
    var pushed := Micro(env, w, L.PushBranch(Name(id)));
    var next := Resumed(env.stage, w.jobs[id].worker, Snap(w.ledger.remote.commits[sha].payload, Main(env)));
    if next.None? then Dropped(env, pushed, id) else pushed.(jobs := w.jobs[id := Calling(next.value, sha)])
  }

  ghost function Step(env: Env, w: World, e: Event): World {
    match e
    case Start(begin) =>
      if begin.Begin? && begin.id !in w.jobs then w.(jobs := w.jobs[begin.id := Fetching(begin)]) else w
    case ReadMain(id) => if id in w.jobs then Micro(env, w, L.ReadMain(Name(id))) else w
    case ReadHead(id) => if id in w.jobs then Micro(env, w, L.ReadHead(Name(id))) else w
    case FinishLoad(id) => Load(env, w, id)
    case CheckTag(id, sha) => Build(env, w, id, sha)
    case CheckMain(id) =>
      if id in w.jobs && (ClientOf(w, id).TagFree? || ClientOf(w, id).Journaled?)
      then Settled(env, Micro(env, w, L.CheckMain(Name(id))), id) else w
    case PushJournal(id) =>
      if id in w.jobs && ClientOf(w, id).MainSeen? then Settled(env, Micro(env, w, L.PushJournal(Name(id))), id) else w
    case PushBranch(id) =>
      if Lands(w, id) then Landed(env, w, id)
      else if id in w.jobs && ClientOf(w, id).MainSeenAgain? then Dropped(env, w, id)
      else w
    case Crash(id) => Dropped(env, w, id)
    case MoveMain(main) => Micro(env, w, L.MoveMain(main))
  }

  // A provisioned ledger whose genesis is the empty control and the empty state.
  ghost predicate Initial(env: Env, w: World) {
    && L.Initial(env.ledger, w.ledger) && w.jobs == map[]
    && var p := w.ledger.remote.commits[env.ledger.anchor.initialHead].payload;
    p.control == EmptyControl(env.ledger.anchor.identity) && p.r1 == EMPTY_STATE
  }

  ghost predicate StepOk(env: Env, events: seq<Event>, worlds: seq<World>, k: nat)
    requires k < |events| == |worlds| - 1
  {
    worlds[k + 1] == Step(env, worlds[k], events[k])
  }

  ghost predicate IsRun(env: Env, events: seq<Event>, worlds: seq<World>) {
    && |events| == |worlds| - 1
    && Initial(env, worlds[0])
    && forall k {:trigger StepOk(env, events, worlds, k)} | 0 <= k < |events| :: StepOk(env, events, worlds, k)
  }
}
