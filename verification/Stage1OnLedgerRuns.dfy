// The composed control plane over whole runs: what the invocations see is a run of
// Stage 1 under the ledger's rule, and no sequence ever gets two tags.
module Stage1OnLedgerRuns {
  import opened Prelude
  import opened R1State
  import R1Engine
  import opened Stage1Control
  import Stage1Seal
  import opened Stage1Invariants
  import Runtime = Stage1Runtime
  import StageRuns = Stage1Runs
  import Stage = Stage1Ledger
  import opened LedgerTags
  import Ledger
  import LedgerChain
  import LedgerAppend
  import L = LedgerRuns
  import Safety = LedgerSafety
  import opened Stage1OnLedger

  // ---- One call, from the payload it starts on to the payload it writes ----

  lemma WrittenIs(env: Ledger.Env, base: Sha, prev: Ledger.Payload, main: string, req: Ledger.Request)
    requires Ledger.NewPayload(env, base, prev, main, req).Some?
    ensures var p := Ledger.NewPayload(env, base, prev, main, req).value;
      && p.sequence == prev.sequence + 1
      && Ledger.Semantics(prev, p, Ledger.OperationOf(req), req.claimId)
      && (req.ClaimRequest? ==> p.control == req.control && p.r1 == prev.r1)
      && (req.ReleaseRequest? ==> p.control == req.control && p.r1 == prev.r1 && prev.control.claimId == Some(req.claimId))
      && (req.PersistRequest? ==> p.control == prev.control && p.r1 == req.r1 && prev.control.claimId == Some(req.claimId) && ValidState(req.r1))
      && main == env.anchor.identity.canonicalMain
  {
    hide ValidControl, ValidState, Ledger.Semantics, Ledger.MakeAuth, Ledger.IdentityPreserved;
    LedgerAppend.WrittenAuthVerifies(env, base, prev, main, req);
  }

  // Of two payloads only control and state count.
  lemma SemanticsOfSnaps(prev: Ledger.Payload, p: Ledger.Payload, main: string, op: Ledger.Operation, claimId: string)
    requires Ledger.Semantics(prev, p, op, claimId)
    ensures Ledger.Semantics(Stage.PayloadOf(Snap(prev, main)), Stage.PayloadOf(Snap(p, main)), op, claimId)
    ensures ValidControl(p.control) && prev.control.terminalCount <= p.control.terminalCount
    ensures op == Ledger.ClaimInvocation ==> p.control.terminalCount == prev.control.terminalCount
    ensures op == Ledger.ReleaseInvocation ==> p.control.claimId.None?
  {
    hide ValidControl;
    if op == Ledger.ClaimInvocation {
      assert Ledger.WithoutClaim(prev.control).terminalCount == Ledger.WithoutClaim(p.control).terminalCount;
    }
  }

  // What the adapter makes of the call that wrote `p` on `prev`.
  ghost predicate LandsAs(env: Stage1Seal.Env, w: Runtime.Worker, r: Runtime.Remote, r': Runtime.Remote) {
    && Runtime.Runnable(w) && r' != r && !Stage.Refused(env, r, w)
    && var next := Resumed(env, w, r');
    Runtime.Take(env, r, w) ==
      if next.Some? then Runtime.Continues(r', next.value)
      else if w.phase.Releasing? then Runtime.Released(r') else Runtime.Stopped(r')
  }

  lemma ClaimLands(env: Stage1Seal.Env, w: Runtime.Worker, prev: Ledger.Payload, p: Ledger.Payload, main: string)
    requires w.phase.Claiming? && w.snap == Snap(prev, main) && p.control == w.phase.claimed && p.r1 == prev.r1
    requires p.sequence == prev.sequence + 1 && Ledger.Semantics(prev, p, Ledger.ClaimInvocation, w.claimId)
    ensures LandsAs(env, w, Snap(prev, main), Snap(p, main))
  {
    hide ValidControl, Ledger.Semantics;
    SemanticsOfSnaps(prev, p, main, Ledger.ClaimInvocation, w.claimId);
  }

  lemma ReleaseLands(env: Stage1Seal.Env, w: Runtime.Worker, prev: Ledger.Payload, p: Ledger.Payload, main: string)
    requires w.phase.Releasing? && w.snap == Snap(prev, main) && prev.control.claimId == Some(w.claimId) && p.r1 == prev.r1
    requires RequestOf(env, w) == Some(Ledger.ReleaseRequest(w.claimId, p.control))
    requires p.sequence == prev.sequence + 1 && Ledger.Semantics(prev, p, Ledger.ReleaseInvocation, w.claimId)
    ensures LandsAs(env, w, Snap(prev, main), Snap(p, main))
  {
    hide ValidControl, Ledger.Semantics, Reconcile, ReleaseControl;
    SemanticsOfSnaps(prev, p, main, Ledger.ReleaseInvocation, w.claimId);
  }

  lemma PersistLands(env: Stage1Seal.Env, w: Runtime.Worker, prev: Ledger.Payload, p: Ledger.Payload, main: string)
    requires !w.phase.Claiming? && !w.phase.Releasing? && w.snap == Snap(prev, main)
    requires prev.control.claimId == Some(w.claimId) && p.control == prev.control && ValidState(p.r1)
    requires RequestOf(env, w) == Some(Ledger.PersistRequest(w.claimId, p.r1))
    requires p.sequence == prev.sequence + 1 && Ledger.Semantics(prev, p, Ledger.PersistR1State, w.claimId)
    ensures LandsAs(env, w, Snap(prev, main), Snap(p, main))
  {
    hide ValidControl, ValidState, Ledger.Semantics, R1Engine.Apply, Runtime.PhaseCall, Runtime.NextPhase;
    SemanticsOfSnaps(prev, p, main, Ledger.PersistR1State, w.claimId);
  }

  lemma CallLands(env: Env, w: Runtime.Worker, base: Sha, prev: Ledger.Payload, p: Ledger.Payload)
    requires w.snap == Snap(prev, Main(env)) && RequestOf(env.stage, w).Some?
    requires Ledger.NewPayload(env.ledger, base, prev, Main(env), RequestOf(env.stage, w).value) == Some(p)
    ensures LandsAs(env.stage, w, Snap(prev, Main(env)), Snap(p, Main(env)))
  {
    hide Ledger.NewPayload, Ledger.Semantics, LandsAs, Reconcile, ReleaseControl, R1Engine.Apply, Runtime.PhaseCall, ValidState;
    WrittenIs(env.ledger, base, prev, Main(env), RequestOf(env.stage, w).value);
    match w.phase
    case Claiming(_) => ClaimLands(env.stage, w, prev, p, Main(env));
    case Releasing(_) => ReleaseLands(env.stage, w, prev, p, Main(env));
    case _ => PersistLands(env.stage, w, prev, p, Main(env));
  }

  // ---- The terminal count a head's successors are tagged with ----

  ghost function Due(p: Ledger.Payload): nat {
    if Reconcile(p.control, p.r1).Ok? then Reconcile(p.control, p.r1).value.terminalCount else 0
  }

  // What a worker knows of its snapshot, in step with the head or not.
  ghost predicate SnapOk(w: Runtime.Worker) {
    && Reconcile(w.snap.control, w.snap.r1).Ok?
    && (w.phase.Claiming? ==> ClaimPrepared(w))
    && (!w.phase.Claiming? && !w.phase.Releasing? ==> CountedExactly(w.snap.control, w.snap.r1))
  }

  lemma CountedIsDue(p: Ledger.Payload)
    requires Reconcile(p.control, p.r1).Ok? && CountedExactly(p.control, p.r1)
    ensures Due(p) == p.control.terminalCount
  {
    hide ValidIdentity, ValidState, ReceiptIds, Reconcile, Elements;
    StageRuns.ReconcileGuards(p.control, p.r1);
    ReconcileIs(p.control, p.r1);
    var out := Reconcile(p.control, p.r1).value;
    assert Elements(out.counted) == Elements(p.control.counted);
    ElementsSize(p.control.counted);
    ElementsSize(out.counted);
    assert out.terminalCount == |out.counted|;
  }

  lemma ClaimCounts(w: Runtime.Worker)
    requires w.phase.Claiming? && ClaimPrepared(w)
    ensures w.phase.claimed.terminalCount == Reconcile(w.snap.control, w.snap.r1).value.terminalCount
  {
    hide Reconcile, ValidControl;
  }

  lemma ReleaseCounts(env: Stage1Seal.Env, w: Runtime.Worker)
    requires w.phase.Releasing? && RequestOf(env, w).Some?
    ensures RequestOf(env, w).value.ReleaseRequest? && Reconcile(w.snap.control, w.snap.r1).Ok?
    ensures RequestOf(env, w).value.control.terminalCount == Reconcile(w.snap.control, w.snap.r1).value.terminalCount
  {
    hide Reconcile, ValidControl;
  }

  // Whatever call a worker makes, its payload has the count that is due after the snapshot.
  lemma WrittenCount(env: Env, w: Runtime.Worker, base: Sha, prev: Ledger.Payload, p: Ledger.Payload)
    requires w.snap == Snap(prev, Main(env)) && SnapOk(w) && RequestOf(env.stage, w).Some?
    requires Ledger.NewPayload(env.ledger, base, prev, Main(env), RequestOf(env.stage, w).value) == Some(p)
    ensures p.control.terminalCount == Due(prev)
  {
    hide Ledger.NewPayload, Ledger.Semantics, Reconcile, ReleaseControl, ValidState, R1Engine.Apply, Runtime.PhaseCall, ClaimPrepared, CountedExactly;
    WrittenIs(env.ledger, base, prev, Main(env), RequestOf(env.stage, w).value);
    match w.phase
    case Claiming(_) => ClaimCounts(w);
    case Releasing(_) => ReleaseCounts(env.stage, w);
    case _ => CountedIsDue(prev);
  }

  // ---- What every step keeps ----

  // `sha` is what the call of `w` wrote on `base`.
  ghost predicate Wrote(env: Env, r: L.Remote, w: Runtime.Worker, base: Sha, sha: Sha) {
    && RequestOf(env.stage, w).Some? && base in r.commits && sha in r.commits
    && Ledger.NewPayload(env.ledger, base, r.commits[base].payload, Main(env), RequestOf(env.stage, w).value) == Some(r.commits[sha].payload)
  }

  ghost predicate ClientFits(env: Env, r: L.Remote, w: Runtime.Worker, base: Sha, c: L.Client) {
    match c
    case TagFree(_, head, req, _) => head == base && RequestOf(env.stage, w) == Some(req)
    case MainSeen(_, head, req, _) => head == base && RequestOf(env.stage, w) == Some(req)
    case Journaled(head, sha) => head == base && Wrote(env, r, w, base, sha)
    case MainSeenAgain(head, sha) => head == base && Wrote(env, r, w, base, sha)
    case _ => true
  }

  ghost predicate WorkerFits(env: Env, r: L.Remote, w: Runtime.Worker, base: Sha) {
    base in r.heads && base in r.commits && w.snap == Snap(r.commits[base].payload, Main(env)) && SnapOk(w)
  }

  predicate Early(c: L.Client) {
    c.Idle? || c.SawMain? || c.SawHead?
  }

  ghost predicate JobFits(env: Env, r: L.Remote, id: nat, job: Option<Job>, c: L.Client) {
    match job
    case None => c.Idle?
    case Some(Fetching(begin)) => begin.Begin? && begin.id == id && Early(c)
    case Some(Calling(w, base)) => WorkerFits(env, r, w, base) && ClientFits(env, r, w, base, c)
  }

  function JobOf(w: World, id: nat): Option<Job> {
    if id in w.jobs then Some(w.jobs[id]) else None
  }

  ghost predicate JobOk(env: Env, w: World, id: nat) {
    JobFits(env, w.ledger.remote, id, JobOf(w, id), ClientOf(w, id))
  }

  ghost predicate TagOk(env: Env, r: L.Remote, ref: string)
    requires ref in r.journal
  {
    && r.journal[ref] in r.commits && r.commits[r.journal[ref]].parent.Some?
    && var base, p := r.commits[r.journal[ref]].parent.value, r.commits[r.journal[ref]].payload;
    && base in r.heads && base in r.commits
    && p.sequence == r.commits[base].payload.sequence + 1 && p.control.terminalCount == Due(r.commits[base].payload)
  }

  ghost predicate TagsOk(env: Env, r: L.Remote) {
    forall ref {:trigger TagOk(env, r, ref)} | ref in r.journal :: TagOk(env, r, ref)
  }

  ghost predicate JobsOk(env: Env, w: World) {
    forall id {:trigger JobOk(env, w, id)} :: JobOk(env, w, id)
  }

  // ---- The Stage-1 world that the invocations see ----

  function HeadPayload(env: Env, r: L.Remote): Ledger.Payload {
    if r.branch in r.commits then r.commits[r.branch].payload
    else Ledger.Payload(0, EmptyControl(env.ledger.anchor.identity), EMPTY_STATE, None)
  }

  function Workers(jobs: map<nat, Job>): map<nat, Runtime.Worker> {
    map id | id in jobs && jobs[id].Calling? :: jobs[id].worker
  }

  function Seen(env: Env, w: World): Runtime.World {
    Runtime.World(Snap(HeadPayload(env, w.ledger.remote), Main(env)), Workers(w.jobs))
  }

  ghost predicate Inv(env: Env, w: World) {
    L.WorldInv(env.ledger, w.ledger) && JobsOk(env, w) && TagsOk(env, w.ledger.remote) && WorldInv(env.stage, Seen(env, w))
  }

  // ---- Growth and frames ----

  ghost predicate Grows(r: L.Remote, r': L.Remote) {
    && (forall h | h in r.commits :: h in r'.commits && r'.commits[h] == r.commits[h])
    && (forall h | h in r.heads :: h in r'.heads)
    && (forall ref | ref in r.journal :: ref in r'.journal && r'.journal[ref] == r.journal[ref])
  }

  lemma LedgerGrows(env: Ledger.Env, lw: L.World, e: L.Event)
    ensures Grows(lw.remote, L.Step(env, lw, e).remote)
  {
    hide Ledger.LoadOk, Ledger.NewPayload, Ledger.TagFor;
  }

  function ActorOf(e: L.Event): string {
    match e
    case MoveMain(_) => ""
    case ReadMain(who) => who
    case ReadHead(who) => who
    case FinishLoad(who) => who
    case CheckTag(who, _, _) => who
    case CheckMain(who) => who
    case PushJournal(who) => who
    case PushBranch(who) => who
    case Crash(who) => who
  }

  lemma OthersStay(env: Ledger.Env, lw: L.World, e: L.Event, other: string)
    requires e.MoveMain? || ActorOf(e) != other
    ensures L.ClientOf(L.Step(env, lw, e), other) == L.ClientOf(lw, other)
  {
    hide Ledger.LoadOk, Ledger.NewPayload, Ledger.TagFor;
  }

  lemma GrownFits(env: Env, r: L.Remote, r': L.Remote, id: nat, job: Option<Job>, c: L.Client)
    requires JobFits(env, r, id, job, c) && Grows(r, r')
    ensures JobFits(env, r', id, job, c)
  {
    hide SnapOk, RequestOf, Ledger.NewPayload;
  }

  lemma GrownTags(env: Env, r: L.Remote, r': L.Remote)
    requires TagsOk(env, r) && Grows(r, r') && r'.journal == r.journal
    ensures TagsOk(env, r')
  {
    hide Due;
    forall ref | ref in r'.journal ensures TagOk(env, r', ref) {
      assert TagOk(env, r, ref);
    }
  }

  // Only `id` acted.
  ghost predicate OnlyActor(w: World, w': World, id: nat) {
    && Grows(w.ledger.remote, w'.ledger.remote)
    && forall other {:trigger ClientOf(w', other)} {:trigger JobOf(w', other)} | other != id ::
         ClientOf(w', other) == ClientOf(w, other) && JobOf(w', other) == JobOf(w, other)
  }

  lemma JobsKept(env: Env, w: World, w': World, id: nat)
    requires JobsOk(env, w) && OnlyActor(w, w', id) && JobOk(env, w', id)
    ensures JobsOk(env, w')
  {
    hide JobFits, Grows;
    forall other ensures JobOk(env, w', other) {
      if other != id {
        assert JobOk(env, w, other);
        GrownFits(env, w.ledger.remote, w'.ledger.remote, other, JobOf(w, other), ClientOf(w, other));
      }
    }
  }

  // The parts of a step's effect that the invariant and the refinement ask for.
  ghost predicate Steps(env: Env, w: World, w': World, e: Runtime.Event) {
    && L.WorldInv(env.ledger, w'.ledger) && JobsOk(env, w') && TagsOk(env, w'.ledger.remote)
    && Seen(env, w') == Stage.LedgerStep(env.stage, Seen(env, w), e)
  }

  function Nothing(env: Env): Runtime.Event {
    Runtime.MainMoves(Main(env))
  }

  lemma NothingHappens(env: Env, w: World, w': World)
    requires Workers(w'.jobs) == Workers(w.jobs)
    requires HeadPayload(env, w'.ledger.remote) == HeadPayload(env, w.ledger.remote)
    ensures Seen(env, w') == Stage.LedgerStep(env.stage, Seen(env, w), Nothing(env))
  {
  }

  lemma WorkerGoes(jobs: map<nat, Job>, id: nat)
    ensures Workers(jobs - {id}) == Workers(jobs) - {id}
  {
  }

  lemma WorkerCrashes(env: Env, w: World, w': World, id: nat)
    requires w'.jobs == w.jobs - {id} && HeadPayload(env, w'.ledger.remote) == HeadPayload(env, w.ledger.remote)
    ensures Seen(env, w') == Stage.LedgerStep(env.stage, Seen(env, w), Runtime.Crash(id))
  {
    WorkerGoes(w.jobs, id);
  }

  // A step on the ledger that leaves commits, heads and journal alone.
  predicate Quiet(r: L.Remote, r': L.Remote) {
    r'.commits == r.commits && r'.heads == r.heads && r'.journal == r.journal && r'.branch == r.branch
  }

  lemma QuietStep(env: Env, w: World, w': World, e: L.Event, id: nat)
    requires Inv(env, w) && w'.ledger == L.Step(env.ledger, w.ledger, e) && Quiet(w.ledger.remote, w'.ledger.remote)
    requires e.MoveMain? || ActorOf(e) == Name(id)
    requires forall other | other != id :: JobOf(w', other) == JobOf(w, other)
    requires JobOk(env, w', id)
    ensures L.WorldInv(env.ledger, w'.ledger) && JobsOk(env, w') && TagsOk(env, w'.ledger.remote)
    ensures HeadPayload(env, w'.ledger.remote) == HeadPayload(env, w.ledger.remote)
  {
    hide L.WorldInv, L.Step, JobFits, WorldInv, TagOk;
    L.StepKeeps(env.ledger, w.ledger, e);
    LedgerGrows(env.ledger, w.ledger, e);
    GrownTags(env, w.ledger.remote, w'.ledger.remote);
    forall other | other != id ensures ClientOf(w', other) == ClientOf(w, other) {
      NamesDiffer(other, id);
      OthersStay(env.ledger, w.ledger, e, Name(other));
    }
    JobsKept(env, w, w', id);
  }

  lemma DropSteps(env: Env, w: World, id: nat)
    requires Inv(env, w)
    ensures Steps(env, w, Dropped(env, w, id), Runtime.Crash(id))
  {
    hide L.WorldInv, JobsOk, TagsOk, WorldInv, Stage.LedgerStep;
    var w' := Dropped(env, w, id);
    assert JobOk(env, w', id);
    QuietStep(env, w, w', L.Crash(Name(id)), id);
    WorkerCrashes(env, w, w', id);
  }

  // A drop after a quiet step is a drop.
  lemma DropAfter(env: Env, w: World, mid: World, id: nat)
    requires Inv(env, w) && Quiet(w.ledger.remote, mid.ledger.remote) && mid.ledger.remote.main == w.ledger.remote.main
    requires mid.jobs == w.jobs && mid.ledger.clients[Name(id) := L.Idle] == w.ledger.clients[Name(id) := L.Idle]
    ensures Dropped(env, mid, id) == Dropped(env, w, id)
  {
    hide Inv;
  }

  // One quiet step of a job that stays.
  lemma JobSteps(env: Env, w: World, e: L.Event, id: nat)
    requires Inv(env, w) && ActorOf(e) == Name(id) && !e.MoveMain?
    requires var w' := Micro(env, w, e); Quiet(w.ledger.remote, w'.ledger.remote) && JobOk(env, w', id)
    ensures Steps(env, w, Micro(env, w, e), Nothing(env))
  {
    hide L.WorldInv, JobsOk, TagsOk, WorldInv, Stage.LedgerStep, L.Step, JobFits;
    var w' := Micro(env, w, e);
    QuietStep(env, w, w', e, id);
    NothingHappens(env, w, w');
  }

  lemma ReadMainSteps(env: Env, w: World, id: nat)
    requires Inv(env, w) && id in w.jobs
    ensures Steps(env, w, Micro(env, w, L.ReadMain(Name(id))), Nothing(env))
  {
    hide L.WorldInv, TagsOk, WorldInv, WorkerFits, Wrote, RequestOf;
    assert JobOk(env, w, id);
    JobSteps(env, w, L.ReadMain(Name(id)), id);
  }

  lemma ReadHeadSteps(env: Env, w: World, id: nat)
    requires Inv(env, w) && id in w.jobs
    ensures Steps(env, w, Micro(env, w, L.ReadHead(Name(id))), Nothing(env))
  {
    hide L.WorldInv, TagsOk, WorldInv, WorkerFits, Wrote, RequestOf;
    assert JobOk(env, w, id);
    JobSteps(env, w, L.ReadHead(Name(id)), id);
  }

  lemma MoveMainSteps(env: Env, w: World, main: string)
    requires Inv(env, w)
    ensures Steps(env, w, Micro(env, w, L.MoveMain(main)), Nothing(env))
  {
    hide L.WorldInv, TagsOk, WorldInv, JobFits;
    var w' := Micro(env, w, L.MoveMain(main));
    assert JobOk(env, w, 0);
    LedgerGrows(env.ledger, w.ledger, L.MoveMain(main));
    GrownFits(env, w.ledger.remote, w'.ledger.remote, 0, JobOf(w, 0), ClientOf(w, 0));
    QuietStep(env, w, w', L.MoveMain(main), 0);
    NothingHappens(env, w, w');
  }

  lemma StartSteps(env: Env, w: World, begin: Runtime.Event)
    requires Inv(env, w) && begin.Begin? && begin.id !in w.jobs
    ensures Steps(env, w, w.(jobs := w.jobs[begin.id := Fetching(begin)]), Nothing(env))
  {
    hide L.WorldInv, TagsOk, WorldInv, WorkerFits, Wrote, RequestOf, Stage.LedgerStep;
    var w' := w.(jobs := w.jobs[begin.id := Fetching(begin)]);
    assert JobOk(env, w, begin.id);
    assert JobOk(env, w', begin.id);
    JobsKept(env, w, w', begin.id);
    NothingHappens(env, w, w');
  }

  // ---- Loading ----

  // A head that a load accepts is the branch, because every later head would have its own tag.
  lemma LoadedHeadIsBranch(env: Ledger.Env, r: L.Remote, main: string, head: Sha)
    requires L.RemoteInv(env, r) && head in r.heads && Ledger.LoadOk(env, main, head, r.journal, r.commits)
    ensures head == r.branch && main == env.anchor.identity.canonicalMain && head in r.commits
  {
    hide L.RemoteInv, Ledger.ChainOk, Ledger.JournalIs, ParseTag, PrintTag, Ledger.ValidPayload, Ledger.HighWater;
    L.HeadWithItsSequence(env, r, head);
    var n := r.commits[head].payload.sequence;
    if n + 1 < |r.heads| {
      var entries := LedgerAppend.LoadedEntries(env, main, head, r.journal, r.commits);
      LaterHeadIsTagged(env, r, n + 1, entries);
    }
    Safety.LastHead(env, r);
  }

  lemma LaterHeadIsTagged(env: Ledger.Env, r: L.Remote, n: nat, entries: seq<Ledger.Entry>)
    requires L.RemoteInv(env, r) && 0 < n < |r.heads|
    ensures !(|entries| < n && Ledger.JournalIs(Ledger.Key(env), r.journal, entries))
  {
    hide ParseTag, PrintTag, Ledger.InitialOk, L.WrittenOn;
    assert L.HeadOk(env, r, n);
    var p := r.commits[r.heads[n]].payload;
    var tag := Ledger.TagFor(env, p);
    assert L.TargetOk(env, r, tag);
    Safety.SequenceFits(p);
    TagRoundTrip(Ledger.Key(env), n, p.control.terminalCount);
    assert Ledger.JournalIs(Ledger.Key(env), r.journal, entries) ==> Ledger.RefEntered(Ledger.Key(env), r.journal, entries, tag);
  }

  lemma PreparedFits(env: Env, w: World, r: L.Remote, head: Sha, begin: Runtime.Event)
    requires begin.Begin? && head == r.branch && head in r.heads && head in r.commits && r == w.ledger.remote && Inv(env, w)
    requires Runtime.Prepare(env.stage, Snap(r.commits[head].payload, Main(env)), begin).Some?
    ensures WorkerFits(env, r, Runtime.Prepare(env.stage, Snap(r.commits[head].payload, Main(env)), begin).value, head)
  {
    hide L.WorldInv, JobsOk, TagsOk, Reconcile, RemoteInv, Stage1Seal.Seal, Stage1Seal.SealCovers;
    var snap := Snap(r.commits[head].payload, Main(env));
    StageRuns.BeginKeeps(env.stage, snap, begin);
  }

  lemma FetchedSteps(env: Env, w: World, id: nat)
    requires Inv(env, w) && id in w.jobs && w.jobs[id].Fetching? && w.jobs[id].begin.Begin? && Accepts(env, w, id)
    ensures Steps(env, w, Fetched(env, w, id), w.jobs[id].begin)
  {
    hide L.WorldInv, L.RemoteInv, TagsOk, WorldInv, WorkerFits, Ledger.LoadOk, Runtime.Prepare;
    var c, r, begin := ClientOf(w, id), w.ledger.remote, w.jobs[id].begin;
    assert JobOk(env, w, id);
    assert c.head in r.heads && L.RemoteInv(env.ledger, r) by { ClientHead(env, w, id); }
    LoadedHeadIsBranch(env.ledger, r, c.main, c.head);
    var loaded := Micro(env, w, L.FinishLoad(Name(id)));
    var prepared := Runtime.Prepare(env.stage, Snap(r.commits[c.head].payload, c.main), begin);
    if prepared.None? {
      DropAfter(env, w, loaded, id);
      DropSteps(env, w, id);
      assert Stage.LedgerStep(env.stage, Seen(env, w), begin) == Seen(env, w);
      assert Workers(w.jobs) - {id} == Workers(w.jobs);
    } else {
      PreparedFits(env, w, r, c.head, begin);
      var w' := Fetched(env, w, id);
      assert JobOk(env, w', id);
      QuietStep(env, w, w', L.FinishLoad(Name(id)), id);
      assert Workers(w'.jobs) == Workers(w.jobs)[id := prepared.value];
    }
  }

  lemma ClientHead(env: Env, w: World, id: nat)
    requires L.WorldInv(env.ledger, w.ledger)
    ensures L.RemoteInv(env.ledger, w.ledger.remote)
    ensures var c := ClientOf(w, id); !c.Idle? && !c.SawMain? ==> c.head in w.ledger.remote.heads
  {
    hide L.RemoteInv;
    assert L.ClientOk(env.ledger, w.ledger.remote, L.ClientOf(w.ledger, Name(id)));
  }

  // ---- Building and pushing ----

  lemma BuildSteps(env: Env, w: World, id: nat, sha: Sha)
    requires Inv(env, w) && id in w.jobs && w.jobs[id].Calling? && ClientOf(w, id).Loaded? && ClientOf(w, id).head == w.jobs[id].base
    ensures Steps(env, w, Build(env, w, id, sha), if id in Build(env, w, id, sha).jobs then Nothing(env) else Runtime.Crash(id))
  {
    hide L.WorldInv, TagsOk, WorldInv, WorkerFits, RequestOf, Ledger.NewPayload, Steps;
    assert JobOk(env, w, id);
    var req := RequestOf(env.stage, w.jobs[id].worker);
    DropSteps(env, w, id);
    if req.Some? {
      var e := L.CheckTag(Name(id), req.value, sha);
      var mid := Micro(env, w, e);
      if ClientOf(mid, id).Idle? {
        DropAfter(env, w, mid, id);
      } else {
        JobSteps(env, w, e, id);
      }
    }
  }

  lemma CheckSteps(env: Env, w: World, id: nat)
    requires Inv(env, w) && id in w.jobs && (ClientOf(w, id).TagFree? || ClientOf(w, id).Journaled?)
    ensures var w' := Settled(env, Micro(env, w, L.CheckMain(Name(id))), id);
      Steps(env, w, w', if id in w'.jobs then Nothing(env) else Runtime.Crash(id))
  {
    hide L.WorldInv, TagsOk, WorldInv, WorkerFits, RequestOf, Ledger.NewPayload, Wrote, Steps;
    assert JobOk(env, w, id);
    var e := L.CheckMain(Name(id));
    var mid := Micro(env, w, e);
    DropSteps(env, w, id);
    if ClientOf(mid, id).Idle? {
      DropAfter(env, w, mid, id);
    } else {
      JobSteps(env, w, e, id);
    }
  }

  // The tag push goes through.
  lemma TagSteps(env: Env, w: World, id: nat)
    requires Inv(env, w) && id in w.jobs && ClientOf(w, id).MainSeen?
    requires ClientOf(Micro(env, w, L.PushJournal(Name(id))), id).Journaled?
    ensures Steps(env, w, Micro(env, w, L.PushJournal(Name(id))), Nothing(env))
  {
    hide L.WorldInv, L.Step, WorldInv, WorkerFits, RequestOf, Ledger.NewPayload, JobFits, Stage.LedgerStep, TagOk;
    var e, c, r := L.PushJournal(Name(id)), ClientOf(w, id), w.ledger.remote;
    var w' := Micro(env, w, e);
    assert JobOk(env, w, id);
    L.StepKeeps(env.ledger, w.ledger, e);
    LedgerGrows(env.ledger, w.ledger, e);
    TagWrites(env, w, id);
    BranchKnown(env, w);
    forall other | other != id ensures ClientOf(w', other) == ClientOf(w, other) {
      NamesDiffer(other, id);
      OthersStay(env.ledger, w.ledger, e, Name(other));
    }
    JobsKept(env, w, w', id);
    NothingHappens(env, w, w');
  }

  lemma BranchKnown(env: Env, w: World)
    requires L.WorldInv(env.ledger, w.ledger)
    ensures var r := w.ledger.remote; r.branch in r.commits && r.branch in r.heads && r.commits[r.branch].payload.sequence == |r.heads| - 1
  {
    hide L.RemoteInv;
    Safety.LastHead(env.ledger, w.ledger.remote);
  }

  lemma TagWrites(env: Env, w: World, id: nat)
    requires Inv(env, w) && id in w.jobs && ClientOf(w, id).MainSeen?
    requires ClientOf(Micro(env, w, L.PushJournal(Name(id))), id).Journaled?
    ensures var w' := Micro(env, w, L.PushJournal(Name(id)));
      JobOk(env, w', id) && TagsOk(env, w'.ledger.remote) && w'.ledger.remote.branch == w.ledger.remote.branch
  {
    hide L.WorldInv, WorldInv, SnapOk, RequestOf, Ledger.NewPayload, Ledger.TagFor, Due;
    var c, r := ClientOf(w, id), w.ledger.remote;
    assert JobOk(env, w, id);
    var base, worker := w.jobs[id].base, w.jobs[id].worker;
    var p := L.Written(env.ledger, r, c).value;
    WrittenIs(env.ledger, base, r.commits[base].payload, c.main, c.req);
    WrittenCount(env, worker, base, r.commits[base].payload, p);
    var r' := Micro(env, w, L.PushJournal(Name(id))).ledger.remote;
    assert r'.commits[c.sha] == Ledger.Commit(Some(base), p);
    BaseStays(env, w, id);
    forall ref | ref in r'.journal ensures TagOk(env, r', ref) {
      if ref in r.journal {
        assert TagOk(env, r, ref);
      }
    }
  }

  // A new commit is none of the heads.
  lemma BaseStays(env: Env, w: World, id: nat)
    requires ClientOf(w, id).MainSeen?
    ensures var r, r' := w.ledger.remote, Micro(env, w, L.PushJournal(Name(id))).ledger.remote;
      forall h | h in r.commits :: h in r'.commits && r'.commits[h] == r.commits[h]
  {
    LedgerGrows(env.ledger, w.ledger, L.PushJournal(Name(id)));
  }

  lemma PushSteps(env: Env, w: World, id: nat)
    requires Inv(env, w) && id in w.jobs && ClientOf(w, id).MainSeen?
    ensures var w' := Settled(env, Micro(env, w, L.PushJournal(Name(id))), id);
      Steps(env, w, w', if id in w'.jobs then Nothing(env) else Runtime.Crash(id))
  {
    hide Inv, Ledger.NewPayload, Ledger.TagFor, Steps;
    var mid := Micro(env, w, L.PushJournal(Name(id)));
    if ClientOf(mid, id).Idle? {
      DropAfter(env, w, mid, id);
      DropSteps(env, w, id);
    } else {
      TagSteps(env, w, id);
    }
  }

  // ---- The branch push that wins ----

  // What the next worker knows follows from the Stage-1 step.
  lemma ResumedKnows(env: Env, r: Runtime.Remote, r': Runtime.Remote, w: Runtime.Worker)
    requires RemoteInv(env.stage, r) && WorkerInv(env.stage, r, w) && LandsAs(env.stage, w, r, r')
    ensures Resumed(env.stage, w, r').Some? ==>
      var next := Resumed(env.stage, w, r').value; next.snap == r' && SnapOk(next)
  {
    hide RemoteInv, WorkerInv, Runtime.Take, Stage.Refused, R1Engine.Apply, Runtime.PhaseCall, Runtime.NextPhase, Reconcile;
    StageRuns.TakeKeeps(env.stage, r, w);
    if Resumed(env.stage, w, r').Some? {
      InStepKnows(env, r', Resumed(env.stage, w, r').value);
    }
  }

  lemma InStepKnows(env: Env, r: Runtime.Remote, w: Runtime.Worker)
    requires RemoteInv(env.stage, r) && WorkerInv(env.stage, r, w) && w.snap == r
    ensures SnapOk(w)
  {
    hide Stage1Seal.SealCovers, Reconcile, ReceiptIds, ValidControl, AttemptsBehindEpochs;
    assert ValidState(r.r1);
    ReconcileIs(r.control, r.r1);
  }

  lemma SeenWorker(env: Env, w: World, id: nat)
    requires Inv(env, w) && id in w.jobs && w.jobs[id].Calling?
    ensures id in Seen(env, w).workers && Seen(env, w).workers[id] == w.jobs[id].worker
    ensures RemoteInv(env.stage, Seen(env, w).remote) && WorkerInv(env.stage, Seen(env, w).remote, w.jobs[id].worker)
    ensures WorkerFits(env, w.ledger.remote, w.jobs[id].worker, w.jobs[id].base)
    ensures ClientFits(env, w.ledger.remote, w.jobs[id].worker, w.jobs[id].base, ClientOf(w, id))
  {
    hide L.WorldInv, RemoteInv, WorkerInv, WorkerFits, ClientFits, TagsOk;
    assert JobOk(env, w, id);
    assert Seen(env, w).workers[id] == w.jobs[id].worker;
  }

  // The remote and the clients after the winning push.
  lemma PushedLedger(env: Env, w: World, id: nat)
    requires Lands(w, id)
    ensures var c, r := ClientOf(w, id), w.ledger.remote;
      L.Step(env.ledger, w.ledger, L.PushBranch(Name(id))) == L.World(r.(branch := c.sha, heads := r.heads + [c.sha]), w.ledger.clients[Name(id) := L.Idle])
  {
  }

  // The Stage-1 step of the winning push.
  lemma LandedAdvances(env: Env, w: World, id: nat)
    requires Inv(env, w) && Lands(w, id)
    ensures var sha, worker := ClientOf(w, id).sha, w.jobs[id].worker;
      var r, r' := Seen(env, w).remote, Snap(w.ledger.remote.commits[sha].payload, Main(env));
      && LandsAs(env.stage, worker, r, r') && worker.snap == r
      && Stage.LedgerStep(env.stage, Seen(env, w), Runtime.Advance(id)) ==
           var next := Resumed(env.stage, worker, r');
           Runtime.World(r', if next.Some? then Seen(env, w).workers[id := next.value] else Seen(env, w).workers - {id})
  {
    hide L.WorldInv, RemoteInv, WorkerInv, TagsOk, JobsOk, SnapOk, RequestOf, Resumed, Ledger.NewPayload, Stage.Refused, Runtime.Take, Runtime.Runnable, WorldInv;
    SeenWorker(env, w, id);
    BranchKnown(env, w);
    var sha, worker, base := ClientOf(w, id).sha, w.jobs[id].worker, w.jobs[id].base;
    CallLands(env, worker, base, w.ledger.remote.commits[base].payload, w.ledger.remote.commits[sha].payload);
  }

  lemma LandedFits(env: Env, w: World, id: nat)
    requires Inv(env, w) && Lands(w, id)
    ensures JobOk(env, Landed(env, w, id), id)
  {
    hide L.WorldInv, RemoteInv, WorkerInv, TagsOk, JobsOk, SnapOk, Resumed, WorldInv, L.Step, LandsAs, Inv, Seen;
    PushedLedger(env, w, id);
    LandedAdvances(env, w, id);
    SeenWorker(env, w, id);
    ResumedKnows(env, Seen(env, w).remote, Snap(w.ledger.remote.commits[ClientOf(w, id).sha].payload, Main(env)), w.jobs[id].worker);
    DropIsIdle(env, Micro(env, w, L.PushBranch(Name(id))), id);
  }

  lemma DropIsIdle(env: Env, w: World, id: nat)
    ensures var w' := Dropped(env, w, id);
      id !in w'.jobs && ClientOf(w', id).Idle? && w'.ledger.remote == w.ledger.remote && w'.jobs == w.jobs - {id}
    ensures forall other | other != id :: ClientOf(Dropped(env, w, id), other) == ClientOf(w, other)
  {
    forall other | other != id ensures ClientOf(Dropped(env, w, id), other) == ClientOf(w, other) {
      NamesDiffer(other, id);
    }
  }

  lemma LandedSeen(env: Env, w: World, id: nat)
    requires Inv(env, w) && Lands(w, id)
    ensures Seen(env, Landed(env, w, id)) == Stage.LedgerStep(env.stage, Seen(env, w), Runtime.Advance(id))
  {
    hide L.WorldInv, RemoteInv, WorkerInv, TagsOk, JobsOk, Resumed, WorldInv, L.Step, LandsAs, Inv, Stage.LedgerStep;
    PushedLedger(env, w, id);
    LandedAdvances(env, w, id);
    var sha := ClientOf(w, id).sha;
    var next := Resumed(env.stage, w.jobs[id].worker, Snap(w.ledger.remote.commits[sha].payload, Main(env)));
    DropIsIdle(env, Micro(env, w, L.PushBranch(Name(id))), id);
    WorkerGoes(w.jobs, id);
    if next.Some? {
      assert Workers(w.jobs[id := Calling(next.value, sha)]) == Workers(w.jobs)[id := next.value];
    }
  }

  lemma LandedSteps(env: Env, w: World, id: nat)
    requires Inv(env, w) && Lands(w, id)
    ensures Steps(env, w, Landed(env, w, id), Runtime.Advance(id))
  {
    hide L.WorldInv, WorldInv, TagOk, JobFits, Resumed, L.Step, Stage.LedgerStep, Seen;
    var e := L.PushBranch(Name(id));
    var pushed, w' := Micro(env, w, e), Landed(env, w, id);
    LandedFits(env, w, id);
    LandedSeen(env, w, id);
    PushedLedger(env, w, id);
    L.StepKeeps(env.ledger, w.ledger, e);
    L.StepKeeps(env.ledger, pushed.ledger, L.Crash(Name(id)));
    LedgerGrows(env.ledger, w.ledger, e);
    DropIsIdle(env, pushed, id);
    GrownTags(env, w.ledger.remote, w'.ledger.remote);
    forall other | other != id ensures ClientOf(w', other) == ClientOf(w, other) {
      NamesDiffer(other, id);
      OthersStay(env.ledger, w.ledger, e, Name(other));
    }
    JobsKept(env, w, w', id);
  }

  // ---- Whole runs ----

  function IdOf(e: Event): Option<nat> {
    match e
    case Start(_) => None
    case MoveMain(_) => None
    case ReadMain(id) => Some(id)
    case ReadHead(id) => Some(id)
    case FinishLoad(id) => Some(id)
    case CheckTag(id, _) => Some(id)
    case CheckMain(id) => Some(id)
    case PushJournal(id) => Some(id)
    case PushBranch(id) => Some(id)
    case Crash(id) => Some(id)
  }

  // The first load of `id` is about to be accepted.
  ghost predicate Begins(env: Env, w: World, id: nat) {
    id in w.jobs && w.jobs[id].Fetching? && w.jobs[id].begin.Begin? && Accepts(env, w, id)
  }

  // The Stage-1 event that one event of the composed system amounts to: a load that begins an invocation, a branch push
  // that wins, an invocation that ends early, or nothing.
  ghost function StageEvent(env: Env, w: World, e: Event): Runtime.Event {
    if e.FinishLoad? && Begins(env, w, e.id) then w.jobs[e.id].begin
    else if e.PushBranch? && Lands(w, e.id) then Runtime.Advance(e.id)
    else
      var id := IdOf(e);
      if id.Some? && id.value in w.jobs && id.value !in Step(env, w, e).jobs then Runtime.Crash(id.value) else Nothing(env)
  }

  lemma NothingSteps(env: Env, w: World)
    requires Inv(env, w)
    ensures Steps(env, w, w, Nothing(env))
  {
    hide L.WorldInv, WorldInv, JobsOk, TagsOk, Stage.LedgerStep;
    NothingHappens(env, w, w);
  }

  lemma CrashOfNobody(env: Env, w: World, w': World, id: nat)
    requires Steps(env, w, w', Runtime.Crash(id)) && id !in w.jobs
    ensures Steps(env, w, w', Nothing(env))
  {
    hide L.WorldInv, JobsOk, TagsOk;
    assert Workers(w.jobs) - {id} == Workers(w.jobs);
  }

  lemma LoadSteps(env: Env, w: World, id: nat)
    requires Inv(env, w)
    ensures Steps(env, w, Load(env, w, id), StageEvent(env, w, FinishLoad(id)))
  {
    hide L.WorldInv, TagsOk, WorldInv, WorkerFits, Fetched, Ledger.LoadOk, Steps, RequestOf, Wrote;
    NothingSteps(env, w);
    if id in w.jobs && ClientOf(w, id).SawHead? {
      assert JobOk(env, w, id);
      DropSteps(env, w, id);
      if Accepts(env, w, id) {
        if w.jobs[id].Fetching? {
          FetchedSteps(env, w, id);
        } else if ClientOf(w, id).head == w.jobs[id].base {
          JobSteps(env, w, L.FinishLoad(Name(id)), id);
        }
      }
    }
  }

  lemma EveryStep(env: Env, w: World, e: Event)
    requires Inv(env, w)
    ensures Steps(env, w, Step(env, w, e), StageEvent(env, w, e))
  {
    hide Inv, Load, Landed, Micro, Dropped, Settled, RequestOf, Accepts, Steps, Begins;
    NothingSteps(env, w);
    match e
    case Start(begin) =>
      if begin.Begin? && begin.id !in w.jobs { StartSteps(env, w, begin); }
    case ReadMain(id) => if id in w.jobs { ReadMainSteps(env, w, id); MicroKeepsJobs(env, w, L.ReadMain(Name(id))); }
    case ReadHead(id) => if id in w.jobs { ReadHeadSteps(env, w, id); MicroKeepsJobs(env, w, L.ReadHead(Name(id))); }
    case FinishLoad(id) => LoadSteps(env, w, id);
    case CheckTag(id, sha) =>
      if id in w.jobs && w.jobs[id].Calling? && ClientOf(w, id).Loaded? && ClientOf(w, id).head == w.jobs[id].base { BuildSteps(env, w, id, sha); }
    case CheckMain(id) =>
      if id in w.jobs && (ClientOf(w, id).TagFree? || ClientOf(w, id).Journaled?) { CheckSteps(env, w, id); }
    case PushJournal(id) =>
      if id in w.jobs && ClientOf(w, id).MainSeen? { PushSteps(env, w, id); }
    case PushBranch(id) =>
      if Lands(w, id) { LandedSteps(env, w, id); }
      else { DropSteps(env, w, id); DropIsIdle(env, w, id); }
    case Crash(id) =>
      DropSteps(env, w, id);
      DropIsIdle(env, w, id);
      if id !in w.jobs { CrashOfNobody(env, w, Dropped(env, w, id), id); }
    case MoveMain(main) => MoveMainSteps(env, w, main);
  }

  lemma MicroKeepsJobs(env: Env, w: World, e: L.Event)
    ensures Micro(env, w, e).jobs == w.jobs
  {
  }

  lemma StepsKeep(env: Env, w: World, w': World, e: Runtime.Event)
    requires Inv(env, w) && Steps(env, w, w', e)
    ensures Inv(env, w')
  {
    hide L.WorldInv, JobsOk, TagsOk, WorldInv, Seen, Runtime.Step;
    StageRuns.StepKeeps(env.stage, Seen(env, w), Stage.Effective(env.stage, Seen(env, w), e));
  }

  lemma InitialHolds(env: Env, w: World)
    requires Initial(env, w)
    ensures Inv(env, w)
    ensures ValidIdentity(env.ledger.anchor.identity)
    ensures Seen(env, w) == Runtime.InitialWorld(env.ledger.anchor.identity, Main(env))
  {
    hide L.WorldInv, WorldInv, ValidIdentity;
    L.InitialKeeps(env.ledger, w.ledger);
    L.InitialHeadIsGenesis(env.ledger, w.ledger.remote.commits);
    GenesisIdentity(env, w);
    StageRuns.InitialKeeps(env.stage, env.ledger.anchor.identity);
    forall id ensures JobOk(env, w, id) {
    }
  }

  lemma GenesisIdentity(env: Env, w: World)
    requires Initial(env, w)
    ensures ValidIdentity(env.ledger.anchor.identity)
  {
    hide ValidIdentity, ValidState;
  }

  lemma {:induction false} EveryWorldHolds(env: Env, events: seq<Event>, worlds: seq<World>, k: nat)
    requires IsRun(env, events, worlds) && k < |worlds|
    ensures Inv(env, worlds[k])
  {
    hide Inv, Step, Initial, Steps;
    if k == 0 {
      InitialHolds(env, worlds[0]);
    } else {
      EveryWorldHolds(env, events, worlds, k - 1);
      assert StepOk(env, events, worlds, k - 1);
      EveryStep(env, worlds[k - 1], events[k - 1]);
      StepsKeep(env, worlds[k - 1], worlds[k], StageEvent(env, worlds[k - 1], events[k - 1]));
    }
  }

  ghost function StageEvents(env: Env, events: seq<Event>, worlds: seq<World>, n: nat): (out: seq<Runtime.Event>)
    requires n <= |events| == |worlds| - 1
    ensures |out| == n
  {
    if n == 0 then [] else StageEvents(env, events, worlds, n - 1) + [StageEvent(env, worlds[n - 1], events[n - 1])]
  }

  lemma {:induction false} StageEventAt(env: Env, events: seq<Event>, worlds: seq<World>, n: nat, k: nat)
    requires k < n <= |events| == |worlds| - 1
    ensures StageEvents(env, events, worlds, n)[k] == StageEvent(env, worlds[k], events[k])
  {
    hide StageEvent;
    if k < n - 1 {
      StageEventAt(env, events, worlds, n - 1, k);
    }
  }

  function SeenWorlds(env: Env, worlds: seq<World>): (out: seq<Runtime.World>)
    ensures |out| == |worlds| && forall k | 0 <= k < |worlds| :: out[k] == Seen(env, worlds[k])
  {
    if worlds == [] then [] else SeenWorlds(env, worlds[..|worlds| - 1]) + [Seen(env, worlds[|worlds| - 1])]
  }

  /** The refinement: whatever the interleaving of loads, tag pushes, branch pushes, moves of main and crashes, the worlds
      that the invocations see are, one by one, those of a run of Stage 1 under the ledger's rule. Its theorems, and by
      `Stage1Ledger.RunIsAbstractRun` those over the abstract adapter, hold of the whole control plane. */
  lemma WhatIsSeenIsARun(env: Env, events: seq<Event>, worlds: seq<World>)
    requires IsRun(env, events, worlds)
    ensures Stage.IsRun(env.stage, env.ledger.anchor.identity, StageEvents(env, events, worlds, |events|), SeenWorlds(env, worlds))
  {
    hide Inv, Step, StageEvent, Seen, Initial, ValidIdentity, Stage.LedgerStep;
    var stageEvents, seen := StageEvents(env, events, worlds, |events|), SeenWorlds(env, worlds);
    InitialHolds(env, worlds[0]);
    forall k | 0 <= k < |stageEvents| ensures Stage.StepOk(env.stage, stageEvents, seen, k) {
      EveryWorldHolds(env, events, worlds, k);
      assert StepOk(env, events, worlds, k);
      EveryStep(env, worlds[k], events[k]);
      StageEventAt(env, events, worlds, |events|, k);
    }
  }

  /** For one, what the branch holds in every world of the control plane keeps the ceiling and the count: durable ids
      within the ceiling, the counted ones a duplicate-free subset that misses at most one and only under a claim, and
      the stage paused exactly at the ceiling. */
  lemma HeadKeepsCeilingAndCount(env: Env, events: seq<Event>, worlds: seq<World>, k: nat)
    requires IsRun(env, events, worlds) && k < |worlds|
    ensures var p := HeadPayload(env, worlds[k].ledger.remote);
      && |ReceiptIds(p.r1)| <= MAX_TERMINAL && Distinct(p.control.counted) && p.control.terminalCount == |p.control.counted|
      && Elements(p.control.counted) <= ReceiptIds(p.r1) && |ReceiptIds(p.r1) - Elements(p.control.counted)| <= 1
      && (p.control.claimId.None? ==> Elements(p.control.counted) == ReceiptIds(p.r1))
      && (p.control.paused <==> p.control.terminalCount == MAX_TERMINAL)
  {
    hide Stage.IsRun, StageRuns.IsRun, IsRun, StageEvents, ReceiptIds, Elements, ValidState, ValidControl, Distinct;
    var effective := AbstractRun(env, events, worlds);
    StageRuns.CeilingAndCounts(env.stage, env.ledger.anchor.identity, effective, SeenWorlds(env, worlds), k);
  }

  lemma AbstractRun(env: Env, events: seq<Event>, worlds: seq<World>) returns (effective: seq<Runtime.Event>)
    requires IsRun(env, events, worlds)
    ensures StageRuns.IsRun(env.stage, env.ledger.anchor.identity, effective, SeenWorlds(env, worlds))
  {
    hide Stage.IsRun, StageRuns.IsRun, IsRun;
    WhatIsSeenIsARun(env, events, worlds);
    assert |events| == |worlds| - 1 by { RunLength(env, events, worlds); }
    effective := Stage.RunIsAbstractRun(env.stage, env.ledger.anchor.identity, StageEvents(env, events, worlds, |events|), SeenWorlds(env, worlds));
  }

  lemma RunLength(env: Env, events: seq<Event>, worlds: seq<World>)
    requires IsRun(env, events, worlds)
    ensures |events| == |worlds| - 1
  {
  }

  // ---- One tag for each sequence ----

  lemma TagsOfOneSequence(env: Env, w: World, a: string, b: string, n: nat)
    requires Inv(env, w)
    requires LedgerChain.Numbered(Ledger.Key(env.ledger), w.ledger.remote.journal, a, n)
    requires LedgerChain.Numbered(Ledger.Key(env.ledger), w.ledger.remote.journal, b, n)
    ensures a == b
  {
    hide JobsOk, WorldInv, Due, ParseTag, PrintTag, L.HeadOk, Ledger.InitialOk, Ledger.ValidPayload;
    var r := w.ledger.remote;
    assert L.RemoteInv(env.ledger, r) by { Safety.RemotePart(env.ledger, w.ledger); }
    Safety.TagNumberIsSequence(env.ledger, r, a, n);
    Safety.TagNumberIsSequence(env.ledger, r, b, n);
    assert TagOk(env, r, a) && TagOk(env, r, b) && L.TargetOk(env.ledger, r, a) && L.TargetOk(env.ledger, r, b);
    L.HeadWithItsSequence(env.ledger, r, r.commits[r.journal[a]].parent.value);
    L.HeadWithItsSequence(env.ledger, r, r.commits[r.journal[b]].parent.value);
  }

  /** The runtime never makes two tags of one sequence, whatever races and crashes: every call that any invocation can
      make on a head writes the same terminal count, so the two would have one name, and the second push is refused. The
      ledger alone allows two. */
  lemma OneTagEver(env: Env, events: seq<Event>, worlds: seq<World>, k: nat, a: string, b: string, n: nat)
    requires IsRun(env, events, worlds) && k < |worlds|
    requires LedgerChain.Numbered(Ledger.Key(env.ledger), worlds[k].ledger.remote.journal, a, n)
    requires LedgerChain.Numbered(Ledger.Key(env.ledger), worlds[k].ledger.remote.journal, b, n)
    ensures a == b
  {
    hide Inv, Step, Initial;
    EveryWorldHolds(env, events, worlds, k);
    TagsOfOneSequence(env, worlds[k], a, b, n);
  }

  // ---- A head left unreconciled ----

  lemma LedgerHeadsGrow(env: Ledger.Env, lw: L.World, e: L.Event)
    ensures lw.remote.heads <= L.Step(env, lw, e).remote.heads
  {
    hide Ledger.LoadOk, Ledger.NewPayload, Ledger.TagFor;
  }

  lemma StepHeads(env: Env, w: World, e: Event)
    ensures w.ledger.remote.heads <= Step(env, w, e).ledger.remote.heads
  {
    hide L.Step, RequestOf, Resumed, Runtime.Prepare, Ledger.LoadOk;
    forall lw: L.World, f: L.Event {:trigger L.Step(env.ledger, lw, f)} ensures lw.remote.heads <= L.Step(env.ledger, lw, f).remote.heads {
      LedgerHeadsGrow(env.ledger, lw, f);
    }
  }

  lemma {:induction false} HeadsOnlyGrow(env: Env, events: seq<Event>, worlds: seq<World>, i: nat, k: nat)
    requires IsRun(env, events, worlds) && i <= k < |worlds|
    ensures worlds[i].ledger.remote.heads <= worlds[k].ledger.remote.heads
    decreases k
  {
    hide Step, Initial;
    if i < k {
      HeadsOnlyGrow(env, events, worlds, i, k - 1);
      assert StepOk(env, events, worlds, k - 1);
      StepHeads(env, worlds[k - 1], events[k - 1]);
    }
  }

  /** Once the head does not count a durable receipt and no invocation that holds its claim is left at it, the branch
      never moves again. */
  lemma UnreconciledHeadIsFinal(env: Env, events: seq<Event>, worlds: seq<World>, i: nat, k: nat)
    requires IsRun(env, events, worlds) && i <= k < |worlds| && Stage.Stuck(Seen(env, worlds[i]))
    ensures worlds[k].ledger.remote.branch == worlds[i].ledger.remote.branch
    ensures HeadPayload(env, worlds[k].ledger.remote).control == HeadPayload(env, worlds[i].ledger.remote).control
  {
    hide Inv, Step, Initial, Stage.Stuck, Stage.IsRun, StageEvents;
    WhatIsSeenIsARun(env, events, worlds);
    Stage.StuckForever(env.stage, env.ledger.anchor.identity, StageEvents(env, events, worlds, |events|), SeenWorlds(env, worlds), i, k);
    EveryWorldHolds(env, events, worlds, i);
    EveryWorldHolds(env, events, worlds, k);
    SameHeadCount(env, worlds[i]);
    SameHeadCount(env, worlds[k]);
    HeadsOnlyGrow(env, events, worlds, i, k);
  }

  lemma SameHeadCount(env: Env, w: World)
    requires Inv(env, w)
    ensures var r := w.ledger.remote; Seen(env, w).remote.head == |r.heads| > 0 && r.branch == r.heads[|r.heads| - 1]
  {
    hide JobsOk, TagsOk, WorldInv, L.RemoteInv;
    BranchKnown(env, w);
    Safety.LastHead(env.ledger, w.ledger.remote);
  }
}
