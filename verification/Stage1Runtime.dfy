// Stage 1 over the abstract control-plane adapter: one shared remote, any number
// of competing workers, one adapter call per atomic step, and a crash possible
// between any two of them.  Remote heads are serial numbers.
module Stage1Runtime {
  import opened Prelude
  import opened R1State
  import opened R1Engine
  import opened Stage1Control
  import opened Stage1Seal

  // What the adapter's shared remote holds; a snapshot is the same record at one moment.
  datatype Remote = Remote(head: nat, canonicalMain: string, highWater: nat, control: Control, r1: State)

  datatype ReleaseKind = NothingToDo | Exhausted | Finished

  datatype Phase =
    | Claiming(claimed: Control)
    | Inspecting
    | Leasing(task: string)
    | Failing(task: string, epoch: nat, previousEpoch: nat)
    | Checkpointing(task: string, epoch: nat)
    | Committing(task: string, epoch: nat)
    | Releasing(kind: ReleaseKind)

  // One invocation in progress: its snapshot of the remote and its local store.
  datatype Worker = Worker(
    phase: Phase, envelope: Envelope, sealed: Sealed, claimId: string, tick: int, snap: Remote, store: State)

  datatype World = World(remote: Remote, workers: map<nat, Worker>)

  datatype Event =
    | Begin(id: nat, envelope: Envelope, bundle: Bundle, claimId: string, tick: int)
    | Advance(id: nat)
    | Crash(id: nat)
    | MainMoves(main: string)

  function InitialWorld(identity: Identity, canonicalMain: string): World {
    World(Remote(1, canonicalMain, 0, EmptyControl(identity), EMPTY_STATE), map[])
  }

  // ---- The adapter ----

  /** `claim_invocation`. */
  function ClaimInvocation(r: Remote, expectedHead: nat, claimed: Control): Option<Remote> {
    if expectedHead != r.head || !ValidControl(claimed) then None
    else Some(r.(control := claimed, head := r.head + 1))
  }

  /** `persist_r1_state`. */
  function PersistState(r: Remote, expectedHead: nat, claimId: string, s: State): Option<Remote> {
    if expectedHead != r.head || r.control.claimId != Some(claimId) || !ValidState(s) then None
    else Some(r.(r1 := s, head := r.head + 1))
  }

  /** `release_invocation`. */
  function ReleaseInvocation(r: Remote, expectedHead: nat, claimId: string, released: Control): Option<Remote> {
    if expectedHead != r.head || r.control.claimId != Some(claimId) || !ValidControl(released) || released.claimId.Some?
    then None
    else Some(r.(control := released, head := r.head + 1,
                 highWater := if r.highWater < released.terminalCount then released.terminalCount else r.highWater))
  }

  // ---- The invocation ----

  const CHECKPOINT_REF := "stage1:supplied-evidence-validated"
  const EXPIRED_REASON := "STAGE1_PREVIOUS_ATTEMPT_EXPIRED"

  // `_process_one_controlled` up to the claim: load, seal, reconcile, check the ceiling, build the claim.
  ghost function Prepare(env: Env, r: Remote, e: Event): Option<Worker>
    requires e.Begin?
  {
    if !ValidEnvelope(e.envelope) || !ValidState(r.r1) then None
    else match Seal(env, e.bundle, e.envelope, r.canonicalMain)
      case Err(_) => None
      case Ok(sealed) =>
        match Reconcile(r.control, r.r1) {
          case Err(_) => None
          case Ok(reconciled) =>
            if CeilingRefusal(reconciled, r.canonicalMain, sealed.trustedNow, true, r.highWater).Some? then None
            else match ClaimControl(reconciled, e.claimId, sealed.trustedNow)
              case Err(_) => None
              case Ok(claimed) => Some(Worker(Claiming(claimed), e.envelope, sealed, e.claimId, e.tick, r, r.r1))
        }
  }

  // The engine call of a phase and the phase that follows it.
  function PhaseCall(w: Worker): Call
    requires !w.phase.Claiming? && !w.phase.Releasing?
  {
    var m := w.snap.canonicalMain;
    match w.phase
    case Inspecting => InspectCall(m, w.envelope, w.sealed)
    case Leasing(task) => LeaseCall(m, w.envelope, w.sealed, task, w.tick)
    case Failing(task, epoch, _) => FailureCall(m, w.envelope, w.sealed, task, epoch, w.tick, EXPIRED_REASON)
    case Checkpointing(task, epoch) => CheckpointCall(m, w.envelope, w.sealed, task, epoch, w.tick, CHECKPOINT_REF)
    case Committing(task, epoch) => CommitCall(m, w.envelope, w.sealed, task, epoch, w.tick)
  }

  // The previous attempt at `t` ran out without a receipt.
  predicate PreviousAttemptExpired(t: Task, tick: int) {
    t.leaseEpoch > 0 && t.durableReceiptRef.None? && t.leaseExpiresAt.Some? && tick >= t.leaseExpiresAt.value
  }

  // `None`: the invocation stops with an exception after the persist.  The engine was made for
  // the sealed main, while each call passes the main of the latest snapshot.
  function NextPhase(w: Worker, after: State, reply: Reply): Option<Phase>
    requires !w.phase.Claiming? && !w.phase.Releasing?
  {
    match w.phase
    case Inspecting =>
      if !reply.TaskRef? then None
      else if reply.taskId.None? then Some(Releasing(NothingToDo))
      else if reply.taskId.value in after.tasks && after.tasks[reply.taskId.value].retryBudget == RETRY_BUDGET
      then Some(Leasing(reply.taskId.value)) else None
    case Leasing(task) =>
      if !reply.Epoch? || task !in w.store.tasks then None
      else if PreviousAttemptExpired(w.store.tasks[task], w.tick)
      then Some(Failing(task, reply.epoch, w.store.tasks[task].leaseEpoch))
      else Some(Checkpointing(task, reply.epoch))
    case Failing(task, epoch, _) =>
      if task in after.tasks && Dead(after.tasks[task]) then Some(Releasing(Exhausted)) else Some(Checkpointing(task, epoch))
    case Checkpointing(task, epoch) => Some(Committing(task, epoch))
    case Committing(task, epoch) => Some(Releasing(Finished))
  }

  datatype Outcome = Stopped(remote: Remote) | Continues(remote: Remote, worker: Worker) | Released(remote: Remote)

  ghost function EngineStep(env: Env, r: Remote, w: Worker): Outcome
    requires !w.phase.Claiming? && !w.phase.Releasing?
  {
    var done := Apply(env.engine, w.sealed.canonicalMain, w.store, PhaseCall(w));
    match done.1
    case Err(_) => Stopped(r)
    case Ok(reply) =>
      match PersistState(r, w.snap.head, w.claimId, done.0) {
        case None => Stopped(r)
        case Some(r') =>
          match NextPhase(w, done.0, reply)
          case None => Stopped(r')
          case Some(phase) => Continues(r', w.(phase := phase, snap := r', store := done.0))
      }
  }

  // One adapter call of the invocation, with the local computation before it.
  ghost function Take(env: Env, r: Remote, w: Worker): Outcome {
    match w.phase
    case Claiming(claimed) =>
      (match ClaimInvocation(r, w.snap.head, claimed)
       case None => Stopped(r)
       case Some(r') => Continues(r', w.(phase := Inspecting, snap := r', store := r'.r1)))
    case Releasing(_) =>
      (match Reconcile(w.snap.control, w.snap.r1)
       case Err(_) => Stopped(r)
       case Ok(finished) =>
         match ReleaseControl(finished, w.claimId)
         case Err(_) => Stopped(r)
         case Ok(released) =>
           match ReleaseInvocation(r, w.snap.head, w.claimId, released)
           case None => Stopped(r)
           case Some(r') => Released(r'))
    case _ => EngineStep(env, r, w)
  }

  // A claimed invocation whose main moved, or whose state fails validation, stops without touching the remote again.
  predicate Runnable(w: Worker) {
    !w.phase.Inspecting? || (w.snap.canonicalMain == w.sealed.canonicalMain && ValidState(w.store))
  }

  function Install(world: World, id: nat, out: Outcome): World {
    World(out.remote, if out.Continues? then world.workers[id := out.worker] else world.workers - {id})
  }

  ghost function Step(env: Env, world: World, event: Event): World {
    match event
    case Begin(id, _, _, _, _) =>
      if id in world.workers then world
      else (match Prepare(env, world.remote, event)
            case None => world
            case Some(w) => world.(workers := world.workers[id := w]))
    case Advance(id) =>
      if id !in world.workers then world
      else Install(world, id, if Runnable(world.workers[id]) then Take(env, world.remote, world.workers[id]) else Stopped(world.remote))
    case Crash(id) => world.(workers := world.workers - {id})
    case MainMoves(m) => world.(remote := world.remote.(canonicalMain := m))
  }
}
