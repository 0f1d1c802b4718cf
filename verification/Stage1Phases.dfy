// What an invocation has behind it in each of its phases, over any run: no
// checkpoint without its lease, no commit without its checkpoint.
module Stage1Phases {
  import opened Prelude
  import opened R1State
  import opened R1Engine
  import opened R1Invariants
  import opened R1Contracts
  import opened Stage1Control
  import opened Stage1Seal
  import opened Stage1Runtime
  import opened Stage1Invariants
  import opened Stage1Runs

  /** What follows an inspection: nothing to do without a task, the lease of a known task whose budget is two retries, and
      the end of the invocation otherwise. */
  lemma AfterInspection(w: Worker, after: State, reply: Reply)
    requires w.phase.Inspecting?
    ensures NextPhase(w, after, reply) ==
      if reply == TaskRef(None) then Some(Releasing(NothingToDo))
      else if reply.TaskRef? && reply.taskId.value in after.tasks && after.tasks[reply.taskId.value].retryBudget == 2
      then Some(Leasing(reply.taskId.value))
      else None
  {
  }

  // The task is leased to this invocation for ten ticks, under this epoch, and was last heard of at `beat`.
  ghost predicate HeldFor(w: Worker, task: string, epoch: nat, beat: int) {
    && task in w.store.tasks
    && var t := w.store.tasks[task];
    && t.retryBudget == 2 && t.leaseEpoch == epoch >= 1 && t.leaseOwner == Some(w.envelope.workerId)
    && t.heartbeatAt.Some? && t.heartbeatAt.value == beat
    && t.leaseExpiresAt.Some? && t.leaseExpiresAt.value == w.tick + 10
  }

  ghost predicate PhaseOk(w: Worker) {
    match w.phase
    case Leasing(task) => task in w.store.tasks && w.store.tasks[task].retryBudget == 2
    case Failing(task, epoch, previous) => HeldFor(w, task, epoch, w.tick) && epoch == previous + 1 > 1 && Alive(w.store, task)
    case Checkpointing(task, epoch) => HeldFor(w, task, epoch, w.tick) && Alive(w.store, task)
    case Committing(task, epoch) =>
      HeldFor(w, task, epoch, w.tick + 1) && Alive(w.store, task) && w.store.tasks[task].checkpointRef == Some("stage1:supplied-evidence-validated")
    case _ => true
  }

  // The engine call of a worker that goes on, with the store after it.
  ghost predicate WentOn(env: Env, w: Worker, w': Worker, reply: Reply)
    requires !w.phase.Claiming? && !w.phase.Releasing?
  {
    && Apply(env.engine, w.sealed.canonicalMain, w.store, PhaseCall(w)) == (w'.store, Ok(reply))
    && w' == w.(phase := w'.phase, snap := w'.snap, store := w'.store)
    && NextPhase(w, w'.store, reply) == Some(w'.phase)
  }

  lemma LeasePhase(env: Env, w: Worker, w': Worker, reply: Reply)
    requires ValidState(w.store) && w.phase.Leasing? && WentOn(env, w, w', reply) && PhaseOk(w)
    ensures PhaseOk(w')
  {
    hide Apply, ValidState, Permitted;
    AcquireIs(env.engine, w.sealed.canonicalMain, w.store, PhaseCall(w));
  }

  lemma FailurePhase(env: Env, w: Worker, w': Worker, reply: Reply)
    requires ValidState(w.store) && w.phase.Failing? && WentOn(env, w, w', reply) && PhaseOk(w)
    ensures PhaseOk(w')
  {
    hide Apply, ValidState, Permitted;
    RecordFailureIs(env.engine, w.sealed.canonicalMain, w.store, PhaseCall(w));
  }

  lemma CheckpointPhase(env: Env, w: Worker, w': Worker, reply: Reply)
    requires ValidState(w.store) && w.phase.Checkpointing? && WentOn(env, w, w', reply) && PhaseOk(w)
    ensures PhaseOk(w')
  {
    hide Apply, ValidState, Permitted;
    CheckpointIs(env.engine, w.sealed.canonicalMain, w.store, PhaseCall(w));
  }

  lemma EnginePhase(env: Env, w: Worker, w': Worker, reply: Reply)
    requires ValidState(w.store) && !w.phase.Claiming? && !w.phase.Releasing? && WentOn(env, w, w', reply) && PhaseOk(w)
    ensures PhaseOk(w')
  {
    hide Apply, ValidState;
    match w.phase
    case Inspecting => AfterInspection(w, w'.store, reply);
    case Leasing(_) => LeasePhase(env, w, w', reply);
    case Failing(_, _, _) => FailurePhase(env, w, w', reply);
    case Checkpointing(_, _) => CheckpointPhase(env, w, w', reply);
    case Committing(_, _) =>
  }

  lemma StoreIsValid(env: Env, r: Remote, w: Worker)
    requires RemoteInv(env, r) && WorkerInv(env, r, w) && InStep(r, w) && !w.phase.Claiming?
    ensures ValidState(w.store)
  {
    hide CountInv, ValidControl, AttemptsBehindEpochs, SealCovers, OwnTask, CountedExactly, FailureDue;
  }

  lemma TakePhase(env: Env, r: Remote, w: Worker)
    requires RemoteInv(env, r) && WorkerInv(env, r, w) && PhaseOk(w)
    ensures Take(env, r, w).Continues? ==> PhaseOk(Take(env, r, w).worker)
  {
    hide RemoteInv, WorkerInv, Apply, PhaseCall, NextPhase, PhaseOk, Reconcile, ReleaseControl;
    var out := Take(env, r, w);
    if w.phase.Claiming? {
      assert out.Continues? ==> out.worker.phase == Inspecting;
      InspectingIsOk(w, out);
    } else if !w.phase.Releasing? {
      var done := Apply(env.engine, w.sealed.canonicalMain, w.store, PhaseCall(w));
      EngineOutcomes(env, r, w);
      if out.Continues? {
        StoreIsValid(env, r, w);
        EnginePhase(env, w, out.worker, done.1.value);
      }
    }
  }

  lemma InspectingIsOk(w: Worker, out: Outcome)
    ensures out.Continues? && out.worker.phase == Inspecting ==> PhaseOk(out.worker)
  {
  }

  ghost predicate WorkerPhaseOk(world: World, id: nat) {
    id in world.workers ==> PhaseOk(world.workers[id])
  }

  lemma StepPhases(env: Env, world: World, event: Event, id: nat)
    requires WorldInv(env, world) && WorkerPhaseOk(world, id)
    ensures WorkerPhaseOk(Step(env, world, event), id)
  {
    hide RemoteInv, WorkerInv, Take, PhaseOk, Seal, Reconcile, CeilingRefusal, ClaimControl, ValidState;
    match event
    case Begin(other, _, _, _, _) =>
      if other == id && id !in world.workers {
        BegunIsOk(env, world.remote, event);
      }
    case Advance(other) =>
      if other == id && id in world.workers {
        assert WorkerInv(env, world.remote, world.workers[id]);
        TakePhase(env, world.remote, world.workers[id]);
      }
    case Crash(_) =>
    case MainMoves(_) =>
  }

  lemma BegunIsOk(env: Env, r: Remote, e: Event)
    requires e.Begin?
    ensures Prepare(env, r, e).Some? ==> PhaseOk(Prepare(env, r, e).value)
  {
    hide Seal, Reconcile, CeilingRefusal, ClaimControl, ValidState;
  }

  lemma {:induction false} RunPhases(env: Env, identity: Identity, events: seq<Event>, worlds: seq<World>, k: nat, id: nat)
    requires IsRun(env, identity, events, worlds) && k < |worlds|
    ensures WorkerPhaseOk(worlds[k], id)
  {
    hide Step, WorldInv, PhaseOk;
    if k > 0 {
      RunPhases(env, identity, events, worlds, k - 1, id);
      EveryWorldKeeps(env, identity, events, worlds, k - 1);
      assert StepOk(env, events, worlds, k - 1);
      StepPhases(env, worlds[k - 1], events[k - 1], id);
    }
  }

  /** Whoever commits has earned it: in every reachable world an invocation about to commit holds, in its own store, a live
      task with a budget of two retries, leased to it for ten ticks under the epoch it commits with, and checkpointed;
      one about to checkpoint holds such a lease, and one about to record a failure holds one that follows an earlier one. */
  lemma CommitsAreEarned(env: Env, identity: Identity, events: seq<Event>, worlds: seq<World>, k: nat, id: nat)
    requires IsRun(env, identity, events, worlds) && k < |worlds| && id in worlds[k].workers
    ensures var w := worlds[k].workers[id];
      && (w.phase.Failing? ==> HeldFor(w, w.phase.task, w.phase.epoch, w.tick) && w.phase.epoch >= 2)
      && (w.phase.Checkpointing? ==> HeldFor(w, w.phase.task, w.phase.epoch, w.tick) && Alive(w.store, w.phase.task))
      && (w.phase.Committing? ==>
            && HeldFor(w, w.phase.task, w.phase.epoch, w.tick + 1) && Alive(w.store, w.phase.task)
            && w.store.tasks[w.phase.task].checkpointRef == Some("stage1:supplied-evidence-validated"))
  {
    hide Step, HeldFor, Alive;
    RunPhases(env, identity, events, worlds, k, id);
  }
}
