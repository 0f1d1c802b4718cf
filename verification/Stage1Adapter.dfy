// One Stage-1 invocation carried out on the shared remote and the mutable engine
// store, and what it has to do with the interleaved worlds of `Stage1Runtime`.
module Stage1Adapter {
  import opened Prelude
  import opened R1State
  import opened R1Engine
  import opened Stage1Control
  import opened Stage1Seal
  import opened Stage1Runtime
  import R1Store

  // ---- An uninterrupted invocation ----

  function Rank(p: Phase): nat {
    match p
    case Claiming(_) => 6
    case Inspecting => 5
    case Leasing(_) => 4
    case Failing(_, _, _) => 3
    case Checkpointing(_, _) => 2
    case Committing(_, _) => 1
    case Releasing(_) => 0
  }

  ghost function TakeIfRunnable(env: Env, r: Remote, w: Worker): Outcome {
    if Runnable(w) then Take(env, r, w) else Stopped(r)
  }

  // The invocation from `w` to its end with nobody in between.
  ghost function Drive(env: Env, r: Remote, w: Worker): Outcome
    decreases Rank(w.phase)
  {
    var out := TakeIfRunnable(env, r, w);
    if out.Continues? && Rank(out.worker.phase) < Rank(w.phase) then Drive(env, out.remote, out.worker) else out
  }

  lemma TakeDescends(env: Env, r: Remote, w: Worker)
    requires TakeIfRunnable(env, r, w).Continues?
    ensures Rank(TakeIfRunnable(env, r, w).worker.phase) < Rank(w.phase)
  {
    hide Apply, Reconcile, PersistState, ReleaseInvocation, ClaimInvocation, ReleaseControl;
  }

  ghost function AdvanceTimes(env: Env, world: World, id: nat, n: nat): World
    decreases n
  {
    if n == 0 then world else AdvanceTimes(env, Step(env, world, Advance(id)), id, n - 1)
  }

  lemma {:induction false} GoneStaysGone(env: Env, world: World, id: nat, n: nat)
    requires id !in world.workers
    ensures AdvanceTimes(env, world, id, n) == world
  {
    if n > 0 {
      GoneStaysGone(env, world, id, n - 1);
    }
  }

  /** An invocation that nobody interrupts is one of the interleavings: seven steps of its worker end it, and
      leave the remote as the straight-line program does. */
  lemma {:induction false} DriveIsARun(env: Env, world: World, id: nat, n: nat)
    requires id in world.workers && n > Rank(world.workers[id].phase)
    ensures var after := AdvanceTimes(env, world, id, n);
      id !in after.workers && after.remote == Drive(env, world.remote, world.workers[id]).remote
    ensures !Drive(env, world.remote, world.workers[id]).Continues?
    decreases n
  {
    hide Take, Runnable;
    var w, out := world.workers[id], TakeIfRunnable(env, world.remote, world.workers[id]);
    var next := Step(env, world, Advance(id));
    assert next == Install(world, id, out);
    if out.Continues? {
      TakeDescends(env, world.remote, w);
      DriveIsARun(env, next, id, n - 1);
    } else {
      GoneStaysGone(env, next, id, n - 1);
    }
  }

  lemma DriveEngine(env: Env, r: Remote, w: Worker)
    requires !w.phase.Claiming? && !w.phase.Releasing? && Runnable(w)
    ensures var out := EngineStep(env, r, w);
      Drive(env, r, w) == if out.Continues? then Drive(env, out.remote, out.worker) else out
  {
    hide EngineStep;
    if TakeIfRunnable(env, r, w).Continues? {
      TakeDescends(env, r, w);
    }
  }

  // ---- The shared remote ----

  class SharedRemote {
    var head: nat
    var canonicalMain: string
    var highWater: nat
    var control: Control
    var r1: State

    function Abs(): Remote
      reads this
    {
      Remote(head, canonicalMain, highWater, control, r1)
    }

    constructor (control: Control, canonicalMain: string)
      ensures Abs() == Remote(1, canonicalMain, 0, control, EMPTY_STATE)
    {
      head, this.canonicalMain, highWater, this.control, r1 := 1, canonicalMain, 0, control, EMPTY_STATE;
    }

    /** `claim_invocation`: compare-and-swap on the head. */
    method Claim(expectedHead: nat, claimed: Control) returns (snapshot: Option<Remote>)
      modifies this
      ensures snapshot == ClaimInvocation(old(Abs()), expectedHead, claimed)
      ensures Abs() == if snapshot.Some? then snapshot.value else old(Abs())
    {
      if expectedHead != head || !ValidControl(claimed) {
        return None;
      }
      control := claimed;
      head := head + 1;
      return Some(Abs());
    }

    /** `persist_r1_state`: only for the current claim. */
    method Persist(expectedHead: nat, claimId: string, state: State) returns (snapshot: Option<Remote>)
      modifies this
      ensures snapshot == PersistState(old(Abs()), expectedHead, claimId, state)
      ensures Abs() == if snapshot.Some? then snapshot.value else old(Abs())
    {
      if expectedHead != head || control.claimId != Some(claimId) || !ValidState(state) {
        return None;
      }
      r1 := state;
      head := head + 1;
      return Some(Abs());
    }

    /** `release_invocation`: the high water follows the terminal count up. */
    method Release(expectedHead: nat, claimId: string, released: Control) returns (snapshot: Option<Remote>)
      modifies this
      ensures snapshot == ReleaseInvocation(old(Abs()), expectedHead, claimId, released)
      ensures Abs() == if snapshot.Some? then snapshot.value else old(Abs())
    {
      if expectedHead != head || control.claimId != Some(claimId) || !ValidControl(released) || released.claimId.Some? {
        return None;
      }
      control := released;
      if highWater < control.terminalCount {
        highWater := control.terminalCount;
      }
      head := head + 1;
      return Some(Abs());
    }
  }

  // ---- The straight-line program ----

  method CallEngine(engine: R1Store.Engine, call: Call) returns (reply: Result<Reply, Failure>)
    modifies engine
    ensures (engine.Contents(), reply) == Apply(engine.digests, engine.canonicalMain, old(engine.Contents()), call)
  {
    hide Apply;
    match call
    case Inspect(main, candidate, docsHash, auth, runtime) =>
      reply := engine.InspectCandidate(main, candidate, docsHash, auth, runtime);
    case AcquireLease(main, task, worker, now, leaseTicks, auth, runtime) =>
      reply := engine.AcquireLease(main, task, worker, now, leaseTicks, auth, runtime);
    case Checkpoint(main, task, worker, epoch, now, ref, auth, runtime) =>
      reply := engine.Checkpoint(main, task, worker, epoch, now, ref, auth, runtime);
    case RecordFailure(main, task, worker, epoch, now, reason, auth, runtime) =>
      reply := engine.RecordFailure(main, task, worker, epoch, now, reason, auth, runtime);
    case Commit(main, task, worker, epoch, now, committed, verdictReason, evidence, auth, runtime) =>
      reply := engine.CommitReview(main, task, worker, epoch, now, committed, verdictReason, evidence, auth, runtime);
  }

  // What `Stage` makes of a step: the worker that goes on, or none.
  predicate OutcomeIs(out: Outcome, r: Remote, next: Option<Worker>) {
    match next
    case None => out == Stopped(r)
    case Some(w) => out == Continues(r, w)
  }

  // One engine call and the persist that follows it.
  method Stage(env: Env, shared: SharedRemote, engine: R1Store.Engine, w: Worker) returns (next: Option<Worker>)
    requires !w.phase.Claiming? && !w.phase.Releasing?
    requires engine.digests == env.engine && engine.canonicalMain == w.sealed.canonicalMain && engine.Contents() == w.store
    modifies shared, engine
    ensures OutcomeIs(EngineStep(env, old(shared.Abs()), w), shared.Abs(), next)
    ensures next.Some? ==> next.value.store == engine.Contents() && next.value.sealed == w.sealed
    ensures next.Some? ==> Follows(w.phase, next.value.phase)
  {
    hide Apply, PersistState, PhaseCall;
    var reply := CallEngine(engine, PhaseCall(w));
    if reply.Err? {
      return None;
    }
    var snapshot := shared.Persist(w.snap.head, w.claimId, engine.Contents());
    if snapshot.None? {
      return None;
    }
    var phase := NextPhase(w, engine.Contents(), reply.value);
    if phase.None? {
      return None;
    }
    return Some(w.(phase := phase.value, snap := snapshot.value, store := engine.Contents()));
  }

  predicate Follows(p: Phase, q: Phase) {
    match p
    case Inspecting => q.Releasing? || q.Leasing?
    case Leasing(_) => q.Failing? || q.Checkpointing?
    case Failing(_, _, _) => q.Releasing? || q.Checkpointing?
    case Checkpointing(_, _) => q.Committing?
    case Committing(_, _) => q.Releasing?
    case _ => false
  }

  /** `_release_remote`: reconcile once more, clear the claim, release. */
  method ReleaseRemote(env: Env, shared: SharedRemote, w: Worker) returns (released: bool)
    requires w.phase.Releasing?
    modifies shared
    ensures Drive(env, old(shared.Abs()), w) == if released then Released(shared.Abs()) else Stopped(shared.Abs())
  {
    hide Reconcile, ReleaseControl, ReleaseInvocation;
    var finished := ReconcileTerminalReceipts(w.snap.control, w.snap.r1);
    if finished.Err? {
      return false;
    }
    var cleared := ReleaseControl(finished.value, w.claimId);
    if cleared.Err? {
      return false;
    }
    var snapshot := shared.Release(w.snap.head, w.claimId, cleared.value);
    return snapshot.Some?;
  }

  /** `_process_claimed`: inspect, lease, record an expired attempt, checkpoint, commit, release; each engine
      call is followed by its persist, and the first refusal ends the invocation with the claim left in place. */
  method ProcessClaimed(env: Env, shared: SharedRemote, claimed: Worker) returns (released: bool)
    requires claimed.phase.Inspecting?
    modifies shared
    ensures Drive(env, old(shared.Abs()), claimed) == if released then Released(shared.Abs()) else Stopped(shared.Abs())
  {
    hide Drive, EngineStep, ValidState;
    if !Runnable(claimed) {
      StoppedAtOnce(env, shared.Abs(), claimed);
      return false;
    }
    var engine := new R1Store.Engine.Materialize(env.engine, claimed.sealed.canonicalMain, claimed.store);
    DriveEngine(env, shared.Abs(), claimed);
    var inspected := Stage(env, shared, engine, claimed);
    if inspected.None? {
      return false;
    }
    if inspected.value.phase.Releasing? {
      released := ReleaseRemote(env, shared, inspected.value);
      return;
    }
    DriveEngine(env, shared.Abs(), inspected.value);
    var leased := Stage(env, shared, engine, inspected.value);
    if leased.None? {
      return false;
    }
    var current := leased.value;
    if current.phase.Failing? {
      DriveEngine(env, shared.Abs(), current);
      var failed := Stage(env, shared, engine, current);
      if failed.None? {
        return false;
      }
      current := failed.value;
      if current.phase.Releasing? {
        released := ReleaseRemote(env, shared, current);
        return;
      }
    }
    DriveEngine(env, shared.Abs(), current);
    var checkpointed := Stage(env, shared, engine, current);
    if checkpointed.None? {
      return false;
    }
    DriveEngine(env, shared.Abs(), checkpointed.value);
    var committed := Stage(env, shared, engine, checkpointed.value);
    if committed.None? {
      return false;
    }
    released := ReleaseRemote(env, shared, committed.value);
  }

  lemma StoppedAtOnce(env: Env, r: Remote, w: Worker)
    requires !Runnable(w)
    ensures Drive(env, r, w) == Stopped(r)
  {
  }
}
