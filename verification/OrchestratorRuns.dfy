// The orchestrator over whole runs: the step bound, crash transparency, and
// where a DONE comes from.
module OrchestratorRuns {
  import opened Prelude
  import opened Orchestrator

  // ---- Runs ----

  // Anything that happens to a task: a step, a process dying in one, a recovery, a rollback.
  datatype Event = Steps(stamp: Stamp) | Crashes(stamp: Stamp, point: CrashPoint) | Recovers(at: int) | RollsBack(reason: string)

  function After(env: Env, w: World, e: Event): World {
    match e
    case Steps(stamp) => Step(env, w, stamp)
    case Crashes(stamp, point) => CrashedStep(env, w, stamp, point)
    case Recovers(at) => RecoverStale(env, w, at)
    case RollsBack(reason) => Rollback(env, w, reason)
  }

  ghost predicate StepOk(env: Env, events: seq<Event>, worlds: seq<World>, k: nat)
    requires k < |events| == |worlds| - 1
  {
    worlds[k + 1] == After(env, worlds[k], events[k])
  }

  ghost predicate IsRun(env: Env, events: seq<Event>, worlds: seq<World>) {
    && |events| == |worlds| - 1
    && worlds[0] == Created()
    && forall k {:trigger StepOk(env, events, worlds, k)} | 0 <= k < |events| :: StepOk(env, events, worlds, k)
  }

  predicate CrashFree(events: seq<Event>) {
    forall k | 0 <= k < |events| :: events[k].Steps?
  }

  predicate NoRollback(events: seq<Event>) {
    forall k | 0 <= k < |events| :: !events[k].RollsBack?
  }

  // A crash-free run of any length exists.
  lemma {:induction false} FreeRunExists(env: Env, stamp: Stamp, n: nat) returns (events: seq<Event>, worlds: seq<World>)
    ensures IsRun(env, events, worlds) && CrashFree(events) && |events| == n
  {
    hide After;
    if n == 0 {
      events, worlds := [], [Created()];
    } else {
      var e, v := FreeRunExists(env, stamp, n - 1);
      events, worlds := e + [Steps(stamp)], v + [After(env, v[n - 1], Steps(stamp))];
      forall k | 0 <= k < n ensures StepOk(env, events, worlds, k) {
        if k < n - 1 { assert StepOk(env, e, v, k); }
      }
    }
  }

  // ---- The step bound ----

  function Remaining(s: State): nat {
    match s
    case IN_LAB => 2
    case IN_AUDIT => 1
    case OWNER_GATE => 0
    case DONE => 0
    case ROLLED_BACK => 0
    case _ => 3
  }

  function Measure(env: Env, r: Row): int {
    if Terminal(r.state) then 0
    else 3 * (env.spec.budgets.semantic - r.semantic) + (env.spec.budgets.transient - r.transient) + Remaining(r.state)
  }

  function Bound(env: Env): nat {
    3 * (env.spec.budgets.semantic + 1) + env.spec.budgets.transient
  }

  predicate Budgeted(env: Env, r: Row) {
    r.semantic <= env.spec.budgets.semantic && r.transient <= env.spec.budgets.transient && r.repeated <= 1
  }

  // A row no process is working on.
  predicate AtRest(r: Row) {
    r.active.None?
  }

  // One step's worth of descent, ending at rest within the budgets.
  predicate Descends(env: Env, r: Row, r': Row) {
    AtRest(r') && Budgeted(env, r') && Measure(env, r') < Measure(env, r)
  }

  predicate InRole(r: Row) {
    r.state == IN_IMPLEMENT || r.state == IN_LAB || r.state == IN_AUDIT
  }

  lemma FailDescends(env: Env, w: World, stage: Stage, code: Code, detail: string, failState: State)
    requires Budgeted(env, w.row) && InRole(w.row) && BeforeImplement(failState)
    ensures Descends(env, w.row, SemanticFail(env, w, stage, code, detail, failState).row)
  {
  }

  lemma TransientDescends(env: Env, w: World, role: Role)
    requires Budgeted(env, w.row) && InRole(w.row)
    ensures Descends(env, w.row, TransientFail(env, w, role).row)
  {
  }

  lemma JudgeDescends(env: Env, w: World, out: Item)
    requires AtRest(w.row) && Budgeted(env, w.row) && InRole(w.row)
    ensures Descends(env, w.row, Judge(env, w, RoleIn(w.row.state), out).row)
  {
    hide MechanicalGate, ReviewFailure, IsPass, IsFixRequired, ShownOr, SemanticFail;
    var role := RoleIn(w.row.state);
    var gate := MechanicalGate(env, out);
    if role == IMPLEMENT && gate.Some? {
      FailDescends(env, w, MECH, gate.value.0, gate.value.1, MECH_GATE_FAIL);
    } else if role != IMPLEMENT {
      FailDescends(env, w, OfRole(role), Reported(ShownOr(env, out.code, "FIX_REQUIRED")), ShownOr(env, out.detail, ""), FailState(role));
    }
  }

  lemma CompletedDescends(env: Env, w: World, stamp: Stamp)
    requires Budgeted(env, w.row) && InRole(w.row)
    ensures Descends(env, w.row, Completed(env, w, stamp).row)
  {
    hide Judge, SemanticFail, TransientFail, WorkerRun;
    var role, ran := RoleIn(w.row.state), Worked(env, w);
    match ran.0
    case Transient => TransientDescends(env, ran.1, role);
    case Timeout => FailDescends(env, ran.1, OfRole(role), TimeBudgetExceeded, "hard process timeout", FailState(role));
    case Failure =>
    case Returns(out) => JudgeDescends(env, Finished(env, ran.1, stamp), out);
  }

  lemma StepDescends(env: Env, w: World, stamp: Stamp)
    requires AtRest(w.row) && Budgeted(env, w.row)
    ensures var w' := Step(env, w, stamp); AtRest(w'.row) && Budgeted(env, w'.row)
    ensures !Terminal(w.row.state) ==> Measure(env, Step(env, w, stamp).row) < Measure(env, w.row)
  {
    hide Completed, BindingFailure;
    if !Terminal(w.row.state) && BindingFailure(env).None? {
      CompletedDescends(env, Started(env, Enter(w), stamp), stamp);
    }
  }

  lemma {:induction false} FreeRunDescends(env: Env, events: seq<Event>, worlds: seq<World>, k: nat)
    requires IsRun(env, events, worlds) && CrashFree(events) && k <= |events|
    ensures var r := worlds[k].row;
      AtRest(r) && Budgeted(env, r) && (Terminal(r.state) || Measure(env, r) <= Bound(env) - k)
  {
    hide Step;
    if k > 0 {
      FreeRunDescends(env, events, worlds, k - 1);
      assert StepOk(env, events, worlds, k - 1);
      StepDescends(env, worlds[k - 1], events[k - 1].stamp);
      if Terminal(worlds[k - 1].row.state) {
        TerminalIsFinal(env, worlds[k - 1], events[k - 1].stamp);
      }
    }
  }

  lemma TerminalIsFinal(env: Env, w: World, stamp: Stamp)
    requires Terminal(w.row.state)
    ensures Step(env, w, stamp) == w
  {
  }

  lemma NonTerminalHasWork(env: Env, r: Row)
    requires Budgeted(env, r) && !Terminal(r.state)
    ensures Measure(env, r) >= 1
  {
  }

  /** Termination with a real bound: after 3 * (semantic budget + 1) + transient budget crash-free steps every
      task is terminal, whatever the worker answers; that is at most twelve. */
  lemma TerminatesInTime(env: Env, events: seq<Event>, worlds: seq<World>, k: nat)
    requires ValidSpec(env.spec) && IsRun(env, events, worlds) && CrashFree(events) && Bound(env) <= k <= |events|
    ensures Terminal(worlds[k].row.state)
    ensures Bound(env) <= 12
  {
    FreeRunDescends(env, events, worlds, k);
    if !Terminal(worlds[k].row.state) {
      NonTerminalHasWork(env, worlds[k].row);
    }
  }

  // Whatever happens to a task, crashes included, keeps it within its budgets.
  lemma AfterBudgeted(env: Env, w: World, e: Event)
    requires Budgeted(env, w.row)
    ensures Budgeted(env, After(env, w, e).row)
  {
    hide Completed, BindingFailure, WorkerRun;
    if e.Steps? && !Terminal(w.row.state) && BindingFailure(env).None? {
      CompletedDescends(env, Started(env, Enter(w), e.stamp), e.stamp);
    }
  }

  /** In every run, with processes dying, recoveries and rollbacks anywhere, the stored repeated-failure count never
      exceeds one, and neither counter exceeds its budget. */
  lemma {:induction false} CountersStayInBudget(env: Env, events: seq<Event>, worlds: seq<World>, k: nat)
    requires IsRun(env, events, worlds) && k <= |events|
    ensures var r := worlds[k].row;
      r.repeated <= 1 && r.semantic <= env.spec.budgets.semantic && r.transient <= env.spec.budgets.transient
  {
    hide After;
    if k > 0 {
      CountersStayInBudget(env, events, worlds, k - 1);
      assert StepOk(env, events, worlds, k - 1);
      AfterBudgeted(env, worlds[k - 1], events[k - 1]);
    }
  }

  // ---- Crash transparency ----

  // The row without what depends on the clock and on the process: claim and heartbeat.
  function View(r: Row): Row {
    r.(active := None, heartbeat := None)
  }

  // What a crash inside a step cannot change.
  function Progress(r: Row): Row {
    View(r).(state := Entered(r.state), checkpoint := None)
  }

  function ScriptedNow(env: Env, r: Row): Outcome {
    env.script(RoleIn(Entered(r.state)), r.semantic + 1, r.transient + 1)
  }

  function KeyNow(env: Env, r: Row): string {
    env.operationKey(RoleIn(Entered(r.state)), r.semantic)
  }

  // The receipt the next step stores, if it stores one.
  function ReceiptsAhead(env: Env, v: World): map<string, Item> {
    if KeyNow(env, v.row) in v.receipts || !ScriptedNow(env, v.row).Returns? then v.receipts
    else v.receipts[KeyNow(env, v.row) := ScriptedNow(env, v.row).item]
  }

  // `w` is `v`, or `v` with its next step begun and given up at some point.
  predicate Behind(env: Env, w: World, v: World) {
    && Progress(w.row) == Progress(v.row)
    && AtRest(v.row)
    && if Terminal(v.row.state) || BindingFailure(env).Some?
       then View(w.row) == View(v.row) && AtRest(w.row) && w.receipts == v.receipts
       else w.receipts == v.receipts || w.receipts == ReceiptsAhead(env, v)
  }

  lemma BehindSelf(env: Env, w: World)
    requires AtRest(w.row)
    ensures Behind(env, w, w)
  {
  }

  // The parts of a step, each given up right after it.
  lemma EnterIsBehind(env: Env, w: World, v: World)
    requires Behind(env, w, v) && !Terminal(w.row.state) && BindingFailure(env).None?
    ensures Behind(env, Enter(w), v) && !BeforeImplement(Enter(w).row.state) && !Terminal(Enter(w).row.state)
  {
    hide BindingFailure;
  }

  lemma MarkIsBehind(env: Env, w: World, v: World, stamp: Stamp)
    requires Behind(env, w, v) && !Terminal(w.row.state) && !BeforeImplement(w.row.state) && BindingFailure(env).None?
    ensures Behind(env, Started(env, w, stamp), v) && Behind(env, Finished(env, w, stamp), v)
  {
    hide BindingFailure, ReceiptsAhead;
  }

  lemma WorkIsBehind(env: Env, w: World, v: World)
    requires Behind(env, w, v) && !Terminal(w.row.state) && !BeforeImplement(w.row.state) && BindingFailure(env).None?
    ensures Behind(env, Worked(env, w).1, v) && Worked(env, w).1.row == w.row
  {
    hide BindingFailure;
    assert Entered(v.row.state) == w.row.state by { SameEntered(env, w, v); }
  }

  // A crash, or waiting for recovery, changes nothing that counts.
  lemma CrashIsBehind(env: Env, w: World, v: World, stamp: Stamp, point: CrashPoint)
    requires Behind(env, w, v)
    requires w.row.active.Some? ==> !BeforeImplement(w.row.state)
    ensures var w' := CrashedStep(env, w, stamp, point);
      && Behind(env, w', v) && (w'.row.active.Some? ==> !BeforeImplement(w'.row.state))
  {
    hide BindingFailure, Behind, Worked, Enter;
    if !Terminal(w.row.state) && BindingFailure(env).None? {
      EnterIsBehind(env, w, v);
      var entered := Enter(w);
      MarkIsBehind(env, entered, v, stamp);
      var started := Started(env, entered, stamp);
      WorkIsBehind(env, started, v);
      MarkIsBehind(env, Worked(env, started).1, v, stamp);
    }
  }

  lemma RecoveryIsBehind(env: Env, w: World, v: World, at: int)
    requires Behind(env, w, v)
    requires w.row.active.Some? ==> !BeforeImplement(w.row.state)
    ensures var w' := RecoverStale(env, w, at);
      && Behind(env, w', v) && (w'.row.active.Some? ==> !BeforeImplement(w'.row.state))
  {
    hide BindingFailure;
  }

  // Two worlds that differ at most in claim, heartbeat and log.
  predicate Alike(w: World, v: World) {
    View(w.row) == View(v.row) && w.receipts == v.receipts
  }

  lemma FailsAlike(env: Env, w: World, v: World, stage: Stage, code: Code, detail: string, failState: State)
    requires Alike(w, v)
    ensures var w', v' := SemanticFail(env, w, stage, code, detail, failState), SemanticFail(env, v, stage, code, detail, failState);
      Alike(w', v') && AtRest(w'.row) && AtRest(v'.row)
  {
  }

  lemma JudgesAlike(env: Env, w: World, v: World, role: Role, out: Item)
    requires Alike(w, v) && AtRest(w.row) && AtRest(v.row)
    ensures var w', v' := Judge(env, w, role, out), Judge(env, v, role, out);
      Alike(w', v') && AtRest(w'.row) && AtRest(v'.row)
  {
    hide MechanicalGate, ReviewFailure, IsPass, IsFixRequired, ShownOr, SemanticFail;
    var gate := MechanicalGate(env, out);
    if role == IMPLEMENT && gate.Some? {
      FailsAlike(env, w, v, MECH, gate.value.0, gate.value.1, MECH_GATE_FAIL);
    } else if role != IMPLEMENT {
      FailsAlike(env, w, v, OfRole(role), Reported(ShownOr(env, out.code, "FIX_REQUIRED")), ShownOr(env, out.detail, ""), FailState(role));
    }
  }

  lemma CompletesAlike(env: Env, w: World, v: World, stamp: Stamp, free: Stamp)
    requires View(w.row) == View(v.row)
    requires Worked(env, w).0 == Worked(env, v).0 && Worked(env, w).1.receipts == Worked(env, v).1.receipts
    ensures var w', v' := Completed(env, w, stamp), Completed(env, v, free);
      Alike(w', v') && AtRest(w'.row) && AtRest(v'.row)
  {
    hide Judge, SemanticFail, WorkerRun;
    var role, wr, vr := RoleIn(w.row.state), Worked(env, w), Worked(env, v);
    assert w.row.state == View(w.row).state;
    match wr.0
    case Transient =>
    case Timeout => FailsAlike(env, wr.1, vr.1, OfRole(role), TimeBudgetExceeded, "hard process timeout", FailState(role));
    case Failure =>
    case Returns(out) => JudgesAlike(env, Finished(env, wr.1, stamp), Finished(env, vr.1, free), role, out);
  }

  // A blocked step does nothing; a step that runs catches up with one step of the crash-free run.
  lemma StepCatchesUp(env: Env, w: World, v: World, stamp: Stamp, free: Stamp)
    requires Behind(env, w, v)
    requires w.row.active.Some? ==> !BeforeImplement(w.row.state)
    ensures w.row.active.Some? ==> Step(env, w, stamp) == w
    ensures w.row.active.None? ==>
      var w', v' := Step(env, w, stamp), Step(env, v, free);
      Alike(w', v') && AtRest(w'.row) && AtRest(v'.row)
  {
    hide Completed, Started, Worked, BindingFailure;
    assert Terminal(v.row.state) <==> Terminal(w.row.state) by { SameEntered(env, w, v); }
    if !Terminal(v.row.state) && BindingFailure(env).None? && AtRest(w.row) {
      WorkCatchesUp(env, w, v, stamp, free);
      CompletesAlike(env, Started(env, Enter(w), stamp), Started(env, Enter(v), free), stamp, free);
    }
  }

  lemma SameEntered(env: Env, w: World, v: World)
    requires Behind(env, w, v)
    ensures Entered(w.row.state) == Entered(v.row.state) && (Terminal(v.row.state) <==> Terminal(w.row.state))
  {
    assert Entered(w.row.state) == Progress(w.row).state && Entered(v.row.state) == Progress(v.row).state;
  }

  lemma WorkCatchesUp(env: Env, w: World, v: World, stamp: Stamp, free: Stamp)
    requires Behind(env, w, v) && AtRest(w.row) && !Terminal(v.row.state) && BindingFailure(env).None?
    ensures var ws, vs := Started(env, Enter(w), stamp), Started(env, Enter(v), free);
      && Worked(env, ws).0 == Worked(env, vs).0 && Worked(env, ws).1.receipts == Worked(env, vs).1.receipts
      && View(ws.row) == View(vs.row)
  {
    hide BindingFailure;
  }

  // The steps up to `k` that were not blocked by a claim a dead process left behind.
  function Effective(events: seq<Event>, worlds: seq<World>, k: nat): nat
    requires k <= |events| == |worlds| - 1
  {
    if k == 0 then 0
    else Effective(events, worlds, k - 1) + (if events[k - 1].Steps? && worlds[k - 1].row.active.None? then 1 else 0)
  }

  function Capped(n: nat, most: nat): nat {
    if n < most then n else most
  }

  lemma BehindTerminal(env: Env, w: World, v: World)
    requires Behind(env, w, v) && (Terminal(w.row.state) || Terminal(v.row.state))
    ensures Terminal(v.row.state) && Terminal(w.row.state) && Alike(w, v) && AtRest(w.row)
  {
    SameEntered(env, w, v);
  }

  // After any crashes and recoveries the task stands where its unblocked steps alone would have brought it.
  lemma {:induction false} RunIsBehind(env: Env, events: seq<Event>, worlds: seq<World>, k: nat, free: seq<Event>, frees: seq<World>)
    requires IsRun(env, events, worlds) && NoRollback(events) && k <= |events|
    requires IsRun(env, free, frees) && CrashFree(free) && Terminal(frees[|free|].row.state)
    ensures Behind(env, worlds[k], frees[Capped(Effective(events, worlds, k), |free|)])
    ensures worlds[k].row.active.Some? ==> !BeforeImplement(worlds[k].row.state)
  {
    hide Step, CrashedStep, RecoverStale, Rollback, Behind, Terminal;
    if k == 0 {
      BehindSelf(env, Created());
    } else {
      RunIsBehind(env, events, worlds, k - 1, free, frees);
      assert StepOk(env, events, worlds, k - 1);
      var w, m := worlds[k - 1], Capped(Effective(events, worlds, k - 1), |free|);
      match events[k - 1]
      case Crashes(s, point) => CrashIsBehind(env, w, frees[m], s, point);
      case Recovers(at) => RecoveryIsBehind(env, w, frees[m], at);
      case Steps(s) =>
        if m == |free| {
          BehindTerminal(env, w, frees[m]);
          TerminalIsFinal(env, w, s);
        } else {
          StepCatchesUp(env, w, frees[m], s, free[m].stamp);
          if w.row.active.None? {
            assert StepOk(env, free, frees, m);
            SameViewIsBehind(env, worlds[k], frees[m + 1]);
          }
        }
    }
  }

  lemma SameViewIsBehind(env: Env, w: World, v: World)
    requires Alike(w, v) && AtRest(w.row) && AtRest(v.row)
    ensures Behind(env, w, v)
  {
  }

  lemma {:induction false} StaysTerminal(env: Env, events: seq<Event>, worlds: seq<World>, i: nat, k: nat)
    requires IsRun(env, events, worlds) && CrashFree(events) && i <= k <= |events| && Terminal(worlds[i].row.state)
    ensures worlds[k] == worlds[i]
    decreases k
  {
    hide Step, Terminal;
    if i < k {
      StaysTerminal(env, events, worlds, i, k - 1);
      assert StepOk(env, events, worlds, k - 1);
      TerminalIsFinal(env, worlds[k - 1], events[k - 1].stamp);
    }
  }

  /** Crash transparency: a run with any number of crashes, at any point between two transactions, and any
      recoveries, that has reached a terminal state has reached the row of the crash-free run: the same state,
      counters, fingerprint, checkpoint, result and owner-gate reason, and the same worker receipts. */
  lemma CrashesAreTransparent(env: Env, events: seq<Event>, worlds: seq<World>, k: nat, free: seq<Event>, frees: seq<World>)
    requires ValidSpec(env.spec)
    requires IsRun(env, events, worlds) && NoRollback(events) && k <= |events| && Terminal(worlds[k].row.state)
    requires IsRun(env, free, frees) && CrashFree(free) && |free| >= Bound(env)
    ensures View(worlds[k].row) == View(frees[|free|].row) && worlds[k].receipts == frees[|free|].receipts
  {
    hide Behind, StepOk, Step, Terminal;
    TerminatesInTime(env, free, frees, |free|);
    RunIsBehind(env, events, worlds, k, free, frees);
    var m := Capped(Effective(events, worlds, k), |free|);
    BehindTerminal(env, worlds[k], frees[m]);
    StaysTerminal(env, free, frees, m, |free|);
  }

  /** The step bound survives crashes: however often the process dies, the task is terminal once the bound's
      number of steps has run unblocked. */
  lemma CrashingRunsTerminate(env: Env, events: seq<Event>, worlds: seq<World>, k: nat)
    requires ValidSpec(env.spec) && IsRun(env, events, worlds) && NoRollback(events) && k <= |events|
    requires Effective(events, worlds, k) >= Bound(env)
    ensures Terminal(worlds[k].row.state)
  {
    hide Behind, StepOk, Step, Terminal;
    var free, frees := FreeRunExists(env, Stamp("", 0, 0), Bound(env));
    TerminatesInTime(env, free, frees, Bound(env));
    RunIsBehind(env, events, worlds, k, free, frees);
    BehindTerminal(env, worlds[k], frees[Bound(env)]);
  }

  /** A claim left behind by a dead process is recovered exactly from the moment its heartbeat is old enough, and
      recovering it consumes neither retry. */
  lemma DeadClaimIsRecoverable(env: Env, w: World, stamp: Stamp, point: CrashPoint, at: int)
    requires AtRest(w.row)
    ensures var dead := CrashedStep(env, w, stamp, point);
      dead.row.active.Some? ==>
        var after := RecoverStale(env, dead, at);
        && dead.row.active.value.claim == stamp.claim
        && (AtRest(after.row) <==> at >= stamp.startedAt + env.spec.budgets.heartbeat)
        && after.row.semantic == w.row.semantic && after.row.transient == w.row.transient && after.receipts == dead.receipts
  {
    hide BindingFailure, WorkerRun;
  }

  // ---- The step ceiling ----

  // `run_until_terminal` with a stamp for each step it may take.
  function RunUntil(env: Env, w: World, stamps: seq<Stamp>, maxSteps: nat): World
    decreases |stamps|
  {
    if stamps == [] then OwnerGate(w, StepCeiling, StepsUsed(maxSteps), [])
    else if Terminal(w.row.state) then w
    else RunUntil(env, Step(env, w, stamps[0]), stamps[1..], maxSteps)
  }

  predicate StampedBy(events: seq<Event>, stamps: seq<Stamp>) {
    |events| == |stamps| && forall k | 0 <= k < |events| :: events[k] == Steps(stamps[k])
  }

  lemma {:induction false} RunUntilFrom(env: Env, events: seq<Event>, worlds: seq<World>, stamps: seq<Stamp>, i: nat, maxSteps: nat)
    requires ValidSpec(env.spec) && IsRun(env, events, worlds) && StampedBy(events, stamps)
    requires i <= Bound(env) < |stamps|
    ensures RunUntil(env, worlds[i], stamps[i..], maxSteps) == worlds[Bound(env)]
    decreases |stamps| - i
  {
    hide Step;
    if Terminal(worlds[i].row.state) {
      StaysTerminal(env, events, worlds, i, Bound(env));
    } else {
      if i == Bound(env) {
        TerminatesInTime(env, events, worlds, i);
      }
      assert StepOk(env, events, worlds, i);
      assert stamps[i..][1..] == stamps[i + 1..];
      RunUntilFrom(env, events, worlds, stamps, i + 1, maxSteps);
    }
  }

  /** With more steps allowed than the bound, so with the default fifty, the ceiling branch is unreachable:
      the loop returns the terminal world the crash-free run reaches within the bound. */
  lemma CeilingUnreachable(env: Env, events: seq<Event>, worlds: seq<World>, stamps: seq<Stamp>)
    requires ValidSpec(env.spec) && IsRun(env, events, worlds) && StampedBy(events, stamps) && |stamps| > Bound(env)
    ensures RunUntil(env, worlds[0], stamps, |stamps|) == worlds[Bound(env)]
    ensures Terminal(worlds[Bound(env)].row.state)
  {
    hide RunUntil;
    assert stamps[0..] == stamps;
    RunUntilFrom(env, events, worlds, stamps, 0, |stamps|);
    TerminatesInTime(env, events, worlds, Bound(env));
  }

  // ---- Where a DONE comes from ----

  function FixCount(log: seq<Entry>): nat {
    if log == [] then 0
    else FixCount(log[..|log| - 1]) + (if log[|log| - 1].kind.FixRequired? then 1 else 0)
  }

  ghost predicate NoFixAfter(log: seq<Entry>, i: int) {
    forall k | i < k < |log| && 0 <= k :: !log[k].kind.FixRequired?
  }

  predicate IsMechPass(env: Env, e: Entry) {
    e.kind.MechanicalPass? && e.kind.head == Str(env.spec.candidateHead) && NonEmptyText(e.kind.evidence) && e.after == IN_LAB
  }

  predicate IsLabPass(env: Env, e: Entry) {
    e.kind.LabPass? && e.kind.head == Str(env.spec.candidateHead) && NonEmptyText(e.kind.evidence) && e.after == IN_AUDIT
  }

  predicate IsAuditPass(env: Env, e: Entry) {
    e.kind.AuditPass? && e.kind.head == Str(env.spec.candidateHead) && NonEmptyText(e.kind.evidence) && e.after == DONE
  }

  // The log holds a mechanical pass with no fix required since.
  ghost predicate Gated(env: Env, log: seq<Entry>) {
    exists i :: 0 <= i < |log| && IsMechPass(env, log[i]) && NoFixAfter(log, i)
  }

  ghost predicate Reviewed(env: Env, log: seq<Entry>) {
    exists i, j :: 0 <= i < j < |log| && IsMechPass(env, log[i]) && IsLabPass(env, log[j]) && NoFixAfter(log, i)
  }

  ghost predicate Audited(env: Env, log: seq<Entry>) {
    exists i, j, k :: 0 <= i < j < k < |log| && IsMechPass(env, log[i]) && IsLabPass(env, log[j]) && IsAuditPass(env, log[k]) && NoFixAfter(log, i)
  }

  ghost predicate Provenance(env: Env, w: World) {
    && (w.row.state == IN_LAB ==> Gated(env, w.log))
    && (w.row.state == IN_AUDIT ==> Reviewed(env, w.log))
    && (w.row.state == DONE ==> Audited(env, w.log))
    && w.row.semantic == FixCount(w.log)
  }

  /** What a passed mechanical gate vouches for, exactly. */
  lemma GatePassesIff(env: Env, out: Item)
    ensures MechanicalGate(env, out).None? <==>
      && SafetyFailure(env.spec.safety).None?
      && IsReady(out.status) && out.candidateHead == Str(env.spec.candidateHead)
      && out.diffLines.Num? && 0 <= out.diffLines.n <= env.spec.budgets.diffLines
      && out.cost.Num? && 0 <= out.cost.n <= env.spec.budgets.cost
      && NonEmptyText(out.evidence)
  {
  }

  // One logged transaction that changes neither the state nor the semantic count.
  lemma LogQuietly(env: Env, w: World, w': World, e: Entry)
    requires Provenance(env, w) && w'.log == w.log + [e] && !e.kind.FixRequired?
    requires w'.row.semantic == w.row.semantic
    requires w'.row.state == w.row.state || w'.row.state == OWNER_GATE || w'.row.state == ROLLED_BACK || w'.row.state == IN_IMPLEMENT
    ensures Provenance(env, w')
  {
    hide IsMechPass, IsLabPass, IsAuditPass;
    assert w'.log[..|w.log|] == w.log;
    if w'.row.state == IN_LAB {
      var i :| 0 <= i < |w.log| && IsMechPass(env, w.log[i]) && NoFixAfter(w.log, i);
      assert IsMechPass(env, w'.log[i]) && NoFixAfter(w'.log, i);
    } else if w'.row.state == IN_AUDIT {
      var i, j :| 0 <= i < j < |w.log| && IsMechPass(env, w.log[i]) && IsLabPass(env, w.log[j]) && NoFixAfter(w.log, i);
      assert IsMechPass(env, w'.log[i]) && IsLabPass(env, w'.log[j]) && NoFixAfter(w'.log, i);
    } else if w'.row.state == DONE {
      var i, j, k :| 0 <= i < j < k < |w.log| && IsMechPass(env, w.log[i]) && IsLabPass(env, w.log[j]) && IsAuditPass(env, w.log[k]) && NoFixAfter(w.log, i);
      assert IsMechPass(env, w'.log[i]) && IsLabPass(env, w'.log[j]) && IsAuditPass(env, w'.log[k]) && NoFixAfter(w'.log, i);
    }
  }

  lemma LogFix(env: Env, w: World, w': World, e: Entry)
    requires Provenance(env, w) && w'.log == w.log + [e] && e.kind.FixRequired?
    requires w'.row.semantic == w.row.semantic + 1 && BeforeImplement(w'.row.state)
    ensures Provenance(env, w')
  {
    hide Gated, Reviewed, Audited;
    assert w'.log[..|w.log|] == w.log;
  }

  lemma LogMechPass(env: Env, w: World, w': World, e: Entry)
    requires Provenance(env, w) && w'.log == w.log + [e] && IsMechPass(env, e)
    requires w'.row.semantic == w.row.semantic && w'.row.state == IN_LAB
    ensures Provenance(env, w')
  {
    assert w'.log[..|w.log|] == w.log;
    assert IsMechPass(env, w'.log[|w.log|]) && NoFixAfter(w'.log, |w.log|);
  }

  lemma LogReviewPass(env: Env, w: World, w': World, e: Entry)
    requires Provenance(env, w) && w'.log == w.log + [e]
    requires w'.row.semantic == w.row.semantic
    requires (w.row.state == IN_LAB && IsLabPass(env, e) && w'.row.state == IN_AUDIT)
          || (w.row.state == IN_AUDIT && IsAuditPass(env, e) && w'.row.state == DONE)
    ensures Provenance(env, w')
  {
    hide IsMechPass;
    assert w'.log[..|w.log|] == w.log;
    if w.row.state == IN_LAB {
      var i :| 0 <= i < |w.log| && IsMechPass(env, w.log[i]) && NoFixAfter(w.log, i);
      assert IsMechPass(env, w'.log[i]) && IsLabPass(env, w'.log[|w.log|]) && NoFixAfter(w'.log, i);
    } else {
      var i, j :| 0 <= i < j < |w.log| && IsMechPass(env, w.log[i]) && IsLabPass(env, w.log[j]) && NoFixAfter(w.log, i);
      assert IsMechPass(env, w'.log[i]) && IsLabPass(env, w'.log[j]) && IsAuditPass(env, w'.log[|w.log|]) && NoFixAfter(w'.log, i);
    }
  }

  lemma OwnerGateKeeps(env: Env, w: World, reason: Reason, failed: Failed, history: seq<string>)
    requires Provenance(env, w)
    ensures Provenance(env, OwnerGate(w, reason, failed, history))
  {
    LogQuietly(env, w, OwnerGate(w, reason, failed, history), Entry(OwnerGateRequired(reason), w.row.state, OWNER_GATE));
  }

  lemma SemanticFailKeeps(env: Env, w: World, stage: Stage, code: Code, detail: string, failState: State)
    requires Provenance(env, w) && BeforeImplement(failState)
    ensures Provenance(env, SemanticFail(env, w, stage, code, detail, failState))
  {
    hide Provenance;
    var fp, w' := env.fingerprint(stage, code, detail), SemanticFail(env, w, stage, code, detail, failState);
    if w'.row.state == OWNER_GATE {
      OwnerGateKeeps(env, w, RepeatedFingerprint, AtStage(stage, code), [fp]);
      OwnerGateKeeps(env, w, SemanticBudgetExhausted, AtStage(stage, code), [fp]);
    } else {
      LogFix(env, w, w', Entry(FixRequired(stage, code, fp), w.row.state, failState));
    }
  }

  lemma TransientFailKeeps(env: Env, w: World, role: Role)
    requires Provenance(env, w)
    ensures Provenance(env, TransientFail(env, w, role))
  {
    hide Provenance;
    OwnerGateKeeps(env, w, TransientBudgetExhausted, TransientAt(role), []);
    LogQuietly(env, w, Moved(w, TransientCheckpointed(role), w.row.(transient := w.row.transient + 1, active := None, checkpoint := Some(TransientCheckpoint(role)))),
               Entry(TransientCheckpointed(role), w.row.state, w.row.state));
  }

  lemma JudgeKeeps(env: Env, w: World, role: Role, out: Item)
    requires Provenance(env, w) && role == RoleIn(w.row.state)
    ensures Provenance(env, Judge(env, w, role, out))
  {
    hide Provenance, MechanicalGate, FixCount, IsPass, IsFixRequired, ShownOr, SemanticFail;
    var w' := Judge(env, w, role, out);
    if role == IMPLEMENT {
      var gate := MechanicalGate(env, out);
      if gate.Some? {
        SemanticFailKeeps(env, w, MECH, gate.value.0, gate.value.1, MECH_GATE_FAIL);
      } else {
        GatePassesIff(env, out);
        LogMechPass(env, w, w', Entry(MechanicalPass(Str(env.spec.candidateHead), out.evidence), w.row.state, IN_LAB));
      }
    } else {
      var invalid := ReviewFailure(env, role, out);
      if invalid.Some? {
        OwnerGateKeeps(env, w, invalid.value, ByReason(invalid.value), []);
      } else if IsPass(out.verdict) {
        LogReviewPass(env, w, w', w'.log[|w.log|]);
      } else if IsFixRequired(out.verdict) {
        SemanticFailKeeps(env, w, OfRole(role), Reported(ShownOr(env, out.code, "FIX_REQUIRED")), ShownOr(env, out.detail, ""), FailState(role));
      } else {
        OwnerGateKeeps(env, w, UnparsableOrBlock(role), NeitherPassNorFix(role), []);
      }
    }
  }

  lemma BeginKeeps(env: Env, w: World, stamp: Stamp)
    requires Provenance(env, w)
    ensures Provenance(env, Enter(w)) && Provenance(env, Started(env, w, stamp)) && Provenance(env, Finished(env, w, stamp))
    ensures Provenance(env, Worked(env, w).1)
  {
    hide Gated, Reviewed, Audited, FixCount, WorkerRun;
    LogQuietly(env, w, Moved(w, EnterImplement, w.row.(state := IN_IMPLEMENT)), Entry(EnterImplement, w.row.state, IN_IMPLEMENT));
    var role := RoleIn(w.row.state);
    LogQuietly(env, w, Started(env, w, stamp), Entry(StepStarted(role), w.row.state, w.row.state));
    LogQuietly(env, w, Finished(env, w, stamp), Entry(StepFinished(role), w.row.state, w.row.state));
  }

  lemma CompletedKeeps(env: Env, w: World, stamp: Stamp)
    requires Provenance(env, w)
    ensures Provenance(env, Completed(env, w, stamp))
  {
    hide Provenance, Judge, SemanticFail, TransientFail, OwnerGate, WorkerRun;
    var role, ran := RoleIn(w.row.state), Worked(env, w);
    BeginKeeps(env, w, stamp);
    match ran.0
    case Transient => TransientFailKeeps(env, ran.1, role);
    case Timeout => SemanticFailKeeps(env, ran.1, OfRole(role), TimeBudgetExceeded, "hard process timeout", FailState(role));
    case Failure => OwnerGateKeeps(env, ran.1, WorkerExecutionFailure, WorkerAt(role), []);
    case Returns(out) =>
      BeginKeeps(env, ran.1, stamp);
      JudgeKeeps(env, Finished(env, ran.1, stamp), role, out);
  }

  lemma StepKeepsProvenance(env: Env, w: World, stamp: Stamp)
    requires Provenance(env, w)
    ensures Provenance(env, Step(env, w, stamp))
  {
    hide Provenance, Completed, OwnerGate, Enter, Started, Finished, Worked;
    var denied := BindingFailure(env);
    if denied.Some? {
      OwnerGateKeeps(env, w, denied.value, ByReason(denied.value), []);
    } else {
      BeginKeeps(env, w, stamp);
      BeginKeeps(env, Enter(w), stamp);
      CompletedKeeps(env, Started(env, Enter(w), stamp), stamp);
    }
  }

  lemma CrashKeepsProvenance(env: Env, w: World, stamp: Stamp, point: CrashPoint)
    requires Provenance(env, w)
    ensures Provenance(env, CrashedStep(env, w, stamp, point))
  {
    hide Provenance, Enter, Started, Finished, Worked;
    BeginKeeps(env, w, stamp);
    BeginKeeps(env, Enter(w), stamp);
    BeginKeeps(env, Started(env, Enter(w), stamp), stamp);
    BeginKeeps(env, Worked(env, Started(env, Enter(w), stamp)).1, stamp);
  }

  lemma EventKeepsProvenance(env: Env, w: World, e: Event)
    requires Provenance(env, w)
    ensures Provenance(env, After(env, w, e))
  {
    hide Provenance, Step, CrashedStep;
    var w' := After(env, w, e);
    match e
    case Steps(stamp) => StepKeepsProvenance(env, w, stamp);
    case Crashes(stamp, point) => CrashKeepsProvenance(env, w, stamp, point);
    case Recovers(at) =>
      if w' != w { LogQuietly(env, w, w', Entry(StaleRecovered, w.row.state, w.row.state)); }
    case RollsBack(reason) =>
      if w' != w { LogQuietly(env, w, w', Entry(CandidateRollback, w.row.state, ROLLED_BACK)); }
  }

  /** DONE has provenance: in every reachable world, a DONE task's log holds a mechanical pass, then a LAB pass,
      then an AUDIT pass, each bound to the spec's candidate head with evidence, and no fix was required after
      the first; and the semantic count is the number of fixes ever required. */
  lemma {:induction false} DoneHasProvenance(env: Env, events: seq<Event>, worlds: seq<World>, k: nat)
    requires IsRun(env, events, worlds) && k < |worlds|
    ensures Provenance(env, worlds[k])
    ensures worlds[k].row.state == DONE ==> Audited(env, worlds[k].log)
    ensures worlds[k].row.semantic == FixCount(worlds[k].log)
  {
    hide After, Gated, Reviewed, Audited;
    if k == 0 {
      assert Created().log[..0] == [];
    } else {
      DoneHasProvenance(env, events, worlds, k - 1);
      assert StepOk(env, events, worlds, k - 1);
      EventKeepsProvenance(env, worlds[k - 1], events[k - 1]);
    }
  }

  // A terminal row is at rest: every way into a terminal state clears the claim.
  lemma {:induction false} TerminalAtRest(env: Env, events: seq<Event>, worlds: seq<World>, k: nat)
    requires IsRun(env, events, worlds) && k < |worlds|
    ensures Terminal(worlds[k].row.state) ==> AtRest(worlds[k].row)
  {
    hide After;
    if k > 0 {
      TerminalAtRest(env, events, worlds, k - 1);
      assert StepOk(env, events, worlds, k - 1);
      EventRests(env, worlds[k - 1], events[k - 1]);
    }
  }

  lemma EventRests(env: Env, w: World, e: Event)
    requires Terminal(w.row.state) ==> AtRest(w.row)
    ensures Terminal(After(env, w, e).row.state) ==> AtRest(After(env, w, e).row)
  {
    hide Completed, BindingFailure;
    if e.Steps? && !Terminal(w.row.state) && BindingFailure(env).None? {
      var started := Started(env, Enter(w), e.stamp);
      CompletesAlike(env, started, started, e.stamp, e.stamp);
    }
  }

  /** Terminal states are absorbing: no step, crash, recovery or rollback changes the task again. */
  lemma {:induction false} TerminalIsAbsorbing(env: Env, events: seq<Event>, worlds: seq<World>, i: nat, k: nat)
    requires IsRun(env, events, worlds) && i <= k < |worlds| && Terminal(worlds[i].row.state)
    ensures worlds[k] == worlds[i]
    decreases k
  {
    hide After, Terminal;
    if i < k {
      TerminalIsAbsorbing(env, events, worlds, i, k - 1);
      TerminalAtRest(env, events, worlds, k - 1);
      assert StepOk(env, events, worlds, k - 1);
      AbsorbedEvent(env, worlds[k - 1], events[k - 1]);
    }
  }

  lemma AbsorbedEvent(env: Env, w: World, e: Event)
    requires Terminal(w.row.state) && AtRest(w.row)
    ensures After(env, w, e) == w
  {
  }

  // ---- What a DONE reports ----

  ghost predicate ReportsDone(env: Env, w: World) {
    && w.log != [] && IsAuditPass(env, w.log[|w.log| - 1])
    && w.row.result == Some(DoneDocument(env.spec.taskId, env.spec.domain, env.spec.candidateHead,
                                         w.row.semantic, w.row.transient, w.log[|w.log| - 1].kind.evidence))
  }

  lemma CompletedReportsDone(env: Env, w: World, stamp: Stamp)
    requires !Terminal(w.row.state)
    ensures Completed(env, w, stamp).row.state == DONE ==> ReportsDone(env, Completed(env, w, stamp))
  {
    hide MechanicalGate, IsPass, IsFixRequired, WorkerRun, ShownOr;
    var role, ran := RoleIn(w.row.state), Worked(env, w);
    assert FailState(role) != DONE;
  }

  lemma EventReportsDone(env: Env, w: World, e: Event)
    requires Terminal(w.row.state) ==> AtRest(w.row)
    requires w.row.state == DONE ==> ReportsDone(env, w)
    ensures After(env, w, e).row.state == DONE ==> ReportsDone(env, After(env, w, e))
  {
    hide Completed, BindingFailure, ReportsDone, WorkerRun;
    if Terminal(w.row.state) {
      AbsorbedEvent(env, w, e);
    } else if e.Steps? && BindingFailure(env).None? {
      CompletedReportsDone(env, Started(env, Enter(w), e.stamp), e.stamp);
    }
  }

  /** The result of a DONE task is about this task: its id, domain and candidate head, its own counters, and the
      evidence of the audit that passed, which is the last thing in its log. */
  lemma {:induction false} DoneReportsTheAudit(env: Env, events: seq<Event>, worlds: seq<World>, k: nat)
    requires IsRun(env, events, worlds) && k < |worlds|
    ensures worlds[k].row.state == DONE ==> ReportsDone(env, worlds[k])
  {
    hide After, ReportsDone;
    if k > 0 {
      DoneReportsTheAudit(env, events, worlds, k - 1);
      TerminalAtRest(env, events, worlds, k - 1);
      assert StepOk(env, events, worlds, k - 1);
      EventReportsDone(env, worlds[k - 1], events[k - 1]);
    }
  }
}
