// The orchestrator as it runs: one task row and its event log, updated in place.
module OrchestratorStore {
  import opened Prelude
  import opened Orchestrator
  import Spec = Orchestrator
  import Runs = OrchestratorRuns

  datatype Status = Captured(item: Item) | HandledTransient | HandledTimeout | HandledFailure | Refused

  class Task {
    const env: Env
    var row: Row
    var log: seq<Entry>
    var receipts: map<string, Item>

    ghost function Abs(): World
      reads this
    {
      World(row, log, receipts)
    }

    /** `create_task`. */
    constructor (env: Env)
      requires ValidSpec(env.spec)
      ensures Abs() == Created() && this.env == env
    {
      this.env := env;
      row := Row(PENDING, 0, 0, None, 0, None, None, None, None, None);
      log := [Entry(TaskCreated, PENDING, PENDING)];
      receipts := map[];
    }

    // `transition`: one transaction that rewrites the row and appends its event.
    method Transition(kind: Kind, next: Row)
      modifies this`row, this`log
      ensures Abs() == Moved(old(Abs()), kind, next)
    {
      log := log + [Entry(kind, row.state, next.state)];
      row := next;
    }

    /** `_owner_gate`. */
    method OwnerGate(reason: Reason, failed: Failed, history: seq<string>)
      modifies this`row, this`log
      ensures Abs() == Spec.OwnerGate(old(Abs()), reason, failed, history)
    {
      var summary := OwnerSummary(row.checkpoint, failed, history, reason);
      Transition(OwnerGateRequired(reason),
                 row.(state := OWNER_GATE, ownerReason := Some(reason), result := Some(summary), active := None));
    }

    /** `_semantic_fail`: count the failure, unless it repeats itself or exhausts the budget. */
    method SemanticFail(stage: Stage, code: Code, detail: string, failState: State)
      modifies this`row, this`log
      ensures Abs() == Spec.SemanticFail(env, old(Abs()), stage, code, detail, failState)
    {
      var fp := env.fingerprint(stage, code, detail);
      var repeated := 1;
      if row.lastFp == Some(fp) {
        repeated := row.repeated + 1;
      }
      var retries := row.semantic + 1;
      if repeated >= 2 {
        OwnerGate(RepeatedFingerprint, AtStage(stage, code), [fp]);
        return;
      }
      if retries > env.spec.budgets.semantic {
        OwnerGate(SemanticBudgetExhausted, AtStage(stage, code), [fp]);
        return;
      }
      Transition(FixRequired(stage, code, fp),
                 row.(state := failState, semantic := retries, lastFp := Some(fp), repeated := repeated, active := None,
                      checkpoint := Some(StageFail(stage, code))));
    }

    /** `_transient_fail`: the same state again, one retry fewer. */
    method TransientFail(role: Role)
      modifies this`row, this`log
      ensures Abs() == Spec.TransientFail(env, old(Abs()), role)
    {
      var count := row.transient + 1;
      if count > env.spec.budgets.transient {
        OwnerGate(TransientBudgetExhausted, TransientAt(role), []);
        return;
      }
      Transition(TransientCheckpointed(role), row.(transient := count, active := None, checkpoint := Some(TransientCheckpoint(role))));
    }

    /** `start_step`: refused while another claim is active. */
    method StartStep(role: Role, key: string, claim: string, at: int) returns (ok: bool)
      modifies this`row, this`log
      ensures ok == old(row.active.None?)
      ensures Abs() == if ok then Spec.StartStep(old(Abs()), role, key, claim, at) else old(Abs())
    {
      if row.active.Some? {
        return false;
      }
      Transition(StepStarted(role),
                 row.(active := Some(Active(role, claim, key)), heartbeat := Some(at), checkpoint := Some(StepStart(role, key))));
      return true;
    }

    /** `finish_step`: only the holder of the current claim may. */
    method FinishStep(role: Role, key: string, claim: string, at: int) returns (ok: bool)
      modifies this`row, this`log
      ensures ok == old(row.active.Some? && row.active.value.claim == claim)
      ensures Abs() == if ok then Spec.FinishStep(old(Abs()), role, key, at) else old(Abs())
    {
      if row.active.None? || row.active.value.claim != claim {
        return false;
      }
      Transition(StepFinished(role), row.(active := None, heartbeat := Some(at), checkpoint := Some(Checkpoint.Captured(role, key))));
      return true;
    }

    /** `recover_stale`. */
    method RecoverStale(at: int) returns (recovered: bool)
      modifies this`row, this`log
      ensures Abs() == Spec.RecoverStale(env, old(Abs()), at)
      ensures recovered ==> old(row.active.Some?) && row.active.None? && row.semantic == old(row.semantic)
      ensures !recovered ==> Abs() == old(Abs())
    {
      if row.active.Some? && row.heartbeat.Some? && at - row.heartbeat.value >= env.spec.budgets.heartbeat {
        Transition(StaleRecovered, row.(active := None, checkpoint := Some(Recovered(row.active.value.key))));
        return true;
      }
      return false;
    }

    /** `DurableScriptedRoleWorker.run`. */
    method RunWorker(role: Role, key: string) returns (out: Outcome)
      modifies this`receipts
      ensures (out, receipts) == WorkerRun(env, old(receipts), role, key, row.semantic + 1, row.transient + 1)
    {
      if key in receipts {
        return Returns(receipts[key]);
      }
      out := env.script(role, row.semantic + 1, row.transient + 1);
      if out.Returns? {
        receipts := receipts[key := out.item];
      }
    }

    /** `step`. */
    method Step(stamp: Stamp)
      modifies this`row, this`log, this`receipts
      ensures Abs() == Spec.Step(env, old(Abs()), stamp)
    {
      hide MechanicalGate, ReviewFailure, IsPass, IsFixRequired, ShownOr;
      if Terminal(row.state) {
        return;
      }
      var denied := BindingFailure(env);
      if denied.Some? {
        OwnerGate(denied.value, ByReason(denied.value), []);
        return;
      }
      if BeforeImplement(row.state) {
        Transition(EnterImplement, row.(state := IN_IMPLEMENT));
      }
      var role := RoleIn(row.state);
      var status := RunClaimed(role, stamp);
      if status.Captured? {
        Judged(role, status.item);
      }
    }

    /** `_run_claimed`: claim, run the worker, and deal with everything but a captured result. */
    method RunClaimed(role: Role, stamp: Stamp) returns (status: Status)
      requires role == RoleIn(row.state)
      modifies this`row, this`log, this`receipts
      ensures status.Refused? <==> old(row.active.Some?)
      ensures status.Refused? ==> Abs() == old(Abs())
      ensures !status.Refused? ==>
        var started := Started(env, old(Abs()), stamp);
        if status.Captured?
        then Worked(env, started).0 == Returns(status.item) && Abs() == Finished(env, Worked(env, started).1, stamp)
        else !Worked(env, started).0.Returns? && Abs() == Completed(env, started, stamp)
    {
      hide Judge, WorkerRun;
      var key := env.operationKey(role, row.semantic);
      var ok := StartStep(role, key, stamp.claim, stamp.startedAt);
      if !ok {
        return Refused;
      }
      var out := RunWorker(role, key);
      match out
      case Transient =>
        TransientFail(role);
        return HandledTransient;
      case Timeout =>
        SemanticFail(OfRole(role), TimeBudgetExceeded, "hard process timeout", FailState(role));
        return HandledTimeout;
      case Failure =>
        OwnerGate(WorkerExecutionFailure, WorkerAt(role), []);
        return HandledFailure;
      case Returns(item) =>
        ok := FinishStep(role, key, stamp.claim, stamp.finishedAt);
        return Status.Captured(item);
    }

    // What `step` does with a captured result.
    method Judged(role: Role, out: Item)
      modifies this`row, this`log
      ensures Abs() == Judge(env, old(Abs()), role, out)
    {
      hide MechanicalGate, ReviewFailure, IsPass, IsFixRequired, ShownOr;
      if role == IMPLEMENT {
        var gate := MechanicalGate(env, out);
        if gate.Some? {
          SemanticFail(MECH, gate.value.0, gate.value.1, MECH_GATE_FAIL);
          return;
        }
        Transition(MechanicalPass(Str(env.spec.candidateHead), out.evidence), row.(state := IN_LAB, checkpoint := Some(MechPassed)));
        return;
      }
      var invalid := ReviewFailure(env, role, out);
      if invalid.Some? {
        OwnerGate(invalid.value, ByReason(invalid.value), []);
      } else if IsPass(out.verdict) {
        if role == LAB {
          Transition(LabPass(out.reviewedHead, out.evidence),
                     row.(state := IN_AUDIT, checkpoint := Some(LabPassed), repeated := 0, lastFp := None));
        } else {
          var result := DoneDocument(env.spec.taskId, env.spec.domain, env.spec.candidateHead, row.semantic, row.transient, out.evidence);
          Transition(AuditPass(out.reviewedHead, out.evidence),
                     row.(state := DONE, checkpoint := Some(DoneMark), repeated := 0, lastFp := None, result := Some(result)));
        }
      } else if IsFixRequired(out.verdict) {
        SemanticFail(OfRole(role), Reported(ShownOr(env, out.code, "FIX_REQUIRED")), ShownOr(env, out.detail, ""), FailState(role));
      } else {
        OwnerGate(UnparsableOrBlock(role), NeitherPassNorFix(role), []);
      }
    }

    /** `rollback`. */
    method Rollback(reason: string) returns (ok: bool)
      modifies this`row, this`log
      ensures ok == (reason != "" && !Terminal(old(row.state)))
      ensures Abs() == Spec.Rollback(env, old(Abs()), reason)
    {
      if reason == "" || Terminal(row.state) {
        return false;
      }
      Transition(CandidateRollback,
                 row.(state := ROLLED_BACK, active := None, checkpoint := Some(RolledBackMark),
                      result := Some(RollbackDocument(env.spec.taskId, env.spec.domain, reason))));
      return true;
    }

    /** `run_until_terminal`. */
    method RunUntilTerminal(stamps: seq<Stamp>)
      modifies this`row, this`log, this`receipts
      ensures Abs() == Runs.RunUntil(env, old(Abs()), stamps, |stamps|)
      ensures Terminal(row.state)
    {
      hide Spec.Step;
      for i := 0 to |stamps|
        invariant Runs.RunUntil(env, Abs(), stamps[i..], |stamps|) == Runs.RunUntil(env, old(Abs()), stamps, |stamps|)
      {
        if Terminal(row.state) {
          return;
        }
        assert stamps[i..][1..] == stamps[i + 1..];
        Step(stamps[i]);
      }
      OwnerGate(StepCeiling, StepsUsed(|stamps|), []);
    }
  }
}
