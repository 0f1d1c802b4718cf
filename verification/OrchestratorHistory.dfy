// The orchestrator's row as a memory of its log, and where every step leads: what
// counts as a failure, when a failure repeats itself, and which gate it meets.
module OrchestratorHistory {
  import opened Prelude
  import opened Orchestrator
  import opened OrchestratorRuns

  // ---- What the log remembers ----

  predicate ReviewPass(k: Kind) {
    k.LabPass? || k.AuditPass?
  }

  // The fingerprint of the fix required last, unless a review has passed since.
  function LatestFix(log: seq<Entry>): Option<string> {
    if log == [] then None
    else
      var k := log[|log| - 1].kind;
      if k.FixRequired? then Some(k.fingerprint) else if ReviewPass(k) then None else LatestFix(log[..|log| - 1])
  }

  function Transients(log: seq<Entry>): nat {
    if log == [] then 0
    else Transients(log[..|log| - 1]) + (if log[|log| - 1].kind.TransientCheckpointed? then 1 else 0)
  }

  ghost predicate FixStands(log: seq<Entry>, i: int, fp: string) {
    && 0 <= i < |log| && log[i].kind.FixRequired? && log[i].kind.fingerprint == fp
    && forall j | i < j < |log| :: !log[j].kind.FixRequired? && !log[j].kind.LabPass? && !log[j].kind.AuditPass?
  }

  lemma {:induction false} LatestFixStands(log: seq<Entry>, fp: string)
    ensures LatestFix(log) == Some(fp) <==> exists i :: FixStands(log, i, fp)
  {
    if log != [] {
      var n := |log| - 1;
      var rest, k := log[..n], log[n].kind;
      LatestFixStands(rest, fp);
      if k.FixRequired? {
        assert k.fingerprint == fp ==> FixStands(log, n, fp);
        assert forall i | FixStands(log, i, fp) :: i == n;
      } else if !ReviewPass(k) {
        forall i ensures FixStands(log, i, fp) <==> FixStands(rest, i, fp) {
          assert 0 <= i < n ==> rest[i] == log[i];
          assert FixStands(log, i, fp) ==> forall j | i < j < n :: rest[j] == log[j];
        }
      } else {
        assert forall i :: !FixStands(log, i, fp);
      }
    }
  }

  ghost predicate NewFixAt(log: seq<Entry>, j: nat)
    requires j < |log|
  {
    log[j].kind.FixRequired? ==> LatestFix(log[..j]) != Some(log[j].kind.fingerprint)
  }

  // No fix is required twice in a row for the same failure.
  ghost predicate NeverRepeats(log: seq<Entry>) {
    forall j {:trigger NewFixAt(log, j)} | 0 <= j < |log| :: NewFixAt(log, j)
  }

  ghost predicate Remembers(w: World) {
    && w.row.lastFp == LatestFix(w.log)
    && w.row.repeated == (if w.row.lastFp.Some? then 1 else 0)
    && w.row.transient == Transients(w.log)
    && NeverRepeats(w.log)
  }

  // How one logged transaction treats the memory.
  predicate Wrote(r: Row, r': Row, k: Kind) {
    && (k.FixRequired? ==> r.lastFp != Some(k.fingerprint) && r'.lastFp == Some(k.fingerprint) && r'.repeated == 1)
    && (ReviewPass(k) ==> r'.lastFp.None? && r'.repeated == 0)
    && (!k.FixRequired? && !ReviewPass(k) ==> r'.lastFp == r.lastFp && r'.repeated == r.repeated)
    && r'.transient == r.transient + (if k.TransientCheckpointed? then 1 else 0)
  }

  lemma WroteKeeps(w: World, w': World, e: Entry)
    requires Remembers(w) && w'.log == w.log + [e] && Wrote(w.row, w'.row, e.kind)
    ensures Remembers(w')
  {
    assert w'.log[..|w.log|] == w.log;
    forall j | 0 <= j < |w'.log| ensures NewFixAt(w'.log, j) {
      if j < |w.log| {
        assert NewFixAt(w.log, j);
        assert w'.log[..j] == w.log[..j];
      }
    }
  }

  lemma MovedKeeps(w: World, kind: Kind, row: Row)
    requires Remembers(w) && Wrote(w.row, row, kind)
    ensures Remembers(Moved(w, kind, row))
  {
    hide Remembers;
    WroteKeeps(w, Moved(w, kind, row), Entry(kind, w.row.state, row.state));
  }

  lemma GateRemembers(w: World, reason: Reason, failed: Failed, history: seq<string>)
    requires Remembers(w)
    ensures Remembers(OwnerGate(w, reason, failed, history))
  {
    hide Remembers;
    MovedKeeps(w, OwnerGateRequired(reason), OwnerGate(w, reason, failed, history).row);
  }

  lemma SemanticFailRemembers(env: Env, w: World, stage: Stage, code: Code, detail: string, failState: State)
    requires Remembers(w)
    ensures Remembers(SemanticFail(env, w, stage, code, detail, failState))
  {
    hide NeverRepeats, LatestFix, Transients;
    var fp := env.fingerprint(stage, code, detail);
    var w' := SemanticFail(env, w, stage, code, detail, failState);
    if w'.row.state == OWNER_GATE {
      GateRemembers(w, RepeatedFingerprint, AtStage(stage, code), [fp]);
      GateRemembers(w, SemanticBudgetExhausted, AtStage(stage, code), [fp]);
    }
    if w.row.lastFp != Some(fp) && w.row.semantic + 1 <= env.spec.budgets.semantic {
      MovedKeeps(w, FixRequired(stage, code, fp), w'.row);
    }
  }

  lemma TransientFailRemembers(env: Env, w: World, role: Role)
    requires Remembers(w)
    ensures Remembers(TransientFail(env, w, role))
  {
    hide Remembers;
    var w' := TransientFail(env, w, role);
    GateRemembers(w, TransientBudgetExhausted, TransientAt(role), []);
    if w.row.transient + 1 <= env.spec.budgets.transient {
      MovedKeeps(w, TransientCheckpointed(role), w'.row);
    }
  }

  lemma JudgeRemembers(env: Env, w: World, role: Role, out: Item)
    requires Remembers(w)
    ensures Remembers(Judge(env, w, role, out))
  {
    hide Remembers, MechanicalGate, IsPass, IsFixRequired, ShownOr, SemanticFail, OwnerGate, Moved;
    var w' := Judge(env, w, role, out);
    if role == IMPLEMENT {
      var gate := MechanicalGate(env, out);
      if gate.Some? {
        SemanticFailRemembers(env, w, MECH, gate.value.0, gate.value.1, MECH_GATE_FAIL);
      } else {
        MovedKeeps(w, MechanicalPass(Str(env.spec.candidateHead), out.evidence), w.row.(state := IN_LAB, checkpoint := Some(MechPassed)));
      }
    } else {
      ReviewRemembers(env, w, role, out);
    }
  }

  lemma ReviewRemembers(env: Env, w: World, role: Role, out: Item)
    requires Remembers(w)
    ensures Remembers(JudgeReview(env, w, role, out))
  {
    hide Remembers, IsPass, IsFixRequired, ShownOr, SemanticFail, OwnerGate, Moved;
    var invalid := ReviewFailure(env, role, out);
    if invalid.Some? {
      GateRemembers(w, invalid.value, ByReason(invalid.value), []);
    } else if IsPass(out.verdict) {
      if role == LAB {
        MovedKeeps(w, LabPass(out.reviewedHead, out.evidence),
                   w.row.(state := IN_AUDIT, checkpoint := Some(LabPassed), repeated := 0, lastFp := None));
      } else {
        MovedKeeps(w, AuditPass(out.reviewedHead, out.evidence),
                   w.row.(state := DONE, checkpoint := Some(DoneMark), repeated := 0, lastFp := None,
                          result := Some(DoneDocument(env.spec.taskId, env.spec.domain, env.spec.candidateHead,
                                                      w.row.semantic, w.row.transient, out.evidence))));
      }
    } else if IsFixRequired(out.verdict) {
      SemanticFailRemembers(env, w, OfRole(role), Reported(ShownOr(env, out.code, "FIX_REQUIRED")), ShownOr(env, out.detail, ""), FailState(role));
    } else {
      GateRemembers(w, UnparsableOrBlock(role), NeitherPassNorFix(role), []);
    }
  }

  lemma BeginRemembers(env: Env, w: World, stamp: Stamp)
    requires Remembers(w)
    ensures Remembers(Enter(w)) && Remembers(Started(env, w, stamp)) && Remembers(Finished(env, w, stamp))
    ensures Remembers(Worked(env, w).1)
  {
    hide LatestFix, Transients, NeverRepeats;
    var role := RoleIn(w.row.state);
    MovedKeeps(w, EnterImplement, w.row.(state := IN_IMPLEMENT));
    MovedKeeps(w, StepStarted(role), Started(env, w, stamp).row);
    MovedKeeps(w, StepFinished(role), Finished(env, w, stamp).row);
  }

  lemma CompletedRemembers(env: Env, w: World, stamp: Stamp)
    requires Remembers(w)
    ensures Remembers(Completed(env, w, stamp))
  {
    hide Remembers, Judge, SemanticFail, TransientFail, OwnerGate, Worked, Finished;
    var role, ran := RoleIn(w.row.state), Worked(env, w);
    BeginRemembers(env, w, stamp);
    match ran.0
    case Transient => TransientFailRemembers(env, ran.1, role);
    case Timeout => SemanticFailRemembers(env, ran.1, OfRole(role), TimeBudgetExceeded, "hard process timeout", FailState(role));
    case Failure => GateRemembers(ran.1, WorkerExecutionFailure, WorkerAt(role), []);
    case Returns(out) =>
      BeginRemembers(env, ran.1, stamp);
      JudgeRemembers(env, Finished(env, ran.1, stamp), role, out);
  }

  lemma EventRemembers(env: Env, w: World, e: Event)
    requires Remembers(w)
    ensures Remembers(After(env, w, e))
  {
    hide Remembers, Completed, OwnerGate, Enter, Started, Finished, Worked, BindingFailure, Moved;
    var w' := After(env, w, e);
    match e
    case Steps(stamp) =>
      var denied := BindingFailure(env);
      if denied.Some? { GateRemembers(w, denied.value, ByReason(denied.value), []); }
      BeginRemembers(env, w, stamp);
      BeginRemembers(env, Enter(w), stamp);
      CompletedRemembers(env, Started(env, Enter(w), stamp), stamp);
    case Crashes(stamp, point) =>
      BeginRemembers(env, w, stamp);
      BeginRemembers(env, Enter(w), stamp);
      BeginRemembers(env, Started(env, Enter(w), stamp), stamp);
      BeginRemembers(env, Worked(env, Started(env, Enter(w), stamp)).1, stamp);
    case Recovers(at) =>
      if w.row.active.Some? {
        MovedKeeps(w, StaleRecovered, w.row.(active := None, checkpoint := Some(Recovered(w.row.active.value.key))));
      }
    case RollsBack(reason) =>
      MovedKeeps(w, CandidateRollback, w.row.(state := ROLLED_BACK, active := None, checkpoint := Some(RolledBackMark),
                                              result := Some(RollbackDocument(env.spec.taskId, env.spec.domain, reason))));
  }

  lemma {:induction false} RunRemembers(env: Env, events: seq<Event>, worlds: seq<World>, k: nat)
    requires IsRun(env, events, worlds) && k < |worlds|
    ensures Remembers(worlds[k])
  {
    hide After;
    if k == 0 {
      assert Created().log[..0] == [];
    } else {
      RunRemembers(env, events, worlds, k - 1);
      assert StepOk(env, events, worlds, k - 1);
      EventRemembers(env, worlds[k - 1], events[k - 1]);
    }
  }

  /** In every run, with crashes, recoveries and rollbacks anywhere, the row is a memory of the log: the stored fingerprint is
      that of the latest fix required with no review passed since, counted once, and none otherwise; the two retry counts
      are the fixes required and the transient failures checkpointed. */
  lemma RowRemembersTheLog(env: Env, events: seq<Event>, worlds: seq<World>, k: nat)
    requires IsRun(env, events, worlds) && k < |worlds|
    ensures var r, log := worlds[k].row, worlds[k].log;
      && (forall fp {:trigger Some(fp)} :: r.lastFp == Some(fp) <==> exists i :: FixStands(log, i, fp))
      && r.repeated == (if exists i, fp :: FixStands(log, i, fp) then 1 else 0)
      && r.semantic == FixCount(log) && r.transient == Transients(log)
  {
    hide After, Provenance, Audited, FixStands, FixCount;
    RunRemembers(env, events, worlds, k);
    DoneHasProvenance(env, events, worlds, k);
    var r, log := worlds[k].row, worlds[k].log;
    forall fp ensures r.lastFp == Some(fp) <==> exists i :: FixStands(log, i, fp) {
      LatestFixStands(log, fp);
    }
    if r.lastFp.Some? {
      assert exists i :: FixStands(log, i, r.lastFp.value);
    }
    if i, fp :| FixStands(log, i, fp) {
      assert r.lastFp == Some(fp);
    }
  }

  /** Two fixes required one after the other, with no review passed between them, never have the same fingerprint. */
  lemma ConsecutiveFixesDiffer(env: Env, events: seq<Event>, worlds: seq<World>, k: nat, i: nat, j: nat)
    requires IsRun(env, events, worlds) && k < |worlds| && i < j < |worlds[k].log|
    requires worlds[k].log[i].kind.FixRequired? && worlds[k].log[j].kind.FixRequired?
    requires forall m | i < m < j ::
      var kind := worlds[k].log[m].kind; !kind.FixRequired? && !kind.LabPass? && !kind.AuditPass?
    ensures worlds[k].log[i].kind.fingerprint != worlds[k].log[j].kind.fingerprint
  {
    hide After, LatestFix, Transients;
    var log := worlds[k].log;
    RunRemembers(env, events, worlds, k);
    assert NewFixAt(log, j);
    assert FixStands(log[..j], i, log[i].kind.fingerprint);
    LatestFixStands(log[..j], log[i].kind.fingerprint);
  }
}
