// The orchestrator of one task: its row, its event log, the durable receipts of
// its worker, and one step as a function of the state before it.
module Orchestrator {
  import opened Prelude

  datatype Role = IMPLEMENT | LAB | AUDIT

  datatype Stage = OfRole(role: Role) | MECH

  datatype State =
    | PENDING | IN_IMPLEMENT | MECH_GATE_FAIL | IN_LAB | LAB_FIX_REQUIRED
    | IN_AUDIT | AUDIT_FIX_REQUIRED | OWNER_GATE | DONE | ROLLED_BACK

  // A value in a worker's result; `rest` of an item is the text of the fields no gate looks at.
  datatype Field = Absent | Null | Bool(b: bool) | Num(n: int) | Str(s: string) | Other(shown: string)

  datatype Item = Item(
    status: Field, candidateHead: Field, diffLines: Field, cost: Field, evidence: Field,
    reviewedHead: Field, verdict: Field, code: Field, detail: Field, rest: string)

  datatype Outcome = Returns(item: Item) | Transient | Timeout | Failure

  datatype Safety = Safety(candidateOnly: bool, hazards: seq<bool>)

  datatype Budgets = Budgets(semantic: nat, transient: nat, diffLines: nat, execution: nat, heartbeat: nat, cost: nat)

  datatype Spec = Spec(taskId: string, domain: string, canonicalMain: string, candidateHead: string, safety: Safety, budgets: Budgets)

  datatype Code =
    | Unsafe(flag: nat) | ResultSchema | HeadMismatch | NotReady | DiffInvalid | DiffBudgetExceeded
    | CostInvalid | CostBudgetExceeded | EvidenceMissing | TimeBudgetExceeded | Reported(text: string)

  datatype Reason =
    | MainBindingMismatch | HeadBindingMismatch | SafetyFailClosed(flag: nat)
    | RepeatedFingerprint | SemanticBudgetExhausted | TransientBudgetExhausted | WorkerExecutionFailure
    | ReviewHeadMismatch(role: Role) | ReviewEvidenceMissing(role: Role) | UnparsableOrBlock(role: Role)
    | StepCeiling

  // What failed, in the owner-gate summary.
  datatype Failed =
    | AtStage(stage: Stage, code: Code) | TransientAt(role: Role) | WorkerAt(role: Role) | NeitherPassNorFix(role: Role)
    | ByReason(reason: Reason) | StepsUsed(n: nat)

  datatype Checkpoint =
    | StepStart(role: Role, key: string) | Captured(role: Role, key: string) | Recovered(key: string)
    | StageFail(stage: Stage, code: Code) | TransientCheckpoint(role: Role)
    | MechPassed | LabPassed | DoneMark | RolledBackMark

  datatype Document =
    | OwnerSummary(succeeded: Option<Checkpoint>, failed: Failed, history: seq<string>, why: Reason)
    | DoneDocument(taskId: string, domain: string, candidateHead: string, semantic: nat, transient: nat, evidence: Field)
    | RollbackDocument(taskId: string, domain: string, reason: string)

  datatype Active = Active(role: Role, claim: string, key: string)

  datatype Row = Row(
    state: State, semantic: nat, transient: nat, lastFp: Option<string>, repeated: nat,
    active: Option<Active>, heartbeat: Option<int>, checkpoint: Option<Checkpoint>,
    result: Option<Document>, ownerReason: Option<Reason>)

  datatype Kind =
    | TaskCreated | EnterImplement | StepStarted(role: Role) | StepFinished(role: Role) | StaleRecovered
    | MechanicalPass(head: Field, evidence: Field) | LabPass(head: Field, evidence: Field) | AuditPass(head: Field, evidence: Field)
    | FixRequired(stage: Stage, code: Code, fingerprint: string) | TransientCheckpointed(role: Role) | OwnerGateRequired(reason: Reason) | CandidateRollback

  datatype Entry = Entry(kind: Kind, before: State, after: State)

  datatype World = World(row: Row, log: seq<Entry>, receipts: map<string, Item>)

  // The task, the observed bindings, the operation-key and fingerprint digests, and the worker's script.
  datatype Env = Env(
    spec: Spec, observedMain: string, observedHead: string,
    operationKey: (Role, nat) -> string,
    fingerprint: (Stage, Code, string) -> string,
    shown: Field -> string,
    script: (Role, nat, nat) -> Outcome)

  const HAZARDS: nat := 8

  /** `validate_task_spec`, as far as the runs depend on it. */
  predicate ValidSpec(s: Spec) {
    && s.taskId != "" && s.domain != ""
    && IsHex(s.canonicalMain, 40) && IsHex(s.candidateHead, 40)
    && |s.safety.hazards| == HAZARDS
    && s.budgets.semantic <= 2 && s.budgets.transient <= 3 && s.budgets.diffLines <= 500
    && s.budgets.execution <= 300 && s.budgets.heartbeat <= 300 && s.budgets.cost == 0
  }

  predicate Terminal(s: State) {
    s == OWNER_GATE || s == DONE || s == ROLLED_BACK
  }

  // The states in which the next step is an implementation.
  predicate BeforeImplement(s: State) {
    s == PENDING || s == MECH_GATE_FAIL || s == LAB_FIX_REQUIRED || s == AUDIT_FIX_REQUIRED
  }

  function Entered(s: State): State {
    if BeforeImplement(s) then IN_IMPLEMENT else s
  }

  function RoleIn(s: State): Role {
    match s
    case IN_LAB => LAB
    case IN_AUDIT => AUDIT
    case _ => IMPLEMENT
  }

  function FailState(r: Role): State {
    match r
    case IMPLEMENT => MECH_GATE_FAIL
    case LAB => LAB_FIX_REQUIRED
    case AUDIT => AUDIT_FIX_REQUIRED
  }

  function FirstHazard(hazards: seq<bool>, from: nat): Option<nat>
    decreases |hazards| - from
  {
    if from >= |hazards| then None
    else if hazards[from] then Some(from + 1)
    else FirstHazard(hazards, from + 1)
  }

  // `validate_safety`: the first flag, in order, that is not as a safe candidate needs it.
  function SafetyFailure(s: Safety): Option<nat> {
    if !s.candidateOnly then Some(0) else FirstHazard(s.hazards, 0)
  }

  function BindingFailure(env: Env): Option<Reason> {
    if env.spec.canonicalMain != env.observedMain then Some(MainBindingMismatch)
    else if env.spec.candidateHead != env.observedHead then Some(HeadBindingMismatch)
    else
      var unsafe := SafetyFailure(env.spec.safety);
      if unsafe.Some? then Some(SafetyFailClosed(unsafe.value)) else None
  }

  function Shown(env: Env, f: Field): string {
    if f.Str? then f.s else env.shown(f)
  }

  // `str(out.get(key, default))`.
  function ShownOr(env: Env, f: Field, default: string): string {
    if f.Absent? then default else Shown(env, f)
  }

  predicate NonEmptyText(f: Field) {
    f.Str? && f.s != ""
  }

  predicate IsReady(f: Field) { f == Str("READY") }
  predicate IsPass(f: Field) { f == Str("PASS") }
  predicate IsFixRequired(f: Field) { f == Str("FIX_REQUIRED") }

  /** `mechanical_gate`: the failing code and its detail, or nothing for a pass. */
  function MechanicalGate(env: Env, out: Item): Option<(Code, string)> {
    var unsafe := SafetyFailure(env.spec.safety);
    if unsafe.Some? then Some((Unsafe(unsafe.value), "deterministic safety boundary"))
    else if out.status.Absent? || out.candidateHead.Absent? || out.diffLines.Absent? || out.cost.Absent? || out.evidence.Absent?
    then Some((ResultSchema, "missing required implementation evidence"))
    else if out.candidateHead != Str(env.spec.candidateHead) then Some((HeadMismatch, "implementation result not bound to candidate head"))
    else if !IsReady(out.status) then Some((NotReady, Shown(env, out.status)))
    else if !out.diffLines.Num? || out.diffLines.n < 0 then Some((DiffInvalid, ""))
    else if out.diffLines.n > env.spec.budgets.diffLines then Some((DiffBudgetExceeded, env.shown(out.diffLines)))
    else if !out.cost.Num? || out.cost.n < 0 then Some((CostInvalid, ""))
    else if out.cost.n > env.spec.budgets.cost then Some((CostBudgetExceeded, env.shown(out.cost)))
    else if !NonEmptyText(out.evidence) then Some((EvidenceMissing, ""))
    else None
  }

  /** `validate_review_result`. */
  function ReviewFailure(env: Env, role: Role, out: Item): Option<Reason> {
    if out.reviewedHead != Str(env.spec.candidateHead) then Some(ReviewHeadMismatch(role))
    else if !NonEmptyText(out.evidence) then Some(ReviewEvidenceMissing(role))
    else None
  }

  // ---- The store ----

  function Logged(w: World, kind: Kind, before: State, row: Row): World {
    w.(row := row, log := w.log + [Entry(kind, before, row.state)])
  }

  // `transition` with no changed columns but the state.
  function Moved(w: World, kind: Kind, row: Row): World {
    Logged(w, kind, w.row.state, row)
  }

  function OwnerGate(w: World, reason: Reason, failed: Failed, history: seq<string>): World {
    Moved(w, OwnerGateRequired(reason),
          w.row.(state := OWNER_GATE, ownerReason := Some(reason), active := None,
                 result := Some(OwnerSummary(w.row.checkpoint, failed, history, reason))))
  }

  function SemanticFail(env: Env, w: World, stage: Stage, code: Code, detail: string, failState: State): World {
    var fp := env.fingerprint(stage, code, detail);
    var repeated := if w.row.lastFp == Some(fp) then w.row.repeated + 1 else 1;
    var retries := w.row.semantic + 1;
    if repeated >= 2 then OwnerGate(w, RepeatedFingerprint, AtStage(stage, code), [fp])
    else if retries > env.spec.budgets.semantic then OwnerGate(w, SemanticBudgetExhausted, AtStage(stage, code), [fp])
    else Moved(w, FixRequired(stage, code, fp),
               w.row.(state := failState, semantic := retries, lastFp := Some(fp), repeated := repeated, active := None,
                      checkpoint := Some(StageFail(stage, code))))
  }

  function TransientFail(env: Env, w: World, role: Role): World {
    var count := w.row.transient + 1;
    if count > env.spec.budgets.transient then OwnerGate(w, TransientBudgetExhausted, TransientAt(role), [])
    else Moved(w, TransientCheckpointed(role),
               w.row.(transient := count, active := None, checkpoint := Some(TransientCheckpoint(role))))
  }

  function StartStep(w: World, role: Role, key: string, claim: string, at: int): World {
    Moved(w, StepStarted(role),
          w.row.(active := Some(Active(role, claim, key)), heartbeat := Some(at), checkpoint := Some(StepStart(role, key))))
  }

  function FinishStep(w: World, role: Role, key: string, at: int): World {
    Moved(w, StepFinished(role),
          w.row.(active := None, heartbeat := Some(at), checkpoint := Some(Captured(role, key))))
  }

  /** `recover_stale` for the task: clears a claim whose heartbeat is old enough. */
  function RecoverStale(env: Env, w: World, at: int): World {
    if w.row.active.Some? && w.row.heartbeat.Some? && at - w.row.heartbeat.value >= env.spec.budgets.heartbeat
    then Moved(w, StaleRecovered, w.row.(active := None, checkpoint := Some(Recovered(w.row.active.value.key))))
    else w
  }

  // ---- The worker ----

  // `DurableScriptedRoleWorker.run`: a stored receipt is returned; otherwise the script is played and a result stored.
  function WorkerRun(env: Env, receipts: map<string, Item>, role: Role, key: string, semantic: nat, transient: nat): (Outcome, map<string, Item>) {
    if key in receipts then (Returns(receipts[key]), receipts)
    else
      var out := env.script(role, semantic, transient);
      if out.Returns? then (out, receipts[key := out.item]) else (out, receipts)
  }

  // ---- One step ----

  datatype Stamp = Stamp(claim: string, startedAt: int, finishedAt: int)

  function Enter(w: World): World {
    if BeforeImplement(w.row.state) then Moved(w, EnterImplement, w.row.(state := IN_IMPLEMENT)) else w
  }

  function KeyOf(env: Env, row: Row): string {
    env.operationKey(RoleIn(row.state), row.semantic)
  }

  function Started(env: Env, w: World, stamp: Stamp): World {
    StartStep(w, RoleIn(w.row.state), KeyOf(env, w.row), stamp.claim, stamp.startedAt)
  }

  function Worked(env: Env, w: World): (Outcome, World) {
    var run := WorkerRun(env, w.receipts, RoleIn(w.row.state), KeyOf(env, w.row), w.row.semantic + 1, w.row.transient + 1);
    (run.0, w.(receipts := run.1))
  }

  function Finished(env: Env, w: World, stamp: Stamp): World {
    FinishStep(w, RoleIn(w.row.state), KeyOf(env, w.row), stamp.finishedAt)
  }

  function JudgeImplement(env: Env, w: World, out: Item): World {
    var gate := MechanicalGate(env, out);
    if gate.Some? then SemanticFail(env, w, MECH, gate.value.0, gate.value.1, MECH_GATE_FAIL)
    else Moved(w, MechanicalPass(Str(env.spec.candidateHead), out.evidence),
               w.row.(state := IN_LAB, checkpoint := Some(MechPassed)))
  }

  function JudgeReview(env: Env, w: World, role: Role, out: Item): World {
    var invalid := ReviewFailure(env, role, out);
    if invalid.Some? then OwnerGate(w, invalid.value, ByReason(invalid.value), [])
    else if IsPass(out.verdict) then
      if role == LAB
      then Moved(w, LabPass(out.reviewedHead, out.evidence),
                 w.row.(state := IN_AUDIT, checkpoint := Some(LabPassed), repeated := 0, lastFp := None))
      else Moved(w, AuditPass(out.reviewedHead, out.evidence),
                 w.row.(state := DONE, checkpoint := Some(DoneMark), repeated := 0, lastFp := None,
                        result := Some(DoneDocument(env.spec.taskId, env.spec.domain, env.spec.candidateHead,
                                                    w.row.semantic, w.row.transient, out.evidence))))
    else if IsFixRequired(out.verdict) then
      SemanticFail(env, w, OfRole(role), Reported(ShownOr(env, out.code, "FIX_REQUIRED")), ShownOr(env, out.detail, ""), FailState(role))
    else OwnerGate(w, UnparsableOrBlock(role), NeitherPassNorFix(role), [])
  }

  function Judge(env: Env, w: World, role: Role, out: Item): World {
    if role == IMPLEMENT then JudgeImplement(env, w, out) else JudgeReview(env, w, role, out)
  }

  // From the started world to the end of the step.
  function Completed(env: Env, w: World, stamp: Stamp): World {
    var role := RoleIn(w.row.state);
    var ran := Worked(env, w);
    match ran.0
    case Transient => TransientFail(env, ran.1, role)
    case Timeout => SemanticFail(env, ran.1, OfRole(role), TimeBudgetExceeded, "hard process timeout", FailState(role))
    case Failure => OwnerGate(ran.1, WorkerExecutionFailure, WorkerAt(role), [])
    case Returns(out) => Judge(env, Finished(env, ran.1, stamp), role, out)
  }

  /** `Orchestrator.step`; with a claim still active it raises, leaving the world as it was. */
  function Step(env: Env, w: World, stamp: Stamp): World {
    if Terminal(w.row.state) then w
    else
      var denied := BindingFailure(env);
      if denied.Some? then OwnerGate(w, denied.value, ByReason(denied.value), [])
      else
        var entered := Enter(w);
        if entered.row.active.Some? then entered
        else Completed(env, Started(env, entered, stamp), stamp)
  }

  // Where a process can die inside a step: between any two committed transactions.
  datatype CrashPoint = AtEntry | AfterEnter | AfterStart | AfterWorker | AfterFinish

  function CrashedStep(env: Env, w: World, stamp: Stamp, point: CrashPoint): World {
    if Terminal(w.row.state) || BindingFailure(env).Some? || point == AtEntry then w
    else
      var entered := Enter(w);
      if entered.row.active.Some? || point == AfterEnter then entered
      else
        var started := Started(env, entered, stamp);
        if point == AfterStart then started
        else
          var ran := Worked(env, started);
          if point == AfterWorker || !ran.0.Returns? then ran.1 else Finished(env, ran.1, stamp)
  }

  /** `rollback`: refused without a reason or in a terminal state. */
  function Rollback(env: Env, w: World, reason: string): World {
    if reason == "" || Terminal(w.row.state) then w
    else Moved(w, CandidateRollback,
               w.row.(state := ROLLED_BACK, active := None, checkpoint := Some(RolledBackMark),
                      result := Some(RollbackDocument(env.spec.taskId, env.spec.domain, reason))))
  }

  function Created(): World {
    World(Row(PENDING, 0, 0, None, 0, None, None, None, None, None), [Entry(TaskCreated, PENDING, PENDING)], map[])
  }
}
