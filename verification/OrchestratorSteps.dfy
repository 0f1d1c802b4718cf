// Where a step leads, by what the worker answers: which answers fail and with
// what code, which failure meets which gate, and what the task's documents say.
module OrchestratorSteps {
  import opened Prelude
  import opened Orchestrator
  import opened OrchestratorRuns
  import opened OrchestratorHistory

  // ---- What stops a task before any work ----

  predicate Harmless(s: Safety) {
    s.candidateOnly && forall i | 0 <= i < |s.hazards| :: !s.hazards[i]
  }

  lemma {:induction false} FirstHazardIs(hazards: seq<bool>, from: nat)
    requires from <= |hazards|
    ensures FirstHazard(hazards, from).None? <==> forall i | from <= i < |hazards| :: !hazards[i]
    ensures var k := FirstHazard(hazards, from);
      k.Some? ==> from < k.value <= |hazards| && hazards[k.value - 1] && forall i | from <= i < k.value - 1 :: !hazards[i]
    decreases |hazards| - from
  {
    if from < |hazards| && !hazards[from] {
      FirstHazardIs(hazards, from + 1);
    }
  }

  /** A task may be worked on exactly if the observed main and head are its own and no safety flag is raised; otherwise the
      first of these that fails is the reason, and of the flags the first raised one. */
  lemma BoundIff(env: Env)
    ensures var main, head, safe := env.spec.canonicalMain == env.observedMain, env.spec.candidateHead == env.observedHead, Harmless(env.spec.safety);
      && (BindingFailure(env) == None <==> main && head && safe)
      && (BindingFailure(env) == Some(MainBindingMismatch) <==> !main)
      && (BindingFailure(env) == Some(HeadBindingMismatch) <==> main && !head)
    ensures var s := env.spec.safety;
      forall n: nat :: BindingFailure(env) == Some(SafetyFailClosed(n)) ==>
        if n == 0 then !s.candidateOnly
        else s.candidateOnly && n <= |s.hazards| && s.hazards[n - 1] && forall i | 0 <= i < n - 1 :: !s.hazards[i]
  {
    FirstHazardIs(env.spec.safety.hazards, 0);
  }

  // ---- What the worker answers ----

  predicate Open(r: Row) {
    r.state !in {OWNER_GATE, DONE, ROLLED_BACK}
  }

  // The next step can work.
  predicate Workable(env: Env, w: World) {
    && Open(w.row) && w.row.active.None?
    && env.spec.canonicalMain == env.observedMain && env.spec.candidateHead == env.observedHead && Harmless(env.spec.safety)
  }

  function RoleNow(r: Row): Role {
    if r.state == IN_LAB then LAB else if r.state == IN_AUDIT then AUDIT else IMPLEMENT
  }

  function StateNow(r: Row): State {
    if r.state in {PENDING, MECH_GATE_FAIL, LAB_FIX_REQUIRED, AUDIT_FIX_REQUIRED} then IN_IMPLEMENT else r.state
  }

  function Slot(env: Env, r: Row): string {
    env.operationKey(RoleNow(r), r.semantic)
  }

  // A stored receipt answers for its operation; otherwise the script does, for the next attempt.
  function Answer(env: Env, w: World): Outcome {
    if Slot(env, w.row) in w.receipts then Returns(w.receipts[Slot(env, w.row)])
    else env.script(RoleNow(w.row), w.row.semantic + 1, w.row.transient + 1)
  }

  // The gate's verdict on an implementation, first failing check first.
  ghost predicate GateFailsWith(env: Env, out: Item, code: Code) {
    var b, complete := env.spec.budgets, !out.status.Absent? && !out.candidateHead.Absent? && !out.diffLines.Absent?
                                         && !out.cost.Absent? && !out.evidence.Absent?;
    var bound := complete && out.candidateHead == Str(env.spec.candidateHead);
    var ready := bound && out.status == Str("READY");
    var counted := ready && out.diffLines.Num? && out.diffLines.n >= 0;
    var small := counted && out.diffLines.n <= b.diffLines;
    var costed := small && out.cost.Num? && out.cost.n >= 0;
    var cheap := costed && out.cost.n <= b.cost;
    || (code == ResultSchema && !complete)
    || (code == HeadMismatch && complete && !bound)
    || (code == NotReady && bound && !ready)
    || (code == DiffInvalid && ready && !counted)
    || (code == DiffBudgetExceeded && counted && !small)
    || (code == CostInvalid && small && !costed)
    || (code == CostBudgetExceeded && costed && !cheap)
    || (code == EvidenceMissing && cheap && (!out.evidence.Str? || out.evidence.s == ""))
  }

  function ShownText(env: Env, f: Field): string {
    if f.Str? then f.s else env.shown(f)
  }

  function GateDetail(env: Env, out: Item, code: Code): string {
    match code
    case ResultSchema => "missing required implementation evidence"
    case HeadMismatch => "implementation result not bound to candidate head"
    case NotReady => ShownText(env, out.status)
    case DiffBudgetExceeded => env.shown(out.diffLines)
    case CostBudgetExceeded => env.shown(out.cost)
    case _ => ""
  }

  lemma SafetyIff(env: Env)
    ensures SafetyFailure(env.spec.safety).None? <==> Harmless(env.spec.safety)
  {
    FirstHazardIs(env.spec.safety.hazards, 0);
  }

  lemma GateFails(env: Env, out: Item)
    requires Harmless(env.spec.safety) && MechanicalGate(env, out).Some?
    ensures var code := MechanicalGate(env, out).value.0;
      GateFailsWith(env, out, code) && MechanicalGate(env, out).value.1 == GateDetail(env, out, code)
  {
    hide SafetyFailure, Harmless, FirstHazard;
    SafetyIff(env);
  }

  lemma OneCode(env: Env, out: Item, code: Code, other: Code)
    requires GateFailsWith(env, out, code) && GateFailsWith(env, out, other)
    ensures code == other
  {
  }

  lemma GatePasses(env: Env, out: Item, code: Code)
    requires MechanicalGate(env, out).None?
    ensures !GateFailsWith(env, out, code)
  {
    hide SafetyFailure, FirstHazard;
  }

  lemma GateFailsIff(env: Env, out: Item, code: Code)
    requires Harmless(env.spec.safety)
    ensures MechanicalGate(env, out) == Some((code, GateDetail(env, out, code))) <==> GateFailsWith(env, out, code)
  {
    hide MechanicalGate, GateFailsWith, GateDetail;
    var gate := MechanicalGate(env, out);
    if gate.Some? {
      GateFails(env, out);
      if GateFailsWith(env, out, code) { OneCode(env, out, code, gate.value.0); }
    } else {
      GatePasses(env, out, code);
    }
  }

  predicate Evident(f: Field) {
    f.Str? && |f.s| > 0
  }

  predicate BoundReview(env: Env, out: Item) {
    out.reviewedHead == Str(env.spec.candidateHead) && Evident(out.evidence)
  }

  // The answers that are failures, with the code and the detail their fingerprint is made of.
  ghost predicate Fails(env: Env, role: Role, answer: Outcome, stage: Stage, code: Code, detail: string) {
    || (answer == Timeout && stage == OfRole(role) && code == TimeBudgetExceeded && detail == "hard process timeout")
    || (answer.Returns? && role == IMPLEMENT && stage == MECH
        && GateFailsWith(env, answer.item, code) && detail == GateDetail(env, answer.item, code))
    || (answer.Returns? && role != IMPLEMENT && stage == OfRole(role)
        && BoundReview(env, answer.item) && answer.item.verdict == Str("FIX_REQUIRED")
        && code == Reported(if answer.item.code.Absent? then "FIX_REQUIRED" else ShownText(env, answer.item.code))
        && detail == (if answer.item.detail.Absent? then "" else ShownText(env, answer.item.detail)))
  }

  // ---- Where it leads ----

  // The step's log: entering, starting, capturing a returned answer, and its outcome.
  function StepLog(w: World, answer: Outcome, kind: Kind, next: State): seq<Entry> {
    var s := StateNow(w.row);
    (if s != w.row.state then [Entry(EnterImplement, w.row.state, s)] else [])
    + [Entry(StepStarted(RoleNow(w.row)), s, s)]
    + (if answer.Returns? then [Entry(StepFinished(RoleNow(w.row)), s, s)] else [])
    + [Entry(kind, s, next)]
  }

  // One step, whatever its outcome, from `w` to `w'`.
  ghost predicate Leads(env: Env, w: World, w': World, kind: Kind, next: State) {
    var answer := Answer(env, w);
    && w'.row.state == next && w'.row.active.None?
    && w'.log == w.log + StepLog(w, answer, kind, next)
    && w'.receipts == if answer.Returns? then w.receipts[Slot(env, w.row) := answer.item] else w.receipts
  }

  // The last checkpoint before the outcome.
  function LastMark(env: Env, w: World): Checkpoint {
    var key := Slot(env, w.row);
    if Answer(env, w).Returns? then Checkpoint.Captured(RoleNow(w.row), key) else StepStart(RoleNow(w.row), key)
  }

  ghost predicate LeadsToGate(env: Env, w: World, w': World, reason: Reason, failed: Failed, history: seq<string>) {
    && Leads(env, w, w', OwnerGateRequired(reason), OWNER_GATE)
    && w'.row.ownerReason == Some(reason)
    && w'.row.result == Some(OwnerSummary(Some(LastMark(env, w)), failed, history, reason))
  }

  function FixState(stage: Stage): State {
    match stage
    case OfRole(LAB) => LAB_FIX_REQUIRED
    case OfRole(AUDIT) => AUDIT_FIX_REQUIRED
    case _ => MECH_GATE_FAIL
  }

  // The world in which the answer is judged.
  function Judged(env: Env, w: World, stamp: Stamp): World {
    var ran := Worked(env, Started(env, Enter(w), stamp)).1;
    if Answer(env, w).Returns? then Finished(env, ran, stamp) else ran
  }

  ghost predicate JudgedFrom(env: Env, w: World, j: World) {
    && j.row.active.Some? == !Answer(env, w).Returns?
    && j.row.state == StateNow(w.row) && j.row.checkpoint == Some(LastMark(env, w))
    && j.row.semantic == w.row.semantic && j.row.transient == w.row.transient
    && j.row.lastFp == w.row.lastFp && j.row.repeated == w.row.repeated
    && (forall kind, next :: j.log + [Entry(kind, StateNow(w.row), next)] == w.log + StepLog(w, Answer(env, w), kind, next))
    && j.receipts == if Answer(env, w).Returns? then w.receipts[Slot(env, w.row) := Answer(env, w).item] else w.receipts
  }

  lemma JudgedIs(env: Env, w: World, stamp: Stamp)
    requires Workable(env, w)
    ensures JudgedFrom(env, w, Judged(env, w, stamp))
    ensures var j, role := Judged(env, w, stamp), RoleNow(w.row);
      Step(env, w, stamp) ==
        match Answer(env, w)
        case Transient => TransientFail(env, j, role)
        case Timeout => SemanticFail(env, j, OfRole(role), TimeBudgetExceeded, "hard process timeout", FailState(role))
        case Failure => OwnerGate(j, WorkerExecutionFailure, WorkerAt(role), [])
        case Returns(out) => Judge(env, j, role, out)
  {
    hide Judge, SemanticFail, TransientFail, OwnerGate, Harmless, BindingFailure;
    BoundIff(env);
    var j := Judged(env, w, stamp);
    assert w.row.state !in {OWNER_GATE, DONE, ROLLED_BACK};
    if Slot(env, w.row) in w.receipts {
      assert w.receipts[Slot(env, w.row) := w.receipts[Slot(env, w.row)]] == w.receipts;
    }
    forall kind, next ensures j.log + [Entry(kind, StateNow(w.row), next)] == w.log + StepLog(w, Answer(env, w), kind, next) {
    }
  }

  lemma GateLeads(env: Env, w: World, j: World, reason: Reason, failed: Failed, history: seq<string>)
    requires JudgedFrom(env, w, j)
    ensures LeadsToGate(env, w, OwnerGate(j, reason, failed, history), reason, failed, history)
  {
    hide StepLog, Answer;
  }

  // A failure with this fingerprint, on a row that is a memory of its log.
  ghost predicate FailureMet(env: Env, w: World, w': World, stage: Stage, code: Code, detail: string) {
    var fp := env.fingerprint(stage, code, detail);
    if exists i :: FixStands(w.log, i, fp) then LeadsToGate(env, w, w', RepeatedFingerprint, AtStage(stage, code), [fp])
    else if FixCount(w.log) >= env.spec.budgets.semantic then LeadsToGate(env, w, w', SemanticBudgetExhausted, AtStage(stage, code), [fp])
    else
      && Leads(env, w, w', FixRequired(stage, code, fp), FixState(stage))
      && w'.row.checkpoint == Some(StageFail(stage, code))
  }

  lemma FailMeets(env: Env, w: World, j: World, stage: Stage, code: Code, detail: string)
    requires JudgedFrom(env, w, j) && Remembers(w) && w.row.semantic == FixCount(w.log)
    ensures FailureMet(env, w, SemanticFail(env, j, stage, code, detail, FixState(stage)), stage, code, detail)
  {
    hide StepLog, Answer, FixStands, FixCount, LatestFix, Transients, NeverRepeats, LeadsToGate;
    var fp := env.fingerprint(stage, code, detail);
    LatestFixStands(w.log, fp);
    GateLeads(env, w, j, RepeatedFingerprint, AtStage(stage, code), [fp]);
    GateLeads(env, w, j, SemanticBudgetExhausted, AtStage(stage, code), [fp]);
  }

  lemma FailureIsMet(env: Env, w: World, stamp: Stamp, stage: Stage, code: Code, detail: string)
    requires Workable(env, w) && Remembers(w) && w.row.semantic == FixCount(w.log)
    requires Fails(env, RoleNow(w.row), Answer(env, w), stage, code, detail)
    ensures FailureMet(env, w, Step(env, w, stamp), stage, code, detail)
  {
    hide Remembers, FixCount, Step, SemanticFail, Judged, JudgedFrom, FailureMet, Answer, MechanicalGate, GateFailsWith, GateDetail, Harmless;
    JudgedIs(env, w, stamp);
    FailMeets(env, w, Judged(env, w, stamp), stage, code, detail);
    var answer := Answer(env, w);
    if answer.Returns? {
      GateFailsIff(env, answer.item, code);
    }
  }

  /** What a semantic failure meets in any run. A timeout, an implementation the gate refuses, or a review that asks for a fix
      ends the task if the fix required last, with no review passed since, has its very fingerprint; it also ends the task
      if the semantic budget is used up; and otherwise that fix is required and counted. */
  lemma SemanticFailuresAreGated(env: Env, events: seq<Event>, worlds: seq<World>, k: nat, stage: Stage, code: Code, detail: string)
    requires IsRun(env, events, worlds) && k < |events| && events[k].Steps? && Workable(env, worlds[k])
    requires Fails(env, RoleNow(worlds[k].row), Answer(env, worlds[k]), stage, code, detail)
    ensures FailureMet(env, worlds[k], worlds[k + 1], stage, code, detail)
  {
    hide Step, Remembers, FixCount, Workable, Fails, FailureMet, Provenance, Audited;
    assert StepOk(env, events, worlds, k);
    RunRemembers(env, events, worlds, k);
    DoneHasProvenance(env, events, worlds, k);
    FailureIsMet(env, worlds[k], events[k].stamp, stage, code, detail);
  }

  /** What a transient failure meets in any run: it is checkpointed in the same state, as often as the transient budget
      allows, and the next one ends the task. */
  lemma TransientFailuresAreGated(env: Env, events: seq<Event>, worlds: seq<World>, k: nat)
    requires IsRun(env, events, worlds) && k < |events| && events[k].Steps? && Workable(env, worlds[k])
    requires Answer(env, worlds[k]) == Transient
    ensures var w, w', role := worlds[k], worlds[k + 1], RoleNow(worlds[k].row);
      if Transients(w.log) >= env.spec.budgets.transient
      then LeadsToGate(env, w, w', TransientBudgetExhausted, TransientAt(role), [])
      else Leads(env, w, w', TransientCheckpointed(role), StateNow(w.row)) && w'.row.checkpoint == Some(TransientCheckpoint(role))
  {
    hide Step, LatestFix, NeverRepeats, Transients, Workable, Answer, StepLog, Judged, LeadsToGate;
    var w := worlds[k];
    assert StepOk(env, events, worlds, k);
    RunRemembers(env, events, worlds, k);
    JudgedIs(env, w, events[k].stamp);
    GateLeads(env, w, Judged(env, w, events[k].stamp), TransientBudgetExhausted, TransientAt(RoleNow(w.row)), []);
  }

  predicate SmallAndFree(env: Env, out: Item) {
    && out.diffLines.Num? && 0 <= out.diffLines.n <= env.spec.budgets.diffLines
    && out.cost.Num? && 0 <= out.cost.n <= env.spec.budgets.cost
  }

  /** Where every answer that is no retried failure leads: a ready implementation on the candidate head, within the budgets and
      with evidence, goes to the LAB; a review of the candidate head with evidence that passes goes on to the AUDIT or to
      DONE; and everything else is for the owner. */
  lemma AnswersLead(env: Env, w: World, stamp: Stamp)
    requires Workable(env, w)
    ensures var w', role, answer := Step(env, w, stamp), RoleNow(w.row), Answer(env, w);
      && (answer == Failure ==> LeadsToGate(env, w, w', WorkerExecutionFailure, WorkerAt(role), []))
      && (answer.Returns? && role == IMPLEMENT && answer.item.status == Str("READY") && BoundHead(env, answer.item)
            && SmallAndFree(env, answer.item) && Evident(answer.item.evidence) ==>
            Leads(env, w, w', MechanicalPass(Str(env.spec.candidateHead), answer.item.evidence), IN_LAB))
      && (answer.Returns? && role != IMPLEMENT ==> ReviewLeads(env, w, w', role, answer.item))
  {
    hide Step, Judged, Workable, Answer, SemanticFail, TransientFail, OwnerGate, StepLog, JudgedFrom, MechanicalGate, Harmless, LeadsToGate;
    assert Harmless(env.spec.safety) by { WorkableIsHarmless(env, w); }
    var j, role, answer := Judged(env, w, stamp), RoleNow(w.row), Answer(env, w);
    JudgedIs(env, w, stamp);
    match answer
    case Transient =>
    case Timeout =>
    case Failure => GateLeads(env, w, j, WorkerExecutionFailure, WorkerAt(role), []);
    case Returns(out) =>
      if role == IMPLEMENT {
        GatePassesIff(env, out);
        SafetyIff(env);
        JudgedAtRest(env, w, j);
        if MechanicalGate(env, out).None? {
          MoveLeads(env, w, j, MechanicalPass(Str(env.spec.candidateHead), out.evidence), j.row.(state := IN_LAB, checkpoint := Some(MechPassed)));
        }
      } else {
        ReviewIsLed(env, w, j, role, out);
      }
  }

  lemma WorkableIsHarmless(env: Env, w: World)
    requires Workable(env, w)
    ensures Harmless(env.spec.safety)
  {
  }

  predicate BoundHead(env: Env, out: Item) {
    out.candidateHead == Str(env.spec.candidateHead)
  }

  lemma JudgedAtRest(env: Env, w: World, j: World)
    requires JudgedFrom(env, w, j) && Answer(env, w).Returns?
    ensures j.row.active.None?
  {
    hide StepLog, Answer;
  }

  lemma MoveLeads(env: Env, w: World, j: World, kind: Kind, row: Row)
    requires JudgedFrom(env, w, j) && row.active.None?
    ensures Leads(env, w, Moved(j, kind, row), kind, row.state)
  {
    hide StepLog, Answer;
  }

  ghost predicate ReviewLeads(env: Env, w: World, w': World, role: Role, out: Item) {
    if out.reviewedHead != Str(env.spec.candidateHead)
    then LeadsToGate(env, w, w', ReviewHeadMismatch(role), ByReason(ReviewHeadMismatch(role)), [])
    else if !Evident(out.evidence)
    then LeadsToGate(env, w, w', ReviewEvidenceMissing(role), ByReason(ReviewEvidenceMissing(role)), [])
    else if out.verdict == Str("PASS")
    then if role == LAB then Leads(env, w, w', LabPass(out.reviewedHead, out.evidence), IN_AUDIT)
         else Leads(env, w, w', AuditPass(out.reviewedHead, out.evidence), DONE)
    else out.verdict != Str("FIX_REQUIRED") ==> LeadsToGate(env, w, w', UnparsableOrBlock(role), NeitherPassNorFix(role), [])
  }

  lemma ReviewIsLed(env: Env, w: World, j: World, role: Role, out: Item)
    requires JudgedFrom(env, w, j) && Answer(env, w) == Returns(out) && role != IMPLEMENT
    ensures ReviewLeads(env, w, JudgeReview(env, j, role, out), role, out)
  {
    hide SemanticFail, OwnerGate, StepLog, Leads, LeadsToGate, ShownOr, Answer;
    var invalid := ReviewFailure(env, role, out);
    if invalid.Some? {
      GateLeads(env, w, j, invalid.value, ByReason(invalid.value), []);
    } else if IsPass(out.verdict) {
      var next := JudgeReview(env, j, role, out).row;
      MoveLeads(env, w, j, if role == LAB then LabPass(out.reviewedHead, out.evidence) else AuditPass(out.reviewedHead, out.evidence), next);
    } else {
      GateLeads(env, w, j, UnparsableOrBlock(role), NeitherPassNorFix(role), []);
    }
  }

  // ---- Steps that do no work ----

  /** An unsafe or unbound task goes to its owner before any work, from every open state; a terminal task is left alone;
      and a task that another process has claimed is not worked on. */
  lemma UnworkableSteps(env: Env, w: World, stamp: Stamp)
    ensures !Open(w.row) ==> After(env, w, Steps(stamp)) == w
    ensures Open(w.row) && BindingFailure(env).Some? ==>
      var w', reason := Step(env, w, stamp), BindingFailure(env).value;
      && w'.log == w.log + [Entry(OwnerGateRequired(reason), w.row.state, OWNER_GATE)] && w'.receipts == w.receipts
      && w'.row == w.row.(state := OWNER_GATE, active := None, ownerReason := Some(reason),
                          result := Some(OwnerSummary(w.row.checkpoint, ByReason(reason), [], reason)))
    ensures Open(w.row) && BindingFailure(env).None? && w.row.active.Some? ==>
      Step(env, w, stamp).receipts == w.receipts && Step(env, w, stamp).row == w.row.(state := StateNow(w.row))
  {
    hide BindingFailure, Completed;
  }

  /** Rollback needs a reason and an open task, and reports both: then, and only then, the task is rolled back. */
  lemma RollsBackIff(env: Env, w: World, reason: string)
    ensures var w' := After(env, w, RollsBack(reason));
      if reason != "" && Open(w.row)
      then
        && w'.log == w.log + [Entry(CandidateRollback, w.row.state, ROLLED_BACK)] && w'.receipts == w.receipts
        && w'.row == w.row.(state := ROLLED_BACK, active := None, checkpoint := Some(RolledBackMark),
                            result := Some(RollbackDocument(env.spec.taskId, env.spec.domain, reason)))
      else w' == w
  {
  }

  /** Recovery takes back exactly a claim whose heartbeat is as old as the task's budget says, and nothing else of the row but
      the mark of it. */
  lemma RecoversIff(env: Env, w: World, at: int)
    ensures var w' := After(env, w, Recovers(at));
      if w.row.active.Some? && w.row.heartbeat.Some? && w.row.heartbeat.value + env.spec.budgets.heartbeat <= at
      then
        && w'.log == w.log + [Entry(StaleRecovered, w.row.state, w.row.state)] && w'.receipts == w.receipts
        && w'.row == w.row.(active := None, checkpoint := Some(Recovered(w.row.active.value.key)))
      else w' == w
  {
  }

  // ---- Crashes and heartbeats ----

  function Entering(w: World): seq<Entry> {
    if StateNow(w.row) != w.row.state then [Entry(EnterImplement, w.row.state, StateNow(w.row))] else []
  }

  function Marked(w: World, kind: Kind): Entry {
    Entry(kind, StateNow(w.row), StateNow(w.row))
  }

  function WithAnswer(env: Env, w: World): map<string, Item> {
    if Answer(env, w).Returns? then w.receipts[Slot(env, w.row) := Answer(env, w).item] else w.receipts
  }

  function ClaimedRow(env: Env, w: World, stamp: Stamp): Row {
    w.row.(state := StateNow(w.row), active := Some(Active(RoleNow(w.row), stamp.claim, Slot(env, w.row))),
           heartbeat := Some(stamp.startedAt), checkpoint := Some(StepStart(RoleNow(w.row), Slot(env, w.row))))
  }

  function StartedWorld(env: Env, w: World, stamp: Stamp): World {
    World(ClaimedRow(env, w, stamp), w.log + Entering(w) + [Marked(w, StepStarted(RoleNow(w.row)))], w.receipts)
  }

  lemma StartedIs(env: Env, w: World, stamp: Stamp)
    requires Open(w.row) && w.row.active.None?
    ensures Enter(w) == World(w.row.(state := StateNow(w.row)), w.log + Entering(w), w.receipts) && Enter(w).row.active.None?
    ensures Started(env, Enter(w), stamp) == StartedWorld(env, w, stamp)
  {
    assert w.log + [] == w.log;
  }

  lemma WorkedIs(env: Env, w: World, stamp: Stamp)
    requires Open(w.row) && w.row.active.None?
    ensures Worked(env, StartedWorld(env, w, stamp)) == (Answer(env, w), StartedWorld(env, w, stamp).(receipts := WithAnswer(env, w)))
  {
    hide Entering;
    if Slot(env, w.row) in w.receipts {
      assert w.receipts[Slot(env, w.row) := w.receipts[Slot(env, w.row)]] == w.receipts;
    }
  }

  lemma FinishedIs(env: Env, w: World, stamp: Stamp)
    requires Open(w.row) && w.row.active.None?
    ensures var started := StartedWorld(env, w, stamp);
      Finished(env, started.(receipts := WithAnswer(env, w)), stamp) ==
        World(ClaimedRow(env, w, stamp).(active := None, heartbeat := Some(stamp.finishedAt),
                                         checkpoint := Some(Checkpoint.Captured(RoleNow(w.row), Slot(env, w.row)))),
              started.log + [Marked(w, StepFinished(RoleNow(w.row)))], WithAnswer(env, w))
  {
    hide Entering, WithAnswer;
  }

  /** What a process that dies in a step leaves behind, by the last transaction it finished: nothing; the entered state; its
      claim, with its heartbeat; the same with the worker's receipt; or the captured answer with the claim given back. */
  lemma CrashLeaves(env: Env, w: World, stamp: Stamp, point: CrashPoint)
    requires Workable(env, w)
    ensures var w', role := After(env, w, Crashes(stamp, point)), RoleNow(w.row);
      var started := w.log + Entering(w) + [Marked(w, StepStarted(role))];
      match point
      case AtEntry => w' == w
      case AfterEnter => w' == World(w.row.(state := StateNow(w.row)), w.log + Entering(w), w.receipts)
      case AfterStart => w' == World(ClaimedRow(env, w, stamp), started, w.receipts)
      case AfterWorker => w' == World(ClaimedRow(env, w, stamp), started, WithAnswer(env, w))
      case AfterFinish =>
        w' == if !Answer(env, w).Returns? then World(ClaimedRow(env, w, stamp), started, w.receipts)
              else World(ClaimedRow(env, w, stamp).(active := None, heartbeat := Some(stamp.finishedAt),
                                                    checkpoint := Some(Checkpoint.Captured(role, Slot(env, w.row)))),
                         started + [Marked(w, StepFinished(role))], WithAnswer(env, w))
  {
    hide Harmless, BindingFailure, Enter, Started, Worked, Answer, Slot, Entering, ClaimedRow;
    BoundIff(env);
    StartedIs(env, w, stamp);
    WorkedIs(env, w, stamp);
    FinishedIs(env, w, stamp);
  }

  lemma CrashElsewhere(env: Env, w: World, stamp: Stamp, point: CrashPoint)
    ensures !Open(w.row) || BindingFailure(env).Some? || point.AtEntry? ==> After(env, w, Crashes(stamp, point)) == w
    ensures Open(w.row) && BindingFailure(env).None? && w.row.active.Some? && !point.AtEntry? ==>
      CrashedStep(env, w, stamp, point) == World(w.row.(state := StateNow(w.row)), w.log + Entering(w), w.receipts)
  {
    hide BindingFailure;
    assert w.log + [] == w.log;
  }

  /** A worked step leaves the heartbeat of its last mark: of its end when the worker answered, of its start otherwise. */
  lemma StepBeats(env: Env, w: World, stamp: Stamp)
    requires Workable(env, w)
    ensures Step(env, w, stamp).row.heartbeat == Some(if Answer(env, w).Returns? then stamp.finishedAt else stamp.startedAt)
  {
    hide Step, Workable, Answer, StepLog, MechanicalGate, ShownOr, Harmless, JudgedFrom;
    JudgedIs(env, w, stamp);
    JudgedBeats(env, w, stamp);
  }

  lemma JudgedBeats(env: Env, w: World, stamp: Stamp)
    requires Workable(env, w)
    ensures Judged(env, w, stamp).row.heartbeat == Some(if Answer(env, w).Returns? then stamp.finishedAt else stamp.startedAt)
  {
    hide Harmless, WorkerRun;
  }

  /** The tasks an orchestrator takes on: named, bound to full commit ids, with eight hazard flags, and with budgets no larger
      than two semantic retries, three transient ones, 500 lines, 300 seconds of work, 300 of silence, and no money. */
  lemma SpecIff(s: Spec)
    ensures ValidSpec(s) <==>
      && |s.taskId| > 0 && |s.domain| > 0 && IsHex(s.canonicalMain, 40) && IsHex(s.candidateHead, 40) && |s.safety.hazards| == 8
      && 0 <= s.budgets.semantic < 3 && 0 <= s.budgets.transient < 4 && 0 <= s.budgets.diffLines < 501
      && 0 <= s.budgets.execution < 301 && 0 <= s.budgets.heartbeat < 301 && s.budgets.cost == 0
  {
  }
}
