// More of the engine over whole runs: what authorized each success, what counted
// each attempt, and what two commits of one task have in common.
module R1History {
  import opened Prelude
  import opened R1Auth
  import opened R1State
  import opened R1Engine
  import opened R1Invariants
  import opened R1Runs
  import opened R1Contracts

  // ---- Authorization ----

  // What any two calls of one decision share, and what the world had when they were made.
  predicate SameGenerations(a: AuthorizationRuntime, b: AuthorizationRuntime) {
    && a.policyGeneration == b.policyGeneration && a.policyDigest == b.policyDigest
    && a.revocationGeneration == b.revocationGeneration && a.safeModeGeneration == b.safeModeGeneration
  }

  lemma SuccessWasPermitted(d: Digests, run: seq<Step>, b: Behaviour, k: nat)
    requires IsRun(d, run, b) && k < |run| && b.replies[k].Ok?
    ensures Permitted(run[k].engineMain, run[k].call)
  {
    hide Apply, Permitted;
    assert StepOk(d, run, b, k);
    UnpermittedFails(d, run[k].engineMain, b.states[k], run[k].call);
  }

  /** Every call that succeeds carried a decision that allows it, current in policy, revocation and safe mode, inside its
      window and with a valid grant while safe mode was off; it was made by the decision's own actor and on the engine's
      main. */
  lemma SuccessWasAuthorized(d: Digests, run: seq<Step>, b: Behaviour, k: nat)
    requires IsRun(d, run, b) && k < |run| && b.replies[k].Ok?
    ensures var call, rt := run[k].call, run[k].call.runtime;
      && call.main == run[k].engineMain && call.auth.Decision? && call.auth.allow
      && Current(call.auth, rt) && InWindow(call.auth, rt.now) && !rt.safeModeActive
      && call.auth.grantRef.Some? && call.auth.grantRef.value in rt.validGrants
      && call.auth.actorInstance == rt.actorInstance && call.auth.actorRole == rt.actorRole
      && (!call.Inspect? ==> call.worker == rt.actorInstance)
  {
    hide AllowedBy;
    SuccessWasPermitted(d, run, b, k);
  }

  /** A decision dies with its generations: once it has been accepted, no call that carries it succeeds or changes anything
      when policy, revocation or safe mode has another generation. */
  lemma OvertakenDecisionNeverSucceeds(d: Digests, run: seq<Step>, b: Behaviour, i: nat, k: nat)
    requires IsRun(d, run, b) && i < |run| && k < |run| && b.replies[i].Ok? && run[k].call.auth == run[i].call.auth
    requires !SameGenerations(run[i].call.runtime, run[k].call.runtime)
    ensures b.replies[k].Err? && b.states[k + 1] == b.states[k]
  {
    hide Apply, InWindow;
    SuccessWasAuthorized(d, run, b, i);
    if b.replies[k].Ok? {
      SuccessWasAuthorized(d, run, b, k);
    }
    assert StepOk(d, run, b, k);
    ApplyEffect(d, run[k].engineMain, b.states[k], run[k].call);
  }

  // ---- Attempts ----

  ghost predicate FailsAt(run: seq<Step>, b: Behaviour, k: nat, tid: string)
    requires k < |run| && |b.replies| == |run|
  {
    b.replies[k].Ok? && run[k].call.RecordFailure? && run[k].call.task == tid
  }

  // Recorded failures of `tid` among the first `k` calls, and the reason of the last.
  ghost function Failures(run: seq<Step>, b: Behaviour, k: nat, tid: string): nat
    requires k <= |run| == |b.replies|
  {
    if k == 0 then 0 else Failures(run, b, k - 1, tid) + if FailsAt(run, b, k - 1, tid) then 1 else 0
  }

  ghost function LastReason(run: seq<Step>, b: Behaviour, k: nat, tid: string): string
    requires k <= |run| == |b.replies|
  {
    if k == 0 then "" else if FailsAt(run, b, k - 1, tid) then run[k - 1].call.reason else LastReason(run, b, k - 1, tid)
  }

  // How one call moves the attempts of a task.
  ghost predicate AttemptMoves(s: State, s': State, call: Call, ok: bool, tid: string) {
    if tid !in s'.tasks then tid !in s.tasks
    else if tid !in s.tasks then s'.tasks[tid].attemptCount == 0 && s'.tasks[tid].deadLetterReason.None? && s'.tasks[tid].retryBudget == RETRY_BUDGET
    else
      var t, t' := s.tasks[tid], s'.tasks[tid];
      && t'.retryBudget == t.retryBudget
      && if ok && call.RecordFailure? && call.task == tid
         then t'.attemptCount == t.attemptCount + 1
              && t'.deadLetterReason == (if t.attemptCount < t.retryBudget then t.deadLetterReason else Some(call.reason))
         else t'.attemptCount == t.attemptCount && t'.deadLetterReason == t.deadLetterReason
  }

  lemma AttemptStep(d: Digests, m: string, s: State, call: Call, tid: string)
    requires ValidState(s)
    ensures AttemptMoves(s, Apply(d, m, s, call).0, call, Apply(d, m, s, call).1.Ok?, tid)
    ensures Apply(d, m, s, call).1.Ok? && call.RecordFailure? ==> call.task in s.tasks && call.reason != ""
  {
    hide Apply, Permitted, ValidState;
    ApplyEffect(d, m, s, call);
    match call
    case Inspect(_, _, _, _, _) => InspectIs(d, m, s, call);
    case AcquireLease(_, _, _, _, _, _, _) => AcquireIs(d, m, s, call);
    case Checkpoint(_, _, _, _, _, _, _, _) => CheckpointIs(d, m, s, call);
    case RecordFailure(_, _, _, _, _, _, _, _) => RecordFailureIs(d, m, s, call); ReasonGiven(m, call);
    case Commit(_, _, _, _, _, _, _, _, _, _) => CommitIs(d, m, s, call);
  }

  lemma ReasonGiven(m: string, call: Call)
    ensures call.RecordFailure? && Permitted(m, call) ==> call.reason != ""
  {
  }

  lemma AttemptStepAt(d: Digests, run: seq<Step>, b: Behaviour, k: nat, tid: string)
    requires IsRun(d, run, b) && k < |run| && ValidState(b.states[k])
    ensures AttemptMoves(b.states[k], b.states[k + 1], run[k].call, b.replies[k].Ok?, tid)
    ensures FailsAt(run, b, k, tid) ==> tid in b.states[k].tasks && run[k].call.reason != ""
  {
    hide Apply, AttemptMoves, ValidState;
    assert StepOk(d, run, b, k);
    AttemptStep(d, run[k].engineMain, b.states[k], run[k].call, tid);
  }

  /** The attempts of a task are its recorded failures, no fewer and no more; it is dead-lettered exactly when they have
      passed the budget, and with the reason of the failure that did it. */
  lemma {:induction false} AttemptsCountFailures(d: Digests, run: seq<Step>, b: Behaviour, k: nat, tid: string)
    requires IsRun(d, run, b) && EngineInv(d, b.states[0]) && k <= |run| && tid !in b.states[0].tasks
    ensures if tid !in b.states[k].tasks then Failures(run, b, k, tid) == 0
            else
              var t := b.states[k].tasks[tid];
              && t.attemptCount == Failures(run, b, k, tid) && t.retryBudget == RETRY_BUDGET
              && t.deadLetterReason == if t.attemptCount <= RETRY_BUDGET then None else Some(LastReason(run, b, k, tid))
  {
    hide StepOk, ValidState, EngineInv;
    if k > 0 {
      AttemptsCountFailures(d, run, b, k - 1, tid);
      ReachableInv(d, run, b, k - 1);
      assert ValidState(b.states[k - 1]) by { InvIsValid(d, b.states[k - 1]); }
      AttemptStepAt(d, run, b, k - 1, tid);
      if FailsAt(run, b, k - 1, tid) {
        LiveBelowBudget(d, run, b, k - 1, tid);
      }
    }
  }

  lemma InvIsValid(d: Digests, s: State)
    requires EngineInv(d, s)
    ensures ValidState(s)
  {
  }

  lemma LiveBelowBudget(d: Digests, run: seq<Step>, b: Behaviour, k: nat, tid: string)
    requires IsRun(d, run, b) && EngineInv(d, b.states[0]) && k < |run| && FailsAt(run, b, k, tid)
    ensures tid in b.states[k].tasks && b.states[k].tasks[tid].attemptCount <= b.states[k].tasks[tid].retryBudget
  {
    hide StepOk, ValidState, EngineInv;
    FencedStepAt(d, run, b, k);
    AttemptsAreBounded(d, run, b, k, tid);
  }

  /** The failure that passes the budget dead-letters the task on the spot, with its own reason, and every later call on
      the task is refused. */
  lemma LastFailureKills(d: Digests, run: seq<Step>, b: Behaviour, i: nat, k: nat, tid: string)
    requires IsRun(d, run, b) && EngineInv(d, b.states[0]) && tid !in b.states[0].tasks && i < k < |run|
    requires FailsAt(run, b, i, tid) && Failures(run, b, i, tid) == RETRY_BUDGET
    ensures tid in b.states[i + 1].tasks && b.states[i + 1].tasks[tid].deadLetterReason == Some(run[i].call.reason)
    ensures !run[k].call.Inspect? && run[k].call.task == tid ==> b.replies[k].Err? && b.states[k + 1] == b.states[k]
  {
    hide StepOk, ValidState, EngineInv, AttemptMoves;
    AttemptsCountFailures(d, run, b, i, tid);
    AttemptsCountFailures(d, run, b, i + 1, tid);
    assert ValidState(b.states[0]) by { InvIsValid(d, b.states[0]); }
    EveryStateValidates(d, run, b, i);
    AttemptStepAt(d, run, b, i, tid);
    AttemptsAreBounded(d, run, b, i + 1, tid) by { TaskKept(d, run, b, i, tid); }
    TaskHistory(d, run, b, i + 1, k, tid);
    if !run[k].call.Inspect? && run[k].call.task == tid {
      DeadRefuses(d, run, b, k, tid);
    }
  }

  lemma TaskKept(d: Digests, run: seq<Step>, b: Behaviour, k: nat, tid: string)
    requires IsRun(d, run, b) && k < |run| && ValidState(b.states[k]) && tid in b.states[k].tasks
    ensures tid in b.states[k + 1].tasks
  {
    TaskStepAt(d, run, b, k, tid);
  }

  lemma DeadRefuses(d: Digests, run: seq<Step>, b: Behaviour, k: nat, tid: string)
    requires IsRun(d, run, b) && k < |run| && !run[k].call.Inspect? && run[k].call.task == tid
    requires tid in b.states[k].tasks && Dead(b.states[k].tasks[tid])
    ensures b.replies[k].Err? && b.states[k + 1] == b.states[k]
  {
    hide Guard, ValidState;
    assert StepOk(d, run, b, k);
  }

  // ---- Commits of one task ----

  // What a commit says of its task.
  function PayloadAt(run: seq<Step>, b: Behaviour, k: nat): ReviewPayload
    requires k < |run| && |b.states| == |run| + 1 && run[k].call.Commit? && run[k].call.committed.Some? && run[k].call.task in b.states[k].tasks
  {
    var t, call := b.states[k].tasks[run[k].call.task], run[k].call;
    ReviewPayload(call.task, t.candidateId, t.inputHash, call.committed.value, call.verdictReason, multiset(call.evidence))
  }

  lemma CommitAt(d: Digests, run: seq<Step>, b: Behaviour, k: nat)
    requires IsRun(d, run, b) && k < |run| && ValidState(b.states[k]) && run[k].call.Commit? && b.replies[k].Ok?
    ensures run[k].call.committed.Some? && run[k].call.task in b.states[k].tasks
    ensures b.replies[k].value.Committed?
    ensures b.replies[k].value.receipt.payloadHash == d.payloadHash(PayloadAt(run, b, k))
  {
    hide Apply, ValidState, Permitted;
    assert StepOk(d, run, b, k);
    CommitIs(d, run[k].engineMain, b.states[k], run[k].call);
  }

  /** Two commits of one task that both succeed said the same: the same outcome, reason and evidence up to order, or their
      payloads collide under the digest. So a repetition with another verdict is refused. */
  lemma CommitsOfOneTaskAgree(d: Digests, run: seq<Step>, b: Behaviour, i: nat, j: nat)
    requires IsRun(d, run, b) && ValidState(b.states[0]) && i < j < |run|
    requires run[i].call.Commit? && run[j].call.Commit? && run[i].call.task == run[j].call.task && b.replies[i].Ok? && b.replies[j].Ok?
    ensures run[i].call.committed.Some? && run[j].call.committed.Some?
    ensures run[i].call.task in b.states[i].tasks && run[j].call.task in b.states[j].tasks
    ensures var p, q := PayloadAt(run, b, i), PayloadAt(run, b, j);
      d.payloadHash(p) == d.payloadHash(q)
      && (p == q <==> run[i].call.committed == run[j].call.committed && run[i].call.verdictReason == run[j].call.verdictReason
                       && multiset(run[i].call.evidence) == multiset(run[j].call.evidence))
  {
    hide StepOk, ValidState;
    EveryStateValidates(d, run, b, i);
    EveryStateValidates(d, run, b, j);
    CommitAt(d, run, b, i);
    CommitAt(d, run, b, j);
    ReplaysReturnTheFirstReceipt(d, run, b, i, j);
    TaskHistory(d, run, b, i, j, run[i].call.task);
  }
}
