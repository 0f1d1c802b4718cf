// Concrete runs of the engine from the empty store, with real authorizations.
module R1Examples {
  import opened Prelude
  import opened R1Auth
  import opened R1State
  import opened R1Engine
  import opened R1Invariants
  import opened R1Keys
  import opened R1Progress
  import opened R1Runs

  const MAIN: string := Fill(40, 'a')
  const HASH: string := Fill(64, 'b')
  const WORKER := "w"
  const GRANT := "g"
  const GRANT_SECONDS := 1000

  // The task id is the key itself, and every payload has the same digest.
  const DIGESTS: Digests := Digests(KeyItself, OneHash)

  function KeyItself(idem: string): string {
    idem
  }

  function OneHash(p: ReviewPayload): string {
    HASH
  }

  const RUNTIME: AuthorizationRuntime := AuthorizationRuntime("p", "d", 0, 0, 0, "r", WORKER, {GRANT}, None, false)

  // The decision that grants exactly `need`.
  function Granted(need: Need): Decision {
    Decision("x", RUNTIME.policyGeneration, RUNTIME.policyDigest, RUNTIME.actorRole, RUNTIME.actorInstance,
             need.operation, need.target, need.permission, need.permission,
             Some(Scope(Some(need.operation), Some(need.target), Some(need.exposure))), need.exposure,
             Some(RUNTIME.now), Some(RUNTIME.now + GRANT_SECONDS), Some(GRANT), None,
             RUNTIME.revocationGeneration, RUNTIME.safeModeGeneration, true)
  }

  function RuntimeAt(at: int): AuthorizationRuntime {
    RUNTIME.(now := at)
  }

  lemma GrantIsAccepted(need: Need, at: int)
    requires need.permission == P1 && 0 <= at < GRANT_SECONDS
    ensures Validate(Granted(need), RuntimeAt(at), need).None?
  {
  }

  function InspectOf(c: string, h: string): Call {
    Inspect(MAIN, c, h, Granted(Need(SourceCacheInspectOrStage, CandidateTarget(c), P1, PublicTermsMetadataOnly)), RUNTIME)
  }

  function LeaseOf(task: string): Call {
    AcquireLease(MAIN, task, WORKER, 0, 10, Granted(Need(TaskAcquireLease, TaskTarget(task), P1, InternalR1StateOnly)), RUNTIME)
  }

  function CommitOf(task: string): Call {
    Commit(MAIN, task, WORKER, 1, 0, Some(ReviewedNoAdmission), "v", [],
           Granted(Need(SourceReviewCommit, TaskTarget(task), P1, PublicTermsMetadataOnly)), RUNTIME)
  }

  lemma CallsPassTheirGuard(c: string, h: string, task: string)
    ensures Guard(MAIN, InspectOf(c, h)).None? && Guard(MAIN, LeaseOf(task)).None? && Guard(MAIN, CommitOf(task)).None?
  {
    hide Validate;
    GrantIsAccepted(NeedOf(InspectOf(c, h)), RUNTIME.now);
    GrantIsAccepted(NeedOf(LeaseOf(task)), RUNTIME.now);
    GrantIsAccepted(NeedOf(CommitOf(task)), RUNTIME.now);
  }

  lemma IdemDiffers(c: string, h1: string, h2: string)
    requires h1 != h2
    ensures Idem(c, h1) != Idem(c, h2)
  {
    if Idem(c, h1) == Idem(c, h2) {
      SameText(c, h1, c, h2);
      SameCut(c, h1, c, h2);
    }
  }

  // ---- Staging, leasing and committing a new candidate ----

  function Staged(c: string, h: string): State {
    var tid := Idem(c, h);
    State(1, map[c := FreshEntry(c, h)], map[tid := FreshTask(tid, tid, c, h, 0, "x")], map[tid := tid], map[])
  }

  lemma FirstInspection(c: string, h: string)
    requires c != "" && h != ""
    ensures Apply(DIGESTS, MAIN, EMPTY_STATE, InspectOf(c, h)) == (Staged(c, h), Ok(TaskRef(Some(Idem(c, h)))))
    ensures EngineInv(DIGESTS, Staged(c, h))
  {
    hide Idem, Guard, Apply, IsHexAnyCase;
    CallsPassTheirGuard(c, h, "");
    IdemNonEmpty(c, h);
    EmptyInv(DIGESTS);
    InspectSucceedsIff(DIGESTS, MAIN, EMPTY_STATE, InspectOf(c, h));
    ApplyKeeps(DIGESTS, MAIN, EMPTY_STATE, InspectOf(c, h));
  }

  function LeasedOnce(c: string, h: string): State {
    var s, tid := Staged(c, h), Idem(c, h);
    s.(tasks := s.tasks[tid := Leased(s.tasks[tid], WORKER, 0, 10)], generation := 2)
  }

  lemma FirstLease(c: string, h: string)
    requires EngineInv(DIGESTS, Staged(c, h))
    ensures Apply(DIGESTS, MAIN, Staged(c, h), LeaseOf(Idem(c, h))) == (LeasedOnce(c, h), Ok(Epoch(1)))
    ensures EngineInv(DIGESTS, LeasedOnce(c, h))
  {
    hide Idem, Guard, Apply, EngineInv, FreshEntry;
    assert ValidState(Staged(c, h)) by { ValidOfInv(DIGESTS, Staged(c, h)); }
    CallsPassTheirGuard(c, h, Idem(c, h));
    AcquireSucceedsIff(DIGESTS, MAIN, Staged(c, h), LeaseOf(Idem(c, h)));
    ApplyKeeps(DIGESTS, MAIN, Staged(c, h), LeaseOf(Idem(c, h)));
  }

  lemma ValidOfInv(d: Digests, s: State)
    requires EngineInv(d, s)
    ensures ValidState(s)
  {
  }

  function FirstReceipt(c: string, h: string): Receipt {
    Receipt(ReceiptIdOf(HASH), Idem(c, h), HASH, c, ReviewedNoAdmission, 1, "x", None, 1, WORKER, MAIN)
  }

  function CommittedOnce(c: string, h: string): State {
    var s, tid := LeasedOnce(c, h), Idem(c, h);
    s.(cache := map[c := ReviewedEntry(FreshEntry(c, h), CommitOf(tid))],
       tasks := s.tasks[tid := s.tasks[tid].(durableReceiptRef := Some(ReceiptIdOf(HASH)))],
       receipts := map[tid := FirstReceipt(c, h)], generation := 3)
  }

  lemma HexConstants()
    ensures IsHexAnyCase(MAIN, 40) && IsHexAnyCase(HASH, 64)
  {
  }

  lemma FirstCommit(c: string, h: string)
    requires EngineInv(DIGESTS, LeasedOnce(c, h))
    ensures Apply(DIGESTS, MAIN, LeasedOnce(c, h), CommitOf(Idem(c, h))) == (CommittedOnce(c, h), Ok(Committed(FirstReceipt(c, h))))
    ensures EngineInv(DIGESTS, CommittedOnce(c, h))
  {
    hide Idem, Guard, EngineInv, ValidState, IsHexAnyCase, ReceiptIdOf;
    var s, call := LeasedOnce(c, h), CommitOf(Idem(c, h));
    ValidOfInv(DIGESTS, s);
    HexConstants();
    CallsPassTheirGuard(c, h, Idem(c, h));
    CommitCreatesReceiptIff(DIGESTS, MAIN, s, call);
    ApplyKeeps(DIGESTS, MAIN, s, call);
    var t := s.tasks[Idem(c, h)];
    var done := CommitReview(DIGESTS, s, t, call);
    assert Storable(DIGESTS, t, call);
    assert done.Ok? && done.value.1 == FirstReceipt(c, h);
    assert done.value.0 == CommittedOnce(c, h).(generation := s.generation) by {
      assert done.value.0.cache == CommittedOnce(c, h).cache;
      assert done.value.0.receipts == CommittedOnce(c, h).receipts;
    }
    assert done.value.0.receipts != s.receipts;
    assert Mutate(DIGESTS, s, call) == Ok((done.value.0, Committed(done.value.1)));
  }

  // ---- The hash goes and comes back ----

  // A later inspection of a known candidate under another hash.
  lemma ChangedInspection(s: State, c: string, h: string)
    requires EngineInv(DIGESTS, s) && c in s.cache && s.cache[c].docsHash != h && c != "" && h != ""
    requires Idem(c, h) in s.index || Idem(c, h) !in s.tasks
    ensures var out := Apply(DIGESTS, MAIN, s, InspectOf(c, h));
      && out.1 == Ok(TaskRef(Some(if Idem(c, h) in s.index then s.index[Idem(c, h)] else Idem(c, h))))
      && out.0.cache == s.cache[c := ChangedEntry(s.cache[c], h)] && out.0.receipts == s.receipts
      && (forall tid | tid in s.tasks && tid != Idem(c, h) :: tid in out.0.tasks && out.0.tasks[tid] == s.tasks[tid])
      && (Idem(c, h) in s.index ==> out.0.tasks == s.tasks && out.0.index == s.index)
      && (Idem(c, h) !in s.index ==> out.0.index == s.index[Idem(c, h) := Idem(c, h)])
      && EngineInv(DIGESTS, out.0)
  {
    hide Idem, Guard, EngineInv, Apply;
    assert ValidState(s) by { ValidOfInv(DIGESTS, s); }
    IdemNonEmpty(c, h);
    CallsPassTheirGuard(c, h, "");
    InspectSucceedsIff(DIGESTS, MAIN, s, InspectOf(c, h));
    ApplyKeeps(DIGESTS, MAIN, s, InspectOf(c, h));
  }


  lemma StepIs(d: Digests, run: seq<Step>, b: Behaviour, k: nat)
    requires IsRun(d, run, b) && k < |run|
    ensures (b.states[k + 1], b.replies[k]) == Apply(d, run[k].engineMain, b.states[k], run[k].call)
  {
    hide Apply;
    assert StepOk(d, run, b, k);
  }

  function At(call: Call): Step {
    Step(MAIN, call)
  }

  /** A run of the engine in which a commit returns a receipt and leaves the entry open: inspect, lease, commit,
      inspect under another hash, inspect under the first again, commit again. */
  lemma ReceiptWithoutSealRun(c: string, h1: string, h2: string) returns (run: seq<Step>, b: Behaviour)
    requires c != "" && h1 != "" && h2 != "" && h1 != h2
    ensures IsRun(DIGESTS, run, b) && b.states[0] == EMPTY_STATE && |run| == 6
    ensures run[2].call.Commit? && run[5].call == run[2].call
    ensures b.replies[5].Ok? && b.replies[5] == b.replies[2] == Ok(Committed(FirstReceipt(c, h1)))
    ensures b.replies[4] == b.replies[0] == Ok(TaskRef(Some(run[5].call.task)))
    ensures c in b.states[6].cache && b.states[6].cache[c].docsHash == h1 && !Final(b.states[6].cache[c].auditState)
  {
    hide Idem, Apply, EngineInv, Stage, IsRun, InspectOf, LeaseOf, CommitOf, Staged, LeasedOnce, CommittedOnce;
    var t1 := Idem(c, h1);
    IdemDiffers(c, h1, h2);
    run := [At(InspectOf(c, h1)), At(LeaseOf(t1)), At(CommitOf(t1)), At(InspectOf(c, h2)), At(InspectOf(c, h1)), At(CommitOf(t1))];
    b := Execute(DIGESTS, EMPTY_STATE, run);
    RunShape(run, b);
    StepIs(DIGESTS, run, b, 0);
    FirstInspection(c, h1);
    StepIs(DIGESTS, run, b, 1);
    FirstLease(c, h1);
    StepIs(DIGESTS, run, b, 2);
    FirstCommit(c, h1);
    StepIs(DIGESTS, run, b, 3);
    CommittedOnceIs(c, h1);
    ChangedInspection(b.states[3], c, h2);
    StepIs(DIGESTS, run, b, 4);
    ChangedInspection(b.states[4], c, h1);
    StepIs(DIGESTS, run, b, 5);
    SecondCommit(b.states[5], c, h1);
    CommitOfIs(t1);
  }

  lemma RunShape(run: seq<Step>, b: Behaviour)
    requires IsRun(DIGESTS, run, b)
    ensures |b.replies| == |run| && |b.states| == |run| + 1
  {
  }

  lemma CommitOfIs(task: string)
    ensures CommitOf(task).Commit? && CommitOf(task).task == task
  {
  }

  lemma CommittedOnceIs(c: string, h: string)
    ensures var s, tid := CommittedOnce(c, h), Idem(c, h);
      && c in s.cache && s.cache[c].docsHash == h
      && s.tasks.Keys == {tid} && s.index == map[tid := tid] && s.receipts == map[tid := FirstReceipt(c, h)]
      && !Dead(s.tasks[tid]) && HoldsLease(s.tasks[tid], WORKER, 1, 0)
      && s.tasks[tid].idempotencyKey == tid
  {
    hide Idem, ReceiptIdOf;
  }

  // The same commit again, with its receipt there: nothing is written.
  lemma SecondCommit(s: State, c: string, h: string)
    requires EngineInv(DIGESTS, s) && Idem(c, h) in s.tasks
    requires var t := s.tasks[Idem(c, h)];
      !Dead(t) && HoldsLease(t, WORKER, 1, 0) && t.idempotencyKey == Idem(c, h)
    requires Idem(c, h) in s.receipts && s.receipts[Idem(c, h)] == FirstReceipt(c, h)
    ensures Apply(DIGESTS, MAIN, s, CommitOf(Idem(c, h))) == (s, Ok(Committed(FirstReceipt(c, h))))
  {
    hide Idem, Guard, EngineInv, ValidState, ReceiptIdOf;
    ValidOfInv(DIGESTS, s);
    CallsPassTheirGuard(c, h, Idem(c, h));
  }

  /** A run in which a hash goes and comes back before any commit: the first task is handed out again, overtaken,
      so that no continuation of the run ever commits it. */
  lemma StaleTaskRun(c: string, h1: string, h2: string) returns (run: seq<Step>, b: Behaviour)
    requires c != "" && h1 != "" && h2 != "" && h1 != h2
    ensures IsRun(DIGESTS, run, b) && b.states[0] == EMPTY_STATE && |run| == 3
    ensures b.replies[2].Ok? && b.replies[2] == b.replies[0] && b.replies[2] == Ok(TaskRef(Some(Idem(c, h1))))
    ensures c in b.states[3].cache && b.states[3].cache[c].docsHash == h1 && Overtaken(b.states[3], Idem(c, h1))
  {
    hide Idem, Apply, EngineInv, Stage, IsRun, InspectOf;
    IdemDiffers(c, h1, h2);
    run := [At(InspectOf(c, h1)), At(InspectOf(c, h2)), At(InspectOf(c, h1))];
    b := Execute(DIGESTS, EMPTY_STATE, run);
    RunShape(run, b);
    StepIs(DIGESTS, run, b, 0);
    FirstInspection(c, h1);
    StepIs(DIGESTS, run, b, 1);
    ChangedInspection(b.states[1], c, h2);
    StepIs(DIGESTS, run, b, 2);
    ChangedInspection(b.states[2], c, h1);
  }

  // ---- A shared key ----

  /** An inspection of candidate "a" hands out the task of candidate "a:b", because their keys coincide. */
  lemma SharedKeyRun() returns (run: seq<Step>, b: Behaviour)
    ensures IsRun(DIGESTS, run, b) && b.states[0] == EMPTY_STATE && |run| == 2
    ensures run[1].call.Inspect? && run[1].call.candidate == "a"
    ensures b.replies[1].Ok? && b.replies[1].value.TaskRef? && b.replies[1].value.taskId.Some?
    ensures var tid := b.replies[1].value.taskId.value;
      tid in b.states[2].tasks && b.states[2].tasks[tid].candidateId == "a:b"
  {
    hide Apply, EngineInv, IsRun;
    IdemCollides();
    run := [At(InspectOf("a:b", "c")), At(InspectOf("a", "b:c"))];
    b := Execute(DIGESTS, EMPTY_STATE, run);
    RunShape(run, b);
    StepIs(DIGESTS, run, b, 0);
    FirstInspection("a:b", "c");
    StepIs(DIGESTS, run, b, 1);
    ForeignInspection(b.states[1], "a", "b:c");
  }

  // A new candidate whose key is taken gets the task that has it.
  lemma ForeignInspection(s: State, c: string, h: string)
    requires EngineInv(DIGESTS, s) && c != "" && c !in s.cache && Idem(c, h) in s.index
    ensures var out := Apply(DIGESTS, MAIN, s, InspectOf(c, h));
      out.1 == Ok(TaskRef(Some(s.index[Idem(c, h)]))) && out.0.tasks == s.tasks
  {
    hide Idem, Guard, EngineInv, Apply;
    assert ValidState(s) by { ValidOfInv(DIGESTS, s); }
    CallsPassTheirGuard(c, h, "");
    InspectSucceedsIff(DIGESTS, MAIN, s, InspectOf(c, h));
  }
}
