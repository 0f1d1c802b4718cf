// The provider adapter contract v7: what may become a durable receipt, and what
// that buys the relay and the orchestrator downstream.
module ProviderAdapter {
  import opened Prelude
  import opened Ordering
  import O = Orchestrator
  import opened Relay
  import opened RelayRuns
  import opened Traces

  // The reviewed policy and adapter manifests, and the two digests.
  datatype Setup = Setup(
    operationKey: (string, O.Role, nat) -> string, requestHash: Request -> string,
    repo: string, bindings: set<(string, string)>, main: string)

  // Does `complete`'s and every gate's view of the result fit the role?
  predicate ValidImplement(head: string, item: O.Item) {
    && !item.status.Absent? && !item.candidateHead.Absent? && !item.diffLines.Absent? && !item.cost.Absent? && !item.evidence.Absent?
    && item.candidateHead == O.Str(head) && O.IsReady(item.status)
    && item.diffLines.Num? && item.diffLines.n >= 0 && item.cost.Num? && item.cost.n == 0
  }

  predicate ValidReview(head: string, item: O.Item) {
    && !item.verdict.Absent? && item.reviewedHead == O.Str(head)
    && (O.IsPass(item.verdict) || O.IsFixRequired(item.verdict))
    && (O.IsFixRequired(item.verdict) ==> O.NonEmptyText(item.code) && item.detail.Str?)
  }

  /** `_validate_result_for_request`. */
  predicate ValidResult(p: Payload, item: O.Item) {
    O.NonEmptyText(item.evidence) && if p.role == O.IMPLEMENT then ValidImplement(p.head, item) else ValidReview(p.head, item)
  }

  /** `provider_request_from_job`: the checks on a claimed job. */
  predicate RequestOk(main: string, p: Payload) {
    IsHex(p.head, 40) && IsHex(p.main, 40) && p.main == main && p.branch != "" && p.key != ""
  }

  function ProviderEnv(s: Setup): Env {
    Env(s.operationKey, Reviewed(s.repo, s.bindings, s.main), s.requestHash, p => RequestOk(s.main, p), (p, item) => ValidResult(p, item), false)
  }

  // The v3 fixture stores whatever the script gave it, and reads the script first.
  function FixtureEnv(s: Setup, branch: string): Env {
    Env(s.operationKey, OneBranch(branch), s.requestHash, p => true, (p, item) => true, true)
  }

  lemma ValidIsCompletable(p: Payload, item: O.Item)
    requires ValidResult(p, item)
    ensures ResultRefusal(p, item).None?
  {
    hide O.IsReady, O.IsPass, O.IsFixRequired;
  }

  /** No poison receipts: in every reachable world of v7, each durable receipt satisfies its role's schema,
      and a worker that holds the current claim and its result always completes the job. */
  lemma NoPoison(s: Setup, events: seq<Event>, worlds: seq<World>, k: nat, key: string, who: string)
    requires IsRun(ProviderEnv(s), events, worlds) && k < |worlds|
    ensures key in worlds[k].receipts ==>
      key in worlds[k].jobs && ValidResult(worlds[k].jobs[key].payload, worlds[k].receipts[key].item)
    ensures var w, c := worlds[k], WorkerOf(worlds[k], who);
      (c.Executed? && c.payload.key in w.jobs && w.jobs[c.payload.key].token == Some(c.token))
      ==> Complete(w.jobs, c.payload.key, c.token, c.item).Ok?
  {
    hide Step, ValidResult, ResultRefusal, RequestOk, Complete;
    var env, w, c := ProviderEnv(s), worlds[k], WorkerOf(worlds[k], who);
    RunInv(env, events, worlds, k);
    assert ReceiptOk(env, w, key);
    if c.Executed? {
      CompletesIff(env, events, worlds, k, who);
      assert WorkerOk(w, c);
      assert ReceiptOk(env, w, c.payload.key);
      ValidIsCompletable(c.payload, c.item);
    }
  }

  // The orchestrator's task is the one the job was made for.
  predicate TaskOf(e: O.Env, p: Payload) {
    && e.spec.candidateHead == p.head && O.SafetyFailure(e.spec.safety).None? && O.ValidSpec(e.spec)
  }

  /** Downstream, a v7 IMPLEMENT result fails the mechanical gate exactly when it exceeds the diff budget, with
      that code and no other. */
  lemma OnlyTheDiffBudgetFails(e: O.Env, p: Payload, item: O.Item)
    requires TaskOf(e, p) && p.role == O.IMPLEMENT && ValidResult(p, item)
    ensures item.diffLines.Num?
    ensures O.MechanicalGate(e, item).Some? <==> item.diffLines.n > e.spec.budgets.diffLines
    ensures O.MechanicalGate(e, item).Some? ==> O.MechanicalGate(e, item).value.0 == O.DiffBudgetExceeded
  {
  }

  /** A v7 review is never unparsable: it moves the task on, or it asks for a fix. */
  lemma ReviewsAlwaysParse(e: O.Env, w: O.World, p: Payload, item: O.Item)
    requires TaskOf(e, p) && p.role != O.IMPLEMENT && ValidResult(p, item)
    ensures O.ReviewFailure(e, p.role, item).None?
    ensures O.JudgeReview(e, w, p.role, item).row.state ==
      (if O.IsPass(item.verdict) then (if p.role == O.LAB then O.IN_AUDIT else O.DONE)
       else O.SemanticFail(e, w, O.OfRole(p.role), O.Reported(item.code.s), item.detail.s, O.FailState(p.role)).row.state)
  {
    hide O.SemanticFail, O.ValidSpec, O.SafetyFailure;
  }

  /** End to end: whatever a v7 relay delivers as the result of a COMPLETE job passes the orchestrator's gates
      but for the diff budget, whoever ran it and however often workers died. */
  lemma DeliveredResultsAreSound(s: Setup, events: seq<Event>, worlds: seq<World>, k: nat, key: string, e: O.Env)
    requires IsRun(ProviderEnv(s), events, worlds) && k < |worlds|
    requires key in worlds[k].jobs && worlds[k].jobs[key].status == COMPLETE && TaskOf(e, worlds[k].jobs[key].payload)
    ensures worlds[k].jobs[key].result.Some?
    ensures var role, item := worlds[k].jobs[key].payload.role, worlds[k].jobs[key].result.value;
      if role == O.IMPLEMENT
      then O.MechanicalGate(e, item).None? || O.MechanicalGate(e, item).value.0 == O.DiffBudgetExceeded
      else O.ReviewFailure(e, role, item).None? && (O.IsPass(item.verdict) || O.IsFixRequired(item.verdict))
  {
    hide Step, ValidImplement, RequestOk, TaskOf, O.MechanicalGate, O.IsPass, O.IsFixRequired;
    ResultIsTheReceipt(ProviderEnv(s), events, worlds, k, k, key);
    NoPoison(s, events, worlds, k, key, "");
    var p, item := worlds[k].jobs[key].payload, worlds[k].jobs[key].result.value;
    if p.role == O.IMPLEMENT {
      OnlyTheDiffBudgetFails(e, p, item);
    } else {
      ReviewsAlwaysParse(e, O.Created(), p, item);
    }
  }

  /** The v3 fixture is exactly as good as its script: a result bound to another head becomes durable, and then
      its job can never complete. */
  lemma FixtureCanBePoisoned(s: Setup, branch: string, events: seq<Event>, worlds: seq<World>, i: nat, k: nat)
    requires IsRun(FixtureEnv(s, branch), events, worlds) && i < k < |worlds|
    requires events[i].Run? && events[i].produced.Some? && WorkerOf(worlds[i], events[i].who).Holding?
    requires var p := WorkerOf(worlds[i], events[i].who).payload;
      p.key !in worlds[i].receipts && ResultRefusal(p, events[i].produced.value).Some?
    ensures var key := WorkerOf(worlds[i], events[i].who).payload.key;
      key in worlds[k].jobs && worlds[k].jobs[key].status != COMPLETE
  {
    hide Inv, ResultRefusal, RequestOf;
    var env, p := FixtureEnv(s, branch), WorkerOf(worlds[i], events[i].who).payload;
    RunInv(env, events, worlds, i);
    assert p.key in worlds[i].jobs && worlds[i].jobs[p.key].payload == p by { HoldsItsJob(env, worlds[i], events[i].who); }
    assert StepOk(env, events, worlds, i);
    PoisonIsForever(env, events, worlds, i + 1, k, p.key);
  }

  lemma HoldsItsJob(env: Env, w: World, who: string)
    requires Inv(env, w) && !WorkerOf(w, who).Free?
    ensures var p := WorkerOf(w, who).payload; p.key in w.jobs && w.jobs[p.key].payload == p
  {
    hide JobOk, ReceiptOk, TokenOk, PairOk, OneJob;
    assert WorkerOk(w, WorkerOf(w, who));
  }

  // ---- A poisoned job ----

  function NoHazards(n: nat): (hazards: seq<bool>)
    ensures |hazards| == n && forall i | 0 <= i < n :: !hazards[i]
  {
    if n == 0 then [] else NoHazards(n - 1) + [false]
  }

  // A submission the fixture's queue takes: one task, its first implementation, no hazard and no cost.
  function SafeSubmission(s: Setup, branch: string): Submission {
    Submission("t", O.IMPLEMENT, s.operationKey("t", O.IMPLEMENT, 0), 1, 0, "", "", Fill(40, 'a'), branch, Fill(40, 'b'), "",
               O.Safety(true, NoHazards(O.HAZARDS)), 0)
  }

  // A ready implementation of another head.
  function MisboundItem(): O.Item {
    O.Item(O.Str("READY"), O.Str(Fill(40, 'c')), O.Num(1), O.Num(0), O.Str("e"), O.Absent, O.Absent, O.Absent, O.Absent, "")
  }

  // Enqueue, claim, run, and present the result.
  function JobThrough(sub: Submission, who: string, lease: int, token: string, now: int, item: O.Item): seq<Event> {
    [Submit(sub, now), Claim(who, lease, token, now), Run(who, Some(item)), Finish(who)]
  }

  ghost function Stepper(env: Env): (World, Event) -> World {
    (w, e) => Step(env, w, e)
  }

  /** From the empty relay, one worker takes one accepted job through the fixture. Its result becomes durable
      whatever it is; the job completes exactly if the result is bound to the job's head and has evidence, and if
      not, it completes in no continuation either, whoever works on it. */
  lemma FixtureJobCompletesIff(s: Setup, branch: string, sub: Submission, who: string, lease: int, token: string, now: int,
                               item: O.Item, events: seq<Event>, worlds: seq<World>, k: nat)
    requires IsRun(FixtureEnv(s, branch), events, worlds) && 4 <= k < |worlds|
    requires events[..4] == JobThrough(sub, who, lease, token, now, item)
    requires JobRefusal(FixtureEnv(s, branch), sub).None? && who != "" && 1 <= lease <= MAX_RELAY_LEASE_SECONDS
    ensures sub.key in worlds[k].jobs && sub.key in worlds[k].receipts && worlds[k].receipts[sub.key].item == item
    ensures worlds[k].jobs[sub.key].status == COMPLETE <==> ResultRefusal(PayloadOf(sub), item).None?
  {
    hide JobRefusal, ResultRefusal, RequestOf, Inv, IsHex;
    var env := FixtureEnv(s, branch);
    assert forall i | 0 <= i < 4 :: events[i] == events[..4][i];
    assert StepOk(env, events, worlds, 0) && StepOk(env, events, worlds, 1) && StepOk(env, events, worlds, 2) && StepOk(env, events, worlds, 3);
    JobIsRun(s, branch, sub, who, lease, token, now, item);
    RunSettles(env, events, worlds, 4, k, sub.key);
    if ResultRefusal(PayloadOf(sub), item).Some? {
      PoisonIsForever(env, events, worlds, 4, k, sub.key);
    }
  }

  // The first three of those events.
  lemma JobIsRun(s: Setup, branch: string, sub: Submission, who: string, lease: int, token: string, now: int, item: O.Item)
    requires JobRefusal(FixtureEnv(s, branch), sub).None? && who != "" && 1 <= lease <= MAX_RELAY_LEASE_SECONDS
    ensures var env := FixtureEnv(s, branch);
      var w := Step(env, Step(env, Step(env, Empty(), Submit(sub, now)), Claim(who, lease, token, now)), Run(who, Some(item)));
      && WorkerOf(w, who) == Executed(token, PayloadOf(sub), item)
      && sub.key in w.jobs && w.jobs[sub.key].payload == PayloadOf(sub)
      && w.jobs[sub.key].status == CLAIMED && w.jobs[sub.key].token == Some(token)
      && sub.key in w.receipts && w.receipts[sub.key].item == item
  {
    hide JobRefusal, ResultRefusal, RequestOf, Inv, IsHex;
    var env := FixtureEnv(s, branch);
    var queued := Step(env, Empty(), Submit(sub, now));
    QueuedAlone(queued.jobs, sub.key);
    var claimed := Step(env, queued, Claim(who, lease, token, now));
    assert WorkerOf(claimed, who) == Holding(token, PayloadOf(sub));
  }

  lemma QueuedAlone(jobs: Jobs, key: string)
    requires jobs.Keys == {key} && jobs[key].status == QUEUED
    ensures OldestQueued(jobs, key) && AnyQueued(jobs)
    ensures forall other | OldestQueued(jobs, other) :: other == key
  {
    StrLeTotal(key, key);
    assert OldestQueued(jobs, key);
  }

  lemma SafeSubmissionPasses(s: Setup, branch: string)
    ensures JobRefusal(FixtureEnv(s, branch), SafeSubmission(s, branch)).None?
  {
    hide O.FirstHazard;
    NoHazard(NoHazards(O.HAZARDS), 0);
  }

  /** So it does happen: a result for another head, and the job is blocked at the end of this run. */
  lemma PoisonedRun(s: Setup, branch: string) returns (events: seq<Event>, worlds: seq<World>)
    ensures IsRun(FixtureEnv(s, branch), events, worlds) && |events| == 4
    ensures JobRefusal(FixtureEnv(s, branch), SafeSubmission(s, branch)).None?
    ensures events == JobThrough(SafeSubmission(s, branch), "w", 1, "k", 0, MisboundItem())
    ensures var key := SafeSubmission(s, branch).key;
      && key in worlds[4].jobs && worlds[4].jobs[key].status != COMPLETE
      && key in worlds[4].receipts && worlds[4].receipts[key].item == MisboundItem()
  {
    hide Step, JobRefusal;
    var env, sub := FixtureEnv(s, branch), SafeSubmission(s, branch);
    events := JobThrough(sub, "w", 1, "k", 0, MisboundItem());
    worlds := Trace(Stepper(env), Empty(), events);
    forall k | 0 <= k < |events| ensures StepOk(env, events, worlds, k) {
      TraceSteps(Stepper(env), Empty(), events, k);
    }
    assert events[..4] == events;
    assert Fill(40, 'a')[0] != Fill(40, 'c')[0];
    SafeSubmissionPasses(s, branch);
    FixtureJobCompletesIff(s, branch, sub, "w", 1, "k", 0, MisboundItem(), events, worlds, 4);
  }
}
