// The relay's operations from outside: who may submit, what each transaction
// leaves, and what every job of a run goes back to.
module RelayContracts {
  import opened Prelude
  import opened Ordering
  import O = Orchestrator
  import opened Relay
  import opened RelayRuns

  // ---- Submitting ----

  predicate SafeTask(s: O.Safety) {
    s.candidateOnly && |s.hazards| == 8 && forall i | 0 <= i < |s.hazards| :: !s.hazards[i]
  }

  predicate AllowedBy(p: Policy, sub: Submission) {
    match p
    case OneBranch(branch) => sub.branch == branch
    case Reviewed(repo, bindings, main) => sub.repo == repo && (sub.domain, sub.branch) in bindings && sub.main == main
  }

  predicate Admissible(env: Env, sub: Submission) {
    && sub.semanticAttempt >= 1 && sub.key == env.operationKey(sub.taskId, sub.role, sub.semanticAttempt - 1)
    && IsHex(sub.head, 40) && IsHex(sub.main, 40) && AllowedBy(env.policy, sub)
    && SafeTask(sub.safety) && sub.costBudget == 0
  }

  /** Exactly which submissions the queue takes, under either store's policy. */
  lemma AdmissibleIff(env: Env, sub: Submission)
    ensures JobRefusal(env, sub).None? <==> Admissible(env, sub)
  {
    hide IsHex, O.FirstHazard;
    NoHazard(sub.safety.hazards, 0);
  }

  // The first check that fails names the refusal.
  ghost predicate RefusedFor(env: Env, sub: Submission, code: Refusal) {
    var reviewed := env.policy.Reviewed?;
    var numbered := sub.semanticAttempt >= 1;
    var keyed := numbered && sub.key == env.operationKey(sub.taskId, sub.role, sub.semanticAttempt - 1);
    var housed := keyed && (reviewed ==> sub.repo == env.policy.repo);
    var bound := housed && (reviewed ==> (sub.domain, sub.branch) in env.policy.bindings);
    var headed := bound && IsHex(sub.head, 40);
    var branched := headed && (!reviewed ==> sub.branch == env.policy.branch);
    var mained := branched && IsHex(sub.main, 40);
    || (code == GenerationInvalid && !numbered)
    || (code == OperationKeyMismatch && numbered && !keyed)
    || (code == RepoDenied && keyed && !housed)
    || (code == BindingDenied && ((housed && !bound) || (headed && !branched)))
    || (code == HeadInvalid && bound && !headed)
    || (code == MainInvalid && branched && !mained)
    || (code == NotCandidateOnly && mained && !sub.safety.candidateOnly)
    || (code == UnsafeTask && mained && sub.safety.candidateOnly && !SafeTask(sub.safety))
    || (code == SpendDenied && mained && SafeTask(sub.safety) && sub.costBudget != 0)
    || (code == MainNotReviewed && mained && SafeTask(sub.safety) && sub.costBudget == 0 && reviewed && sub.main != env.policy.main)
  }

  lemma RefusalNamed(env: Env, sub: Submission)
    requires JobRefusal(env, sub).Some?
    ensures RefusedFor(env, sub, JobRefusal(env, sub).value)
  {
    hide IsHex, O.FirstHazard;
    NoHazard(sub.safety.hazards, 0);
  }

  predicate SameRequest(a: Payload, sub: Submission) {
    a.taskId == sub.taskId && a.role == sub.role && a.generation == sub.semanticAttempt - 1
    && a.head == sub.head && a.branch == sub.branch && a.main == sub.main
  }

  // What is put on the queue.
  function NewJob(sub: Submission, now: int): Job
    requires sub.semanticAttempt >= 1
  {
    Job(Payload(sub.taskId, sub.role, sub.key, sub.semanticAttempt - 1, sub.transientAttempt, sub.head, sub.branch, sub.main, sub.objective),
        QUEUED, None, None, None, None, now)
  }

  /** What becomes of a submission: refused for the first check it fails; queued as it is under a new key; taken as a repeat
      of the same task, role, generation, head, branch and main; or refused as a mismatch. */
  lemma EnqueueIs(env: Env, jobs: Jobs, sub: Submission, now: int)
    ensures Admissible(env, sub) ==>
      Enqueue(env, jobs, sub, now) ==
        if sub.key !in jobs then Ok(jobs[sub.key := NewJob(sub, now)])
        else if SameRequest(jobs[sub.key].payload, sub) then Ok(jobs)
        else Err(ReplayMismatch)
    ensures !Admissible(env, sub) ==>
      var r := Enqueue(env, jobs, sub, now); r.Err? && RefusedFor(env, sub, r.error)
  {
    hide JobRefusal, RefusedFor;
    AdmissibleIff(env, sub);
    if JobRefusal(env, sub).Some? {
      RefusalNamed(env, sub);
    }
  }

  // ---- Claiming ----

  ghost predicate FirstQueued(jobs: Jobs, key: string) {
    && key in jobs && jobs[key].status == QUEUED
    && forall other | other in jobs && jobs[other].status == QUEUED && other != key ::
      jobs[key].createdAt < jobs[other].createdAt || (jobs[key].createdAt == jobs[other].createdAt && StrLe(key, other))
  }

  lemma FirstIff(jobs: Jobs, key: string)
    ensures FirstQueued(jobs, key) <==> OldestQueued(jobs, key)
  {
    StrLeTotal(key, key);
  }

  lemma FirstIsQueued(jobs: Jobs, key: string)
    requires FirstQueued(jobs, key)
    ensures key in jobs && jobs[key].status == QUEUED
  {
  }

  lemma OneFirst(jobs: Jobs, a: string, b: string)
    requires FirstQueued(jobs, a) && FirstQueued(jobs, b)
    ensures a == b
  {
    if a != b && StrLe(a, b) && StrLe(b, a) {
      StrLeAntisymmetric(a, b);
    }
  }

  predicate MayClaim(w: World, who: string, lease: int, token: string) {
    who != "" && 1 <= lease <= 60 && token !in w.used
  }

  /** A claim takes the one queued job that is first by creation and key, for the asked lease and under the drawn token, and
      without such a job, name or lease it takes nothing. */
  lemma ClaimIs(w: World, who: string, lease: int, token: string, at: int, key: string)
    requires FirstQueued(w.jobs, key)
    ensures ClaimOldest(w, who, lease, token, at) ==
      if !MayClaim(w, who, lease, token) then w
      else
        var j := w.jobs[key];
        w.(jobs := w.jobs[key := j.(status := CLAIMED, token := Some(token), worker := Some(who), lease := Some(at + lease))],
           workers := w.workers[who := Holding(token, j.payload)],
           used := w.used + {token})
  {
    hide StrLe, FirstQueued, OldestQueued;
    FirstIff(w.jobs, key);
    forall other | OldestQueued(w.jobs, other) ensures other == key {
      FirstIff(w.jobs, other);
      OneFirst(w.jobs, key, other);
    }
  }

  lemma NothingToClaim(w: World, who: string, lease: int, token: string, at: int)
    requires forall key :: !FirstQueued(w.jobs, key)
    ensures ClaimOldest(w, who, lease, token, at) == w
  {
    hide FirstQueued, OldestQueued;
    forall key ensures !OldestQueued(w.jobs, key) {
      FirstIff(w.jobs, key);
    }
  }

  // ---- Leases ----

  /** Recovery puts back exactly the claimed jobs whose lease has ended, without token, worker and lease. */
  lemma RecoverIs(jobs: Jobs, at: int, key: string)
    ensures RecoverExpired(jobs, at).Keys == jobs.Keys
    ensures key in jobs ==>
      var j := jobs[key];
      RecoverExpired(jobs, at)[key] ==
        if j.status == CLAIMED && j.token.Some? && j.lease.Some? && j.lease.value <= at
        then Job(j.payload, QUEUED, None, None, None, j.result, j.createdAt) else j
  {
  }

  lemma BeatIs(jobs: Jobs, key: string, token: string, lease: int, now: int)
    ensures Heartbeat(jobs, key, token, lease, now) ==
      if lease < 1 || lease > 60 then Err(LeaseWidening)
      else if key in jobs && jobs[key].status == CLAIMED && jobs[key].token == Some(token)
      then Ok(jobs[key := jobs[key].(lease := Some(now + lease))])
      else Err(StaleClaim)
  {
  }

  // ---- Results ----

  function HeadOf(p: Payload, item: Item): O.Field {
    match p.role
    case IMPLEMENT => item.candidateHead
    case LAB => item.reviewedHead
    case AUDIT => item.reviewedHead
  }

  predicate Bound(p: Payload, item: Item) {
    HeadOf(p, item) == O.Str(p.head) && item.evidence.Str? && item.evidence.s != ""
  }

  /** What becomes of a result: it completes its job exactly for the holder of the current token, bound to the job's head and
      with evidence; a completed job takes the very same result again and no other. */
  lemma CompleteIs(jobs: Jobs, key: string, token: string, item: Item)
    ensures Complete(jobs, key, token, item) ==
      if key !in jobs then Err(JobNotFound)
      else
        var j := jobs[key];
        if j.status == COMPLETE then (if j.result == Some(item) then Ok(jobs) else Err(ConflictingDuplicate))
        else if j.status == QUEUED || j.token != Some(token) then Err(StaleClaim)
        else if Bound(j.payload, item) then Ok(jobs[key := j.(status := COMPLETE, result := Some(item), lease := None)])
        else if HeadOf(j.payload, item) != O.Str(j.payload.head) then Err(ResultHeadMismatch)
        else Err(EvidenceRequired)
  {
  }

  function HashOf(env: Env, p: Payload): string {
    env.requestHash(Request(p.taskId, p.role, p.key, p.generation, p.head, p.branch, p.main, p.objective))
  }

  /** What becomes of an execution: a stored receipt of the same request answers in place of the worker, if it is acceptable;
      what a worker newly produces is stored under the job's key with the hash of its request, if it is acceptable. */
  lemma ExecuteIs(env: Env, receipts: map<string, Receipt>, p: Payload, produced: Option<Item>)
    ensures Execute(env, receipts, p, produced) ==
      if !env.admits(p) then Err(RequestInvalid)
      else if produced.None? && (env.scriptFirst || p.key !in receipts) then Err(ScriptExhausted)
      else if p.key in receipts && receipts[p.key].request != HashOf(env, p) then Err(ConflictingReplay)
      else
        var item := if p.key in receipts then receipts[p.key].item else produced.value;
        if !env.accepts(p, item) then Err(ResultInvalid)
        else if p.key in receipts then Ok(Execution(item, receipts, false))
        else Ok(Execution(item, receipts[p.key := Receipt(HashOf(env, p), item)], true))
  {
  }

  // The job after recovery at `at`.
  function Recovered(j: Job, at: int): Job {
    if j.status == CLAIMED && j.token.Some? && j.lease.Some? && j.lease.value <= at
    then Job(j.payload, QUEUED, None, None, None, j.result, j.createdAt) else j
  }

  /** Recovery and heartbeats in a run: a recovery puts back every job whose lease has ended and touches nothing else, and a
      heartbeat of the holder moves the end of its lease. */
  lemma LeaseEvents(env: Env, w: World, key: string, token: string, lease: int, at: int)
    ensures var w' := Step(env, w, Event.Recover(at));
      && w' == w.(jobs := w'.jobs) && w'.jobs.Keys == w.jobs.Keys
      && forall k | k in w.jobs :: w'.jobs[k] == Recovered(w.jobs[k], at)
    ensures Step(env, w, Event.Beat(key, token, lease, at)) ==
      if 1 <= lease <= 60 && key in w.jobs && w.jobs[key].status == CLAIMED && w.jobs[key].token == Some(token)
      then w.(jobs := w.jobs[key := w.jobs[key].(lease := Some(at + lease))]) else w
  {
  }

  // ---- Every job of a run ----

  ghost predicate BornAt(env: Env, events: seq<Event>, worlds: seq<World>, i: nat, key: string, p: Payload, createdAt: int)
    requires i < |events| == |worlds| - 1
  {
    && events[i].Submit? && Admissible(env, events[i].sub) && events[i].sub.key == key && key !in worlds[i].jobs
    && p == NewJob(events[i].sub, events[i].at).payload && createdAt == events[i].at
  }

  lemma StepBorn(env: Env, w: World, e: Event, key: string)
    requires key in Step(env, w, e).jobs
    ensures key in w.jobs ==> Step(env, w, e).jobs[key].payload == w.jobs[key].payload && Step(env, w, e).jobs[key].createdAt == w.jobs[key].createdAt
    ensures key !in w.jobs ==> e.Submit? && Admissible(env, e.sub) && e.sub.key == key && Step(env, w, e).jobs[key] == NewJob(e.sub, e.at)
  {
    hide Enqueue, Admissible, OldestQueued, FirstQueued, Complete, Execute;
    match e
    case Submit(sub, at) => EnqueueIs(env, w.jobs, sub, at);
    case Claim(who, lease, token, at) =>
      if first :| FirstQueued(w.jobs, first) {
        assert first in w.jobs by { FirstIsQueued(w.jobs, first); }
        ClaimIs(w, who, lease, token, at, first);
      } else {
        NothingToClaim(w, who, lease, token, at);
      }
    case Finish(who) =>
      var c := WorkerOf(w, who);
      if c.Executed? { CompleteIs(w.jobs, c.payload.key, c.token, c.item); }
    case _ =>
  }

  /** Every job of every reachable queue goes back to one admissible submission, which it still is: its key, task, role,
      generation, head, branch, main, objective and time of creation. */
  lemma {:induction false} JobIsItsSubmission(env: Env, events: seq<Event>, worlds: seq<World>, k: nat, key: string) returns (i: nat)
    requires IsRun(env, events, worlds) && k < |worlds| && key in worlds[k].jobs
    ensures i < k && BornAt(env, events, worlds, i, key, worlds[k].jobs[key].payload, worlds[k].jobs[key].createdAt)
    decreases k
  {
    hide Step, Admissible;
    if k == 0 {
      assert false;
    } else {
      assert StepOk(env, events, worlds, k - 1);
      StepBorn(env, worlds[k - 1], events[k - 1], key);
      if key in worlds[k - 1].jobs {
        i := JobIsItsSubmission(env, events, worlds, k - 1, key);
      } else {
        i := k - 1;
      }
    }
  }

  // The event that gave a job its present lease.
  ghost predicate LeasedBy(w: World, e: Event, key: string, j: Job) {
    || (e.Claim? && FirstQueued(w.jobs, key) && MayClaim(w, e.who, e.lease, e.token)
        && j.token == Some(e.token) && j.worker == Some(e.who) && j.lease == Some(e.at + e.lease))
    || (e.Beat? && e.key == key && 1 <= e.lease <= 60 && key in w.jobs && w.jobs[key].status == CLAIMED
        && w.jobs[key].token == j.token == Some(e.token) && w.jobs[key].worker == j.worker && j.lease == Some(e.at + e.lease))
  }

  lemma StepLeases(env: Env, w: World, e: Event, key: string)
    requires var w' := Step(env, w, e); key in w'.jobs && w'.jobs[key].status == CLAIMED && (key in w.jobs ==> w'.jobs[key] != w.jobs[key])
    ensures LeasedBy(w, e, key, Step(env, w, e).jobs[key])
  {
    hide Admissible, Enqueue, OldestQueued, FirstQueued, Complete, Execute, Heartbeat, RecoverExpired;
    match e
    case Submit(sub, at) => EnqueueIs(env, w.jobs, sub, at);
    case Recover(at) => RecoverIs(w.jobs, at, key);
    case Claim(who, lease, token, at) =>
      if first :| FirstQueued(w.jobs, first) {
        ClaimIs(w, who, lease, token, at, first);
      } else {
        NothingToClaim(w, who, lease, token, at);
      }
    case Beat(k, token, lease, at) => BeatIs(w.jobs, k, token, lease, at);
    case Run(_, _) =>
    case Finish(who) =>
      var c := WorkerOf(w, who);
      if c.Executed? { CompleteIs(w.jobs, c.payload.key, c.token, c.item); }
    case Crash(_) =>
  }

  /** The lease of every claimed job is that of its latest claim or heartbeat: the step that gave it was a claim of the first
      queued job or a heartbeat with the job's token, the lease ends the asked time after it, and nothing touched the job since. */
  lemma {:induction false} LeaseIsTheLatest(env: Env, events: seq<Event>, worlds: seq<World>, k: nat, key: string) returns (i: nat)
    requires IsRun(env, events, worlds) && k < |worlds| && key in worlds[k].jobs && worlds[k].jobs[key].status == CLAIMED
    ensures i < k && LeasedBy(worlds[i], events[i], key, worlds[k].jobs[key])
    ensures forall m | i < m <= k :: key in worlds[m].jobs && worlds[m].jobs[key] == worlds[k].jobs[key]
    decreases k
  {
    hide Step, LeasedBy;
    if k == 0 {
      assert false;
    } else {
      assert StepOk(env, events, worlds, k - 1);
      if key in worlds[k - 1].jobs && worlds[k - 1].jobs[key] == worlds[k].jobs[key] {
        i := LeaseIsTheLatest(env, events, worlds, k - 1, key);
      } else {
        StepLeases(env, worlds[k - 1], events[k - 1], key);
        i := k - 1;
      }
    }
  }

  // The event that made a receipt durable.
  ghost predicate StoredAt(env: Env, w: World, e: Event, key: string, r: Receipt) {
    && e.Run? && e.produced == Some(r.item) && key !in w.receipts
    && WorkerOf(w, e.who).Holding?
    && var p := WorkerOf(w, e.who).payload;
    p.key == key && env.admits(p) && env.accepts(p, r.item) && r.request == HashOf(env, p)
  }

  lemma StepStores(env: Env, w: World, e: Event, key: string)
    requires key in Step(env, w, e).receipts
    ensures key in w.receipts ==> Step(env, w, e).receipts[key] == w.receipts[key]
    ensures key !in w.receipts ==> StoredAt(env, w, e, key, Step(env, w, e).receipts[key])
  {
    hide Enqueue, OldestQueued, Complete, Heartbeat, RecoverExpired, Execute;
    if e.Run? && WorkerOf(w, e.who).Holding? {
      ExecuteIs(env, w.receipts, WorkerOf(w, e.who).payload, e.produced);
    }
  }

  /** Every durable receipt is what a worker that held the job produced for it, admitted and accepted, under the hash of the
      request the job makes. */
  lemma {:induction false} ReceiptIsWhatWasProduced(env: Env, events: seq<Event>, worlds: seq<World>, k: nat, key: string) returns (i: nat)
    requires IsRun(env, events, worlds) && k < |worlds| && key in worlds[k].receipts
    ensures i < k && StoredAt(env, worlds[i], events[i], key, worlds[k].receipts[key])
    decreases k
  {
    hide Step, StoredAt;
    if k == 0 {
      assert false;
    } else {
      assert StepOk(env, events, worlds, k - 1);
      StepStores(env, worlds[k - 1], events[k - 1], key);
      if key in worlds[k - 1].receipts {
        i := ReceiptIsWhatWasProduced(env, events, worlds, k - 1, key);
      } else {
        i := k - 1;
      }
    }
  }
}
