// The durable role relay and the receipt store beside it: the job queue with its
// leases and claim tokens, and execute-once receipts keyed by operation key.
// Each function is one committed transaction; times are integers.
module Relay {
  import opened Prelude
  import opened Ordering
  import opened Orchestrator

  const MAX_RELAY_LEASE_SECONDS: nat := 60

  datatype Status = QUEUED | CLAIMED | COMPLETE

  // What a job asks for; it never changes after the job is created.
  datatype Payload = Payload(
    taskId: string, role: Role, key: string, generation: nat, transientObserved: int,
    head: string, branch: string, main: string, objective: string)

  datatype Job = Job(
    payload: Payload, status: Status, token: Option<string>, worker: Option<string>,
    lease: Option<int>, result: Option<Item>, createdAt: int)

  type Jobs = map<string, Job>

  datatype Submission = Submission(
    taskId: string, role: Role, key: string, semanticAttempt: int, transientAttempt: int,
    repo: string, domain: string, head: string, branch: string, main: string, objective: string,
    safety: Safety, costBudget: int)

  // The branch binding of the v3 store, or the reviewed policy of the v5 store.
  datatype Policy =
    | OneBranch(branch: string)
    | Reviewed(repo: string, bindings: set<(string, string)>, main: string)

  // The part of a job a provider is asked about.
  datatype Request = Request(
    taskId: string, role: Role, key: string, generation: nat, head: string, branch: string, main: string, objective: string)

  datatype Receipt = Receipt(request: string, item: Item)

  // `accepts` and `admits` are the result and request checks of the receipt store in use; `scriptFirst` says
  // that its worker looks for its own result before it looks for a receipt.
  datatype Env = Env(
    operationKey: (string, Role, nat) -> string,
    policy: Policy,
    requestHash: Request -> string,
    admits: Payload -> bool,
    accepts: (Payload, Item) -> bool,
    scriptFirst: bool)

  datatype Refusal =
    | GenerationInvalid | OperationKeyMismatch | RepoDenied | BindingDenied | HeadInvalid | MainInvalid
    | NotCandidateOnly | UnsafeTask | SpendDenied | MainNotReviewed | ReplayMismatch
    | WorkerIdInvalid | LeaseWidening | StaleClaim | JobNotFound | ConflictingDuplicate
    | ResultHeadMismatch | EvidenceRequired
    | RequestInvalid | ConflictingReplay | ResultInvalid | ScriptExhausted

  // ---- The queue ----

  /** `_validate_job`, in the order of the store's policy; a hazard flag that is missing is refused like one that is set. */
  function JobRefusal(env: Env, sub: Submission): Option<Refusal> {
    var p := env.policy;
    if sub.semanticAttempt - 1 < 0 then Some(GenerationInvalid)
    else if sub.key != env.operationKey(sub.taskId, sub.role, sub.semanticAttempt - 1) then Some(OperationKeyMismatch)
    else if p.Reviewed? && sub.repo != p.repo then Some(RepoDenied)
    else if p.Reviewed? && (sub.domain, sub.branch) !in p.bindings then Some(BindingDenied)
    else if !IsHex(sub.head, 40) then Some(HeadInvalid)
    else if p.OneBranch? && sub.branch != p.branch then Some(BindingDenied)
    else if !IsHex(sub.main, 40) then Some(MainInvalid)
    else if !sub.safety.candidateOnly then Some(NotCandidateOnly)
    else if |sub.safety.hazards| != HAZARDS || SafetyFailure(sub.safety).Some? then Some(UnsafeTask)
    else if sub.costBudget != 0 then Some(SpendDenied)
    else if p.Reviewed? && sub.main != p.main then Some(MainNotReviewed)
    else None
  }

  function PayloadOf(sub: Submission): Payload
    requires sub.semanticAttempt >= 1
  {
    Payload(sub.taskId, sub.role, sub.key, sub.semanticAttempt - 1, sub.transientAttempt, sub.head, sub.branch, sub.main, sub.objective)
  }

  // What a replayed submission must agree on with the stored job.
  predicate SameJob(a: Payload, b: Payload) {
    a.taskId == b.taskId && a.role == b.role && a.generation == b.generation
    && a.head == b.head && a.branch == b.branch && a.main == b.main
  }

  /** `enqueue`. */
  function Enqueue(env: Env, jobs: Jobs, sub: Submission, now: int): Result<Jobs, Refusal> {
    var refusal := JobRefusal(env, sub);
    if refusal.Some? then Err(refusal.value)
    else if sub.key !in jobs then Ok(jobs[sub.key := Job(PayloadOf(sub), QUEUED, None, None, None, None, now)])
    else if !SameJob(jobs[sub.key].payload, PayloadOf(sub)) then Err(ReplayMismatch)
    else Ok(jobs)
  }

  predicate Expired(j: Job, at: int) {
    j.status == CLAIMED && j.token.Some? && j.lease.Some? && j.lease.value <= at
  }

  function Requeued(j: Job): Job {
    j.(status := QUEUED, token := None, worker := None, lease := None)
  }

  /** `recover_expired`. */
  function RecoverExpired(jobs: Jobs, at: int): Jobs {
    map key | key in jobs :: if Expired(jobs[key], at) then Requeued(jobs[key]) else jobs[key]
  }

  // `ORDER BY created_at, operation_key`.
  predicate Earlier(jobs: Jobs, a: string, b: string)
    requires a in jobs && b in jobs
  {
    jobs[a].createdAt < jobs[b].createdAt || (jobs[a].createdAt == jobs[b].createdAt && StrLe(a, b))
  }

  ghost predicate OldestQueued(jobs: Jobs, key: string) {
    && key in jobs && jobs[key].status == QUEUED
    && forall other | other in jobs && jobs[other].status == QUEUED :: Earlier(jobs, key, other)
  }

  ghost predicate AnyQueued(jobs: Jobs) {
    exists key :: OldestQueued(jobs, key)
  }

  function Claimed(j: Job, who: string, lease: int, token: string, now: int): Job {
    j.(status := CLAIMED, token := Some(token), worker := Some(who), lease := Some(now + lease))
  }

  /** `heartbeat`. */
  function Heartbeat(jobs: Jobs, key: string, token: string, lease: int, now: int): Result<Jobs, Refusal> {
    if !(1 <= lease <= MAX_RELAY_LEASE_SECONDS) then Err(LeaseWidening)
    else if key in jobs && jobs[key].status == CLAIMED && jobs[key].token == Some(token)
    then Ok(jobs[key := jobs[key].(lease := Some(now + lease))])
    else Err(StaleClaim)
  }

  // The head and evidence checks of `complete`.
  function ResultRefusal(p: Payload, item: Item): Option<Refusal> {
    if (if p.role == IMPLEMENT then item.candidateHead else item.reviewedHead) != Str(p.head) then Some(ResultHeadMismatch)
    else if !NonEmptyText(item.evidence) then Some(EvidenceRequired)
    else None
  }

  function Completed(j: Job, item: Item): Job {
    j.(status := COMPLETE, result := Some(item), lease := None)
  }

  /** `complete`. */
  function Complete(jobs: Jobs, key: string, token: string, item: Item): Result<Jobs, Refusal> {
    if key !in jobs then Err(JobNotFound)
    else
      var j := jobs[key];
      if j.status == COMPLETE then (if j.result == Some(item) then Ok(jobs) else Err(ConflictingDuplicate))
      else if !(j.status == CLAIMED && j.token == Some(token)) then Err(StaleClaim)
      else if ResultRefusal(j.payload, item).Some? then Err(ResultRefusal(j.payload, item).value)
      else Ok(jobs[key := Completed(j, item)])
  }

  // ---- The receipts ----

  function RequestOf(p: Payload): Request {
    Request(p.taskId, p.role, p.key, p.generation, p.head, p.branch, p.main, p.objective)
  }

  datatype Execution = Execution(item: Item, receipts: map<string, Receipt>, ran: bool)

  /** `execute_once` and `execute_local_once`: a stored receipt is replayed; otherwise what the worker produces
      is checked and stored. `produced` is nothing when the worker has no result for the job. */
  function Execute(env: Env, receipts: map<string, Receipt>, p: Payload, produced: Option<Item>): Result<Execution, Refusal> {
    var hash := env.requestHash(RequestOf(p));
    if !env.admits(p) then Err(RequestInvalid)
    else if env.scriptFirst && produced.None? then Err(ScriptExhausted)
    else if p.key in receipts then
      if receipts[p.key].request != hash then Err(ConflictingReplay)
      else if !env.accepts(p, receipts[p.key].item) then Err(ResultInvalid)
      else Ok(Execution(receipts[p.key].item, receipts, false))
    else if produced.None? then Err(ScriptExhausted)
    else if !env.accepts(p, produced.value) then Err(ResultInvalid)
    else Ok(Execution(produced.value, receipts[p.key := Receipt(hash, produced.value)], true))
  }
}
