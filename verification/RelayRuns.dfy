// The relay over whole runs: any number of submitters and workers, leases that
// expire at any time, and workers that die between any two transactions.
module RelayRuns {
  import opened Prelude
  import opened Ordering
  import O = Orchestrator
  import opened Relay

  type Item = O.Item

  // A worker between the transactions of `fixture_process_one`.
  datatype Worker =
    | Free
    | Holding(token: string, payload: Payload)
    | Executed(token: string, payload: Payload, item: Item)

  // `effects` is every time a worker really ran, oldest first; `used` is every token ever drawn.
  datatype World = World(
    jobs: Jobs, receipts: map<string, Receipt>, executions: map<string, nat>,
    workers: map<string, Worker>, effects: seq<string>, used: set<string>)

  datatype Event =
    | Submit(sub: Submission, at: int)
    | Recover(at: int)
    | Claim(who: string, lease: int, token: string, at: int)
    | Beat(key: string, token: string, lease: int, at: int)
    | Run(who: string, produced: Option<Item>)
    | Finish(who: string)
    | Crash(who: string)

  function WorkerOf(w: World, who: string): Worker {
    if who in w.workers then w.workers[who] else Free
  }

  function Becomes(w: World, who: string, c: Worker): World {
    w.(workers := w.workers[who := c])
  }

  // The claiming transaction of `claim_next`; tokens are random and never repeat.
  ghost function ClaimOldest(w: World, who: string, lease: int, token: string, at: int): World {
    if who == "" || !(1 <= lease <= MAX_RELAY_LEASE_SECONDS) || token in w.used || !AnyQueued(w.jobs) then w
    else
      var key :| OldestQueued(w.jobs, key);
      w.(jobs := w.jobs[key := Claimed(w.jobs[key], who, lease, token, at)],
         workers := w.workers[who := Holding(token, w.jobs[key].payload)],
         used := w.used + {token})
  }

  function RunWorker(env: Env, w: World, who: string, produced: Option<Item>): World {
    var c := WorkerOf(w, who);
    if !c.Holding? then w
    else
      var done := Execute(env, w.receipts, c.payload, produced);
      if done.Err? then Becomes(w, who, Free)
      else
        var w' := Becomes(w, who, Executed(c.token, c.payload, done.value.item));
        if done.value.ran
        then w'.(receipts := done.value.receipts, executions := w.executions[c.payload.key := 1], effects := w.effects + [c.payload.key])
        else w'
  }

  function FinishWorker(w: World, who: string): World {
    var c := WorkerOf(w, who);
    if !c.Executed? then w
    else
      var done := Complete(w.jobs, c.payload.key, c.token, c.item);
      Becomes(if done.Ok? then w.(jobs := done.value) else w, who, Free)
  }

  ghost function Step(env: Env, w: World, e: Event): World {
    match e
    case Submit(sub, at) => var r := Enqueue(env, w.jobs, sub, at); if r.Ok? then w.(jobs := r.value) else w
    case Recover(at) => w.(jobs := RecoverExpired(w.jobs, at))
    case Claim(who, lease, token, at) => ClaimOldest(w, who, lease, token, at)
    case Beat(key, token, lease, at) => var r := Heartbeat(w.jobs, key, token, lease, at); if r.Ok? then w.(jobs := r.value) else w
    case Run(who, produced) => RunWorker(env, w, who, produced)
    case Finish(who) => FinishWorker(w, who)
    case Crash(who) => Becomes(w, who, Free)
  }

  function Empty(): World {
    World(map[], map[], map[], map[], [], {})
  }

  ghost predicate StepOk(env: Env, events: seq<Event>, worlds: seq<World>, k: nat)
    requires k < |events| == |worlds| - 1
  {
    worlds[k + 1] == Step(env, worlds[k], events[k])
  }

  ghost predicate IsRun(env: Env, events: seq<Event>, worlds: seq<World>) {
    && |events| == |worlds| - 1
    && worlds[0] == Empty()
    && forall k {:trigger StepOk(env, events, worlds, k)} | 0 <= k < |events| :: StepOk(env, events, worlds, k)
  }

  // ---- What every step keeps ----

  function Runs(effects: seq<string>, key: string): nat {
    if effects == [] then 0
    else Runs(effects[..|effects| - 1], key) + (if effects[|effects| - 1] == key then 1 else 0)
  }

  ghost predicate JobOk(env: Env, w: World, key: string)
    requires key in w.jobs
  {
    var j := w.jobs[key];
    && j.payload.key == key && key == env.operationKey(j.payload.taskId, j.payload.role, j.payload.generation)
    && (j.status == QUEUED ==> j.token.None? && j.lease.None?)
    && (j.status == CLAIMED ==> j.lease.Some?)
    && (j.status != QUEUED ==> j.token.Some? && j.token.value in w.used)
    && (j.status == COMPLETE <==> j.result.Some?)
    && (j.status == COMPLETE ==>
          key in w.receipts && j.result == Some(w.receipts[key].item) && ResultRefusal(j.payload, w.receipts[key].item).None?)
  }

  ghost predicate ReceiptOk(env: Env, w: World, key: string) {
    if key in w.receipts then
      && key in w.jobs
      && w.receipts[key].request == env.requestHash(RequestOf(w.jobs[key].payload))
      && env.accepts(w.jobs[key].payload, w.receipts[key].item) && env.admits(w.jobs[key].payload)
      && key in w.executions && w.executions[key] == 1 && Runs(w.effects, key) == 1
    else key !in w.executions && Runs(w.effects, key) == 0
  }

  ghost predicate WorkerOk(w: World, c: Worker) {
    !c.Free? ==>
      && c.token in w.used
      && c.payload.key in w.jobs && w.jobs[c.payload.key].payload == c.payload
      && (c.Executed? ==> c.payload.key in w.receipts && c.item == w.receipts[c.payload.key].item)
  }

  // A token is drawn once, by one worker, for one job.
  ghost predicate TokenOk(w: World, who: string, key: string) {
    var c := WorkerOf(w, who);
    !c.Free? && key in w.jobs && w.jobs[key].token == Some(c.token) ==> c.payload.key == key
  }

  ghost predicate PairOk(w: World, a: string, b: string) {
    a != b && !WorkerOf(w, a).Free? && !WorkerOf(w, b).Free? ==> WorkerOf(w, a).token != WorkerOf(w, b).token
  }

  // Two jobs never carry the same token.
  ghost predicate OneJob(w: World, a: string, b: string) {
    a in w.jobs && b in w.jobs && a != b && w.jobs[a].token.Some? ==> w.jobs[a].token != w.jobs[b].token
  }

  ghost predicate Inv(env: Env, w: World) {
    && (forall key {:trigger JobOk(env, w, key)} | key in w.jobs :: JobOk(env, w, key))
    && (forall key {:trigger ReceiptOk(env, w, key)} :: ReceiptOk(env, w, key))
    && (forall who {:trigger WorkerOf(w, who)} :: WorkerOk(w, WorkerOf(w, who)))
    && (forall who, key {:trigger TokenOk(w, who, key)} :: TokenOk(w, who, key))
    && (forall a, b {:trigger PairOk(w, a, b)} :: PairOk(w, a, b))
    && (forall a, b {:trigger OneJob(w, a, b)} :: OneJob(w, a, b))
  }

  // Changing one worker to `c`, where `c` has the same or no claim.
  lemma BecomesKeeps(env: Env, w: World, who: string, c: Worker)
    requires Inv(env, w) && WorkerOk(w, c)
    requires !c.Free? ==> !WorkerOf(w, who).Free? && c.token == WorkerOf(w, who).token && c.payload == WorkerOf(w, who).payload
    ensures Inv(env, Becomes(w, who, c))
  {
    hide ResultRefusal, RequestOf, Runs;
    var w' := Becomes(w, who, c);
    forall key | key in w'.jobs ensures JobOk(env, w', key) { assert JobOk(env, w, key); }
    forall key ensures ReceiptOk(env, w', key) { assert ReceiptOk(env, w, key); }
    forall other ensures WorkerOk(w', WorkerOf(w', other)) { assert other != who ==> WorkerOf(w', other) == WorkerOf(w, other); }
    forall other, key ensures TokenOk(w', other, key) { assert TokenOk(w, other, key); }
    forall a, b ensures PairOk(w', a, b) { assert PairOk(w, a, b); }
    forall a, b ensures OneJob(w', a, b) { assert OneJob(w, a, b); }
  }

  // Changing jobs in ways that keep payloads, and tokens except for dropping them.
  lemma JobsKeep(env: Env, w: World, jobs: Jobs)
    requires Inv(env, w)
    requires forall key | key in w.jobs :: key in jobs && jobs[key].payload == w.jobs[key].payload
    requires forall key | key in jobs :: jobs[key].token.None? || (key in w.jobs && jobs[key].token == w.jobs[key].token)
    requires forall key | key in jobs :: JobOk(env, w.(jobs := jobs), key)
    ensures Inv(env, w.(jobs := jobs))
  {
    hide JobOk, RequestOf, Runs;
    var w' := w.(jobs := jobs);
    forall key ensures ReceiptOk(env, w', key) { assert ReceiptOk(env, w, key); }
    forall who ensures WorkerOk(w', WorkerOf(w', who)) { assert WorkerOf(w', who) == WorkerOf(w, who); }
    forall who, key ensures TokenOk(w', who, key) { assert TokenOk(w, who, key); }
    forall a, b ensures PairOk(w', a, b) { assert PairOk(w, a, b); }
    forall a, b ensures OneJob(w', a, b) { assert OneJob(w, a, b); }
  }

  lemma SubmitKeeps(env: Env, w: World, sub: Submission, at: int)
    requires Inv(env, w)
    ensures Inv(env, Step(env, w, Submit(sub, at)))
  {
    hide ResultRefusal, IsHex, O.SafetyFailure;
    var r := Enqueue(env, w.jobs, sub, at);
    if r.Ok? {
      forall key | key in r.value ensures JobOk(env, w.(jobs := r.value), key) {
        if key in w.jobs { assert JobOk(env, w, key); }
        assert ReceiptOk(env, w, key);
      }
      JobsKeep(env, w, r.value);
    }
  }

  lemma RecoverKeeps(env: Env, w: World, at: int)
    requires Inv(env, w)
    ensures Inv(env, w.(jobs := RecoverExpired(w.jobs, at)))
  {
    hide ResultRefusal;
    var jobs := RecoverExpired(w.jobs, at);
    forall key | key in jobs ensures JobOk(env, w.(jobs := jobs), key) {
      assert JobOk(env, w, key);
    }
    JobsKeep(env, w, jobs);
  }

  lemma BeatKeeps(env: Env, w: World, key: string, token: string, lease: int, at: int)
    requires Inv(env, w)
    ensures Inv(env, Step(env, w, Beat(key, token, lease, at)))
  {
    hide ResultRefusal;
    var r := Heartbeat(w.jobs, key, token, lease, at);
    if r.Ok? {
      forall other | other in r.value ensures JobOk(env, w.(jobs := r.value), other) {
        assert JobOk(env, w, other);
      }
      JobsKeep(env, w, r.value);
    }
  }

  function ClaimOf(w: World, key: string, who: string, lease: int, token: string, at: int): World
    requires key in w.jobs
  {
    w.(jobs := w.jobs[key := Claimed(w.jobs[key], who, lease, token, at)],
       workers := w.workers[who := Holding(token, w.jobs[key].payload)],
       used := w.used + {token})
  }

  lemma ClaimJobs(env: Env, w: World, key: string, who: string, lease: int, token: string, at: int)
    requires Inv(env, w) && key in w.jobs && w.jobs[key].status == QUEUED && token !in w.used
    ensures var w' := ClaimOf(w, key, who, lease, token, at);
      && (forall k {:trigger JobOk(env, w', k)} | k in w'.jobs :: JobOk(env, w', k))
      && (forall k {:trigger ReceiptOk(env, w', k)} :: ReceiptOk(env, w', k))
      && (forall a, b {:trigger OneJob(w', a, b)} :: OneJob(w', a, b))
  {
    hide ResultRefusal, RequestOf, Runs;
    var w' := ClaimOf(w, key, who, lease, token, at);
    forall k | k in w'.jobs ensures JobOk(env, w', k) { assert JobOk(env, w, k); }
    forall k ensures ReceiptOk(env, w', k) { assert ReceiptOk(env, w, k); }
    forall a, b ensures OneJob(w', a, b) {
      assert OneJob(w, a, b);
      if a in w.jobs && b in w.jobs { assert JobOk(env, w, a) && JobOk(env, w, b); }
    }
  }

  lemma ClaimWorkers(env: Env, w: World, key: string, who: string, lease: int, token: string, at: int)
    requires Inv(env, w) && key in w.jobs && token !in w.used
    ensures var w' := ClaimOf(w, key, who, lease, token, at);
      && (forall other {:trigger WorkerOf(w', other)} :: WorkerOk(w', WorkerOf(w', other)))
      && (forall other, k {:trigger TokenOk(w', other, k)} :: TokenOk(w', other, k))
      && (forall a, b {:trigger PairOk(w', a, b)} :: PairOk(w', a, b))
  {
    hide JobOk, ReceiptOk, OneJob;
    var w' := ClaimOf(w, key, who, lease, token, at);
    assert w.jobs[key].payload.key == key by { assert JobOk(env, w, key); KeyOfJob(env, w, key); }
    forall other ensures WorkerOk(w', WorkerOf(w', other)) {
      assert other != who ==> WorkerOf(w', other) == WorkerOf(w, other);
    }
    forall other, k ensures TokenOk(w', other, k) {
      assert TokenOk(w, other, k) && WorkerOk(w, WorkerOf(w, other));
      if k in w.jobs {
        assert JobOk(env, w, k);
        KeyOfJob(env, w, k);
      }
    }
    forall a, b ensures PairOk(w', a, b) {
      assert PairOk(w, a, b) && WorkerOk(w, WorkerOf(w, a)) && WorkerOk(w, WorkerOf(w, b));
    }
  }

  lemma KeyOfJob(env: Env, w: World, key: string)
    requires key in w.jobs && JobOk(env, w, key)
    ensures w.jobs[key].payload.key == key
    ensures w.jobs[key].token.Some? ==> w.jobs[key].token.value in w.used
  {
  }

  lemma ClaimKeeps(env: Env, w: World, who: string, lease: int, token: string, at: int)
    requires Inv(env, w)
    ensures Inv(env, ClaimOldest(w, who, lease, token, at))
  {
    hide JobOk, ReceiptOk, OneJob, WorkerOk, TokenOk, PairOk, Earlier;
    var w' := ClaimOldest(w, who, lease, token, at);
    if w' != w {
      var key :| OldestQueued(w.jobs, key) && w' == ClaimOf(w, key, who, lease, token, at);
      ClaimJobs(env, w, key, who, lease, token, at);
      ClaimWorkers(env, w, key, who, lease, token, at);
    }
  }

  lemma RunsOfMore(effects: seq<string>, k: string, key: string)
    ensures Runs(effects + [k], key) == Runs(effects, key) + (if k == key then 1 else 0)
  {
    assert (effects + [k])[..|effects|] == effects;
  }

  lemma RunKeeps(env: Env, w: World, who: string, produced: Option<Item>)
    requires Inv(env, w)
    ensures Inv(env, RunWorker(env, w, who, produced))
  {
    hide ResultRefusal, RequestOf, Runs;
    var c, w' := WorkerOf(w, who), RunWorker(env, w, who, produced);
    if c.Holding? {
      var done := Execute(env, w.receipts, c.payload, produced);
      assert WorkerOk(w, c);
      if done.Err? {
        BecomesKeeps(env, w, who, Free);
      } else if !done.value.ran {
        BecomesKeeps(env, w, who, Executed(c.token, c.payload, done.value.item));
      } else {
        var key := c.payload.key;
        var stored := w.(receipts := done.value.receipts, executions := w.executions[key := 1], effects := w.effects + [key]);
        StoreKeeps(env, w, c.payload, Receipt(env.requestHash(RequestOf(c.payload)), done.value.item));
        BecomesKeeps(env, stored, who, Executed(c.token, c.payload, done.value.item));
        assert w' == Becomes(stored, who, Executed(c.token, c.payload, done.value.item));
      }
    }
  }

  lemma StoreKeeps(env: Env, w: World, p: Payload, receipt: Receipt)
    requires Inv(env, w) && p.key !in w.receipts && p.key in w.jobs && w.jobs[p.key].payload == p
    requires receipt.request == env.requestHash(RequestOf(p)) && env.accepts(p, receipt.item) && env.admits(p)
    ensures Inv(env, w.(receipts := w.receipts[p.key := receipt], executions := w.executions[p.key := 1], effects := w.effects + [p.key]))
  {
    hide ResultRefusal, RequestOf, Runs;
    var w' := w.(receipts := w.receipts[p.key := receipt], executions := w.executions[p.key := 1], effects := w.effects + [p.key]);
    forall k | k in w'.jobs ensures JobOk(env, w', k) { assert JobOk(env, w, k); }
    forall k ensures ReceiptOk(env, w', k) {
      assert ReceiptOk(env, w, k);
      RunsOfMore(w.effects, p.key, k);
    }
    forall other ensures WorkerOk(w', WorkerOf(w', other)) { assert WorkerOf(w', other) == WorkerOf(w, other); }
    forall other, k ensures TokenOk(w', other, k) { assert TokenOk(w, other, k); }
    forall a, b ensures PairOk(w', a, b) { assert PairOk(w, a, b); }
    forall a, b ensures OneJob(w', a, b) { assert OneJob(w, a, b); }
  }

  lemma FinishKeeps(env: Env, w: World, who: string)
    requires Inv(env, w)
    ensures Inv(env, FinishWorker(w, who))
  {
    hide ResultRefusal, RequestOf, Runs;
    var c := WorkerOf(w, who);
    if c.Executed? {
      var done := Complete(w.jobs, c.payload.key, c.token, c.item);
      assert WorkerOk(w, c);
      if done.Ok? {
        forall k | k in done.value ensures JobOk(env, w.(jobs := done.value), k) { assert JobOk(env, w, k); }
        JobsKeep(env, w, done.value);
        BecomesKeeps(env, w.(jobs := done.value), who, Free);
      } else {
        BecomesKeeps(env, w, who, Free);
      }
    }
  }

  lemma StepKeeps(env: Env, w: World, e: Event)
    requires Inv(env, w)
    ensures Inv(env, Step(env, w, e))
  {
    hide Inv, Enqueue, Heartbeat, RecoverExpired, ClaimOldest, RunWorker, FinishWorker;
    match e
    case Submit(sub, at) => SubmitKeeps(env, w, sub, at);
    case Recover(at) => RecoverKeeps(env, w, at);
    case Claim(who, lease, token, at) => ClaimKeeps(env, w, who, lease, token, at);
    case Beat(key, token, lease, at) => BeatKeeps(env, w, key, token, lease, at);
    case Run(who, produced) => RunKeeps(env, w, who, produced);
    case Finish(who) => FinishKeeps(env, w, who);
    case Crash(who) => BecomesKeeps(env, w, who, Free);
  }

  lemma {:induction false} RunInv(env: Env, events: seq<Event>, worlds: seq<World>, k: nat)
    requires IsRun(env, events, worlds) && k < |worlds|
    ensures Inv(env, worlds[k])
  {
    hide Step, JobOk;
    if k > 0 {
      RunInv(env, events, worlds, k - 1);
      assert StepOk(env, events, worlds, k - 1);
      StepKeeps(env, worlds[k - 1], events[k - 1]);
    }
  }

  // ---- Submissions and leases ----

  /** An accepted submission is on the queue as it was submitted, bound to its own key, with all eight safety
      flags present and none raised, and a zero budget; every other job, and an earlier job under its key, is as before. */
  lemma SubmittedJobIsTheSubmission(env: Env, jobs: Jobs, sub: Submission, now: int)
    requires Enqueue(env, jobs, sub, now).Ok?
    ensures var after := Enqueue(env, jobs, sub, now).value;
      && sub.key in after && (forall key | key in jobs :: key in after && after[key] == jobs[key])
      && (forall key | key in after :: key in jobs || key == sub.key)
      && var p := after[sub.key].payload;
      && p.taskId == sub.taskId && p.role == sub.role && p.generation == sub.semanticAttempt - 1
      && p.head == sub.head && p.branch == sub.branch && p.main == sub.main
      && (sub.key !in jobs ==> after[sub.key].status == QUEUED && p.objective == sub.objective && after[sub.key].createdAt == now)
    ensures sub.key == env.operationKey(sub.taskId, sub.role, sub.semanticAttempt - 1)
    ensures sub.safety.candidateOnly && |sub.safety.hazards| == O.HAZARDS && sub.costBudget == 0
    ensures forall i | 0 <= i < |sub.safety.hazards| :: !sub.safety.hazards[i]
  {
    NoHazard(sub.safety.hazards, 0);
  }

  lemma {:induction false} NoHazard(hazards: seq<bool>, from: nat)
    ensures O.FirstHazard(hazards, from).None? <==> forall i | from <= i < |hazards| :: !hazards[i]
    decreases |hazards| - from
  {
    if from < |hazards| {
      NoHazard(hazards, from + 1);
    }
  }

  /** A lease protects its claim exactly until it ends: recovery before that moment leaves the job alone, and
      from that moment on requeues it; a heartbeat moves the moment. */
  lemma LeaseProtects(jobs: Jobs, key: string, who: string, lease: int, token: string, now: int, beat: int, at: int)
    requires key in jobs && jobs[key].status == QUEUED && 1 <= lease <= MAX_RELAY_LEASE_SECONDS
    ensures var claimed := jobs[key := Claimed(jobs[key], who, lease, token, now)];
      && (RecoverExpired(claimed, at)[key] == claimed[key] <==> at < now + lease)
      && (at >= now + lease ==> RecoverExpired(claimed, at)[key] == jobs[key].(token := None, worker := None, lease := None))
      && var beaten := Heartbeat(claimed, key, token, lease, beat);
      && beaten.Ok? && (RecoverExpired(beaten.value, at)[key] == beaten.value[key] <==> at < beat + lease)
  {
    var claimed := jobs[key := Claimed(jobs[key], who, lease, token, now)];
    var beaten := Heartbeat(claimed, key, token, lease, beat).value;
    assert beaten[key].status == CLAIMED && claimed[key].status == CLAIMED;
  }

  // ---- At most once ----

  /** Under any interleaving the work of an operation key is done at most once, exactly when its receipt
      exists, and the stored execution count says so. */
  lemma AtMostOnce(env: Env, events: seq<Event>, worlds: seq<World>, k: nat, key: string)
    requires IsRun(env, events, worlds) && k < |worlds|
    ensures var w := worlds[k];
      && Runs(w.effects, key) <= 1
      && (Runs(w.effects, key) == 1 <==> key in w.receipts)
      && (if key in w.executions then w.executions[key] else 0) == Runs(w.effects, key)
  {
    hide Step, JobOk;
    RunInv(env, events, worlds, k);
    assert ReceiptOk(env, worlds[k], key);
  }

  // ---- Results ----

  // What no later step may change.
  ghost predicate Settled(w: World, w': World, key: string) {
    && (key in w.jobs ==> key in w'.jobs && w'.jobs[key].payload == w.jobs[key].payload)
    && (key in w.receipts ==> key in w'.receipts && w'.receipts[key] == w.receipts[key])
    && (key in w.jobs && w.jobs[key].status == COMPLETE ==> w'.jobs[key] == w.jobs[key])
  }

  lemma StepSettles(env: Env, w: World, e: Event, key: string)
    ensures Settled(w, Step(env, w, e), key)
  {
    hide JobRefusal, ResultRefusal, RequestOf, Earlier;
  }

  lemma {:induction false} RunSettles(env: Env, events: seq<Event>, worlds: seq<World>, i: nat, k: nat, key: string)
    requires IsRun(env, events, worlds) && i <= k < |worlds|
    ensures Settled(worlds[i], worlds[k], key)
    decreases k
  {
    hide Step;
    if i < k {
      RunSettles(env, events, worlds, i, k - 1, key);
      assert StepOk(env, events, worlds, k - 1);
      StepSettles(env, worlds[k - 1], events[k - 1], key);
    }
  }

  /** A COMPLETE job's result is its durable receipt, and neither ever changes. */
  lemma ResultIsTheReceipt(env: Env, events: seq<Event>, worlds: seq<World>, i: nat, k: nat, key: string)
    requires IsRun(env, events, worlds) && i <= k < |worlds|
    requires key in worlds[i].jobs && worlds[i].jobs[key].status == COMPLETE
    ensures key in worlds[k].jobs && worlds[k].jobs[key] == worlds[i].jobs[key]
    ensures key in worlds[k].receipts && worlds[k].jobs[key].result == Some(worlds[k].receipts[key].item)
  {
    hide Step;
    RunInv(env, events, worlds, i);
    assert JobOk(env, worlds[i], key);
    RunSettles(env, events, worlds, i, k, key);
  }

  /** Only the holder of the current claim completes a job: the one worker with the job's token. */
  lemma CompletedByItsHolder(env: Env, events: seq<Event>, worlds: seq<World>, k: nat, key: string)
    requires IsRun(env, events, worlds) && k < |events|
    requires key in worlds[k + 1].jobs && worlds[k + 1].jobs[key].status == COMPLETE
    requires key !in worlds[k].jobs || worlds[k].jobs[key].status != COMPLETE
    ensures key in worlds[k].jobs && worlds[k].jobs[key].status == CLAIMED && events[k].Finish?
    ensures var c := WorkerOf(worlds[k], events[k].who);
      && c.Executed? && c.payload.key == key && worlds[k].jobs[key].token == Some(c.token)
      && forall other {:trigger WorkerOf(worlds[k], other)} | other != events[k].who ::
           WorkerOf(worlds[k], other).Free? || WorkerOf(worlds[k], other).token != c.token
  {
    hide Inv, Step;
    assert StepOk(env, events, worlds, k);
    RunInv(env, events, worlds, k);
    OnlyFinishCompletes(env, worlds[k], events[k], key);
    forall other | other != events[k].who
      ensures WorkerOf(worlds[k], other).Free? || WorkerOf(worlds[k], other).token != WorkerOf(worlds[k], events[k].who).token
    {
      TokensDiffer(env, worlds[k], other, events[k].who);
    }
  }

  lemma OnlyFinishCompletes(env: Env, w: World, e: Event, key: string)
    requires var w' := Step(env, w, e);
      key in w'.jobs && w'.jobs[key].status == COMPLETE && (key !in w.jobs || w.jobs[key].status != COMPLETE)
    ensures key in w.jobs && w.jobs[key].status == CLAIMED && e.Finish?
    ensures var c := WorkerOf(w, e.who);
      c.Executed? && c.payload.key == key && w.jobs[key].token == Some(c.token)
  {
    hide JobRefusal, ResultRefusal, Earlier, Execute;
  }

  lemma TokensDiffer(env: Env, w: World, a: string, b: string)
    requires Inv(env, w) && a != b && !WorkerOf(w, b).Free?
    ensures WorkerOf(w, a).Free? || WorkerOf(w, a).token != WorkerOf(w, b).token
  {
    hide JobOk, ReceiptOk;
    assert PairOk(w, a, b);
  }

  // A drawn token that is on no job.
  ghost predicate Dead(w: World, token: string) {
    token in w.used && forall key | key in w.jobs :: w.jobs[key].token != Some(token)
  }

  lemma StepKeepsDead(env: Env, w: World, e: Event, token: string)
    requires Dead(w, token)
    ensures Dead(Step(env, w, e), token)
  {
    hide JobRefusal, ResultRefusal, RequestOf, Earlier;
  }

  lemma {:induction false} DeadForever(env: Env, events: seq<Event>, worlds: seq<World>, i: nat, k: nat, token: string)
    requires IsRun(env, events, worlds) && i <= k < |worlds| && Dead(worlds[i], token)
    ensures Dead(worlds[k], token)
    decreases k
  {
    hide Step;
    if i < k {
      DeadForever(env, events, worlds, i, k - 1, token);
      assert StepOk(env, events, worlds, k - 1);
      StepKeepsDead(env, worlds[k - 1], events[k - 1], token);
    }
  }

  /** Fencing: once a claim is recovered its token never works again: no heartbeat and no completion with it
      changes a job, whoever presents it and whenever. */
  lemma RecoveredTokenIsDead(env: Env, events: seq<Event>, worlds: seq<World>, i: nat, k: nat, key: string, token: string)
    requires IsRun(env, events, worlds) && i < k < |worlds|
    requires key in worlds[i].jobs && worlds[i].jobs[key].token == Some(token)
    requires key in worlds[i + 1].jobs && worlds[i + 1].jobs[key].token.None?
    ensures forall other, lease, at {:trigger Heartbeat(worlds[k].jobs, other, token, lease, at)} ::
      Heartbeat(worlds[k].jobs, other, token, lease, at).Err?
    ensures forall other, item {:trigger Complete(worlds[k].jobs, other, token, item)} ::
      Complete(worlds[k].jobs, other, token, item).Err? || Complete(worlds[k].jobs, other, token, item).value == worlds[k].jobs
  {
    hide Step, Inv, ResultRefusal;
    assert StepOk(env, events, worlds, i);
    RunInv(env, events, worlds, i);
    assert Dead(worlds[i + 1], token) by { DroppedTokenIsDead(env, worlds[i], events[i], key, token); }
    DeadForever(env, events, worlds, i + 1, k, token);
  }

  lemma DroppedTokenIsDead(env: Env, w: World, e: Event, key: string, token: string)
    requires Inv(env, w) && key in w.jobs && w.jobs[key].token == Some(token)
    requires var w' := Step(env, w, e); key in w'.jobs && w'.jobs[key].token.None?
    ensures Dead(Step(env, w, e), token)
  {
    hide ReceiptOk, JobRefusal, ResultRefusal, RequestOf, Earlier;
    assert JobOk(env, w, key);
    assert e.Recover?;
    var w' := Step(env, w, e);
    forall other | other in w'.jobs ensures w'.jobs[other].token != Some(token) {
      assert OneJob(w, key, other);
    }
  }

  // ---- Completion and poison ----

  /** The conflicting-duplicate error and the conflicting-replay error are unreachable, and a worker with a
      result completes its job exactly when the job is already complete, or it still holds the current claim
      and the result is bound to the job's head with evidence. */
  lemma CompletesIff(env: Env, events: seq<Event>, worlds: seq<World>, k: nat, who: string)
    requires IsRun(env, events, worlds) && k < |worlds| && WorkerOf(worlds[k], who).Executed?
    ensures var w, c := worlds[k], WorkerOf(worlds[k], who);
      var done := Complete(w.jobs, c.payload.key, c.token, c.item);
      && c.payload.key in w.jobs
      && done != Err(ConflictingDuplicate)
      && (done.Ok? <==>
            w.jobs[c.payload.key].status == COMPLETE
            || (w.jobs[c.payload.key].token == Some(c.token) && ResultRefusal(c.payload, c.item).None?))
  {
    hide Step, ResultRefusal, Inv, Complete;
    RunInv(env, events, worlds, k);
    CompletesWhen(env, worlds[k], who);
  }

  lemma CompletesWhen(env: Env, w: World, who: string)
    requires Inv(env, w) && WorkerOf(w, who).Executed?
    ensures var c := WorkerOf(w, who);
      var done := Complete(w.jobs, c.payload.key, c.token, c.item);
      && c.payload.key in w.jobs
      && done != Err(ConflictingDuplicate)
      && (done.Ok? <==>
            w.jobs[c.payload.key].status == COMPLETE
            || (w.jobs[c.payload.key].token == Some(c.token) && ResultRefusal(c.payload, c.item).None?))
  {
    hide ReceiptOk;
    var c := WorkerOf(w, who);
    assert WorkerOk(w, c);
    assert JobOk(env, w, c.payload.key);
  }

  /** A worker that holds a job with a receipt gets that receipt, whatever it would have produced; only a worker
      that reads its script first and finds nothing there fails before it looks. */
  lemma NoConflictingReplay(env: Env, events: seq<Event>, worlds: seq<World>, k: nat, who: string, produced: Option<Item>)
    requires IsRun(env, events, worlds) && k < |worlds| && WorkerOf(worlds[k], who).Holding?
    ensures var w, p := worlds[k], WorkerOf(worlds[k], who).payload;
      && Execute(env, w.receipts, p, produced) != Err(ConflictingReplay)
      && (p.key in w.receipts && (env.scriptFirst ==> produced.Some?) ==>
            Execute(env, w.receipts, p, produced) == Ok(Execution(w.receipts[p.key].item, w.receipts, false)))
      && (p.key in w.receipts && env.scriptFirst && produced.None? ==> Execute(env, w.receipts, p, produced) == Err(ScriptExhausted))
  {
    hide Step, RequestOf;
    RunInv(env, events, worlds, k);
    var p := WorkerOf(worlds[k], who).payload;
    assert WorkerOk(worlds[k], WorkerOf(worlds[k], who)) && ReceiptOk(env, worlds[k], p.key);
  }

  /** Poison is for ever: once a receipt that `complete` refuses is durable, its job never completes. */
  lemma PoisonIsForever(env: Env, events: seq<Event>, worlds: seq<World>, i: nat, k: nat, key: string)
    requires IsRun(env, events, worlds) && i <= k < |worlds|
    requires key in worlds[i].jobs && key in worlds[i].receipts
    requires ResultRefusal(worlds[i].jobs[key].payload, worlds[i].receipts[key].item).Some?
    ensures key in worlds[k].jobs && worlds[k].jobs[key].status != COMPLETE
  {
    hide Step, ResultRefusal;
    RunSettles(env, events, worlds, i, k, key);
    RunInv(env, events, worlds, k);
    assert JobOk(env, worlds[k], key);
  }
}
