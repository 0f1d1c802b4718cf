// The relay's two tables as they are updated in place.
module RelayStore {
  import opened Prelude
  import opened Ordering
  import O = Orchestrator
  import opened Relay
  import Spec = Relay

  lemma OldestIsUnique(jobs: Jobs, a: string, b: string)
    requires OldestQueued(jobs, a) && OldestQueued(jobs, b)
    ensures a == b
  {
    assert Earlier(jobs, a, b) && Earlier(jobs, b, a);
    StrLeAntisymmetric(a, b);
  }

  lemma EarlierOrReverse(jobs: Jobs, a: string, b: string)
    requires a in jobs && b in jobs
    ensures Earlier(jobs, a, b) || Earlier(jobs, b, a)
  {
    StrLeTotal(a, b);
  }

  lemma EarlierTransitive(jobs: Jobs, a: string, b: string, c: string)
    requires a in jobs && b in jobs && c in jobs && Earlier(jobs, a, b) && Earlier(jobs, b, c)
    ensures Earlier(jobs, a, c)
  {
    if jobs[a].createdAt == jobs[c].createdAt {
      StrLeTransitive(a, b, c);
    }
  }

  class Queue {
    const env: Env
    var jobs: Jobs

    constructor (env: Env)
      ensures this.env == env && jobs == map[]
    {
      this.env := env;
      jobs := map[];
    }

    /** `enqueue`: one transaction; a replay must agree with the stored job. */
    method Enqueue(sub: Submission, now: int) returns (refusal: Option<Refusal>)
      modifies this
      ensures Spec.Enqueue(env, old(jobs), sub, now) == if refusal.Some? then Err(refusal.value) else Ok(jobs)
      ensures refusal.Some? ==> jobs == old(jobs)
    {
      refusal := JobRefusal(env, sub);
      if refusal.Some? {
        return;
      }
      if sub.key !in jobs {
        jobs := jobs[sub.key := Job(PayloadOf(sub), QUEUED, None, None, None, None, now)];
      } else if !SameJob(jobs[sub.key].payload, PayloadOf(sub)) {
        refusal := Some(ReplayMismatch);
      }
    }

    /** `recover_expired`: requeue, row by row, every claim that is expired when written. */
    method RecoverExpired(at: int) returns (recovered: set<string>)
      modifies this
      ensures jobs == Spec.RecoverExpired(old(jobs), at)
      ensures recovered == set key | key in old(jobs) && Expired(old(jobs[key]), at)
    {
      recovered := {};
      var rows := set key | key in jobs && Expired(jobs[key], at);
      while rows != {}
        invariant jobs.Keys == old(jobs.Keys)
        invariant rows !! recovered && rows + recovered == set key | key in old(jobs) && Expired(old(jobs[key]), at)
        invariant forall key | key in jobs :: jobs[key] == if key in recovered then Requeued(old(jobs[key])) else old(jobs[key])
        decreases rows
      {
        var key :| key in rows;
        if Expired(jobs[key], at) {
          jobs := jobs[key := Requeued(jobs[key])];
          recovered := recovered + {key};
        }
        rows := rows - {key};
      }
    }

    // The first queued row in the order of creation time and operation key.
    method PickOldest() returns (oldest: Option<string>)
      ensures oldest.Some? ==> OldestQueued(jobs, oldest.value)
      ensures oldest.None? ==> !AnyQueued(jobs)
    {
      oldest := None;
      var rows := set key | key in jobs && jobs[key].status == QUEUED;
      ghost var seen: set<string> := {};
      while rows != {}
        invariant seen + rows == set key | key in jobs && jobs[key].status == QUEUED
        invariant oldest.None? ==> seen == {}
        invariant oldest.Some? ==> oldest.value in seen
        invariant oldest.Some? ==> forall other | other in seen :: other in jobs && oldest.value in jobs && Earlier(jobs, oldest.value, other)
        decreases rows
      {
        var key :| key in rows;
        var best := if oldest.None? || Earlier(jobs, key, oldest.value) then key else oldest.value;
        forall other | other in seen + {key} ensures Earlier(jobs, best, other) {
          if oldest.Some? {
            EarlierOrReverse(jobs, key, oldest.value);
            if other in seen && best == key { EarlierTransitive(jobs, key, oldest.value, other); }
          }
          EarlierOrReverse(jobs, other, other);
        }
        seen, rows := seen + {key}, rows - {key};
        oldest := Some(best);
      }
      if oldest.None? {
        forall key | key in jobs ensures jobs[key].status != QUEUED {
          assert key !in seen + rows;
        }
      }
    }

    /** `claim_next`: recover first, then give the oldest queued job a fresh token and a lease. */
    method ClaimNext(who: string, lease: int, token: string, now: int) returns (r: Result<Option<Payload>, Refusal>)
      modifies this
      ensures r.Err? <==> who == "" || !(1 <= lease <= MAX_RELAY_LEASE_SECONDS)
      ensures r.Err? ==> jobs == old(jobs)
      ensures var recovered := Spec.RecoverExpired(old(jobs), now);
        && (r.Ok? && r.value.None? ==> !AnyQueued(recovered) && jobs == recovered)
        && (r.Ok? && r.value.Some? ==>
              exists key :: OldestQueued(recovered, key) && r.value.value == recovered[key].payload
                && jobs == recovered[key := Claimed(recovered[key], who, lease, token, now)])
    {
      if who == "" {
        return Err(WorkerIdInvalid);
      }
      if !(1 <= lease <= MAX_RELAY_LEASE_SECONDS) {
        return Err(LeaseWidening);
      }
      var _ := RecoverExpired(now);
      var oldest := PickOldest();
      if oldest.None? {
        return Ok(None);
      }
      var job := jobs[oldest.value];
      jobs := jobs[oldest.value := Claimed(job, who, lease, token, now)];
      return Ok(Some(job.payload));
    }

    /** `heartbeat`. */
    method Heartbeat(key: string, token: string, lease: int, now: int) returns (refusal: Option<Refusal>)
      modifies this
      ensures Spec.Heartbeat(old(jobs), key, token, lease, now) == if refusal.Some? then Err(refusal.value) else Ok(jobs)
      ensures refusal.Some? ==> jobs == old(jobs)
    {
      if !(1 <= lease <= MAX_RELAY_LEASE_SECONDS) {
        return Some(LeaseWidening);
      }
      if key !in jobs || jobs[key].status != CLAIMED || jobs[key].token != Some(token) {
        return Some(StaleClaim);
      }
      jobs := jobs[key := jobs[key].(lease := Some(now + lease))];
      return None;
    }

    /** `complete`. */
    method Complete(key: string, token: string, item: O.Item) returns (refusal: Option<Refusal>)
      modifies this
      ensures Spec.Complete(old(jobs), key, token, item) == if refusal.Some? then Err(refusal.value) else Ok(jobs)
      ensures refusal.Some? ==> jobs == old(jobs)
    {
      hide ResultRefusal;
      if key !in jobs {
        return Some(JobNotFound);
      }
      var j := jobs[key];
      if j.status == COMPLETE {
        return if j.result == Some(item) then None else Some(ConflictingDuplicate);
      }
      if j.status != CLAIMED || j.token != Some(token) {
        return Some(StaleClaim);
      }
      refusal := ResultRefusal(j.payload, item);
      if refusal.None? {
        jobs := jobs[key := Completed(j, item)];
      }
    }

    /** `result`: only of a COMPLETE job. */
    method ResultOf(key: string) returns (item: Option<O.Item>)
      ensures item == if key in jobs && jobs[key].status == COMPLETE then jobs[key].result else None
    {
      if key !in jobs || jobs[key].status != COMPLETE {
        return None;
      }
      return jobs[key].result;
    }
  }

  class ReceiptTable {
    const env: Env
    var receipts: map<string, Receipt>
    var executions: map<string, nat>

    constructor (env: Env)
      ensures this.env == env && receipts == map[] && executions == map[]
    {
      this.env := env;
      receipts, executions := map[], map[];
    }

    /** `execute_once` and `execute_local_once`: both rows of a new receipt are written together, or neither. */
    method ExecuteOnce(p: Payload, produced: Option<O.Item>) returns (r: Result<O.Item, Refusal>)
      modifies this
      ensures match Spec.Execute(env, old(receipts), p, produced)
        case Err(e) => r == Err(e) && receipts == old(receipts) && executions == old(executions)
        case Ok(done) =>
          && r == Ok(done.item) && receipts == done.receipts
          && executions == if done.ran then old(executions)[p.key := 1] else old(executions)
    {
      if !env.admits(p) {
        return Err(RequestInvalid);
      }
      if env.scriptFirst && produced.None? {
        return Err(ScriptExhausted);
      }
      var hash := env.requestHash(RequestOf(p));
      if p.key in receipts {
        var row := receipts[p.key];
        if row.request != hash {
          return Err(ConflictingReplay);
        }
        if !env.accepts(p, row.item) {
          return Err(ResultInvalid);
        }
        return Ok(row.item);
      }
      if produced.None? {
        return Err(ScriptExhausted);
      }
      if !env.accepts(p, produced.value) {
        return Err(ResultInvalid);
      }
      receipts := receipts[p.key := Receipt(hash, produced.value)];
      executions := executions[p.key := 1];
      return Ok(produced.value);
    }
  }
}
