// The core state engine as it runs: the tables updated in place, one audit row
// per transaction, and a rollback when that row is refused.
module CoreEngine {
  import opened Prelude
  import opened Ordering
  import opened AuditChain
  import opened CoreState
  import Spec = CoreState

  lemma NextIsUnique(s: State, a: string, b: string)
    requires NextQueued(s, a) && NextQueued(s, b)
    ensures a == b
  {
    assert Sooner(s, a, b) && Sooner(s, b, a);
    if s.tasks[a].createdAt == s.tasks[b].createdAt {
      StrLeAntisymmetric(a, b);
    } else {
      StrLeAntisymmetric(s.tasks[a].createdAt, s.tasks[b].createdAt);
    }
  }

  lemma SoonerOrReverse(s: State, a: string, b: string)
    requires a in s.tasks && b in s.tasks
    ensures Sooner(s, a, b) || Sooner(s, b, a)
  {
    StrLeTotal(a, b);
    StrLeTotal(s.tasks[a].createdAt, s.tasks[b].createdAt);
  }

  lemma SoonerTransitive(s: State, a: string, b: string, c: string)
    requires a in s.tasks && b in s.tasks && c in s.tasks && Sooner(s, a, b) && Sooner(s, b, c)
    ensures Sooner(s, a, c)
  {
    hide StrLe;
    var x, y, z := s.tasks[a].createdAt, s.tasks[b].createdAt, s.tasks[c].createdAt;
    if x != y && y != z {
      StrLeTransitive(x, y, z);
      if x == z { StrLeAntisymmetric(x, y); }
    } else if x == y == z {
      StrLeTransitive(a, b, c);
    }
  }

  class Engine {
    const env: Env
    var tasks: map<string, Task>
    var receipts: map<string, Receipt>
    var revenues: seq<Revenue>
    var controls: map<string, Control>
    var audit: seq<Entry>

    ghost function Abs(): State
      reads this
    {
      State(tasks, receipts, revenues, controls, audit)
    }

    // The unique index on the idempotency key.
    ghost predicate Valid()
      reads this
    {
      KeysUnique(tasks)
    }

    constructor (env: Env)
      ensures this.env == env && Valid() && Abs() == State(map[], map[], [], map[], [])
    {
      this.env := env;
      tasks, receipts, revenues, controls, audit := map[], map[], [], map[], [];
    }

    /** `_append_audit`. */
    method AppendAudit(e: Event, stamp: Stamp) returns (ok: bool)
      modifies this`audit
      ensures Logged(env, old(audit), e, stamp) == if ok then Some(audit) else None
      ensures !ok ==> audit == old(audit)
    {
      hide Joined;
      var prev := GENESIS;
      if |audit| > 0 {
        prev := audit[|audit| - 1].row.hash;
      }
      var text := Text(env, e, stamp);
      var digest := DigestOf(env.hash, prev, text);
      assert prev == LastHash(Rows(audit));
      for i := 0 to |audit|
        invariant forall k | 0 <= k < i :: Rows(audit)[k].id != stamp.rowId && Rows(audit)[k].hash != digest
      {
        if audit[i].row.id == stamp.rowId || audit[i].row.hash == digest {
          assert Rows(audit)[i] == audit[i].row;
          return false;
        }
      }
      var row := Row(text.id, text.event, text.payload, text.timestamp, prev, digest);
      assert Append(env.hash, Rows(audit), text) == Some(Rows(audit) + [row]);
      audit := audit + [Entry(e, row)];
      return true;
    }

    // The lookup by idempotency key.
    method FindKey(key: string) returns (found: Option<string>)
      ensures found.Some? ==> KeyOf(tasks, found.value, key)
      ensures found.None? ==> !KeyUsed(Abs(), key) && forall id | id in tasks :: tasks[id].idempotencyKey != Some(key)
    {
      var rest := tasks.Keys;
      while rest != {}
        invariant rest <= tasks.Keys
        invariant forall id | id in tasks.Keys - rest :: tasks[id].idempotencyKey != Some(key)
        decreases rest
      {
        var id :| id in rest;
        if tasks[id].idempotencyKey == Some(key) {
          return Some(id);
        }
        rest := rest - {id};
      }
      return None;
    }

    /** `add_task`. */
    method AddTask(title: string, troop: string, revenue: int, key: Option<string>, newId: string, now: string, stamp: Stamp)
      returns (id: Option<string>)
      requires Valid()
      modifies this`tasks, this`audit
      ensures Valid() && (Abs(), id) == Spec.AddTask(env, old(Abs()), title, troop, revenue, key, newId, now, stamp)
    {
      hide Logged;
      var fingerprint := env.fingerprint(title, troop, revenue);
      var existing: Option<string> := None;
      if key.Some? {
        existing := FindKey(key.value);
        if existing.Some? { FoundKey(Abs(), existing.value, key.value); }
      }
      if key.Some? && key.value != "" && existing.Some? {
        var stored := tasks[existing.value].fingerprint;
        if stored.None? || stored.value == "" || stored.value != fingerprint {
          var _ := AppendAudit(IdempotencyMismatch(key.value, existing.value), stamp);
          return None;
        }
        return existing;
      }
      if newId in tasks || existing.Some? {
        return None;
      }
      var before := tasks;
      tasks := tasks[newId := Task(title, troop, revenue, QUEUED, now, None, None, None, key, Some(fingerprint))];
      KeysGrow(old(tasks), tasks, newId);
      var ok := AppendAudit(TaskAdded(newId, title, troop, fingerprint), stamp);
      if !ok {
        tasks := before;
        return None;
      }
      return Some(newId);
    }

    /** `fetch_next_task`. */
    method FetchNext(stamp: Stamp) returns (id: Option<string>)
      requires Valid()
      modifies this`tasks, this`audit
      ensures Valid() && (Abs(), id) == Spec.FetchNext(env, old(Abs()), stamp)
    {
      hide Logged, Sooner;
      var next := PickQueued();
      if next.None? {
        return None;
      }
      forall other | NextQueued(Abs(), other) ensures other == next.value { NextIsUnique(Abs(), next.value, other); }
      var ok := Turn(next.value, tasks[next.value].(status := RUNNING), TaskStarted(next.value), stamp);
      return if ok then next else None;
    }

    // `ORDER BY created_at, id LIMIT 1` among the queued.
    method PickQueued() returns (next: Option<string>)
      ensures next.Some? ==> NextQueued(Abs(), next.value)
      ensures next.None? ==> !exists id :: NextQueued(Abs(), id)
    {
      hide StrLe;
      next := None;
      var rest := set id | id in tasks && tasks[id].status == QUEUED;
      ghost var seen: set<string> := {};
      while rest != {}
        invariant seen + rest == set id | id in tasks && tasks[id].status == QUEUED
        invariant next.None? ==> seen == {}
        invariant next.Some? ==> next.value in seen && forall other | other in seen :: other in tasks && next.value in tasks && Sooner(Abs(), next.value, other)
        decreases rest
      {
        var id :| id in rest;
        var best := if next.None? || Before(id, next.value) then id else next.value;
        forall other | other in seen + {id} ensures Sooner(Abs(), best, other) {
          if next.Some? {
            SoonerOrReverse(Abs(), id, next.value);
            if other in seen && best == id { SoonerTransitive(Abs(), id, next.value, other); }
          }
          SoonerOrReverse(Abs(), other, other);
        }
        seen, rest := seen + {id}, rest - {id};
        next := Some(best);
      }
      if next.None? {
        forall id | id in tasks ensures tasks[id].status != QUEUED {
          assert id !in seen + rest;
        }
      }
    }

    predicate Before(a: string, b: string)
      requires a in tasks && b in tasks
      reads this
      ensures Before(a, b) <==> Sooner(Abs(), a, b)
    {
      if tasks[a].createdAt != tasks[b].createdAt then StrLe(tasks[a].createdAt, tasks[b].createdAt) else StrLe(a, b)
    }

    // Rewrite one task row and log it, or roll back.
    method Turn(id: string, t: Task, e: Event, stamp: Stamp) returns (ok: bool)
      requires Valid() && id in tasks && t.idempotencyKey == tasks[id].idempotencyKey
      modifies this`tasks, this`audit
      ensures Valid()
      ensures var out := Commit(env, old(Abs()), old(Abs()).(tasks := old(tasks)[id := t]), e, stamp);
        ok == out.Some? && Abs() == Else(old(Abs()), out)
    {
      hide Logged;
      var before := tasks;
      tasks := tasks[id := t];
      KeysStay(old(tasks), tasks);
      ok := AppendAudit(e, stamp);
      if !ok {
        tasks := before;
      }
    }

    /** `mark_task_failed`. */
    method MarkFailed(id: string, reason: string, stamp: Stamp) returns (ok: bool)
      requires Valid()
      modifies this`tasks, this`audit
      ensures Valid() && ok == Spec.MarkFailed(env, old(Abs()), id, reason, stamp).Some?
      ensures Abs() == Else(old(Abs()), Spec.MarkFailed(env, old(Abs()), id, reason, stamp))
    {
      hide Commit;
      if id !in tasks || tasks[id].status != RUNNING {
        return false;
      }
      ok := Turn(id, tasks[id].(status := FAILED), TaskFailed(id, reason), stamp);
    }

    /** `record_task_claim`. */
    method RecordClaim(id: string, result: string, provider: string, stamp: Stamp) returns (ok: bool)
      requires Valid()
      modifies this`tasks, this`audit
      ensures Valid() && ok == Spec.RecordClaim(env, old(Abs()), id, result, provider, stamp).Some?
      ensures Abs() == Else(old(Abs()), Spec.RecordClaim(env, old(Abs()), id, result, provider, stamp))
    {
      hide Commit;
      if id !in tasks || tasks[id].status != RUNNING {
        return false;
      }
      ok := Turn(id, tasks[id].(status := SUCCESS_CLAIMED, result := Some(result), provider := Some(provider)),
                 ResultClaimed(id, provider), stamp);
    }

    /** `apply_verification_receipt`. */
    method ApplyReceipt(id: string, r: Receipt, verdict: Verdict, stamp: Stamp) returns (ok: bool)
      requires Valid()
      modifies this`tasks, this`receipts, this`audit
      ensures Valid() && ok == Spec.ApplyReceipt(env, old(Abs()), id, r, verdict, stamp).Some?
      ensures Abs() == Else(old(Abs()), Spec.ApplyReceipt(env, old(Abs()), id, r, verdict, stamp))
    {
      hide Logged, IsHex;
      if r.receiptId == "" || r.verifierId == "" || r.evidenceRef == "" || r.evidenceSha == "" || r.integrity == ""
        || verdict != ACCEPT || !IsHex(r.evidenceSha, 64) {
        return false;
      }
      if !env.signed(id, r, verdict) {
        return false;
      }
      if id !in tasks || tasks[id].status != SUCCESS_CLAIMED || tasks[id].provider == Some(r.verifierId) {
        return false;
      }
      if id in receipts || !ReceiptIdFree(State(tasks, receipts, revenues, controls, audit), r.receiptId) {
        return false;
      }
      var before, was := tasks, receipts;
      receipts := receipts[id := r];
      tasks := tasks[id := tasks[id].(status := VERIFIED, note := Some(r.verifierId + ":" + r.evidenceRef + ":" + r.evidenceSha))];
      KeysStay(old(tasks), tasks);
      ok := AppendAudit(ReceiptAccepted(id, r), stamp);
      if !ok {
        tasks, receipts := before, was;
      }
    }

    /** `realize_revenue_and_close`. */
    method Realize(id: string, amount: int, revenueId: string, stamp: Stamp) returns (ok: bool)
      requires Valid()
      modifies this`tasks, this`revenues, this`audit
      ensures Valid() && ok == Spec.Realize(env, old(Abs()), id, amount, revenueId, stamp).Some?
      ensures Abs() == Else(old(Abs()), Spec.Realize(env, old(Abs()), id, amount, revenueId, stamp))
    {
      hide Logged;
      if amount < 0 {
        return false;
      }
      if id !in tasks || id !in receipts || tasks[id].status != VERIFIED {
        return false;
      }
      var before, was := tasks, revenues;
      if amount > 0 {
        if !RevenueFree(State(tasks, receipts, revenues, controls, audit), revenueId, id) {
          return false;
        }
        revenues := revenues + [Revenue(revenueId, amount, id)];
      }
      tasks := tasks[id := tasks[id].(status := CLOSED)];
      KeysStay(old(tasks), tasks);
      ok := AppendAudit(TaskClosed(id, amount, receipts[id].receiptId), stamp);
      if !ok {
        tasks, revenues := before, was;
      }
    }

    /** `disable_provider`. */
    method DisableProvider(provider: string, reason: string, stamp: Stamp) returns (ok: bool)
      requires Valid()
      modifies this`controls, this`audit
      ensures Valid() && ok == Spec.DisableProvider(env, old(Abs()), provider, reason, stamp).Some?
      ensures Abs() == Else(old(Abs()), Spec.DisableProvider(env, old(Abs()), provider, reason, stamp))
      ensures ok ==> provider in controls && !controls[provider].enabled
    {
      hide Logged;
      var before := controls;
      controls := controls[provider := Control(false, reason)];
      ok := AppendAudit(ProviderDisabled(provider, reason), stamp);
      if !ok {
        controls := before;
      }
    }

    /** The realized revenue of `get_state_snapshot`. */
    method Realized() returns (total: int)
      ensures total == RealizedRevenue(revenues)
    {
      total := 0;
      for i := 0 to |revenues|
        invariant total == RealizedRevenue(revenues[..i])
      {
        assert revenues[..i + 1][..i] == revenues[..i];
        total := total + revenues[i].amount;
      }
      assert revenues[..|revenues|] == revenues;
    }
  }
}
