// When exactly the calls that pass their guard succeed, on any valid state, and
// what they leave behind.
module R1Progress {
  import opened Prelude
  import opened R1Auth
  import opened R1State
  import opened R1Engine
  import opened R1Invariants

  // The entry of `c` is final for this very document hash.
  predicate SettledHash(s: State, c: string, h: string) {
    c in s.cache && s.cache[c].docsHash == h && Final(s.cache[c].auditState)
  }

  predicate Stageable(d: Digests, s: State, c: string, h: string) {
    var idem := Idem(c, h);
    || SettledHash(s, c, h)
    || (c in s.cache && s.cache[c].docsHash == h && idem in s.index)
    || (c != "" && (idem in s.index || (h != "" && d.taskIdOf(idem) != "" && d.taskIdOf(idem) !in s.tasks)))
  }

  lemma InspectGuardGives(m: string, call: Call)
    requires call.Inspect? && Guard(m, call).None?
    ensures call.auth.Decision? && call.auth.decisionId != "" && call.main == m && Guard(call.main, call).None?
  {
  }

  lemma EditedEntryValidates(s: State, c: string, x: CacheEntry)
    requires ValidState(s) && c != "" && x.candidateId == c && x.docsHash in x.docsHashes
    ensures ValidState(s.(cache := s.cache[c := x]))
  {
    var s' := s.(cache := s.cache[c := x]);
    forall e | e in s'.cache ensures ValidCacheEntry(s', e) { if e != c { assert ValidCacheEntry(s, e); } }
    forall tid | tid in s'.tasks ensures ValidTask(s', tid) { assert ValidTask(s, tid); }
    forall i | i in s'.index ensures ValidIndexEntry(s', i) { assert ValidIndexEntry(s, i); }
    forall i | i in s'.receipts ensures ValidReceipt(s', i) { assert ValidReceipt(s, i); }
  }

  lemma NewTaskValidates(s: State, tid: string, idem: string, t: Task)
    requires ValidState(s) && idem !in s.index && tid !in s.tasks && tid != "" && idem != ""
    requires t.taskId == tid && t.idempotencyKey == idem && t.candidateId in s.cache && t.candidateId != ""
    requires t.inputHash != "" && t.authorizationRef != ""
    ensures ValidState(s.(tasks := s.tasks[tid := t], index := s.index[idem := tid]))
  {
    var s' := s.(tasks := s.tasks[tid := t], index := s.index[idem := tid]);
    forall e | e in s'.cache ensures ValidCacheEntry(s', e) { assert ValidCacheEntry(s, e); }
    forall x | x in s'.tasks ensures ValidTask(s', x) { if x != tid { assert ValidTask(s, x); } }
    forall i | i in s'.index ensures ValidIndexEntry(s', i) { if i != idem { assert ValidIndexEntry(s, i); } }
    forall i | i in s'.receipts ensures ValidReceipt(s', i) { assert ValidReceipt(s, i); }
  }

  lemma StagedValidates(d: Digests, s: State, c: string, h: string, ref: string)
    requires ValidState(s) && ref != "" && Stageable(d, s, c, h)
    ensures ValidState(Stage(d, s, c, h, ref).0)
  {
    hide Idem, ValidState;
    var s', idem := Stage(d, s, c, h, ref).0, Idem(c, h);
    if s' != s {
      IdemNonEmpty(c, h);
      if c in s.cache { EntryAt(s, c); }
      var x := if c in s.cache then ChangedEntry(s.cache[c], h) else FreshEntry(c, h);
      EditedEntryValidates(s, c, x);
      if idem !in s.index {
        var tid := d.taskIdOf(idem);
        NewTaskValidates(s.(cache := s.cache[c := x]), tid, idem, FreshTask(tid, idem, c, h, x.version, ref));
      }
    }
  }

  lemma EntryAt(s: State, c: string)
    requires ValidState(s) && c in s.cache
    ensures ValidCacheEntry(s, c)
  {
  }

  lemma IndexAt(s: State, idem: string)
    requires ValidState(s) && idem in s.index
    ensures ValidIndexEntry(s, idem)
  {
  }

  lemma IdemNonEmpty(c: string, h: string)
    ensures Idem(c, h) != ""
  {
    assert |Idem(c, h)| >= |"source-review:"|;
  }

  lemma UnstageableFails(d: Digests, s: State, c: string, h: string, ref: string)
    requires ValidState(s) && ValidState(Stage(d, s, c, h, ref).0)
    ensures Stageable(d, s, c, h)
  {
    hide Idem;
    var s', idem := Stage(d, s, c, h, ref).0, Idem(c, h);
    if !SettledHash(s, c, h) && !(c in s.cache && s.cache[c].docsHash == h && idem in s.index) {
      assert ValidCacheEntry(s', c);
      if idem !in s.index {
        var tid := d.taskIdOf(idem);
        assert ValidTask(s', tid);
        if tid in s.tasks {
          assert ValidTask(s, tid);
          IndexAt(s', s.tasks[tid].idempotencyKey);
        }
      }
    }
  }

  /** Exactly when an inspection past its guard succeeds: the entry is settled or staged for this hash already, or
      the candidate can be named and the task either exists or gets an id of its own. */
  lemma InspectSucceedsIff(d: Digests, m: string, s: State, call: Call)
    requires call.Inspect? && Guard(m, call).None? && ValidState(s)
    ensures Apply(d, m, s, call).1.Ok? <==> Stageable(d, s, call.candidate, call.docsHash)
    ensures Apply(d, m, s, call).1.Ok? ==>
      var staged := Stage(d, s, call.candidate, call.docsHash, call.auth.decisionId);
      && Apply(d, m, s, call).1 == Ok(TaskRef(staged.1))
      && Apply(d, m, s, call).0 == (if staged.0 == s then s else staged.0.(generation := s.generation + 1))
  {
    hide Guard, Stage, ValidState, Stageable;
    InspectGuardGives(m, call);
    var ref := call.auth.decisionId;
    if Stageable(d, s, call.candidate, call.docsHash) {
      StagedValidates(d, s, call.candidate, call.docsHash, ref);
    }
    if ValidState(Stage(d, s, call.candidate, call.docsHash, ref).0) {
      UnstageableFails(d, s, call.candidate, call.docsHash, ref);
    }
  }

  lemma EditedTaskValidates(s: State, tid: string, t: Task)
    requires ValidState(s) && tid in s.tasks
    requires t == s.tasks[tid].(attemptCount := t.attemptCount, checkpointRef := t.checkpointRef, leaseOwner := t.leaseOwner,
                                leaseExpiresAt := t.leaseExpiresAt, heartbeatAt := t.heartbeatAt, leaseEpoch := t.leaseEpoch,
                                deadLetterReason := t.deadLetterReason)
    ensures ValidState(s.(tasks := s.tasks[tid := t]))
  {
    var s' := s.(tasks := s.tasks[tid := t]);
    forall x | x in s'.cache ensures ValidCacheEntry(s', x) { assert ValidCacheEntry(s, x); }
    forall x | x in s'.tasks ensures ValidTask(s', x) { assert ValidTask(s, x); }
    forall i | i in s'.index ensures ValidIndexEntry(s', i) { assert ValidIndexEntry(s, i); }
    forall i | i in s'.receipts ensures ValidReceipt(s', i) { assert ValidReceipt(s, i); }
  }

  // The lease of `t` is free at `now`.
  predicate LeaseFree(t: Task, now: int) {
    !(t.leaseOwner.Some? && t.leaseExpiresAt.Some? && now < t.leaseExpiresAt.value)
  }

  /** Exactly when a lease call past its guard succeeds, and the lease it gives. */
  lemma AcquireSucceedsIff(d: Digests, m: string, s: State, call: Call)
    requires call.AcquireLease? && Guard(m, call).None? && ValidState(s)
    ensures Apply(d, m, s, call).1.Ok? <==>
      call.task in s.tasks && !Dead(s.tasks[call.task]) && LeaseFree(s.tasks[call.task], call.now)
    ensures Apply(d, m, s, call).1.Ok? ==>
      && call.now >= 0 && call.leaseTicks >= 1
      && var t' := Leased(s.tasks[call.task], call.worker, call.now, call.leaseTicks);
      Apply(d, m, s, call) == (s.(tasks := s.tasks[call.task := t'], generation := s.generation + 1), Ok(Epoch(t'.leaseEpoch)))
  {
    hide ValidState, Validate;
    assert Guard(call.main, call).None?;
    if call.task in s.tasks && !Dead(s.tasks[call.task]) && LeaseFree(s.tasks[call.task], call.now) {
      var t' := Leased(s.tasks[call.task], call.worker, call.now, call.leaseTicks);
      EditedTaskValidates(s, call.task, t');
      assert s.tasks[call.task := t'][call.task].leaseEpoch != s.tasks[call.task].leaseEpoch;
    }
  }

  /** Exactly when a checkpoint past its guard succeeds. */
  lemma CheckpointSucceedsIff(d: Digests, m: string, s: State, call: Call)
    requires call.Checkpoint? && Guard(m, call).None? && ValidState(s)
    ensures Apply(d, m, s, call).1.Ok? <==>
      && call.task in s.tasks && !Dead(s.tasks[call.task])
      && HoldsLease(s.tasks[call.task], call.worker, call.epoch, call.now)
    ensures Apply(d, m, s, call).1.Ok? ==>
      && call.now >= 0
      && var t' := s.tasks[call.task].(checkpointRef := Some(call.ref), heartbeatAt := Some(call.now));
      && Apply(d, m, s, call).1 == Ok(Done)
      && Apply(d, m, s, call).0.(generation := s.generation) == s.(tasks := s.tasks[call.task := t'])
  {
    hide ValidState, Validate;
    assert Guard(call.main, call).None?;
    if call.task in s.tasks && !Dead(s.tasks[call.task]) && HoldsLease(s.tasks[call.task], call.worker, call.epoch, call.now) {
      EditedTaskValidates(s, call.task, s.tasks[call.task].(checkpointRef := Some(call.ref), heartbeatAt := Some(call.now)));
    }
  }
}
