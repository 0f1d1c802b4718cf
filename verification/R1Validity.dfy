// What the state validation guarantees, table by table, and that it is exactly
// what every reachable state has.
module R1Validity {
  import opened Prelude
  import opened R1State
  import opened R1Engine
  import opened R1Runs

  predicate Digits(s: string, n: nat) {
    |s| == n && forall i | 0 <= i < |s| :: '0' <= s[i] <= '9' || 'a' <= s[i] <= 'f' || 'A' <= s[i] <= 'F'
  }

  // An entry is filed under its own candidate, and its present document is among those it has seen.
  predicate SoundEntry(c: string, x: CacheEntry) {
    |c| > 0 && x.candidateId == c && exists i :: 0 <= i < |x.docsHashes| && x.docsHashes[i] == x.docsHash
  }

  // A task is filed under its own id and indexed under its own key, and its candidate has an entry.
  predicate SoundTask(s: State, tid: string, t: Task) {
    && |tid| > 0 && t.taskId == tid && |t.candidateId| > 0 && |t.inputHash| > 0 && |t.authorizationRef| > 0
    && t.candidateId in s.cache
    && |t.idempotencyKey| > 0 && t.idempotencyKey in s.index && s.index[t.idempotencyKey] == tid
  }

  // A key leads to a task of that key.
  predicate SoundKey(s: State, key: string, tid: string) {
    |key| > 0 && tid in s.tasks && s.tasks[tid].idempotencyKey == key
  }

  // A receipt is filed under its own key, names its task's candidate, and is the receipt its task points at.
  predicate SoundReceipt(s: State, key: string, r: Receipt) {
    && |key| > 0 && r.idempotencyKey == key && |r.candidateId| > 0 && |r.authorizationDecisionId| > 0 && |r.workerId| > 0
    && r.ownerGateRef != Some("")
    && Digits(r.payloadHash, 64) && r.receiptId == "receipt-" + r.payloadHash[..20] && Digits(r.canonicalMain, 40)
    && r.committedState in {ReviewedNoAdmission, ExplicitIneligible}
    && key in s.index && s.index[key] in s.tasks
    && s.tasks[s.index[key]].candidateId == r.candidateId && s.tasks[s.index[key]].durableReceiptRef == Some(r.receiptId)
  }

  ghost predicate SoundState(s: State) {
    && (forall c {:trigger s.cache[c]} | c in s.cache :: SoundEntry(c, s.cache[c]))
    && (forall tid {:trigger s.tasks[tid]} | tid in s.tasks :: SoundTask(s, tid, s.tasks[tid]))
    && (forall key {:trigger s.index[key]} | key in s.index :: SoundKey(s, key, s.index[key]))
    && (forall key {:trigger s.receipts[key]} | key in s.receipts :: SoundReceipt(s, key, s.receipts[key]))
  }

  lemma EntryIff(s: State, c: string)
    requires c in s.cache
    ensures ValidCacheEntry(s, c) <==> SoundEntry(c, s.cache[c])
  {
  }

  lemma TaskIff(s: State, tid: string)
    requires tid in s.tasks
    ensures ValidTask(s, tid) <==> SoundTask(s, tid, s.tasks[tid])
  {
  }

  // The id a key leads to is never empty, for no task is filed under the empty id.
  lemma KeyIff(s: State, key: string)
    requires key in s.index && forall tid | tid in s.tasks :: tid != ""
    ensures ValidIndexEntry(s, key) <==> SoundKey(s, key, s.index[key])
  {
  }

  lemma ReceiptIff(s: State, key: string)
    requires key in s.receipts
    ensures ValidReceipt(s, key) <==> SoundReceipt(s, key, s.receipts[key])
  {
  }

  lemma TaskIdsNonempty(s: State)
    ensures (forall tid {:trigger ValidTask(s, tid)} | tid in s.tasks :: ValidTask(s, tid)) ==> forall tid | tid in s.tasks :: tid != ""
  {
    forall tid | tid in s.tasks && ValidTask(s, tid) ensures tid != "" {
    }
  }

  /** Exactly which states validate: every entry, task and receipt filed under its own name, tasks and keys leading to each
      other, every task's candidate with an entry, and every receipt well-formed and the one its task points at. */
  lemma StateIff(s: State)
    ensures ValidState(s) <==> SoundState(s)
  {
    hide ValidCacheEntry, ValidTask, ValidIndexEntry, ValidReceipt, SoundEntry, SoundTask, SoundKey, SoundReceipt;
    forall c | c in s.cache ensures ValidCacheEntry(s, c) <==> SoundEntry(c, s.cache[c]) { EntryIff(s, c); }
    forall tid | tid in s.tasks ensures ValidTask(s, tid) <==> SoundTask(s, tid, s.tasks[tid]) { TaskIff(s, tid); }
    forall key | key in s.receipts ensures ValidReceipt(s, key) <==> SoundReceipt(s, key, s.receipts[key]) { ReceiptIff(s, key); }
    TaskIdsNonempty(s);
    if forall tid | tid in s.tasks :: tid != "" {
      forall key | key in s.index ensures ValidIndexEntry(s, key) <==> SoundKey(s, key, s.index[key]) { KeyIff(s, key); }
    }
  }

  /** Every state of a run from a sound one, so from the empty store, is sound: whatever callers, clocks and decisions a run has, tasks and keys lead to each other one
      to one, and every receipt is the one its own task points at. */
  lemma EveryStateIsSound(d: Digests, run: seq<Step>, b: Behaviour, k: nat)
    requires IsRun(d, run, b) && SoundState(b.states[0]) && k < |b.states|
    ensures SoundState(b.states[k])
    ensures forall a, c | a in b.states[k].tasks && c in b.states[k].tasks &&
              b.states[k].tasks[a].idempotencyKey == b.states[k].tasks[c].idempotencyKey :: a == c
  {
    hide SoundEntry, SoundKey, SoundReceipt, ValidState;
    StateIff(b.states[0]);
    EveryStateValidates(d, run, b, k);
    StateIff(b.states[k]);
    var s := b.states[k];
    forall tid | tid in s.tasks ensures SoundTask(s, tid, s.tasks[tid]) {
    }
  }
}
