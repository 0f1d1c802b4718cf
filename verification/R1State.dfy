// The pinned R1 state: cache entries, tasks, the idempotency index and the
// durable receipts, with the schema validation every transaction passes.
// Shape tests (dict, str, non-negative int) are carried by the types.
module R1State {
  import opened Prelude

  datatype AuditState = Unknown | ReviewRequired | ReviewedNoAdmission | ChangedReviewRequired | ExplicitIneligible

  predicate Final(a: AuditState) {
    a.ReviewedNoAdmission? || a.ExplicitIneligible?
  }

  datatype Freshness = FreshNew | FreshChanged | FreshReviewed | OtherFreshness(text: string)

  datatype RecheckTrigger = InitialReview | DocHashChanged | DocHashChangeOrManual | OtherTrigger(text: string)

  datatype CacheEntry = CacheEntry(
    candidateId: string,
    evidenceRefs: seq<string>,
    docsHashes: seq<string>,
    docsHash: string,
    lastCheckedAt: Option<int>,
    auditState: AuditState,
    verdictReason: string,
    freshness: Freshness,
    recheckTrigger: RecheckTrigger,
    version: nat)

  datatype Task = Task(
    taskId: string,
    idempotencyKey: string,
    candidateId: string,
    inputHash: string,
    attemptCount: nat,
    retryBudget: nat,
    checkpointRef: Option<string>,
    leaseOwner: Option<string>,
    leaseExpiresAt: Option<nat>,
    heartbeatAt: Option<nat>,
    leaseEpoch: nat,
    expectedCacheVersion: nat,
    deadLetterReason: Option<string>,
    authorizationRef: string,
    durableReceiptRef: Option<string>)

  datatype Receipt = Receipt(
    receiptId: string,
    idempotencyKey: string,
    payloadHash: string,
    candidateId: string,
    committedState: AuditState,
    cacheVersionAfter: nat,
    authorizationDecisionId: string,
    ownerGateRef: Option<string>,
    leaseEpoch: nat,
    workerId: string,
    canonicalMain: string)

  datatype State = State(
    generation: nat,
    cache: map<string, CacheEntry>,
    tasks: map<string, Task>,
    index: map<string, string>,
    receipts: map<string, Receipt>)

  const EMPTY_STATE := State(0, map[], map[], map[], map[])

  // `if t["dead_letter_reason"]`: the empty text counts as absent.
  predicate Dead(t: Task) {
    t.deadLetterReason.Some? && t.deadLetterReason.value != ""
  }

  function ReceiptIdOf(payloadHash: string): string {
    "receipt-" + (if |payloadHash| < 20 then payloadHash else payloadHash[..20])
  }

  predicate ValidCacheEntry(s: State, c: string)
    requires c in s.cache
  {
    c != "" && s.cache[c].candidateId == c && s.cache[c].docsHash in s.cache[c].docsHashes
  }

  predicate ValidTask(s: State, tid: string)
    requires tid in s.tasks
  {
    var t := s.tasks[tid];
    && tid != "" && t.taskId == tid
    && t.idempotencyKey != "" && t.candidateId != "" && t.inputHash != "" && t.authorizationRef != ""
    && t.candidateId in s.cache
    && t.idempotencyKey in s.index && s.index[t.idempotencyKey] == tid
  }

  predicate ValidIndexEntry(s: State, idem: string)
    requires idem in s.index
  {
    idem != "" && s.index[idem] != "" && s.index[idem] in s.tasks && s.tasks[s.index[idem]].idempotencyKey == idem
  }

  predicate ValidReceipt(s: State, idem: string)
    requires idem in s.receipts
  {
    var r := s.receipts[idem];
    && idem != "" && r.idempotencyKey == idem
    && r.candidateId != "" && r.authorizationDecisionId != "" && r.workerId != ""
    && (r.ownerGateRef.Some? ==> r.ownerGateRef.value != "")
    && IsHexAnyCase(r.payloadHash, 64) && r.receiptId == ReceiptIdOf(r.payloadHash)
    && IsHexAnyCase(r.canonicalMain, 40)
    && Final(r.committedState)
    && idem in s.index && s.index[idem] in s.tasks
    && s.tasks[s.index[idem]].durableReceiptRef == Some(r.receiptId)
    && s.tasks[s.index[idem]].candidateId == r.candidateId
  }

  /** `validate_state`. */
  predicate ValidState(s: State) {
    && (forall c {:trigger ValidCacheEntry(s, c)} | c in s.cache :: ValidCacheEntry(s, c))
    && (forall tid {:trigger ValidTask(s, tid)} | tid in s.tasks :: ValidTask(s, tid))
    && (forall idem {:trigger ValidIndexEntry(s, idem)} | idem in s.index :: ValidIndexEntry(s, idem))
    && (forall idem {:trigger ValidReceipt(s, idem)} | idem in s.receipts :: ValidReceipt(s, idem))
  }

  ghost function ReceiptIds(s: State): set<string> {
    set idem | idem in s.receipts :: s.receipts[idem].receiptId
  }
}
