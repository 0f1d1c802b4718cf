// The enqueue envelope and the sealed authorization bundle of one Stage-1 invocation.
module Stage1Seal {
  import opened Prelude
  import opened R1Auth
  import opened R1State
  import opened R1Engine

  datatype Envelope = Envelope(
    candidateId: string,
    docsHash: string,
    workerId: string,
    requestedFinal: AuditState,
    verdictReason: string,
    evidenceRefs: seq<string>)

  datatype OpKey = InspectKey | LeaseKey | CheckpointKey | FailureKey | CommitKey | OtherKey(text: string)

  const AUTH_KEYS: set<OpKey> := {InspectKey, LeaseKey, CheckpointKey, FailureKey, CommitKey}

  datatype Bundle = Bundle(
    enqueue: Decision,
    operations: map<OpKey, Decision>,
    enqueueRuntime: AuthorizationRuntime,
    workerRuntime: AuthorizationRuntime,
    canonicalMain: string,
    provenanceRef: string,
    payloadDigest: string,
    authorityVerified: bool,
    policyVerified: bool)

  // Only values: nothing an adapter does to its own bundle afterwards reaches a sealed one.
  datatype Sealed = Sealed(
    enqueue: Decision,
    operations: map<OpKey, Decision>,
    workerRuntime: AuthorizationRuntime,
    canonicalMain: string,
    payloadDigest: string,
    trustedNow: int)

  // The digests of the engine and of the decision payload, all arbitrary.
  datatype Env = Env(engine: Digests, decisions: (Decision, map<OpKey, Decision>) -> string)

  datatype SealFailure = EnvelopeInvalid | Denied(denial: Denial)

  predicate ValidEnvelope(e: Envelope) {
    && e.candidateId != "" && e.docsHash != "" && e.workerId != "" && e.verdictReason != ""
    && "" !in e.evidenceRefs
    && Final(e.requestedFinal)
    && (e.requestedFinal.ExplicitIneligible? ==> e.evidenceRefs != [])
  }

  // `_task_id`, the runtime's own computation of the task an envelope is about.
  function TaskIdFor(env: Env, e: Envelope): string {
    env.engine.taskIdOf(Idem(e.candidateId, e.docsHash))
  }

  function ExpectedNeed(env: Env, e: Envelope, key: OpKey): Need {
    var task := TaskTarget(TaskIdFor(env, e));
    match key
    case InspectKey => Need(SourceCacheInspectOrStage, CandidateTarget(e.candidateId), P1, PublicTermsMetadataOnly)
    case LeaseKey => Need(TaskAcquireLease, task, P1, InternalR1StateOnly)
    case CheckpointKey => Need(TaskCheckpoint, task, P1, InternalR1StateOnly)
    case FailureKey => Need(TaskRecordFailure, task, P1, InternalR1StateOnly)
    case CommitKey => Need(SourceReviewCommit, task, P1, PublicTermsMetadataOnly)
    case OtherKey(_) => Need(OtherOperation(""), OtherTarget(""), P5, OtherExposure(""))
  }

  function EnqueueNeed(): Need {
    Need(EnqueueSourceAuditAdminTask, R1Auth.RuntimeBranch, P1, InternalSourceAuditAdminMetadataOnly)
  }

  function FirstDenial(env: Env, b: Bundle, e: Envelope, keys: seq<OpKey>): Option<Denial>
    requires forall k | k in keys :: k in b.operations
  {
    if keys == [] then None
    else
      var d := Validate(b.operations[keys[0]], b.workerRuntime, ExpectedNeed(env, e, keys[0]));
      if d.Some? then d else FirstDenial(env, b, e, keys[1..])
  }

  /** `seal_authorization_bundle`. */
  function Seal(env: Env, b: Bundle, e: Envelope, currentMain: string): Result<Sealed, SealFailure> {
    if !ValidEnvelope(e) then Err(EnvelopeInvalid)
    else if !b.authorityVerified then Err(Denied(BundleProvenance))
    else if !b.policyVerified then Err(Denied(DecisionProvenance))
    else if b.canonicalMain != currentMain || !IsHexAnyCase(b.canonicalMain, 40) then Err(Denied(BundleMainMismatch))
    else if b.provenanceRef == "" then Err(Denied(ProvenanceRefMissing))
    else if b.operations.Keys != AUTH_KEYS then Err(Denied(OperationSet))
    else if b.payloadDigest != env.decisions(b.enqueue, b.operations) then Err(Denied(PayloadDigestMismatch))
    else if b.enqueueRuntime.now != b.workerRuntime.now then Err(Denied(ClockMismatch))
    else
      var d := Validate(b.enqueue, b.enqueueRuntime, EnqueueNeed());
      if d.Some? then Err(Denied(d.value))
      else if e.workerId != b.workerRuntime.actorInstance then Err(Denied(WorkerBinding))
      else
        var first := FirstDenial(env, b, e, [InspectKey, LeaseKey, CheckpointKey, FailureKey, CommitKey]);
        if first.Some? then Err(Denied(first.value))
        else Ok(Sealed(b.enqueue, b.operations, b.workerRuntime, b.canonicalMain, b.payloadDigest, b.workerRuntime.now))
  }

  // The decision `_sealed_decision` hands out.
  function DecisionFor(sealed: Sealed, key: OpKey): Decision {
    if key in sealed.operations then sealed.operations[key] else FieldsMissing
  }

  const LEASE_TICKS := 10

  // The engine calls `_process_claimed` makes for an envelope.
  function InspectCall(main: string, e: Envelope, sealed: Sealed): Call {
    Inspect(main, e.candidateId, e.docsHash, DecisionFor(sealed, InspectKey), sealed.workerRuntime)
  }

  function LeaseCall(main: string, e: Envelope, sealed: Sealed, task: string, tick: int): Call {
    AcquireLease(main, task, e.workerId, tick, LEASE_TICKS, DecisionFor(sealed, LeaseKey), sealed.workerRuntime)
  }

  function FailureCall(main: string, e: Envelope, sealed: Sealed, task: string, epoch: int, tick: int, reason: string): Call {
    RecordFailure(main, task, e.workerId, epoch, tick, reason, DecisionFor(sealed, FailureKey), sealed.workerRuntime)
  }

  function CheckpointCall(main: string, e: Envelope, sealed: Sealed, task: string, epoch: int, tick: int, ref: string): Call {
    Checkpoint(main, task, e.workerId, epoch, tick + 1, ref, DecisionFor(sealed, CheckpointKey), sealed.workerRuntime)
  }

  function CommitCall(main: string, e: Envelope, sealed: Sealed, task: string, epoch: int, tick: int): Call {
    Commit(main, task, e.workerId, epoch, tick + 2, Some(e.requestedFinal), e.verdictReason, e.evidenceRefs,
           DecisionFor(sealed, CommitKey), sealed.workerRuntime)
  }

  predicate DeniesAuthorization(env: Env, engineMain: string, s: State, call: Call) {
    var out := Apply(env.engine, engineMain, s, call).1;
    out.Err? && out.error.AuthorizationDenied?
  }

  lemma DenialComesFromTheGuard(env: Env, m: string, s: State, call: Call)
    ensures DeniesAuthorization(env, m, s, call) <==> Guard(m, call).Some? && Guard(m, call).value.AuthorizationDenied?
  {
  }

  // Every sealed decision still passes the guard it was sealed under.
  ghost predicate SealCovers(env: Env, e: Envelope, sealed: Sealed) {
    && ValidEnvelope(e)
    && e.workerId == sealed.workerRuntime.actorInstance
    && forall key | key in AUTH_KEYS ::
         key in sealed.operations
         && Validate(sealed.operations[key], sealed.workerRuntime, ExpectedNeed(env, e, key)).None?
  }

  lemma {:induction false} FirstDenialNone(env: Env, b: Bundle, e: Envelope, keys: seq<OpKey>, key: OpKey)
    requires forall k | k in keys :: k in b.operations
    requires FirstDenial(env, b, e, keys).None? && key in keys
    ensures Validate(b.operations[key], b.workerRuntime, ExpectedNeed(env, e, key)).None?
  {
    if key != keys[0] {
      FirstDenialNone(env, b, e, keys[1..], key);
    }
  }

  lemma SealingCovers(env: Env, b: Bundle, e: Envelope, currentMain: string)
    requires Seal(env, b, e, currentMain).Ok?
    ensures SealCovers(env, e, Seal(env, b, e, currentMain).value)
    ensures Seal(env, b, e, currentMain).value.canonicalMain == currentMain
  {
    var keys := [InspectKey, LeaseKey, CheckpointKey, FailureKey, CommitKey];
    forall key | key in AUTH_KEYS
      ensures Validate(b.operations[key], b.workerRuntime, ExpectedNeed(env, e, key)).None?
    {
      assert key in keys;
      FirstDenialNone(env, b, e, keys, key);
    }
  }

  lemma {:induction false} FirstDenialIff(env: Env, b: Bundle, e: Envelope, keys: seq<OpKey>)
    requires forall k | k in keys :: k in b.operations
    ensures FirstDenial(env, b, e, keys).None? <==> forall k | k in keys :: Accepted(b.operations[k], b.workerRuntime, ExpectedNeed(env, e, k))
    decreases |keys|
  {
    hide Accepted, Validate, ExpectedNeed;
    if keys != [] {
      FirstDenialIff(env, b, e, keys[1..]);
      AcceptedIff(b.operations[keys[0]], b.workerRuntime, ExpectedNeed(env, e, keys[0]));
    }
  }

  predicate SoundEnvelope(e: Envelope) {
    && |e.candidateId| > 0 && |e.docsHash| > 0 && |e.workerId| > 0 && |e.verdictReason| > 0
    && (forall i | 0 <= i < |e.evidenceRefs| :: |e.evidenceRefs[i]| > 0)
    && e.requestedFinal in {ReviewedNoAdmission, ExplicitIneligible}
    && (e.requestedFinal == ExplicitIneligible ==> |e.evidenceRefs| > 0)
  }

  lemma EnvelopeIff(e: Envelope)
    ensures ValidEnvelope(e) <==> SoundEnvelope(e)
  {
    if ValidEnvelope(e) {
      forall i | 0 <= i < |e.evidenceRefs| ensures |e.evidenceRefs[i]| > 0 {
        assert e.evidenceRefs[i] in e.evidenceRefs;
      }
    }
  }

  // What a bundle must be to be sealed for an envelope on a main.
  ghost predicate Sealable(env: Env, b: Bundle, e: Envelope, currentMain: string) {
    && SoundEnvelope(e) && b.authorityVerified && b.policyVerified && b.provenanceRef != ""
    && b.canonicalMain == currentMain && IsHexAnyCase(currentMain, 40)
    && b.payloadDigest == env.decisions(b.enqueue, b.operations)
    && b.enqueueRuntime.now == b.workerRuntime.now && b.workerRuntime.actorInstance == e.workerId
    && Accepted(b.enqueue, b.enqueueRuntime,
                Need(EnqueueSourceAuditAdminTask, R1Auth.RuntimeBranch, P1, InternalSourceAuditAdminMetadataOnly))
    && b.operations.Keys == {InspectKey, LeaseKey, CheckpointKey, FailureKey, CommitKey}
    && forall k | k in b.operations :: Accepted(b.operations[k], b.workerRuntime, ExpectedNeed(env, e, k))
  }

  /** Exactly which bundles are sealed, and that sealing adds and drops nothing. */
  lemma SealSucceedsIff(env: Env, b: Bundle, e: Envelope, currentMain: string)
    ensures Seal(env, b, e, currentMain).Ok? <==> Sealable(env, b, e, currentMain)
    ensures Seal(env, b, e, currentMain).Ok? ==>
      Seal(env, b, e, currentMain).value == Sealed(b.enqueue, b.operations, b.workerRuntime, currentMain, b.payloadDigest, b.workerRuntime.now)
  {
    hide Accepted, Validate, ExpectedNeed, ValidEnvelope, SoundEnvelope, IsHexAnyCase;
    EnvelopeIff(e);
    AcceptedIff(b.enqueue, b.enqueueRuntime, EnqueueNeed());
    var keys := [InspectKey, LeaseKey, CheckpointKey, FailureKey, CommitKey];
    if b.operations.Keys == AUTH_KEYS {
      FirstDenialIff(env, b, e, keys);
      assert forall k :: k in keys <==> k in b.operations;
    }
  }

  // The calls of one invocation on behalf of `task`.
  ghost predicate InvocationCall(e: Envelope, sealed: Sealed, task: string, call: Call) {
    || call == InspectCall(call.main, e, sealed)
    || (call.AcquireLease? && call == LeaseCall(call.main, e, sealed, task, call.now))
    || (call.RecordFailure? && call == FailureCall(call.main, e, sealed, task, call.epoch, call.now, call.reason))
    || (call.Checkpoint? && call == CheckpointCall(call.main, e, sealed, task, call.epoch, call.now - 1, call.ref))
    || (call.Commit? && call == CommitCall(call.main, e, sealed, task, call.epoch, call.now - 2))
  }

  /** A sealed bundle suffices: no engine call the invocation makes on its own task can be
      denied authorization, on any store state and with any ticks. */
  lemma SealedBundleSuffices(env: Env, b: Bundle, e: Envelope, currentMain: string, m: string, s: State, call: Call)
    requires Seal(env, b, e, currentMain).Ok?
    requires InvocationCall(e, Seal(env, b, e, currentMain).value, TaskIdFor(env, e), call)
    ensures !DeniesAuthorization(env, m, s, call)
  {
    SealingCovers(env, b, e, currentMain);
    CoveredCallPasses(env, e, Seal(env, b, e, currentMain).value, m, s, call);
  }

  function KeyOf(call: Call): OpKey {
    match call
    case Inspect(_, _, _, _, _) => InspectKey
    case AcquireLease(_, _, _, _, _, _, _) => LeaseKey
    case Checkpoint(_, _, _, _, _, _, _, _) => CheckpointKey
    case RecordFailure(_, _, _, _, _, _, _, _) => FailureKey
    case Commit(_, _, _, _, _, _, _, _, _, _) => CommitKey
  }

  lemma CoveredCallPasses(env: Env, e: Envelope, sealed: Sealed, m: string, s: State, call: Call)
    requires SealCovers(env, e, sealed) && InvocationCall(e, sealed, TaskIdFor(env, e), call)
    ensures !DeniesAuthorization(env, m, s, call)
  {
    DenialComesFromTheGuard(env, m, s, call);
    var key := KeyOf(call);
    assert key in AUTH_KEYS;
    assert NeedOf(call) == ExpectedNeed(env, e, key);
  }

  /** The agreement of the two task-id computations is exactly what is needed: a lease call for another
      task id than the runtime computed is denied. */
  lemma LeaseDeniedIffTaskIdsDisagree(env: Env, b: Bundle, e: Envelope, currentMain: string, s: State, task: string, tick: nat)
    requires Seal(env, b, e, currentMain).Ok?
    ensures DeniesAuthorization(env, currentMain, s, LeaseCall(currentMain, e, Seal(env, b, e, currentMain).value, task, tick))
       <==> task != TaskIdFor(env, e)
  {
    var sealed := Seal(env, b, e, currentMain).value;
    var call := LeaseCall(currentMain, e, sealed, task, tick);
    SealingCovers(env, b, e, currentMain);
    DenialComesFromTheGuard(env, currentMain, s, call);
    assert LeaseKey in AUTH_KEYS;
    if task != TaskIdFor(env, e) {
      assert NeedOf(call) != ExpectedNeed(env, e, LeaseKey);
      if Validate(call.auth, call.runtime, NeedOf(call)).None? {
        DecisionServesOneNeed(call.auth, call.runtime, NeedOf(call), ExpectedNeed(env, e, LeaseKey));
      }
    }
  }
}
