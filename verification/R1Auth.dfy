// The authorization guard: it consumes an existing decision and either accepts
// it for one exact operation, target, permission class and exposure scope, or
// denies.  Times are instants; `None` is a malformed or offset-naive text.
module R1Auth {
  import opened Prelude

  datatype PermissionClass = P0 | P1 | P2 | P3 | P4 | P5 | UnknownClass(text: string)

  // The operation and exposure-scope texts the runtime uses, and any other text.
  datatype Operation =
    | SourceCacheInspectOrStage | TaskAcquireLease | TaskCheckpoint | TaskRecordFailure | SourceReviewCommit
    | EnqueueSourceAuditAdminTask | OtherOperation(text: string)

  datatype Exposure =
    | PublicTermsMetadataOnly | InternalR1StateOnly | InternalSourceAuditAdminMetadataOnly | OtherExposure(text: string)

  datatype Target = CandidateTarget(candidate: string) | TaskTarget(task: string) | RuntimeBranch | OtherTarget(text: string)

  datatype Scope = Scope(operation: Option<Operation>, target: Option<Target>, exposure: Option<Exposure>)

  datatype Decision =
    | NotObject
    | FieldsMissing
    | Decision(
        decisionId: string,
        policyGeneration: string,
        policyDigest: string,
        actorRole: string,
        actorInstance: string,
        operation: Operation,
        target: Target,
        requested: PermissionClass,
        ceiling: PermissionClass,
        scope: Option<Scope>,
        exposure: Exposure,
        issuedAt: Option<int>,
        expiresAt: Option<int>,
        grantRef: Option<string>,
        ownerGateRef: Option<string>,
        revocationSeen: int,
        safeModeSeen: int,
        allow: bool)

  datatype AuthorizationRuntime = AuthorizationRuntime(
    policyGeneration: string,
    policyDigest: string,
    revocationGeneration: int,
    safeModeGeneration: int,
    now: int,
    actorRole: string,
    actorInstance: string,
    validGrants: set<string>,
    expectedOwnerGate: Option<string>,
    safeModeActive: bool)

  datatype Need = Need(operation: Operation, target: Target, permission: PermissionClass, exposure: Exposure)

  datatype Denial =
    | DecisionNotObject | RequiredFieldsMissing | DecisionNotAllow | PermissionClassUnknown | P5Prohibited
    | RequestMismatch | ActorMismatch | PolicyStale | RevocationStale | SafeModeGenerationStale | SafeModeDeny
    | TimeMalformed | TimeInvalid | OperationTargetMismatch | ExposureMismatch | ScopeMismatch | CeilingExceeded
    | DecisionIdInvalid | GrantRequired | GrantInvalid | OwnerGateMismatch
    | WorkerActorMismatch
    | BundleProvenance | DecisionProvenance | BundleMainMismatch | ProvenanceRefMissing | OperationSet
    | PayloadDigestMismatch | ClockMismatch | WorkerBinding | SealMissing | SealMainMismatch

  function Rank(p: PermissionClass): nat {
    match p
    case P0 => 0
    case P1 => 1
    case P2 => 2
    case P3 => 3
    case P4 => 4
    case P5 => 5
    case UnknownClass(_) => 6
  }

  predicate ScopeCovers(scope: Option<Scope>, need: Need) {
    && scope.Some?
    && scope.value.operation == Some(need.operation)
    && scope.value.target == Some(need.target)
    && (scope.value.exposure.Some? ==> scope.value.exposure.value == need.exposure)
  }

  /** The guard itself: `None` is acceptance, otherwise the first denial raised. */
  function Validate(d: Decision, rt: AuthorizationRuntime, need: Need): Option<Denial> {
    if d.NotObject? then Some(DecisionNotObject)
    else if d.FieldsMissing? then Some(RequiredFieldsMissing)
    else if !d.allow then Some(DecisionNotAllow)
    else if d.requested.UnknownClass? || d.ceiling.UnknownClass? || need.permission.UnknownClass? then
      Some(PermissionClassUnknown)
    else if d.requested.P5? || need.permission.P5? then Some(P5Prohibited)
    else if d.requested != need.permission then Some(RequestMismatch)
    else if d.actorRole != rt.actorRole || d.actorInstance != rt.actorInstance then Some(ActorMismatch)
    else if d.policyGeneration != rt.policyGeneration || d.policyDigest != rt.policyDigest then Some(PolicyStale)
    else if d.revocationSeen != rt.revocationGeneration then Some(RevocationStale)
    else if d.safeModeSeen != rt.safeModeGeneration then Some(SafeModeGenerationStale)
    else if rt.safeModeActive && !need.permission.P0? then Some(SafeModeDeny)
    else if d.issuedAt.None? then Some(TimeMalformed)
    else if d.issuedAt.value > rt.now then Some(TimeInvalid)
    else if d.expiresAt.None? then Some(TimeMalformed)
    else if d.expiresAt.value <= rt.now then Some(TimeInvalid)
    else if d.operation != need.operation || d.target != need.target then Some(OperationTargetMismatch)
    else if d.exposure != need.exposure then Some(ExposureMismatch)
    else if !ScopeCovers(d.scope, need) then Some(ScopeMismatch)
    else if Rank(need.permission) > Rank(d.ceiling) then Some(CeilingExceeded)
    else if d.decisionId == "" then Some(DecisionIdInvalid)
    else if !need.permission.P0? && (d.grantRef.None? || d.grantRef.value == "") then Some(GrantRequired)
    else if !need.permission.P0? && d.grantRef.value !in rt.validGrants then Some(GrantInvalid)
    else if need.permission.P4?
            && (rt.expectedOwnerGate.None? || rt.expectedOwnerGate.value == "" || d.ownerGateRef != rt.expectedOwnerGate)
    then Some(OwnerGateMismatch)
    else None
  }

  /** What an accepted decision has established; no grant is minted or elevated. */
  lemma AcceptedDecisionIsExact(d: Decision, rt: AuthorizationRuntime, need: Need)
    requires Validate(d, rt, need).None?
    ensures d.Decision? && d.allow && d.decisionId != ""
    ensures d.operation == need.operation && d.target == need.target && d.exposure == need.exposure
    ensures d.requested == need.permission && Rank(need.permission) <= Rank(d.ceiling) < 6
    ensures d.actorInstance == rt.actorInstance && d.actorRole == rt.actorRole
    ensures d.issuedAt.Some? && d.expiresAt.Some? && d.issuedAt.value <= rt.now < d.expiresAt.value
    ensures need.permission != P0 ==> d.grantRef.Some? && d.grantRef.value in rt.validGrants && !rt.safeModeActive
  {
  }

  /** An accepted decision is accepted for one operation, one target and one scope only. */
  lemma DecisionServesOneNeed(d: Decision, rt: AuthorizationRuntime, need: Need, other: Need)
    requires Validate(d, rt, need).None? && Validate(d, rt, other).None?
    ensures need == other
  {
  }

  // ---- What acceptance means, field by field ----

  // The request is this one, and the decision names it throughout.
  predicate NamesNeed(d: Decision, need: Need)
    requires d.Decision?
  {
    && d.operation == need.operation && d.target == need.target && d.exposure == need.exposure && d.requested == need.permission
    && d.scope in {Some(Scope(Some(need.operation), Some(need.target), None)),
                   Some(Scope(Some(need.operation), Some(need.target), Some(need.exposure)))}
  }

  // The classes a ceiling allows.
  function AllowedBy(ceiling: PermissionClass): set<PermissionClass> {
    match ceiling
    case P0 => {P0}
    case P1 => {P0, P1}
    case P2 => {P0, P1, P2}
    case P3 => {P0, P1, P2, P3}
    case P4 => {P0, P1, P2, P3, P4}
    case P5 => {P0, P1, P2, P3, P4}
    case UnknownClass(_) => {}
  }

  // Nothing the decision was made under has moved on since.
  predicate Current(d: Decision, rt: AuthorizationRuntime)
    requires d.Decision?
  {
    && d.policyGeneration == rt.policyGeneration && d.policyDigest == rt.policyDigest
    && d.revocationSeen == rt.revocationGeneration && d.safeModeSeen == rt.safeModeGeneration
  }

  predicate InWindow(d: Decision, now: int)
    requires d.Decision?
  {
    d.issuedAt.Some? && d.expiresAt.Some? && d.issuedAt.value <= now < d.expiresAt.value
  }

  // Beyond reading, a grant that is still valid and no safe mode; for the owner's class, the expected gate.
  predicate Granting(d: Decision, rt: AuthorizationRuntime, p: PermissionClass)
    requires d.Decision?
  {
    && (p != P0 ==> !rt.safeModeActive && d.grantRef.Some? && d.grantRef.value != "" && d.grantRef.value in rt.validGrants)
    && (p == P4 ==> d.ownerGateRef == rt.expectedOwnerGate && d.ownerGateRef.Some? && d.ownerGateRef.value != "")
  }

  // An allowing decision for this very request, within its ceiling, for this actor, current, inside its window, and granted.
  predicate Accepted(d: Decision, rt: AuthorizationRuntime, need: Need) {
    && d.Decision? && d.allow && d.decisionId != "" && NamesNeed(d, need) && need.permission in AllowedBy(d.ceiling)
    && d.actorRole == rt.actorRole && d.actorInstance == rt.actorInstance
    && Current(d, rt) && InWindow(d, rt.now) && Granting(d, rt, need.permission)
  }

  lemma CeilingIff(p: PermissionClass, ceiling: PermissionClass)
    ensures p in AllowedBy(ceiling) <==> !p.UnknownClass? && !p.P5? && !ceiling.UnknownClass? && Rank(p) <= Rank(ceiling)
  {
  }

  lemma ScopeIff(scope: Option<Scope>, need: Need)
    ensures ScopeCovers(scope, need) <==>
      scope in {Some(Scope(Some(need.operation), Some(need.target), None)), Some(Scope(Some(need.operation), Some(need.target), Some(need.exposure)))}
  {
    if scope.Some? {
      assert scope == Some(Scope(scope.value.operation, scope.value.target, scope.value.exposure));
    }
  }

  /** Exactly which decisions the guard accepts. */
  lemma AcceptedIff(d: Decision, rt: AuthorizationRuntime, need: Need)
    ensures Validate(d, rt, need).None? <==> Accepted(d, rt, need)
  {
    hide AllowedBy, Rank, ScopeCovers;
    if d.Decision? {
      CeilingIff(need.permission, d.ceiling);
      ScopeIff(d.scope, need);
    }
  }
}
