// The GitHub runtime ledger: authenticated payloads, the semantics of one
// forward transition, and what a successful load has verified of the journal.
// Commit ids are numbers; the digest, the MAC under the writer key and the
// activation key are arbitrary functions.
module Ledger {
  import opened Prelude
  import opened R1State
  import opened Stage1Control
  import opened LedgerTags

  type Sha = nat

  datatype Operation = ClaimInvocation | PersistR1State | ReleaseInvocation | OtherOperation(name: string)

  datatype Auth = Auth(
    writerKeyId: string, previousHead: Sha, sequence: nat, operation: Operation, claimId: string,
    payloadDigest: string, mac: string)

  datatype Payload = Payload(sequence: nat, control: Control, r1: State, auth: Option<Auth>)

  // What the payload digest covers: everything but the authentication.
  datatype Core = Core(sequence: nat, control: Control, r1: State)

  datatype Message = Message(
    activationReceiptId: string, writerKeyId: string, previousHead: Sha, sequence: nat,
    operation: Operation, claimId: string, payloadDigest: string)

  datatype Commit = Commit(parent: Option<Sha>, payload: Payload)

  datatype Anchor = Anchor(identity: Identity, initialHead: Sha, writerKeyId: string)

  datatype Env = Env(anchor: Anchor, digest: Core -> string, mac: Message -> string, activationKey: string -> string)

  function CoreOf(p: Payload): Core {
    Core(p.sequence, p.control, p.r1)
  }

  function Key(env: Env): string {
    env.activationKey(env.anchor.identity.activationReceiptId)
  }

  // `_validate_transition_auth_shape`.
  predicate AuthShape(a: Option<Auth>, sequence: nat) {
    if sequence == 0 then a.None?
    else
      && a.Some? && a.value.writerKeyId != "" && a.value.sequence == sequence && !a.value.operation.OtherOperation?
      && a.value.claimId != "" && IsHex(a.value.payloadDigest, 64) && IsHex(a.value.mac, 64)
  }

  // `_validate_ledger_payload`.
  predicate ValidPayload(p: Payload) {
    p.sequence <= MAX_SEQUENCE && ValidControl(p.control) && ValidState(p.r1) && AuthShape(p.auth, p.sequence)
  }

  // `_assert_activation_anchor`.
  predicate AnchorOk(env: Env, c: Control, currentMain: string) {
    ValidControl(c) && c.identity == env.anchor.identity && currentMain == env.anchor.identity.canonicalMain
  }

  function MessageOf(env: Env, previousHead: Sha, sequence: nat, op: Operation, claimId: string, digest: string): Message {
    Message(env.anchor.identity.activationReceiptId, env.anchor.writerKeyId, previousHead, sequence, op, claimId, digest)
  }

  // `_make_transition_auth`.
  function MakeAuth(env: Env, core: Core, previousHead: Sha, op: Operation, claimId: string): Auth {
    var digest := env.digest(core);
    Auth(env.anchor.writerKeyId, previousHead, core.sequence, op, claimId, digest,
         env.mac(MessageOf(env, previousHead, core.sequence, op, claimId, digest)))
  }

  // `_verify_transition_auth`.
  predicate AuthVerifies(env: Env, p: Payload, previousHead: Sha, sequence: nat) {
    && ValidPayload(p) && AuthShape(p.auth, sequence) && p.auth.Some?
    && var a := p.auth.value; var digest := env.digest(CoreOf(p));
    && a.writerKeyId == env.anchor.writerKeyId
    && a.previousHead == previousHead && a.sequence == sequence
    && a.payloadDigest == digest
    && a.mac == env.mac(MessageOf(env, previousHead, sequence, a.operation, a.claimId, digest))
  }

  // `_assert_control_identity_preserved`.
  predicate IdentityPreserved(prev: Control, next: Control) {
    && ValidControl(prev) && ValidControl(next)
    && prev.identity == next.identity
    && prev.counted <= next.counted
    && prev.terminalCount <= next.terminalCount
    && (prev.paused ==> next.paused)
  }

  function WithoutClaim(c: Control): Control {
    c.(claimId := None, claimExpiresAt := None)
  }

  // `_verify_transition_semantics`.
  predicate Semantics(prev: Payload, next: Payload, op: Operation, claimId: string) {
    && IdentityPreserved(prev.control, next.control)
    && match op
       case ClaimInvocation =>
         && prev.r1 == next.r1 && WithoutClaim(prev.control) == WithoutClaim(next.control)
         && next.control.claimId == Some(claimId) && next.control.claimExpiresAt.Some?
       case PersistR1State => prev.control == next.control && prev.control.claimId == Some(claimId)
       case ReleaseInvocation =>
         && prev.r1 == next.r1 && prev.control.claimId == Some(claimId)
         && next.control.claimId.None? && next.control.claimExpiresAt.None?
       case OtherOperation(_) => false
  }

  // ---- The journal ----

  datatype Entry = Entry(sequence: nat, terminal: nat, sha: Sha)

  // `_journal_entries`: every listed tag parses, and the sorted entries are numbered 1, 2, 3, ...
  ghost predicate JournalIs(key: string, journal: map<string, Sha>, entries: seq<Entry>) {
    && |entries| == |journal|
    && (forall i {:trigger entries[i]} | 0 <= i < |entries| :: EntryListed(key, journal, entries[i]) && entries[i].sequence == i + 1)
    && (forall ref {:trigger ref in journal} | ref in journal :: RefEntered(key, journal, entries, ref))
  }

  ghost predicate EntryListed(key: string, journal: map<string, Sha>, e: Entry) {
    exists ref :: ref in journal && ParseTag(key, ref) == Some((e.sequence, e.terminal)) && journal[ref] == e.sha
  }

  ghost predicate RefEntered(key: string, journal: map<string, Sha>, entries: seq<Entry>, ref: string)
    requires ref in journal
  {
    var parsed := ParseTag(key, ref);
    parsed.Some? && 1 <= parsed.value.0 <= |entries|
    && entries[parsed.value.0 - 1] == Entry(parsed.value.0, parsed.value.1, journal[ref])
  }

  // The head before entry `i`.
  function HeadBefore(env: Env, entries: seq<Entry>, i: nat): Sha
    requires i <= |entries|
  {
    if i == 0 then env.anchor.initialHead else entries[i - 1].sha
  }

  // One round of the replay loop.
  predicate LinkOk(env: Env, commits: map<Sha, Commit>, previous: Sha, e: Entry, expected: nat)
    requires previous in commits
  {
    && e.sha in commits
    && var prev, target := commits[previous].payload, commits[e.sha];
    && target.parent == Some(previous)
    && target.payload.sequence == expected
    && AnchorOk(env, target.payload.control, env.anchor.identity.canonicalMain)
    && e.terminal == target.payload.control.terminalCount
    && AuthVerifies(env, target.payload, previous, expected)
    && Semantics(prev, target.payload, target.payload.auth.value.operation, target.payload.auth.value.claimId)
  }

  predicate InitialOk(env: Env, commits: map<Sha, Commit>) {
    && env.anchor.initialHead in commits
    && var p := commits[env.anchor.initialHead].payload;
    && ValidPayload(p) && p.sequence == 0 && p.auth.None?
    && AnchorOk(env, p.control, env.anchor.identity.canonicalMain)
  }

  ghost predicate LinkAt(env: Env, commits: map<Sha, Commit>, entries: seq<Entry>, i: nat)
    requires i < |entries|
  {
    HeadBefore(env, entries, i) in commits && LinkOk(env, commits, HeadBefore(env, entries, i), entries[i], i + 1)
  }

  // The replay loop accepts the whole journal.
  ghost predicate ChainOk(env: Env, commits: map<Sha, Commit>, entries: seq<Entry>) {
    && InitialOk(env, commits)
    && forall i {:trigger LinkAt(env, commits, entries, i)} | 0 <= i < |entries| :: LinkAt(env, commits, entries, i)
  }

  function HighWater(entries: seq<Entry>): nat {
    if entries == [] then 0
    else
      var rest, last := HighWater(entries[..|entries| - 1]), entries[|entries| - 1].terminal;
      if rest < last then last else rest
  }

  // A load of `head` under `main` accepts the journal through these entries.
  ghost predicate Replays(env: Env, commits: map<Sha, Commit>, journal: map<string, Sha>, head: Sha, entries: seq<Entry>)
    requires head in commits
  {
    && JournalIs(Key(env), journal, entries)
    && |entries| == commits[head].payload.sequence
    && ChainOk(env, commits, entries)
    && HeadBefore(env, entries, |entries|) == head
    && HighWater(entries) == commits[head].payload.control.terminalCount
  }

  /** `_load_internal` succeeds. */
  ghost predicate LoadOk(env: Env, main: string, head: Sha, journal: map<string, Sha>, commits: map<Sha, Commit>) {
    && head in commits
    && var p := commits[head].payload;
    && ValidPayload(p) && AnchorOk(env, p.control, main)
    && if p.sequence == 0
       then journal == map[] && head == env.anchor.initialHead && p.control.terminalCount == 0 && p.auth.None?
       else exists entries :: Replays(env, commits, journal, head, entries)
  }

  // ---- Writing ----

  datatype Request =
    | ClaimRequest(claimId: string, control: Control)
    | PersistRequest(claimId: string, r1: State)
    | ReleaseRequest(claimId: string, control: Control)

  function OperationOf(req: Request): Operation {
    match req
    case ClaimRequest(_, _) => ClaimInvocation
    case PersistRequest(_, _) => PersistR1State
    case ReleaseRequest(_, _) => ReleaseInvocation
  }

  // The checks and the edit of `claim_invocation`, `persist_r1_state` and `release_invocation`.
  function Edit(prev: Payload, req: Request): Option<Payload> {
    match req
    case ClaimRequest(claimId, c) =>
      if IdentityPreserved(prev.control, c) && c.claimId == Some(claimId) && c.claimExpiresAt.Some?
      then Some(prev.(control := c)) else None
    case PersistRequest(claimId, s) =>
      if prev.control.claimId == Some(claimId) && ValidState(s) then Some(prev.(r1 := s)) else None
    case ReleaseRequest(claimId, c) =>
      if prev.control.claimId == Some(claimId) && IdentityPreserved(prev.control, c) && c.claimId.None? && c.claimExpiresAt.None?
      then Some(prev.(control := c)) else None
  }

  // `_claim_journal_then_branch` up to the commit: number, authenticate, and check what will be verified.
  function NewPayload(env: Env, head: Sha, prev: Payload, main: string, req: Request): Option<Payload> {
    var edited := Edit(prev, req);
    if edited.None? || prev.sequence + 1 > MAX_SEQUENCE then None
    else
      var core := Core(prev.sequence + 1, edited.value.control, edited.value.r1);
      var p := Payload(core.sequence, core.control, core.r1,
                       Some(MakeAuth(env, core, head, OperationOf(req), req.claimId)));
      if ValidPayload(p) && AnchorOk(env, p.control, main) && Semantics(prev, p, OperationOf(req), req.claimId)
      then Some(p) else None
  }

  function TagFor(env: Env, p: Payload): string {
    PrintTag(Key(env), p.sequence, p.control.terminalCount)
  }
}
