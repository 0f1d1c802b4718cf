// Writer and verifier agree, and where the concrete ledger is stricter than the runtime.
module LedgerAppend {
  import opened Prelude
  import opened Ordering
  import opened R1State
  import opened Stage1Control
  import opened LedgerTags
  import opened Ledger
  import opened LedgerChain
  import Stage1Runtime

  // The remote after both pushes of an append.
  function Tagged(env: Env, journal: map<string, Sha>, p: Payload, sha: Sha): map<string, Sha> {
    journal[TagFor(env, p) := sha]
  }

  function Committed(commits: map<Sha, Commit>, head: Sha, p: Payload, sha: Sha): map<Sha, Commit> {
    commits[sha := Commit(Some(head), p)]
  }

  // Commit ids are content addresses: an id in use names the same commit.
  predicate ContentAddressed(commits: map<Sha, Commit>, head: Sha, p: Payload, sha: Sha) {
    sha in commits ==> commits[sha] == Commit(Some(head), p)
  }

  lemma WrittenAuthVerifies(env: Env, head: Sha, prev: Payload, main: string, req: Request)
    requires NewPayload(env, head, prev, main, req).Some?
    ensures var p := NewPayload(env, head, prev, main, req).value;
      && AuthVerifies(env, p, head, prev.sequence + 1) && ValidPayload(p) && AnchorOk(env, p.control, main)
      && p.sequence == prev.sequence + 1
      && p.auth.value.operation == OperationOf(req) && p.auth.value.claimId == req.claimId
      && Semantics(prev, p, p.auth.value.operation, p.auth.value.claimId)
  {
    hide ValidControl, ValidState, Semantics, Edit;
  }

  lemma ChainSurvivesCommit(env: Env, commits: map<Sha, Commit>, commits': map<Sha, Commit>, entries: seq<Entry>)
    requires ChainOk(env, commits, entries)
    requires forall h | h in commits :: h in commits' && commits'[h] == commits[h]
    ensures ChainOk(env, commits', entries)
  {
    hide Semantics, AuthVerifies, AnchorOk, ValidPayload;
    forall i | 0 <= i < |entries| ensures LinkAt(env, commits', entries, i) {
      assert LinkAt(env, commits, entries, i);
    }
  }

  lemma ChainExtends(env: Env, commits: map<Sha, Commit>, entries: seq<Entry>, e: Entry)
    requires ChainOk(env, commits, entries)
    requires HeadBefore(env, entries, |entries|) in commits
    requires LinkOk(env, commits, HeadBefore(env, entries, |entries|), e, |entries| + 1)
    ensures ChainOk(env, commits, entries + [e])
  {
    hide Semantics, AuthVerifies, AnchorOk, ValidPayload;
    var longer := entries + [e];
    forall i | 0 <= i < |longer| ensures LinkAt(env, commits, longer, i) {
      assert HeadBefore(env, longer, i) == HeadBefore(env, entries, i);
      if i < |entries| {
        assert LinkAt(env, commits, entries, i);
      }
    }
  }

  lemma ListedStays(key: string, journal: map<string, Sha>, tag: string, sha: Sha, e: Entry)
    requires EntryListed(key, journal, e) && tag !in journal
    ensures EntryListed(key, journal[tag := sha], e)
  {
    hide ParseTag;
    var ref :| ref in journal && ParseTag(key, ref) == Some((e.sequence, e.terminal)) && journal[ref] == e.sha;
    assert ref in journal[tag := sha];
  }

  lemma EnteredStays(key: string, journal: map<string, Sha>, entries: seq<Entry>, tag: string, sha: Sha, e: Entry, ref: string)
    requires ref in journal && RefEntered(key, journal, entries, ref) && tag !in journal
    ensures RefEntered(key, journal[tag := sha], entries + [e], ref)
  {
    hide ParseTag;
  }

  lemma NewTagEntered(key: string, journal: map<string, Sha>, entries: seq<Entry>, tag: string, e: Entry)
    requires tag in journal && ParseTag(key, tag) == Some((e.sequence, e.terminal)) && journal[tag] == e.sha
    requires e.sequence == |entries| + 1
    ensures RefEntered(key, journal, entries + [e], tag) && EntryListed(key, journal, e)
  {
    hide ParseTag;
  }

  lemma JournalExtends(key: string, journal: map<string, Sha>, entries: seq<Entry>, terminal: nat, sha: Sha)
    requires JournalIs(key, journal, entries) && |entries| + 1 <= MAX_SEQUENCE && terminal < Pow10(FIELD)
    requires PrintTag(key, |entries| + 1, terminal) !in journal
    ensures JournalIs(key, journal[PrintTag(key, |entries| + 1, terminal) := sha], entries + [Entry(|entries| + 1, terminal, sha)])
  {
    hide ParseTag, PrintTag, Pow10, EntryListed, RefEntered;
    var n := |entries| + 1;
    var tag, e := PrintTag(key, n, terminal), Entry(n, terminal, sha);
    var journal', longer := journal[tag := sha], entries + [e];
    TagRoundTrip(key, n, terminal);
    NewTagEntered(key, journal', entries, tag, e);
    assert journal'.Keys == journal.Keys + {tag};
    forall i | 0 <= i < |longer| ensures EntryListed(key, journal', longer[i]) && longer[i].sequence == i + 1 {
      if i < |entries| {
        assert entries[i] == longer[i];
        ListedStays(key, journal, tag, sha, entries[i]);
      }
    }
    forall ref | ref in journal' ensures RefEntered(key, journal', longer, ref) {
      if ref != tag {
        EnteredStays(key, journal, entries, tag, sha, e, ref);
      }
    }
  }

  // The entries a successful load went through; none for a fresh ledger.
  lemma LoadedEntries(env: Env, main: string, head: Sha, journal: map<string, Sha>, commits: map<Sha, Commit>)
    returns (entries: seq<Entry>)
    requires LoadOk(env, main, head, journal, commits)
    ensures Replays(env, commits, journal, head, entries)
  {
    hide ParseTag, Semantics, AuthVerifies;
    if commits[head].payload.sequence == 0 {
      entries := [];
      assert ChainOk(env, commits, entries);
      assert JournalIs(Key(env), journal, entries);
    } else {
      entries :| Replays(env, commits, journal, head, entries);
    }
  }

  /** Writer/verifier agreement: after a load, if both pushes of an append succeed with main unchanged and no
      rival tag, the next load accepts and reads back exactly the written payload; this holds for every request
      and every terminal count that fits the tag field, and for no other. */
  lemma AppendThenLoad(env: Env, main: string, head: Sha, journal: map<string, Sha>, commits: map<Sha, Commit>, req: Request, sha: Sha)
    requires LoadOk(env, main, head, journal, commits)
    requires NewPayload(env, head, commits[head].payload, main, req).Some?
    requires var p := NewPayload(env, head, commits[head].payload, main, req).value;
      TagFor(env, p) !in journal && ContentAddressed(commits, head, p, sha)
    ensures var p := NewPayload(env, head, commits[head].payload, main, req).value;
      var journal', commits' := Tagged(env, journal, p, sha), Committed(commits, head, p, sha);
      && (LoadOk(env, main, sha, journal', commits') <==> p.control.terminalCount < Pow10(FIELD))
      && commits'[sha].payload == p
  {
    hide ParseTag, PrintTag, Pow10, NewPayload, Semantics, AuthVerifies;
    var prev := commits[head].payload;
    var p := NewPayload(env, head, prev, main, req).value;
    var journal', commits' := Tagged(env, journal, p, sha), Committed(commits, head, p, sha);
    WrittenAuthVerifies(env, head, prev, main, req);
    var entries := LoadedEntries(env, main, head, journal, commits);
    var e := Entry(|entries| + 1, p.control.terminalCount, sha);
    if p.control.terminalCount < Pow10(FIELD) {
      ChainSurvivesCommit(env, commits, commits', entries);
      ChainExtends(env, commits', entries, e);
      JournalExtends(Key(env), journal, entries, p.control.terminalCount, sha);
      HighWaterIsTheHead(env, commits', entries + [e]);
      assert Replays(env, commits', journal', sha, entries + [e]);
    } else {
      TagRoundTrip(Key(env), p.sequence, p.control.terminalCount);
      NoJournalWithout(Key(env), journal', TagFor(env, p));
    }
  }

  // Digests and MACs print as 64 hexadecimal digits, and the writer key has a name.
  ghost predicate HexDigests(env: Env) {
    && env.anchor.writerKeyId != ""
    && (forall core {:trigger env.digest(core)} :: IsHex(env.digest(core), 64))
    && (forall m {:trigger env.mac(m)} :: IsHex(env.mac(m), 64))
  }

  // What each request asks of the snapshot it is made on.
  predicate RequestFits(prev: Payload, req: Request) {
    match req
    case ClaimRequest(claimId, c) =>
      && ValidControl(c) && c.claimId == Some(claimId) && WithoutClaim(c) == WithoutClaim(prev.control)
    case PersistRequest(claimId, s) => prev.control.claimId == Some(claimId) && ValidState(s)
    case ReleaseRequest(claimId, c) =>
      && prev.control.claimId == Some(claimId) && IdentityPreserved(prev.control, c) && c.claimId.None?
  }

  /** What an append writes, and exactly when it is allowed: the next number, the requested control or the requested
      state and nothing else of the payload; for a claim nothing but the claim may differ, and the other two
      need the claim in force. */
  lemma AppendWritesTheRequest(env: Env, head: Sha, prev: Payload, main: string, req: Request)
    requires HexDigests(env) && ValidPayload(prev) && AnchorOk(env, prev.control, main)
    ensures NewPayload(env, head, prev, main, req).Some? <==> RequestFits(prev, req) && prev.sequence < MAX_SEQUENCE
    ensures NewPayload(env, head, prev, main, req).Some? ==>
      var p := NewPayload(env, head, prev, main, req).value;
      && p.sequence == prev.sequence + 1
      && p.control == (if req.PersistRequest? then prev.control else req.control)
      && p.r1 == (if req.PersistRequest? then req.r1 else prev.r1)
  {
    hide ValidState, ValidIdentity, IsHex;
    var edited := Edit(prev, req);
    if edited.Some? && prev.sequence < MAX_SEQUENCE {
      var core := Core(prev.sequence + 1, edited.value.control, edited.value.r1);
      var a := MakeAuth(env, core, head, OperationOf(req), req.claimId);
      assert IsHex(a.payloadDigest, 64) && IsHex(a.mac, 64);
    }
  }

  // ---- The abstract adapter and the concrete ledger ----

  /** Every transition the ledger accepts is one the abstract adapter would make, with the same control and state. What
      that means for whole runs of the runtime is in `Stage1Ledger` and `Stage1OnLedgerRuns`. */
  lemma LedgerRefinesAdapter(prev: Payload, next: Payload, op: Operation, claimId: string, r: Stage1Runtime.Remote)
    requires Semantics(prev, next, op, claimId) && ValidState(next.r1)
    requires r.control == prev.control && r.r1 == prev.r1
    ensures match op
      case ClaimInvocation =>
        var out := Stage1Runtime.ClaimInvocation(r, r.head, next.control);
        out.Some? && out.value.control == next.control && out.value.r1 == next.r1
      case PersistR1State =>
        var out := Stage1Runtime.PersistState(r, r.head, claimId, next.r1);
        out.Some? && out.value.control == next.control && out.value.r1 == next.r1
      case ReleaseInvocation =>
        var out := Stage1Runtime.ReleaseInvocation(r, r.head, claimId, next.control);
        out.Some? && out.value.control == next.control && out.value.r1 == next.r1
      case OtherOperation(_) => false
  {
    hide ValidIdentity, ValidState;
  }

  /** The exact boundary: the claim the runtime builds from the reconciled control passes the ledger's
      semantic check exactly when reconciliation had nothing to do. */
  lemma RuntimeClaimAcceptedIff(prev: Payload, next: Payload, claimId: string, now: int)
    requires Reconcile(prev.control, prev.r1).Ok?
    requires ClaimControl(Reconcile(prev.control, prev.r1).value, claimId, now).Ok?
    requires next.control == ClaimControl(Reconcile(prev.control, prev.r1).value, claimId, now).value && next.r1 == prev.r1
    ensures Semantics(prev, next, Operation.ClaimInvocation, claimId) <==> Reconciled(prev.control, prev.r1)
    ensures Reconciled(prev.control, prev.r1) <==> Reconcile(prev.control, prev.r1) == Ok(prev.control)
  {
    hide ValidIdentity, ValidState, ReceiptIds, Reconcile;
    assert ValidControl(prev.control) && ValidState(prev.r1) by { GuardsOfReconcile(prev.control, prev.r1); }
    ReconcileIs(prev.control, prev.r1);
    ReconcileUnchangedIff(prev.control, prev.r1);
    var c := Reconcile(prev.control, prev.r1).value;
    ReconcileNeverTouchesClaim(prev.control, c, ReceiptIds(prev.r1));
  }

  lemma GuardsOfReconcile(c: Control, s: State)
    requires Reconcile(c, s).Ok?
    ensures ValidControl(c) && ValidState(s)
  {
  }

  lemma ReconcileNeverTouchesClaim(c: Control, out: Control, ids: set<string>)
    requires ValidControl(c) && Extends(c, out, ids)
    ensures WithoutClaim(c) == WithoutClaim(out) <==> c == out
  {
    assert c.(claimId := out.claimId, claimExpiresAt := out.claimExpiresAt) == c;
    if WithoutClaim(c) == WithoutClaim(out) {
      assert c == WithoutClaim(c).(claimId := c.claimId, claimExpiresAt := c.claimExpiresAt);
      assert out == WithoutClaim(out).(claimId := c.claimId, claimExpiresAt := c.claimExpiresAt);
    }
  }
}
