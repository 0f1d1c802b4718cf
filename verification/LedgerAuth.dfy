// What a load accepts, said without the verifier's own checks: a path of genuine
// transitions from the provisioned head, whose printed tags are exactly the
// journal. From that: nothing is accepted that was never signed, and no field of
// an accepted transition can be exchanged.
module LedgerAuth {
  import opened Prelude
  import opened Ordering
  import opened R1State
  import opened Stage1Control
  import opened LedgerTags
  import opened Ledger
  import opened LedgerChain

  // ---- One genuine transition ----

  ghost predicate SoundControl(c: Control) {
    && c.identity.activationReceiptId != "" && c.identity.runtimeBranch.RuntimeBranch?
    && IsHexAnyCase(c.identity.canonicalMain, 40) && IsHexAnyCase(c.identity.implementationHead, 40)
    && IsHexAnyCase(c.identity.runtimeGenesis, 40)
    && (forall i | 0 <= i < |c.counted| :: c.counted[i] != "")
    && (forall i, j | 0 <= i < |c.counted| && 0 <= j < |c.counted| && c.counted[i] == c.counted[j] :: i == j)
    && c.terminalCount == |c.counted|
    && c.pauseReason != Some(OtherReason(""))
    && (c.claimId == None <==> c.claimExpiresAt == None) && c.claimId != Some("")
  }

  // The eight fields under the MAC: the scheme is carried by the type.
  function SignedMessage(env: Env, p: Payload, previousHead: Sha): Message
    requires p.auth.Some?
  {
    Message(env.anchor.identity.activationReceiptId, env.anchor.writerKeyId, previousHead, p.sequence,
            p.auth.value.operation, p.auth.value.claimId, env.digest(Core(p.sequence, p.control, p.r1)))
  }

  ghost predicate Authentic(env: Env, p: Payload, previousHead: Sha) {
    && p.auth.Some?
    && var a := p.auth.value;
    && a.writerKeyId == env.anchor.writerKeyId && a.writerKeyId != ""
    && a.previousHead == previousHead
    && a.sequence == p.sequence
    && a.operation in {ClaimInvocation, PersistR1State, ReleaseInvocation} && a.claimId != ""
    && a.payloadDigest == env.digest(Core(p.sequence, p.control, p.r1)) && IsHex(a.payloadDigest, 64)
    && a.mac == env.mac(SignedMessage(env, p, previousHead)) && IsHex(a.mac, 64)
  }

  // What each operation may change.
  ghost predicate Legal(p: Payload, q: Payload)
    requires q.auth.Some?
  {
    var a, c, c' := q.auth.value, p.control, q.control;
    && c'.identity == c.identity && c'.terminalCount >= c.terminalCount && (c.paused ==> c'.paused)
    && (exists more :: c'.counted == c.counted + more)
    && (a.operation.ClaimInvocation? ==>
          q.r1 == p.r1 && c'.claimExpiresAt.Some? && c' == c.(claimId := Some(a.claimId), claimExpiresAt := c'.claimExpiresAt))
    && (a.operation.PersistR1State? ==> c' == c && c.claimId == Some(a.claimId))
    && (a.operation.ReleaseInvocation? ==>
          q.r1 == p.r1 && c.claimId == Some(a.claimId) && c'.claimId.None? && c'.claimExpiresAt.None?)
  }

  ghost predicate Forward(env: Env, commits: map<Sha, Commit>, a: Sha, b: Sha, n: nat) {
    && a in commits && b in commits && commits[b].parent == Some(a)
    && var p, q := commits[a].payload, commits[b].payload;
    && 1 <= n <= MAX_SEQUENCE && q.sequence == n
    && q.control.identity == env.anchor.identity && SoundControl(q.control) && ValidState(q.r1)
    && Authentic(env, q, a)
    && Legal(p, q)
  }

  lemma ControlIff(c: Control)
    ensures ValidControl(c) <==> SoundControl(c)
  {
    if ValidControl(c) {
      forall i | 0 <= i < |c.counted| ensures c.counted[i] != "" {
        assert c.counted[i] in c.counted;
      }
    }
  }

  lemma AuthenticIff(env: Env, p: Payload, previousHead: Sha, n: nat)
    requires n > 0 && p.sequence == n
    ensures AuthVerifies(env, p, previousHead, n) <==> ValidPayload(p) && Authentic(env, p, previousHead)
  {
    hide ValidControl, ValidState, IsHex;
  }

  lemma LegalIff(p: Payload, q: Payload)
    requires q.auth.Some? && ValidControl(p.control) && ValidControl(q.control)
    ensures Semantics(p, q, q.auth.value.operation, q.auth.value.claimId) <==>
            Legal(p, q) && !q.auth.value.operation.OtherOperation?
  {
    hide ValidControl, ValidState;
    var c, c' := p.control, q.control;
    if c.counted <= c'.counted {
      assert c'.counted == c.counted + c'.counted[|c.counted|..];
    }
    SameButClaim(c, c');
  }

  lemma SameButClaim(c: Control, c': Control)
    ensures WithoutClaim(c) == WithoutClaim(c') <==> c' == c.(claimId := c'.claimId, claimExpiresAt := c'.claimExpiresAt)
  {
    if WithoutClaim(c) == WithoutClaim(c') {
      assert WithoutClaim(c).(claimId := c'.claimId, claimExpiresAt := c'.claimExpiresAt)
          == WithoutClaim(c').(claimId := c'.claimId, claimExpiresAt := c'.claimExpiresAt);
    }
  }

  // One accepted link is one genuine transition under its tag's numbers.
  lemma LinkIff(env: Env, commits: map<Sha, Commit>, a: Sha, e: Entry, n: nat)
    requires a in commits && ValidControl(commits[a].payload.control) && n > 0
    ensures LinkOk(env, commits, a, e, n) <==>
            Forward(env, commits, a, e.sha, n) && e.terminal == commits[e.sha].payload.control.terminalCount
  {
    hide SoundControl, ValidControl, ValidState, Authentic, Legal, IsHex, Semantics;
    if e.sha in commits {
      var p, q := commits[a].payload, commits[e.sha].payload;
      ControlIff(q.control);
      if q.sequence == n && ValidControl(q.control) {
        AuthenticIff(env, q, a, n);
        ShapeOfAuthentic(env, q, a);
        if q.auth.Some? {
          LegalIff(p, q);
        }
      }
    }
  }

  lemma ShapeOfAuthentic(env: Env, p: Payload, a: Sha)
    ensures Authentic(env, p, a) && p.sequence > 0 ==> AuthShape(p.auth, p.sequence)
    ensures Authentic(env, p, a) ==> p.auth.Some? && !p.auth.value.operation.OtherOperation?
  {
  }

  // ---- A load ----

  ghost predicate Genesis(env: Env, commits: map<Sha, Commit>, head: Sha) {
    && head == env.anchor.initialHead && head in commits
    && var p := commits[head].payload;
    && p.sequence == 0 && p.auth.None? && p.control.identity == env.anchor.identity
    && SoundControl(p.control) && ValidState(p.r1)
  }

  ghost predicate StepAt(env: Env, commits: map<Sha, Commit>, heads: seq<Sha>, i: nat)
    requires 0 < i < |heads|
  {
    Forward(env, commits, heads[i - 1], heads[i], i)
  }

  ghost predicate Path(env: Env, commits: map<Sha, Commit>, head: Sha, heads: seq<Sha>) {
    && heads != [] && heads[|heads| - 1] == head
    && Genesis(env, commits, heads[0])
    && forall i {:trigger StepAt(env, commits, heads, i)} | 0 < i < |heads| :: StepAt(env, commits, heads, i)
  }

  function TagOf(env: Env, commits: map<Sha, Commit>, heads: seq<Sha>, i: nat): string
    requires i < |heads| && heads[i] in commits
  {
    PrintTag(Key(env), i, commits[heads[i]].payload.control.terminalCount)
  }

  ghost predicate TaggedAt(env: Env, commits: map<Sha, Commit>, journal: map<string, Sha>, heads: seq<Sha>, i: nat)
    requires i < |heads|
  {
    && heads[i] in commits && commits[heads[i]].payload.control.terminalCount < Pow10(FIELD)
    && TagOf(env, commits, heads, i) in journal && journal[TagOf(env, commits, heads, i)] == heads[i]
  }

  ghost predicate TagsOneOf(env: Env, commits: map<Sha, Commit>, heads: seq<Sha>, ref: string) {
    exists i :: 0 < i < |heads| && heads[i] in commits && ref == TagOf(env, commits, heads, i)
  }

  // The tags are those of the path after its start, and no other.
  ghost predicate Tags(env: Env, commits: map<Sha, Commit>, journal: map<string, Sha>, heads: seq<Sha>) {
    && (forall i {:trigger TaggedAt(env, commits, journal, heads, i)} | 0 < i < |heads| :: TaggedAt(env, commits, journal, heads, i))
    && (forall ref {:trigger ref in journal} | ref in journal :: TagsOneOf(env, commits, heads, ref))
  }

  ghost predicate LoadsAlong(env: Env, main: string, head: Sha, journal: map<string, Sha>, commits: map<Sha, Commit>, heads: seq<Sha>) {
    && main == env.anchor.identity.canonicalMain
    && Path(env, commits, head, heads) && Tags(env, commits, journal, heads)
    && (|heads| == 1 ==> commits[head].payload.control.terminalCount == 0)
  }

  lemma GenesisIff(env: Env, commits: map<Sha, Commit>)
    ensures InitialOk(env, commits) <==> Genesis(env, commits, env.anchor.initialHead)
  {
    hide SoundControl, ValidControl, ValidState;
    if env.anchor.initialHead in commits {
      ControlIff(commits[env.anchor.initialHead].payload.control);
    }
  }

  // The heads an accepted chain goes through.
  function HeadsOf(env: Env, entries: seq<Entry>): (heads: seq<Sha>)
    ensures |heads| == |entries| + 1 && forall i | 0 <= i < |heads| :: heads[i] == HeadBefore(env, entries, i)
  {
    seq(|entries| + 1, i requires 0 <= i <= |entries| => HeadBefore(env, entries, i))
  }

  lemma ControlBefore(env: Env, commits: map<Sha, Commit>, entries: seq<Entry>, i: nat)
    requires ChainOk(env, commits, entries) && i <= |entries|
    ensures HeadBefore(env, entries, i) in commits
    ensures ValidPayload(PayloadBefore(env, commits, entries, i))
    ensures PayloadBefore(env, commits, entries, i).sequence == i
  {
    hide ValidControl, ValidState, Semantics;
    HeadsKnown(env, commits, entries, i);
    if i > 0 {
      assert LinkAt(env, commits, entries, i - 1);
    }
  }

  lemma ChainIsPath(env: Env, commits: map<Sha, Commit>, entries: seq<Entry>)
    requires ChainOk(env, commits, entries)
    ensures Path(env, commits, HeadBefore(env, entries, |entries|), HeadsOf(env, entries))
  {
    hide LinkOk, Forward, ValidControl, ValidState;
    GenesisIff(env, commits);
    var heads := HeadsOf(env, entries);
    forall i | 0 < i < |heads| ensures StepAt(env, commits, heads, i) {
      assert LinkAt(env, commits, entries, i - 1);
      ControlBefore(env, commits, entries, i - 1);
      LinkIff(env, commits, heads[i - 1], entries[i - 1], i);
    }
  }

  lemma TerminalOf(env: Env, commits: map<Sha, Commit>, entries: seq<Entry>, i: nat)
    requires ChainOk(env, commits, entries) && 0 < i <= |entries|
    ensures HeadBefore(env, entries, i) in commits
    ensures entries[i - 1].terminal == PayloadBefore(env, commits, entries, i).control.terminalCount
  {
    assert LinkAt(env, commits, entries, i - 1);
  }

  lemma JournalIsTags(env: Env, commits: map<Sha, Commit>, journal: map<string, Sha>, entries: seq<Entry>)
    requires ChainOk(env, commits, entries) && JournalIs(Key(env), journal, entries)
    ensures Tags(env, commits, journal, HeadsOf(env, entries))
  {
    hide ChainOk, ParseTag, PrintTag, Pow10;
    var heads, key := HeadsOf(env, entries), Key(env);
    forall i | 0 < i < |heads| ensures TaggedAt(env, commits, journal, heads, i) {
      var e := entries[i - 1];
      TerminalOf(env, commits, entries, i);
      assert EntryListed(key, journal, e) && e.sequence == i;
      var ref :| ref in journal && ParseTag(key, ref) == Some((e.sequence, e.terminal)) && journal[ref] == e.sha;
      ParsedTagWasPrinted(key, ref);
    }
    forall ref | ref in journal ensures TagsOneOf(env, commits, heads, ref) {
      assert RefEntered(key, journal, entries, ref);
      var i := ParseTag(key, ref).value.0;
      TerminalOf(env, commits, entries, i);
      ParsedTagWasPrinted(key, ref);
      assert ref == TagOf(env, commits, heads, i);
    }
  }

  // The entries of a tagged path.
  function EntriesOf(commits: map<Sha, Commit>, heads: seq<Sha>): (entries: seq<Entry>)
    requires heads != [] && forall i | 0 < i < |heads| :: heads[i] in commits
    ensures |entries| == |heads| - 1
    ensures forall i | 0 <= i < |entries| ::
      entries[i] == Entry(i + 1, commits[heads[i + 1]].payload.control.terminalCount, heads[i + 1])
  {
    seq(|heads| - 1, i requires 0 <= i < |heads| - 1 =>
      Entry(i + 1, commits[heads[i + 1]].payload.control.terminalCount, heads[i + 1]))
  }

  lemma OnPath(env: Env, commits: map<Sha, Commit>, head: Sha, heads: seq<Sha>, i: nat)
    requires Path(env, commits, head, heads) && i < |heads|
    ensures heads[i] in commits && ValidPayload(commits[heads[i]].payload) && commits[heads[i]].payload.sequence == i
    ensures commits[heads[i]].payload.control.identity == env.anchor.identity
    ensures i <= MAX_SEQUENCE
  {
    hide SoundControl, ValidControl, ValidState, IsHex, Legal;
    if i > 0 {
      assert StepAt(env, commits, heads, i);
      ShapeOfAuthentic(env, commits[heads[i]].payload, heads[i - 1]);
    }
    ControlIff(commits[heads[i]].payload.control);
  }

  lemma PathIsChain(env: Env, commits: map<Sha, Commit>, head: Sha, heads: seq<Sha>)
    requires Path(env, commits, head, heads)
    ensures forall i | 0 <= i < |heads| :: heads[i] in commits
    ensures ChainOk(env, commits, EntriesOf(commits, heads))
    ensures HeadBefore(env, EntriesOf(commits, heads), |heads| - 1) == head
  {
    hide LinkOk, Forward, ValidPayload;
    forall i | 0 <= i < |heads| ensures heads[i] in commits {
      OnPath(env, commits, head, heads, i);
    }
    var entries := EntriesOf(commits, heads);
    GenesisIff(env, commits);
    forall i | 0 <= i < |entries| ensures LinkAt(env, commits, entries, i) {
      assert StepAt(env, commits, heads, i + 1);
      OnPath(env, commits, head, heads, i);
      assert HeadBefore(env, entries, i) == heads[i];
      ValidOf(commits[heads[i]].payload);
      LinkIff(env, commits, heads[i], entries[i], i + 1);
    }
  }

  lemma ValidOf(p: Payload)
    requires ValidPayload(p)
    ensures ValidControl(p.control)
  {
  }

  lemma TagsParse(env: Env, commits: map<Sha, Commit>, journal: map<string, Sha>, heads: seq<Sha>, head: Sha, i: nat)
    requires Path(env, commits, head, heads) && Tags(env, commits, journal, heads) && 0 < i < |heads|
    ensures TaggedAt(env, commits, journal, heads, i)
    ensures ParseTag(Key(env), TagOf(env, commits, heads, i)) == Some((i, commits[heads[i]].payload.control.terminalCount))
  {
    hide ParseTag, PrintTag, Pow10, Path;
    assert TaggedAt(env, commits, journal, heads, i);
    OnPath(env, commits, head, heads, i);
    TagRoundTrip(Key(env), i, commits[heads[i]].payload.control.terminalCount);
  }

  lemma TagsAreJournal(env: Env, commits: map<Sha, Commit>, head: Sha, journal: map<string, Sha>, heads: seq<Sha>)
    requires Path(env, commits, head, heads) && Tags(env, commits, journal, heads)
    requires heads != [] && forall i | 0 <= i < |heads| :: heads[i] in commits
    ensures JournalIs(Key(env), journal, EntriesOf(commits, heads))
  {
    hide ParseTag, PrintTag, Pow10, Path;
    var key, entries := Key(env), EntriesOf(commits, heads);
    forall ref | ref in journal
      ensures ParseTag(key, ref).Some? && EntryFor(key, journal, ref) in entries
    {
      assert TagsOneOf(env, commits, heads, ref);
      var i :| 0 < i < |heads| && heads[i] in commits && ref == TagOf(env, commits, heads, i);
      TagsParse(env, commits, journal, heads, head, i);
      assert EntryFor(key, journal, ref) == entries[i - 1];
    }
    forall e | e in entries ensures e in EntrySet(key, journal) {
      var j :| 0 <= j < |entries| && entries[j] == e;
      TagsParse(env, commits, journal, heads, head, j + 1);
      var ref := TagOf(env, commits, heads, j + 1);
      assert EntryFor(key, journal, ref) == e;
    }
    SortedIsJournal(key, journal, entries);
  }

  lemma LoadGoesAlong(env: Env, main: string, head: Sha, journal: map<string, Sha>, commits: map<Sha, Commit>) returns (heads: seq<Sha>)
    requires LoadOk(env, main, head, journal, commits)
    ensures LoadsAlong(env, main, head, journal, commits, heads)
  {
    hide ParseTag, Semantics, AuthVerifies, ValidControl, ValidState, SoundControl;
    if commits[head].payload.sequence == 0 {
      heads := [head];
      ControlIff(commits[head].payload.control);
    } else {
      hide *;
      heads := ReplayGoesAlong(env, main, head, journal, commits);
    }
  }

  lemma ReplayGoesAlong(env: Env, main: string, head: Sha, journal: map<string, Sha>, commits: map<Sha, Commit>) returns (heads: seq<Sha>)
    requires LoadOk(env, main, head, journal, commits) && commits[head].payload.sequence > 0
    ensures LoadsAlong(env, main, head, journal, commits, heads)
  {
    hide ParseTag, JournalIs, ChainOk, Path, Tags, ValidPayload;
    var entries :| Replays(env, commits, journal, head, entries);
    heads := HeadsOf(env, entries);
    ChainIsPath(env, commits, entries);
    JournalIsTags(env, commits, journal, entries);
  }

  lemma AlongLoads(env: Env, main: string, head: Sha, journal: map<string, Sha>, commits: map<Sha, Commit>, heads: seq<Sha>)
    requires LoadsAlong(env, main, head, journal, commits, heads)
    ensures LoadOk(env, main, head, journal, commits)
  {
    hide ParseTag, JournalIs, ChainOk, Path, TagsOneOf, ValidPayload, Genesis;
    var n := |heads| - 1;
    PathStarts(env, commits, head, heads);
    OnPath(env, commits, head, heads, n);
    PathIsChain(env, commits, head, heads);
    TagsAreJournal(env, commits, head, journal, heads);
    ValidOf(commits[head].payload);
    var entries := EntriesOf(commits, heads);
    if n == 0 {
      NoTagsNoJournal(env, commits, journal, heads);
    } else {
      HighWaterIsTheHead(env, commits, entries);
      assert Replays(env, commits, journal, head, entries);
    }
  }

  lemma PathStarts(env: Env, commits: map<Sha, Commit>, head: Sha, heads: seq<Sha>)
    requires Path(env, commits, head, heads)
    ensures heads != [] && heads[|heads| - 1] == head && heads[0] == env.anchor.initialHead
    ensures heads[0] in commits && commits[heads[0]].payload.auth.None?
  {
  }

  lemma NoTagsNoJournal(env: Env, commits: map<Sha, Commit>, journal: map<string, Sha>, heads: seq<Sha>)
    requires Tags(env, commits, journal, heads) && |heads| == 1
    ensures journal == map[]
  {
    forall ref ensures ref !in journal {
      assert !TagsOneOf(env, commits, heads, ref);
    }
    assert journal.Keys == {};
  }

  /** A load succeeds exactly when the journal holds the printed tags of one path of genuine transitions from the
      provisioned head to the loaded one: each commit a child of the one before, with the next number, the anchored
      identity, the writer's key, digest and MAC over exactly these fields, and a change its operation allows. */
  lemma LoadsIff(env: Env, main: string, head: Sha, journal: map<string, Sha>, commits: map<Sha, Commit>)
    ensures LoadOk(env, main, head, journal, commits) <==> exists heads :: LoadsAlong(env, main, head, journal, commits, heads)
  {
    hide LoadOk, LoadsAlong;
    if LoadOk(env, main, head, journal, commits) {
      var heads := LoadGoesAlong(env, main, head, journal, commits);
    }
    if exists heads :: LoadsAlong(env, main, head, journal, commits, heads) {
      var heads :| LoadsAlong(env, main, head, journal, commits, heads);
      AlongLoads(env, main, head, journal, commits, heads);
    }
  }

  // ---- What cannot be exchanged ----

  // The heads of a path are the head's ancestors, so there is one path.
  lemma {:induction false} PathUnique(env: Env, commits: map<Sha, Commit>, head: Sha, a: seq<Sha>, b: seq<Sha>, i: nat)
    requires Path(env, commits, head, a) && Path(env, commits, head, b) && |a| == |b| && i < |a|
    ensures a[i] == b[i]
    decreases |a| - i
  {
    hide SoundControl, ValidState, Authentic, Legal;
    if i < |a| - 1 {
      PathUnique(env, commits, head, a, b, i + 1);
      assert StepAt(env, commits, a, i + 1) && StepAt(env, commits, b, i + 1);
    }
  }

  // Every journaled commit and its place on the path.
  lemma JournaledOnPath(env: Env, main: string, head: Sha, journal: map<string, Sha>, commits: map<Sha, Commit>, heads: seq<Sha>, ref: string)
    returns (i: nat)
    requires LoadsAlong(env, main, head, journal, commits, heads) && ref in journal
    ensures 0 < i < |heads| && heads[i] == journal[ref] && Forward(env, commits, heads[i - 1], heads[i], i)
    ensures ref == TagOf(env, commits, heads, i)
  {
    hide Forward, Genesis, PrintTag, Pow10;
    assert TagsOneOf(env, commits, heads, ref);
    i :| 0 < i < |heads| && heads[i] in commits && ref == TagOf(env, commits, heads, i);
    assert StepAt(env, commits, heads, i) && TaggedAt(env, commits, journal, heads, i);
  }

  ghost predicate AuthenticChild(env: Env, commits: map<Sha, Commit>, sha: Sha) {
    && sha in commits && commits[sha].parent.Some?
    && Authentic(env, commits[sha].payload, commits[sha].parent.value)
  }

  // No value of the MAC is to be had for a message outside `signed`.
  ghost predicate NothingForged(env: Env, commits: map<Sha, Commit>, signed: iset<Message>) {
    forall sha, m {:trigger commits[sha], env.mac(m)} ::
      sha in commits && commits[sha].payload.auth.Some? && m !in signed ==> commits[sha].payload.auth.value.mac != env.mac(m)
  }

  /** Nothing loads that was not signed: if no stored MAC belongs to a message outside `signed`, then the message of every
      journaled transition - the activation, the writer key, the parent commit, the number, the operation, the claim and
      the digest of exactly this number, control and state - is in `signed`. */
  lemma AcceptedMeansSigned(env: Env, main: string, head: Sha, journal: map<string, Sha>, commits: map<Sha, Commit>,
                            signed: iset<Message>, ref: string)
    requires LoadOk(env, main, head, journal, commits) && NothingForged(env, commits, signed) && ref in journal
    ensures AuthenticChild(env, commits, journal[ref])
    ensures var c := commits[journal[ref]]; SignedMessage(env, c.payload, c.parent.value) in signed
  {
    hide LoadOk, LoadsAlong, Legal, SoundControl, ValidState;
    var heads := LoadGoesAlong(env, main, head, journal, commits);
    var i := JournaledOnPath(env, main, head, journal, commits, heads, ref);
    var m := SignedMessage(env, commits[heads[i]].payload, heads[i - 1]);
    assert commits[heads[i]].payload.auth.value.mac == env.mac(m);
  }

  // The authentication of a journaled commit replaced by another one.
  function WithAuth(commits: map<Sha, Commit>, sha: Sha, a: Option<Auth>): map<Sha, Commit>
    requires sha in commits
  {
    commits[sha := commits[sha].(payload := commits[sha].payload.(auth := a))]
  }

  lemma JournaledIsAuthentic(env: Env, main: string, head: Sha, journal: map<string, Sha>, commits: map<Sha, Commit>, ref: string)
    requires LoadOk(env, main, head, journal, commits) && ref in journal
    ensures AuthenticChild(env, commits, journal[ref])
  {
    hide LoadOk, LoadsAlong, Legal, SoundControl, ValidState, Authentic;
    var heads := LoadGoesAlong(env, main, head, journal, commits);
    var i := JournaledOnPath(env, main, head, journal, commits, heads, ref);
  }

  lemma AuthIsDetermined(env: Env, p: Payload, a: Option<Auth>, previousHead: Sha)
    requires Authentic(env, p, previousHead) && Authentic(env, p.(auth := a), previousHead)
    ensures a.Some? && p.auth.Some?
    ensures a == p.auth <==> a.value.operation == p.auth.value.operation && a.value.claimId == p.auth.value.claimId
    ensures a == Some(p.auth.value.(operation := a.value.operation, claimId := a.value.claimId, mac := a.value.mac))
    ensures a.value.mac == env.mac(SignedMessage(env, p.(auth := a), previousHead))
    ensures p.auth.value.mac == env.mac(SignedMessage(env, p, previousHead))
  {
  }

  /** Exchanging anything in the authentication of a journaled transition makes the load fail, unless operation or claim
      is exchanged together with the MAC of that other message: the writer key, the parent, the number and the digest have
      one acceptable value each, and so has the MAC. */
  lemma ExchangedAuthNeedsItsMac(env: Env, main: string, head: Sha, journal: map<string, Sha>, commits: map<Sha, Commit>,
                                 ref: string, other: Option<Auth>)
    requires LoadOk(env, main, head, journal, commits)
    requires ref in journal && journal[ref] in commits && other != commits[journal[ref]].payload.auth
    requires LoadOk(env, main, head, journal, WithAuth(commits, journal[ref], other))
    ensures other.Some? && commits[journal[ref]].payload.auth.Some? && commits[journal[ref]].parent.Some?
    ensures var c := commits[journal[ref]]; var a, b := c.payload.auth.value, other.value;
      && (b.operation != a.operation || b.claimId != a.claimId)
      && b == a.(operation := b.operation, claimId := b.claimId, mac := b.mac)
      && b.mac == env.mac(SignedMessage(env, c.payload.(auth := other), c.parent.value))
      && SignedMessage(env, c.payload.(auth := other), c.parent.value) != SignedMessage(env, c.payload, c.parent.value)
  {
    hide LoadOk, Authentic;
    var sha := journal[ref];
    var commits' := WithAuth(commits, sha, other);
    JournaledIsAuthentic(env, main, head, journal, commits, ref);
    JournaledIsAuthentic(env, main, head, journal, commits', ref);
    AuthIsDetermined(env, commits[sha].payload, other, commits[sha].parent.value);
  }

  // The whole payload of a commit replaced.
  function WithPayload(commits: map<Sha, Commit>, sha: Sha, p: Payload): map<Sha, Commit>
    requires sha in commits
  {
    commits[sha := commits[sha].(payload := p)]
  }

  /** Nor can the control or the state be exchanged under the old authentication: that takes a second content with the
      same digest. */
  lemma ExchangedContentNeedsACollision(env: Env, main: string, head: Sha, journal: map<string, Sha>, commits: map<Sha, Commit>,
                                   ref: string, other: Payload)
    requires LoadOk(env, main, head, journal, commits)
    requires ref in journal && journal[ref] in commits
    requires other.auth == commits[journal[ref]].payload.auth && other != commits[journal[ref]].payload
    requires LoadOk(env, main, head, journal, WithPayload(commits, journal[ref], other))
    ensures var p := commits[journal[ref]].payload;
      CoreOf(other) != CoreOf(p) && env.digest(CoreOf(other)) == env.digest(CoreOf(p))
  {
    hide LoadOk, IsHex;
    var sha := journal[ref];
    var commits' := WithPayload(commits, sha, other);
    JournaledIsAuthentic(env, main, head, journal, commits, ref);
    JournaledIsAuthentic(env, main, head, journal, commits', ref);
    assert commits'[sha].payload == other;
  }
}
