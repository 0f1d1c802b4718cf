// Two clients race on one ledger: two tags of one sequence, with different
// terminal counts, in every provisioned ledger whose digests print as hex.
module LedgerExamples {
  import opened Prelude
  import opened R1State
  import opened Stage1Control
  import opened LedgerTags
  import opened Ledger
  import opened LedgerChain
  import opened LedgerAppend
  import opened LedgerRuns
  import opened LedgerSafety
  import opened Traces

  ghost function Stepper(env: Env): (World, Event) -> World {
    (w, e) => Step(env, w, e)
  }

  // ---- The pieces of an append ----

  function LoadEvents(who: string): seq<Event> {
    [ReadMain(who), ReadHead(who), FinishLoad(who)]
  }

  function TagEvents(who: string, req: Request, sha: Sha): seq<Event> {
    [CheckTag(who, req, sha), CheckMain(who), PushJournal(who)]
  }

  function BranchEvents(who: string): seq<Event> {
    [CheckMain(who), PushBranch(who)]
  }

  lemma Loads(env: Env, w: World, who: string)
    requires Held(ClientOf(w, who)).None?
    requires LoadOk(env, w.remote.main, w.remote.branch, w.remote.journal, w.remote.commits)
    ensures After(Stepper(env), w, LoadEvents(who)) == Becomes(w, who, Loaded(w.remote.main, w.remote.branch))
  {
    hide LoadOk, TagCheck, MainCheck, TagPush, BranchPush, After;
    AfterThree(Stepper(env), w, ReadMain(who), ReadHead(who), FinishLoad(who));
    var done := After(Stepper(env), w, LoadEvents(who));
    assert done.clients == w.clients[who := Loaded(w.remote.main, w.remote.branch)];
  }

  // The world after `who` tagged `p` on `head`.
  function TaggedBy(env: Env, w: World, who: string, head: Sha, p: Payload, sha: Sha): World {
    var r := w.remote;
    World(r.(journal := Tagged(env, r.journal, p, sha), commits := Committed(r.commits, head, p, sha)),
          w.clients[who := Journaled(head, sha)])
  }

  lemma Tags(env: Env, w: World, who: string, req: Request, sha: Sha, head: Sha, p: Payload)
    requires ClientOf(w, who) == Loaded(w.remote.main, head) && w.remote.main == env.anchor.identity.canonicalMain
    requires head in w.remote.commits && sha !in w.remote.commits
    requires NewPayload(env, head, w.remote.commits[head].payload, w.remote.main, req) == Some(p)
    requires TagFor(env, p) !in w.remote.journal
    ensures After(Stepper(env), w, TagEvents(who, req, sha)) == TaggedBy(env, w, who, head, p, sha)
  {
    hide NewPayload, TagFor;
    AfterThree(Stepper(env), w, CheckTag(who, req, sha), CheckMain(who), PushJournal(who));
    var main := w.remote.main;
    var seen := Becomes(w, who, MainSeen(main, head, req, sha));
    assert Step(env, Step(env, w, CheckTag(who, req, sha)), CheckMain(who)) == seen by {
      assert w.clients[who := TagFree(main, head, req, sha)][who := MainSeen(main, head, req, sha)] == seen.clients;
    }
    assert seen.clients[who := Journaled(head, sha)] == w.clients[who := Journaled(head, sha)];
  }

  lemma Moves(env: Env, w: World, who: string, head: Sha, sha: Sha)
    requires ClientOf(w, who) == Journaled(head, sha) && w.remote.main == env.anchor.identity.canonicalMain
    ensures After(Stepper(env), w, BranchEvents(who)) ==
      if w.remote.branch == head
      then World(w.remote.(branch := sha, heads := w.remote.heads + [sha]), w.clients[who := Idle])
      else Becomes(w, who, Idle)
  {
    AfterTwo(Stepper(env), w, CheckMain(who), PushBranch(who));
    assert w.clients[who := MainSeenAgain(head, sha)][who := Idle] == w.clients[who := Idle];
  }

  // ---- The race ----

  const A := "a"
  const B := "b"

  // The claim in force on the genesis control, and what one rival writes when it releases it.
  function ClaimedControl(c: Control): Control {
    c.(claimId := Some("i"), claimExpiresAt := Some(0))
  }

  function CountedAndReleased(c: Control): Control {
    c.(counted := ["r"], terminalCount := 1, claimId := None, claimExpiresAt := None)
  }

  function Race(genesis: Payload, s1: Sha, s2: Sha, s3: Sha): seq<Event> {
    LoadEvents(A) + TagEvents(A, ClaimRequest("i", ClaimedControl(genesis.control)), s1) + BranchEvents(A)
    + LoadEvents(A) + LoadEvents(B)
    + TagEvents(A, PersistRequest("i", genesis.r1), s2)
    + TagEvents(B, ReleaseRequest("i", CountedAndReleased(genesis.control)), s3)
    + BranchEvents(A) + BranchEvents(B)
  }

  // Three ids that are in use for nothing.
  predicate FreshIds(commits: map<Sha, Commit>, s1: Sha, s2: Sha, s3: Sha) {
    s1 !in commits && s2 !in commits && s3 !in commits && s1 != s2 && s1 != s3 && s2 != s3
  }

  // A provisioned ledger on the current main, and hexadecimal digests.
  ghost predicate Provisioned(env: Env, w: World) {
    Initial(env, w) && HexDigests(env) && w.remote.main == env.anchor.identity.canonicalMain
  }

  function Genesis(env: Env, w: World): Payload
    requires env.anchor.initialHead in w.remote.commits
  {
    w.remote.commits[env.anchor.initialHead].payload
  }

  // The three payloads are as requested.
  ghost predicate RacePayloads(env: Env, genesis: Payload, s1: Sha, p1: Payload, p2: Payload, p3: Payload) {
    var main := env.anchor.identity.canonicalMain;
    && NewPayload(env, env.anchor.initialHead, genesis, main, ClaimRequest("i", ClaimedControl(genesis.control))) == Some(p1)
    && NewPayload(env, s1, p1, main, PersistRequest("i", genesis.r1)) == Some(p2)
    && NewPayload(env, s1, p1, main, ReleaseRequest("i", CountedAndReleased(genesis.control))) == Some(p3)
    && p1.sequence == 1 && p1.control.terminalCount == 0
    && p2.sequence == 2 && p2.control.terminalCount == 0
    && p3.sequence == 2 && p3.control.terminalCount == 1
  }

  lemma PayloadsOfRace(env: Env, w: World, s1: Sha) returns (p1: Payload, p2: Payload, p3: Payload)
    requires Provisioned(env, w)
    ensures env.anchor.initialHead in w.remote.commits && RacePayloads(env, Genesis(env, w), s1, p1, p2, p3)
  {
    hide NewPayload, ValidState, ValidIdentity, HexDigests, IsHex;
    var main, head, genesis := w.remote.main, env.anchor.initialHead, Genesis(env, w);
    assert genesis.control.counted == [];
    var claim := ClaimRequest("i", ClaimedControl(genesis.control));
    AppendWritesTheRequest(env, head, genesis, main, claim);
    p1 := NewPayload(env, head, genesis, main, claim).value;
    WrittenAuthVerifies(env, head, genesis, main, claim);
    var persist, release := PersistRequest("i", genesis.r1), ReleaseRequest("i", CountedAndReleased(genesis.control));
    AppendWritesTheRequest(env, s1, p1, main, persist);
    AppendWritesTheRequest(env, s1, p1, main, release);
    p2 := NewPayload(env, s1, p1, main, persist).value;
    p3 := NewPayload(env, s1, p1, main, release).value;
  }

  // The tags of the three appends parse to (1, 0), (2, 0) and (2, 1).
  lemma RaceTags(env: Env, genesis: Payload, s1: Sha, p1: Payload, p2: Payload, p3: Payload)
    requires RacePayloads(env, genesis, s1, p1, p2, p3)
    ensures ParseTag(Key(env), TagFor(env, p1)) == Some((1, 0))
    ensures ParseTag(Key(env), TagFor(env, p2)) == Some((2, 0))
    ensures ParseTag(Key(env), TagFor(env, p3)) == Some((2, 1))
  {
    hide NewPayload, ParseTag, PrintTag, Pow10;
    PowerOfField();
    TagRoundTrip(Key(env), 1, 0);
    TagRoundTrip(Key(env), 2, 0);
    TagRoundTrip(Key(env), 2, 1);
  }

  // The remote after the claim.
  function ClaimedRemote(env: Env, r: Remote, p1: Payload, s1: Sha): Remote {
    var t := r.(journal := Tagged(env, r.journal, p1, s1), commits := Committed(r.commits, r.branch, p1, s1));
    t.(branch := s1, heads := t.heads + [s1])
  }

  lemma ClaimRound(env: Env, w: World, s1: Sha, p1: Payload, p2: Payload, p3: Payload)
    requires Provisioned(env, w) && env.anchor.initialHead in w.remote.commits && s1 !in w.remote.commits
    requires RacePayloads(env, Genesis(env, w), s1, p1, p2, p3)
    ensures var claim := ClaimRequest("i", ClaimedControl(Genesis(env, w).control));
      var w' := After(Stepper(env), w, LoadEvents(A) + TagEvents(A, claim, s1) + BranchEvents(A));
      && w'.remote == ClaimedRemote(env, w.remote, p1, s1) && w'.clients == map[A := Idle]
      && LoadOk(env, w'.remote.main, s1, w'.remote.journal, w'.remote.commits)
  {
    hide NewPayload, TagFor, Step, HexDigests, LoadOk, After, LoadEvents, TagEvents, BranchEvents, ParseTag, Pow10, PrintTag;
    var r, claim := w.remote, ClaimRequest("i", ClaimedControl(Genesis(env, w).control));
    GenesisLoads(env, w);
    PowerOfField();
    AppendThenLoad(env, r.main, r.branch, r.journal, r.commits, claim, s1);
    Loads(env, w, A);
    var w1 := Becomes(w, A, Loaded(r.main, r.branch));
    Tags(env, w1, A, claim, s1, r.branch, p1);
    Moves(env, TaggedBy(env, w1, A, r.branch, p1, s1), A, r.branch, s1);
    AfterBoth(Stepper(env), w, LoadEvents(A), TagEvents(A, claim, s1));
    AfterBoth(Stepper(env), w, LoadEvents(A) + TagEvents(A, claim, s1), BranchEvents(A));
  }

  lemma GenesisLoads(env: Env, w: World)
    requires Provisioned(env, w)
    ensures w.remote.branch in w.remote.commits
    ensures LoadOk(env, w.remote.main, w.remote.branch, w.remote.journal, w.remote.commits)
  {
    hide ValidPayload, ValidControl, HexDigests;
    InitialHeadIsGenesis(env, w.remote.commits);
  }

  ghost predicate ClaimLoads(env: Env, r: Remote, s1: Sha, p1: Payload) {
    && r.branch == s1 && s1 in r.commits && r.commits[s1].payload == p1
    && r.main == env.anchor.identity.canonicalMain && LoadOk(env, r.main, s1, r.journal, r.commits)
  }

  // Both clients load the claimed head and tag their own successor of it.
  lemma BothTag(env: Env, w: World, genesis: Payload, s1: Sha, s2: Sha, s3: Sha, p1: Payload, p2: Payload, p3: Payload)
    requires RacePayloads(env, genesis, s1, p1, p2, p3) && w.clients == map[A := Idle]
    requires ClaimLoads(env, w.remote, s1, p1) && s2 !in w.remote.commits && s3 !in w.remote.commits && s2 != s3
    requires TagFor(env, p2) !in w.remote.journal && TagFor(env, p3) !in w.remote.journal && TagFor(env, p2) != TagFor(env, p3)
    ensures var persist, release := PersistRequest("i", genesis.r1), ReleaseRequest("i", CountedAndReleased(genesis.control));
      var w' := After(Stepper(env), w, LoadEvents(A) + LoadEvents(B) + TagEvents(A, persist, s2) + TagEvents(B, release, s3));
      && w'.remote == RacedRemote(env, w.remote, s1, s2, s3, p2, p3)
      && w'.clients == map[A := Journaled(s1, s2), B := Journaled(s1, s3)]
  {
    hide NewPayload, TagFor, Step, LoadOk, After, LoadEvents, TagEvents;
    var r, persist, release := w.remote, PersistRequest("i", genesis.r1), ReleaseRequest("i", CountedAndReleased(genesis.control));
    Loads(env, w, A);
    var w1 := Becomes(w, A, Loaded(r.main, s1));
    Loads(env, w1, B);
    var w2 := Becomes(w1, B, Loaded(r.main, s1));
    Tags(env, w2, A, persist, s2, s1, p2);
    var w3 := TaggedBy(env, w2, A, s1, p2, s2);
    Tags(env, w3, B, release, s3, s1, p3);
    AfterBoth(Stepper(env), w, LoadEvents(A), LoadEvents(B));
    AfterBoth(Stepper(env), w, LoadEvents(A) + LoadEvents(B), TagEvents(A, persist, s2));
    AfterBoth(Stepper(env), w, LoadEvents(A) + LoadEvents(B) + TagEvents(A, persist, s2), TagEvents(B, release, s3));
  }

  // The remote after both tags.
  function RacedRemote(env: Env, r: Remote, s1: Sha, s2: Sha, s3: Sha, p2: Payload, p3: Payload): Remote {
    r.(journal := Tagged(env, Tagged(env, r.journal, p2, s2), p3, s3),
       commits := Committed(Committed(r.commits, s1, p2, s2), s1, p3, s3))
  }

  lemma BothPush(env: Env, w: World, s1: Sha, s2: Sha, s3: Sha)
    requires w.clients == map[A := Journaled(s1, s2), B := Journaled(s1, s3)] && s1 != s2
    requires w.remote.branch == s1 && w.remote.main == env.anchor.identity.canonicalMain
    ensures var w' := After(Stepper(env), w, BranchEvents(A) + BranchEvents(B));
      && w'.remote == w.remote.(branch := s2, heads := w.remote.heads + [s2])
      && w'.clients == map[A := Idle, B := Idle]
  {
    hide Step, After, BranchEvents;
    Moves(env, w, A, s1, s2);
    var w1 := World(w.remote.(branch := s2, heads := w.remote.heads + [s2]), w.clients[A := Idle]);
    Moves(env, w1, B, s1, s3);
    AfterBoth(Stepper(env), w, BranchEvents(A), BranchEvents(B));
  }

  lemma RaceEnds(env: Env, w: World, s1: Sha, s2: Sha, s3: Sha)
    requires Provisioned(env, w) && FreshIds(w.remote.commits, s1, s2, s3) && env.anchor.initialHead in w.remote.commits
    ensures var end := After(Stepper(env), w, Race(Genesis(env, w), s1, s2, s3));
      && (exists ref :: ref in end.remote.journal && ParseTag(Key(env), ref) == Some((2, 0)) && end.remote.journal[ref] == s2)
      && (exists ref :: ref in end.remote.journal && ParseTag(Key(env), ref) == Some((2, 1)) && end.remote.journal[ref] == s3)
      && end.remote.branch == s2 && Orphan(end, s3)
  {
    hide NewPayload, TagFor, Step, HexDigests, LoadOk, After, LoadEvents, TagEvents, BranchEvents, ParseTag, InitialOk;
    var genesis := Genesis(env, w);
    var p1, p2, p3 := PayloadsOfRace(env, w, s1);
    RaceTags(env, genesis, s1, p1, p2, p3);
    ClaimRound(env, w, s1, p1, p2, p3);
    var claim, persist, release := ClaimRequest("i", ClaimedControl(genesis.control)), PersistRequest("i", genesis.r1), ReleaseRequest("i", CountedAndReleased(genesis.control));
    var first := LoadEvents(A) + TagEvents(A, claim, s1) + BranchEvents(A);
    var second := LoadEvents(A) + LoadEvents(B) + TagEvents(A, persist, s2) + TagEvents(B, release, s3);
    var third := BranchEvents(A) + BranchEvents(B);
    var w1 := After(Stepper(env), w, first);
    BothTag(env, w1, genesis, s1, s2, s3, p1, p2, p3);
    var w2 := After(Stepper(env), w1, second);
    BothPush(env, w2, s1, s2, s3);
    AfterBoth(Stepper(env), w, first, second);
    AfterBoth(Stepper(env), w, first + second, third);
    assert Race(genesis, s1, s2, s3) == first + second + third;
    var end := After(Stepper(env), w, first + second + third);
    assert TagFor(env, p2) in end.remote.journal && TagFor(env, p3) in end.remote.journal;
  }

  /** In every provisioned ledger two clients that loaded the same head can both push a tag of its next sequence, for
      their tags differ in the terminal count: both pushes are accepted, one branch push wins, and from then on no
      load succeeds. The ledger's calls take these requests, although the runtime makes no such pair: both are made
      under one claim, and the second counts an id that is no durable receipt. */
  lemma TwoTagsOfOneSequence(env: Env, w: World, s1: Sha, s2: Sha, s3: Sha) returns (events: seq<Event>, worlds: seq<World>, a: string, b: string)
    requires Provisioned(env, w) && FreshIds(w.remote.commits, s1, s2, s3)
    ensures IsRun(env, events, worlds) && worlds[0] == w
    ensures var end := worlds[|events|];
      && a in end.remote.journal && ParseTag(Key(env), a) == Some((2, 0))
      && b in end.remote.journal && ParseTag(Key(env), b) == Some((2, 1))
      && end.remote.branch == end.remote.journal[a] && Unloadable(env, end)
  {
    hide Step, Initial, HexDigests, LoadOk, After, Race, ParseTag, Orphan, Unloadable, WorldInv, InitialOk;
    InGenesis(env, w);
    events := Race(Genesis(env, w), s1, s2, s3);
    worlds := Trace(Stepper(env), w, events);
    forall k | 0 <= k < |events| ensures StepOk(env, events, worlds, k) {
      TraceSteps(Stepper(env), w, events, k);
    }
    TraceEnds(Stepper(env), w, events);
    RaceEnds(env, w, s1, s2, s3);
    RunInv(env, events, worlds, |events|);
    var end := worlds[|events|];
    OrphanMakesUnloadable(env, end, s3);
    a :| a in end.remote.journal && ParseTag(Key(env), a) == Some((2, 0)) && end.remote.journal[a] == s2;
    b :| b in end.remote.journal && ParseTag(Key(env), b) == Some((2, 1)) && end.remote.journal[b] == s3;
  }

  lemma InGenesis(env: Env, w: World)
    requires Provisioned(env, w)
    ensures env.anchor.initialHead in w.remote.commits
  {
    hide HexDigests;
    InitialHeadIsGenesis(env, w.remote.commits);
  }

  // ---- Such a ledger exists ----

  const HEX40: string := Fill(40, 'a')
  const HEX64: string := Fill(64, 'b')
  const IDENTITY: Identity := Identity("act", HEX40, HEX40, RuntimeBranch, HEX40, 0)
  const SOME_ENV: Env := Env(Anchor(IDENTITY, 0, "key"), OneDigest, OneMac, OneKey)

  function OneDigest(core: Core): string {
    HEX64
  }

  function OneMac(m: Message): string {
    HEX64
  }

  function OneKey(id: string): string {
    "0123456789abcdef"
  }

  function FirstWorld(): World {
    World(Remote(HEX40, 0, map[], map[0 := Commit(None, Payload(0, EmptyControl(IDENTITY), EMPTY_STATE, None))], [0]), map[])
  }

  lemma HexText()
    ensures IsHexAnyCase(HEX40, 40) && IsHex(HEX64, 64)
  {
  }

  lemma AProvisionedLedger()
    ensures Provisioned(SOME_ENV, FirstWorld()) && FreshIds(FirstWorld().remote.commits, 1, 2, 3)
  {
    HexText();
    assert ValidIdentity(IDENTITY);
    assert ValidState(EMPTY_STATE);
    assert ValidControl(EmptyControl(IDENTITY));
  }
}
