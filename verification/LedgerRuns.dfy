// The journal-first protocol over whole runs: any number of clients, each step
// atomic, a crash possible between any two of them, and main free to move.
module LedgerRuns {
  import opened Prelude
  import opened Ordering
  import opened R1State
  import opened Stage1Control
  import opened LedgerTags
  import opened Ledger
  import opened LedgerChain
  import opened LedgerAppend

  // `heads` is every value the branch has had, oldest first; no client reads it.
  datatype Remote = Remote(main: string, branch: Sha, journal: map<string, Sha>, commits: map<Sha, Commit>, heads: seq<Sha>)

  // A client between two remote operations of `_load_internal` and `_claim_journal_then_branch`.
  datatype Client =
    | Idle
    | SawMain(main: string)
    | SawHead(main: string, head: Sha)
    | Loaded(main: string, head: Sha)
    | TagFree(main: string, head: Sha, req: Request, sha: Sha)
    | MainSeen(main: string, head: Sha, req: Request, sha: Sha)
    | Journaled(head: Sha, sha: Sha)
    | MainSeenAgain(head: Sha, sha: Sha)

  datatype World = World(remote: Remote, clients: map<string, Client>)

  datatype Event =
    | ReadMain(who: string)
    | ReadHead(who: string)
    | FinishLoad(who: string)
    | CheckTag(who: string, req: Request, sha: Sha)
    | CheckMain(who: string)
    | PushJournal(who: string)
    | PushBranch(who: string)
    | Crash(who: string)
    | MoveMain(main: string)

  function ClientOf(w: World, who: string): Client {
    if who in w.clients then w.clients[who] else Idle
  }

  function Becomes(w: World, who: string, c: Client): World {
    w.(clients := w.clients[who := c])
  }

  // The tagged commit a client is about to move the branch to.
  function Held(c: Client): Option<Sha> {
    if c.Journaled? || c.MainSeenAgain? then Some(c.sha) else None
  }

  // The payload a client writes on the head it loaded.
  function Written(env: Env, r: Remote, c: Client): Option<Payload>
    requires c.TagFree? || c.MainSeen?
  {
    if c.head !in r.commits then None else NewPayload(env, c.head, r.commits[c.head].payload, c.main, c.req)
  }

  // The commit is built, then its tag is looked up: an existing one ends the append.
  function TagCheck(env: Env, w: World, who: string, req: Request, sha: Sha): World {
    var c := ClientOf(w, who);
    if !c.Loaded? then w
    else
      var c' := TagFree(c.main, c.head, req, sha);
      var p := Written(env, w.remote, c');
      Becomes(w, who, if p.None? || TagFor(env, p.value) in w.remote.journal then Idle else c')
  }

  // `_assert_main_unchanged`, before either push.
  function MainCheck(env: Env, w: World, who: string): World {
    var c, same := ClientOf(w, who), w.remote.main == env.anchor.identity.canonicalMain;
    match c
    case TagFree(main, head, req, sha) => Becomes(w, who, if same then MainSeen(main, head, req, sha) else Idle)
    case Journaled(head, sha) => Becomes(w, who, if same then MainSeenAgain(head, sha) else Idle)
    case _ => w
  }

  // The tag push: refused when the tag exists by now. An id in use names the same commit.
  function TagPush(env: Env, w: World, who: string): World {
    var r, c := w.remote, ClientOf(w, who);
    if !c.MainSeen? then w
    else
      var p := Written(env, r, c);
      if p.None? || !ContentAddressed(r.commits, c.head, p.value, c.sha) || TagFor(env, p.value) in r.journal
      then Becomes(w, who, Idle)
      else
        World(r.(journal := Tagged(env, r.journal, p.value, c.sha), commits := Committed(r.commits, c.head, p.value, c.sha)),
              w.clients[who := Journaled(c.head, c.sha)])
  }

  // The branch push: compare-and-swap against the head that was loaded.
  function BranchPush(env: Env, w: World, who: string): World {
    var r, c := w.remote, ClientOf(w, who);
    if !c.MainSeenAgain? then w
    else if r.branch != c.head then Becomes(w, who, Idle)
    else World(r.(branch := c.sha, heads := r.heads + [c.sha]), w.clients[who := Idle])
  }

  ghost function Step(env: Env, w: World, e: Event): World {
    match e
    case ReadMain(who) => if Held(ClientOf(w, who)).Some? then w else Becomes(w, who, SawMain(w.remote.main))
    case ReadHead(who) =>
      var c := ClientOf(w, who);
      if c.SawMain? then Becomes(w, who, SawHead(c.main, w.remote.branch)) else w
    case FinishLoad(who) =>
      var c := ClientOf(w, who);
      if !c.SawHead? then w
      else if LoadOk(env, c.main, c.head, w.remote.journal, w.remote.commits) then Becomes(w, who, Loaded(c.main, c.head))
      else Becomes(w, who, Idle)
    case CheckTag(who, req, sha) => TagCheck(env, w, who, req, sha)
    case CheckMain(who) => MainCheck(env, w, who)
    case PushJournal(who) => TagPush(env, w, who)
    case PushBranch(who) => BranchPush(env, w, who)
    case Crash(who) => Becomes(w, who, Idle)
    case MoveMain(main) => w.(remote := w.remote.(main := main))
  }

  // A provisioned ledger: the branch at the initial head, and an empty journal.
  ghost predicate Initial(env: Env, w: World) {
    && InitialOk(env, w.remote.commits)
    && w.remote.commits[env.anchor.initialHead].payload.control.terminalCount == 0
    && w.remote.branch == env.anchor.initialHead && w.remote.heads == [env.anchor.initialHead]
    && w.remote.journal == map[] && w.clients == map[]
  }

  ghost predicate StepOk(env: Env, events: seq<Event>, worlds: seq<World>, k: nat)
    requires k < |events| == |worlds| - 1
  {
    worlds[k + 1] == Step(env, worlds[k], events[k])
  }

  ghost predicate IsRun(env: Env, events: seq<Event>, worlds: seq<World>) {
    && |events| == |worlds| - 1
    && Initial(env, worlds[0])
    && forall k {:trigger StepOk(env, events, worlds, k)} | 0 <= k < |events| :: StepOk(env, events, worlds, k)
  }

  // ---- What every step keeps ----

  // A commit written on `base` passes one round of the replay.
  ghost predicate WrittenOn(env: Env, commits: map<Sha, Commit>, base: Sha, sha: Sha) {
    && base in commits && sha in commits
    && var p := commits[sha].payload;
    LinkOk(env, commits, base, Entry(p.sequence, p.control.terminalCount, sha), commits[base].payload.sequence + 1)
  }

  ghost predicate TagTo(env: Env, r: Remote, sha: Sha) {
    sha in r.commits && var tag := TagFor(env, r.commits[sha].payload); tag in r.journal && r.journal[tag] == sha
  }

  ghost predicate HeadOk(env: Env, r: Remote, i: nat)
    requires i < |r.heads|
  {
    && r.heads[i] in r.commits && r.commits[r.heads[i]].payload.sequence == i
    && (i == 0 ==> r.heads[i] == env.anchor.initialHead)
    && (i > 0 ==> TagTo(env, r, r.heads[i]) && WrittenOn(env, r.commits, r.heads[i - 1], r.heads[i]))
  }

  ghost predicate TargetOk(env: Env, r: Remote, ref: string)
    requires ref in r.journal
  {
    var sha := r.journal[ref];
    && TagTo(env, r, sha) && ref == TagFor(env, r.commits[sha].payload)
    && ValidPayload(r.commits[sha].payload) && r.commits[sha].payload.sequence > 0
  }

  ghost predicate RemoteInv(env: Env, r: Remote) {
    && InitialOk(env, r.commits)
    && r.commits[env.anchor.initialHead].payload.control.terminalCount == 0
    && |r.heads| > 0 && r.branch == r.heads[|r.heads| - 1]
    && (forall i {:trigger HeadOk(env, r, i)} | 0 <= i < |r.heads| :: HeadOk(env, r, i))
    && (forall ref {:trigger TargetOk(env, r, ref)} | ref in r.journal :: TargetOk(env, r, ref))
  }

  ghost predicate HeldOk(env: Env, r: Remote, head: Sha, sha: Sha) {
    head in r.heads && sha !in r.heads && TagTo(env, r, sha) && WrittenOn(env, r.commits, head, sha)
  }

  ghost predicate ClientOk(env: Env, r: Remote, c: Client) {
    match c
    case SawHead(_, head) => head in r.heads
    case Loaded(_, head) => head in r.heads
    case TagFree(_, head, _, _) => head in r.heads
    case MainSeen(_, head, _, _) => head in r.heads
    case Journaled(head, sha) => HeldOk(env, r, head, sha)
    case MainSeenAgain(head, sha) => HeldOk(env, r, head, sha)
    case _ => true
  }

  // No two clients hold the same tagged commit.
  ghost predicate OneHolder(w: World, a: string, b: string) {
    a != b && Held(ClientOf(w, a)).Some? ==> Held(ClientOf(w, a)) != Held(ClientOf(w, b))
  }

  ghost predicate WorldInv(env: Env, w: World) {
    && RemoteInv(env, w.remote)
    && (forall who {:trigger ClientOf(w, who)} :: ClientOk(env, w.remote, ClientOf(w, who)))
    && (forall a, b {:trigger OneHolder(w, a, b)} :: OneHolder(w, a, b))
  }

  lemma WrittenStays(env: Env, commits: map<Sha, Commit>, commits': map<Sha, Commit>, base: Sha, sha: Sha)
    requires WrittenOn(env, commits, base, sha)
    requires forall h | h in commits :: h in commits' && commits'[h] == commits[h]
    ensures WrittenOn(env, commits', base, sha)
  {
    hide Semantics, AuthVerifies, AnchorOk;
  }

  lemma InitialKeeps(env: Env, w: World)
    requires Initial(env, w)
    ensures WorldInv(env, w)
  {
    hide InitialOk;
    assert w.remote.commits[env.anchor.initialHead].payload.sequence == 0 by { InitialHeadIsGenesis(env, w.remote.commits); }
    assert env.anchor.initialHead in w.remote.commits by { InitialHeadIsGenesis(env, w.remote.commits); }
  }

  lemma InitialHeadIsGenesis(env: Env, commits: map<Sha, Commit>)
    requires InitialOk(env, commits)
    ensures env.anchor.initialHead in commits && commits[env.anchor.initialHead].payload.sequence == 0
  {
  }

  // Changing one client that ends up holding no tagged commit, or the one it held.
  lemma BecomesKeeps(env: Env, w: World, who: string, c: Client)
    requires WorldInv(env, w) && ClientOk(env, w.remote, c) && (Held(c).None? || Held(c) == Held(ClientOf(w, who)))
    ensures WorldInv(env, Becomes(w, who, c))
  {
    hide RemoteInv, ClientOk;
    var w' := Becomes(w, who, c);
    forall other ensures ClientOk(env, w'.remote, ClientOf(w', other)) {
      assert other != who ==> ClientOf(w', other) == ClientOf(w, other);
    }
    forall a, b ensures OneHolder(w', a, b) {
      assert OneHolder(w, a, b);
    }
  }

  lemma HeadWithItsSequence(env: Env, r: Remote, sha: Sha)
    requires RemoteInv(env, r) && sha in r.heads
    ensures sha in r.commits && var n := r.commits[sha].payload.sequence; n < |r.heads| && r.heads[n] == sha
    ensures sha == env.anchor.initialHead || TagTo(env, r, sha)
  {
    hide InitialOk, WrittenOn, TargetOk, TagTo;
    var i :| 0 <= i < |r.heads| && r.heads[i] == sha;
    assert HeadOk(env, r, i);
  }

  // The commit of a fresh tag is neither a past head nor another client's tagged commit.
  lemma FreshTagFreshCommit(env: Env, r: Remote, base: Sha, p: Payload, sha: Sha, other: Sha)
    requires RemoteInv(env, r) && ContentAddressed(r.commits, base, p, sha) && TagFor(env, p) !in r.journal
    requires p.sequence > 0
    requires other in r.heads || TagTo(env, r, other)
    ensures other != sha
  {
    hide WrittenOn, TargetOk, TagFor;
    if other in r.heads {
      HeadWithItsSequence(env, r, other);
      InitialHeadIsGenesis(env, r.commits);
    }
  }

  lemma TagPushRemote(env: Env, r: Remote, base: Sha, main: string, req: Request, sha: Sha)
    requires RemoteInv(env, r) && base in r.heads && base in r.commits
    requires NewPayload(env, base, r.commits[base].payload, main, req).Some?
    requires var p := NewPayload(env, base, r.commits[base].payload, main, req).value;
      ContentAddressed(r.commits, base, p, sha) && TagFor(env, p) !in r.journal
    ensures var p := NewPayload(env, base, r.commits[base].payload, main, req).value;
      var r' := r.(journal := Tagged(env, r.journal, p, sha), commits := Committed(r.commits, base, p, sha));
      && RemoteInv(env, r') && sha !in r.heads
      && TagTo(env, r', sha) && WrittenOn(env, r'.commits, base, sha)
  {
    hide NewPayload, Semantics, AuthVerifies, TagFor, ValidPayload, AnchorOk;
    var p := NewPayload(env, base, r.commits[base].payload, main, req).value;
    var r' := r.(journal := Tagged(env, r.journal, p, sha), commits := Committed(r.commits, base, p, sha));
    WrittenAuthVerifies(env, base, r.commits[base].payload, main, req);
    if sha in r.heads {
      FreshTagFreshCommit(env, r, base, p, sha, sha);
    }
    AnchoredMain(env, p.control, main);
    assert WrittenOn(env, r'.commits, base, sha);
    forall i | 0 <= i < |r'.heads| ensures HeadOk(env, r', i) {
      assert HeadOk(env, r, i);
      if i > 0 {
        WrittenStays(env, r.commits, r'.commits, r.heads[i - 1], r.heads[i]);
      }
    }
    forall ref | ref in r'.journal ensures TargetOk(env, r', ref) {
      if ref != TagFor(env, p) {
        assert TargetOk(env, r, ref);
      }
    }
  }

  lemma AnchoredMain(env: Env, c: Control, main: string)
    requires AnchorOk(env, c, main)
    ensures AnchorOk(env, c, env.anchor.identity.canonicalMain) && c.identity.canonicalMain == main == env.anchor.identity.canonicalMain
  {
  }

  lemma ClientSurvivesTag(env: Env, r: Remote, r': Remote, c: Client)
    requires ClientOk(env, r, c) && r'.heads == r.heads
    requires forall h | h in r.commits :: h in r'.commits && r'.commits[h] == r.commits[h]
    requires forall ref | ref in r.journal :: ref in r'.journal && r'.journal[ref] == r.journal[ref]
    ensures ClientOk(env, r', c)
  {
    hide TagFor, LinkOk;
    if Held(c).Some? {
      WrittenStays(env, r.commits, r'.commits, c.head, c.sha);
    }
  }

  lemma TagPushKeeps(env: Env, w: World, who: string)
    requires WorldInv(env, w)
    ensures WorldInv(env, TagPush(env, w, who))
  {
    hide RemoteInv, NewPayload, TagFor, WrittenOn, ClientOk;
    var r, c, w' := w.remote, ClientOf(w, who), TagPush(env, w, who);
    if c.MainSeen? {
      assert ClientOk(env, r, c);
      if w' == Becomes(w, who, Idle) {
        IdleOk(env, r);
        BecomesKeeps(env, w, who, Idle);
      } else {
        assert c.head in r.heads by { LoadedHead(env, r, c); }
        var p := Written(env, r, c).value;
        TagPushRemote(env, r, c.head, c.main, c.req, c.sha);
        assert p.sequence > 0 by { WrittenAuthVerifies(env, c.head, r.commits[c.head].payload, c.main, c.req); }
        forall other ensures ClientOk(env, w'.remote, ClientOf(w', other)) {
          if other == who {
            JournaledOk(env, w'.remote, c.head, c.sha);
          } else {
            ClientSurvivesTag(env, r, w'.remote, ClientOf(w, other));
          }
        }
        forall a, b ensures OneHolder(w', a, b) {
          assert OneHolder(w, a, b);
          NotYetHeld(env, w, c.head, p, c.sha, a);
          NotYetHeld(env, w, c.head, p, c.sha, b);
        }
      }
    }
  }

  lemma IdleOk(env: Env, r: Remote)
    ensures ClientOk(env, r, Idle)
  {
  }

  lemma LoadedHead(env: Env, r: Remote, c: Client)
    requires ClientOk(env, r, c) && !c.Idle? && !c.SawMain?
    ensures c.head in r.heads
  {
  }

  lemma JournaledOk(env: Env, r: Remote, head: Sha, sha: Sha)
    requires head in r.heads && sha !in r.heads && TagTo(env, r, sha) && WrittenOn(env, r.commits, head, sha)
    ensures ClientOk(env, r, Journaled(head, sha))
  {
  }

  lemma NotYetHeld(env: Env, w: World, base: Sha, p: Payload, sha: Sha, who: string)
    requires WorldInv(env, w) && ContentAddressed(w.remote.commits, base, p, sha) && TagFor(env, p) !in w.remote.journal
    requires p.sequence > 0
    ensures Held(ClientOf(w, who)) != Some(sha)
  {
    hide RemoteInv, TagFor, WrittenOn;
    assert ClientOk(env, w.remote, ClientOf(w, who));
    if Held(ClientOf(w, who)).Some? {
      FreshTagFreshCommit(env, w.remote, base, p, sha, ClientOf(w, who).sha);
    }
  }

  lemma BranchPushRemote(env: Env, r: Remote, sha: Sha)
    requires RemoteInv(env, r) && sha !in r.heads && TagTo(env, r, sha) && WrittenOn(env, r.commits, r.branch, sha)
    ensures RemoteInv(env, r.(branch := sha, heads := r.heads + [sha]))
  {
    hide TagFor, Semantics, AuthVerifies, AnchorOk, ValidPayload, InitialOk;
    var r' := r.(branch := sha, heads := r.heads + [sha]);
    forall i | 0 <= i < |r'.heads| ensures HeadOk(env, r', i) {
      assert HeadOk(env, r, |r.heads| - 1);
      if i < |r.heads| {
        assert HeadOk(env, r, i);
      }
    }
    forall ref | ref in r'.journal ensures TargetOk(env, r', ref) {
      assert TargetOk(env, r, ref);
    }
  }

  lemma BranchPushKeeps(env: Env, w: World, who: string)
    requires WorldInv(env, w)
    ensures WorldInv(env, BranchPush(env, w, who))
  {
    hide RemoteInv, TagTo, WrittenOn;
    var r, c, w' := w.remote, ClientOf(w, who), BranchPush(env, w, who);
    assert ClientOk(env, r, c);
    if w' == Becomes(w, who, Idle) {
      BecomesKeeps(env, w, who, Idle);
    } else if c.MainSeenAgain? {
      BranchPushRemote(env, r, c.sha);
      forall other ensures ClientOk(env, w'.remote, ClientOf(w', other)) {
        assert OneHolder(w, other, who);
        assert ClientOk(env, r, ClientOf(w, other));
        SameTags(env, r, w'.remote, ClientOf(w, other));
      }
      forall a, b ensures OneHolder(w', a, b) {
        assert OneHolder(w, a, b);
      }
    }
  }

  lemma SameTags(env: Env, r: Remote, r': Remote, c: Client)
    requires r'.commits == r.commits && r'.journal == r.journal
    ensures Held(c).Some? ==> (TagTo(env, r, c.sha) <==> TagTo(env, r', c.sha))
  {
  }

  lemma MainCheckKeeps(env: Env, w: World, who: string)
    requires WorldInv(env, w)
    ensures WorldInv(env, MainCheck(env, w, who))
  {
    hide RemoteInv, HeldOk;
    var c := ClientOf(w, who);
    assert ClientOk(env, w.remote, c);
    BecomesKeeps(env, w, who, Idle);
    if c.TagFree? {
      BecomesKeeps(env, w, who, MainSeen(c.main, c.head, c.req, c.sha));
    } else if c.Journaled? {
      BecomesKeeps(env, w, who, MainSeenAgain(c.head, c.sha));
    }
  }

  lemma MoveMainKeeps(env: Env, w: World, main: string)
    requires WorldInv(env, w)
    ensures WorldInv(env, w.(remote := w.remote.(main := main)))
  {
    hide TagFor, WrittenOn, InitialOk;
    var w' := w.(remote := w.remote.(main := main));
    forall i | 0 <= i < |w'.remote.heads| ensures HeadOk(env, w'.remote, i) { assert HeadOk(env, w.remote, i); }
    forall ref | ref in w'.remote.journal ensures TargetOk(env, w'.remote, ref) { assert TargetOk(env, w.remote, ref); }
    forall who ensures ClientOk(env, w'.remote, ClientOf(w', who)) { assert ClientOf(w', who) == ClientOf(w, who); }
    forall a, b ensures OneHolder(w', a, b) { assert OneHolder(w, a, b); }
  }

  lemma StepKeeps(env: Env, w: World, e: Event)
    requires WorldInv(env, w)
    ensures WorldInv(env, Step(env, w, e))
  {
    hide LoadOk, NewPayload, TagFor, TagPush, BranchPush, WrittenOn, TagTo, HeadOk, TargetOk;
    match e
    case ReadMain(who) => BecomesKeeps(env, w, who, SawMain(w.remote.main));
    case ReadHead(who) =>
      var c := ClientOf(w, who);
      if c.SawMain? { BecomesKeeps(env, w, who, SawHead(c.main, w.remote.branch)); }
    case FinishLoad(who) =>
      var c := ClientOf(w, who);
      if c.SawHead? {
        assert ClientOk(env, w.remote, c);
        BecomesKeeps(env, w, who, Loaded(c.main, c.head));
        BecomesKeeps(env, w, who, Idle);
      }
    case CheckTag(who, req, sha) =>
      var c := ClientOf(w, who);
      if c.Loaded? {
        assert ClientOk(env, w.remote, c);
        BecomesKeeps(env, w, who, TagFree(c.main, c.head, req, sha));
        BecomesKeeps(env, w, who, Idle);
      }
    case CheckMain(who) => MainCheckKeeps(env, w, who);
    case PushJournal(who) => TagPushKeeps(env, w, who);
    case PushBranch(who) => BranchPushKeeps(env, w, who);
    case Crash(who) => BecomesKeeps(env, w, who, Idle);
    case MoveMain(main) => MoveMainKeeps(env, w, main);
  }

  lemma {:induction false} RunInv(env: Env, events: seq<Event>, worlds: seq<World>, k: nat)
    requires IsRun(env, events, worlds) && k < |worlds|
    ensures WorldInv(env, worlds[k])
  {
    hide WorldInv, Step, Initial;
    if k == 0 {
      InitialKeeps(env, worlds[0]);
    } else {
      RunInv(env, events, worlds, k - 1);
      assert StepOk(env, events, worlds, k - 1);
      StepKeeps(env, worlds[k - 1], events[k - 1]);
    }
  }
}
