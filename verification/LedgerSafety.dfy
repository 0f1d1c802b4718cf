// Journal-first safety of the ledger over any run: what the branch may point at,
// when a load is accepted, and what a crash between the two pushes leaves behind.
module LedgerSafety {
  import opened Prelude
  import opened Ordering
  import opened R1State
  import opened Stage1Control
  import opened LedgerTags
  import opened Ledger
  import opened LedgerChain
  import opened LedgerAppend
  import opened LedgerRuns

  // ---- Journal first ----

  lemma BranchMoveWasTagged(env: Env, w: World, e: Event)
    requires WorldInv(env, w) && Step(env, w, e).remote.branch != w.remote.branch
    ensures var moved := Step(env, w, e).remote.branch;
      && TagTo(env, w.remote, moved)
      && w.remote.commits[moved].parent == Some(w.remote.branch)
      && w.remote.commits[moved].payload.sequence == |w.remote.heads|
  {
    hide RemoteInv, LoadOk, TagTo, Semantics, AuthVerifies, AnchorOk;
    assert e.PushBranch?;
    assert ClientOk(env, w.remote, ClientOf(w, e.who));
    LastHead(env, w.remote);
  }

  lemma LastHead(env: Env, r: Remote)
    requires RemoteInv(env, r)
    ensures |r.heads| > 0 && r.branch == r.heads[|r.heads| - 1] && r.branch in r.commits
    ensures r.commits[r.branch].payload.sequence == |r.heads| - 1
  {
    hide InitialOk, WrittenOn, TagTo, TargetOk;
    assert HeadOk(env, r, |r.heads| - 1);
  }

  /** Whatever clients do and wherever they crash, the branch only moves to a commit that a journal tag
      already names, whose parent is the head it replaces and whose number is the next one. */
  lemma JournalFirst(env: Env, events: seq<Event>, worlds: seq<World>, k: nat)
    requires IsRun(env, events, worlds) && k < |events|
    requires worlds[k + 1].remote.branch != worlds[k].remote.branch
    ensures var r, moved := worlds[k].remote, worlds[k + 1].remote.branch;
      && (exists ref :: ref in r.journal && r.journal[ref] == moved)
      && moved in r.commits && r.branch in r.commits
      && r.commits[moved].parent == Some(r.branch)
      && r.commits[moved].payload.sequence == r.commits[r.branch].payload.sequence + 1
  {
    hide Step, WorldInv, TagFor, RemoteInv;
    assert StepOk(env, events, worlds, k);
    RunInv(env, events, worlds, k);
    BranchMoveWasTagged(env, worlds[k], events[k]);
    LastHead(env, worlds[k].remote) by { RemotePart(env, worlds[k]); }
    assert TagFor(env, worlds[k].remote.commits[worlds[k + 1].remote.branch].payload) in worlds[k].remote.journal;
  }

  lemma RemotePart(env: Env, w: World)
    requires WorldInv(env, w)
    ensures RemoteInv(env, w.remote)
  {
  }

  /** Every head past the initial one is the target of a journal tag. */
  lemma EveryHeadIsJournaled(env: Env, events: seq<Event>, worlds: seq<World>, k: nat)
    requires IsRun(env, events, worlds) && k < |worlds|
    ensures var r := worlds[k].remote;
      r.branch == env.anchor.initialHead || exists ref :: ref in r.journal && r.journal[ref] == r.branch
  {
    hide Step, WorldInv, TagFor, WrittenOn, InitialOk, TargetOk;
    RunInv(env, events, worlds, k);
    RemotePart(env, worlds[k]);
    var r := worlds[k].remote;
    LastHead(env, r);
    assert HeadOk(env, r, |r.heads| - 1);
    if |r.heads| > 1 {
      assert TagFor(env, r.commits[r.branch].payload) in r.journal;
    }
  }

  // ---- When a load is accepted ----

  lemma {:induction false} EntriesAreHeads(env: Env, r: Remote, entries: seq<Entry>, i: nat, j: nat)
    requires RemoteInv(env, r) && i < |r.heads| && |entries| == i && j <= i
    requires ChainOk(env, r.commits, entries) && HeadBefore(env, entries, i) == r.heads[i]
    ensures HeadBefore(env, entries, j) == r.heads[j]
    decreases i - j
  {
    hide RemoteInv, Semantics, AuthVerifies, AnchorOk, InitialOk;
    if j < i {
      EntriesAreHeads(env, r, entries, i, j + 1);
      assert LinkAt(env, r.commits, entries, j);
      HeadParent(env, r, j + 1);
    }
  }

  lemma HeadParent(env: Env, r: Remote, i: nat)
    requires RemoteInv(env, r) && 0 < i < |r.heads|
    ensures r.heads[i] in r.commits && r.commits[r.heads[i]].parent == Some(r.heads[i - 1])
  {
    hide Semantics, AuthVerifies, AnchorOk, InitialOk, TagTo;
    assert HeadOk(env, r, i);
  }

  // Loading any past or present head vouches for every tag in the journal.
  lemma LoadedTargetsAreHeads(env: Env, r: Remote, main: string, head: Sha, ref: string)
    requires RemoteInv(env, r) && head in r.heads && LoadOk(env, main, head, r.journal, r.commits) && ref in r.journal
    ensures r.journal[ref] in r.heads
  {
    hide RemoteInv, ChainOk, JournalIs, ParseTag, ValidPayload, AnchorOk;
    HeadWithItsSequence(env, r, head);
    var i := r.commits[head].payload.sequence;
    var entries := LoadedEntries(env, main, head, r.journal, r.commits);
    ListedTagParses(Key(env), r.journal, entries, ref);
    var j :| 0 <= j < |entries| && entries[j] == EntryFor(Key(env), r.journal, ref);
    EntriesAreHeads(env, r, entries, i, j + 1);
  }

  // A tagged commit that never became a head and that nobody is about to push.
  ghost predicate Orphan(w: World, sha: Sha) {
    && (exists ref :: ref in w.remote.journal && w.remote.journal[ref] == sha)
    && sha !in w.remote.heads
    && NobodyHolds(w, sha)
  }

  ghost predicate NobodyHolds(w: World, sha: Sha) {
    forall who {:trigger ClientOf(w, who)} :: Held(ClientOf(w, who)) != Some(sha)
  }

  lemma OrphanRefused(env: Env, w: World, sha: Sha, main: string, head: Sha)
    requires WorldInv(env, w) && Orphan(w, sha) && head in w.remote.heads
    ensures !LoadOk(env, main, head, w.remote.journal, w.remote.commits)
  {
    hide LoadOk, RemoteInv;
    var ref :| ref in w.remote.journal && w.remote.journal[ref] == sha;
    if LoadOk(env, main, head, w.remote.journal, w.remote.commits) {
      LoadedTargetsAreHeads(env, w.remote, main, head, ref);
    }
  }

  lemma OrphanStays(env: Env, w: World, e: Event, sha: Sha)
    requires WorldInv(env, w) && Orphan(w, sha)
    ensures Orphan(Step(env, w, e), sha)
  {
    hide RemoteInv, LoadOk, NewPayload, TagFor, ClientOk;
    var w' := Step(env, w, e);
    var ref :| ref in w.remote.journal && w.remote.journal[ref] == sha;
    assert ref in w'.remote.journal && w'.remote.journal[ref] == sha;
    if e.PushJournal? && ClientOf(w, e.who).MainSeen? && w'.remote.journal != w.remote.journal {
      var c := ClientOf(w, e.who);
      TagTakenByOther(env, w.remote, sha, ref, c.head, Written(env, w.remote, c).value, c.sha);
    }
    forall who ensures Held(ClientOf(w', who)) != Some(sha) {
      assert Held(ClientOf(w, who)) != Some(sha);
    }
  }

  // The tag of a written commit is free, so the commit is none of the tagged ones.
  lemma TagTakenByOther(env: Env, r: Remote, sha: Sha, ref: string, base: Sha, p: Payload, written: Sha)
    requires RemoteInv(env, r) && ref in r.journal && r.journal[ref] == sha
    requires ContentAddressed(r.commits, base, p, written) && TagFor(env, p) !in r.journal
    ensures written != sha
  {
    hide TagFor, InitialOk, HeadOk, ValidPayload;
    assert TargetOk(env, r, ref);
  }

  lemma {:induction false} OrphanForever(env: Env, events: seq<Event>, worlds: seq<World>, i: nat, k: nat, sha: Sha)
    requires IsRun(env, events, worlds) && i <= k < |worlds| && Orphan(worlds[i], sha)
    ensures Orphan(worlds[k], sha)
    decreases k
  {
    hide Step, WorldInv, Initial, Orphan;
    if i < k {
      OrphanForever(env, events, worlds, i, k - 1, sha);
      RunInv(env, events, worlds, k - 1);
      assert StepOk(env, events, worlds, k - 1);
      OrphanStays(env, worlds[k - 1], events[k - 1], sha);
    }
  }

  // No load of the branch succeeds, and no load under way will.
  ghost predicate Unloadable(env: Env, w: World) {
    && (forall main {:trigger LoadOk(env, main, w.remote.branch, w.remote.journal, w.remote.commits)} ::
          !LoadOk(env, main, w.remote.branch, w.remote.journal, w.remote.commits))
    && (forall who {:trigger ClientOf(w, who)} :: !ClientOf(Step(env, w, FinishLoad(who)), who).Loaded? || ClientOf(w, who).Loaded?)
  }

  lemma OrphanMakesUnloadable(env: Env, w: World, sha: Sha)
    requires WorldInv(env, w) && Orphan(w, sha)
    ensures Unloadable(env, w)
  {
    hide RemoteInv, LoadOk, Orphan;
    assert w.remote.branch in w.remote.heads by { LastHead(env, w.remote); }
    forall main ensures !LoadOk(env, main, w.remote.branch, w.remote.journal, w.remote.commits) {
      OrphanRefused(env, w, sha, main, w.remote.branch);
    }
    forall who ensures !ClientOf(Step(env, w, FinishLoad(who)), who).Loaded? || ClientOf(w, who).Loaded? {
      var c := ClientOf(w, who);
      assert ClientOk(env, w.remote, c);
      if c.SawHead? {
        OrphanRefused(env, w, sha, c.main, c.head);
      }
    }
  }

  ghost predicate NobodyInFlight(w: World) {
    forall who {:trigger ClientOf(w, who)} :: Held(ClientOf(w, who)).None?
  }

  lemma TagNumberIsSequence(env: Env, r: Remote, ref: string, n: nat)
    requires RemoteInv(env, r) && Numbered(Key(env), r.journal, ref, n)
    ensures r.journal[ref] in r.commits && r.commits[r.journal[ref]].payload.sequence == n
  {
    hide ParseTag, PrintTag, HeadOk, InitialOk;
    assert TargetOk(env, r, ref);
    var p := r.commits[r.journal[ref]].payload;
    assert p.sequence <= MAX_SEQUENCE;
    TagRoundTrip(Key(env), p.sequence, p.control.terminalCount);
  }

  /** Once the journal is ahead of the branch with nobody in flight, every later load is refused, for ever. */
  lemma JournalAheadIsFinal(env: Env, events: seq<Event>, worlds: seq<World>, i: nat, k: nat, ref: string, n: nat)
    requires IsRun(env, events, worlds) && i <= k < |worlds|
    requires var r := worlds[i].remote;
      Numbered(Key(env), r.journal, ref, n) && r.branch in r.commits && n > r.commits[r.branch].payload.sequence
    requires NobodyInFlight(worlds[i])
    ensures Unloadable(env, worlds[k])
  {
    hide Step, RemoteInv, Initial, LoadOk, Unloadable;
    var r := worlds[i].remote;
    RunInv(env, events, worlds, i);
    TagNumberIsSequence(env, r, ref, n);
    LastHead(env, r);
    var sha := r.journal[ref];
    if sha in r.heads {
      HeadWithItsSequence(env, r, sha);
    }
    assert Orphan(worlds[i], sha);
    OrphanForever(env, events, worlds, i, k, sha);
    RunInv(env, events, worlds, k);
    OrphanMakesUnloadable(env, worlds[k], sha);
  }

  /** A crash between the two pushes, or a branch push that loses its race or finds main moved, leaves the
      ledger unloadable for ever; only a completed branch push does not. */
  lemma HalfDoneAppendIsFinal(env: Env, events: seq<Event>, worlds: seq<World>, i: nat, k: nat, who: string)
    requires IsRun(env, events, worlds) && i < k < |worlds|
    requires Held(ClientOf(worlds[i], who)).Some? && Held(ClientOf(worlds[i + 1], who)).None?
    requires worlds[i + 1].remote.branch != Held(ClientOf(worlds[i], who)).value
    ensures Unloadable(env, worlds[k])
  {
    hide Initial, LoadOk, Unloadable, RemoteInv, TagFor, NewPayload, WrittenOn;
    var sha := Held(ClientOf(worlds[i], who)).value;
    assert Orphan(worlds[i + 1], sha) by {
      RunInv(env, events, worlds, i);
      assert StepOk(env, events, worlds, i);
      AbandonedIsOrphan(env, worlds[i], events[i], who);
    }
    OrphanForever(env, events, worlds, i + 1, k, sha);
    RunInv(env, events, worlds, k);
    OrphanMakesUnloadable(env, worlds[k], sha);
  }

  lemma AbandonedIsOrphan(env: Env, w: World, e: Event, who: string)
    requires WorldInv(env, w) && Held(ClientOf(w, who)).Some?
    requires var w' := Step(env, w, e); Held(ClientOf(w', who)).None? && w'.remote.branch != Held(ClientOf(w, who)).value
    ensures Orphan(Step(env, w, e), Held(ClientOf(w, who)).value)
  {
    hide LoadOk, RemoteInv, TagFor, NewPayload, WrittenOn;
    var w', sha := Step(env, w, e), Held(ClientOf(w, who)).value;
    assert e.Crash? || e.CheckMain? || e.PushBranch?;
    assert ClientOk(env, w.remote, ClientOf(w, who));
    assert w'.remote.journal == w.remote.journal && w'.remote.heads == w.remote.heads;
    assert TagFor(env, w.remote.commits[sha].payload) in w.remote.journal;
    forall other ensures Held(ClientOf(w', other)) != Some(sha) {
      assert OneHolder(w, other, who);
    }
  }

  // ---- Exactly when ----

  function HeadEntry(r: Remote, i: nat): Entry
    requires i < |r.heads| && r.heads[i] in r.commits
  {
    Entry(i, r.commits[r.heads[i]].payload.control.terminalCount, r.heads[i])
  }

  ghost predicate HeadsPresent(r: Remote) {
    forall i | 0 <= i < |r.heads| :: r.heads[i] in r.commits
  }

  function HeadEntries(r: Remote, n: nat): (entries: seq<Entry>)
    requires n < |r.heads| && forall i | 0 <= i < |r.heads| :: r.heads[i] in r.commits
    ensures |entries| == n && forall i | 0 <= i < n :: entries[i] == HeadEntry(r, i + 1)
  {
    if n == 0 then [] else HeadEntries(r, n - 1) + [HeadEntry(r, n)]
  }

  lemma HeadsArePresent(env: Env, r: Remote)
    requires RemoteInv(env, r)
    ensures HeadsPresent(r)
  {
    hide InitialOk, WrittenOn, TagTo, TargetOk;
    forall i | 0 <= i < |r.heads| ensures r.heads[i] in r.commits {
      assert HeadOk(env, r, i);
    }
  }

  lemma HeadsChain(env: Env, r: Remote, n: nat)
    requires RemoteInv(env, r) && n < |r.heads| && HeadsPresent(r)
    ensures ChainOk(env, r.commits, HeadEntries(r, n))
  {
    hide LinkOk, InitialOk, TagTo, TargetOk;
    var entries := HeadEntries(r, n);
    assert HeadOk(env, r, 0);
    forall i | 0 <= i < n ensures LinkAt(env, r.commits, entries, i) {
      assert HeadOk(env, r, i) && HeadOk(env, r, i + 1);
      assert HeadBefore(env, entries, i) == r.heads[i];
    }
  }

  // Every tag names a commit the branch has pointed at, and parses.
  ghost predicate JournalOnBranch(env: Env, r: Remote) {
    && (forall ref | ref in r.journal :: r.journal[ref] in r.heads)
    && (forall ref | ref in r.journal :: ParseTag(Key(env), ref).Some?)
  }

  lemma HeadsJournal(env: Env, r: Remote)
    requires RemoteInv(env, r) && HeadsPresent(r) && JournalOnBranch(env, r)
    ensures JournalIs(Key(env), r.journal, HeadEntries(r, |r.heads| - 1))
  {
    hide ParseTag, PrintTag, WrittenOn, InitialOk, ValidPayload;
    var key, n := Key(env), |r.heads| - 1;
    var entries := HeadEntries(r, n);
    forall ref | ref in r.journal ensures RefEntered(key, r.journal, entries, ref) && 1 <= ParseTag(key, ref).value.0 <= n {
      RefIsHead(env, r, ref);
    }
    forall i | 0 <= i < n ensures EntryListed(key, r.journal, entries[i]) && entries[i].sequence == i + 1 {
      assert HeadOk(env, r, i + 1);
      var tag := TagFor(env, r.commits[r.heads[i + 1]].payload);
      assert tag in r.journal && r.journal[tag] == r.heads[i + 1];
      RefIsHead(env, r, tag);
      assert ParseTag(key, tag) == Some((entries[i].sequence, entries[i].terminal));
    }
    forall i, j | 0 <= i < j < n ensures EntryLe(entries[i], entries[j]) && entries[i] != entries[j] {
    }
    forall e | e in entries ensures e in EntrySet(key, r.journal) {
      assert EntryListed(key, r.journal, e);
    }
    SortedIsJournal(key, r.journal, entries);
  }

  lemma RefIsHead(env: Env, r: Remote, ref: string)
    requires RemoteInv(env, r) && JournalOnBranch(env, r) && ref in r.journal
    ensures var sha := r.journal[ref];
      && sha in r.commits
      && var p := r.commits[sha].payload;
      && 0 < p.sequence < |r.heads| && r.heads[p.sequence] == sha
      && ref == TagFor(env, p) && ParseTag(Key(env), ref) == Some((p.sequence, p.control.terminalCount))
  {
    hide ParseTag, PrintTag, WrittenOn, InitialOk;
    assert TargetOk(env, r, ref);
    var p := r.commits[r.journal[ref]].payload;
    assert 0 < p.sequence <= MAX_SEQUENCE;
    HeadWithItsSequence(env, r, r.journal[ref]);
    TagRoundTrip(Key(env), p.sequence, p.control.terminalCount);
  }

  lemma HeadPayloadOk(env: Env, r: Remote)
    requires RemoteInv(env, r)
    ensures r.branch in r.commits && ValidPayload(r.commits[r.branch].payload)
    ensures AnchorOk(env, r.commits[r.branch].payload.control, env.anchor.identity.canonicalMain)
  {
    hide ValidControl, ValidState, AuthShape, Semantics, TagTo, TargetOk;
    assert HeadOk(env, r, |r.heads| - 1);
  }

  /** Exactly when the current head can be loaded: every tag must parse and name a commit the branch has
      pointed at. The replay's other checks cannot fail on a ledger written by honest clients. */
  lemma LoadableIff(env: Env, events: seq<Event>, worlds: seq<World>, k: nat)
    requires IsRun(env, events, worlds) && k < |worlds|
    ensures var r := worlds[k].remote;
      LoadOk(env, env.anchor.identity.canonicalMain, r.branch, r.journal, r.commits) <==> JournalOnBranch(env, r)
  {
    hide Step, RemoteInv, Initial, LoadOk, JournalOnBranch, ClientOk;
    RunInv(env, events, worlds, k);
    var r, main := worlds[k].remote, env.anchor.identity.canonicalMain;
    if LoadOk(env, main, r.branch, r.journal, r.commits) {
      LoadedIsOnBranch(env, r, main);
    }
    if JournalOnBranch(env, r) {
      OnBranchLoads(env, r);
    }
  }

  // What a client can read off the tag names alone: each is numbered within 1..n, and each number once.
  ghost predicate ExactJournal(key: string, journal: map<string, Sha>, n: nat) {
    && (forall ref | ref in journal :: ParseTag(key, ref).Some? && 1 <= ParseTag(key, ref).value.0 <= n)
    && (forall k {:trigger ExactlyOneTag(key, journal, k)} | 1 <= k <= n :: ExactlyOneTag(key, journal, k))
  }

  /** The same by the tag names and the head's sequence alone: a reachable head can be loaded exactly when the journal
      has one tag for each number up to it and no other tag; what the tags point at follows. */
  lemma LoadableIffExactJournal(env: Env, events: seq<Event>, worlds: seq<World>, k: nat)
    requires IsRun(env, events, worlds) && k < |worlds|
    ensures var r := worlds[k].remote;
      && r.branch in r.commits
      && (LoadOk(env, env.anchor.identity.canonicalMain, r.branch, r.journal, r.commits)
          <==> ExactJournal(Key(env), r.journal, r.commits[r.branch].payload.sequence))
  {
    hide Step, RemoteInv, Initial, LoadOk, JournalOnBranch, ClientOk, ExactJournal, ExactlyOneTag;
    RunInv(env, events, worlds, k);
    var r, main := worlds[k].remote, env.anchor.identity.canonicalMain;
    LastHead(env, r);
    LoadableIff(env, events, worlds, k);
    if LoadOk(env, main, r.branch, r.journal, r.commits) {
      LoadSuccessMeansExactJournal(env, main, r.branch, r.journal, r.commits);
      OnBranchIsNumbered(env, r);
    }
    if ExactJournal(Key(env), r.journal, |r.heads| - 1) {
      ExactIsOnBranch(env, r);
    }
  }

  lemma OnBranchIsNumbered(env: Env, r: Remote)
    requires RemoteInv(env, r) && JournalOnBranch(env, r)
    requires forall k {:trigger ExactlyOneTag(Key(env), r.journal, k)} | 1 <= k <= |r.heads| - 1 :: ExactlyOneTag(Key(env), r.journal, k)
    ensures ExactJournal(Key(env), r.journal, |r.heads| - 1)
  {
    hide RemoteInv, JournalOnBranch, ParseTag, ExactlyOneTag;
    forall ref | ref in r.journal ensures ParseTag(Key(env), ref).Some? && 1 <= ParseTag(Key(env), ref).value.0 <= |r.heads| - 1 {
      RefIsHead(env, r, ref);
    }
  }

  lemma SequenceFits(p: Payload)
    requires ValidPayload(p)
    ensures p.sequence <= MAX_SEQUENCE
  {
  }

  lemma ExactIsOnBranch(env: Env, r: Remote)
    requires RemoteInv(env, r) && ExactJournal(Key(env), r.journal, |r.heads| - 1)
    ensures JournalOnBranch(env, r)
  {
    hide ParseTag, PrintTag, InitialOk, WrittenOn, ValidPayload;
    forall ref | ref in r.journal ensures r.journal[ref] in r.heads {
      var k := ParseTag(Key(env), ref).value.0;
      assert HeadOk(env, r, k);
      var tag := TagFor(env, r.commits[r.heads[k]].payload);
      assert TargetOk(env, r, tag);
      SequenceFits(r.commits[r.heads[k]].payload);
      TagRoundTrip(Key(env), k, r.commits[r.heads[k]].payload.control.terminalCount);
      assert ExactlyOneTag(Key(env), r.journal, k);
      assert Numbered(Key(env), r.journal, ref, k) && Numbered(Key(env), r.journal, tag, k);
    }
  }

  lemma LoadedIsOnBranch(env: Env, r: Remote, main: string)
    requires RemoteInv(env, r) && LoadOk(env, main, r.branch, r.journal, r.commits)
    ensures JournalOnBranch(env, r)
  {
    hide RemoteInv, LoadOk, ParseTag, JournalIs, ChainOk, HighWater;
    LastHead(env, r);
    var entries := LoadedEntries(env, main, r.branch, r.journal, r.commits);
    forall ref | ref in r.journal ensures r.journal[ref] in r.heads && ParseTag(Key(env), ref).Some? {
      LoadedTargetsAreHeads(env, r, main, r.branch, ref);
      ListedTagParses(Key(env), r.journal, entries, ref);
    }
  }

  lemma OnBranchLoads(env: Env, r: Remote)
    requires RemoteInv(env, r) && JournalOnBranch(env, r)
    ensures LoadOk(env, env.anchor.identity.canonicalMain, r.branch, r.journal, r.commits)
  {
    hide ParseTag, JournalOnBranch, ChainOk, HeadOk, TargetOk, ValidPayload, AnchorOk, HighWater;
    var n := |r.heads| - 1;
    LastHead(env, r);
    HeadPayloadOk(env, r);
    HeadsArePresent(env, r);
    HeadsChain(env, r, n);
    HeadsJournal(env, r);
    var entries := HeadEntries(r, n);
    if n == 0 {
      FirstHead(env, r);
      assert |r.journal| == 0;
      EmptyJournal(r.journal);
    } else {
      assert HeadBefore(env, entries, n) == r.branch;
      HighWaterIsTheHead(env, r.commits, entries);
      assert Replays(env, r.commits, r.journal, r.branch, entries);
    }
  }

  lemma FirstHead(env: Env, r: Remote)
    requires RemoteInv(env, r) && |r.heads| == 1
    ensures r.branch == env.anchor.initialHead && r.commits[r.branch].payload.control.terminalCount == 0
    ensures r.commits[r.branch].payload.auth.None?
  {
    hide ValidPayload, TargetOk;
    assert HeadOk(env, r, 0);
  }

  lemma EmptyJournal(journal: map<string, Sha>)
    requires |journal| == 0
    ensures journal == map[]
  {
    assert journal.Keys == {};
  }

  /** Main is binding: when it moves nothing else of the remote does, and while it is not the activation's main no load of
      any head succeeds. */
  lemma MainIsBinding(env: Env, w: World, main: string)
    ensures var r := Step(env, w, MoveMain(main)).remote;
      && r == w.remote.(main := main)
      && (main != env.anchor.identity.canonicalMain ==>
            forall head {:trigger LoadOk(env, r.main, head, r.journal, r.commits)} :: !LoadOk(env, r.main, head, r.journal, r.commits))
  {
    hide Replays, ValidPayload;
  }
}
