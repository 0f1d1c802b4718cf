// What an accepted journal proves, on any remote, and that an honest append is
// accepted by the next load.
module LedgerChain {
  import opened Prelude
  import opened Ordering
  import opened R1State
  import opened Stage1Control
  import opened LedgerTags
  import opened Ledger

  // The payload before entry `i`.
  function PayloadBefore(env: Env, commits: map<Sha, Commit>, entries: seq<Entry>, i: nat): Payload
    requires i <= |entries| && HeadBefore(env, entries, i) in commits
  {
    commits[HeadBefore(env, entries, i)].payload
  }

  lemma HeadsKnown(env: Env, commits: map<Sha, Commit>, entries: seq<Entry>, i: nat)
    requires ChainOk(env, commits, entries) && i <= |entries|
    ensures HeadBefore(env, entries, i) in commits
  {
    if i > 0 {
      assert LinkAt(env, commits, entries, i - 1);
    }
  }

  // ---- The journal determines its entries ----

  predicate EntryLe(a: Entry, b: Entry) {
    a.sequence < b.sequence
    || (a.sequence == b.sequence && (a.terminal < b.terminal || (a.terminal == b.terminal && a.sha <= b.sha)))
  }

  lemma EntryLeIsTotalOrder()
    ensures TotalOrder(EntryLe)
  {
  }

  ghost predicate AllParse(key: string, journal: map<string, Sha>) {
    forall ref | ref in journal :: ParseTag(key, ref).Some?
  }

  function EntryFor(key: string, journal: map<string, Sha>, ref: string): Entry
    requires ref in journal && ParseTag(key, ref).Some?
  {
    Entry(ParseTag(key, ref).value.0, ParseTag(key, ref).value.1, journal[ref])
  }

  ghost function EntrySet(key: string, journal: map<string, Sha>): set<Entry>
    requires AllParse(key, journal)
  {
    set ref | ref in journal :: EntryFor(key, journal, ref)
  }

  lemma {:induction false} AsManyEntriesAsTags(key: string, journal: map<string, Sha>, refs: set<string>)
    requires AllParse(key, journal) && refs <= journal.Keys
    ensures |set ref | ref in refs :: EntryFor(key, journal, ref)| == |refs|
    decreases |refs|
  {
    hide ParseTag;
    if refs != {} {
      var r :| r in refs;
      AsManyEntriesAsTags(key, journal, refs - {r});
      var rest := set ref | ref in refs - {r} :: EntryFor(key, journal, ref);
      forall ref | ref in refs - {r} ensures EntryFor(key, journal, ref) != EntryFor(key, journal, r) {
        ParsedTagWasPrinted(key, ref);
        ParsedTagWasPrinted(key, r);
      }
      assert (set ref | ref in refs :: EntryFor(key, journal, ref)) == rest + {EntryFor(key, journal, r)};
    }
  }

  lemma ListedTagParses(key: string, journal: map<string, Sha>, entries: seq<Entry>, ref: string)
    requires JournalIs(key, journal, entries) && ref in journal
    ensures ParseTag(key, ref).Some? && ParseTag(key, ref).value.0 <= |journal|
    ensures EntryFor(key, journal, ref) in entries
  {
    hide ParseTag;
    assert RefEntered(key, journal, entries, ref);
  }

  // A journal with an unreadable tag has no numbering.
  lemma NoJournalWithout(key: string, journal: map<string, Sha>, ref: string)
    requires ref in journal && ParseTag(key, ref).None?
    ensures !exists entries :: JournalIs(key, journal, entries)
  {
    hide ParseTag, JournalIs;
    forall entries ensures !JournalIs(key, journal, entries) {
      if JournalIs(key, journal, entries) {
        ListedTagParses(key, journal, entries, ref);
      }
    }
  }

  // A numbered journal is the sorted enumeration of its tags.
  lemma JournalIsSorted(key: string, journal: map<string, Sha>, entries: seq<Entry>)
    requires JournalIs(key, journal, entries)
    ensures AllParse(key, journal) && Enumerates(entries, EntrySet(key, journal), EntryLe)
  {
    hide ParseTag;
    forall ref | ref in journal ensures ParseTag(key, ref).Some? && EntryFor(key, journal, ref) in entries {
      assert RefEntered(key, journal, entries, ref);
    }
    forall e | e in entries ensures e in EntrySet(key, journal) {
      assert EntryListed(key, journal, e);
    }
    forall i, j | 0 <= i < j < |entries| ensures EntryLe(entries[i], entries[j]) && entries[i] != entries[j] {
      assert entries[i].sequence == i + 1 && entries[j].sequence == j + 1;
    }
  }

  lemma SortedIsJournal(key: string, journal: map<string, Sha>, entries: seq<Entry>)
    requires AllParse(key, journal) && Enumerates(entries, EntrySet(key, journal), EntryLe)
    requires forall i | 0 <= i < |entries| :: entries[i].sequence == i + 1
    ensures JournalIs(key, journal, entries)
  {
    hide ParseTag;
    AsManyEntriesAsTags(key, journal, journal.Keys);
    assert (set ref | ref in journal.Keys :: EntryFor(key, journal, ref)) == EntrySet(key, journal);
    EnumerationLength(entries, EntrySet(key, journal), EntryLe);
    forall i | 0 <= i < |entries| ensures EntryListed(key, journal, entries[i]) {
      assert entries[i] in EntrySet(key, journal);
    }
    forall ref | ref in journal ensures RefEntered(key, journal, entries, ref) {
      assert EntryFor(key, journal, ref) in entries;
      var i :| 0 <= i < |entries| && entries[i] == EntryFor(key, journal, ref);
    }
  }

  lemma JournalUnique(key: string, journal: map<string, Sha>, a: seq<Entry>, b: seq<Entry>)
    requires JournalIs(key, journal, a) && JournalIs(key, journal, b)
    ensures a == b
  {
    EntryLeIsTotalOrder();
    JournalIsSorted(key, journal, a);
    JournalIsSorted(key, journal, b);
    EnumerationUnique(a, b, EntrySet(key, journal), EntryLe);
  }

  ghost predicate Numbered(key: string, journal: map<string, Sha>, ref: string, n: nat) {
    ref in journal && ParseTag(key, ref).Some? && ParseTag(key, ref).value.0 == n
  }

  ghost predicate ExactlyOneTag(key: string, journal: map<string, Sha>, n: nat) {
    && (exists ref :: Numbered(key, journal, ref, n))
    && (forall a, b | Numbered(key, journal, a, n) && Numbered(key, journal, b, n) :: a == b)
  }

  lemma SameNumberSameTag(key: string, journal: map<string, Sha>, entries: seq<Entry>, a: string, b: string, n: nat)
    requires JournalIs(key, journal, entries) && Numbered(key, journal, a, n) && Numbered(key, journal, b, n)
    ensures a == b
  {
    hide ParseTag, PrintTag, Pow10;
    assert RefEntered(key, journal, entries, a) && RefEntered(key, journal, entries, b);
    ParsedTagWasPrinted(key, a);
    ParsedTagWasPrinted(key, b);
  }

  /** A journal that can be loaded holds exactly one tag for each sequence 1..n. */
  lemma OneTagPerSequence(key: string, journal: map<string, Sha>, entries: seq<Entry>, n: nat)
    requires JournalIs(key, journal, entries) && 1 <= n <= |entries|
    ensures ExactlyOneTag(key, journal, n)
  {
    hide ParseTag;
    assert EntryListed(key, journal, entries[n - 1]);
    var ref :| ref in journal && ParseTag(key, ref) == Some((n, entries[n - 1].terminal)) && journal[ref] == entries[n - 1].sha;
    assert Numbered(key, journal, ref, n);
    forall a, b | Numbered(key, journal, a, n) && Numbered(key, journal, b, n) ensures a == b {
      SameNumberSameTag(key, journal, entries, a, b, n);
    }
  }

  /** What a successful load of a moved ledger has established: as many tags as the head's sequence,
      exactly one for each number, and the last of them at the head. */
  lemma LoadSuccessMeansExactJournal(env: Env, main: string, head: Sha, journal: map<string, Sha>, commits: map<Sha, Commit>)
    requires LoadOk(env, main, head, journal, commits)
    ensures var n := commits[head].payload.sequence;
      && |journal| == n
      && (forall k {:trigger ExactlyOneTag(Key(env), journal, k)} | 1 <= k <= n :: ExactlyOneTag(Key(env), journal, k))
      && (n > 0 ==> exists ref :: Numbered(Key(env), journal, ref, n) && journal[ref] == head)
  {
    hide ParseTag, ChainOk, LinkAt, ValidPayload, AnchorOk, ExactlyOneTag;
    var n := commits[head].payload.sequence;
    if n > 0 {
      var entries: seq<Entry> :| Replays(env, commits, journal, head, entries);
      forall k | 1 <= k <= n ensures ExactlyOneTag(Key(env), journal, k) {
        OneTagPerSequence(Key(env), journal, entries, k);
      }
      assert EntryListed(Key(env), journal, entries[n - 1]);
      var ref :| ref in journal && ParseTag(Key(env), ref) == Some((n, entries[n - 1].terminal)) && journal[ref] == entries[n - 1].sha;
      assert Numbered(Key(env), journal, ref, n);
    }
  }

  lemma LastTerminal(env: Env, commits: map<Sha, Commit>, entries: seq<Entry>)
    requires ChainOk(env, commits, entries) && |entries| > 0
    ensures HeadBefore(env, entries, |entries|) in commits
    ensures entries[|entries| - 1].terminal == PayloadBefore(env, commits, entries, |entries|).control.terminalCount
  {
    assert LinkAt(env, commits, entries, |entries| - 1);
  }

  // ---- History along an accepted chain ----

  ghost predicate Grows(prev: Control, next: Control) {
    && prev.identity == next.identity && prev.counted <= next.counted
    && prev.terminalCount <= next.terminalCount && (prev.paused ==> next.paused)
  }

  /** Along any accepted chain the counted ids only grow by appending, the terminal count never
      falls, the identity never changes, and a pause is never lifted. */
  lemma {:induction false} ChainGrows(env: Env, commits: map<Sha, Commit>, entries: seq<Entry>, i: nat, j: nat)
    requires ChainOk(env, commits, entries) && i <= j <= |entries|
    ensures HeadBefore(env, entries, i) in commits && HeadBefore(env, entries, j) in commits
    ensures Grows(PayloadBefore(env, commits, entries, i).control, PayloadBefore(env, commits, entries, j).control)
    decreases j
  {
    HeadsKnown(env, commits, entries, i);
    if i < j {
      ChainGrows(env, commits, entries, i, j - 1);
      assert LinkAt(env, commits, entries, j - 1);
    }
  }

  lemma PrefixChain(env: Env, commits: map<Sha, Commit>, entries: seq<Entry>, n: nat)
    requires ChainOk(env, commits, entries) && n <= |entries|
    ensures ChainOk(env, commits, entries[..n])
  {
    forall i | 0 <= i < n ensures LinkAt(env, commits, entries[..n], i) {
      assert LinkAt(env, commits, entries, i);
      assert HeadBefore(env, entries[..n], i) == HeadBefore(env, entries, i);
    }
  }

  /** The high-water check of the replay can never fail after the links: the largest tag terminal
      count always is the head's terminal count. */
  lemma {:induction false} HighWaterIsTheHead(env: Env, commits: map<Sha, Commit>, entries: seq<Entry>)
    requires ChainOk(env, commits, entries) && |entries| > 0
    ensures HeadBefore(env, entries, |entries|) in commits
    ensures HighWater(entries) == PayloadBefore(env, commits, entries, |entries|).control.terminalCount
    decreases |entries|
  {
    var n := |entries| - 1;
    LastTerminal(env, commits, entries);
    if n > 0 {
      PrefixChain(env, commits, entries, n);
      HighWaterIsTheHead(env, commits, entries[..n]);
      assert HeadBefore(env, entries[..n], n) == HeadBefore(env, entries, n);
      ChainGrows(env, commits, entries, n, n + 1);
    } else {
      assert entries[..n] == [];
    }
  }

  // ---- Fencing along an accepted chain ----

  function OperationAt(env: Env, commits: map<Sha, Commit>, entries: seq<Entry>, i: nat): (Operation, string)
    requires i < |entries|
  {
    if entries[i].sha in commits && commits[entries[i].sha].payload.auth.Some?
    then (commits[entries[i].sha].payload.auth.value.operation, commits[entries[i].sha].payload.auth.value.claimId)
    else (OtherOperation(""), "")
  }

  // The claim in force before entry `i`, read off the operations alone.
  function Holder(env: Env, commits: map<Sha, Commit>, entries: seq<Entry>, i: nat): Option<string>
    requires i <= |entries|
  {
    if i == 0 then None
    else match OperationAt(env, commits, entries, i - 1).0
      case ClaimInvocation => Some(OperationAt(env, commits, entries, i - 1).1)
      case PersistR1State => Holder(env, commits, entries, i - 1)
      case ReleaseInvocation => None
      case OtherOperation(_) => None
  }

  ghost predicate StartsUnclaimed(env: Env, commits: map<Sha, Commit>) {
    env.anchor.initialHead in commits && commits[env.anchor.initialHead].payload.control.claimId.None?
  }

  lemma {:induction false} ClaimIsTheHolder(env: Env, commits: map<Sha, Commit>, entries: seq<Entry>, i: nat)
    requires ChainOk(env, commits, entries) && StartsUnclaimed(env, commits) && i <= |entries|
    ensures HeadBefore(env, entries, i) in commits
    ensures PayloadBefore(env, commits, entries, i).control.claimId == Holder(env, commits, entries, i)
  {
    HeadsKnown(env, commits, entries, i);
    if i > 0 {
      ClaimIsTheHolder(env, commits, entries, i - 1);
      assert LinkAt(env, commits, entries, i - 1);
    }
  }

  lemma {:induction false} HolderIsTheLatestClaim(env: Env, commits: map<Sha, Commit>, entries: seq<Entry>, i: nat) returns (j: nat)
    requires i <= |entries| && Holder(env, commits, entries, i).Some?
    ensures j < i && OperationAt(env, commits, entries, j) == (ClaimInvocation, Holder(env, commits, entries, i).value)
    ensures forall k | j < k < i :: OperationAt(env, commits, entries, k).0 == PersistR1State
  {
    if OperationAt(env, commits, entries, i - 1).0 == ClaimInvocation {
      j := i - 1;
    } else {
      j := HolderIsTheLatestClaim(env, commits, entries, i - 1);
    }
  }

  /** Fencing: on any accepted chain from an unclaimed control, every persist and every release carries
      the id of the most recent claim, with nothing but persists in between. */
  lemma WritesCarryTheLatestClaim(env: Env, commits: map<Sha, Commit>, entries: seq<Entry>, i: nat) returns (j: nat)
    requires ChainOk(env, commits, entries) && StartsUnclaimed(env, commits) && i < |entries|
    requires OperationAt(env, commits, entries, i).0 != ClaimInvocation
    ensures j < i && OperationAt(env, commits, entries, j) == (ClaimInvocation, OperationAt(env, commits, entries, i).1)
    ensures forall k | j < k < i :: OperationAt(env, commits, entries, k).0 == PersistR1State
  {
    ClaimIsTheHolder(env, commits, entries, i);
    assert LinkAt(env, commits, entries, i);
    j := HolderIsTheLatestClaim(env, commits, entries, i);
  }
}
