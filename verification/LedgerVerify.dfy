// The verifier's own loops: listing and numbering the journal, and replaying it.
module LedgerVerify {
  import opened Prelude
  import opened Ordering
  import opened R1State
  import opened Stage1Control
  import opened LedgerTags
  import opened Ledger
  import opened LedgerChain

  /** `_journal_entries`: parse every listed tag, sort, and refuse a gap. */
  method JournalEntries(key: string, journal: map<string, Sha>) returns (r: Option<seq<Entry>>)
    ensures r.Some? ==> JournalIs(key, journal, r.value)
    ensures r.None? ==> !exists entries :: JournalIs(key, journal, entries)
  {
    hide ParseTag;
    var refs := journal.Keys;
    var found: set<Entry> := {};
    ghost var seen: set<string> := {};
    while refs != {}
      invariant refs <= journal.Keys && seen == journal.Keys - refs
      invariant forall ref | ref in seen :: ParseTag(key, ref).Some?
      invariant found == set ref | ref in seen :: EntryFor(key, journal, ref)
      decreases refs
    {
      var ref :| ref in refs;
      var parsed := ParseTag(key, ref);
      if parsed.None? {
        NoJournalWithout(key, journal, ref);
        return None;
      }
      found := found + {Entry(parsed.value.0, parsed.value.1, journal[ref])};
      refs, seen := refs - {ref}, seen + {ref};
    }
    assert found == EntrySet(key, journal);
    EntryLeIsTotalOrder();
    var out := Sorted(found, EntryLe);
    for i := 0 to |out|
      invariant forall j | 0 <= j < i :: out[j].sequence == j + 1
    {
      if out[i].sequence != i + 1 {
        NoJournalMisnumbered(key, journal, out, i);
        return None;
      }
    }
    SortedIsJournal(key, journal, out);
    return Some(out);
  }

  lemma NoJournalMisnumbered(key: string, journal: map<string, Sha>, out: seq<Entry>, i: nat)
    requires AllParse(key, journal) && Enumerates(out, EntrySet(key, journal), EntryLe)
    requires i < |out| && out[i].sequence != i + 1
    ensures !exists entries :: JournalIs(key, journal, entries)
  {
    hide ParseTag;
    EntryLeIsTotalOrder();
    forall entries ensures !JournalIs(key, journal, entries) {
      if JournalIs(key, journal, entries) {
        JournalIsSorted(key, journal, entries);
        EnumerationUnique(out, entries, EntrySet(key, journal), EntryLe);
      }
    }
  }

  /** `_verify_journal_chain`: the replay loop, updating the previous head, the old payload and the high water. */
  method VerifyJournalChain(env: Env, journal: map<string, Sha>, commits: map<Sha, Commit>, head: Sha)
    returns (highWater: Option<nat>)
    requires head in commits && commits[head].payload.sequence > 0
    ensures highWater.Some? <==> exists entries :: Replays(env, commits, journal, head, entries)
    ensures highWater.Some? ==> highWater.value == commits[head].payload.control.terminalCount
  {
    hide ParseTag, JournalIs, Semantics, AuthVerifies, AnchorOk, ValidPayload;
    var current := commits[head].payload;
    var listed := JournalEntries(Key(env), journal);
    if listed.None? {
      return None;
    }
    var entries := listed.value;
    forall other | JournalIs(Key(env), journal, other) ensures other == entries {
      JournalUnique(Key(env), journal, entries, other);
    }
    if |entries| != current.sequence || !InitialOk(env, commits) {
      return None;
    }
    var previous := env.anchor.initialHead;
    var high := 0;
    assert entries[..0] == [];
    for i := 0 to |entries|
      invariant previous == HeadBefore(env, entries, i) && previous in commits
      invariant high == HighWater(entries[..i])
      invariant forall j {:trigger LinkAt(env, commits, entries, j)} | 0 <= j < i :: LinkAt(env, commits, entries, j)
    {
      if !LinkOk(env, commits, previous, entries[i], i + 1) {
        assert !LinkAt(env, commits, entries, i);
        return None;
      }
      assert entries[..i + 1][..i] == entries[..i];
      high := if high < entries[i].terminal then entries[i].terminal else high;
      previous := entries[i].sha;
      assert LinkAt(env, commits, entries, i);
    }
    assert entries[..|entries|] == entries;
    if previous != head || high != current.control.terminalCount {
      return None;
    }
    assert Replays(env, commits, journal, head, entries);
    return Some(high);
  }
}
