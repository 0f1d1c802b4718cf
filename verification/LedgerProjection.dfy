// A journal is a run of the abstract control-plane adapter: what each load of the
// concrete ledger would see is what the adapter's operations produce one by one.
module LedgerProjection {
  import opened Prelude
  import opened R1State
  import opened Stage1Control
  import opened Ledger
  import opened LedgerChain
  import opened LedgerAppend
  import Runs = LedgerRuns
  import Safety = LedgerSafety
  import Stage1Runtime

  type Snapshot = Stage1Runtime.Remote

  // The snapshot of the ledger after `i` transitions; the adapter counts its own heads from one.
  function SnapshotAt(env: Env, commits: map<Sha, Commit>, entries: seq<Entry>, i: nat): Snapshot
    requires i <= |entries| && HeadBefore(env, entries, i) in commits
  {
    var p := commits[HeadBefore(env, entries, i)].payload;
    Stage1Runtime.Remote(i + 1, env.anchor.identity.canonicalMain, p.control.terminalCount, p.control, p.r1)
  }

  // One accepted call of the adapter.
  ghost predicate AdapterMakes(r: Snapshot, r': Snapshot, op: Operation, claimId: string) {
    match op
    case ClaimInvocation => Stage1Runtime.ClaimInvocation(r, r.head, r'.control) == Some(r') && r'.control.claimId == Some(claimId)
    case PersistR1State => Stage1Runtime.PersistState(r, r.head, claimId, r'.r1) == Some(r')
    case ReleaseInvocation => Stage1Runtime.ReleaseInvocation(r, r.head, claimId, r'.control) == Some(r')
    case OtherOperation(_) => false
  }

  ghost predicate MadeAt(snapshots: seq<Snapshot>, ops: seq<(Operation, string)>, i: nat)
    requires i < |ops| == |snapshots| - 1
  {
    AdapterMakes(snapshots[i], snapshots[i + 1], ops[i].0, ops[i].1)
  }

  ghost predicate AdapterRun(snapshots: seq<Snapshot>, ops: seq<(Operation, string)>) {
    && |ops| == |snapshots| - 1
    && forall i {:trigger MadeAt(snapshots, ops, i)} | 0 <= i < |ops| :: MadeAt(snapshots, ops, i)
  }

  lemma LinkIsACall(env: Env, commits: map<Sha, Commit>, entries: seq<Entry>, i: nat)
    requires i < |entries| && LinkAt(env, commits, entries, i)
    ensures HeadBefore(env, entries, i + 1) in commits
    ensures var op := OperationAt(env, commits, entries, i);
      AdapterMakes(SnapshotAt(env, commits, entries, i), SnapshotAt(env, commits, entries, i + 1), op.0, op.1)
  {
    hide ValidIdentity, ValidState, IsHex;
    var prev, next := commits[HeadBefore(env, entries, i)].payload, commits[entries[i].sha].payload;
    assert ValidState(next.r1) && ValidControl(next.control);
    var op, claimId := next.auth.value.operation, next.auth.value.claimId;
    LedgerRefinesAdapter(prev, next, op, claimId, SnapshotAt(env, commits, entries, i));
    assert op == Operation.ClaimInvocation ==> next.control.terminalCount == prev.control.terminalCount by { ClaimKeepsCount(prev, next, claimId); }
  }

  lemma ClaimKeepsCount(prev: Payload, next: Payload, claimId: string)
    ensures Semantics(prev, next, Operation.ClaimInvocation, claimId) ==> next.control.terminalCount == prev.control.terminalCount
  {
    if WithoutClaim(prev.control) == WithoutClaim(next.control) {
      assert WithoutClaim(prev.control).terminalCount == WithoutClaim(next.control).terminalCount;
    }
  }

  lemma {:induction false} ChainProjects(env: Env, commits: map<Sha, Commit>, entries: seq<Entry>, n: nat)
    returns (snapshots: seq<Snapshot>, ops: seq<(Operation, string)>)
    requires ChainOk(env, commits, entries) && n <= |entries|
    ensures AdapterRun(snapshots, ops) && |ops| == n
    ensures forall i | 0 <= i < n :: ops[i] == OperationAt(env, commits, entries, i)
    ensures forall i | 0 <= i <= n :: HeadBefore(env, entries, i) in commits && snapshots[i] == SnapshotAt(env, commits, entries, i)
  {
    hide LinkAt, InitialOk, AdapterMakes, SnapshotAt;
    if n == 0 {
      assert env.anchor.initialHead in commits by { GenesisKnown(env, commits); }
      snapshots, ops := [SnapshotAt(env, commits, entries, 0)], [];
    } else {
      var before, made := ChainProjects(env, commits, entries, n - 1);
      assert LinkAt(env, commits, entries, n - 1);
      LinkIsACall(env, commits, entries, n - 1);
      snapshots := before + [SnapshotAt(env, commits, entries, n)];
      ops := made + [OperationAt(env, commits, entries, n - 1)];
      forall i | 0 <= i < n ensures MadeAt(snapshots, ops, i) {
        if i < n - 1 { assert MadeAt(before, made, i); }
      }
    }
  }

  lemma GenesisKnown(env: Env, commits: map<Sha, Commit>)
    requires InitialOk(env, commits)
    ensures env.anchor.initialHead in commits
  {
  }

  /** Every journal that loads is a run of the adapter from the genesis: the adapter accepts its transitions one after
      the other, and ends with the control, the state and the high water that the load returns. */
  lemma LoadedJournalIsAdapterRun(env: Env, main: string, head: Sha, journal: map<string, Sha>, commits: map<Sha, Commit>)
    returns (snapshots: seq<Snapshot>, ops: seq<(Operation, string)>)
    requires LoadOk(env, main, head, journal, commits)
    ensures AdapterRun(snapshots, ops) && |ops| == commits[head].payload.sequence
    ensures env.anchor.initialHead in commits
      && snapshots[0].control == commits[env.anchor.initialHead].payload.control && snapshots[0].r1 == commits[env.anchor.initialHead].payload.r1
    ensures var last, p := snapshots[|ops|], commits[head].payload;
      last.control == p.control && last.r1 == p.r1 && last.highWater == p.control.terminalCount
  {
    hide LinkAt, MadeAt, JournalIs, ValidPayload, AnchorOk, LoadOk;
    var entries := LoadedEntries(env, main, head, journal, commits);
    snapshots, ops := ChainProjects(env, commits, entries, |entries|);
    assert HeadBefore(env, entries, 0) in commits && snapshots[0] == SnapshotAt(env, commits, entries, 0);
    assert snapshots[|ops|] == SnapshotAt(env, commits, entries, |entries|);
  }

  /** And in every reachable world, loadable or not, the branch has gone through the snapshots of an adapter run. */
  lemma BranchIsAnAdapterRun(env: Env, events: seq<Runs.Event>, worlds: seq<Runs.World>, k: nat)
    returns (snapshots: seq<Snapshot>, ops: seq<(Operation, string)>)
    requires Runs.IsRun(env, events, worlds) && k < |worlds|
    ensures AdapterRun(snapshots, ops) && |snapshots| == |worlds[k].remote.heads|
    ensures forall i | 0 <= i < |snapshots| :: var r := worlds[k].remote;
      r.heads[i] in r.commits && snapshots[i].control == r.commits[r.heads[i]].payload.control && snapshots[i].r1 == r.commits[r.heads[i]].payload.r1
  {
    hide LinkAt, MadeAt, Runs.IsRun, Runs.RemoteInv, ChainOk;
    Runs.RunInv(env, events, worlds, k);
    var r := worlds[k].remote;
    Safety.LastHead(env, r);
    Safety.HeadsArePresent(env, r);
    var n := |r.heads| - 1;
    Safety.HeadsChain(env, r, n);
    var entries := Safety.HeadEntries(r, n);
    snapshots, ops := ChainProjects(env, r.commits, entries, n);
    FirstIsInitial(env, r);
    forall i | 0 <= i <= n
      ensures r.heads[i] in r.commits && snapshots[i].control == r.commits[r.heads[i]].payload.control && snapshots[i].r1 == r.commits[r.heads[i]].payload.r1
    {
      assert HeadBefore(env, entries, i) == r.heads[i];
    }
  }

  lemma FirstIsInitial(env: Env, r: Runs.Remote)
    requires Runs.RemoteInv(env, r)
    ensures |r.heads| > 0 && r.heads[0] == env.anchor.initialHead
  {
    hide InitialOk;
    assert Runs.HeadOk(env, r, 0);
  }
}
