// The v7 adapter's two checks from outside, and what they give every receipt of
// every run.
module ProviderContracts {
  import opened Prelude
  import O = Orchestrator
  import opened Relay
  import opened RelayRuns
  import opened RelayContracts
  import opened ProviderAdapter

  predicate Text(f: O.Field) {
    f.Str? && |f.s| > 0
  }

  predicate Count(f: O.Field) {
    f.Num? && f.n >= 0
  }

  // A ready implementation of the head, with a line count, no cost and evidence.
  predicate Delivers(head: string, item: O.Item) {
    item.status == O.Str("READY") && item.candidateHead == O.Str(head) && Count(item.diffLines) && item.cost == O.Num(0) && Text(item.evidence)
  }

  // A review of the head with evidence that passes, or asks for a fix by code and detail.
  predicate Judges(head: string, item: O.Item) {
    && item.reviewedHead == O.Str(head) && Text(item.evidence)
    && (item.verdict == O.Str("PASS") || (item.verdict == O.Str("FIX_REQUIRED") && Text(item.code) && item.detail.Str?))
  }

  /** Exactly which results v7 accepts for a job, by the job's role. */
  lemma ResultIff(p: Payload, item: O.Item)
    ensures ValidResult(p, item) <==> match p.role
      case IMPLEMENT => Delivers(p.head, item)
      case LAB => Judges(p.head, item)
      case AUDIT => Judges(p.head, item)
  {
  }

  predicate HexId(s: string) {
    |s| == 40 && forall i | 0 <= i < 40 :: '0' <= s[i] <= '9' || 'a' <= s[i] <= 'f'
  }

  /** Exactly which claimed jobs v7 asks a provider about. */
  lemma RequestIff(main: string, p: Payload)
    ensures RequestOk(main, p) <==> HexId(p.head) && HexId(p.main) && main == p.main && |p.branch| > 0 && |p.key| > 0
  {
  }

  /** Every durable receipt of every v7 run answers a job on the reviewed main, from a named branch and for a full head, and
      is an answer to it: a ready implementation of that head, or a judgement of it. */
  lemma ReceiptsAnswerTheirJobs(s: Setup, events: seq<Event>, worlds: seq<World>, k: nat, key: string)
    requires IsRun(ProviderEnv(s), events, worlds) && k < |worlds| && key in worlds[k].receipts
    ensures key in worlds[k].jobs
    ensures var p, item := worlds[k].jobs[key].payload, worlds[k].receipts[key].item;
      && HexId(p.head) && p.main == s.main && HexId(s.main) && |p.branch| > 0 && p.key == key && |key| > 0
      && (if p.role == O.IMPLEMENT then Delivers(p.head, item) else Judges(p.head, item))
      && worlds[k].receipts[key].request == HashOf(ProviderEnv(s), p)
  {
    hide Step, ValidResult, RequestOk, HexId, Delivers, Judges, Inv;
    var env := ProviderEnv(s);
    var i := ReceiptIsWhatWasProduced(env, events, worlds, k, key);
    var held := WorkerOf(worlds[i], events[i].who).payload;
    RunInv(env, events, worlds, i);
    HoldsItsJob(env, worlds[i], events[i].who);
    JobStays(env, events, worlds, i, k, key);
    RequestIff(s.main, held);
    ResultIff(held, worlds[k].receipts[key].item);
  }

  lemma {:induction false} JobStays(env: Env, events: seq<Event>, worlds: seq<World>, i: nat, k: nat, key: string)
    requires IsRun(env, events, worlds) && i <= k < |worlds| && key in worlds[i].jobs
    ensures key in worlds[k].jobs && worlds[k].jobs[key].payload == worlds[i].jobs[key].payload
    decreases k
  {
    hide Step, Admissible;
    if i < k {
      JobStays(env, events, worlds, i, k - 1, key);
      assert RelayRuns.StepOk(env, events, worlds, k - 1);
      JobsOnlyGrow(env, worlds[k - 1], events[k - 1], key);
      StepBorn(env, worlds[k - 1], events[k - 1], key);
    }
  }

  lemma JobsOnlyGrow(env: Env, w: World, e: Event, key: string)
    requires key in w.jobs
    ensures key in Step(env, w, e).jobs
  {
    hide OldestQueued, ResultRefusal, Execute, JobRefusal;
  }
}
