# Verified model of the Multiverse control plane

This project models, in Dafny, the state machines at the centre of the repository and proves properties of every run of them:

- **R1** (`R1*.dfy`): the lease, fencing and versioned-cache engine over its validated store. `R1Engine` gives each call its meaning on a state value, `R1Store.Engine` edits the sections in place and is proved to have that meaning, `R1Runs` holds the theorems over whole runs, `R1Keys` the ones about the idempotency key, `R1Progress` when a call succeeds, `R1Contracts` each call as a whole, field by field, `R1Validity` what the validation of a state guarantees, `R1History` what authorized a success and what counted an attempt, and `R1Examples` runs from the empty store with real authorizations.
- **Stage 1** (`Stage1*.dfy`): control counting and its reconciliation, the sealed authorization bundle, and any number of competing, crashing workers over the abstract control-plane adapter. `Stage1Adapter` is the straight-line invocation on the shared remote, `Stage1Contracts` says exactly when each control operation is allowed, `Stage1Progress` shows that an invocation left alone goes through, `Stage1Retry` that an attempt that ran out is counted, `Stage1Phases` what each phase has behind it, and `Stage1Examples` runs two of them. `Stage1Ledger` adds the ledger's rule for transitions, and `Stage1LedgerExamples` reaches the point where it refuses the runtime.
- **Ledger** (`Ledger*.dfy`): the GitHub runtime ledger. Tag names, authenticated payloads, transition semantics, the replay loop, and the journal-first protocol with several clients and a crash possible between any two remote operations. `LedgerAuth` says what a load accepts without the verifier's own checks, and that nothing loads that was not signed; `LedgerProjection` reads a journal as a run of the abstract adapter, and `LedgerExamples` is a race of two clients.
- **The whole control plane** (`Stage1OnLedger*.dfy`): invocations whose every adapter call is a load, a tag push and a branch push on the journal-first ledger, interleaved one remote operation at a time. It is proved to refine Stage 1, and never to make two tags of one sequence.
- **Orchestrator, relay, provider adapter** (`Orchestrator*.dfy`, `Relay*.dfy`, `Provider*.dfy`): the retry-bounded task machine, the leased job queue with claim tokens, execute-once receipts, and the v7 result contract. `OrchestratorHistory` and `OrchestratorSteps` say what the row remembers of its log and where each answer of a worker leads, `RelayContracts` what each transaction does and what each job goes back to, `ProviderContracts` what v7 lets through.
- **Aggregator** (`Aggregator*.dfy`): grouping, deduplication and divergence labels over any list of results; `AggregatorReading` is what its output says about the submissions.
- **Core state** (`AuditChain.dfy`, `Core*.dfy`): task lifecycle, receipts, revenue and the hash-chained audit log; `CoreContracts` gives every row of the log its cause.

`Prelude` and `Ordering` hold shared vocabulary, `Traces` runs made of given events. `dafny verify dfyconfig.toml` checks everything.

## How the model is set up

- Digests, MACs, fingerprints, signatures and operation keys are function-valued fields of an `Env`, `Digests` or `Setup` record. Nothing assumes them injective unless a lemma says so in its `requires`.
- One committed transaction or one remote operation is one atomic step; a run is a sequence of states joined by steps in any order; a crash only forgets local state. The one exception is the orchestrator, where a whole step of a process is atomic apart from the points at which it can crash, so a live process that works on after its claim was recovered is not among the interleavings. Times are integers supplied by the events, never assumed to move forward. UUIDs are values drawn fresh.
- Code that updates in place is modelled twice: a method that does the updates, and a function or relation it is proved to meet. The theorems are about the second, so they hold of the first.
- Shape checks (`isinstance`, key sets, schema tags) are carried by types. Fixed texts that are only compared (operation names, error codes, states) are enumerations.

## Where the code and what one would expect of it differ

- A receipt returned by `commit_review` does not mean the cache entry is final. `R1Examples.ReceiptWithoutSealRun` is a run of the engine in which a document hash goes and comes back and a repeated commit returns its receipt over an open entry; `R1Runs.CommitReplySealsCacheIff` gives the exact condition on the state before the call, and when the entry is final through another task's receipt.
- A task handed out again after its hash came back may never be committed: `R1Examples.StaleTaskRun` is such a run, and `R1Runs.OvertakenTaskNeverCommits` says it of every continuation of every run.
- The idempotency key joins candidate and hash with a colon. A pair shares its key with another exactly if one of the two texts holds a colon (`R1Keys.IdemSharedIff`); colon-free candidates, or colon-free hashes, suffice to separate (`R1Keys.IdemSeparates`, `R1Keys.IdemSeparatesByHash`). `R1Examples.SharedKeyRun` is a run of the engine in which an inspection of one candidate hands out another's task.
- A receipt id is twenty digits of a digest, so no digest keeps all ids apart. `Stage1Runs.AtMostCeilingReceipts` therefore says: at most 25 receipts, or two commits of this run wrote different payloads under one receipt id.
- The runtime claims with the reconciled control, while the concrete ledger accepts a claim only if nothing else in the control changed. `Stage1LedgerExamples.UncountedRun` is a run in which an invocation commits its review and crashes, and the next invocation's claim, which the abstract adapter would take, is refused. That is all the ledger refuses of what the runtime asks (`Stage1Ledger.RefusedIff`, `LedgerAppend.RuntimeClaimAcceptedIff`), and it is final: with the crashed holder gone the branch never moves again (`Stage1Ledger.StuckForever`, `Stage1OnLedgerRuns.UnreconciledHeadIsFinal`).
- A crash between the two pushes, or a lost branch push, makes the ledger unloadable for good; there is no repair step in the code although an error text speaks of one: `LedgerSafety.HalfDoneAppendIsFinal`.
- Tag names carry the terminal count next to the sequence, so the ledger's own calls let two clients create two tags for one sequence, in any provisioned ledger: `LedgerExamples.TwoTagsOfOneSequence`; no load succeeds afterwards. The runtime never does: every call it can make on a head writes the same count, so `Stage1OnLedgerRuns.OneTagEver`.
- The relay's v3 fixture stores any result its script gives it, and a badly bound one blocks its job for ever: `ProviderAdapter.PoisonedRun` is such a run from the empty relay, and `ProviderAdapter.FixtureJobCompletesIff` says exactly which results do it. v7 closes this.
- The last hash does not pin every verifying audit chain. Up to collisions of the hash, and for chains with pairwise different row hashes, as the table demands, it pins a chain exactly if no field of any of its rows holds a bar, payloads included; with one bar anywhere the row can be read another way (`AuditChain.PinnedIff`, for logs of the database `CoreRuns.LogIsPinnedIff`). Among chains whose ids, event names and timestamps hold no bar, as the engine generates them, it pins whatever the payloads hold: `AuditChain.LastHashPinsTheChain`, `CoreRuns.SameHashSameLog`. Migrated rows keep the ids they had.
- In `add_task` an empty idempotency key is not looked up, yet the column is unique, so every later task with an empty key is refused, the same request included: `CoreRuns.EmptyKeyIsRefused`, with the run `CoreRuns.EmptyKeyRun`. `CoreRuns.RepeatedAddReturnsIff` says exactly when a repeat returns the first id.

## Model

| member | source | states |
|---|---|---|
| R1Store.Engine.InspectCandidate | tools/multiverse_r1_engine_v1.py:24-39 | The in-place staging and its rollback have the meaning `Apply` gives the call, for every state and every refusal |
| R1Store.Engine.AcquireLease | tools/multiverse_r1_engine_v1.py:50-59 | The in-place acquisition has the meaning of the call |
| R1Store.Engine.Checkpoint | tools/multiverse_r1_engine_v1.py:40-49 | The in-place checkpoint has the meaning of the call |
| R1Store.Engine.RecordFailure | tools/multiverse_r1_engine_v1.py:60-70 | The in-place failure record and dead-lettering have the meaning of the call |
| R1Store.Engine.CommitReview | tools/multiverse_r1_engine_v1.py:71-90 | The in-place commit has the meaning of the call, replays and version conflicts included |
| R1Store.Engine.Finish | tools/multiverse_r1_state_v1.py:97-103 | A transaction that fails validation restores every section; one that changes something raises the generation by one |
| R1Invariants.ApplyEffect | tools/multiverse_r1_engine_v1.py:24-90 | A call that changes the state passed its guard, succeeded, validated, and raised the generation by exactly one |
| R1Invariants.ApplyKeeps | tools/multiverse_r1_state_v1.py:28-68 | Every call keeps referential integrity, versions, receipts and the final-entry correspondence together |
| R1Steps.StageOverwritesNoTask | tools/multiverse_r1_engine_v1.py:37-39 | Staging that validates never replaces an existing task, even when the task-id digest collides |
| R1Runs.EveryStateValidates | tools/multiverse_r1_state_v1.py:28-68 | Every reachable state validates, and the generation counts the changing transactions |
| R1Validity.StateIff | tools/multiverse_r1_state_v1.py:28-68 | Exactly which states validate, table by table: everything filed under its own name, tasks and keys leading to each other, and every receipt well-formed and the one its task points at |
| R1Validity.EveryStateIsSound | tools/multiverse_r1_state_v1.py:28-68 | So every state of a run from a sound one is sound, and no two tasks share a key |
| R1Runs.TaskHistory | tools/multiverse_r1_engine_v1.py:37-70 | Over any run no task is overwritten: its identity is fixed, epochs and attempts only grow, and a dead-lettered record is frozen |
| R1Runs.EntryHistory | tools/multiverse_r1_engine_v1.py:26-36 | Cache versions never fall, and an equal version means the entry did not change in between |
| R1Runs.ReceiptHistory | tools/multiverse_r1_engine_v1.py:81-90 | Receipts are grow-only |
| R1Runs.CommitSeesAnUntouchedEntry | tools/multiverse_r1_engine_v1.py:77-90 | A new receipt is created only if the candidate's entry was the very same at every moment since its task was staged, even if the hash changed and came back |
| R1Runs.EpochCountsAcquisitions | tools/multiverse_r1_engine_v1.py:50-59 | The fencing epoch equals the number of successful acquisitions, and the owner is the latest acquirer |
| R1Runs.FencedCallIsTheLatestHolder | tools/multiverse_r1_engine_v1.py:21-23 | A successful checkpoint, failure or commit carries the latest epoch and owner, whatever ticks callers pass |
| R1Runs.SupersededHolderIsFenced | tools/multiverse_r1_engine_v1.py:21-23 | After a later acquisition every call with an older epoch fails |
| R1Runs.AttemptsAreBounded | tools/multiverse_r1_engine_v1.py:60-70 | Attempts never exceed the retry budget plus one, and a task is dead-lettered exactly at that value |
| R1Runs.FinalMeansExactlyOneReceipt | tools/multiverse_r1_engine_v1.py:83-90 | An entry is final exactly when a unique receipt of that candidate has its version and state |
| R1Runs.ReplaysReturnTheFirstReceipt | tools/multiverse_r1_engine_v1.py:80-82 | Two successful commits of one task return the same receipt |
| R1Runs.CommitReplySealsCacheIff | tools/multiverse_r1_engine_v1.py:77-90 | A successful commit's receipt seals a final entry exactly if the key had no receipt before the call or the entry's version then was the receipt's; otherwise the entry is final only through another task's receipt |
| R1Runs.OvertakenTaskNeverCommits | tools/multiverse_r1_engine_v1.py:77-90 | From any reachable state in which an entry's version has passed its task's and the key has no receipt, every later commit of that task fails |
| R1Examples.ReceiptWithoutSealRun | tools/multiverse_r1_engine_v1.py:71-90 | A run from the empty store, every call authorized: inspect, lease, commit, inspect another hash, inspect the first, commit; the last reply is the first receipt and the entry is open |
| R1Examples.StaleTaskRun | tools/multiverse_r1_engine_v1.py:26-39 | A run from the empty store in which the task handed out is overtaken for ever |
| R1Examples.SharedKeyRun | tools/multiverse_r1_engine_v1.py:24-39 | A run from the empty store in which inspecting one candidate hands out the task of another |
| R1Runs.CommitCreatesReceiptIff | tools/multiverse_r1_engine_v1.py:71-90 | Exactly when a commit past the guard creates a receipt, as a condition on the state and the arguments |
| R1Keys.IdemSeparates | tools/multiverse_r1_engine_v1.py:17 | The idempotency key identifies candidate and hash between names without a colon |
| R1Keys.IdemSeparatesByHash | tools/multiverse_r1_engine_v1.py:17 | It does so between hashes without a colon too, whatever the candidates are called |
| R1Keys.IdemSharedIff | tools/multiverse_r1_engine_v1.py:17 | A candidate and hash share their key with another pair exactly if one of them holds a colon |
| R1Keys.IdemCollides | tools/multiverse_r1_engine_v1.py:17 | With a colon two different candidates share one key |
| R1Runs.InspectHandsOutItsOwnTask | tools/multiverse_r1_engine_v1.py:24-39 | The task an inspection hands out has the asked key, and is the asked candidate's when no name holds a colon |
| R1Progress.InspectSucceedsIff | tools/multiverse_r1_engine_v1.py:24-39 | Exactly when an inspection past its guard succeeds, and what it stages |
| R1Progress.AcquireSucceedsIff | tools/multiverse_r1_engine_v1.py:50-59 | Exactly when a lease call past its guard succeeds, and the lease it gives |
| R1Progress.CheckpointSucceedsIff | tools/multiverse_r1_engine_v1.py:40-49 | Exactly when a checkpoint past its guard succeeds |
| R1Auth.AcceptedIff | tools/multiverse_r1_auth_v1.py:31-59 | Exactly which decisions authorize a need: every checked field named, the three generations, the scope, the ceiling, the grant and the owner gate among them |
| R1Contracts.GuardIff | tools/multiverse_r1_engine_v1.py:24-90 | Exactly which calls get past an engine guard: the engine's main, the caller's own worker id, sound ticks, reference, reason and verdict, and a decision that authorizes this call |
| R1Contracts.InspectIs | tools/multiverse_r1_engine_v1.py:24-39 | Exactly when an inspection succeeds on a valid state, what it answers, and every field of the entry and the task it stages |
| R1Contracts.AcquireIs | tools/multiverse_r1_engine_v1.py:50-59 | Exactly when a lease call succeeds on a valid state, and every field of the task afterwards |
| R1Contracts.CheckpointIs | tools/multiverse_r1_engine_v1.py:40-49 | Exactly when a checkpoint succeeds on a valid state, and every field of the task afterwards |
| R1Contracts.RecordFailureIs | tools/multiverse_r1_engine_v1.py:60-70 | Exactly when a failure record succeeds on a valid state; it counts one attempt, and the one past the budget dead-letters the task with the given reason |
| R1Contracts.CommitIs | tools/multiverse_r1_engine_v1.py:71-90 | Exactly when a commit succeeds on a valid state, a replay included, and every field of the receipt, the entry and the task it writes |
| R1History.SuccessWasAuthorized | tools/multiverse_r1_auth_v1.py:31-59 | Over any run, every call that succeeds carried a decision of its own actor that is current in policy, revocation and safe mode, inside its window and with a valid grant |
| R1History.OvertakenDecisionNeverSucceeds | tools/multiverse_r1_auth_v1.py:40-42 | Once a generation or the policy digest has moved past a decision, no call that carries it succeeds |
| R1History.AttemptsCountFailures | tools/multiverse_r1_engine_v1.py:60-70 | Over any run, the attempt count of a task is the number of successful failure records on it since it was staged |
| R1History.LastFailureKills | tools/multiverse_r1_engine_v1.py:68-69 | The failure record that takes the count past the budget dead-letters the task with its own reason, and no later call on the task succeeds |
| R1History.CommitsOfOneTaskAgree | tools/multiverse_r1_engine_v1.py:75-90 | Two successful commits of one task have the same payload text, so the same verdict and evidence, or their payloads are a collision of the digest |
| Stage1Control.ReconcileIs | tools/multiverse_r1_stage1_runtime_v1.py:327-345 | Reconciliation keeps the counted prefix, ends with exactly the counted and durable ids, duplicate-free, and pauses at the ceiling |
| Stage1Control.ReconcileUnchangedIff | tools/multiverse_r1_stage1_runtime_v1.py:327-345 | Reconciliation leaves the control unchanged exactly when every durable id is counted and a reached ceiling is already recorded |
| Stage1Control.ReconcileIdempotent | tools/multiverse_r1_stage1_runtime_v1.py:327-345 | Reconciling twice is reconciling once, and a pause is never lifted |
| Stage1Control.RecordingAgreesWithCounting | tools/multiverse_r1_stage1_runtime_v1.py:401-415 | Recording receipts one by one succeeds exactly while the ceiling allows, and agrees with the one-pass reconciliation |
| Stage1Control.ReconcileTerminalReceipts | tools/multiverse_r1_stage1_runtime_v1.py:327-345 | The loop computes the reconciliation, refusals included |
| Stage1Contracts.CeilingIff | tools/multiverse_r1_stage1_runtime_v1.py:348-371 | Exactly when work may go on, and otherwise the first failing check as the refusal |
| Stage1Contracts.RecordIs | tools/multiverse_r1_stage1_runtime_v1.py:401-415 | A receipt id is counted exactly once; the twenty-fifth pauses and a twenty-sixth is refused |
| Stage1Seal.SealedBundleSuffices | tools/multiverse_r1_stage1_runtime_v1.py:467-538 | If sealing succeeds, none of the engine calls of the invocation can be denied authorization, on any state |
| Stage1Seal.LeaseDeniedIffTaskIdsDisagree | tools/multiverse_r1_stage1_runtime_v1.py:448-464 | A lease call is denied exactly when its task id is not the one the runtime computed for the envelope |
| Stage1Seal.SealSucceedsIff | tools/multiverse_r1_stage1_runtime_v1.py:467-538 | Exactly when a bundle can be sealed: its shape, its mains, and a decision that authorizes each needed operation |
| Stage1Runs.CeilingAndCounts | tools/multiverse_r1_stage1_runtime_v1.py:327-415 | In every reachable world durable receipt ids are at most 25, counted ids are a duplicate-free subset missing at most one and only under a claim, and paused holds exactly at 25 |
| Stage1Runs.ClaimAndReleaseSettleTheCount | tools/multiverse_r1_stage1_runtime_v1.py:558-565 | Every claim and release leaves the counted ids equal to the durable ones |
| Stage1Runs.ClaimsAreExclusive | tools/multiverse_r1_stage1_runtime_v1.py:348-387 | The claim passes to a worker only when free or expired by its trusted clock, for five minutes, on the activation's main and inside the seven-day window |
| Stage1Runs.AttemptsStayBehindEpochs | tools/multiverse_r1_stage1_runtime_v1.py:619-650 | Attempts stay below the epoch and within the budget although a crash can lose a failure record |
| Stage1Runs.DurableReceiptsStay | tools/multiverse_r1_stage1_runtime_v1.py:655-690 | A durable receipt stays the receipt of its key for the rest of the run |
| Stage1Runs.NoEngineCallIsDenied | tools/multiverse_r1_stage1_runtime_v1.py:568-690 | In no reachable world is a claimed invocation's next engine call denied authorization |
| Stage1Runs.AtMostCeilingReceipts | tools/multiverse_r1_stage1_runtime_v1.py:568-743 | In every run the receipts never exceed the ceiling, unless two commits of the run wrote different payloads under one receipt id |
| Stage1Runs.ReceiptHasItsCommit | tools/multiverse_r1_stage1_runtime_v1.py:655-690 | Every durable receipt was written by a commit step of the run, with that commit's payload and id |
| Stage1Progress.PrepareSucceedsIff | tools/multiverse_r1_stage1_runtime_v1.py:693-717 | Exactly when an invocation gets to its claim: a sealing bundle, fewer durable receipts than the ceiling, a free or expired claim, the activation's main and an open window |
| Stage1Progress.CommitIsReached | tools/multiverse_r1_stage1_runtime_v1.py:568-690 | A claimed invocation for an unknown candidate, left alone, makes its receipt durable in five calls, with the control still as claimed |
| Stage1Progress.InvocationSucceeds | tools/multiverse_r1_stage1_runtime_v1.py:568-690 | A claimed invocation for an unknown candidate, left alone, ends released with a durable receipt, a final entry, a settled count and a free claim |
| Stage1Phases.CommitsAreEarned | tools/multiverse_r1_stage1_runtime_v1.py:605-690 | In every reachable world an invocation about to commit holds a live task, leased to it for ten ticks under the epoch it commits with, and checkpointed; one about to checkpoint holds such a lease, and one about to record a failure one that follows an earlier |
| Stage1Retry.LeaseLeadsToFailureIff | tools/multiverse_r1_stage1_runtime_v1.py:605-645 | A lease leads to a failure record exactly if an earlier attempt at the task ran out without a receipt, and to a checkpoint otherwise |
| Stage1Retry.ExpiredAttemptIsCounted | tools/multiverse_r1_stage1_runtime_v1.py:619-650 | A live invocation left alone records such an attempt as one failure, with the task dead-lettered and the claim released exactly when the budget is used up |
| Stage1Examples.TwoReceiptsRun | tools/multiverse_r1_stage1_runtime_v1.py:568-743 | A run from the empty control ends with two durable receipts under different ids, both counted |
| Stage1Ledger.RunIsAbstractRun | tools/multiverse_r1_stage1_github_runtime_cas_v1.py:598-640 | Every run under the ledger's rule for transitions has the worlds of a run over the abstract adapter |
| Stage1Ledger.RefusedIff | tools/multiverse_r1_stage1_github_runtime_cas_v1.py:598-640 | In every reachable world the ledger's rule refuses a runtime call exactly if it is a claim on a control that misses a durable receipt |
| Stage1Ledger.StuckForever | tools/multiverse_r1_stage1_runtime_v1.py:717-734 | Once a receipt is uncounted and its claim holder is gone, control, state and head never change again |
| Stage1LedgerExamples.UncountedRun | tools/multiverse_r1_stage1_runtime_v1.py:568-734 | A run that gets there: commit, crash, and a later invocation whose claim the abstract adapter would accept and the rule refuses |
| Stage1OnLedgerRuns.WhatIsSeenIsARun | tools/multiverse_r1_stage1_runtime_v1.py:693-743 | Invocations over the journal-first ledger, interleaved by remote operations with crashes and moves of main, see world by world a run of Stage 1 under the ledger's rule |
| Stage1OnLedgerRuns.HeadKeepsCeilingAndCount | tools/multiverse_r1_stage1_runtime_v1.py:327-415 | So every head of the branch keeps the ceiling, the count and the pause |
| Stage1OnLedgerRuns.OneTagEver | tools/multiverse_r1_stage1_github_runtime_cas_v1.py:821-863 | No sequence ever gets two tags in a run of the runtime over the ledger |
| Stage1OnLedgerRuns.UnreconciledHeadIsFinal | tools/multiverse_r1_stage1_github_runtime_cas_v1.py:598-640 | Once the head misses a durable receipt and no holder of its claim is at it, the branch never moves again |
| Stage1OnLedgerExamples.CallGoesThrough | tools/multiverse_r1_stage1_github_runtime_cas_v1.py:791-863 | A call that nobody disturbs goes through its five remote operations and moves the branch to what it asked for |
| Stage1OnLedgerExamples.LoadGoesThroughIff | tools/multiverse_r1_stage1_github_runtime_cas_v1.py:733-791 | The load before a call goes through exactly if the branch is where the invocation left it and loads; otherwise the invocation has ended |
| Stage1OnLedgerExamples.FirstClaimLands | tools/multiverse_r1_stage1_runtime_v1.py:693-734 | A run of the whole control plane from a provisioned ledger in which a claim moves the branch |
| Stage1Adapter.SharedRemote.Claim | tools/multiverse_r1_stage1_runtime_v1.py:931-942 | Compare-and-swap claim: new control and head, or nothing changed |
| Stage1Adapter.SharedRemote.Persist | tools/multiverse_r1_stage1_runtime_v1.py:944-957 | Only the current claim persists, and only a valid state |
| Stage1Adapter.SharedRemote.Release | tools/multiverse_r1_stage1_runtime_v1.py:959-974 | Only the current claim releases, and the high water follows the count up |
| Stage1Adapter.ProcessClaimed | tools/multiverse_r1_stage1_runtime_v1.py:568-690 | The straight-line invocation leaves the remote exactly where the phase machine drives it, on every refusal path |
| Stage1Adapter.ReleaseRemote | tools/multiverse_r1_stage1_runtime_v1.py:558-565 | Reconcile, clear the claim, release, or stop with the claim in place |
| Stage1Adapter.DriveIsARun | tools/multiverse_r1_stage1_runtime_v1.py:568-743 | An uninterrupted invocation is one of the interleavings and ends within its seven steps |
| LedgerTags.TagRoundTrip | tools/multiverse_r1_stage1_github_runtime_cas_v1.py:827-830 | A printed tag parses back to its numbers exactly while the terminal count is below 10^8 |
| LedgerTags.ParsedTagWasPrinted | tools/multiverse_r1_stage1_github_runtime_cas_v1.py:72-74 | Only printed tags parse |
| LedgerVerify.JournalEntries | tools/multiverse_r1_stage1_github_runtime_cas_v1.py:642-659 | Listing, sorting and numbering succeed exactly when the tags enumerate 1, 2, 3, ... and give that enumeration |
| LedgerVerify.VerifyJournalChain | tools/multiverse_r1_stage1_github_runtime_cas_v1.py:668-731 | The replay loop accepts exactly the journals that replay to the head, and returns the head's terminal count |
| LedgerChain.OneTagPerSequence | tools/multiverse_r1_stage1_github_runtime_cas_v1.py:642-659 | A numbered journal has exactly one tag for each sequence |
| LedgerChain.LoadSuccessMeansExactJournal | tools/multiverse_r1_stage1_github_runtime_cas_v1.py:733-758 | A successful load means one tag for each of 1..n and no other, with tag n at the head |
| LedgerChain.ChainGrows | tools/multiverse_r1_stage1_github_runtime_cas_v1.py:566-590 | Along an accepted chain counted ids only grow by appending, the identity is fixed, and paused is absorbing |
| LedgerChain.HighWaterIsTheHead | tools/multiverse_r1_stage1_github_runtime_cas_v1.py:699-731 | The largest tag terminal count is the head's terminal count |
| LedgerChain.WritesCarryTheLatestClaim | tools/multiverse_r1_stage1_github_runtime_cas_v1.py:598-640 | On any accepted chain from an unclaimed control, every persist and release carries the most recent claim with no release since |
| LedgerAuth.LoadsIff | tools/multiverse_r1_stage1_github_runtime_cas_v1.py:484-758 | A load succeeds exactly when the journal is the printed tags of one path of genuine transitions from the provisioned head to the loaded one; genuine means the next number, the anchored identity, the writer key, the digest and the MAC over exactly these fields, and a change its operation allows |
| LedgerAuth.AcceptedMeansSigned | tools/multiverse_r1_stage1_github_runtime_cas_v1.py:484-563 | Unforgeability: if no stored MAC is that of a message outside a set, then the message of every journaled transition of a ledger that loads is in it |
| LedgerAuth.ExchangedAuthNeedsItsMac | tools/multiverse_r1_stage1_github_runtime_cas_v1.py:534-562 | A journaled transition with any other authentication makes the load fail, unless operation or claim is exchanged together with the MAC of that other message |
| LedgerAuth.ExchangedContentNeedsACollision | tools/multiverse_r1_stage1_github_runtime_cas_v1.py:547-549 | Another control or state under the old authentication makes the load fail, unless both contents have one digest |
| LedgerAppend.AppendThenLoad | tools/multiverse_r1_stage1_github_runtime_cas_v1.py:791-863 | After a load, an append whose pushes succeed is accepted by the next load, which reads back exactly the written payload, if and only if the terminal count fits its field |
| LedgerAppend.LedgerRefinesAdapter | tools/multiverse_r1_stage1_github_runtime_cas_v1.py:598-640 | Every transition the ledger accepts is one the abstract adapter makes, with the same control and state |
| LedgerProjection.LoadedJournalIsAdapterRun | tools/multiverse_r1_stage1_github_runtime_cas_v1.py:668-758 | Every journal that loads is a run of the abstract adapter from the genesis, ending in the control, state and high water the load returns |
| LedgerProjection.BranchIsAnAdapterRun | tools/multiverse_r1_stage1_github_runtime_cas_v1.py:791-863 | In every reachable world, loadable or not, the heads of the branch are the snapshots of an adapter run |
| LedgerAppend.RuntimeClaimAcceptedIff | tools/multiverse_r1_stage1_runtime_v1.py:717-734 | The ledger accepts the runtime's claim exactly when reconciliation had nothing to do |
| LedgerSafety.JournalFirst | tools/multiverse_r1_stage1_github_runtime_cas_v1.py:791-863 | The branch only moves to a commit a tag already names, whose parent is the old head and whose number is the next |
| LedgerSafety.EveryHeadIsJournaled | tools/multiverse_r1_stage1_github_runtime_cas_v1.py:791-863 | Every head past the initial one is the target of a tag |
| LedgerSafety.MainIsBinding | tools/multiverse_r1_stage1_github_runtime_cas_v1.py:402-421 | While main is not the activation's, no load of any head succeeds |
| LedgerSafety.LoadableIff | tools/multiverse_r1_stage1_github_runtime_cas_v1.py:668-758 | In any reachable world the head loads exactly when every tag parses and names a commit the branch has pointed at |
| LedgerSafety.LoadableIffExactJournal | tools/multiverse_r1_stage1_github_runtime_cas_v1.py:642-758 | In any reachable world the head loads exactly when the journal has one tag for each number up to the head's sequence and no other |
| LedgerSafety.JournalAheadIsFinal | tools/multiverse_r1_stage1_github_runtime_cas_v1.py:668-731 | Once the journal is ahead with nobody in flight, every later load is refused |
| LedgerSafety.HalfDoneAppendIsFinal | tools/multiverse_r1_stage1_github_runtime_cas_v1.py:832-860 | A crash, a moved main or a lost branch push after the tag push makes every later load fail |
| LedgerExamples.TwoTagsOfOneSequence | tools/multiverse_r1_stage1_github_runtime_cas_v1.py:821-863 | In every provisioned ledger two clients of the ledger's own calls can both push a tag of the same sequence, with different terminal counts; one branch push wins and no load succeeds afterwards |
| LedgerExamples.AProvisionedLedger | tools/multiverse_r1_stage1_github_runtime_cas_v1.py:642-659 | Such a ledger exists |
| OrchestratorStore.Task.constructor | automation/orchestrator_mvp_v2.py:159-164 | A created task is the initial world, and its spec is valid |
| OrchestratorStore.Task.OwnerGate | automation/orchestrator_mvp_v2.py:281-283 | The row and the log become exactly the owner-gate transition of the old world |
| OrchestratorStore.Task.SemanticFail | automation/orchestrator_mvp_v2.py:284-288 | Counting, repeating and exhausting a semantic failure, on the row and the log |
| OrchestratorStore.Task.TransientFail | automation/orchestrator_mvp_v2.py:289-292 | Counting and exhausting a transient failure |
| OrchestratorStore.Task.StartStep | automation/orchestrator_mvp_v2.py:181-190 | A claim is taken exactly when none is active |
| OrchestratorStore.Task.FinishStep | automation/orchestrator_mvp_v2.py:197-205 | Only the holder of the current claim finishes |
| OrchestratorStore.Task.RecoverStale | automation/orchestrator_mvp_v2.py:206-217 | A stale claim is dropped without consuming a retry; otherwise nothing changes |
| OrchestratorStore.Task.RunWorker | automation/orchestrator_mvp_v2.py:232-247 | A stored receipt is returned as it is; otherwise the script is played and only a result is stored |
| OrchestratorStore.Task.RunClaimed | automation/orchestrator_mvp_v2.py:318-325 | Every outcome of the worker leads to its own transition, or to a captured result |
| OrchestratorStore.Task.Step | automation/orchestrator_mvp_v2.py:326-357 | The whole step, in place, is the step function |
| OrchestratorStore.Task.Rollback | automation/orchestrator_mvp_v2.py:308-311 | Rollback happens exactly with a reason in a non-terminal state |
| OrchestratorStore.Task.RunUntilTerminal | automation/orchestrator_mvp_v2.py:358-363 | The loop ends terminal and leaves the world the recursion defines |
| OrchestratorRuns.TerminatesInTime | automation/orchestrator_mvp_v2.py:326-363 | Every task is terminal within 3 * (semantic budget + 1) + transient budget steps, at most twelve, whatever the worker answers |
| OrchestratorRuns.CountersStayInBudget | automation/orchestrator_mvp_v2.py:284-292 | In every run, crashes and rollbacks included, the stored repeated-failure count never exceeds one and the counters stay in their budgets |
| OrchestratorRuns.CeilingUnreachable | automation/orchestrator_mvp_v2.py:358-363 | With more allowed steps than the bound, so with fifty, the ceiling branch is unreachable |
| OrchestratorRuns.CrashesAreTransparent | automation/orchestrator_mvp_v2.py:318-357 | Any number of crashes between any two transactions, with recoveries, ends in the row and the receipts of the crash-free run |
| OrchestratorRuns.CrashingRunsTerminate | automation/orchestrator_mvp_v2.py:206-217 | The step bound holds for runs with crashes, counting the steps no dead claim blocked |
| OrchestratorRuns.DeadClaimIsRecoverable | automation/orchestrator_mvp_v2.py:206-217 | A dead process's claim is recovered exactly once its heartbeat is old enough, at no retry |
| OrchestratorRuns.DoneHasProvenance | automation/orchestrator_mvp_v2.py:326-357 | In every reachable world DONE implies a mechanical, then a LAB, then an AUDIT pass bound to the candidate head with evidence and no fix required since; the semantic count is the number of fixes required |
| OrchestratorRuns.DoneReportsTheAudit | automation/orchestrator_mvp_v2.py:349-353 | The DONE document holds this task's identity, its counters and the passing audit's evidence |
| OrchestratorRuns.TerminalIsAbsorbing | automation/orchestrator_mvp_v2.py:308-330 | No step, crash, recovery or rollback changes a terminal task |
| OrchestratorHistory.RowRemembersTheLog | automation/orchestrator_mvp_v2.py:284-292 | In every run the stored fingerprint is that of the latest fix required with no review passed since, counted once, and the retry counts are the fixes and the transient failures of the log |
| OrchestratorHistory.ConsecutiveFixesDiffer | automation/orchestrator_mvp_v2.py:285-286 | Two fixes required one after the other, with no review passed between them, have different fingerprints |
| OrchestratorSteps.SemanticFailuresAreGated | automation/orchestrator_mvp_v2.py:284-288 | In every run a timeout, a refused implementation or a requested fix ends at the owner exactly if its fingerprint is that of the standing fix or the budget is used up, with that reason, and is required and counted otherwise |
| OrchestratorSteps.TransientFailuresAreGated | automation/orchestrator_mvp_v2.py:289-292 | In every run a transient failure is checkpointed in its state as often as the budget allows, and the next one ends at the owner |
| OrchestratorSteps.AnswersLead | automation/orchestrator_mvp_v2.py:326-357 | Where every other answer leads: a good implementation to the LAB, a passing bound review onward, and everything else to the owner with its reason, all with the exact log, receipts and summary |
| OrchestratorSteps.CrashLeaves | automation/orchestrator_mvp_v2.py:318-357 | Exactly what a process that dies in a step leaves in the row, the log and the receipts, by the last transaction it finished |
| OrchestratorSteps.BoundIff | automation/orchestrator_mvp_v2.py:312-317 | A task may be worked on exactly if main, head and safety flags are in order, and the first that is not is the reason |
| OrchestratorSteps.GateFailsIff | automation/orchestrator_mvp_v2.py:253-266 | The mechanical gate refuses with exactly the code of its first failing check |
| RelayStore.Queue.Enqueue | automation/orchestrator_role_relay_v3.py:102-162 | A valid new submission is inserted, a replay must agree with the stored job, and a refusal changes nothing |
| RelayStore.Queue.RecoverExpired | automation/orchestrator_role_relay_v3.py:164-194 | The row loop requeues exactly the expired claims and reports exactly those |
| RelayStore.Queue.ClaimNext | automation/orchestrator_role_relay_v3.py:196-223 | After recovery the oldest queued job, by creation time and key, is claimed; none only if none is queued |
| RelayStore.OldestIsUnique | automation/orchestrator_role_relay_v3.py:205-206 | Creation time and key leave one oldest queued job, so which job a claim takes is determined |
| RelayStore.Queue.Heartbeat | automation/orchestrator_role_relay_v3.py:225-233 | Only the current token of a claimed job extends the lease |
| RelayStore.Queue.Complete | automation/orchestrator_role_relay_v3.py:235-268 | Completion, replay and every refusal, on the job table |
| RelayStore.Queue.ResultOf | automation/orchestrator_role_relay_v3.py:270-274 | A result is read only from a complete job |
| RelayStore.ReceiptTable.ExecuteOnce | automation/orchestrator_provider_adapter_v7.py:221-257 | A stored receipt is replayed; a new one and its execution count are written together or not at all |
| RelayRuns.SubmittedJobIsTheSubmission | automation/orchestrator_role_relay_v3.py:102-162 | An accepted submission is queued as submitted under its own key, with all eight hazard flags present and lowered and no cost, and no other job changes |
| RelayContracts.EnqueueIs | automation/orchestrator_role_relay_v3.py:102-162 | What becomes of any submission: refused for the first check it fails, queued as it is, taken as a repeat, or refused as a mismatch |
| RelayContracts.JobIsItsSubmission | automation/orchestrator_role_relay_v3.py:102-162 | In every run each job goes back to one admissible submission and still is it, whatever has happened to it |
| RelayContracts.LeaseIsTheLatest | automation/orchestrator_role_relay_v3.py:164-233 | In every run the lease of a claimed job is that of its latest claim or heartbeat, given to the first queued job or to the holder of its token, with nothing in between |
| RelayContracts.ReceiptIsWhatWasProduced | automation/orchestrator_provider_adapter_v7.py:221-257 | In every run each durable receipt is what a worker holding the job produced for it, admitted and accepted, under the hash of that job's request |
| RelayRuns.AtMostOnce | automation/orchestrator_role_relay_v3.py:329-371 | Under any interleaving an operation key's work is done at most once, exactly when its receipt exists, as the stored count says |
| RelayRuns.ResultIsTheReceipt | automation/orchestrator_role_relay_v3.py:235-268 | A complete job's result is its durable receipt, and neither ever changes |
| RelayRuns.CompletedByItsHolder | automation/orchestrator_role_relay_v3.py:235-268 | Only the one worker that holds the current claim token completes a job |
| RelayRuns.RecoveredTokenIsDead | automation/orchestrator_role_relay_v3.py:164-268 | A recovered claim's token never changes a job again, whoever presents it |
| RelayRuns.CompletesIff | automation/orchestrator_role_relay_v3.py:235-268 | A worker with a result completes exactly when the job is complete or it holds the claim and the result is bound; the conflicting-duplicate error is unreachable |
| RelayRuns.NoConflictingReplay | automation/orchestrator_provider_adapter_v7.py:221-257 | The conflicting-replay error is unreachable, and a worker gets the stored receipt unless it reads an exhausted script first |
| RelayRuns.PoisonIsForever | automation/orchestrator_role_relay_v3.py:329-371 | A durable receipt that completion refuses blocks its job for ever |
| ProviderAdapter.NoPoison | automation/orchestrator_provider_adapter_v7.py:62-90 | Every v7 receipt satisfies its role schema, and the current claim holder with its result always completes |
| ProviderContracts.ResultIff | automation/orchestrator_provider_adapter_v7.py:62-90 | Exactly which results v7 accepts, by the role of the job |
| ProviderContracts.ReceiptsAnswerTheirJobs | automation/orchestrator_provider_adapter_v7.py:221-257 | In every v7 run each durable receipt answers a job on the reviewed main for a full head, with a ready implementation of that head or a judgement of it, under the hash of its request |
| ProviderAdapter.ReviewsAlwaysParse | automation/orchestrator_mvp_v2.py:337-356 | A v7 review is never unparsable: it passes the task on or asks for a fix |
| ProviderAdapter.DeliveredResultsAreSound | automation/orchestrator_provider_adapter_v7.py:306-330 | Whatever a v7 relay delivers as a complete job's result passes the orchestrator's gates but for the diff budget |
| ProviderAdapter.FixtureCanBePoisoned | automation/orchestrator_role_relay_v3.py:349-371 | In every run of the v3 fixture, a result for another head that a worker produces becomes durable and blocks its job for ever |
| ProviderAdapter.FixtureJobCompletesIff | automation/orchestrator_role_relay_v3.py:349-371 | A job one worker takes through the fixture from the empty relay completes exactly if the result is bound to its head with evidence; otherwise it completes in no continuation |
| ProviderAdapter.PoisonedRun | automation/orchestrator_role_relay_v3.py:349-371 | The run itself, with a submission that has every flag: enqueue, claim, run with a result for another head, and the job stays blocked |
| Aggregator.Group | automation/multimodel_research_v1/aggregator.py:36-59 | The first loop accepts exactly the valid lists without repeated ids and groups them by identity |
| Aggregator.Settle | automation/multimodel_research_v1/aggregator.py:64-89 | One identity settles exactly when its digests agree; the least id stands and every other is acknowledged |
| Aggregator.Stances | automation/multimodel_research_v1/aggregator.py:100-130 | The claim loops collect exactly who holds which position on which claim |
| Aggregator.BuildClaims | automation/multimodel_research_v1/aggregator.py:132-211 | One claim for each key somebody speaks to, in order, with its holders in order and its label |
| Aggregator.AggregateResults | automation/multimodel_research_v1/aggregator.py:28-284 | Accepts exactly the valid, distinct, consistent inputs, and its output is the described aggregate of their set; each error has its cause, a conflict naming the first identity in order |
| AggregatorLaws.AggregateIsAFunctionOfTheSet | automation/multimodel_research_v1/aggregator.py:28-284 | Any two aggregates of one set of results are equal in every field and order |
| AggregatorLaws.PermutationInvariant | automation/multimodel_research_v1/aggregator.py:43-89 | Reordering the input changes neither acceptance nor output |
| AggregatorLaws.InputIsUniquePlusDuplicates | automation/multimodel_research_v1/aggregator.py:61-97 | Input count is unique identities plus acknowledged duplicates |
| AggregatorLaws.DuplicateInsensitive | automation/multimodel_research_v1/aggregator.py:61-189 | A duplicate changes no position, count, label or divergence and adds one acknowledgement |
| AggregatorLaws.ConsistentWithDuplicate | automation/multimodel_research_v1/aggregator.py:64-73 | A duplicate never decides whether the input is consistent |
| AggregatorLaws.ClaimDiversity | automation/multimodel_research_v1/aggregator.py:287-380 | The loops over four dictionaries compute participation, the presence counts of each taken position, and the three flags, which mean that a supporter and an opposer share a model, differ in model, differ in provider |
| AggregatorReading.MetadataCounts | automation/multimodel_research_v1/aggregator.py:287-380 | The metadata counts the different models and providers that take each position and all of them, and the flags say that supporters and opposers share a model, differ in model, differ in provider |
| AggregatorLaws.DivergentIff | automation/multimodel_research_v1/aggregator.py:134-189 | DIVERGENT holds exactly for cross-model or role-conditioned divergence, and cross-provider implies cross-model |
| AggregatorLaws.LabelSaysWhoSpoke | automation/multimodel_research_v1/aggregator.py:134-160 | Every label says which sides were taken and whether anybody was undecided |
| AggregatorReading.DivergencesAreDisagreements | automation/multimodel_research_v1/aggregator.py:134-189 | A divergence is listed exactly for the claims that some standing result supports and some opposes, which are the cross-model and role-conditioned ones; the list is strictly increasing |
| AggregatorReading.AcceptedIff | automation/multimodel_research_v1/aggregator.py:28-73 | Exactly which lists are aggregated, said of the submissions themselves |
| AggregatorReading.ClaimsSayWhatWasSaid | automation/multimodel_research_v1/aggregator.py:100-172 | A claim lists an identity under a position exactly if the completed submission that stands for it says so |
| AggregatorReading.AcksNameTheRepeated | automation/multimodel_research_v1/aggregator.py:61-97 | The acknowledgements are exactly those of the submissions that repeat an identity, each naming the submission that stands for it and their common digest |
| AggregatorReading.EveryIdentityStands | automation/multimodel_research_v1/aggregator.py:61-97 | Each identity has exactly its least submission in the aggregate, and is listed as not completed exactly if that one is |
| AggregatorReading.DictionaryOrder | automation/multimodel_research_v1/aggregator.py:64-97 | The order of every list is the dictionary order |
| AggregatorLaws.ParticipantCounts | automation/multimodel_research_v1/aggregator.py:287-380 | Providers at most provider-models at most identities, and position counts add up to the participants |
| AggregatorLaws.CountParticipants | automation/multimodel_research_v1/aggregator.py:390-469 | The v2 loops collect identities, models and providers item by item: the completed counts are those of the claims' participants, the observed ones add the noncompleted, and every claim gets its metadata |
| AggregatorLaws.CompletedAtMostObserved | automation/multimodel_research_v1/aggregator.py:390-469 | Completed never exceeds observed by identity, model or provider, and observed identities are all the unique ones |
| AuditChain.VerifyAuditChain | core_state.py:114-122 | The loop accepts exactly the chains whose every link verifies |
| AuditChain.AppendVerifies | core_state.py:102-108 | An accepted append keeps the chain verifying and the earlier rows |
| AuditChain.Rebuild | core_state.py:85-100 | The migration loop keeps every row's text in order in a verifying chain without repeated ids or hashes, and fails closed exactly when there is none, so when an id repeats |
| AuditChain.JoinedIsInjective | core_state.py:102-108 | The joined text is readable back when only the payload may hold a bar |
| AuditChain.LastHashPinsTheChain | core_state.py:102-122 | Two verifying chains whose ids, event names and timestamps hold no bar and that end in the same hash are the same chain, row for row, or two of their rows are a collision of the hash |
| AuditChain.PinnedIff | core_state.py:102-122 | Of all verifying chains without a collision of their own, the last hash pins exactly those with no bar in any field |
| AuditChain.BarsAreAmbiguous | core_state.py:89-100 | The smallest instance: two different one-row logs with the same hash that both verify |
| CoreEngine.Engine.AppendAudit | core_state.py:102-108 | One row is appended to the chain, or the table refuses it and nothing changes |
| CoreEngine.Engine.AddTask | core_state.py:128-152 | Insertion, replay by key, mismatch and refusal, with rollback |
| CoreEngine.Engine.FetchNext | config/queue.py:13-34 | The oldest queued task starts, or nothing changes |
| CoreEngine.Engine.MarkFailed | config/queue.py:36-48 | Only a running task fails |
| CoreEngine.Engine.RecordClaim | core_state.py:154-165 | Only a running task's result is claimed |
| CoreEngine.Engine.ApplyReceipt | core_state.py:185-219 | One signed acceptance by another party verifies a claimed task; every other case changes nothing |
| CoreEngine.Engine.Realize | core_state.py:221-238 | Only a verified task closes, with at most one revenue row, as one transaction |
| CoreEngine.Engine.DisableProvider | core_state.py:240-247 | A disabled provider is disabled whatever it was before |
| CoreEngine.Engine.Realized | core_state.py:254-259 | The reported total is the sum of the revenue rows |
| CoreRuns.ApplyIsOneEvent | core_state.py:128-247 | Every operation changes nothing, or logs exactly one event and makes exactly that event's change |
| CoreRuns.RevenueIsWhatWasClosed | core_state.py:221-238 | Realized revenue is the sum of the closing events' amounts, and a task has one closing event exactly when it is closed |
| CoreRuns.ClosedOnlyAfterAcceptance | core_state.py:154-238 | Each closing event follows a claim and an acceptance of the same task by different parties, with that receipt |
| CoreContracts.DueIsWritten | core_state.py:102-247 | What every operation writes when its event is due: the tables as the event says and one row behind the last, or nothing at all when the audit table refuses the row |
| CoreContracts.ChangeWasDue | core_state.py:128-247 | An operation that changes anything had its event due: every condition of every operation, named |
| CoreContracts.EveryRowHasItsCause | core_state.py:102-247 | Every row of every reachable log was written in its place by an operation entitled to its event, which made exactly that change |
| CoreContracts.AcceptedMeansSigned | core_state.py:185-238 | Every acceptance of a reachable log, and so every closing, rests on a complete receipt signed as an acceptance of that task, with a 64-digit evidence digest |
| CoreRuns.ChainAlwaysVerifies | core_state.py:102-122 | The audit chain verifies in every state reachable from the empty store |
| CoreRuns.ChainKeepsVerifying | core_state.py:85-122 | From any verifying chain, so after a migration rebuild too, operations keep it verifying |
| CoreRuns.EngineRowsArePlain | core_state.py:102-108 | Rows the engine writes are plain when its generated ids and timestamps hold no bar |
| CoreRuns.SameHashSameLog | core_state.py:102-122 | Two reachable logs of such engines with the same last hash are the same log, or two of their rows collide |
| CoreRuns.LogIsPinnedIff | core_state.py:85-122 | A log reached from any migrated one is pinned by its last hash exactly if none of its fields holds a bar |
| CoreRuns.HistoryOnlyGrows | core_state.py:128-238 | Log, revenues and receipts only grow, statuses only move forward, and closed or failed tasks never change |
| CoreRuns.RepeatedAddReturnsTheFirst | core_state.py:128-152 | Once a task exists under a key, the same request returns its id and changes nothing, at any later time; another request gets nothing |
| CoreRuns.EmptyKeyIsRefused | core_state.py:128-152 | Once a task exists under the empty key, every later add under it returns nothing and changes nothing, the same request included |
| CoreRuns.RepeatedAddReturnsIff | core_state.py:128-152 | A repeat returns the first id exactly if the key is not empty and the stored fingerprint is the request's and not empty |
| CoreRuns.EmptyKeyRun | core_state.py:128-152 | A run in which the same request with an empty key is refused the second time, although its task id and audit row id are new |

## Left out

- Git, `gh`, HTTP, subprocesses, transport pinning, ruleset and origin checks, file modes, fsync, `fcntl` and SQLite pragmas: refs, tags and tables are values, and a compare-and-swap push or a committed transaction is one step.
- SHA-256, HMAC (section 2 of RFC 2104) and the RSA check (section 9.2 of RFC 8017): arbitrary functions; what needs them injective says so.
- Shapes of JSON documents, schema tags and key sets: carried by types. Commit ids are numbers, so the 40-digit test of a previous head is not modelled.
- The history-path and ancestry checks of the ledger, and the read of the ruleset version: taken as passed.
- The glob listing of journal tags: the journal is the map of tags with this activation's prefix, and a tag outside the expression refuses the load as in the code.
- The read of the branch after its push and the closing reload: they change nothing, and a later load is a load like any other. In the composed control plane the next call's load stands for the reload, and a claim may reuse the invocation's first load, so its runs include the code's own.
- The v3 receipt table's missing request fingerprint: the model stores one for every receipt, and `RelayRuns.NoConflictingReplay` shows that it never decides.
- The activation key's 16 hexadecimal digits: any text chosen by the receipt id.
- `expected_generation` of `transact`, `read_receipt` and the owner views of the engine: not on any modelled path.
- The epoch number inside the expired-attempt reason: one fixed text.
- The bundle's Python aliasing: a sealed bundle is a value, so later changes to the original cannot reach it by construction; what is proved is that the sealed copy suffices.
- Timeouts that race with the worker's own commit, non-dictionary results and heartbeat loss during a role's execution: a worker returns a result, or fails in one of three ways, and nothing else.
- The owner-gate summary's fixed sentences and the 240-character cut of its failure text.
- One orchestrated task at a time: the table's other rows are independent of it.
- The polling loop of the relay's role worker, database schema versions and the pinned manifest digests.
- Requested-role coverage and per-status counts of the aggregator, and the digest of the aggregate itself: easy counts of the unique results.
- Validation of research tasks and evidence: an arbitrary predicate, with what it guarantees about findings stated separately.
- The column additions and duplicate checks of `_migrate_schema`: only the audit rebuild is modelled, on rows already in timestamp and id order.
- The Phase-C provisioner, admin channel, preflight, launcher, activation loaders, mechanical gates, renderers and policy change control: long checks without state.
