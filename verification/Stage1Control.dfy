// The Stage-1 control record: claim, release, terminal counting, the ceiling,
// and the reconciliation of counted receipts with the durable ones.
// Times are seconds; the schema and stage tags are carried by the type.
module Stage1Control {
  import opened Prelude
  import opened R1State
  import opened Ordering

  const MAX_TERMINAL: nat := 25
  const WINDOW_SECONDS: nat := 7 * 24 * 3600
  const INVOCATION_LEASE_SECONDS: nat := 5 * 60

  datatype Branch = RuntimeBranch | OtherBranch(name: string)

  datatype Identity = Identity(
    activationReceiptId: string,
    canonicalMain: string,
    implementationHead: string,
    runtimeBranch: Branch,
    runtimeGenesis: string,
    activatedAt: int)

  datatype PauseReason = TerminalCeilingReached | OtherReason(text: string)

  datatype Control = Control(
    identity: Identity,
    terminalCount: nat,
    counted: seq<string>,
    paused: bool,
    pauseReason: Option<PauseReason>,
    claimId: Option<string>,
    claimExpiresAt: Option<int>)

  datatype Refusal =
    | ControlInvalid | StateInvalid | DurableCountExceedsCeiling
    | StaleCanonicalMain | AncestryTamper | CountRollback | AlreadyPaused | TerminalCeiling | TimeCeiling
    | ClaimIdInvalid | SecondWorker | StaleClaim | ReceiptIdInvalid | Task26

  predicate Distinct(ids: seq<string>) {
    forall i, j | 0 <= i < j < |ids| :: ids[i] != ids[j]
  }

  predicate ValidIdentity(id: Identity) {
    && id.activationReceiptId != ""
    && IsHexAnyCase(id.canonicalMain, 40) && IsHexAnyCase(id.implementationHead, 40) && IsHexAnyCase(id.runtimeGenesis, 40)
    && id.runtimeBranch == RuntimeBranch
  }

  /** `validate_control`. */
  predicate ValidControl(c: Control) {
    && ValidIdentity(c.identity)
    && "" !in c.counted && Distinct(c.counted)
    && c.terminalCount == |c.counted|
    && (c.pauseReason.Some? ==> c.pauseReason.value != OtherReason(""))
    && (c.claimId.None? <==> c.claimExpiresAt.None?)
    && c.claimId != Some("")
  }

  function EmptyControl(id: Identity): Control {
    Control(id, 0, [], false, None, None, None)
  }

  // The ids of `ids` not yet known, in order.
  function Missing(ids: seq<string>, known: seq<string>): seq<string> {
    if ids == [] then []
    else (if ids[0] in known then [] else [ids[0]]) + Missing(ids[1..], known)
  }

  // Count `more` on top of what is counted; the ceiling pauses.
  function Counting(c: Control, more: seq<string>): Control {
    var counted := c.counted + more;
    if |counted| >= MAX_TERMINAL
    then c.(counted := counted, terminalCount := |counted|, paused := true, pauseReason := Some(TerminalCeilingReached))
    else c.(counted := counted, terminalCount := |counted|)
  }

  ghost function SortedReceiptIds(s: State): (ids: seq<string>)
    ensures Enumerates(ids, ReceiptIds(s), StrLe)
  {
    StrLeIsTotalOrder();
    SortedSeq(ReceiptIds(s), StrLe)
  }

  /** `reconcile_terminal_receipts`: append every durable receipt id that is not counted yet, in sorted order. */
  ghost function Reconcile(c: Control, s: State): Result<Control, Refusal> {
    if !ValidControl(c) then Err(ControlInvalid)
    else if !ValidState(s) then Err(StateInvalid)
    else if |ReceiptIds(s)| > MAX_TERMINAL then Err(DurableCountExceedsCeiling)
    else
      var out := Counting(c, Missing(SortedReceiptIds(s), c.counted));
      if ValidControl(out) then Ok(out) else Err(ControlInvalid)
  }

  /** `assert_ceiling_and_integrity`: `None` is acceptance. */
  function CeilingRefusal(c: Control, currentMain: string, now: int, genesisIsAncestor: bool, highWater: nat): Option<Refusal> {
    if !ValidControl(c) then Some(ControlInvalid)
    else if currentMain != c.identity.canonicalMain then Some(StaleCanonicalMain)
    else if !genesisIsAncestor then Some(AncestryTamper)
    else if c.terminalCount < highWater then Some(CountRollback)
    else if c.paused then Some(AlreadyPaused)
    else if c.terminalCount >= MAX_TERMINAL then Some(TerminalCeiling)
    else if now >= c.identity.activatedAt + WINDOW_SECONDS then Some(TimeCeiling)
    else None
  }

  function ClaimControl(c: Control, claimId: string, now: int): Result<Control, Refusal> {
    if !ValidControl(c) then Err(ControlInvalid)
    else if claimId == "" then Err(ClaimIdInvalid)
    else if c.claimId.Some? && now < c.claimExpiresAt.value then Err(SecondWorker)
    else
      var out := c.(claimId := Some(claimId), claimExpiresAt := Some(now + INVOCATION_LEASE_SECONDS));
      if ValidControl(out) then Ok(out) else Err(ControlInvalid)
  }

  function ReleaseControl(c: Control, claimId: string): Result<Control, Refusal> {
    if !ValidControl(c) then Err(ControlInvalid)
    else if c.claimId != Some(claimId) then Err(StaleClaim)
    else
      var out := c.(claimId := None, claimExpiresAt := None);
      if ValidControl(out) then Ok(out) else Err(ControlInvalid)
  }

  function RecordTerminal(c: Control, id: string): Result<Control, Refusal> {
    if !ValidControl(c) then Err(ControlInvalid)
    else if id == "" then Err(ReceiptIdInvalid)
    else if id !in c.counted && c.terminalCount >= MAX_TERMINAL then Err(Task26)
    else
      var out := Counting(c, if id in c.counted then [] else [id]);
      if ValidControl(out) then Ok(out) else Err(ControlInvalid)
  }

  // ---- Facts about reconciliation ----

  lemma {:induction false} MissingIs(ids: seq<string>, known: seq<string>)
    requires Distinct(ids)
    ensures forall x :: x in Missing(ids, known) <==> x in ids && x !in known
    ensures Distinct(Missing(ids, known))
  {
    if ids != [] {
      MissingIs(ids[1..], known);
      assert Distinct(ids[1..]);
      assert forall x :: x in ids <==> x == ids[0] || x in ids[1..];
      assert ids[0] !in ids[1..];
    }
  }

  lemma ReceiptIdsAreNonempty(s: State)
    requires ValidState(s)
    ensures "" !in ReceiptIds(s)
  {
    forall idem | idem in s.receipts ensures s.receipts[idem].receiptId != "" {
      assert ValidReceipt(s, idem);
      assert |ReceiptIdOf(s.receipts[idem].payloadHash)| > 0;
    }
  }

  lemma CountingValid(c: Control, more: seq<string>)
    requires ValidControl(c) && "" !in more && Distinct(more) && forall x | x in more :: x !in c.counted
    ensures ValidControl(Counting(c, more))
  {
    var counted := c.counted + more;
    forall i, j | 0 <= i < j < |counted| ensures counted[i] != counted[j] {
      if i < |c.counted| <= j {
        assert counted[i] in c.counted && counted[j] in more;
      }
    }
  }

  ghost function Elements(q: seq<string>): set<string> {
    set x | x in q
  }

  // What counting a sorted enumeration of `idSet` on top of `c` gives.
  ghost predicate Extends(c: Control, out: Control, idSet: set<string>) {
    && ValidControl(out)
    && c.counted <= out.counted
    && Elements(out.counted) == Elements(c.counted) + idSet
    && out.identity == c.identity && out.claimId == c.claimId && out.claimExpiresAt == c.claimExpiresAt
    && (out.paused <==> c.paused || out.terminalCount >= MAX_TERMINAL)
    && out.pauseReason == (if out.terminalCount >= MAX_TERMINAL then Some(TerminalCeilingReached) else c.pauseReason)
  }

  lemma CountingExtends(c: Control, ids: seq<string>, idSet: set<string>)
    requires ValidControl(c) && "" !in ids && Enumerates(ids, idSet, StrLe)
    ensures Extends(c, Counting(c, Missing(ids, c.counted)), idSet)
    ensures Counting(c, Missing(ids, c.counted)) == c <==>
            idSet <= Elements(c.counted)
            && (c.terminalCount >= MAX_TERMINAL ==> c.paused && c.pauseReason == Some(TerminalCeilingReached))
  {
    var more := Missing(ids, c.counted);
    var out := Counting(c, more);
    MissingIs(ids, c.counted);
    CountingValid(c, more);
    assert Elements(out.counted) == Elements(c.counted) + idSet;
    assert more == [] ==> out.counted == c.counted;
    if idSet <= Elements(c.counted) {
      EmptyOrInhabited(more);
    } else {
      var x :| x in idSet && x !in Elements(c.counted);
      assert x in more;
    }
  }

  /** Reconciliation fails only on the documented guards; otherwise it extends the
      counted list, counts exactly the durable receipts on top, keeps the claim and
      the identity, and never lifts a pause. */
  lemma ReconcileIs(c: Control, s: State)
    requires ValidControl(c) && ValidState(s)
    ensures Reconcile(c, s).Ok? <==> |ReceiptIds(s)| <= MAX_TERMINAL
    ensures Reconcile(c, s).Ok? ==> Extends(c, Reconcile(c, s).value, ReceiptIds(s))
  {
    ReceiptIdsAreNonempty(s);
    CountingExtends(c, SortedReceiptIds(s), ReceiptIds(s));
  }

  // The counted ids need nothing from the durable receipts and the ceiling is already marked.
  ghost predicate Reconciled(c: Control, s: State) {
    && ReceiptIds(s) <= Elements(c.counted)
    && (c.terminalCount >= MAX_TERMINAL ==> c.paused && c.pauseReason == Some(TerminalCeilingReached))
  }

  /** Reconciliation leaves a control record alone exactly when it is reconciled. */
  lemma ReconcileUnchangedIff(c: Control, s: State)
    requires ValidControl(c) && ValidState(s) && |ReceiptIds(s)| <= MAX_TERMINAL
    ensures Reconcile(c, s) == Ok(c) <==> Reconciled(c, s)
  {
    ReceiptIdsAreNonempty(s);
    CountingExtends(c, SortedReceiptIds(s), ReceiptIds(s));
  }

  /** Reconciling twice is reconciling once, and a pause is never lifted. */
  lemma ReconcileIdempotent(c: Control, s: State)
    requires Reconcile(c, s).Ok?
    ensures Reconcile(Reconcile(c, s).value, s) == Reconcile(c, s)
    ensures c.paused ==> Reconcile(c, s).value.paused
  {
    ReconcileIs(c, s);
    ReconcileUnchangedIff(Reconcile(c, s).value, s);
  }

  // `record_terminal_receipt` applied to each id in turn.
  function RecordAll(c: Control, ids: seq<string>): Result<Control, Refusal>
    decreases |ids|
  {
    if ids == [] then Ok(c) else
      match RecordTerminal(c, ids[0])
      case Err(e) => Err(e)
      case Ok(c1) => RecordAll(c1, ids[1..])
  }

  /** Recording the durable receipts one by one succeeds exactly while the count stays
      within the ceiling, and then agrees with the one-pass reconciliation. */
  lemma {:induction false} RecordingAgreesWithCounting(c: Control, ids: seq<string>)
    requires ValidControl(c) && "" !in ids && Distinct(ids)
    ensures RecordAll(c, ids).Ok? <==> Missing(ids, c.counted) == [] || |c.counted| + |Missing(ids, c.counted)| <= MAX_TERMINAL
    ensures RecordAll(c, ids).Ok? && (ids != [] || c.terminalCount < MAX_TERMINAL)
         ==> RecordAll(c, ids) == Ok(Counting(c, Missing(ids, c.counted)))
    decreases |ids|
  {
    hide ValidIdentity;
    if ids != [] {
      var x, rest := ids[0], ids[1..];
      assert x !in rest;
      CountingValid(c, if x in c.counted then [] else [x]);
      if RecordTerminal(c, x).Ok? {
        var c1 := RecordTerminal(c, x).value;
        MissingUnder(rest, c.counted, c1.counted, x);
        RecordingAgreesWithCounting(c1, rest);
        CountingTwice(c, if x in c.counted then [] else [x], Missing(rest, c.counted));
        if rest == [] {
          assert Missing(ids, c.counted) == if x in c.counted then [] else [x];
        }
      }
    } else {
      assert c.counted + [] == c.counted;
    }
  }

  lemma CountingTwice(c: Control, a: seq<string>, b: seq<string>)
    ensures Counting(Counting(c, a), b) == Counting(c, a + b)
  {
    assert (c.counted + a) + b == c.counted + (a + b);
  }

  lemma {:induction false} MissingUnder(ids: seq<string>, known: seq<string>, more: seq<string>, x: string)
    requires x !in ids && forall y :: y in more <==> y in known || y == x
    ensures Missing(ids, known) == Missing(ids, more)
  {
    if ids != [] {
      MissingUnder(ids[1..], known, more, x);
    }
  }

  /** The loop of `reconcile_terminal_receipts`. */
  method ReconcileTerminalReceipts(c: Control, s: State) returns (r: Result<Control, Refusal>)
    ensures r == Reconcile(c, s)
  {
    if !ValidControl(c) {
      return Err(ControlInvalid);
    }
    if !ValidState(s) {
      return Err(StateInvalid);
    }
    StrLeIsTotalOrder();
    var idSet := set idem | idem in s.receipts :: s.receipts[idem].receiptId;
    var receiptIds := Sorted(idSet, StrLe);
    EnumerationUnique(receiptIds, SortedReceiptIds(s), idSet, StrLe);
    EnumerationLength(receiptIds, idSet, StrLe);
    if |receiptIds| > MAX_TERMINAL {
      return Err(DurableCountExceedsCeiling);
    }
    var out := CountMissing(c, receiptIds);
    r := if ValidControl(out) then Ok(out) else Err(ControlInvalid);
  }

  method CountMissing(c: Control, receiptIds: seq<string>) returns (out: Control)
    requires Distinct(receiptIds)
    ensures out == Counting(c, Missing(receiptIds, c.counted))
  {
    var counted := c.counted;
    ghost var todo := Missing(receiptIds, c.counted);
    assert receiptIds[0..] == receiptIds;
    for i := 0 to |receiptIds|
      invariant counted + Missing(receiptIds[i..], counted) == c.counted + todo
    {
      var id := receiptIds[i];
      assert receiptIds[i..] == [id] + receiptIds[i + 1..];
      if id !in counted {
        assert id !in receiptIds[i + 1..];
        MissingUnder(receiptIds[i + 1..], counted, counted + [id], id);
        counted := counted + [id];
      }
    }
    assert Missing(receiptIds[|receiptIds|..], counted) == [];
    out := c.(counted := counted, terminalCount := |counted|);
    if out.terminalCount >= MAX_TERMINAL {
      out := out.(paused := true, pauseReason := Some(TerminalCeilingReached));
    }
  }
}
