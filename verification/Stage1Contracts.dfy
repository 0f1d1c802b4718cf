// The Stage-1 control operations and the adapter's three calls from outside:
// exactly when each is allowed, the refusal it meets first, and what it leaves.
module Stage1Contracts {
  import opened Prelude
  import opened R1State
  import opened Stage1Control
  import opened Stage1Runtime
  import opened Stage1Seal
  import LedgerAuth

  // The ceiling's checks, the first that fails naming the refusal.
  ghost predicate CeilingRefusedFor(c: Control, currentMain: string, now: int, genesisIsAncestor: bool, highWater: nat, code: Refusal) {
    var sound := LedgerAuth.SoundControl(c);
    var onMain := sound && currentMain == c.identity.canonicalMain;
    var descended := onMain && genesisIsAncestor;
    var counted := descended && c.terminalCount >= highWater;
    var running := counted && !c.paused;
    var below := running && c.terminalCount < 25;
    || (code == ControlInvalid && !sound)
    || (code == StaleCanonicalMain && sound && !onMain)
    || (code == AncestryTamper && onMain && !descended)
    || (code == CountRollback && descended && !counted)
    || (code == AlreadyPaused && counted && !running)
    || (code == TerminalCeiling && running && !below)
    || (code == TimeCeiling && below && now - c.identity.activatedAt >= 604_800)
  }

  predicate BelowCeiling(c: Control, currentMain: string, now: int, genesisIsAncestor: bool, highWater: nat) {
    && currentMain == c.identity.canonicalMain && genesisIsAncestor && highWater <= c.terminalCount < 25
    && !c.paused && now - c.identity.activatedAt < 604_800
  }

  /** Work may go on exactly on the activation's main, with the genesis an ancestor, a count that never fell behind the high
      water and is below twenty-five, no pause, and less than seven days since the activation; otherwise the first of these
      that fails is the refusal. */
  lemma CeilingIff(c: Control, currentMain: string, now: int, genesisIsAncestor: bool, highWater: nat)
    ensures var refusal := CeilingRefusal(c, currentMain, now, genesisIsAncestor, highWater);
      && (refusal.None? <==> LedgerAuth.SoundControl(c) && BelowCeiling(c, currentMain, now, genesisIsAncestor, highWater))
      && (refusal.Some? ==> CeilingRefusedFor(c, currentMain, now, genesisIsAncestor, highWater, refusal.value))
  {
    hide ValidControl, LedgerAuth.SoundControl;
    LedgerAuth.ControlIff(c);
  }

  /** The claim is given exactly under a name and when there is none or the present one has run out, for five minutes, and
      nothing else of the control changes. */
  lemma ClaimIs(c: Control, claimId: string, now: int)
    ensures ClaimControl(c, claimId, now) ==
      if !LedgerAuth.SoundControl(c) then Err(ControlInvalid)
      else if claimId == "" then Err(ClaimIdInvalid)
      else if c.claimExpiresAt.Some? && c.claimExpiresAt.value > now then Err(SecondWorker)
      else Ok(c.(claimId := Some(claimId), claimExpiresAt := Some(now + 300)))
  {
    hide ValidIdentity, Distinct, LedgerAuth.SoundControl;
    LedgerAuth.ControlIff(c);
  }

  lemma ReleaseIs(c: Control, claimId: string)
    ensures ReleaseControl(c, claimId) ==
      if !LedgerAuth.SoundControl(c) then Err(ControlInvalid)
      else if c.claimId != Some(claimId) then Err(StaleClaim)
      else Ok(c.(claimId := None, claimExpiresAt := None))
  {
    hide ValidIdentity, Distinct, LedgerAuth.SoundControl;
    LedgerAuth.ControlIff(c);
  }

  // One more receipt on top of the counted ones; the twenty-fifth pauses.
  function OneMore(c: Control, id: string): Control {
    if |c.counted| + 1 >= 25
    then c.(counted := c.counted + [id], terminalCount := |c.counted| + 1, paused := true, pauseReason := Some(TerminalCeilingReached))
    else c.(counted := c.counted + [id], terminalCount := |c.counted| + 1)
  }

  /** A receipt id is counted exactly once, in order; the twenty-fifth pauses the control and a twenty-sixth is refused, while
      a counted id may be recorded again at any time. */
  lemma RecordIs(c: Control, id: string)
    ensures RecordTerminal(c, id) ==
      if !LedgerAuth.SoundControl(c) then Err(ControlInvalid)
      else if id == "" then Err(ReceiptIdInvalid)
      else if id in c.counted then
        Ok(if |c.counted| >= 25 then c.(paused := true, pauseReason := Some(TerminalCeilingReached)) else c)
      else if |c.counted| >= 25 then Err(Task26)
      else Ok(OneMore(c, id))
  {
    hide ValidControl, LedgerAuth.SoundControl;
    LedgerAuth.ControlIff(c);
    assert c.counted + [] == c.counted;
    if ValidControl(c) && id != "" {
      CountingValid(c, if id in c.counted then [] else [id]);
      CountOf(c);
    }
  }

  lemma CountOf(c: Control)
    requires ValidControl(c)
    ensures c.terminalCount == |c.counted|
  {
  }

  // ---- The adapter's calls ----

  /** A claim, a persist and a release each need the head the caller has seen; persist and release also need the caller's own
      claim. A claim replaces the control, a persist the state and a release the control, each under the next head, and a
      release raises the high water to its count. */
  lemma AdapterCallsAre(r: Remote, head: nat, claimId: string, c: Control, s: State)
    ensures ClaimInvocation(r, head, c) ==
      if head == r.head && LedgerAuth.SoundControl(c) then Some(Remote(r.head + 1, r.canonicalMain, r.highWater, c, r.r1)) else None
    ensures PersistState(r, head, claimId, s) ==
      if head == r.head && r.control.claimId == Some(claimId) && ValidState(s)
      then Some(Remote(r.head + 1, r.canonicalMain, r.highWater, r.control, s)) else None
    ensures ReleaseInvocation(r, head, claimId, c) ==
      if head == r.head && r.control.claimId == Some(claimId) && LedgerAuth.SoundControl(c) && c.claimId.None?
      then Some(Remote(r.head + 1, r.canonicalMain, if c.terminalCount > r.highWater then c.terminalCount else r.highWater, c, r.r1))
      else None
  {
    hide ValidControl, ValidState, LedgerAuth.SoundControl;
    LedgerAuth.ControlIff(c);
  }

  // ---- What the invocations do not decide ----

  /** A crash forgets exactly the worker, and a move of main changes nothing but main; an invocation begun before the move can
      then claim, but not go on. */
  lemma OutsideSteps(env: Env, world: World, id: nat, m: string)
    ensures Step(env, world, Crash(id)).remote == world.remote
    ensures forall other :: other in Step(env, world, Crash(id)).workers <==> other in world.workers && other != id
    ensures forall other | other in world.workers && other != id :: Step(env, world, Crash(id)).workers[other] == world.workers[other]
    ensures Step(env, world, MainMoves(m)) ==
      World(Remote(world.remote.head, m, world.remote.highWater, world.remote.control, world.remote.r1), world.workers)
    ensures id in world.workers && world.workers[id].phase.Inspecting? && world.workers[id].snap.canonicalMain != world.workers[id].sealed.canonicalMain ==>
      Step(env, world, Advance(id)) == World(world.remote, world.workers - {id})
  {
  }
}
