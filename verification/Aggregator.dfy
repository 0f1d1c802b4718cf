// The multi-model aggregator: grouping, deduplication and divergence labels over
// an arbitrary list of results. What an aggregate says is described as a
// relation to the set of results; the loops that build it are proved to meet it.
module Aggregator {
  import opened Prelude
  import opened Ordering

  datatype Identity = Identity(provider: string, model: string, role: string)

  datatype Position = SUPPORT | OPPOSE | UNKNOWN

  datatype Status = COMPLETED | INFRA_FAILURE | UNSUPPORTED | REFUSED

  datatype Finding = Finding(id: string, claimKey: string, position: Position, text: string)

  // A result but for its submission id.
  datatype Content = Content(identity: Identity, status: Status, findings: seq<Finding>, rest: string)

  datatype Submission = Submission(id: string, content: Content)

  // The task-bound validation of a result and the content digest.
  datatype Env = Env(valid: Submission -> bool, digest: Content -> string)

  datatype Label = DIVERGENT | SUPPORT_WITH_UNKNOWN | SUPPORT_ONLY | OPPOSE_WITH_UNKNOWN | OPPOSE_ONLY | UNKNOWN_ONLY

  datatype Ack = Ack(duplicateOf: string, submissionId: string, digest: string)

  // The identities holding each position, in order; an item's text is its identity's canonical submission's.
  datatype Claim = Claim(key: string, descriptive: Label, support: seq<Identity>, oppose: seq<Identity>, unknown: seq<Identity>)

  datatype Aggregate = Aggregate(
    canonical: map<Identity, Submission>, inputCount: nat, acks: seq<Ack>,
    claims: seq<Claim>, divergences: seq<string>, noncompleted: seq<Identity>)

  datatype Error = ResultsRequired | ResultInvalid | DuplicateSubmissionId | IdentityContentConflict(identity: Identity)

  predicate IdentityLe(a: Identity, b: Identity) {
    TripleLe((a.provider, a.model, a.role), (b.provider, b.model, b.role))
  }

  predicate AckLe(a: Ack, b: Ack) {
    TripleLe((a.duplicateOf, a.submissionId, a.digest), (b.duplicateOf, b.submissionId, b.digest))
  }

  lemma OrdersAreTotal()
    ensures TotalOrder(IdentityLe) && TotalOrder(AckLe) && TotalOrder(StrLe)
  {
    hide TripleLe;
    StrLeIsTotalOrder();
    TripleLeIsTotalOrder();
  }

  /** What `validate_result` guarantees about findings. */
  predicate ValidContent(c: Content) {
    && (c.status == COMPLETED <==> c.findings != [])
    && (forall i, j | 0 <= i < j < |c.findings| :: c.findings[i].claimKey != c.findings[j].claimKey)
  }

  function SetOf(results: seq<Submission>): set<Submission> {
    set s | s in results
  }

  predicate DistinctIds(results: seq<Submission>) {
    forall i, j | 0 <= i < j < |results| :: results[i].id != results[j].id
  }

  ghost predicate Consistent(env: Env, r: set<Submission>) {
    forall a, b | a in r && b in r && a.content.identity == b.content.identity :: env.digest(a.content) == env.digest(b.content)
  }

  ghost predicate AllValid(env: Env, r: set<Submission>) {
    forall s | s in r :: env.valid(s) && ValidContent(s.content)
  }

  /** The inputs `aggregate_results` accepts. */
  ghost predicate Accepted(env: Env, results: seq<Submission>) {
    results != [] && AllValid(env, SetOf(results)) && DistinctIds(results) && Consistent(env, SetOf(results))
  }

  // ---- What the aggregate of a set of results is ----

  ghost predicate IdsIdentify(r: set<Submission>) {
    forall a, b | a in r && b in r && a.id == b.id :: a == b
  }

  function Identities(r: set<Submission>): set<Identity> {
    set s | s in r :: s.content.identity
  }

  // The least submission id of its identity.
  ghost predicate IsCanonical(r: set<Submission>, s: Submission) {
    s in r && forall o | o in r && o.content.identity == s.content.identity :: StrLe(s.id, o.id)
  }

  ghost predicate CanonicalOf(r: set<Submission>, canonical: map<Identity, Submission>) {
    && canonical.Keys == Identities(r)
    && forall i | i in canonical :: canonical[i].content.identity == i && IsCanonical(r, canonical[i])
  }

  function AckOf(env: Env, s: Submission, canonical: Submission): Ack {
    Ack(canonical.id, s.id, env.digest(canonical.content))
  }

  function Duplicates(r: set<Submission>, canonical: map<Identity, Submission>): set<Submission> {
    set s | s in r && s.content.identity in canonical && s != canonical[s.content.identity]
  }

  ghost function AckSet(env: Env, r: set<Submission>, canonical: map<Identity, Submission>): set<Ack> {
    set s | s in Duplicates(r, canonical) :: AckOf(env, s, canonical[s.content.identity])
  }

  predicate Holds(c: Content, key: string, p: Position) {
    c.status == COMPLETED && exists j :: 0 <= j < |c.findings| && c.findings[j].claimKey == key && c.findings[j].position == p
  }

  function Holders(canonical: map<Identity, Submission>, key: string, p: Position): set<Identity> {
    set i | i in canonical && Holds(canonical[i].content, key, p)
  }

  ghost predicate Claimed(canonical: map<Identity, Submission>, key: string) {
    exists p: Position :: Holders(canonical, key, p) != {}
  }

  function LabelOf(support: nat, oppose: nat, unknown: nat): Label {
    if support > 0 && oppose > 0 then DIVERGENT
    else if support > 0 then (if unknown > 0 then SUPPORT_WITH_UNKNOWN else SUPPORT_ONLY)
    else if oppose > 0 then (if unknown > 0 then OPPOSE_WITH_UNKNOWN else OPPOSE_ONLY)
    else UNKNOWN_ONLY
  }

  ghost predicate ClaimOk(canonical: map<Identity, Submission>, c: Claim) {
    && Enumerates(c.support, Holders(canonical, c.key, SUPPORT), IdentityLe)
    && Enumerates(c.oppose, Holders(canonical, c.key, OPPOSE), IdentityLe)
    && Enumerates(c.unknown, Holders(canonical, c.key, UNKNOWN), IdentityLe)
    && c.descriptive == LabelOf(|c.support|, |c.oppose|, |c.unknown|)
  }

  ghost predicate ClaimsOk(canonical: map<Identity, Submission>, claims: seq<Claim>) {
    && (forall key {:trigger Claimed(canonical, key)} :: Claimed(canonical, key) <==> exists i :: 0 <= i < |claims| && claims[i].key == key)
    && (forall i | 0 <= i < |claims| :: ClaimOk(canonical, claims[i]))
    && (forall i, j | 0 <= i < j < |claims| :: StrLe(claims[i].key, claims[j].key) && claims[i].key != claims[j].key)
  }

  function Divergent(claims: seq<Claim>): seq<string> {
    if claims == [] then []
    else Divergent(claims[..|claims| - 1]) + (if claims[|claims| - 1].descriptive == DIVERGENT then [claims[|claims| - 1].key] else [])
  }

  function NoncompletedIn(canonical: map<Identity, Submission>): set<Identity> {
    set i | i in canonical && canonical[i].content.status != COMPLETED
  }

  ghost predicate Describes(env: Env, r: set<Submission>, out: Aggregate) {
    && CanonicalOf(r, out.canonical)
    && out.inputCount == |r|
    && Enumerates(out.acks, AckSet(env, r, out.canonical), AckLe)
    && ClaimsOk(out.canonical, out.claims)
    && out.divergences == Divergent(out.claims)
    && Enumerates(out.noncompleted, NoncompletedIn(out.canonical), IdentityLe)
  }

  // ---- The loops ----

  lemma DistinctSize(results: seq<Submission>)
    requires DistinctIds(results)
    ensures |SetOf(results)| == |results| && IdsIdentify(SetOf(results))
    decreases |results|
  {
    if results != [] {
      var rest, last := results[..|results| - 1], results[|results| - 1];
      DistinctSize(rest);
      assert SetOf(results) == SetOf(rest) + {last};
    } else {
      assert SetOf(results) == {};
    }
  }

  // The first loop: validate each result, refuse a repeated id, and group by identity.
  method Group(env: Env, results: seq<Submission>) returns (r: Result<map<Identity, set<Submission>>, Error>)
    ensures r.Ok? <==> AllValid(env, SetOf(results)) && DistinctIds(results)
    ensures r.Err? ==> match r.error
      case ResultInvalid => !AllValid(env, SetOf(results))
      case DuplicateSubmissionId => !DistinctIds(results)
      case _ => false
    ensures r.Ok? ==> r.value.Keys == Identities(SetOf(results))
    ensures r.Ok? ==> forall i | i in r.value :: r.value[i] == EntriesOf(SetOf(results), i)
  {
    var grouped: map<Identity, set<Submission>> := map[];
    var seen: set<string> := {};
    for n := 0 to |results|
      invariant forall k | 0 <= k < n :: env.valid(results[k]) && ValidContent(results[k].content)
      invariant seen == set k | 0 <= k < n :: results[k].id
      invariant DistinctIds(results[..n])
      invariant forall i {:trigger i in grouped} :: i in grouped <==> exists k :: 0 <= k < n && results[k].content.identity == i
      invariant forall i | i in grouped :: grouped[i] == set s | s in results[..n] && s.content.identity == i
    {
      var s := results[n];
      if !env.valid(s) || !ValidContent(s.content) {
        assert s in SetOf(results);
        return Err(ResultInvalid);
      }
      if s.id in seen {
        return Err(DuplicateSubmissionId);
      }
      seen := seen + {s.id};
      var i := s.content.identity;
      assert results[..n + 1] == results[..n] + [s];
      grouped := grouped[i := (if i in grouped then grouped[i] else {}) + {s}];
    }
    assert results[..|results|] == results;
    return Ok(grouped);
  }

  // One identity: all digests must agree, and the least submission id stands for the rest.
  method Settle(env: Env, entries: set<Submission>) returns (r: Option<(Submission, set<Ack>)>)
    requires entries != {}
    ensures r.Some? <==> forall a, b | a in entries && b in entries :: env.digest(a.content) == env.digest(b.content)
    ensures r.Some? ==> r.value.0 in entries && forall o | o in entries :: StrLe(r.value.0.id, o.id)
    ensures r.Some? ==> r.value.1 == set s | s in entries && s != r.value.0 :: AckOf(env, s, r.value.0)
  {
    var first :| first in entries;
    var rest, seen := entries - {first}, {first};
    StrLeTotal(first.id, first.id);
    var digest := env.digest(first.content);
    while rest != {}
      invariant rest + seen == entries && first in seen
      invariant forall s | s in seen :: env.digest(s.content) == digest && StrLe(first.id, s.id)
      decreases rest
    {
      var s :| s in rest;
      if env.digest(s.content) != digest {
        return None;
      }
      if !StrLe(first.id, s.id) {
        StrLeTotal(first.id, s.id);
        StrLeTotal(s.id, s.id);
        forall o | o in seen ensures StrLe(s.id, o.id) { StrLeTransitive(s.id, first.id, o.id); }
        first := s;
      }
      rest, seen := rest - {s}, seen + {s};
    }
    return Some((first, set s | s in entries && s != first :: AckOf(env, s, first)));
  }

  type Stance = (string, Position, Identity)

  // The claim loop: every finding of every completed canonical result.
  method Stances(canonical: map<Identity, Submission>) returns (held: set<Stance>)
    ensures forall t: Stance :: t in held <==> t.2 in canonical && Holds(canonical[t.2].content, t.0, t.1)
  {
    held := {};
    var rest, seen: set<Identity> := canonical.Keys, {};
    while rest != {}
      invariant rest + seen == canonical.Keys
      invariant forall t: Stance :: t in held <==> t.2 in seen && Holds(canonical[t.2].content, t.0, t.1)
      decreases rest
    {
      var i :| i in rest;
      var c := canonical[i].content;
      if i !in seen && c.status == COMPLETED {
        for n := 0 to |c.findings|
          invariant forall t: Stance :: t in held <==>
            (t.2 in seen && Holds(canonical[t.2].content, t.0, t.1))
            || (t.2 == i && exists j :: 0 <= j < n && c.findings[j].claimKey == t.0 && c.findings[j].position == t.1)
        {
          held := held + {(c.findings[n].claimKey, c.findings[n].position, i)};
        }
      }
      rest, seen := rest - {i}, seen + {i};
    }
  }

  method BuildClaims(canonical: map<Identity, Submission>) returns (claims: seq<Claim>)
    ensures ClaimsOk(canonical, claims)
  {
    OrdersAreTotal();
    var held := Stances(canonical);
    var keys := Sorted(set t | t in held :: t.0, StrLe);
    forall key ensures Claimed(canonical, key) <==> key in keys {
      if key in keys {
        var t :| t in held && t.0 == key;
        assert t.2 in Holders(canonical, key, t.1);
      }
      if Claimed(canonical, key) {
        var p: Position :| Holders(canonical, key, p) != {};
        var i :| i in Holders(canonical, key, p);
        assert (key, p, i) in held;
      }
    }
    claims := [];
    for n := 0 to |keys|
      invariant |claims| == n && forall k | 0 <= k < n :: claims[k].key == keys[k] && ClaimOk(canonical, claims[k])
    {
      var c := BuildClaim(canonical, held, keys[n]);
      claims := claims + [c];
    }
    forall key ensures Claimed(canonical, key) <==> exists i :: 0 <= i < |claims| && claims[i].key == key {
      assert key in keys <==> exists i :: 0 <= i < |keys| && keys[i] == key;
      if key in keys {
        var i :| 0 <= i < |keys| && keys[i] == key;
        assert claims[i].key == key;
      }
    }
  }

  method BuildClaim(canonical: map<Identity, Submission>, held: set<Stance>, key: string) returns (c: Claim)
    requires forall t: Stance :: t in held <==> t.2 in canonical && Holds(canonical[t.2].content, t.0, t.1)
    ensures c.key == key && ClaimOk(canonical, c)
  {
    hide Holds, IdentityLe;
    OrdersAreTotal();
    var support := Sorted(set t | t in held && t.0 == key && t.1 == SUPPORT :: t.2, IdentityLe);
    var oppose := Sorted(set t | t in held && t.0 == key && t.1 == OPPOSE :: t.2, IdentityLe);
    var unknown := Sorted(set t | t in held && t.0 == key && t.1 == UNKNOWN :: t.2, IdentityLe);
    c := Claim(key, LabelOf(|support|, |oppose|, |unknown|), support, oppose, unknown);
    forall p: Position ensures (set t | t in held && t.0 == key && t.1 == p :: t.2) == Holders(canonical, key, p) {
      forall i | i in Holders(canonical, key, p) ensures i in set t | t in held && t.0 == key && t.1 == p :: t.2 {
        assert (key, p, i) in held;
      }
    }
    assert Holders(canonical, key, SUPPORT) == set t | t in held && t.0 == key && t.1 == SUPPORT :: t.2;
    assert Holders(canonical, key, OPPOSE) == set t | t in held && t.0 == key && t.1 == OPPOSE :: t.2;
    assert Holders(canonical, key, UNKNOWN) == set t | t in held && t.0 == key && t.1 == UNKNOWN :: t.2;
  }

  function EntriesOf(r: set<Submission>, i: Identity): set<Submission> {
    set s | s in r && s.content.identity == i
  }

  ghost predicate OneDigest(env: Env, r: set<Submission>, i: Identity) {
    forall a, b | a in EntriesOf(r, i) && b in EntriesOf(r, i) :: env.digest(a.content) == env.digest(b.content)
  }

  ghost predicate SettledFor(env: Env, r: set<Submission>, canonical: map<Identity, Submission>, i: Identity)
    requires i in canonical
  {
    canonical[i].content.identity == i && IsCanonical(r, canonical[i]) && OneDigest(env, r, i)
  }

  lemma SettleOne(env: Env, r: set<Submission>, canonical: map<Identity, Submission>, i: Identity, s: Submission, acks: set<Ack>)
    requires i !in canonical && s in EntriesOf(r, i)
    requires forall o | o in EntriesOf(r, i) :: StrLe(s.id, o.id)
    requires acks == set o | o in EntriesOf(r, i) && o != s :: AckOf(env, o, s)
    ensures IsCanonical(r, s) && s.content.identity == i
    ensures AckSet(env, r, canonical[i := s]) == AckSet(env, r, canonical) + acks
  {
    hide StrLe, AckOf;
    var canonical' := canonical[i := s];
    assert forall o | o in r && o.content.identity == i :: o in EntriesOf(r, i);
    forall o | o in r ensures o in Duplicates(r, canonical') <==> o in Duplicates(r, canonical) || (o in EntriesOf(r, i) && o != s) {
    }
  }

  lemma ConsistentIff(env: Env, r: set<Submission>, order: seq<Identity>)
    requires forall i :: i in order <==> i in Identities(r)
    ensures Consistent(env, r) <==> forall i | i in order :: OneDigest(env, r, i)
  {
    if Consistent(env, r) {
      forall i | i in order ensures OneDigest(env, r, i) { }
    }
    if forall i | i in order :: OneDigest(env, r, i) {
      forall a, b | a in r && b in r && a.content.identity == b.content.identity ensures env.digest(a.content) == env.digest(b.content) {
        assert a.content.identity in order;
        assert a in EntriesOf(r, a.content.identity) && b in EntriesOf(r, a.content.identity);
      }
    }
  }

  // The first identity, in order, whose submissions disagree.
  ghost predicate FirstConflict(env: Env, r: set<Submission>, i: Identity) {
    i in Identities(r) && !OneDigest(env, r, i) && forall j | j in Identities(r) && !OneDigest(env, r, j) :: IdentityLe(i, j)
  }

  // The second loop: identities in order, each settled.
  method SettleAll(env: Env, grouped: map<Identity, set<Submission>>, r: set<Submission>)
    returns (out: Result<(map<Identity, Submission>, set<Ack>), Error>)
    requires grouped.Keys == Identities(r)
    requires forall i | i in grouped :: grouped[i] == EntriesOf(r, i)
    ensures out.Ok? <==> Consistent(env, r)
    ensures out.Err? ==> out.error.IdentityContentConflict? && FirstConflict(env, r, out.error.identity)
    ensures out.Ok? ==> CanonicalOf(r, out.value.0) && out.value.1 == AckSet(env, r, out.value.0)
  {
    hide IdentityLe, StrLe, Consistent, AckSet, IsCanonical, TotalOrder;
    OrdersAreTotal();
    var order := Sorted(grouped.Keys, IdentityLe);
    ConsistentIff(env, r, order);
    var canonical: map<Identity, Submission> := map[];
    var acks: set<Ack> := {};
    assert AckSet(env, r, canonical) == {} by { NoAcks(env, r); }
    for n := 0 to |order|
      invariant forall i :: i in canonical <==> i in order[..n]
      invariant forall i {:trigger SettledFor(env, r, canonical, i)} | i in canonical :: SettledFor(env, r, canonical, i)
      invariant acks == AckSet(env, r, canonical)
    {
      var i := order[n];
      assert i in order;
      assert grouped[i] != {} by {
        var s :| s in r && s.content.identity == i;
        assert s in EntriesOf(r, i);
      }
      var settled := Settle(env, grouped[i]);
      if settled.None? {
        assert !OneDigest(env, r, i);
        forall j | j in Identities(r) && !OneDigest(env, r, j) ensures IdentityLe(i, j) {
          LaterInOrder(env, r, canonical, order, n, j);
        }
        return Err(IdentityContentConflict(i));
      }
      assert i !in order[..n];
      SettleOne(env, r, canonical, i, settled.value.0, settled.value.1);
      ghost var before := canonical;
      canonical := canonical[i := settled.value.0];
      forall k | k in canonical ensures SettledFor(env, r, canonical, k) {
        if k != i { assert SettledFor(env, r, before, k); }
      }
      acks := acks + settled.value.1;
      assert order[..n + 1] == order[..n] + [i];
    }
    assert order[..|order|] == order;
    forall i | i in order ensures OneDigest(env, r, i) {
      assert SettledFor(env, r, canonical, i);
    }
    forall i | i in canonical ensures canonical[i].content.identity == i && IsCanonical(r, canonical[i]) {
      assert SettledFor(env, r, canonical, i);
    }
    return Ok((canonical, acks));
  }

  lemma LaterInOrder(env: Env, r: set<Submission>, canonical: map<Identity, Submission>, order: seq<Identity>, n: nat, j: Identity)
    requires TotalOrder(IdentityLe) && Enumerates(order, Identities(r), IdentityLe) && n < |order|
    requires j in Identities(r) && !OneDigest(env, r, j)
    requires forall i :: i in canonical <==> i in order[..n]
    requires forall i {:trigger SettledFor(env, r, canonical, i)} | i in canonical :: SettledFor(env, r, canonical, i)
    ensures IdentityLe(order[n], j)
  {
    hide IdentityLe, StrLe, OneDigest, IsCanonical;
    assert j in order;
    var m :| 0 <= m < |order| && order[m] == j;
    assert forall k | 0 <= k < n :: order[k] == order[..n][k];
    assert forall i | i in canonical :: SettledFor(env, r, canonical, i) ==> OneDigest(env, r, i);
  }

  lemma NoAcks(env: Env, r: set<Submission>)
    ensures AckSet(env, r, map[]) == {}
  {
  }

  /** `aggregate_results`. */
  method AggregateResults(env: Env, results: seq<Submission>) returns (out: Result<Aggregate, Error>)
    ensures out.Ok? <==> Accepted(env, results)
    ensures out.Ok? ==> Describes(env, SetOf(results), out.value)
    ensures out.Err? ==> match out.error
      case ResultsRequired => results == []
      case ResultInvalid => !AllValid(env, SetOf(results))
      case DuplicateSubmissionId => !DistinctIds(results)
      case IdentityContentConflict(i) =>
        AllValid(env, SetOf(results)) && DistinctIds(results) && FirstConflict(env, SetOf(results), i)
  {
    hide IdentityLe, AckLe, Holds, AckSet, ClaimsOk, ValidContent, TotalOrder, Enumerates, CanonicalOf;
    hide Consistent, AllValid, SetOf, EntriesOf, Identities, DistinctIds;
    if results == [] {
      return Err(ResultsRequired);
    }
    var grouped := Group(env, results);
    if grouped.Err? {
      return Err(grouped.error);
    }
    var settled := SettleAll(env, grouped.value, SetOf(results));
    if settled.Err? {
      return Err(settled.error);
    }
    DistinctSize(results);
    OrdersAreTotal();
    var canonical := settled.value.0;
    var acks := Sorted(settled.value.1, AckLe);
    var claims := BuildClaims(canonical);
    var divergences := [];
    for n := 0 to |claims|
      invariant divergences == Divergent(claims[..n])
    {
      assert claims[..n + 1][..n] == claims[..n];
      if claims[n].descriptive == DIVERGENT {
        divergences := divergences + [claims[n].key];
      }
    }
    assert claims[..|claims|] == claims;
    var noncompleted := Sorted(NoncompletedIn(canonical), IdentityLe);
    return Ok(Aggregate(canonical, |results|, acks, claims, divergences, noncompleted));
  }
}
