// What holds of every aggregate: it is a function of the set of results, blind
// to duplicates, and its divergence labels mean what the diversity metadata says.
module AggregatorLaws {
  import opened Prelude
  import opened Ordering
  import opened Aggregator

  // ---- A function of the set ----

  lemma CanonicalUnique(r: set<Submission>, a: map<Identity, Submission>, b: map<Identity, Submission>)
    requires IdsIdentify(r) && CanonicalOf(r, a) && CanonicalOf(r, b)
    ensures a == b
  {
    forall i | i in a ensures a[i] == b[i] {
      StrLeAntisymmetric(a[i].id, b[i].id);
    }
  }

  lemma ClaimUnique(canonical: map<Identity, Submission>, a: Claim, b: Claim)
    requires ClaimOk(canonical, a) && ClaimOk(canonical, b) && a.key == b.key
    ensures a == b
  {
    hide IdentityLe, Holders, TotalOrder, Enumerates;
    OrdersAreTotal();
    EnumerationUnique(a.support, b.support, Holders(canonical, a.key, SUPPORT), IdentityLe);
    EnumerationUnique(a.oppose, b.oppose, Holders(canonical, a.key, OPPOSE), IdentityLe);
    EnumerationUnique(a.unknown, b.unknown, Holders(canonical, a.key, UNKNOWN), IdentityLe);
  }

  function Keys(claims: seq<Claim>): seq<string> {
    seq(|claims|, i requires 0 <= i < |claims| => claims[i].key)
  }

  ghost predicate KeysEnumerate(claims: seq<Claim>, keys: set<string>) {
    Enumerates(Keys(claims), keys, StrLe)
  }

  lemma ClaimsEnumerate(canonical: map<Identity, Submission>, claims: seq<Claim>, keys: set<string>)
    requires ClaimsOk(canonical, claims)
    requires forall key :: key in keys <==> Claimed(canonical, key)
    ensures KeysEnumerate(claims, keys)
  {
    hide ClaimOk, Claimed;
    forall key ensures key in Keys(claims) <==> key in keys {
      if key in Keys(claims) {
        var i :| 0 <= i < |Keys(claims)| && Keys(claims)[i] == key;
        assert claims[i].key == key;
      }
      if key in keys {
        assert Claimed(canonical, key);
        var i :| 0 <= i < |claims| && claims[i].key == key;
        assert Keys(claims)[i] == key;
      }
    }
  }

  lemma ClaimsUnique(canonical: map<Identity, Submission>, a: seq<Claim>, b: seq<Claim>)
    requires ClaimsOk(canonical, a) && ClaimsOk(canonical, b)
    ensures a == b
  {
    hide ClaimOk, Claimed, TotalOrder, StrLe;
    var keys := set i | 0 <= i < |a| :: a[i].key;
    forall key ensures key in keys <==> Claimed(canonical, key) {
      assert Claimed(canonical, key) <==> exists i :: 0 <= i < |a| && a[i].key == key;
    }
    ClaimsEnumerate(canonical, a, keys);
    ClaimsEnumerate(canonical, b, keys);
    OrdersAreTotal();
    EnumerationUnique(Keys(a), Keys(b), keys, StrLe);
    assert |a| == |Keys(a)| == |b|;
    forall i | 0 <= i < |a| ensures a[i] == b[i] {
      assert Keys(a)[i] == Keys(b)[i];
      ClaimUnique(canonical, a[i], b[i]);
    }
  }

  /** The aggregate is a function of the set of results: any two descriptions of one set are equal, in every
      field and every order. */
  lemma AggregateIsAFunctionOfTheSet(env: Env, r: set<Submission>, a: Aggregate, b: Aggregate)
    requires IdsIdentify(r) && Describes(env, r, a) && Describes(env, r, b)
    ensures a == b
  {
    hide AckSet, ClaimsOk, Enumerates, CanonicalOf, TotalOrder, NoncompletedIn;
    CanonicalUnique(r, a.canonical, b.canonical);
    OrdersAreTotal();
    EnumerationUnique(a.acks, b.acks, AckSet(env, r, a.canonical), AckLe);
    EnumerationUnique(a.noncompleted, b.noncompleted, NoncompletedIn(a.canonical), IdentityLe);
    ClaimsUnique(a.canonical, a.claims, b.claims);
  }

  lemma DistinctIdsByCount(results: seq<Submission>)
    ensures DistinctIds(results) <==> IdsIdentify(SetOf(results)) && |SetOf(results)| == |results|
  {
    hide DistinctIds, IdsIdentify;
    if DistinctIds(results) {
      DistinctSize(results);
    }
    if IdsIdentify(SetOf(results)) && |SetOf(results)| == |results| {
      FullSetIsDistinct(results);
    }
  }

  lemma FullSetIsDistinct(results: seq<Submission>)
    requires IdsIdentify(SetOf(results)) && |SetOf(results)| == |results|
    ensures DistinctIds(results)
  {
    forall i, j | 0 <= i < j < |results| ensures results[i].id != results[j].id {
      if results[i].id == results[j].id {
        assert results[i] in SetOf(results) && results[j] in SetOf(results);
        RepeatShrinks(results, i, j);
      }
    }
  }

  lemma RepeatShrinks(results: seq<Submission>, i: nat, j: nat)
    requires i < j < |results| && results[i] == results[j]
    ensures |SetOf(results)| < |results|
  {
    var rest := results[..j] + results[j + 1..];
    assert results == results[..j] + [results[j]] + results[j + 1..];
    assert rest[i] == results[j];
    assert SetOf(results) == SetOf(rest);
    SetOfAtMost(rest);
  }

  lemma {:induction false} SetOfAtMost(results: seq<Submission>)
    ensures |SetOf(results)| <= |results|
    decreases |results|
  {
    if results == [] {
      assert SetOf(results) == {};
    } else {
      SetOfAtMost(results[..|results| - 1]);
      assert SetOf(results) == SetOf(results[..|results| - 1]) + {results[|results| - 1]};
    }
  }

  /** Permutation invariance: reordering the input changes neither whether it is accepted nor anything in the output. */
  lemma PermutationInvariant(env: Env, p: seq<Submission>, q: seq<Submission>, a: Aggregate, b: Aggregate)
    requires multiset(p) == multiset(q)
    ensures Accepted(env, p) <==> Accepted(env, q)
    ensures Accepted(env, p) && Describes(env, SetOf(p), a) && Describes(env, SetOf(q), b) ==> a == b
  {
    hide Describes, Consistent, AllValid;
    assert |p| == |multiset(p)| == |multiset(q)| == |q|;
    forall s ensures s in SetOf(p) <==> s in SetOf(q) {
      assert s in p <==> s in multiset(p);
      assert s in q <==> s in multiset(q);
    }
    assert SetOf(p) == SetOf(q);
    DistinctIdsByCount(p);
    DistinctIdsByCount(q);
    if Accepted(env, p) && Describes(env, SetOf(p), a) && Describes(env, SetOf(q), b) {
      AggregateIsAFunctionOfTheSet(env, SetOf(p), a, b);
    }
  }

  // ---- Duplicates ----

  lemma CanonicalIsMember(r: set<Submission>, canonical: map<Identity, Submission>)
    requires CanonicalOf(r, canonical)
    ensures forall i | i in canonical :: canonical[i] in r
  {
    hide StrLe;
  }

  function AckFor(env: Env, canonical: map<Identity, Submission>, s: Submission): Ack {
    if s.content.identity in canonical then AckOf(env, s, canonical[s.content.identity]) else Ack("", s.id, "")
  }

  lemma AckCount(env: Env, r: set<Submission>, canonical: map<Identity, Submission>)
    requires IdsIdentify(r)
    ensures |AckSet(env, r, canonical)| == |Duplicates(r, canonical)|
  {
    hide Duplicates, InjectiveOn;
    var dups := Duplicates(r, canonical);
    var f := (s: Submission) => AckFor(env, canonical, s);
    assert AckSet(env, r, canonical) == Image(dups, f) by { AcksAreImage(env, r, canonical, f); }
    assert InjectiveOn(dups, f) by { AcksInjective(env, r, canonical, f); }
    ImageSize(dups, f);
  }

  lemma AcksAreImage(env: Env, r: set<Submission>, canonical: map<Identity, Submission>, f: Submission -> Ack)
    requires forall s :: f(s) == AckFor(env, canonical, s)
    ensures AckSet(env, r, canonical) == Image(Duplicates(r, canonical), f)
  {
  }

  lemma AcksInjective(env: Env, r: set<Submission>, canonical: map<Identity, Submission>, f: Submission -> Ack)
    requires IdsIdentify(r) && forall s :: f(s) == AckFor(env, canonical, s)
    ensures InjectiveOn(Duplicates(r, canonical), f)
  {
  }

  function ChosenFor(canonical: map<Identity, Submission>, i: Identity): Submission {
    if i in canonical then canonical[i] else Submission("", Content(i, COMPLETED, [], ""))
  }

  lemma ChosenCount(canonical: map<Identity, Submission>, g: Identity -> Submission)
    requires forall i | i in canonical :: canonical[i].content.identity == i
    requires forall i :: g(i) == ChosenFor(canonical, i)
    ensures |Image(canonical.Keys, g)| == |canonical|
  {
    hide Image;
    assert InjectiveOn(canonical.Keys, g);
    ImageSize(canonical.Keys, g);
    assert |canonical| == |canonical.Keys|;
  }

  lemma ChosenOrDuplicate(r: set<Submission>, canonical: map<Identity, Submission>)
    requires CanonicalOf(r, canonical)
    ensures |r| == |canonical| + |Duplicates(r, canonical)|
  {
    hide IsCanonical;
    assert forall i | i in canonical :: canonical[i] in r by { CanonicalIsMember(r, canonical); }
    var g := (i: Identity) => ChosenFor(canonical, i);
    var chosen := Image(canonical.Keys, g);
    ChosenCount(canonical, g);
    forall s | s in r ensures s.content.identity in canonical {
      assert s.content.identity in Identities(r);
    }
    forall s ensures s in r <==> s in chosen + Duplicates(r, canonical) {
      if s in r && s !in Duplicates(r, canonical) {
        assert s == g(s.content.identity);
      }
    }
    assert r == chosen + Duplicates(r, canonical);
    assert chosen !! Duplicates(r, canonical);
  }

  /** The input count is the number of unique identities plus the number of acknowledged duplicates. */
  lemma InputIsUniquePlusDuplicates(env: Env, r: set<Submission>, out: Aggregate)
    requires IdsIdentify(r) && Describes(env, r, out)
    ensures out.inputCount == |out.canonical| + |out.acks|
  {
    hide AckSet, ClaimsOk, Enumerates, CanonicalOf;
    AckCount(env, r, out.canonical);
    ChosenOrDuplicate(r, out.canonical);
    EnumerationLength(out.acks, AckSet(env, r, out.canonical), AckLe);
  }

  // The same identities with the same content, up to which submission stands for them.
  predicate SameContents(a: map<Identity, Submission>, b: map<Identity, Submission>) {
    a.Keys == b.Keys && forall i | i in a :: a[i].content == b[i].content
  }

  lemma DuplicateKeepsContents(env: Env, r: set<Submission>, d: Submission, s: Submission, a: map<Identity, Submission>, b: map<Identity, Submission>)
    requires s in r && d !in r && d.content == s.content
    requires forall x, y | x in r && y in r && x.content.identity == y.content.identity :: x.content == y.content
    requires CanonicalOf(r, a) && CanonicalOf(r + {d}, b)
    ensures SameContents(a, b)
  {
    hide StrLe;
    forall i ensures i in a <==> i in b {
      assert i in Identities(r + {d}) <==> i in Identities(r) || i == d.content.identity;
      assert s.content.identity in Identities(r);
    }
    forall i | i in a ensures a[i].content == b[i].content {
      assert b[i] in r || b[i] == d;
    }
  }

  lemma HoldersByContent(a: map<Identity, Submission>, b: map<Identity, Submission>, key: string, p: Position)
    requires SameContents(a, b)
    ensures Holders(a, key, p) == Holders(b, key, p)
  {
  }

  lemma ClaimsByContent(a: map<Identity, Submission>, b: map<Identity, Submission>, claims: seq<Claim>)
    requires SameContents(a, b) && ClaimsOk(b, claims)
    ensures ClaimsOk(a, claims)
  {
    hide Holders, Enumerates, IdentityLe;
    forall key ensures Claimed(a, key) <==> Claimed(b, key) {
      forall p: Position ensures Holders(a, key, p) == Holders(b, key, p) { HoldersByContent(a, b, key, p); }
    }
    forall i | 0 <= i < |claims| ensures ClaimOk(a, claims[i]) {
      HoldersByContent(a, b, claims[i].key, SUPPORT);
      HoldersByContent(a, b, claims[i].key, OPPOSE);
      HoldersByContent(a, b, claims[i].key, UNKNOWN);
    }
  }

  /** Duplicate insensitivity: one more submission with the identity and content of an earlier one is accepted
      and changes no position, count, label or divergence; it only adds one acknowledgement. */
  lemma DuplicateInsensitive(env: Env, r: set<Submission>, d: Submission, s: Submission, a: Aggregate, b: Aggregate)
    requires IdsIdentify(r + {d}) && s in r && d !in r && d.content == s.content
    requires forall x, y | x in r && y in r && x.content.identity == y.content.identity :: x.content == y.content
    requires Describes(env, r, a) && Describes(env, r + {d}, b)
    ensures b.claims == a.claims && b.divergences == a.divergences && b.noncompleted == a.noncompleted
    ensures |b.canonical| == |a.canonical| && |b.acks| == |a.acks| + 1 && b.inputCount == a.inputCount + 1
  {
    hide Describes, ClaimsOk, SameContents, IdsIdentify, NoncompletedIn, Identities;
    DescribedParts(env, r, a);
    DescribedParts(env, r + {d}, b);
    DuplicateKeepsContents(env, r, d, s, a.canonical, b.canonical);
    ClaimsByContent(a.canonical, b.canonical, b.claims);
    ClaimsUnique(a.canonical, a.claims, b.claims);
    NoncompletedByContent(a.canonical, b.canonical, a.noncompleted, b.noncompleted);
    IdsIdentifyLess(r, d);
    InputIsUniquePlusDuplicates(env, r, a);
    InputIsUniquePlusDuplicates(env, r + {d}, b);
  }

  lemma DescribedParts(env: Env, r: set<Submission>, out: Aggregate)
    requires Describes(env, r, out)
    ensures CanonicalOf(r, out.canonical) && ClaimsOk(out.canonical, out.claims)
    ensures out.inputCount == |r| && out.divergences == Divergent(out.claims)
    ensures Enumerates(out.noncompleted, NoncompletedIn(out.canonical), IdentityLe)
  {
  }

  lemma IdsIdentifyLess(r: set<Submission>, d: Submission)
    requires IdsIdentify(r + {d})
    ensures IdsIdentify(r)
  {
  }

  lemma NoncompletedByContent(a: map<Identity, Submission>, b: map<Identity, Submission>, p: seq<Identity>, q: seq<Identity>)
    requires SameContents(a, b)
    requires Enumerates(p, NoncompletedIn(a), IdentityLe) && Enumerates(q, NoncompletedIn(b), IdentityLe)
    ensures p == q && |a| == |b|
  {
    hide Enumerates, TotalOrder, IdentityLe;
    assert NoncompletedIn(a) == NoncompletedIn(b);
    OrdersAreTotal();
    EnumerationUnique(p, q, NoncompletedIn(a), IdentityLe);
    assert |a| == |a.Keys| == |b.Keys| == |b|;
  }

  lemma ConsistentWithDuplicate(env: Env, r: set<Submission>, d: Submission, s: Submission)
    requires s in r && d.content == s.content
    ensures Consistent(env, r) <==> Consistent(env, r + {d})
  {
    if Consistent(env, r) {
      forall a, b | a in r + {d} && b in r + {d} && a.content.identity == b.content.identity
        ensures env.digest(a.content) == env.digest(b.content)
      {
        var x, y := if a in r then a else s, if b in r then b else s;
        assert x.content == a.content && y.content == b.content;
      }
    }
  }

  // ---- Divergence ----

  type ProviderModel = (string, string)

  function ModelOf(i: Identity): ProviderModel {
    (i.provider, i.model)
  }

  function ProviderOf(i: Identity): string {
    i.provider
  }

  function IdSet(ids: seq<Identity>): set<Identity> {
    set i | i in ids
  }

  function ModelsOf(ids: seq<Identity>): set<ProviderModel> {
    Image(IdSet(ids), ModelOf)
  }

  function ProvidersOf(ids: seq<Identity>): set<string> {
    Image(IdSet(ids), ProviderOf)
  }

  // ---- What the metadata means ----

  // Somebody supports and somebody opposes: the same model, another model, another provider.
  predicate RoleConditioned(c: Claim) {
    exists a, b :: a in c.support && b in c.oppose && ModelOf(a) == ModelOf(b)
  }

  predicate CrossModel(c: Claim) {
    exists a, b :: a in c.support && b in c.oppose && ModelOf(a) != ModelOf(b)
  }

  predicate CrossProvider(c: Claim) {
    exists a, b :: a in c.support && b in c.oppose && a.provider != b.provider
  }

  function Everyone(c: Claim): seq<Identity> {
    c.support + c.oppose + c.unknown
  }

  function At(c: Claim, p: Position): seq<Identity> {
    match p
    case SUPPORT => c.support
    case OPPOSE => c.oppose
    case UNKNOWN => c.unknown
  }

  const POSITIONS: set<Position> := {SUPPORT, OPPOSE, UNKNOWN}

  // The two presence counts have a key for each position that somebody takes.
  datatype Diversity = Diversity(
    modelPresence: map<Position, nat>, providerPresence: map<Position, nat>, models: nat, providers: nat,
    roleConditioned: bool, crossModel: bool, crossProvider: bool)

  function DiversityOf(c: Claim): Diversity {
    Diversity(map p | p in POSITIONS && At(c, p) != [] :: |ModelsOf(At(c, p))|,
              map p | p in POSITIONS && At(c, p) != [] :: |ProvidersOf(At(c, p))|,
              |ModelsOf(Everyone(c))|, |ProvidersOf(Everyone(c))|,
              RoleConditioned(c), CrossModel(c), CrossProvider(c))
  }

  lemma RoleConditionedIff(c: Claim)
    ensures RoleConditioned(c) <==> ModelsOf(c.support) * ModelsOf(c.oppose) != {}
  {
    if a, b :| a in c.support && b in c.oppose && ModelOf(a) == ModelOf(b) {
      assert ModelOf(a) in ModelsOf(c.support) * ModelsOf(c.oppose) by {
        assert a in IdSet(c.support) && b in IdSet(c.oppose);
      }
    }
    if m :| m in ModelsOf(c.support) * ModelsOf(c.oppose) {
      var a :| a in IdSet(c.support) && ModelOf(a) == m;
      var b :| b in IdSet(c.oppose) && ModelOf(b) == m;
      assert a in c.support && b in c.oppose && ModelOf(a) == ModelOf(b);
    }
  }

  // Two sets hold different elements exactly when both hold something and together they hold two.
  lemma DifferIff<T>(a: set<T>, b: set<T>)
    ensures (exists x, y :: x in a && y in b && x != y) <==> a != {} && b != {} && |a + b| > 1
  {
    if x, y :| x in a && y in b && x != y {
      MoreThanOne(a, b, x, y);
    }
    if a != {} && b != {} && |a + b| > 1 {
      var x :| x in a;
      SubsetSize({x}, a + b);
      var y :| y in a + b - {x};
      var z :| z in b;
      assert if y in b then x in a && y in b && x != y else if z == x then y in a && z in b && y != z else x in a && z in b && x != z;
    }
  }

  lemma CrossModelIff(c: Claim)
    ensures CrossModel(c) <==> ModelsOf(c.support) != {} && ModelsOf(c.oppose) != {} && |ModelsOf(c.support) + ModelsOf(c.oppose)| > 1
  {
    DifferIff(ModelsOf(c.support), ModelsOf(c.oppose));
    if a, b :| a in c.support && b in c.oppose && ModelOf(a) != ModelOf(b) {
      assert a in IdSet(c.support) && b in IdSet(c.oppose);
      assert ModelOf(a) in ModelsOf(c.support) && ModelOf(b) in ModelsOf(c.oppose);
    }
    if x, y :| x in ModelsOf(c.support) && y in ModelsOf(c.oppose) && x != y {
      var a :| a in IdSet(c.support) && ModelOf(a) == x;
      var b :| b in IdSet(c.oppose) && ModelOf(b) == y;
      assert a in c.support && b in c.oppose && ModelOf(a) != ModelOf(b);
    }
  }

  lemma CrossProviderIff(c: Claim)
    ensures CrossProvider(c) <==>
      ProvidersOf(c.support) != {} && ProvidersOf(c.oppose) != {} && |ProvidersOf(c.support) + ProvidersOf(c.oppose)| > 1
  {
    DifferIff(ProvidersOf(c.support), ProvidersOf(c.oppose));
    if a, b :| a in c.support && b in c.oppose && a.provider != b.provider {
      assert a in IdSet(c.support) && b in IdSet(c.oppose);
      assert ProviderOf(a) in ProvidersOf(c.support) && ProviderOf(b) in ProvidersOf(c.oppose);
    }
    if x, y :| x in ProvidersOf(c.support) && y in ProvidersOf(c.oppose) && x != y {
      var a :| a in IdSet(c.support) && ProviderOf(a) == x;
      var b :| b in IdSet(c.oppose) && ProviderOf(b) == y;
      assert a in c.support && b in c.oppose && a.provider != b.provider;
    }
  }

  // ---- The loops of `_claim_diversity_metadata` ----

  // A dictionary of sets that starts every key with the empty set.
  function Get<K, V>(m: map<K, set<V>>, k: K): set<V> {
    if k in m then m[k] else {}
  }

  function Adding<K, V>(m: map<K, set<V>>, k: K, v: V): map<K, set<V>> {
    m[k := Get(m, k) + {v}]
  }

  datatype Presence = Presence(
    modelPositions: map<ProviderModel, set<Position>>, providerPositions: map<string, set<Position>>,
    modelsAt: map<Position, set<ProviderModel>>, providersAt: map<Position, set<string>>)

  // `p` joined the sets of `keys`; `values` joined the set of `p`.
  ghost predicate ByKey<K(!new)>(before: map<K, set<Position>>, after: map<K, set<Position>>, keys: set<K>, p: Position) {
    && after.Keys == before.Keys + keys
    && forall k {:trigger Get(after, k)} :: Get(after, k) == Get(before, k) + (if k in keys then {p} else {})
  }

  ghost predicate ByPosition<V(!new)>(before: map<Position, set<V>>, after: map<Position, set<V>>, values: set<V>, p: Position) {
    && after.Keys == before.Keys + (if values == {} then {} else {p})
    && forall q {:trigger Get(after, q)} :: Get(after, q) == Get(before, q) + (if q == p then values else {})
  }

  lemma ByKeyMore<K(!new)>(before: map<K, set<Position>>, now: map<K, set<Position>>, keys: set<K>, p: Position, k: K)
    requires ByKey(before, now, keys, p)
    ensures ByKey(before, Adding(now, k, p), keys + {k}, p)
  {
    var after := Adding(now, k, p);
    forall x ensures Get(after, x) == Get(before, x) + (if x in keys + {k} then {p} else {}) {
      assert Get(now, x) == Get(before, x) + (if x in keys then {p} else {});
    }
  }

  lemma ByPositionMore<V(!new)>(before: map<Position, set<V>>, now: map<Position, set<V>>, values: set<V>, p: Position, v: V)
    requires ByPosition(before, now, values, p)
    ensures ByPosition(before, Adding(now, p, v), values + {v}, p)
  {
    var after := Adding(now, p, v);
    assert v in values + {v};
    forall q ensures Get(after, q) == Get(before, q) + (if q == p then values + {v} else {}) {
      assert Get(now, q) == Get(before, q) + (if q == p then values else {});
    }
  }

  // What three rounds over the positions leave.
  lemma ByKeyThrice<K(!new)>(a: map<K, set<Position>>, b: map<K, set<Position>>, d: map<K, set<Position>>, s: set<K>, o: set<K>, u: set<K>)
    requires ByKey(map[], a, s, SUPPORT) && ByKey(a, b, o, OPPOSE) && ByKey(b, d, u, UNKNOWN)
    ensures d.Keys == s + o + u
    ensures (exists k :: k in d.Keys && {SUPPORT, OPPOSE} <= d[k]) <==> s * o != {}
  {
    forall k ensures {SUPPORT, OPPOSE} <= Get(d, k) <==> k in s * o {
      var none: map<K, set<Position>> := map[];
      assert Get(none, k) == {};
      assert Get(a, k) == Get(none, k) + (if k in s then {SUPPORT} else {});
      assert Get(b, k) == Get(a, k) + (if k in o then {OPPOSE} else {});
      assert SUPPORT in Get(d, k) <==> k in s;
      assert OPPOSE in Get(d, k) <==> k in o;
    }
    if k :| k in s * o {
      assert {SUPPORT, OPPOSE} <= Get(d, k);
    }
    if k :| k in d.Keys && {SUPPORT, OPPOSE} <= d[k] {
      assert {SUPPORT, OPPOSE} <= Get(d, k);
    }
  }

  function Chosen<V>(p: Position, s: set<V>, o: set<V>, u: set<V>): set<V> {
    match p
    case SUPPORT => s
    case OPPOSE => o
    case UNKNOWN => u
  }

  ghost predicate Filled<V(!new)>(d: map<Position, set<V>>, s: set<V>, o: set<V>, u: set<V>) {
    forall p {:trigger FilledAt(d, p, s, o, u)} :: FilledAt(d, p, s, o, u)
  }

  ghost predicate FilledAt<V>(d: map<Position, set<V>>, p: Position, s: set<V>, o: set<V>, u: set<V>) {
    Get(d, p) == Chosen(p, s, o, u) && (p in d <==> Chosen(p, s, o, u) != {})
  }

  lemma ByPositionThrice<V(!new)>(a: map<Position, set<V>>, b: map<Position, set<V>>, d: map<Position, set<V>>, s: set<V>, o: set<V>, u: set<V>)
    requires ByPosition(map[], a, s, SUPPORT) && ByPosition(a, b, o, OPPOSE) && ByPosition(b, d, u, UNKNOWN)
    ensures Filled(d, s, o, u)
  {
    forall p ensures FilledAt(d, p, s, o, u) {
      var none: map<Position, set<V>> := map[];
      assert Get(none, p) == {};
      assert Get(a, p) == Get(none, p) + (if p == SUPPORT then s else {});
      assert Get(b, p) == Get(a, p) + (if p == OPPOSE then o else {});
      assert Get(d, p) == Get(b, p) + (if p == UNKNOWN then u else {});
    }
  }

  lemma SizesOfFilled<V(!new)>(d: map<Position, set<V>>, s: set<V>, o: set<V>, u: set<V>)
    requires Filled(d, s, o, u)
    ensures (map p | p in d :: |d[p]|) == map p | p in POSITIONS && Chosen(p, s, o, u) != {} :: |Chosen(p, s, o, u)|
  {
    hide Chosen;
    forall p: Position ensures p in POSITIONS && (p in d <==> Chosen(p, s, o, u) != {}) && (p in d ==> d[p] == Chosen(p, s, o, u)) {
      assert FilledAt(d, p, s, o, u);
      assert p.SUPPORT? || p.OPPOSE? || p.UNKNOWN?;
    }
  }

  // `after` is `before` with everybody in `items` at `p`.
  ghost predicate Joined(before: Presence, after: Presence, items: seq<Identity>, p: Position) {
    && ByKey(before.modelPositions, after.modelPositions, ModelsOf(items), p)
    && ByKey(before.providerPositions, after.providerPositions, ProvidersOf(items), p)
    && ByPosition(before.modelsAt, after.modelsAt, ModelsOf(items), p)
    && ByPosition(before.providersAt, after.providersAt, ProvidersOf(items), p)
  }

  lemma OneMore(items: seq<Identity>, n: nat)
    requires n < |items|
    ensures IdSet(items[..n + 1]) == IdSet(items[..n]) + {items[n]}
    ensures ModelsOf(items[..n + 1]) == ModelsOf(items[..n]) + {ModelOf(items[n])}
    ensures ProvidersOf(items[..n + 1]) == ProvidersOf(items[..n]) + {ProviderOf(items[n])}
  {
    hide Image;
    assert items[..n + 1] == items[..n] + [items[n]];
    ImageUnion(IdSet(items[..n]), {items[n]}, ModelOf);
    ImageOne(items[n], ModelOf);
    ImageUnion(IdSet(items[..n]), {items[n]}, ProviderOf);
    ImageOne(items[n], ProviderOf);
  }

  function JoinOne(d: Presence, i: Identity, p: Position): Presence {
    Presence(Adding(d.modelPositions, ModelOf(i), p), Adding(d.providerPositions, ProviderOf(i), p),
             Adding(d.modelsAt, p, ModelOf(i)), Adding(d.providersAt, p, ProviderOf(i)))
  }

  lemma JoinedOneMore(before: Presence, d: Presence, items: seq<Identity>, n: nat, p: Position)
    requires n < |items| && Joined(before, d, items[..n], p)
    ensures Joined(before, JoinOne(d, items[n], p), items[..n + 1], p)
  {
    hide ModelsOf, ProvidersOf, ModelOf, ProviderOf, ByKey, ByPosition, Adding;
    OneMore(items, n);
    ByKeyMore(before.modelPositions, d.modelPositions, ModelsOf(items[..n]), p, ModelOf(items[n]));
    ByKeyMore(before.providerPositions, d.providerPositions, ProvidersOf(items[..n]), p, ProviderOf(items[n]));
    ByPositionMore(before.modelsAt, d.modelsAt, ModelsOf(items[..n]), p, ModelOf(items[n]));
    ByPositionMore(before.providersAt, d.providersAt, ProvidersOf(items[..n]), p, ProviderOf(items[n]));
  }

  lemma JoinedNobody(d: Presence, items: seq<Identity>, p: Position)
    ensures Joined(d, d, items[..0], p)
  {
    hide Image;
    ImageEmpty(IdSet(items[..0]), ModelOf);
    ImageEmpty(IdSet(items[..0]), ProviderOf);
  }

  // The items of one position.
  method JoinItems(before: Presence, items: seq<Identity>, p: Position) returns (after: Presence)
    ensures Joined(before, after, items, p)
  {
    hide Joined, JoinOne;
    after := before;
    JoinedNobody(before, items, p);
    for n := 0 to |items|
      invariant Joined(before, after, items[..n], p)
    {
      JoinedOneMore(before, after, items, n, p);
      after := JoinOne(after, items[n], p);
    }
    assert items[..|items|] == items;
  }

  lemma AllOf(c: Claim)
    ensures IdSet(Everyone(c)) == IdSet(c.support) + IdSet(c.oppose) + IdSet(c.unknown)
    ensures ModelsOf(Everyone(c)) == ModelsOf(c.support) + ModelsOf(c.oppose) + ModelsOf(c.unknown)
    ensures ProvidersOf(Everyone(c)) == ProvidersOf(c.support) + ProvidersOf(c.oppose) + ProvidersOf(c.unknown)
  {
    hide Image;
    ImageUnion(IdSet(c.support) + IdSet(c.oppose), IdSet(c.unknown), ModelOf);
    ImageUnion(IdSet(c.support), IdSet(c.oppose), ModelOf);
    ImageUnion(IdSet(c.support) + IdSet(c.oppose), IdSet(c.unknown), ProviderOf);
    ImageUnion(IdSet(c.support), IdSet(c.oppose), ProviderOf);
  }

  const NOBODY: Presence := Presence(map[], map[], map[], map[])

  // The counts and flags read off the filled dictionaries.
  function ReadOff(d: Presence): Diversity {
    var supportModels, opposeModels := Get(d.modelsAt, SUPPORT), Get(d.modelsAt, OPPOSE);
    var supportProviders, opposeProviders := Get(d.providersAt, SUPPORT), Get(d.providersAt, OPPOSE);
    Diversity(
      map p | p in d.modelsAt :: |d.modelsAt[p]|, map p | p in d.providersAt :: |d.providersAt[p]|,
      |d.modelPositions.Keys|, |d.providerPositions.Keys|,
      exists m :: m in d.modelPositions.Keys && {SUPPORT, OPPOSE} <= d.modelPositions[m],
      supportModels != {} && opposeModels != {} && |supportModels + opposeModels| > 1,
      supportProviders != {} && opposeProviders != {} && |supportProviders + opposeProviders| > 1)
  }

  lemma AtIsChosen(c: Claim, p: Position)
    ensures ModelsOf(At(c, p)) == Chosen(p, ModelsOf(c.support), ModelsOf(c.oppose), ModelsOf(c.unknown))
    ensures ProvidersOf(At(c, p)) == Chosen(p, ProvidersOf(c.support), ProvidersOf(c.oppose), ProvidersOf(c.unknown))
    ensures ModelsOf(At(c, p)) == {} <==> At(c, p) == []
    ensures ProvidersOf(At(c, p)) == {} <==> At(c, p) == []
  {
    hide Image;
    var ids := At(c, p);
    ImageEmpty(IdSet(ids), ModelOf);
    ImageEmpty(IdSet(ids), ProviderOf);
    if ids != [] {
      assert ids[0] in IdSet(ids);
    }
  }

  lemma PresenceIsSizes(c: Claim)
    ensures DiversityOf(c).modelPresence ==
      var s, o, u := ModelsOf(c.support), ModelsOf(c.oppose), ModelsOf(c.unknown);
      map p | p in POSITIONS && Chosen(p, s, o, u) != {} :: |Chosen(p, s, o, u)|
    ensures DiversityOf(c).providerPresence ==
      var s, o, u := ProvidersOf(c.support), ProvidersOf(c.oppose), ProvidersOf(c.unknown);
      map p | p in POSITIONS && Chosen(p, s, o, u) != {} :: |Chosen(p, s, o, u)|
  {
    hide ModelsOf, ProvidersOf, CrossModel, CrossProvider, RoleConditioned, Chosen, At;
    AtIsChosen(c, SUPPORT);
    AtIsChosen(c, OPPOSE);
    AtIsChosen(c, UNKNOWN);
  }

  lemma ReadOffIsDiversity(c: Claim, a: Presence, b: Presence, d: Presence)
    requires Joined(NOBODY, a, c.support, SUPPORT) && Joined(a, b, c.oppose, OPPOSE) && Joined(b, d, c.unknown, UNKNOWN)
    ensures ReadOff(d) == DiversityOf(c)
  {
    hide ModelsOf, ProvidersOf, CrossModel, CrossProvider, RoleConditioned, ByKey, ByPosition, Filled;
    AllOf(c);
    ByKeyThrice(a.modelPositions, b.modelPositions, d.modelPositions, ModelsOf(c.support), ModelsOf(c.oppose), ModelsOf(c.unknown));
    ByKeyThrice(a.providerPositions, b.providerPositions, d.providerPositions, ProvidersOf(c.support), ProvidersOf(c.oppose), ProvidersOf(c.unknown));
    ByPositionThrice(a.modelsAt, b.modelsAt, d.modelsAt, ModelsOf(c.support), ModelsOf(c.oppose), ModelsOf(c.unknown));
    ByPositionThrice(a.providersAt, b.providersAt, d.providersAt, ProvidersOf(c.support), ProvidersOf(c.oppose), ProvidersOf(c.unknown));
    RoleConditionedIff(c);
    CrossModelIff(c);
    CrossProviderIff(c);
    SizesOfFilled(d.modelsAt, ModelsOf(c.support), ModelsOf(c.oppose), ModelsOf(c.unknown));
    SizesOfFilled(d.providersAt, ProvidersOf(c.support), ProvidersOf(c.oppose), ProvidersOf(c.unknown));
    PresenceIsSizes(c);
    assert FilledAt(d.modelsAt, SUPPORT, ModelsOf(c.support), ModelsOf(c.oppose), ModelsOf(c.unknown));
    assert FilledAt(d.modelsAt, OPPOSE, ModelsOf(c.support), ModelsOf(c.oppose), ModelsOf(c.unknown));
    assert FilledAt(d.providersAt, SUPPORT, ProvidersOf(c.support), ProvidersOf(c.oppose), ProvidersOf(c.unknown));
    assert FilledAt(d.providersAt, OPPOSE, ProvidersOf(c.support), ProvidersOf(c.oppose), ProvidersOf(c.unknown));
  }

  /** `_claim_diversity_metadata`: four dictionaries filled item by item, and the counts and flags read off them. */
  method ClaimDiversity(c: Claim) returns (d: Diversity)
    ensures d == DiversityOf(c)
  {
    hide Joined, ReadOff, DiversityOf;
    var a := JoinItems(NOBODY, c.support, SUPPORT);
    var b := JoinItems(a, c.oppose, OPPOSE);
    var all := JoinItems(b, c.unknown, UNKNOWN);
    ReadOffIsDiversity(c, a, b, all);
    d := ReadOff(all);
  }

  lemma MoreThanOne<T>(a: set<T>, b: set<T>, x: T, y: T)
    requires x in a && y in b && x != y
    ensures |a + b| > 1
  {
    assert {x, y} <= a + b;
    SubsetSize({x, y}, a + b);
  }

  /** A claim is DIVERGENT exactly when two models disagree on it, or one model disagrees with itself across
      roles; a disagreement between providers is always one between models. */
  lemma DivergentIff(canonical: map<Identity, Submission>, c: Claim)
    requires ClaimOk(canonical, c)
    ensures c.descriptive == DIVERGENT <==> CrossModel(c) || RoleConditioned(c)
    ensures CrossProvider(c) ==> CrossModel(c)
  {
    hide ClaimOk;
    assert c.descriptive == LabelOf(|c.support|, |c.oppose|, |c.unknown|) by { LabelOfClaim(canonical, c); }
    if c.descriptive == DIVERGENT {
      assert c.support[0] in c.support && c.oppose[0] in c.oppose;
    }
    if a, b :| a in c.support && b in c.oppose && a.provider != b.provider {
      assert ModelOf(a) != ModelOf(b);
    }
  }

  /** Every label says who spoke: divergent when some support and some oppose; otherwise the one side that was
      taken, and whether anybody was undecided; and unknown-only when nobody took a side. */
  lemma LabelSaysWhoSpoke(canonical: map<Identity, Submission>, c: Claim)
    requires ClaimOk(canonical, c)
    ensures var s := Holders(canonical, c.key, SUPPORT) != {};
      var o := Holders(canonical, c.key, OPPOSE) != {};
      var u := Holders(canonical, c.key, UNKNOWN) != {};
      match c.descriptive
      case DIVERGENT => s && o
      case SUPPORT_WITH_UNKNOWN => s && !o && u
      case SUPPORT_ONLY => s && !o && !u
      case OPPOSE_WITH_UNKNOWN => !s && o && u
      case OPPOSE_ONLY => !s && o && !u
      case UNKNOWN_ONLY => !s && !o
  {
    hide Holders, IdentityLe;
    ParticipantsAreHolders(canonical, c);
  }

  lemma LabelOfClaim(canonical: map<Identity, Submission>, c: Claim)
    requires ClaimOk(canonical, c)
    ensures c.descriptive == LabelOf(|c.support|, |c.oppose|, |c.unknown|)
  {
  }

  lemma ProvidersAreImages(c: Claim)
    ensures |ProvidersOf(c.support) + ProvidersOf(c.oppose)| <= |ModelsOf(c.support) + ModelsOf(c.oppose)|
    ensures |ProvidersOf(Everyone(c))| <= |ModelsOf(Everyone(c))| <= |IdSet(Everyone(c))|
  {
    hide Image;
    var both := IdSet(c.support) + IdSet(c.oppose);
    ImageUnion(IdSet(c.support), IdSet(c.oppose), ModelOf);
    ImageUnion(IdSet(c.support), IdSet(c.oppose), ProviderOf);
    CountsOrdered(both);
    CountsOrdered(IdSet(Everyone(c)));
  }

  lemma OneStance(canonical: map<Identity, Submission>, key: string, p: Position, q: Position)
    requires p != q && forall i | i in canonical :: ValidContent(canonical[i].content)
    ensures Holders(canonical, key, p) !! Holders(canonical, key, q)
  {
  }

  lemma ParticipantsAreHolders(canonical: map<Identity, Submission>, c: Claim)
    requires ClaimOk(canonical, c)
    ensures IdSet(Everyone(c)) == Holders(canonical, c.key, SUPPORT) + Holders(canonical, c.key, OPPOSE) + Holders(canonical, c.key, UNKNOWN)
    ensures |c.support| == |Holders(canonical, c.key, SUPPORT)|
    ensures |c.oppose| == |Holders(canonical, c.key, OPPOSE)| && |c.unknown| == |Holders(canonical, c.key, UNKNOWN)|
  {
    hide Holders, IdentityLe;
    EnumerationLength(c.support, Holders(canonical, c.key, SUPPORT), IdentityLe);
    EnumerationLength(c.oppose, Holders(canonical, c.key, OPPOSE), IdentityLe);
    EnumerationLength(c.unknown, Holders(canonical, c.key, UNKNOWN), IdentityLe);
  }

  /** Each identity takes one position on a claim, so the position counts add up to the participants; and there
      are at most as many providers as provider-models, and as many of those as participating identities. */
  lemma ParticipantCounts(canonical: map<Identity, Submission>, c: Claim)
    requires ClaimOk(canonical, c) && forall i | i in canonical :: ValidContent(canonical[i].content)
    ensures |ProvidersOf(Everyone(c))| <= |ModelsOf(Everyone(c))| <= |c.support| + |c.oppose| + |c.unknown|
    ensures |IdSet(Everyone(c))| == |c.support| + |c.oppose| + |c.unknown|
  {
    hide Holders, ValidContent, ClaimOk, Everyone, ProvidersOf, ModelsOf;
    OneStance(canonical, c.key, SUPPORT, OPPOSE);
    OneStance(canonical, c.key, SUPPORT, UNKNOWN);
    OneStance(canonical, c.key, OPPOSE, UNKNOWN);
    ParticipantsAreHolders(canonical, c);
    ProvidersAreImages(c);
  }

  // ---- The v2 counts ----

  function Participants(claims: seq<Claim>): set<Identity> {
    set k, i | 0 <= k < |claims| && i in Everyone(claims[k]) :: i
  }

  datatype Counts = Counts(identities: nat, models: nat, providers: nat)

  function CountsOf(ids: set<Identity>): Counts {
    Counts(|ids|, |Image(ids, ModelOf)|, |Image(ids, ProviderOf)|)
  }

  // One item after the other joins the three sets.
  method CountItems(items: seq<Identity>, ids0: set<Identity>, models0: set<ProviderModel>, providers0: set<string>)
    returns (ids: set<Identity>, models: set<ProviderModel>, providers: set<string>)
    ensures ids == ids0 + IdSet(items) && models == models0 + ModelsOf(items) && providers == providers0 + ProvidersOf(items)
  {
    hide ModelsOf, ProvidersOf;
    ids, models, providers := ids0, models0, providers0;
    NoItems(items);
    for n := 0 to |items|
      invariant ids == ids0 + IdSet(items[..n])
      invariant models == models0 + ModelsOf(items[..n]) && providers == providers0 + ProvidersOf(items[..n])
    {
      OneMore(items, n);
      ids, models, providers := ids + {items[n]}, models + {ModelOf(items[n])}, providers + {ProviderOf(items[n])};
    }
    assert items[..|items|] == items;
  }

  lemma NoItems(items: seq<Identity>)
    ensures IdSet(items[..0]) == {} && ModelsOf(items[..0]) == {} && ProvidersOf(items[..0]) == {}
  {
    hide Image;
    ImageEmpty(IdSet(items[..0]), ModelOf);
    ImageEmpty(IdSet(items[..0]), ProviderOf);
  }

  lemma OneMoreClaim(claims: seq<Claim>, k: nat)
    requires k < |claims|
    ensures var before, more := Participants(claims[..k]), IdSet(Everyone(claims[k]));
      var after := Participants(claims[..k + 1]);
      && after == before + more
      && Image(after, ModelOf) == Image(before, ModelOf) + ModelsOf(Everyone(claims[k]))
      && Image(after, ProviderOf) == Image(before, ProviderOf) + ProvidersOf(Everyone(claims[k]))
  {
    hide Image;
    var before, more := Participants(claims[..k]), IdSet(Everyone(claims[k]));
    assert forall j | 0 <= j < k :: claims[..k + 1][j] == claims[..k][j];
    forall i ensures i in before + more <==> i in Participants(claims[..k + 1]) {
      if i in Everyone(claims[k]) { assert claims[..k + 1][k] == claims[k]; }
    }
    assert Participants(claims[..k + 1]) == before + more;
    ImageUnion(before, more, ModelOf);
    ImageUnion(before, more, ProviderOf);
  }

  /** The loops of `aggregate_results_v2`: each claim gets its metadata, its participants join the completed sets,
      and the results that are not completed join copies of these. */
  method CountParticipants(out: Aggregate) returns (completed: Counts, observed: Counts, metadata: seq<Diversity>)
    ensures completed == CountsOf(Participants(out.claims))
    ensures observed == CountsOf(Participants(out.claims) + IdSet(out.noncompleted))
    ensures |metadata| == |out.claims| && forall k | 0 <= k < |metadata| :: metadata[k] == DiversityOf(out.claims[k])
  {
    hide Image, ModelsOf, ProvidersOf, DiversityOf, Participants, Everyone;
    var ids: set<Identity>, models: set<ProviderModel>, providers: set<string> := {}, {}, {};
    metadata := [];
    NoClaims(out.claims);
    for k := 0 to |out.claims|
      invariant ids == Participants(out.claims[..k])
      invariant models == Image(ids, ModelOf) && providers == Image(ids, ProviderOf)
      invariant |metadata| == k && forall j | 0 <= j < k :: metadata[j] == DiversityOf(out.claims[j])
    {
      var c := out.claims[k];
      var d := ClaimDiversity(c);
      OneMoreClaim(out.claims, k);
      AllOf(c);
      ids, models, providers := CountItems(c.support, ids, models, providers);
      ids, models, providers := CountItems(c.oppose, ids, models, providers);
      ids, models, providers := CountItems(c.unknown, ids, models, providers);
      metadata := metadata + [d];
    }
    assert out.claims[..|out.claims|] == out.claims;
    completed := Counts(|ids|, |models|, |providers|);
    var allIds, allModels, allProviders := CountItems(out.noncompleted, ids, models, providers);
    observed := Counts(|allIds|, |allModels|, |allProviders|);
    CountsOfUnion(ids, out.noncompleted);
  }

  lemma NoClaims(claims: seq<Claim>)
    ensures Participants(claims[..0]) == {}
    ensures Image(Participants(claims[..0]), ModelOf) == {} && Image(Participants(claims[..0]), ProviderOf) == {}
  {
    hide Image;
    ImageEmpty(Participants(claims[..0]), ModelOf);
    ImageEmpty(Participants(claims[..0]), ProviderOf);
  }

  lemma CountsOfUnion(ids: set<Identity>, more: seq<Identity>)
    ensures CountsOf(ids + IdSet(more)) ==
      Counts(|ids + IdSet(more)|, |Image(ids, ModelOf) + ModelsOf(more)|, |Image(ids, ProviderOf) + ProvidersOf(more)|)
  {
    hide Image;
    ImageUnion(ids, IdSet(more), ModelOf);
    ImageUnion(ids, IdSet(more), ProviderOf);
  }

  lemma ParticipantsAreCompleted(env: Env, r: set<Submission>, out: Aggregate)
    requires Describes(env, r, out) && AllValid(env, r)
    ensures Participants(out.claims) == set i | i in out.canonical && out.canonical[i].content.status == COMPLETED
  {
    hide IdentityLe, AckSet, AckLe, StrLe;
    var canonical := out.canonical;
    forall i | i in Participants(out.claims) ensures i in canonical && canonical[i].content.status == COMPLETED {
      var k :| 0 <= k < |out.claims| && i in Everyone(out.claims[k]);
      assert ClaimOk(canonical, out.claims[k]);
      assert i in out.claims[k].support || i in out.claims[k].oppose || i in out.claims[k].unknown;
    }
    forall i | i in canonical && canonical[i].content.status == COMPLETED ensures i in Participants(out.claims) {
      var f := canonical[i].content.findings[0];
      assert i in Holders(canonical, f.claimKey, f.position);
      assert Claimed(canonical, f.claimKey);
      var k :| 0 <= k < |out.claims| && out.claims[k].key == f.claimKey;
      assert ClaimOk(canonical, out.claims[k]);
      assert i in Everyone(out.claims[k]);
    }
  }

  /** The v2 counts: whoever is counted as completed really has a completed result, everybody observed is one
      of the unique identities, and completed never exceeds observed, by identity, model or provider. */
  lemma CompletedAtMostObserved(env: Env, r: set<Submission>, out: Aggregate)
    requires Describes(env, r, out) && AllValid(env, r)
    ensures var completed := Participants(out.claims); var observed := completed + IdSet(out.noncompleted);
      && observed == out.canonical.Keys
      && CountsOf(observed).identities == |out.canonical|
      && CountsOf(completed).identities <= CountsOf(observed).identities
      && CountsOf(completed).models <= CountsOf(observed).models
      && CountsOf(completed).providers <= CountsOf(observed).providers
      && CountsOf(observed).providers <= CountsOf(observed).models <= CountsOf(observed).identities
  {
    hide Describes, AllValid, Participants, CountsOf;
    ParticipantsAreCompleted(env, r, out);
    var completed := Participants(out.claims);
    var observed := completed + IdSet(out.noncompleted);
    assert observed == out.canonical.Keys by { ObservedAreAll(env, r, out, completed); }
    CountsMonotone(completed, observed);
    CountsOrdered(observed);
    assert |out.canonical.Keys| == |out.canonical|;
  }

  lemma ObservedAreAll(env: Env, r: set<Submission>, out: Aggregate, completed: set<Identity>)
    requires Describes(env, r, out)
    requires completed == set i | i in out.canonical && out.canonical[i].content.status == COMPLETED
    ensures completed + IdSet(out.noncompleted) == out.canonical.Keys
  {
    hide ClaimsOk, AckSet, CanonicalOf, IdentityLe;
  }

  lemma CountsMonotone(a: set<Identity>, b: set<Identity>)
    requires a <= b
    ensures CountsOf(a).identities <= CountsOf(b).identities
    ensures CountsOf(a).models <= CountsOf(b).models && CountsOf(a).providers <= CountsOf(b).providers
  {
    hide Image;
    SubsetSize(a, b);
    assert b == a + b;
    ImageUnion(a, b, ModelOf);
    ImageUnion(a, b, ProviderOf);
    SubsetSize(Image(a, ModelOf), Image(b, ModelOf));
    SubsetSize(Image(a, ProviderOf), Image(b, ProviderOf));
  }

  lemma CountsOrdered(ids: set<Identity>)
    ensures CountsOf(ids).identities == |ids|
    ensures CountsOf(ids).providers <= CountsOf(ids).models <= CountsOf(ids).identities
  {
    hide Image;
    var first := (m: ProviderModel) => m.0;
    ImageSize(ids, ModelOf);
    ImageThrough(ids, ModelOf, first, ProviderOf);
    ImageSize(Image(ids, ModelOf), first);
  }
}
