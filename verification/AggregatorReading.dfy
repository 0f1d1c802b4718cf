// What an aggregate tells its reader about the submissions themselves, and about
// nothing else: who stands for an identity, who said what on which claim, where
// the results diverge, and which submission repeats which.
module AggregatorReading {
  import opened Prelude
  import opened Ordering
  import opened Aggregator
  import opened AggregatorLaws

  // ---- The submissions ----

  // No submission of the same identity has a smaller id.
  ghost predicate Stands(r: set<Submission>, s: Submission) {
    s in r && !exists o :: o in r && o.content.identity == s.content.identity && o.id != s.id && StrLe(o.id, s.id)
  }

  // The completed result that stands for the identity holds this position on the claim.
  ghost predicate Said(r: set<Submission>, i: Identity, key: string, p: Position) {
    exists s :: Stands(r, s) && s.content.identity == i && SaysItself(s, key, p)
  }

  ghost predicate SaysItself(s: Submission, key: string, p: Position) {
    s.content.status == COMPLETED && exists f :: f in s.content.findings && f.claimKey == key && f.position == p
  }

  ghost predicate Repeats(r: set<Submission>, copy: Submission, first: Submission) {
    copy in r && Stands(r, first) && copy.content.identity == first.content.identity && copy.id != first.id
  }

  lemma StandsIsCanonical(r: set<Submission>, s: Submission)
    requires IdsIdentify(r)
    ensures Stands(r, s) <==> IsCanonical(r, s)
  {
    forall o | o in r ensures StrLe(s.id, o.id) || StrLe(o.id, s.id) {
      StrLeTotal(s.id, o.id);
    }
    forall o | o in r && StrLe(o.id, s.id) && StrLe(s.id, o.id) ensures o.id == s.id {
      StrLeAntisymmetric(o.id, s.id);
    }
    StrLeTotal(s.id, s.id);
  }

  lemma OneStands(r: set<Submission>, canonical: map<Identity, Submission>, s: Submission)
    requires IdsIdentify(r) && CanonicalOf(r, canonical)
    ensures Stands(r, s) <==> s.content.identity in canonical && canonical[s.content.identity] == s
  {
    hide Stands;
    StandsIsCanonical(r, s);
    if IsCanonical(r, s) {
      var c := canonical[s.content.identity];
      StrLeAntisymmetric(c.id, s.id);
    }
  }

  lemma HoldersSaid(r: set<Submission>, canonical: map<Identity, Submission>, i: Identity, key: string, p: Position)
    requires IdsIdentify(r) && CanonicalOf(r, canonical)
    ensures i in Holders(canonical, key, p) <==> Said(r, i, key, p)
  {
    hide Stands, StrLe, IsCanonical;
    if i in Holders(canonical, key, p) {
      var s := canonical[i];
      OneStands(r, canonical, s);
      var j :| 0 <= j < |s.content.findings| && s.content.findings[j].claimKey == key && s.content.findings[j].position == p;
      assert s.content.findings[j] in s.content.findings;
    }
    if Said(r, i, key, p) {
      var s :| Stands(r, s) && s.content.identity == i && SaysItself(s, key, p);
      OneStands(r, canonical, s);
    }
  }

  // ---- Acceptance ----

  ghost predicate GoodSubmission(env: Env, s: Submission) {
    && env.valid(s) && (s.content.status == COMPLETED <==> |s.content.findings| > 0)
    && forall i, j | 0 <= i < |s.content.findings| && 0 <= j < |s.content.findings| && i != j ::
      s.content.findings[i].claimKey != s.content.findings[j].claimKey
  }

  /** Exactly which lists are aggregated: at least one result, each valid, no submission id twice, and one content digest for
      each identity. */
  lemma AcceptedIff(env: Env, results: seq<Submission>)
    ensures Accepted(env, results) <==>
      && |results| > 0
      && (forall i | 0 <= i < |results| :: GoodSubmission(env, results[i]))
      && (forall i, j | 0 <= i < |results| && 0 <= j < |results| && i != j :: results[i].id != results[j].id)
      && (forall i, j | 0 <= i < |results| && 0 <= j < |results| && results[i].content.identity == results[j].content.identity ::
            env.digest(results[i].content) == env.digest(results[j].content))
  {
    hide ValidContent, GoodSubmission;
    forall i | 0 <= i < |results| ensures results[i] in SetOf(results) && (GoodSubmission(env, results[i]) <==> env.valid(results[i]) && ValidContent(results[i].content)) {
      GoodIff(env, results[i]);
    }
    forall s | s in SetOf(results) ensures exists i :: 0 <= i < |results| && results[i] == s {
    }
  }

  lemma GoodIff(env: Env, s: Submission)
    ensures GoodSubmission(env, s) <==> env.valid(s) && ValidContent(s.content)
  {
  }

  // ---- Claims and divergences ----

  ghost predicate Listed(claims: seq<Claim>, key: string, i: Identity, p: Position) {
    exists k :: 0 <= k < |claims| && claims[k].key == key && i in At(claims[k], p)
  }

  ghost predicate KeyMarked(claims: seq<Claim>, key: string) {
    exists k :: 0 <= k < |claims| && claims[k].key == key && claims[k].descriptive == DIVERGENT
  }

  lemma {:induction false} DivergentAreMarked(claims: seq<Claim>)
    requires forall i, j | 0 <= i < j < |claims| :: StrLe(claims[i].key, claims[j].key) && claims[i].key != claims[j].key
    ensures forall key :: key in Divergent(claims) <==> KeyMarked(claims, key)
    ensures forall i, j | 0 <= i < j < |Divergent(claims)| :: StrLe(Divergent(claims)[i], Divergent(claims)[j]) && Divergent(claims)[i] != Divergent(claims)[j]
    decreases |claims|
  {
    hide StrLe;
    if claims != [] {
      var n := |claims| - 1;
      var rest, last := claims[..n], claims[n];
      DivergentAreMarked(rest);
      forall key ensures KeyMarked(claims, key) <==> KeyMarked(rest, key) || (key == last.key && last.descriptive == DIVERGENT) {
        MarkedInMore(claims, key);
      }
      forall i | 0 <= i < |Divergent(rest)| ensures StrLe(Divergent(rest)[i], last.key) && Divergent(rest)[i] != last.key {
        assert Divergent(rest)[i] in Divergent(rest);
        var k :| 0 <= k < |rest| && rest[k].key == Divergent(rest)[i] && rest[k].descriptive == DIVERGENT;
        assert rest[k] == claims[k];
      }
    }
  }

  lemma MarkedInMore(claims: seq<Claim>, key: string)
    requires claims != []
    ensures var n := |claims| - 1;
      KeyMarked(claims, key) <==> KeyMarked(claims[..n], key) || (key == claims[n].key && claims[n].descriptive == DIVERGENT)
  {
    var n := |claims| - 1;
    if k :| 0 <= k < |claims[..n]| && claims[..n][k].key == key && claims[..n][k].descriptive == DIVERGENT {
      assert claims[k] == claims[..n][k];
    }
    if k :| 0 <= k < |claims| && claims[k].key == key && claims[k].descriptive == DIVERGENT {
      assert k < n ==> claims[..n][k] == claims[k];
    }
  }

  lemma ClaimsParts(canonical: map<Identity, Submission>, claims: seq<Claim>, k: nat)
    requires ClaimsOk(canonical, claims) && k < |claims|
    ensures ClaimOk(canonical, claims[k])
    ensures forall p: Position, i :: i in At(claims[k], p) <==> i in Holders(canonical, claims[k].key, p)
  {
    hide Holders, Claimed;
  }

  lemma KeyOfHolder(canonical: map<Identity, Submission>, claims: seq<Claim>, i: Identity, key: string, p: Position) returns (k: nat)
    requires ClaimsOk(canonical, claims) && i in Holders(canonical, key, p)
    ensures k < |claims| && claims[k].key == key
  {
    hide Holders, ClaimOk;
    assert Holders(canonical, key, p) != {};
    assert Claimed(canonical, key);
    k :| 0 <= k < |claims| && claims[k].key == key;
  }

  lemma ListedIffHolder(canonical: map<Identity, Submission>, claims: seq<Claim>, key: string, i: Identity, p: Position)
    requires ClaimsOk(canonical, claims)
    ensures Listed(claims, key, i, p) <==> i in Holders(canonical, key, p)
  {
    hide ClaimsOk, Holders, At;
    if i in Holders(canonical, key, p) {
      var k := KeyOfHolder(canonical, claims, i, key, p);
      ClaimsParts(canonical, claims, k);
    }
    if Listed(claims, key, i, p) {
      var k :| 0 <= k < |claims| && claims[k].key == key && i in At(claims[k], p);
      ClaimsParts(canonical, claims, k);
    }
  }

  lemma MarkedIffBoth(canonical: map<Identity, Submission>, claims: seq<Claim>, key: string)
    requires ClaimsOk(canonical, claims)
    ensures KeyMarked(claims, key) <==> Holders(canonical, key, SUPPORT) != {} && Holders(canonical, key, OPPOSE) != {}
  {
    hide ClaimsOk, Holders, ClaimOk;
    forall k | 0 <= k < |claims|
      ensures claims[k].descriptive == DIVERGENT <==>
              Holders(canonical, claims[k].key, SUPPORT) != {} && Holders(canonical, claims[k].key, OPPOSE) != {}
    {
      ClaimsParts(canonical, claims, k);
      LabelSaysWhoSpoke(canonical, claims[k]);
    }
    if i :| i in Holders(canonical, key, SUPPORT) {
      var k := KeyOfHolder(canonical, claims, i, key, SUPPORT);
    }
  }

  lemma ClaimKeysIncrease(canonical: map<Identity, Submission>, claims: seq<Claim>)
    requires ClaimsOk(canonical, claims)
    ensures forall i, j | 0 <= i < j < |claims| :: StrLe(claims[i].key, claims[j].key) && claims[i].key != claims[j].key
  {
    hide ClaimOk, Claimed;
  }

  lemma SidesSaid(r: set<Submission>, canonical: map<Identity, Submission>, key: string, p: Position)
    requires IdsIdentify(r) && CanonicalOf(r, canonical)
    ensures Holders(canonical, key, p) != {} <==> exists i :: Said(r, i, key, p)
  {
    hide Holders, Said, IdsIdentify, CanonicalOf;
    forall i ensures i in Holders(canonical, key, p) <==> Said(r, i, key, p) {
      HoldersSaid(r, canonical, i, key, p);
    }
  }

  // ---- The whole reading ----

  ghost predicate Diverges(r: set<Submission>, key: string) {
    exists a, b :: Said(r, a, key, SUPPORT) && Said(r, b, key, OPPOSE)
  }

  ghost predicate Increasing(keys: seq<string>) {
    forall i, j | 0 <= i < j < |keys| :: StrLe(keys[i], keys[j]) && keys[i] != keys[j]
  }

  /** An unresolved divergence is listed exactly for the claims that some identity supports and some identity opposes, and
      these are the claims on which two models, or one model in two roles, disagree; the list is strictly increasing. */
  lemma DivergencesAreDisagreements(env: Env, r: set<Submission>, out: Aggregate)
    requires IdsIdentify(r) && Describes(env, r, out)
    ensures Increasing(out.divergences)
    ensures forall key {:trigger key in out.divergences} :: key in out.divergences <==> Diverges(r, key)
    ensures forall k | 0 <= k < |out.claims| ::
      out.claims[k].key in out.divergences <==> CrossModel(out.claims[k]) || RoleConditioned(out.claims[k])
  {
    hide ClaimsOk, CanonicalOf, IdsIdentify, AckSet, Enumerates, ClaimOk, Said, StrLe, KeyMarked, Divergent, CrossModel, RoleConditioned;
    var canonical, claims := out.canonical, out.claims;
    ClaimKeysIncrease(canonical, claims);
    DivergentAreMarked(claims);
    forall key ensures key in out.divergences <==> Diverges(r, key) {
      MarkedIffBoth(canonical, claims, key);
      SidesSaid(r, canonical, key, SUPPORT);
      SidesSaid(r, canonical, key, OPPOSE);
    }
    forall k | 0 <= k < |claims|
      ensures claims[k].key in out.divergences <==> CrossModel(claims[k]) || RoleConditioned(claims[k])
    {
      ClaimsParts(canonical, claims, k);
      DivergentIff(canonical, claims[k]);
      MarkedIffLabel(claims, k);
    }
  }

  lemma MarkedIffLabel(claims: seq<Claim>, k: nat)
    requires k < |claims|
    requires forall i, j | 0 <= i < j < |claims| :: StrLe(claims[i].key, claims[j].key) && claims[i].key != claims[j].key
    ensures KeyMarked(claims, claims[k].key) <==> claims[k].descriptive == DIVERGENT
  {
    hide StrLe;
  }

  /** A claim lists an identity under a position exactly if the completed result that stands for the identity says so, and
      the keys of the claims are strictly increasing. */
  lemma ClaimsSayWhatWasSaid(env: Env, r: set<Submission>, out: Aggregate, key: string, i: Identity, p: Position)
    requires IdsIdentify(r) && Describes(env, r, out)
    ensures Listed(out.claims, key, i, p) <==> Said(r, i, key, p)
    ensures Increasing(Keys(out.claims))
  {
    hide ClaimsOk, CanonicalOf, IdsIdentify, AckSet, Enumerates, Listed, Said, Holders, StrLe;
    ListedIffHolder(out.canonical, out.claims, key, i, p);
    HoldersSaid(r, out.canonical, i, key, p);
    ClaimKeysIncrease(out.canonical, out.claims);
  }

  ghost predicate Acknowledges(env: Env, r: set<Submission>, a: Ack, copy: Submission, first: Submission) {
    Repeats(r, copy, first) && a.submissionId == copy.id && a.duplicateOf == first.id && a.digest == env.digest(first.content)
  }

  ghost predicate AcknowledgesSome(env: Env, r: set<Submission>, a: Ack) {
    exists copy, first :: Acknowledges(env, r, a, copy, first)
  }

  lemma DuplicateRepeats(r: set<Submission>, canonical: map<Identity, Submission>, copy: Submission, first: Submission)
    requires IdsIdentify(r) && CanonicalOf(r, canonical)
    ensures Repeats(r, copy, first) <==> copy in Duplicates(r, canonical) && first == canonical[copy.content.identity]
  {
    hide Stands, StrLe;
    OneStands(r, canonical, first);
    if copy in r {
      assert copy.content.identity in canonical;
      StandingIsMember(r, canonical, copy.content.identity);
    }
  }

  lemma StandingIsMember(r: set<Submission>, canonical: map<Identity, Submission>, i: Identity)
    requires CanonicalOf(r, canonical) && i in canonical
    ensures canonical[i] in r && canonical[i].content.identity == i
  {
  }

  /** Each acknowledgement names one submission that repeats an identity, the submission that stands for this identity, and
      the digest both contents share; and every repeating submission is acknowledged so. */
  lemma AcksNameTheRepeated(env: Env, r: set<Submission>, out: Aggregate)
    requires IdsIdentify(r) && Describes(env, r, out)
    ensures forall a {:trigger a in out.acks} :: a in out.acks <==> AcknowledgesSome(env, r, a)
    ensures Consistent(env, r) ==> forall a, copy, first | Acknowledges(env, r, a, copy, first) :: a.digest == env.digest(copy.content)
  {
    hide CanonicalOf, IdsIdentify, ClaimsOk, Repeats;
    var canonical := out.canonical;
    forall a ensures a in out.acks <==> AcknowledgesSome(env, r, a) {
      assert a in out.acks <==> a in AckSet(env, r, canonical);
      if a in AckSet(env, r, canonical) {
        var s :| s in Duplicates(r, canonical) && a == AckOf(env, s, canonical[s.content.identity]);
        DuplicateRepeats(r, canonical, s, canonical[s.content.identity]);
        assert Acknowledges(env, r, a, s, canonical[s.content.identity]);
      }
      if AcknowledgesSome(env, r, a) {
        var copy, first :| Acknowledges(env, r, a, copy, first);
        DuplicateRepeats(r, canonical, copy, first);
        assert a == AckOf(env, copy, first);
      }
    }
    forall a, copy, first | Consistent(env, r) && Acknowledges(env, r, a, copy, first) ensures a.digest == env.digest(copy.content) {
      RepeatsMembers(r, copy, first);
    }
  }

  lemma RepeatsMembers(r: set<Submission>, copy: Submission, first: Submission)
    requires Repeats(r, copy, first)
    ensures copy in r && first in r && copy.content.identity == first.content.identity
  {
  }

  /** Every identity that submitted has its one standing submission in the aggregate, and is listed as not completed
      exactly if that submission is. */
  lemma EveryIdentityStands(env: Env, r: set<Submission>, out: Aggregate, i: Identity)
    requires IdsIdentify(r) && Describes(env, r, out)
    ensures i in out.canonical <==> exists s :: s in r && s.content.identity == i
    ensures i in out.canonical ==> Stands(r, out.canonical[i]) && out.canonical[i].content.identity == i
    ensures i in out.noncompleted <==> exists s :: Stands(r, s) && s.content.identity == i && s.content.status != COMPLETED
  {
    hide AckSet, ClaimsOk, Stands;
    if i in out.canonical {
      OneStands(r, out.canonical, out.canonical[i]);
    }
    assert i in out.noncompleted <==> i in NoncompletedIn(out.canonical);
    if s :| Stands(r, s) && s.content.identity == i && s.content.status != COMPLETED {
      OneStands(r, out.canonical, s);
    }
  }

  // ---- The v2 metadata ----

  // The identities that say something on a claim.
  function Speakers(canonical: map<Identity, Submission>, key: string): set<Identity> {
    Holders(canonical, key, SUPPORT) + Holders(canonical, key, OPPOSE) + Holders(canonical, key, UNKNOWN)
  }

  function Models(ids: set<Identity>): set<(string, string)> {
    set i | i in ids :: (i.provider, i.model)
  }

  function Providers(ids: set<Identity>): set<string> {
    set i | i in ids :: i.provider
  }

  lemma ImagesAre(ids: set<Identity>)
    ensures Models(ids) == Image(ids, ModelOf) && Providers(ids) == Image(ids, ProviderOf)
  {
  }

  lemma PositionsAreHolders(canonical: map<Identity, Submission>, c: Claim, p: Position)
    requires ClaimOk(canonical, c)
    ensures IdSet(At(c, p)) == Holders(canonical, c.key, p) && (At(c, p) != [] <==> Holders(canonical, c.key, p) != {})
    ensures IdSet(Everyone(c)) == Speakers(canonical, c.key)
  {
    hide Holders, IdentityLe;
    ParticipantsAreHolders(canonical, c);
    EmptyOrInhabited(At(c, p));
  }

  /** The metadata of a claim counts, for each position that somebody takes and for all of them together, the different models
      and the different providers that take it; and its flags say that a supporter and an opposer are one model in two roles,
      two models, two providers. */
  lemma MetadataCounts(canonical: map<Identity, Submission>, c: Claim, p: Position)
    requires ClaimOk(canonical, c)
    ensures var d, holders := DiversityOf(c), Holders(canonical, c.key, p);
      && (p in d.modelPresence <==> holders != {}) && (p in d.providerPresence <==> holders != {})
      && (holders != {} ==> d.modelPresence[p] == |Models(holders)| && d.providerPresence[p] == |Providers(holders)|)
      && d.models == |Models(Speakers(canonical, c.key))| && d.providers == |Providers(Speakers(canonical, c.key))|
    ensures var d, pro, con := DiversityOf(c), Holders(canonical, c.key, SUPPORT), Holders(canonical, c.key, OPPOSE);
      && (d.roleConditioned <==> Models(pro) * Models(con) != {})
      && (d.crossModel <==> exists a, b :: a in Models(pro) && b in Models(con) && a != b)
      && (d.crossProvider <==> exists a, b :: a in Providers(pro) && b in Providers(con) && a != b)
  {
    hide Holders, ClaimOk, CrossModel, CrossProvider, RoleConditioned, Image, Models, Providers;
    PositionsAreHolders(canonical, c, p);
    PositionsAreHolders(canonical, c, SUPPORT);
    PositionsAreHolders(canonical, c, OPPOSE);
    ImagesAre(Holders(canonical, c.key, p));
    ImagesAre(Speakers(canonical, c.key));
    FlagsAre(c, Holders(canonical, c.key, SUPPORT), Holders(canonical, c.key, OPPOSE));
    assert p in POSITIONS;
  }

  lemma FlagsAre(c: Claim, pro: set<Identity>, con: set<Identity>)
    requires pro == IdSet(c.support) && con == IdSet(c.oppose)
    ensures RoleConditioned(c) <==> Models(pro) * Models(con) != {}
    ensures CrossModel(c) <==> exists a, b :: a in Models(pro) && b in Models(con) && a != b
    ensures CrossProvider(c) <==> exists a, b :: a in Providers(pro) && b in Providers(con) && a != b
  {
    hide Image;
    ImagesAre(pro);
    ImagesAre(con);
    RoleConditionedIff(c);
    if a, b :| a in c.support && b in c.oppose && ModelOf(a) != ModelOf(b) {
      assert ModelOf(a) in Models(pro) && ModelOf(b) in Models(con);
    }
    if a, b :| a in c.support && b in c.oppose && a.provider != b.provider {
      assert a.provider in Providers(pro) && b.provider in Providers(con);
    }
  }

  lemma ParticipantsSpeak(canonical: map<Identity, Submission>, claims: seq<Claim>, i: Identity)
    requires ClaimsOk(canonical, claims)
    ensures i in Participants(claims) <==> exists key :: i in Speakers(canonical, key)
  {
    hide ClaimsOk, Holders, Everyone, IdSet;
    if i in Participants(claims) {
      var k :| 0 <= k < |claims| && i in Everyone(claims[k]);
      ClaimsParts(canonical, claims, k);
      EveryoneSpeaks(canonical, claims[k], i);
    }
    if key :| i in Speakers(canonical, key) {
      var p: Position :| i in Holders(canonical, key, p);
      var k := KeyOfHolder(canonical, claims, i, key, p);
      ClaimsParts(canonical, claims, k);
      EveryoneSpeaks(canonical, claims[k], i);
    }
  }

  lemma EveryoneSpeaks(canonical: map<Identity, Submission>, c: Claim, i: Identity)
    requires ClaimOk(canonical, c)
    ensures i in Everyone(c) <==> i in Speakers(canonical, c.key)
  {
    hide Holders, IdentityLe, ClaimOk;
    PositionsAreHolders(canonical, c, SUPPORT);
    assert i in Everyone(c) <==> i in IdSet(Everyone(c));
  }

  /** The completed counts are over the identities that say something on some claim, and the counts are those of the
      identities, of their models and of their providers. */
  lemma CountsAreOfSpeakers(canonical: map<Identity, Submission>, claims: seq<Claim>)
    requires ClaimsOk(canonical, claims)
    ensures forall i {:trigger i in Participants(claims)} :: i in Participants(claims) <==> exists key :: i in Speakers(canonical, key)
    ensures var ids := Participants(claims);
      CountsOf(ids) == Counts(|ids|, |Models(ids)|, |Providers(ids)|)
  {
    hide ClaimsOk, Speakers, Participants, Image, Models, Providers;
    forall i ensures i in Participants(claims) <==> exists key :: i in Speakers(canonical, key) {
      ParticipantsSpeak(canonical, claims, i);
    }
    ImagesAre(Participants(claims));
  }

  // ---- The orders ----

  predicate Before(a: string, b: string, k: int) {
    0 <= k <= |a| && k <= |b| && a[..k] == b[..k] && (k == |a| || (k < |b| && a[k] < b[k]))
  }

  /** The order of all these lists is the dictionary order: a prefix of the other, or smaller at the first difference. */
  lemma {:induction false} DictionaryOrder(a: string, b: string)
    ensures StrLe(a, b) <==> exists k :: Before(a, b, k)
  {
    if a == "" {
      assert Before(a, b, 0);
    } else if b != "" {
      DictionaryOrder(a[1..], b[1..]);
      if k :| Before(a[1..], b[1..], k) && a[0] == b[0] {
        assert a[..k + 1] == [a[0]] + a[1..][..k] && b[..k + 1] == [b[0]] + b[1..][..k];
        assert Before(a, b, k + 1);
      }
      if k :| Before(a, b, k) && k > 0 {
        assert a[0] == a[..k][0] && b[0] == b[..k][0];
        assert a[1..][..k - 1] == a[..k][1..] && b[1..][..k - 1] == b[..k][1..];
        assert Before(a[1..], b[1..], k - 1);
      } else if a[0] < b[0] {
        assert Before(a, b, 0);
      }
    }
  }
}
