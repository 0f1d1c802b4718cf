// The hash-chained audit log as text: what verifies, what appending keeps, how a
// legacy log is rebuilt, and what the last hash pins down.
module AuditChain {
  import opened Prelude

  const GENESIS := "GENESIS"

  datatype Row = Row(id: string, event: string, payload: string, timestamp: string, prev: string, hash: string)

  // A row before the chain columns existed.
  datatype LegacyRow = LegacyRow(id: string, event: string, payload: string, timestamp: string)

  function Joined(prev: string, id: string, event: string, payload: string, timestamp: string): string {
    prev + "|" + id + "|" + event + "|" + payload + "|" + timestamp
  }

  function DigestOf(hash: string -> string, prev: string, r: LegacyRow): string {
    hash(Joined(prev, r.id, r.event, r.payload, r.timestamp))
  }

  function Bare(r: Row): LegacyRow {
    LegacyRow(r.id, r.event, r.payload, r.timestamp)
  }

  function LastHash(rows: seq<Row>): string {
    if rows == [] then GENESIS else rows[|rows| - 1].hash
  }

  ghost predicate LinkOk(hash: string -> string, rows: seq<Row>, i: nat)
    requires i < |rows|
  {
    rows[i].prev == LastHash(rows[..i]) && rows[i].hash == DigestOf(hash, rows[i].prev, Bare(rows[i]))
  }

  ghost predicate Verifies(hash: string -> string, rows: seq<Row>) {
    forall i {:trigger LinkOk(hash, rows, i)} | 0 <= i < |rows| :: LinkOk(hash, rows, i)
  }

  /** `verify_audit_chain`. */
  method VerifyAuditChain(hash: string -> string, rows: seq<Row>) returns (ok: bool)
    ensures ok <==> Verifies(hash, rows)
  {
    hide Joined;
    var prev := GENESIS;
    for i := 0 to |rows|
      invariant prev == LastHash(rows[..i])
      invariant forall k {:trigger LinkOk(hash, rows, k)} | 0 <= k < i :: LinkOk(hash, rows, k)
    {
      var row := rows[i];
      var expected := DigestOf(hash, prev, Bare(row));
      if row.prev != prev || row.hash != expected {
        assert !LinkOk(hash, rows, i);
        return false;
      }
      assert LinkOk(hash, rows, i);
      assert rows[..i + 1] == rows[..i] + [row];
      prev := row.hash;
    }
    return true;
  }

  // ---- Appending ----

  predicate IdFree(rows: seq<Row>, id: string) {
    forall i | 0 <= i < |rows| :: rows[i].id != id
  }

  predicate HashFree(rows: seq<Row>, hash: string) {
    forall i | 0 <= i < |rows| :: rows[i].hash != hash
  }

  // The insert of `_append_audit`: refused by the table when the id or the hash is not unique.
  function Append(hash: string -> string, rows: seq<Row>, r: LegacyRow): Option<seq<Row>> {
    var prev := LastHash(rows);
    var digest := DigestOf(hash, prev, r);
    if !IdFree(rows, r.id) || !HashFree(rows, digest) then None
    else Some(rows + [Row(r.id, r.event, r.payload, r.timestamp, prev, digest)])
  }

  lemma AppendVerifies(hash: string -> string, rows: seq<Row>, r: LegacyRow)
    requires Verifies(hash, rows) && Append(hash, rows, r).Some?
    ensures Verifies(hash, Append(hash, rows, r).value)
    ensures Append(hash, rows, r).value[..|rows|] == rows && |Append(hash, rows, r).value| == |rows| + 1
  {
    hide Joined;
    var longer := Append(hash, rows, r).value;
    forall i | 0 <= i < |longer| ensures LinkOk(hash, longer, i) {
      assert longer[..i] == if i < |rows| then rows[..i] else rows;
      if i < |rows| { assert LinkOk(hash, rows, i); }
    }
  }

  // ---- Rebuilding a legacy log ----

  ghost predicate Rebuilds(hash: string -> string, legacy: seq<LegacyRow>, rows: seq<Row>) {
    && |rows| == |legacy| && (forall i | 0 <= i < |rows| :: Bare(rows[i]) == legacy[i])
    && Verifies(hash, rows)
  }

  predicate Unrepeated(rows: seq<Row>) {
    forall i, j | 0 <= i < j < |rows| :: rows[i].id != rows[j].id && rows[i].hash != rows[j].hash
  }

  // A legacy log has one rebuilt chain.
  lemma {:induction false} RebuiltIsUnique(hash: string -> string, legacy: seq<LegacyRow>, a: seq<Row>, b: seq<Row>, n: nat)
    requires n <= |a| && n <= |b| && n <= |legacy| && Verifies(hash, a) && Verifies(hash, b)
    requires forall i | 0 <= i < n :: Bare(a[i]) == legacy[i] == Bare(b[i])
    ensures a[..n] == b[..n]
  {
    hide Joined;
    if n > 0 {
      RebuiltIsUnique(hash, legacy, a, b, n - 1);
      assert LinkOk(hash, a, n - 1) && LinkOk(hash, b, n - 1);
      assert a[n - 1] == b[n - 1];
      assert a[..n] == a[..n - 1] + [a[n - 1]] && b[..n] == b[..n - 1] + [b[n - 1]];
    }
  }

  // When a row is refused, the whole log cannot be rebuilt.
  lemma RefusedRowForAll(hash: string -> string, legacy: seq<LegacyRow>, rows: seq<Row>, other: seq<Row>)
    requires |rows| < |legacy| && Verifies(hash, rows) && (forall i | 0 <= i < |rows| :: Bare(rows[i]) == legacy[i])
    requires Append(hash, rows, legacy[|rows|]).None?
    requires Rebuilds(hash, legacy, other)
    ensures !Unrepeated(other)
  {
    hide Joined;
    var n := |rows|;
    RebuiltIsUnique(hash, legacy, rows, other, n);
    assert other[..n] == rows;
    assert LinkOk(hash, other, n);
    assert Bare(other[n]) == legacy[n];
    assert forall i | 0 <= i < n :: other[i] == rows[i];
  }

  /** The rebuild loop of `_migrate_schema`: it keeps every row's text, in order, in a chain that verifies and repeats no id
      and no hash, and fails closed exactly when there is no such chain, so whenever an id repeats. */
  method Rebuild(hash: string -> string, legacy: seq<LegacyRow>) returns (out: Option<seq<Row>>)
    ensures out.Some? <==> exists rows :: Rebuilds(hash, legacy, rows) && Unrepeated(rows)
    ensures out.Some? ==> Rebuilds(hash, legacy, out.value) && Unrepeated(out.value) && |out.value| == |legacy|
    ensures out.Some? ==> forall i | 0 <= i < |legacy| ::
      && out.value[i].id == legacy[i].id && out.value[i].event == legacy[i].event
      && out.value[i].payload == legacy[i].payload && out.value[i].timestamp == legacy[i].timestamp
    ensures (exists i, j :: 0 <= i < j < |legacy| && legacy[i].id == legacy[j].id) ==> out.None?
  {
    hide Joined;
    var rows: seq<Row> := [];
    for n := 0 to |legacy|
      invariant |rows| == n && Verifies(hash, rows)
      invariant forall i | 0 <= i < n :: Bare(rows[i]) == legacy[i]
      invariant Unrepeated(rows)
    {
      var next := Append(hash, rows, legacy[n]);
      if next.None? {
        forall other | Rebuilds(hash, legacy, other) ensures !Unrepeated(other) {
          RefusedRowForAll(hash, legacy, rows, other);
        }
        return None;
      }
      AppendVerifies(hash, rows, legacy[n]);
      rows := next.value;
    }
    assert Rebuilds(hash, legacy, rows) && Unrepeated(rows);
    assert forall i | 0 <= i < |rows| :: rows[i].id == legacy[i].id;
    return Some(rows);
  }

  // ---- What the last hash pins down ----

  predicate NoBar(s: string) {
    '|' !in s
  }

  lemma NoEarlierBar(a: string, x: string, k: nat)
    requires NoBar(a) && k < |a|
    ensures (a + "|" + x)[k] != '|'
  {
    assert (a + "|" + x)[k] == a[k] && a[k] in a;
  }

  lemma NoLaterBar(x: string, a: string, k: nat)
    requires NoBar(a) && |x| < k < |x + "|" + a|
    ensures (x + "|" + a)[k] != '|'
  {
    assert (x + "|" + a)[k] == a[k - |x| - 1] && a[k - |x| - 1] in a;
  }

  lemma FirstFieldSplits(a: string, x: string, b: string, y: string)
    requires NoBar(a) && NoBar(b) && a + "|" + x == b + "|" + y
    ensures a == b && x == y
  {
    var whole := a + "|" + x;
    if |a| < |b| {
      NoEarlierBar(b, y, |a|);
    } else if |b| < |a| {
      NoEarlierBar(a, x, |b|);
    }
    assert a == whole[..|a|] && b == whole[..|b|];
    assert x == whole[|a| + 1..] && y == whole[|b| + 1..];
  }

  lemma LastFieldSplits(x: string, a: string, y: string, b: string)
    requires NoBar(a) && NoBar(b) && x + "|" + a == y + "|" + b
    ensures a == b && x == y
  {
    var whole := x + "|" + a;
    if |x| < |y| {
      NoLaterBar(x, a, |y|);
    } else if |y| < |x| {
      NoLaterBar(y, b, |x|);
    }
    assert x == whole[..|x|] && y == whole[..|y|];
    assert a == whole[|x| + 1..] && b == whole[|y| + 1..];
  }

  // The generated fields: everything but the payload.
  predicate Plain(r: LegacyRow) {
    NoBar(r.id) && NoBar(r.event) && NoBar(r.timestamp)
  }

  /** The joined text is readable back when only the payload may hold a bar. */
  lemma JoinedIsInjective(p: string, r: LegacyRow, q: string, s: LegacyRow)
    requires NoBar(p) && NoBar(q) && Plain(r) && Plain(s)
    requires Joined(p, r.id, r.event, r.payload, r.timestamp) == Joined(q, s.id, s.event, s.payload, s.timestamp)
    ensures p == q && r == s
  {
    var x0, y0 := r.payload + "|" + r.timestamp, s.payload + "|" + s.timestamp;
    var x1, y1 := r.event + "|" + x0, s.event + "|" + y0;
    var x2, y2 := r.id + "|" + x1, s.id + "|" + y1;
    assert Joined(p, r.id, r.event, r.payload, r.timestamp) == p + "|" + x2;
    assert Joined(q, s.id, s.event, s.payload, s.timestamp) == q + "|" + y2;
    FirstFieldSplits(p, x2, q, y2);
    FirstFieldSplits(r.id, x1, s.id, y1);
    FirstFieldSplits(r.event, x0, s.event, y0);
    LastFieldSplits(r.payload, r.timestamp, s.payload, s.timestamp);
  }

  // The digest prints as 64 hexadecimal digits.
  ghost predicate HexHash(hash: string -> string) {
    forall s {:trigger hash(s)} :: IsHex(hash(s), 64)
  }

  lemma HexHasNoBar(s: string)
    requires IsHex(s, 64)
    ensures NoBar(s) && s != GENESIS
  {
    assert forall i | 0 <= i < |s| :: IsHexChar(s[i]);
  }

  function TextOf(r: Row): string {
    Joined(r.prev, r.id, r.event, r.payload, r.timestamp)
  }

  // A row of each log whose texts differ and have one hash.
  ghost predicate Collision(hash: string -> string, a: seq<Row>, b: seq<Row>) {
    exists i, j :: 0 <= i < |a| && 0 <= j < |b| && TextOf(a[i]) != TextOf(b[j]) && hash(TextOf(a[i])) == hash(TextOf(b[j]))
  }

  lemma LongerCollision(hash: string -> string, a: seq<Row>, b: seq<Row>, m: nat, n: nat)
    requires m <= |a| && n <= |b| && Collision(hash, a[..m], b[..n])
    ensures Collision(hash, a, b)
  {
    hide TextOf;
    var i, j :| 0 <= i < m && 0 <= j < n && TextOf(a[..m][i]) != TextOf(b[..n][j]) && hash(TextOf(a[..m][i])) == hash(TextOf(b[..n][j]));
    assert a[..m][i] == a[i] && b[..n][j] == b[j];
  }

  ghost predicate AllPlain(rows: seq<Row>) {
    forall i | 0 <= i < |rows| :: Plain(Bare(rows[i]))
  }

  lemma GenesisHasNoBar()
    ensures NoBar(GENESIS)
  {
  }

  lemma {:induction false} LastHashIsPlain(hash: string -> string, rows: seq<Row>)
    requires Verifies(hash, rows) && HexHash(hash)
    ensures NoBar(LastHash(rows)) && (LastHash(rows) == GENESIS <==> rows == [])
  {
    hide Joined, NoBar;
    if rows != [] {
      assert LinkOk(hash, rows, |rows| - 1);
      HexHasNoBar(LastHash(rows));
    } else {
      assert NoBar(GENESIS) by { GenesisHasNoBar(); }
    }
  }

  lemma PrefixVerifies(hash: string -> string, rows: seq<Row>, n: nat)
    requires Verifies(hash, rows) && n <= |rows|
    ensures Verifies(hash, rows[..n])
  {
    hide Joined;
    forall i | 0 <= i < n ensures LinkOk(hash, rows[..n], i) {
      assert LinkOk(hash, rows, i) && rows[..n][..i] == rows[..i];
    }
  }

  /** Two verifying chains whose generated fields hold no bar, as the engine's own do, and with the same last hash are
      the same chain, row for row and of the same length, unless a row of one and a row of the other are themselves
      a collision of the hash. Payloads may hold bars. */
  lemma {:induction false} LastHashPinsTheChain(hash: string -> string, a: seq<Row>, b: seq<Row>)
    requires HexHash(hash) && Verifies(hash, a) && Verifies(hash, b) && AllPlain(a) && AllPlain(b)
    requires LastHash(a) == LastHash(b)
    ensures a == b || Collision(hash, a, b)
    decreases |a|
  {
    hide Joined, HexHash, Verifies, Plain, Collision;
    LastHashIsPlain(hash, a);
    LastHashIsPlain(hash, b);
    if a != [] {
      var m, n := |a| - 1, |b| - 1;
      SameLastRow(hash, a, b);
      if !Collision(hash, a, b) {
        PrefixVerifies(hash, a, m);
        PrefixVerifies(hash, b, n);
        LastHashPinsTheChain(hash, a[..m], b[..n]);
        if Collision(hash, a[..m], b[..n]) {
          LongerCollision(hash, a, b, m, n);
        }
        assert a == a[..m] + [a[m]] && b == b[..n] + [b[n]];
      }
    }
  }

  lemma SameLastRow(hash: string -> string, a: seq<Row>, b: seq<Row>)
    requires HexHash(hash) && Verifies(hash, a) && Verifies(hash, b) && AllPlain(a) && AllPlain(b)
    requires LastHash(a) == LastHash(b) && a != [] && b != []
    ensures Collision(hash, a, b) || (a[|a| - 1] == b[|b| - 1] && LastHash(a[..|a| - 1]) == LastHash(b[..|b| - 1]))
  {
    hide Joined, Plain;
    var m, n := |a| - 1, |b| - 1;
    assert LinkOk(hash, a, m) && LinkOk(hash, b, n);
    if TextOf(a[m]) == TextOf(b[n]) {
      PrefixVerifies(hash, a, m);
      PrefixVerifies(hash, b, n);
      LastHashIsPlain(hash, a[..m]);
      LastHashIsPlain(hash, b[..n]);
      JoinedIsInjective(a[m].prev, Bare(a[m]), b[n].prev, Bare(b[n]));
    }
  }

  // ---- Exactly when the last hash pins a chain ----

  function Bars(s: string): nat {
    if s == "" then 0 else Bars(s[..|s| - 1]) + (if s[|s| - 1] == '|' then 1 else 0)
  }

  lemma {:induction false} NoBarIff(s: string)
    ensures NoBar(s) <==> Bars(s) == 0
  {
    if s != "" {
      NoBarIff(s[..|s| - 1]);
      assert s == s[..|s| - 1] + [s[|s| - 1]];
    }
  }

  lemma {:induction false} BarsOfBoth(s: string, t: string)
    ensures Bars(s + t) == Bars(s) + Bars(t)
  {
    if t == "" {
      assert s + t == s;
    } else {
      BarsOfBoth(s, t[..|t| - 1]);
      assert (s + t)[..|s + t| - 1] == s + t[..|t| - 1];
    }
  }

  // The separators are four bars; the rest are the fields' own.
  lemma BarsOfJoined(prev: string, r: LegacyRow)
    ensures Bars(Joined(prev, r.id, r.event, r.payload, r.timestamp)) ==
      Bars(prev) + Bars(r.id) + Bars(r.event) + Bars(r.payload) + Bars(r.timestamp) + 4
  {
    hide Bars;
    OneBar();
    BarsOfBoth(prev, "|");
    BarsOfBoth(prev + "|", r.id);
    BarsOfBoth(prev + "|" + r.id, "|");
    BarsOfBoth(prev + "|" + r.id + "|", r.event);
    BarsOfBoth(prev + "|" + r.id + "|" + r.event, "|");
    BarsOfBoth(prev + "|" + r.id + "|" + r.event + "|", r.payload);
    BarsOfBoth(prev + "|" + r.id + "|" + r.event + "|" + r.payload, "|");
    BarsOfBoth(prev + "|" + r.id + "|" + r.event + "|" + r.payload + "|", r.timestamp);
  }

  lemma OneBar()
    ensures Bars("|") == 1
  {
    assert "|"[..0] == "";
  }

  predicate BarFree(r: LegacyRow) {
    Plain(r) && NoBar(r.payload)
  }

  // A text whose only bars are the separators has one reading.
  lemma OneReading(p: string, r: LegacyRow, q: string, s: LegacyRow)
    requires NoBar(p) && BarFree(r)
    requires Joined(p, r.id, r.event, r.payload, r.timestamp) == Joined(q, s.id, s.event, s.payload, s.timestamp)
    ensures p == q && r == s
  {
    hide Joined, Bars;
    BarsOfJoined(p, r);
    BarsOfJoined(q, s);
    NoBarIff(p);
    NoBarIff(r.id);
    NoBarIff(r.event);
    NoBarIff(r.payload);
    NoBarIff(r.timestamp);
    NoBarIff(q);
    NoBarIff(s.id);
    NoBarIff(s.event);
    NoBarIff(s.payload);
    NoBarIff(s.timestamp);
    JoinedIsInjective(p, r, q, s);
  }

  function FirstBar(s: string): (k: nat)
    requires !NoBar(s)
    ensures k < |s| && s[k] == '|'
  {
    if s[0] == '|' then 0 else 1 + FirstBar(s[1..])
  }

  function BeforeBar(s: string): string
    requires !NoBar(s)
  {
    s[..FirstBar(s)]
  }

  function AfterBar(s: string): string
    requires !NoBar(s)
  {
    s[FirstBar(s) + 1..]
  }

  // Another row with the same joined text: a bar of a field is read as the separator beside it.
  function Twin(r: LegacyRow): LegacyRow
    requires !BarFree(r)
  {
    if !NoBar(r.id) then LegacyRow(BeforeBar(r.id), AfterBar(r.id) + "|" + r.event, r.payload, r.timestamp)
    else if !NoBar(r.event) then LegacyRow(r.id + "|" + BeforeBar(r.event), AfterBar(r.event), r.payload, r.timestamp)
    else if !NoBar(r.payload) then LegacyRow(r.id, r.event + "|" + BeforeBar(r.payload), AfterBar(r.payload), r.timestamp)
    else LegacyRow(r.id, r.event, r.payload + "|" + BeforeBar(r.timestamp), AfterBar(r.timestamp))
  }

  lemma Split(f: string)
    requires !NoBar(f)
    ensures f == BeforeBar(f) + "|" + AfterBar(f) && |BeforeBar(f)| < |f| && |AfterBar(f)| < |f|
  {
  }

  // A bar moves from one side of a separator to the other.
  lemma Regroup(left: string, x: string, y: string, z: string, right: string)
    ensures left + "|" + (x + "|" + y) + "|" + z + right == left + "|" + x + "|" + (y + "|" + z) + right
  {
  }

  lemma TwinReadsTheSame(prev: string, r: LegacyRow)
    requires !BarFree(r)
    ensures var t := Twin(r);
      t != r && Joined(prev, t.id, t.event, t.payload, t.timestamp) == Joined(prev, r.id, r.event, r.payload, r.timestamp)
  {
    hide FirstBar, BeforeBar, AfterBar, NoBar;
    var t := Twin(r);
    var whole := Joined(prev, r.id, r.event, r.payload, r.timestamp);
    if !NoBar(r.id) {
      var x, y := BeforeBar(r.id), AfterBar(r.id);
      Split(r.id);
      Regroup(prev, x, y, r.event, "|" + r.payload + "|" + r.timestamp);
      assert whole == prev + "|" + (x + "|" + y) + "|" + r.event + ("|" + r.payload + "|" + r.timestamp);
      assert Joined(prev, t.id, t.event, t.payload, t.timestamp) == prev + "|" + x + "|" + (y + "|" + r.event) + ("|" + r.payload + "|" + r.timestamp);
    } else if !NoBar(r.event) {
      var x, y := BeforeBar(r.event), AfterBar(r.event);
      Split(r.event);
      Regroup(prev, r.id, x, y, "|" + r.payload + "|" + r.timestamp);
      assert whole == prev + "|" + r.id + "|" + (x + "|" + y) + ("|" + r.payload + "|" + r.timestamp);
      assert Joined(prev, t.id, t.event, t.payload, t.timestamp) == prev + "|" + (r.id + "|" + x) + "|" + y + ("|" + r.payload + "|" + r.timestamp);
    } else if !NoBar(r.payload) {
      var x, y := BeforeBar(r.payload), AfterBar(r.payload);
      Split(r.payload);
      Regroup(prev + "|" + r.id, r.event, x, y, "|" + r.timestamp);
      assert whole == (prev + "|" + r.id) + "|" + r.event + "|" + (x + "|" + y) + ("|" + r.timestamp);
      assert Joined(prev, t.id, t.event, t.payload, t.timestamp) == (prev + "|" + r.id) + "|" + (r.event + "|" + x) + "|" + y + ("|" + r.timestamp);
    } else {
      var x, y := BeforeBar(r.timestamp), AfterBar(r.timestamp);
      Split(r.timestamp);
      Regroup(prev + "|" + r.id + "|" + r.event, r.payload, x, y, "");
      assert whole == (prev + "|" + r.id + "|" + r.event) + "|" + r.payload + "|" + (x + "|" + y) + "";
      assert Joined(prev, t.id, t.event, t.payload, t.timestamp) == (prev + "|" + r.id + "|" + r.event) + "|" + (r.payload + "|" + x) + "|" + y + "";
    }
  }

  function Chained(prev: string, r: LegacyRow, hash: string): Row {
    Row(r.id, r.event, r.payload, r.timestamp, prev, hash)
  }

  // The chain with row `i` read the other way.
  function TwinChain(a: seq<Row>, i: nat): seq<Row>
    requires i < |a| && !BarFree(Bare(a[i]))
  {
    a[i := Chained(a[i].prev, Twin(Bare(a[i])), a[i].hash)]
  }

  lemma TwinChainVerifies(hash: string -> string, a: seq<Row>, i: nat)
    requires Verifies(hash, a) && i < |a| && !BarFree(Bare(a[i]))
    ensures var b := TwinChain(a, i);
      && Verifies(hash, b) && LastHash(b) == LastHash(a) && b != a
      && |b| == |a| && forall j | 0 <= j < |a| :: TextOf(b[j]) == TextOf(a[j])
  {
    hide Joined, Twin, BarFree;
    var b := TwinChain(a, i);
    TwinReadsTheSame(a[i].prev, Bare(a[i]));
    assert Bare(b[i]) == Twin(Bare(a[i]));
    forall j | 0 <= j <= |a| ensures LastHash(b[..j]) == LastHash(a[..j]) {
    }
    assert b[..|a|] == b && a[..|a|] == a;
    forall j | 0 <= j < |b| ensures LinkOk(hash, b, j) {
      assert LinkOk(hash, a, j);
    }
  }

  // Every verifying chain that ends in the hash of `a` is `a`, or collides with it.
  ghost predicate Pinned(hash: string -> string, a: seq<Row>) {
    forall b {:trigger Verifies(hash, b)} | Verifies(hash, b) && LastHash(b) == LastHash(a) :: a == b || Collision(hash, a, b)
  }

  ghost predicate AllBarFree(rows: seq<Row>) {
    forall i | 0 <= i < |rows| :: BarFree(Bare(rows[i]))
  }

  lemma SameLastReading(hash: string -> string, a: seq<Row>, b: seq<Row>)
    requires HexHash(hash) && Verifies(hash, a) && Verifies(hash, b) && AllBarFree(a)
    requires LastHash(a) == LastHash(b) && a != [] && b != []
    ensures Collision(hash, a, b) || (a[|a| - 1] == b[|b| - 1] && LastHash(a[..|a| - 1]) == LastHash(b[..|b| - 1]))
  {
    hide Joined, BarFree;
    var m, n := |a| - 1, |b| - 1;
    assert LinkOk(hash, a, m) && LinkOk(hash, b, n);
    if TextOf(a[m]) == TextOf(b[n]) {
      PrefixVerifies(hash, a, m);
      LastHashIsPlain(hash, a[..m]);
      OneReading(a[m].prev, Bare(a[m]), b[n].prev, Bare(b[n]));
    }
  }

  lemma {:induction false} BarFreeIsPinned(hash: string -> string, a: seq<Row>, b: seq<Row>)
    requires HexHash(hash) && Verifies(hash, a) && Verifies(hash, b) && AllBarFree(a)
    requires LastHash(a) == LastHash(b)
    ensures a == b || Collision(hash, a, b)
    decreases |a|
  {
    hide Joined, HexHash, Verifies, BarFree, Collision;
    LastHashIsPlain(hash, a);
    LastHashIsPlain(hash, b);
    if a != [] {
      var m, n := |a| - 1, |b| - 1;
      SameLastReading(hash, a, b);
      if !Collision(hash, a, b) {
        PrefixVerifies(hash, a, m);
        PrefixVerifies(hash, b, n);
        BarFreeIsPinned(hash, a[..m], b[..n]);
        if Collision(hash, a[..m], b[..n]) {
          LongerCollision(hash, a, b, m, n);
        }
        assert a == a[..m] + [a[m]] && b == b[..n] + [b[n]];
      }
    }
  }

  /** Exactly when the last hash pins a chain that holds no collision of its own, such as one with pairwise different
      hashes: when no field of any of its rows holds a bar. With a bar anywhere, in a generated field or in a payload,
      the row can be read another way and the chain with that row verifies under the same last hash. */
  lemma PinnedIff(hash: string -> string, a: seq<Row>)
    requires HexHash(hash) && Verifies(hash, a) && !Collision(hash, a, a)
    ensures Pinned(hash, a) <==> AllBarFree(a)
  {
    hide HexHash, Verifies, BarFree, LastHash, TextOf;
    if AllBarFree(a) {
      forall b | Verifies(hash, b) && LastHash(b) == LastHash(a) ensures a == b || Collision(hash, a, b) {
        BarFreeIsPinned(hash, a, b);
      }
    }
    if i :| 0 <= i < |a| && !BarFree(Bare(a[i])) {
      var b := TwinChain(a, i);
      TwinChainVerifies(hash, a, i);
    }
  }

  lemma DifferentHashesDoNotCollide(hash: string -> string, a: seq<Row>)
    requires Verifies(hash, a) && forall i, j | 0 <= i < j < |a| :: a[i].hash != a[j].hash
    ensures !Collision(hash, a, a)
  {
    hide Joined;
    forall i | 0 <= i < |a| ensures a[i].hash == hash(TextOf(a[i])) {
      assert LinkOk(hash, a, i);
    }
  }

  /** The bars matter: a legacy id with a bar can be read as an id and an event, so two different one-row logs
      have the same joined text, hence the same hash, and both verify. */
  lemma BarsAreAmbiguous(hash: string -> string)
    ensures var r, s := LegacyRow("a|b", "c", "{}", "t"), LegacyRow("a", "b|c", "{}", "t");
      && r != s && DigestOf(hash, GENESIS, r) == DigestOf(hash, GENESIS, s)
      && !NoBar(r.id) && !NoBar(s.event)
      && Verifies(hash, [Row("a|b", "c", "{}", "t", GENESIS, DigestOf(hash, GENESIS, r))])
      && Verifies(hash, [Row("a", "b|c", "{}", "t", GENESIS, DigestOf(hash, GENESIS, s))])
  {
    var r, s := LegacyRow("a|b", "c", "{}", "t"), LegacyRow("a", "b|c", "{}", "t");
    assert "a|b" == "a" + "|" + "b" && "b|c" == "b" + "|" + "c";
    assert Joined(GENESIS, r.id, r.event, r.payload, r.timestamp) == Joined(GENESIS, s.id, s.event, s.payload, s.timestamp);
    assert "a|b"[1] == '|' && "b|c"[1] == '|';
  }
}
