// Journal tag names: printing with zero-padded fields and parsing back.
module LedgerTags {
  import opened Prelude

  const TAG_PREFIX := "refs/tags/multiverse-r1-stage1-ledger-v1-"
  const MAX_SEQUENCE: nat := 1_000_000
  const FIELD: nat := 8

  function Digit(n: nat): char
    requires n < 10
  {
    '0' + n as char
  }

  predicate IsDigit(c: char) {
    '0' <= c <= '9'
  }

  predicate AllDigits(s: string) {
    forall i | 0 <= i < |s| :: IsDigit(s[i])
  }

  // The `width` low decimal digits of `n`, most significant first.
  function Digits(n: nat, width: nat): string
    decreases width
  {
    if width == 0 then "" else Digits(n / 10, width - 1) + [Digit(n % 10)]
  }

  function Decimal(n: nat): string {
    if n < 10 then [Digit(n)] else Decimal(n / 10) + [Digit(n % 10)]
  }

  function Pow10(k: nat): (r: nat)
    ensures r >= 1
  {
    if k == 0 then 1 else 10 * Pow10(k - 1)
  }

  // Python's `{n:08d}`.
  function Padded(n: nat): string {
    if n < Pow10(FIELD) then Digits(n, FIELD) else Decimal(n)
  }

  function Value(s: string): nat
    requires AllDigits(s)
  {
    if s == "" then 0 else 10 * Value(s[..|s| - 1]) + (s[|s| - 1] - '0') as int
  }

  function Stem(key: string): string {
    TAG_PREFIX + key + "-s"
  }

  function PrintTag(key: string, sequence: nat, terminal: nat): string {
    Stem(key) + Padded(sequence) + "-t" + Padded(terminal)
  }

  // The journal expression: stem, eight digits, "-t", eight digits, and nothing else.
  function ParseTag(key: string, ref: string): Option<(nat, nat)> {
    var n := |Stem(key)|;
    if |ref| == n + 2 * FIELD + 2 && ref[..n] == Stem(key)
       && AllDigits(ref[n..n + FIELD]) && ref[n + FIELD..n + FIELD + 2] == "-t" && AllDigits(ref[n + FIELD + 2..])
    then Some((Value(ref[n..n + FIELD]), Value(ref[n + FIELD + 2..])))
    else None
  }

  lemma {:induction false} DigitsRoundTrip(n: nat, width: nat)
    requires n < Pow10(width)
    ensures |Digits(n, width)| == width && AllDigits(Digits(n, width)) && Value(Digits(n, width)) == n
    decreases width
  {
    if width > 0 {
      DigitsRoundTrip(n / 10, width - 1);
      var s := Digits(n, width);
      assert s[..|s| - 1] == Digits(n / 10, width - 1);
    }
  }

  lemma {:induction false} ValueRoundTrip(s: string)
    requires AllDigits(s)
    ensures Value(s) < Pow10(|s|) && Digits(Value(s), |s|) == s
  {
    if s != "" {
      var t := s[..|s| - 1];
      ValueRoundTrip(t);
      assert Value(s) / 10 == Value(t) && Value(s) % 10 == (s[|s| - 1] - '0') as int;
      assert s == t + [s[|s| - 1]];
    }
  }

  lemma {:induction false} DecimalIsLong(n: nat, width: nat)
    requires n >= Pow10(width)
    ensures |Decimal(n)| > width
    decreases width
  {
    if width > 0 {
      DecimalIsLong(n / 10, width - 1);
    }
  }

  /** A printed tag parses back to its two numbers exactly while the terminal count fits the field. */
  lemma TagRoundTrip(key: string, sequence: nat, terminal: nat)
    requires sequence <= MAX_SEQUENCE
    ensures ParseTag(key, PrintTag(key, sequence, terminal)) == Some((sequence, terminal)) <==> terminal < Pow10(FIELD)
    ensures terminal >= Pow10(FIELD) ==> ParseTag(key, PrintTag(key, sequence, terminal)).None?
  {
    hide Digits, Decimal, Value, Stem, Pow10;
    PowerOfField();
    DigitsRoundTrip(sequence, FIELD);
    var n, ref := |Stem(key)|, PrintTag(key, sequence, terminal);
    var a, b := Padded(sequence), Padded(terminal);
    assert ref == Stem(key) + (a + ("-t" + b));
    if terminal < Pow10(FIELD) {
      DigitsRoundTrip(terminal, FIELD);
      assert ref[..n] == Stem(key) && ref[n..n + FIELD] == a;
      assert ref[n + FIELD..n + FIELD + 2] == "-t" && ref[n + FIELD + 2..] == b;
    } else {
      DecimalIsLong(terminal, FIELD);
    }
  }

  lemma PowerOfField()
    ensures Pow10(FIELD) == 100_000_000 > MAX_SEQUENCE
  {
    assert Pow10(4) == 10_000;
    assert Pow10(8) == 10 * (10 * (10 * (10 * Pow10(4))));
  }

  /** Only printed tags parse: the two are inverse to each other. */
  lemma ParsedTagWasPrinted(key: string, ref: string)
    requires ParseTag(key, ref).Some?
    ensures ref == PrintTag(key, ParseTag(key, ref).value.0, ParseTag(key, ref).value.1)
    ensures ParseTag(key, ref).value.0 < Pow10(FIELD) && ParseTag(key, ref).value.1 < Pow10(FIELD)
  {
    hide Digits, Decimal, Value, Stem, Pow10;
    var n := |Stem(key)|;
    var a, b := ref[n..n + FIELD], ref[n + FIELD + 2..];
    ValueRoundTrip(a);
    ValueRoundTrip(b);
    assert ref == ref[..n] + a + ref[n + FIELD..n + FIELD + 2] + b;
  }
}
