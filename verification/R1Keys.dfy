// The idempotency key: which candidates and document hashes it tells apart.
module R1Keys {
  import opened R1Engine

  // Where the colons of `c + ":" + h` can be.
  lemma NoColonBefore(c: string, h: string)
    requires ':' !in c
    ensures forall k | 0 <= k < |c| :: (c + ":" + h)[k] != ':'
  {
    forall k | 0 <= k < |c| ensures (c + ":" + h)[k] != ':' {
      assert (c + ":" + h)[k] == c[k] && c[k] in c;
    }
  }

  lemma NoColonAfter(c: string, h: string)
    requires ':' !in h
    ensures forall k | |c| < k < |c + ":" + h| :: (c + ":" + h)[k] != ':'
  {
    forall k | |c| < k < |c + ":" + h| ensures (c + ":" + h)[k] != ':' {
      assert (c + ":" + h)[k] == h[k - |c| - 1] && h[k - |c| - 1] in h;
    }
  }

  lemma SameCut(c: string, h: string, c': string, h': string)
    requires c + ":" + h == c' + ":" + h' && |c| == |c'|
    ensures c == c' && h == h'
  {
    var x := c + ":" + h;
    assert c == x[..|c|] && c' == x[..|c'|];
    assert h == x[|c| + 1..] && h' == x[|c'| + 1..];
  }

  lemma IdemTail(c: string, h: string)
    ensures |Idem(c, h)| >= 14 && Idem(c, h)[14..] == c + ":" + h && Idem(c, h)[..14] == "source-review:"
  {
    assert Idem(c, h) == "source-review:" + (c + ":" + h);
  }

  // Equal keys are equal texts around the two separating colons.
  lemma SameText(c: string, h: string, c': string, h': string)
    requires Idem(c, h) == Idem(c', h')
    ensures c + ":" + h == c' + ":" + h'
    ensures (c + ":" + h)[|c|] == ':' && |c'| < |c + ":" + h| && (c + ":" + h)[|c'|] == ':'
  {
    IdemTail(c, h);
    IdemTail(c', h');
    assert (c' + ":" + h')[|c'|] == ':';
  }

  /** Between candidates whose names hold no colon the idempotency key is unambiguous. */
  lemma IdemSeparates(c: string, h: string, c': string, h': string)
    requires Idem(c, h) == Idem(c', h') && ':' !in c && ':' !in c'
    ensures c == c' && h == h'
  {
    SameText(c, h, c', h');
    NoColonBefore(c, h);
    NoColonBefore(c', h');
    SameCut(c, h, c', h');
  }

  /** So it is between document hashes that hold no colon, whatever the candidates are called. */
  lemma IdemSeparatesByHash(c: string, h: string, c': string, h': string)
    requires Idem(c, h) == Idem(c', h') && ':' !in h && ':' !in h'
    ensures c == c' && h == h'
  {
    SameText(c, h, c', h');
    NoColonAfter(c, h);
    NoColonAfter(c', h');
    SameCut(c, h, c', h');
  }

  lemma LoneColon(c: string, h: string, c': string, h': string)
    requires ':' !in c && ':' !in h && Idem(c, h) == Idem(c', h')
    ensures c == c' && h == h'
  {
    SameText(c, h, c', h');
    NoColonBefore(c, h);
    NoColonAfter(c, h);
    SameCut(c, h, c', h');
  }

  ghost predicate SharesKey(c: string, h: string, c': string, h': string) {
    (c, h) != (c', h') && Idem(c, h) == Idem(c', h')
  }

  // A text with the character in it, taken apart at its first occurrence.
  lemma SplitAtColon(x: string) returns (a: string, b: string)
    requires ':' in x
    ensures x == a + ":" + b && ':' !in a
  {
    var k := 0;
    while x[k] != ':'
      invariant k < |x| && ':' !in x[..k] && ':' in x[k..]
      decreases |x| - k
    {
      k := k + 1;
    }
    a, b := x[..k], x[k + 1..];
  }

  /** Exactly when a candidate and hash share their key with another pair: when one of them holds a colon. */
  lemma IdemSharedIff(c: string, h: string)
    ensures (exists c', h' :: SharesKey(c, h, c', h')) <==> ':' in c || ':' in h
  {
    if ':' in c {
      var a, b := SplitAtColon(c);
      assert Idem(a, b + ":" + h) == "source-review:" + (a + ":" + b + ":" + h) == Idem(c, h);
      assert |a| < |c|;
      assert SharesKey(c, h, a, b + ":" + h);
    } else if ':' in h {
      var a, b := SplitAtColon(h);
      assert Idem(c + ":" + a, b) == "source-review:" + (c + ":" + a + ":" + b) == Idem(c, h);
      assert |c + ":" + a| > |c|;
      assert SharesKey(c, h, c + ":" + a, b);
    } else {
      forall c', h' ensures !SharesKey(c, h, c', h') {
        if Idem(c, h) == Idem(c', h') {
          LoneColon(c, h, c', h');
        }
      }
    }
  }

  /** With colons it is not: two different candidates share one key. */
  lemma IdemCollides()
    ensures Idem("a:b", "c") == Idem("a", "b:c") && "a:b" != "a"
  {
    assert Idem("a:b", "c") == "source-review:a:b:c";
    assert Idem("a", "b:c") == "source-review:a:b:c";
  }
}
