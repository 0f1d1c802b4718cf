// Python's string order and sorted enumerations of finite sets.
module Ordering {

  predicate StrLe(a: string, b: string) {
    a == "" || (b != "" && (a[0] < b[0] || (a[0] == b[0] && StrLe(a[1..], b[1..]))))
  }

  ghost predicate TotalOrder<T(!new)>(le: (T, T) -> bool) {
    && (forall x :: le(x, x))
    && (forall x, y :: le(x, y) || le(y, x))
    && (forall x, y :: le(x, y) && le(y, x) ==> x == y)
    && (forall x, y, z :: le(x, y) && le(y, z) ==> le(x, z))
  }

  lemma {:induction false} StrLeAntisymmetric(a: string, b: string)
    requires StrLe(a, b) && StrLe(b, a)
    ensures a == b
  {
    if a != "" && b != "" {
      StrLeAntisymmetric(a[1..], b[1..]);
      assert a == [a[0]] + a[1..] && b == [b[0]] + b[1..];
    }
  }

  lemma {:induction false} StrLeTransitive(a: string, b: string, c: string)
    requires StrLe(a, b) && StrLe(b, c)
    ensures StrLe(a, c)
  {
    if a != "" && a[0] == b[0] == c[0] {
      StrLeTransitive(a[1..], b[1..], c[1..]);
    }
  }

  lemma {:induction false} StrLeTotal(a: string, b: string)
    ensures StrLe(a, b) || StrLe(b, a)
  {
    if a != "" && b != "" && a[0] == b[0] {
      StrLeTotal(a[1..], b[1..]);
    }
  }

  lemma StrLeIsTotalOrder()
    ensures TotalOrder(StrLe)
  {
    forall x, y ensures StrLe(x, y) || StrLe(y, x) { StrLeTotal(x, y); }
    forall x, y | StrLe(x, y) && StrLe(y, x) ensures x == y { StrLeAntisymmetric(x, y); }
    forall x, y, z | StrLe(x, y) && StrLe(y, z) ensures StrLe(x, z) { StrLeTransitive(x, y, z); }
    forall x: string ensures StrLe(x, x) { StrLeTotal(x, x); }
  }

  ghost predicate Least<T>(m: T, s: set<T>, le: (T, T) -> bool) {
    m in s && forall y | y in s :: le(m, y)
  }

  lemma {:induction false} LeastExists<T(!new)>(s: set<T>, le: (T, T) -> bool)
    requires TotalOrder(le) && s != {}
    ensures exists m :: Least(m, s, le)
    decreases |s|
  {
    var x :| x in s;
    if s == {x} {
      assert Least(x, s, le);
    } else {
      LeastExists(s - {x}, le);
      var m :| Least(m, s - {x}, le);
      assert Least(if le(x, m) then x else m, s, le);
    }
  }

  // Strictly increasing and enumerating exactly `s`.
  ghost predicate Enumerates<T(!new)>(q: seq<T>, s: set<T>, le: (T, T) -> bool) {
    && (forall x :: x in q <==> x in s)
    && (forall i, j | 0 <= i < j < |q| :: le(q[i], q[j]) && q[i] != q[j])
  }

  lemma {:induction false} EnumerationUnique<T(!new)>(p: seq<T>, q: seq<T>, s: set<T>, le: (T, T) -> bool)
    requires TotalOrder(le) && Enumerates(p, s, le) && Enumerates(q, s, le)
    ensures p == q
    decreases |p|
  {
    EnumerationLength(p, s, le);
    EnumerationLength(q, s, le);
    if p != [] {
      assert p[0] in s;
      assert q[0] in p && p[0] in q;
      assert le(p[0], q[0]) && le(q[0], p[0]);
      EnumerationTail(p, s, le);
      EnumerationTail(q, s, le);
      EnumerationUnique(p[1..], q[1..], s - {p[0]}, le);
      assert p == [p[0]] + p[1..] && q == [q[0]] + q[1..];
    }
  }

  lemma EnumerationTail<T(!new)>(p: seq<T>, s: set<T>, le: (T, T) -> bool)
    requires Enumerates(p, s, le) && p != []
    ensures Enumerates(p[1..], s - {p[0]}, le)
  {
    forall x ensures x in p[1..] <==> x in s - {p[0]} {
      assert x in p <==> x == p[0] || x in p[1..];
      if x in p[1..] {
        var i :| 0 <= i < |p[1..]| && p[1..][i] == x;
        assert p[i + 1] == x && p[0] != p[i + 1];
      }
    }
  }

  lemma EmptyOrInhabited<T>(q: seq<T>)
    ensures q == [] || exists x :: x in q
  {
    if q != [] {
      assert q[0] in q;
    }
  }

  lemma {:induction false} EnumerationLength<T(!new)>(p: seq<T>, s: set<T>, le: (T, T) -> bool)
    requires Enumerates(p, s, le)
    ensures |p| == |s|
    decreases |p|
  {
    if p == [] {
      assert forall x | x in s :: x in p;
    } else {
      EnumerationTail(p, s, le);
      EnumerationLength(p[1..], s - {p[0]}, le);
      assert p[0] in s;
    }
  }

  /** Python's `sorted` on a set: the one increasing enumeration. */
  method Sorted<T(!new,==)>(s: set<T>, le: (T, T) -> bool) returns (q: seq<T>)
    requires TotalOrder(le)
    ensures Enumerates(q, s, le)
  {
    q := [];
    var rest := s;
    while rest != {}
      invariant rest <= s
      invariant forall x :: x in q <==> x in s - rest
      invariant forall i, j | 0 <= i < j < |q| :: le(q[i], q[j]) && q[i] != q[j]
      invariant forall x, y | x in q && y in rest :: le(x, y)
      decreases rest
    {
      LeastExists(rest, le);
      var m :| m in rest && forall y | y in rest :: le(m, y);
      q := q + [m];
      rest := rest - {m};
    }
  }

  /** The increasing enumeration itself, for specifications. */
  ghost function SortedSeq<T(!new)>(s: set<T>, le: (T, T) -> bool): (q: seq<T>)
    requires TotalOrder(le)
    ensures Enumerates(q, s, le)
    decreases |s|
  {
    if s == {} then []
    else
      LeastExists(s, le);
      var m :| Least(m, s, le);
      [m] + SortedSeq(s - {m}, le)
  }

  // ---- Images of finite sets ----

  function Image<A(!new), B>(s: set<A>, f: A -> B): set<B> {
    set x | x in s :: f(x)
  }

  predicate InjectiveOn<A(!new), B(==)>(s: set<A>, f: A -> B) {
    forall x, y | x in s && y in s && f(x) == f(y) :: x == y
  }

  lemma {:induction false} ImageSize<A(!new), B>(s: set<A>, f: A -> B)
    ensures |Image(s, f)| <= |s|
    ensures InjectiveOn(s, f) ==> |Image(s, f)| == |s|
    decreases |s|
  {
    if s != {} {
      var x :| x in s;
      ImageSize(s - {x}, f);
      assert Image(s, f) == Image(s - {x}, f) + {f(x)};
    }
  }

  lemma ImageUnion<A(!new), B>(a: set<A>, b: set<A>, f: A -> B)
    ensures Image(a + b, f) == Image(a, f) + Image(b, f)
  {
  }

  lemma ImageOne<A(!new), B>(x: A, f: A -> B)
    ensures Image({x}, f) == {f(x)}
  {
  }

  lemma ImageEmpty<A(!new), B>(s: set<A>, f: A -> B)
    ensures Image(s, f) == {} <==> s == {}
  {
    if x :| x in s {
      assert f(x) in Image(s, f);
    }
  }

  lemma ImageThrough<A(!new), B(!new), C>(s: set<A>, f: A -> B, g: B -> C, h: A -> C)
    requires forall x | x in s :: g(f(x)) == h(x)
    ensures Image(Image(s, f), g) == Image(s, h)
  {
    forall x | x in s ensures h(x) in Image(Image(s, f), g) {
      assert f(x) in Image(s, f);
    }
  }

  lemma SubsetSize<T>(a: set<T>, b: set<T>)
    requires a <= b
    ensures |a| <= |b| && |b - a| == |b| - |a|
  {
    assert b == a + (b - a);
  }

  // ---- Lexicographic order on three strings ----

  predicate TripleLe(a: (string, string, string), b: (string, string, string)) {
    if a.0 != b.0 then StrLe(a.0, b.0) else if a.1 != b.1 then StrLe(a.1, b.1) else StrLe(a.2, b.2)
  }

  lemma TripleLeIsTotalOrder()
    ensures TotalOrder(TripleLe)
  {
    hide StrLe;
    StrLeIsTotalOrder();
    assert forall x: string :: StrLe(x, x);
    forall x, y, z | TripleLe(x, y) && TripleLe(y, z) ensures TripleLe(x, z) {
      assert StrLe(x.0, z.0);
    }
    forall x, y | TripleLe(x, y) && TripleLe(y, x) ensures x == y {
      assert x.0 == y.0 && x.1 == y.1 && x.2 == y.2;
    }
  }
}
