// Runs made of given events, for any step function.
module Traces {

  ghost function After<W, E>(step: (W, E) -> W, w: W, events: seq<E>): W
    decreases |events|
  {
    if events == [] then w else After(step, step(w, events[0]), events[1..])
  }

  ghost function Trace<W, E>(step: (W, E) -> W, w: W, events: seq<E>): (worlds: seq<W>)
    ensures |worlds| == |events| + 1 && worlds[0] == w
    decreases |events|
  {
    if events == [] then [w] else [w] + Trace(step, step(w, events[0]), events[1..])
  }

  lemma {:induction false} TraceSteps<W, E>(step: (W, E) -> W, w: W, events: seq<E>, k: nat)
    requires k < |events|
    ensures Trace(step, w, events)[k + 1] == step(Trace(step, w, events)[k], events[k])
    decreases |events|
  {
    if k > 0 {
      TraceSteps(step, step(w, events[0]), events[1..], k - 1);
    }
  }

  lemma {:induction false} TraceEnds<W, E>(step: (W, E) -> W, w: W, events: seq<E>)
    ensures Trace(step, w, events)[|events|] == After(step, w, events)
    decreases |events|
  {
    if events != [] {
      TraceEnds(step, step(w, events[0]), events[1..]);
    }
  }

  lemma {:induction false} AfterBoth<W, E>(step: (W, E) -> W, w: W, a: seq<E>, b: seq<E>)
    ensures After(step, w, a + b) == After(step, After(step, w, a), b)
    decreases |a|
  {
    if a == [] {
      assert a + b == b;
    } else {
      assert (a + b)[0] == a[0] && (a + b)[1..] == a[1..] + b;
      AfterBoth(step, step(w, a[0]), a[1..], b);
    }
  }

  lemma {:induction false} TracePrefix<W, E>(step: (W, E) -> W, w: W, a: seq<E>, b: seq<E>)
    ensures Trace(step, w, a + b)[|a|] == After(step, w, a)
    decreases |a|
  {
    if a == [] {
      assert a + b == b;
    } else {
      assert (a + b)[0] == a[0] && (a + b)[1..] == a[1..] + b;
      TracePrefix(step, step(w, a[0]), a[1..], b);
    }
  }

  lemma AfterTwo<W, E>(step: (W, E) -> W, w: W, a: E, b: E)
    ensures After(step, w, [a, b]) == step(step(w, a), b)
  {
    assert [a, b][1..] == [b] && [b][1..] == [];
    assert After(step, step(w, a), [b]) == After(step, step(step(w, a), b), []);
  }

  lemma AfterThree<W, E>(step: (W, E) -> W, w: W, a: E, b: E, c: E)
    ensures After(step, w, [a, b, c]) == step(step(step(w, a), b), c)
  {
    assert [a, b, c][1..] == [b, c];
    AfterTwo(step, step(w, a), b, c);
  }
}
