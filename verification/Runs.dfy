/** Runs of a transition system: a step function folded over a list of events. */
module Runs {

  function RunFrom<W, E>(step: (W, E) -> W, w: W, events: seq<E>): W
    decreases |events|
  {
    if events == [] then w else RunFrom(step, step(w, events[0]), events[1..])
  }

  lemma {:induction false} RunConcat<W, E>(step: (W, E) -> W, w: W, a: seq<E>, b: seq<E>)
    ensures RunFrom(step, w, a + b) == RunFrom(step, RunFrom(step, w, a), b)
    decreases |a|
  {
    if a == [] {
      assert a + b == b;
    } else {
      assert (a + b)[1..] == a[1..] + b;
      RunConcat(step, step(w, a[0]), a[1..], b);
    }
  }

  lemma RunOne<W, E>(step: (W, E) -> W, w: W, a: E, rest: seq<E>)
    ensures RunFrom(step, w, [a] + rest) == RunFrom(step, step(w, a), rest)
    ensures RunFrom(step, w, [a]) == step(w, a)
  {
    assert ([a] + rest)[1..] == rest;
    assert [a][1..] == [];
  }

  lemma RunTwo<W, E>(step: (W, E) -> W, w: W, a: E, b: E)
    ensures RunFrom(step, w, [a, b]) == step(step(w, a), b)
  {
    assert [a, b][1..] == [b];
    RunOne(step, step(w, a), b, []);
  }

  lemma RunThree<W, E>(step: (W, E) -> W, w: W, a: E, b: E, c: E)
    ensures RunFrom(step, w, [a, b, c]) == step(step(step(w, a), b), c)
  {
    assert [a, b, c][1..] == [b, c];
    RunTwo(step, step(w, a), b, c);
  }

  lemma RunFour<W, E>(step: (W, E) -> W, w: W, a: E, b: E, c: E, d: E)
    ensures RunFrom(step, w, [a, b, c, d]) == step(step(step(step(w, a), b), c), d)
  {
    assert [a, b, c, d][1..] == [b, c, d];
    RunThree(step, step(w, a), b, c, d);
  }
}
