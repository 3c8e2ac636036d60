/** Several transactions in a row: the state after each of them, in order. */
module Traces {
  function Fold<S, E>(apply: (S, E) -> S, s: S, es: seq<E>): S {
    if es == [] then s else apply(Fold(apply, s, es[..|es| - 1]), es[|es| - 1])
  }

  lemma FoldOne<S, E>(apply: (S, E) -> S, s: S, e: E)
    ensures Fold(apply, s, [e]) == apply(s, e)
  {
    assert Fold(apply, s, []) == s;
  }

  lemma FoldSnoc<S, E>(apply: (S, E) -> S, s: S, es: seq<E>, e: E)
    ensures Fold(apply, s, es + [e]) == apply(Fold(apply, s, es), e)
  {
    assert (es + [e])[..|es|] == es;
  }

  lemma {:induction false} FoldJoin<S, E>(apply: (S, E) -> S, s: S, a: seq<E>, b: seq<E>)
    ensures Fold(apply, s, a + b) == Fold(apply, Fold(apply, s, a), b)
    decreases |b|
  {
    if b == [] {
      assert a + b == a;
    } else {
      FoldJoin(apply, s, a, b[..|b| - 1]);
      assert a + b == (a + b[..|b| - 1]) + [b[|b| - 1]];
      FoldSnoc(apply, s, a + b[..|b| - 1], b[|b| - 1]);
    }
  }
}
