/** Runs of a step function, for any kind of state and action. */
module Runs {

  function Fold<S, A>(step: (S, A) -> S, s: S, trace: seq<A>): S {
    if trace == [] then s else step(Fold(step, s, trace[..|trace| - 1]), trace[|trace| - 1])
  }

  lemma {:induction false} FoldConcat<S, A>(step: (S, A) -> S, s: S, a: seq<A>, b: seq<A>)
    ensures Fold(step, s, a + b) == Fold(step, Fold(step, s, a), b)
  {
    if b == [] {
      assert a + b == a;
    } else {
      var n := |b| - 1;
      assert (a + b)[..|a| + n] == a + b[..n];
      FoldConcat(step, s, a, b[..n]);
    }
  }
}
