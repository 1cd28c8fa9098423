/** Runs of a machine given by its step function. */
module Runs {

  /** The state after the first n events of a run. */
  function At<S, E>(step: (S, E) -> S, s: S, run: seq<E>, n: nat): S
    requires n <= |run|
  {
    if n == 0 then s else step(At(step, s, run, n - 1), run[n - 1])
  }

  lemma {:induction false} AtFirst<S, E>(step: (S, E) -> S, s: S, run: seq<E>, n: nat)
    requires n < |run|
    ensures At(step, s, run, n + 1) == At(step, step(s, run[0]), run[1..], n)
  {
    if n > 0 { AtFirst(step, s, run, n - 1); }
  }
}
