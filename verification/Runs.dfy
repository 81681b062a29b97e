// Runs of a machine whose steps are numbered, and induction over them.
module Runs {
  // The state after the first n acts.
  function Run<S, A>(initial: S, step: (S, A, nat) -> S, acts: seq<A>, n: nat): S
    requires n <= |acts|
  {
    if n == 0 then initial else step(Run(initial, step, acts, n - 1), acts[n - 1], n - 1)
  }

  // A property of moments that holds at first and over every act of the run
  // holds at every moment.
  lemma {:induction false} Always<S(!new), A>(
      initial: S, step: (S, A, nat) -> S, acts: seq<A>, n: nat, inv: (nat, S) -> bool)
    requires n <= |acts| && inv(0, initial)
    requires forall k: nat, s :: k < |acts| && inv(k, s) ==> inv(k + 1, step(s, acts[k], k))
    ensures inv(n, Run(initial, step, acts, n))
  {
    if n > 0 {
      Always(initial, step, acts, n - 1, inv);
    }
  }

  // A property that holds at some moment of the run and over every later act
  // holds at every later moment.
  lemma {:induction false} From<S(!new), A>(
      initial: S, step: (S, A, nat) -> S, acts: seq<A>, m: nat, n: nat, inv: (nat, S) -> bool)
    requires m <= n <= |acts| && inv(m, Run(initial, step, acts, m))
    requires forall k: nat, s :: m <= k < n && inv(k, s) ==> inv(k + 1, step(s, acts[k], k))
    ensures inv(n, Run(initial, step, acts, n))
  {
    if n > m {
      From(initial, step, acts, m, n - 1, inv);
    }
  }
}
