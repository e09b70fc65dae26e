/** Runs of a state machine, given by its step function: None where a step is not enabled. */
module Machines {
  import opened Types

  /** `steps` leads from `s` to `s'`. */
  ghost predicate Runs<S(!new), T(!new)>(next: (S, T) -> Option<S>, s: S, steps: seq<T>, s': S)
    decreases |steps|
  {
    if steps == [] then s' == s
    else next(s, steps[0]).Some? && Runs(next, next(s, steps[0]).value, steps[1..], s')
  }

  /** An invariant that each step keeps holds at the end of every run. */
  lemma {:induction false} Invariance<S(!new), T(!new)>(next: (S, T) -> Option<S>, inv: S -> bool, s: S, steps: seq<T>, s': S)
    requires inv(s) && Runs(next, s, steps, s')
    requires forall t, step :: inv(t) && next(t, step).Some? ==> inv(next(t, step).value)
    ensures inv(s')
    decreases |steps|
  {
    if steps != [] {
      Invariance(next, inv, next(s, steps[0]).value, steps[1..], s');
    }
  }

  lemma {:induction false} RunsAppend<S(!new), T(!new)>(next: (S, T) -> Option<S>, s: S, steps: seq<T>, mid: S, step: T)
    requires Runs(next, s, steps, mid) && next(mid, step).Some?
    ensures Runs(next, s, steps + [step], next(mid, step).value)
    decreases |steps|
  {
    if steps == [] {
      assert (steps + [step])[1..] == [];
    } else {
      RunsAppend(next, next(s, steps[0]).value, steps[1..], mid, step);
      assert (steps + [step])[1..] == steps[1..] + [step];
    }
  }
}
