/** Finite runs of a transition system.  Every protocol of this project is a function
    `next` from a state and a step to the state after it, or `None` when the step is not enabled. */
module Runs {

  datatype Option<+T> = None | Some(value: T)

  /** The state after taking `steps` one by one from `s`, or `None` as soon as one is not enabled. */
  function Exec<S, T>(next: (S, T) -> Option<S>, s: S, steps: seq<T>): Option<S>
  {
    if steps == [] then Some(s)
    else match next(s, steps[0])
      case None => None
      case Some(s1) => Exec(next, s1, steps[1..])
  }

  /** What every step keeps, every run keeps. */
  lemma {:induction false} Preserved<S(!new), T(!new)>(next: (S, T) -> Option<S>, inv: S -> bool, s: S, steps: seq<T>)
    requires inv(s)
    requires forall x, t :: inv(x) && next(x, t).Some? ==> inv(next(x, t).value)
    requires Exec(next, s, steps).Some?
    ensures inv(Exec(next, s, steps).value)
  {
    if steps == [] {
    } else {
      Preserved(next, inv, next(s, steps[0]).value, steps[1..]);
    }
  }

  /** A run followed by one more step. */
  lemma {:induction false} OneMoreStep<S, T>(next: (S, T) -> Option<S>, s: S, steps: seq<T>, step: T)
    requires Exec(next, s, steps).Some?
    ensures Exec(next, s, steps + [step]) == next(Exec(next, s, steps).value, step)
  {
    if steps == [] {
      assert [step][1..] == [];
    } else {
      assert (steps + [step])[1..] == steps[1..] + [step];
      OneMoreStep(next, next(s, steps[0]).value, steps[1..], step);
    }
  }
}
