/** Runs of a transition system: an initial state, then one step after another. */
module Runs {

  datatype Run<S, T> = Run(states: seq<S>, steps: seq<T>)

  ghost predicate StepAt<S, T>(run: Run<S, T>, next: (S, T, S) -> bool, k: nat)
    requires |run.states| == |run.steps| + 1 && k < |run.steps|
  {
    next(run.states[k], run.steps[k], run.states[k + 1])
  }

  ghost predicate IsRunOf<S, T>(run: Run<S, T>, initial: S -> bool, next: (S, T, S) -> bool) {
    && |run.states| == |run.steps| + 1
    && initial(run.states[0])
    && forall k :: 0 <= k < |run.steps| ==> StepAt(run, next, k)
  }

  /** What holds at first and is kept by every step holds throughout. */
  lemma {:induction false} Throughout<S(!new), T(!new)>(run: Run<S, T>, initial: S -> bool, next: (S, T, S) -> bool,
                                                        inv: S -> bool, k: nat)
    requires IsRunOf(run, initial, next) && k < |run.states|
    requires forall s :: initial(s) ==> inv(s)
    requires forall s, step, s' :: inv(s) && next(s, step, s') ==> inv(s')
    ensures inv(run.states[k])
  {
    if k > 0 {
      Throughout(run, initial, next, inv, k - 1);
      assert StepAt(run, next, k - 1);
    }
  }

  function EndOf<S, T>(run: Run<S, T>): S
    requires run.states != []
  {
    run.states[|run.states| - 1]
  }

  /** A run goes on by one more step. */
  lemma Then<S, T>(run: Run<S, T>, initial: S -> bool, next: (S, T, S) -> bool, step: T, s: S)
    returns (longer: Run<S, T>)
    requires IsRunOf(run, initial, next) && next(EndOf(run), step, s)
    ensures IsRunOf(longer, initial, next) && EndOf(longer) == s
    ensures longer == Run(run.states + [s], run.steps + [step])
  {
    longer := Run(run.states + [s], run.steps + [step]);
    forall k | 0 <= k < |longer.steps|
      ensures StepAt(longer, next, k)
    {
      if k < |run.steps| { assert StepAt(run, next, k); }
    }
  }
}
