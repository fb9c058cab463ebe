/** Runs of a state machine that takes one event at a time, and induction over them. */
module Runs {

  /** Every state comes from the one before it by the event between them. */
  ghost predicate Chained<S, E>(next: (S, E) -> S, states: seq<S>, events: seq<E>) {
    && |states| == |events| + 1
    && forall k {:trigger events[k]} :: 0 <= k < |events| ==> states[k + 1] == next(states[k], events[k])
  }

  ghost predicate Kept<S(!new), E(!new)>(next: (S, E) -> S, holds: S -> bool) {
    forall s, e :: holds(s) ==> holds(next(s, e))
  }

  /** What every event keeps holds from any state of a run on. */
  lemma {:induction false} Induct<S(!new), E(!new)>(next: (S, E) -> S, holds: S -> bool, states: seq<S>, events: seq<E>, j: nat, k: nat)
    requires Chained(next, states, events) && Kept(next, holds) && j <= k < |states| && holds(states[j])
    ensures holds(states[k])
    decreases k - j
  {
    if j < k {
      Induct(next, holds, states, events, j, k - 1);
      assert holds(next(states[k - 1], events[k - 1]));
    }
  }
}
