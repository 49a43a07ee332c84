/**
 Runs of a step system: a sequence of states in which each state follows from the
 one before by one event. Every protocol of the project is such a system: one
 atomic operation or one mutex section per event, in any interleaving.
 */
module Runs {

  ghost predicate IsRun<S, E>(init: S -> bool, step: (S, E, S) -> bool, states: seq<S>, events: seq<E>) {
    && |states| == |events| + 1
    && init(states[0])
    && forall i :: 0 <= i < |events| ==> step(states[i], events[i], states[i + 1])
  }

  /** An inductive invariant holds in every state of every run. */
  lemma {:induction false} InvariantHolds<S(!new), E(!new)>(
      init: S -> bool, step: (S, E, S) -> bool, inv: S -> bool, states: seq<S>, events: seq<E>, n: nat)
    requires forall s :: init(s) ==> inv(s)
    requires forall s, e, s' :: inv(s) && step(s, e, s') ==> inv(s')
    requires IsRun(init, step, states, events)
    requires n < |states|
    ensures inv(states[n])
  {
    if n > 0 {
      InvariantHolds(init, step, inv, states, events, n - 1);
      assert step(states[n - 1], events[n - 1], states[n]);
    }
  }

  /** A run goes on with any step from its last state. */
  lemma Extend<S, E>(init: S -> bool, step: (S, E, S) -> bool, states: seq<S>, events: seq<E>, e: E, s: S)
    requires IsRun(init, step, states, events) && step(states[|events|], e, s)
    ensures IsRun(init, step, states + [s], events + [e])
  {
    var states', events' := states + [s], events + [e];
    forall i | 0 <= i < |events'| ensures step(states'[i], events'[i], states'[i + 1]) {
      if i < |events| {
        assert step(states[i], events[i], states[i + 1]);
      }
    }
  }
}
