/** Finite runs of a step relation, for showing by example what a machine can do. */
module Runs {

  ghost predicate Trace<S(!new), A(!new)>(step: (S, A, S) -> bool, states: seq<S>, actions: seq<A>) {
    && |states| == |actions| + 1
    && forall k :: 0 <= k < |actions| ==> step(states[k], actions[k], states[k + 1])
  }

  /** Some run leads from s to q. */
  ghost predicate Connected<S(!new), A(!new)>(step: (S, A, S) -> bool, s: S, q: S) {
    exists states, actions :: Trace(step, states, actions) && states[0] == s && states[|actions|] == q
  }

  lemma ConnectedToItself<S(!new), A(!new)>(step: (S, A, S) -> bool, s: S)
    ensures Connected(step, s, s)
  {
    assert Trace(step, [s], []);
  }

  lemma ConnectedByStep<S(!new), A(!new)>(step: (S, A, S) -> bool, o: S, s: S, a: A, q: S)
    requires Connected(step, o, s) && step(s, a, q)
    ensures Connected(step, o, q)
  {
    var states, actions :| Trace(step, states, actions) && states[0] == o && states[|actions|] == s;
    assert Trace(step, states + [q], actions + [a]);
  }
}
