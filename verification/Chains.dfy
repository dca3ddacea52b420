/** Runs as chains of states linked by steps. */
module Chains {

  ghost predicate Chain<S, T>(move: (S, T, S) -> bool, states: seq<S>, steps: seq<T>) {
    && |states| == |steps| + 1
    && forall i {:trigger steps[i]} | 0 <= i < |steps| :: move(states[i], steps[i], states[i + 1])
  }

  /** A chain continued by further steps and the states they reach. */
  lemma ConcatChain<S, T>(move: (S, T, S) -> bool, states: seq<S>, steps: seq<T>, states': seq<S>, steps': seq<T>)
    requires Chain(move, states, steps) && |states'| == |steps'| > 0
    requires move(states[|steps|], steps'[0], states'[0])
    requires forall i {:trigger steps'[i]} | 0 < i < |steps'| :: move(states'[i - 1], steps'[i], states'[i])
    ensures Chain(move, states + states', steps + steps')
  {
    var n, all := |steps|, states + states';
    forall i | 0 <= i < n + |steps'|
      ensures move(all[i], (steps + steps')[i], all[i + 1])
    {
      if i < n {
        assert (steps + steps')[i] == steps[i];
      } else {
        assert (steps + steps')[i] == steps'[i - n];
      }
    }
  }
}
