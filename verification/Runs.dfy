/** Runs of a step system, which is given by what one of its actions may make of a state. */
module Runs {

  ghost predicate Leads<S(!new), A>(step: (S, A, S) -> bool, s: S, actions: seq<A>, t: S)
    decreases |actions|
  {
    if actions == [] then s == t else exists u :: step(s, actions[0], u) && Leads(step, u, actions[1..], t)
  }

  lemma StepFirst<S(!new), A>(step: (S, A, S) -> bool, s: S, a: A, u: S, actions: seq<A>, t: S)
    requires step(s, a, u) && Leads(step, u, actions, t)
    ensures Leads(step, s, [a] + actions, t)
  {
    assert ([a] + actions)[0] == a && ([a] + actions)[1..] == actions;
  }

  lemma {:induction false} LeadsOn<S(!new), A>(step: (S, A, S) -> bool, s: S, first: seq<A>, t: S, second: seq<A>, u: S)
    requires Leads(step, s, first, t) && Leads(step, t, second, u)
    ensures Leads(step, s, first + second, u)
    decreases |first|
  {
    if first == [] {
      assert first + second == second;
    } else {
      var v :| step(s, first[0], v) && Leads(step, v, first[1..], t);
      LeadsOn(step, v, first[1..], t, second, u);
      assert (first + second)[0] == first[0] && (first + second)[1..] == first[1..] + second;
    }
  }

  /** The states that a run leads through. */
  lemma {:induction false} StatesOf<S(!new), A>(step: (S, A, S) -> bool, s: S, actions: seq<A>, t: S)
      returns (states: seq<S>)
    requires Leads(step, s, actions, t)
    ensures |states| == |actions| + 1 && states[0] == s && states[|actions|] == t
    ensures forall i :: 0 <= i < |actions| ==> step(states[i], actions[i], states[i + 1])
    decreases |actions|
  {
    if actions == [] {
      states := [s];
    } else {
      var u :| step(s, actions[0], u) && Leads(step, u, actions[1..], t);
      var rest := StatesOf(step, u, actions[1..], t);
      states := [s] + rest;
      forall i | 0 <= i < |actions| ensures step(states[i], actions[i], states[i + 1]) {
        if i > 0 { assert step(rest[i - 1], actions[1..][i - 1], rest[i]); }
      }
    }
  }
}
