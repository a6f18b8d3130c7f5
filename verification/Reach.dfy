/** What a transition system can still do from a state. */
module Reach {
  import Runs

  ghost function From<S>(s: S): S -> bool {
    (x: S) => x == s
  }

  /** Some continuation of s ends in a state with `goal`. */
  ghost predicate CanReach<S(!new)>(next: (S, S) -> bool, s: S, goal: S -> bool) {
    exists more :: Runs.IsRun(From(s), next, more) && goal(Runs.LastOf(more))
  }

  lemma ReachedNow<S(!new)>(next: (S, S) -> bool, s: S, goal: S -> bool)
    requires goal(s)
    ensures CanReach(next, s, goal)
  {
    assert Runs.IsRun(From(s), next, [s]) && goal(Runs.LastOf([s]));
  }

  lemma ReachedLater<S(!new)>(next: (S, S) -> bool, s: S, s': S, goal: S -> bool)
    requires next(s, s') && CanReach(next, s', goal)
    ensures CanReach(next, s, goal)
  {
    var more :| Runs.IsRun(From(s'), next, more) && goal(Runs.LastOf(more));
    assert Runs.IsRun(From(s), next, [s] + more) && goal(Runs.LastOf([s] + more));
  }

  /** What every step keeps and the goal excludes keeps the goal out of reach. */
  lemma NeverReached<S(!new)>(next: (S, S) -> bool, s: S, inv: S -> bool, goal: S -> bool)
    requires inv(s)
    requires forall x, x' :: inv(x) && next(x, x') ==> inv(x')
    requires forall x :: inv(x) ==> !goal(x)
    ensures !CanReach(next, s, goal)
  {
    if CanReach(next, s, goal) {
      var more :| Runs.IsRun(From(s), next, more) && goal(Runs.LastOf(more));
      Runs.Invariant(From(s), next, inv, more);
    }
  }
}
