/** Finite runs of a transition system, and the induction principle over them. */
module Runs {

  /** `run` starts in an initial state and every later state follows from the one before it. */
  ghost predicate IsRun<S(!new)>(init: S -> bool, next: (S, S) -> bool, run: seq<S>) {
    && |run| > 0
    && init(run[0])
    && forall i, j :: 0 <= i && j == i + 1 && j < |run| ==> next(run[i], run[j])
  }

  /** What holds initially and is kept by every step holds in every state of every run. */
  lemma {:induction false} Invariant<S(!new)>(init: S -> bool, next: (S, S) -> bool, inv: S -> bool, run: seq<S>)
    requires IsRun(init, next, run)
    requires forall s :: init(s) ==> inv(s)
    requires forall s, s' :: inv(s) && next(s, s') ==> inv(s')
    ensures forall i :: 0 <= i < |run| ==> inv(run[i])
  {
    var k := 1;
    while k < |run|
      invariant 1 <= k <= |run|
      invariant forall i :: 0 <= i < k ==> inv(run[i])
    {
      assert next(run[k - 1], run[k]);
      k := k + 1;
    }
  }

  ghost function LastOf<S>(run: seq<S>): S
    requires run != []
  {
    run[|run| - 1]
  }

  /** Some run ends in s. */
  ghost predicate Reachable<S(!new)>(init: S -> bool, next: (S, S) -> bool, s: S) {
    exists run :: IsRun(init, next, run) && LastOf(run) == s
  }

  lemma Start<S(!new)>(init: S -> bool, next: (S, S) -> bool, s: S) returns (end: S)
    requires init(s)
    ensures end == s && Reachable(init, next, end)
  {
    end := s;
    assert IsRun(init, next, [s]) && LastOf([s]) == s;
  }

  lemma Follow<S(!new)>(init: S -> bool, next: (S, S) -> bool, s: S, s': S) returns (end: S)
    requires Reachable(init, next, s) && next(s, s')
    ensures end == s' && Reachable(init, next, end)
  {
    end := s';
    var run :| IsRun(init, next, run) && LastOf(run) == s;
    assert IsRun(init, next, run + [s']) && LastOf(run + [s']) == s';
  }
}
