/** Which tasks a strand still starts when nobody calls Execute again. */
module StrandProgress {
  import opened Strand
  import Reach
  import Runs

  /** Every step but the beginning of a new Execute. */
  ghost predicate Continue(s: State, s': State) {
    || (exists c: nat :: CallerContinues(s, s', c))
    || (exists d: nat :: DrainContinues(s, s', d))
  }

  ghost predicate CallerContinues(s: State, s': State, c: nat) {
    Load(s, s', c) || SwapWins(s, s', c) || SwapFails(s, s', c) || FlagWins(s, s', c) || FlagLoses(s, s', c)
  }

  ghost predicate DrainContinues(s: State, s': State, d: nat) {
    BatchStep(s, s', d) || JobStep(s, s', d)
  }

  lemma ContinueIsNext(s: State, s': State)
    requires Continue(s, s')
    ensures Next(s, s')
  {}

  /** Some task is on the stack or in a batch. */
  ghost predicate TaskWaits(s: State) { |s.executed| < |s.pushed| }

  /** Another task has been started after the first n. */
  ghost function Started(n: nat): State -> bool {
    (s: State) => |s.executed| > n
  }

  ghost predicate InExecute(s: State, c: nat) { c < |s.callers| && !s.callers[c].Idle? }

  /** The newest drain has yet to find the stack empty. */
  ghost predicate Draining(s: State) { s.drains != [] && !Marked(Last(s)) }

  // ----- Without a caller or a drain nothing starts -----

  ghost function Halted(n: nat): State -> bool {
    (s: State) =>
      && |s.executed| == n
      && (forall c :: 0 <= c < |s.callers| ==> s.callers[c].Idle?)
      && (forall d :: 0 <= d < |s.drains| ==> Marked(s.drains[d]))
  }

  lemma HaltedStep(s: State, s': State, n: nat)
    requires Halted(n)(s) && Continue(s, s')
    ensures Halted(n)(s')
  {
    assert forall c: nat :: !CallerContinues(s, s', c);
    var d: nat :| DrainContinues(s, s', d);
    assert StoreFlag(s, s', d);
  }

  lemma HaltedForever(s: State)
    requires Halted(|s.executed|)(s)
    ensures !Reach.CanReach(Continue, s, Started(|s.executed|))
  {
    var n := |s.executed|;
    forall x, x' | Halted(n)(x) && Continue(x, x') ensures Halted(n)(x') { HaltedStep(x, x', n); }
    Reach.NeverReached(Continue, s, Halted(n), Started(n));
  }

  // ----- A drain before its emptiness check starts the next task -----

  ghost function Stage(s: State): nat
    requires s.drains != []
  {
    match Last(s)
    case Exchanging => if s.head.Null? then 11 else 7
    case Collecting(rest, b) => if rest.Null? && b == [] then 10 else 6
    case Posted(b) => if b == [] then 9 else 5
    case Running(b) => if b == [] then 8 else 4
    case InTask(_, _) => 9
    case _ => 0
  }

  ghost function Rank(s: State): nat
    requires s.drains != []
  {
    12 * |s.heap| + Stage(s)
  }

  /** A drain that has run its batch while a task waits finds that task on the stack. */
  lemma StackNotEmpty(s: State)
    requires Inv(s) && TaskWaits(s) && s.drains != [] && Last(s) == Running([])
    ensures s.head.At?
  {
    var v :| InvAt(s, v);
  }

  /** A task starts, or the drain comes closer to starting one. */
  ghost predicate Closer(s: State, s': State) {
    s.drains != [] && s'.drains != [] &&
    (|s'.executed| > |s.executed| ||
     (s'.executed == s.executed && s'.pushed == s.pushed && Draining(s') && Rank(s') < Rank(s)))
  }

  lemma BatchCloser(s: State, s': State)
    requires Draining(s) && BatchStep(s, s', |s.drains| - 1)
    ensures Closer(s, s')
  {}

  lemma JobCloser(s: State, s': State)
    requires Draining(s) && (Last(s) == Running([]) ==> s.head.At?) && JobStep(s, s', |s.drains| - 1)
    ensures Closer(s, s')
  {}

  /** The drain alone. */
  lemma DrainGoesOn(s: State) returns (s': State)
    requires Draining(s) && NoDanglingNode(s) && (Last(s) == Running([]) ==> s.head.At?)
    ensures DrainContinues(s, s', |s.drains| - 1) && Closer(s, s')
  {
    s' := DrainStep(s, |s.drains| - 1);
    if BatchStep(s, s', |s.drains| - 1) {
      BatchCloser(s, s');
    } else {
      JobCloser(s, s');
    }
  }

  lemma {:induction false} DrainStarts(s: State, n: nat)
    requires Inv(s) && TaskWaits(s) && Draining(s) && n <= |s.executed|
    ensures Reach.CanReach(Continue, s, Started(n))
    decreases Rank(s)
  {
    InvMeans(s);
    if Last(s) == Running([]) {
      StackNotEmpty(s);
    }
    var s' := DrainGoesOn(s);
    assert Continue(s, s');
    if |s'.executed| > |s.executed| {
      Reach.ReachedNow(Continue, s', Started(n));
    } else {
      StepKeeps(s, s');
      DrainStarts(s', n);
    }
    Reach.ReachedLater(Continue, s, s', Started(n));
  }

  // ----- A caller inside Execute wins the clear flag -----

  ghost function CallerRank(s: State, c: nat): nat
    requires c < |s.callers|
  {
    match s.callers[c]
    case Idle => 0
    case Loading(_) => 3
    case Swapping(a) => if a in s.heap && s.heap[a].next == s.head then 2 else 4
    case Flagging(_) => 1
  }

  /** The caller alone: it becomes a drain, or comes closer to it. */
  lemma CallerGoesOn(s: State, c: nat) returns (s': State)
    requires FlagsPending(s) && NoDanglingNode(s) && !s.scheduled && InExecute(s, c)
    ensures CallerContinues(s, s', c) && s'.executed == s.executed && |s'.pushed| >= |s.pushed|
    ensures Draining(s') || (!s'.scheduled && InExecute(s', c) && CallerRank(s', c) < CallerRank(s, c))
  {
    match s.callers[c]
    case Loading(a) =>
      assert Owns(s.callers[c], a);
      s' := s.(heap := s.heap[a := s.heap[a].(next := s.head)], callers := s.callers[c := Swapping(a)]);
      assert Load(s, s', c);
    case Swapping(a) =>
      assert Owns(s.callers[c], a);
      if s.heap[a].next == s.head {
        s' := s.(head := At(a), callers := s.callers[c := Flagging(|s.pushed|)],
                 pushed := s.pushed + [s.heap[a].task], fates := s.fates + [Undecided]);
        assert SwapWins(s, s', c);
      } else {
        s' := s.(heap := s.heap[a := s.heap[a].(next := s.head)], callers := s.callers[c := Loading(a)]);
        assert SwapFails(s, s', c);
      }
    case Flagging(k) =>
      s' := s.(scheduled := true, callers := s.callers[c := Idle], drains := s.drains + [Exchanging],
               fates := s.fates[k := Won]);
      assert FlagWins(s, s', c);
  }

  lemma {:induction false} CallerStarts(s: State, c: nat, n: nat)
    requires Inv(s) && TaskWaits(s) && !s.scheduled && InExecute(s, c) && n <= |s.executed|
    ensures Reach.CanReach(Continue, s, Started(n))
    decreases CallerRank(s, c)
  {
    InvMeans(s);
    assert FlagsPending(s) by { var v :| InvAt(s, v); }
    var s' := CallerGoesOn(s, c);
    assert Continue(s, s');
    StepKeeps(s, s');
    if Draining(s') {
      DrainStarts(s', n);
    } else {
      CallerStarts(s', c, n);
    }
    Reach.ReachedLater(Continue, s, s', Started(n));
  }

  /** In the window the flag is cleared first. */
  lemma WindowThenCaller(s: State, c: nat, n: nat)
    requires Inv(s) && TaskWaits(s) && s.drains != [] && Last(s).Window? && InExecute(s, c) && n <= |s.executed|
    ensures Reach.CanReach(Continue, s, Started(n))
  {
    var d := |s.drains| - 1;
    var s' := s.(scheduled := false, drains := s.drains[d := Ended(Last(s).mark)]);
    assert StoreFlag(s, s', d);
    assert DrainContinues(s, s', d);
    assert Continue(s, s');
    StepKeeps(s, s');
    CallerStarts(s', c, n);
    Reach.ReachedLater(Continue, s, s', Started(n));
  }

  // ----- The theorem -----

  /** In every state of every run in which a task waits: without a new call of Execute the strand can still start one if
      and only if some caller is inside Execute or a drain has yet to find the stack empty. */
  lemma StartsExactly(run: seq<State>, i: nat)
    requires Runs.IsRun(Init, Next, run) && i < |run| && TaskWaits(run[i])
    ensures var s := run[i];
      Reach.CanReach(Continue, s, Started(|s.executed|)) <==>
      (exists c: nat :: InExecute(s, c)) || (s.drains != [] && !Marked(Last(s)))
  {
    var s := run[i];
    assert Inv(s) by { RunKeeps(run); }
    assert Token(s) by { var v :| InvAt(s, v); }
    if Draining(s) {
      DrainStarts(s, |s.executed|);
    } else if c: nat :| InExecute(s, c) {
      if s.scheduled {
        WindowThenCaller(s, c, |s.executed|);
      } else {
        CallerStarts(s, c, |s.executed|);
      }
    } else {
      forall c: nat | c < |s.callers| ensures s.callers[c].Idle? {
        assert !InExecute(s, c);
      }
      HaltedForever(s);
    }
  }
}
