/**
 * When the wait of a pool's Join can end. Everything may happen here: calls from outside while Join waits, tasks that
 * submit tasks, Shutdown at any time, pools without workers.
 */
module PoolJoin {
  import opened Counting
  import opened ThreadPool
  import Reach
  import Runs

  /** Join has not seen an idle pool. */
  predicate Waits(j: Joiner) { j == NotJoining || j == Looking || j == Sleeping }

  ghost predicate AtHome(s: State) { s.joiner == Home }

  /** Some task will never be released: Shutdown dropped it, or there is nobody to take it. */
  ghost predicate Stranded(s: State) {
    s.dropped != [] || (s.workers == [] && s.queue != [])
  }

  // ----- A stranded task keeps Join waiting for ever -----

  ghost predicate Doomed(s: State) { Inv(s) && Stranded(s) && Waits(s.joiner) }

  lemma DoomedCall(s: State, s': State, c: Slot)
    requires Stranded(s) && Waits(s.joiner) && CallStep(s, s', c)
    ensures Stranded(s') && Waits(s'.joiner)
  {
    if !AcquireWorker(s, s', c) && !Compensate(s, s', c) {
      var u :| Put(s, s', c, u);
    }
  }

  lemma DoomedStep(s: State, s': State)
    requires s.current > 0 && Stranded(s) && Waits(s.joiner) && Next(s, s')
    ensures Stranded(s') && Waits(s'.joiner)
  {
    if c :| CallStep(s, s', c) {
      DoomedCall(s, s', c);
    } else if w :| WorkerStep(s, s', w) {
      assert s'.dropped == s.dropped && |s'.workers| == |s.workers|;
    } else if Shutdown(s, s') {
      assert s.dropped == [] ==> s'.dropped == s.queue;
    }
  }

  lemma DoomedKeeps(s: State, s': State)
    requires Doomed(s) && Next(s, s')
    ensures Doomed(s')
  {
    DoomedStep(s, s');
    assert Inv(s') by { StepKeeps(s, s'); }
  }

  lemma DoomedForever(s: State)
    requires Doomed(s)
    ensures !Reach.CanReach(Next, s, AtHome)
  {
    forall x, x' | Doomed(x) && Next(x, x') ensures Doomed(x') { DoomedKeeps(x, x'); }
    Reach.NeverReached(Next, s, Doomed, AtHome);
  }

  // ----- Otherwise its wait can end -----

  ghost predicate Hopeful(s: State) { Inv(s) && !Stranded(s) && Waits(s.joiner) }

  function CallWeight(c: Call): nat {
    match c
    case NoCall => 0
    case Acquired => 12
    case Refused => 1
  }

  function Weight(w: Worker): nat {
    match w
    case Running(_, call) => 4 + CallWeight(call)
    case Ran => 3
    case Counted => 2
    case _ => 0
  }

  /** How far the outstanding work is from done. */
  ghost function Left(s: State): nat {
    Sum(s.outside, CallWeight) + 10 * |s.queue| + Sum(s.workers, Weight) + One(!s.closed)
  }

  /** A step towards an idle pool. */
  ghost predicate Closer(s: State, s': State) {
    Next(s, s') && !Stranded(s') && Waits(s'.joiner) && Left(s') < Left(s)
  }

  lemma CallWeighs(s: State, c: Slot, call: Call)
    requires HasSlot(s, c)
    ensures var s' := WithCall(s, c, call);
      Sum(s'.outside, CallWeight) + Sum(s'.workers, Weight)
      == Sum(s.outside, CallWeight) + Sum(s.workers, Weight) - CallWeight(CallOf(s, c)) + CallWeight(call)
  {
    match c
    case Outside(i) => SumUpdate(s.outside, CallWeight, i, call);
    case Inside(i) => SumUpdate(s.workers, Weight, i, s.workers[i].(call := call));
  }

  /** Put on a closed queue is refused, and otherwise accepted. */
  lemma EndAcquired(s: State, c: Slot) returns (s': State, u: nat)
    requires HasSlot(s, c) && CallOf(s, c) == Acquired
    ensures Put(s, s', c, u) && Left(s') < Left(s)
  {
    u := 0;
    if s.closed {
      s' := WithCall(s, c, Refused).(refused := s.refused + 1);
      CallWeighs(s, c, Refused);
    } else {
      s' := WithCall(s, c, NoCall).(queue := s.queue + [s.accepted], accepted := s.accepted + 1);
      CallWeighs(s, c, NoCall);
      if i: nat :| i < |s.workers| && s.workers[i].Asleep? {
        u := i;
        SumUpdate(s'.workers, Weight, u, Notified);
        s' := s'.(workers := s'.workers[u := Notified]);
      }
    }
  }

  lemma EndCall(s: State, c: Slot) returns (s': State)
    requires !Stranded(s) && Waits(s.joiner) && HasSlot(s, c) && CallOf(s, c) != NoCall
    ensures Closer(s, s')
  {
    if CallOf(s, c) == Refused {
      s' := WithCall(s, c, NoCall).(current := s.current - 1, joiner := Wake(s.joiner));
      CallWeighs(s, c, NoCall);
      assert Compensate(s, s', c) && CallStep(s, s', c);
    } else if s.workers == [] && !s.closed {
      // Nobody can take a task, so the queue is closed before one gets in.
      s' := s.(closed := true, queue := [], dropped := s.dropped + s.queue, workers := WakeAll(s.workers),
               shut := true);
      assert s'.workers == s.workers && s'.dropped == [];
      assert Shutdown(s, s');
    } else {
      var u;
      s', u := EndAcquired(s, c);
      assert CallStep(s, s', c);
    }
  }

  /** A busy worker outside any call goes on, and one that looks takes a task. */
  lemma WorkerGoesOn(s: State, w: nat) returns (s': State)
    requires w < |s.workers| && !Calls(s.workers[w])
    requires Busy(s.workers[w]) || (Looks(s.workers[w]) && s.queue != [])
    ensures WorkerStep(s, s', w) && Left(s') < Left(s)
    ensures s'.dropped == s.dropped && s'.joiner in {s.joiner, Wake(s.joiner)}
  {
    if Looks(s.workers[w]) {
      s' := s.(queue := s.queue[1..], taken := s.taken + [s.queue[0]],
               workers := s.workers[w := Running(s.queue[0], NoCall)]);
    } else {
      match s.workers[w]
      case Running(t, _) => s' := s.(ran := s.ran + [t], workers := s.workers[w := Ran]);
      case Ran => s' := s.(executed := s.executed + 1, workers := s.workers[w := Counted]);
      case Counted => s' := s.(current := s.current - 1, joiner := Wake(s.joiner), workers := s.workers[w := Taking]);
    }
    SumUpdate(s.workers, Weight, w, s'.workers[w]);
  }

  lemma WorkerCloser(s: State, w: nat) returns (s': State)
    requires !Stranded(s) && Waits(s.joiner) && w < |s.workers| && !Calls(s.workers[w])
    requires Busy(s.workers[w]) || (Looks(s.workers[w]) && s.queue != [])
    ensures Closer(s, s')
  {
    s' := WorkerGoesOn(s, w);
  }

  /** With a task in the queue and nobody busy, somebody is awake in Take: no wakeup for no reason is needed. */
  lemma SomebodyLooks(s: State) returns (w: nat)
    requires Wakeups(s) && Phases(s) && s.workers != [] && s.queue != [] && Count(s.workers, Busy) == 0
    ensures w < |s.workers| && Looks(s.workers[w])
  {
    w := 0;
    CountZero(s.workers, Busy, 0);
    if s.workers[0].Asleep? {
      CountAtLeastOne(s.workers, Dozes, 0);
      w := CountWitness(s.workers, Woken);
    }
  }

  lemma FindCloser(s: State) returns (s': State)
    requires Conserved(s) && Wakeups(s) && Phases(s) && !Stranded(s) && Waits(s.joiner) && s.current != 0
    ensures Closer(s, s')
  {
    if Count(s.outside, InCall) > 0 {
      var i := CountWitness(s.outside, InCall);
      s' := EndCall(s, Outside(i));
    } else if Count(s.workers, Calls) > 0 {
      var i := CountWitness(s.workers, Calls);
      s' := EndCall(s, Inside(i));
    } else if Count(s.workers, Busy) > 0 {
      var w := CountWitness(s.workers, Busy);
      CountZero(s.workers, Calls, w);
      s' := WorkerCloser(s, w);
    } else {
      var w := SomebodyLooks(s);
      s' := WorkerCloser(s, w);
    }
  }

  /** Join looks at an idle pool. */
  lemma LookHome(s: State)
    requires Hopeful(s) && s.current == 0
    ensures Reach.CanReach(Next, s, AtHome)
  {
    var looking := s.(joiner := Looking);
    var home := s.(joiner := Home);
    assert JoinStep(looking, home);
    Reach.ReachedNow(Next, home, AtHome);
    Reach.ReachedLater(Next, looking, home, AtHome);
    if s.joiner == NotJoining {
      assert BeginJoin(s, looking);
      Reach.ReachedLater(Next, s, looking, AtHome);
    }
  }

  lemma {:induction false} HopefulGetsHome(s: State)
    requires Hopeful(s)
    ensures Reach.CanReach(Next, s, AtHome)
    decreases Left(s)
  {
    if s.current == 0 {
      LookHome(s);
    } else {
      var s' := FindCloser(s);
      assert Inv(s') by { StepKeeps(s, s'); }
      HopefulGetsHome(s');
      Reach.ReachedLater(Next, s, s', AtHome);
    }
  }

  // ----- The theorem -----

  /** In every state of every run before Join has seen zero, its wait can still end if and only if Shutdown has dropped
      nothing and, in a pool without workers, nothing is queued. */
  lemma HomeExactly(run: seq<State>, i: nat)
    requires Runs.IsRun(Init, Next, run) && i < |run| && Waits(run[i].joiner)
    ensures Reach.CanReach(Next, run[i], AtHome) <==>
      run[i].dropped == [] && (run[i].workers == [] ==> run[i].queue == [])
  {
    assert Inv(run[i]) by { RunKeeps(run); }
    if Stranded(run[i]) {
      DoomedForever(run[i]);
    } else {
      HopefulGetsHome(run[i]);
    }
  }

  /** After a Shutdown that dropped tasks, a Join that has not seen zero by then never does: the counter stays positive,
      because dropped tasks are never released. */
  lemma JoinAfterShutdown(run: seq<State>, i: nat, j: nat)
    requires Runs.IsRun(Init, Next, run) && i <= j < |run|
    requires run[i].dropped != [] && Waits(run[i].joiner)
    ensures Waits(run[j].joiner) && run[j].current > 0
  {
    assert Inv(run[i]) by { RunKeeps(run); }
    forall s, s' | Doomed(s) && Next(s, s') ensures Doomed(s') { DoomedKeeps(s, s'); }
    Runs.Invariant(Doomed, Next, Doomed, run[i..]);
    assert Doomed(run[i..][j - i]);
  }

  /** A run after which all calls have returned and Join waits for a dropped task, for ever. */
  lemma WaitsForDropped() returns (end: State)
    ensures Runs.Reachable(Init, Next, end) && !Reach.CanReach(Next, end, AtHome)
    ensures end == State(1, [], true, 0, [Taking], [NoCall], Sleeping, 1, [], [], [0], 0, true)
  {
    end := TaskDropped();
    var s3 := end;
    var s4 := s3.(joiner := Looking);
    assert BeginJoin(s3, s4);
    end := Runs.Follow(Init, Next, end, s4);
    var s5 := s3.(joiner := Sleeping);
    assert JoinStep(s4, s5);
    end := Runs.Follow(Init, Next, end, s5);
    var run :| Runs.IsRun(Init, Next, run) && Runs.LastOf(run) == end;
    HomeExactly(run, |run| - 1);
  }

  lemma TaskDropped() returns (end: State)
    ensures Runs.Reachable(Init, Next, end)
    ensures end == State(1, [], true, 0, [Taking], [NoCall], NotJoining, 1, [], [], [0], 0, true)
  {
    var s0 := State(0, [], false, 0, [Taking], [NoCall], NotJoining, 0, [], [], [], 0, false);
    var s1 := s0.(current := 1, outside := [Acquired]);
    assert AcquireWorker(s0, s1, Outside(0)) && CallStep(s0, s1, Outside(0));
    end := Runs.Start(Init, Next, s0);
    end := Runs.Follow(Init, Next, end, s1);
    var s2 := s0.(current := 1, queue := [0], accepted := 1);
    assert Put(s1, s2, Outside(0), 0) && CallStep(s1, s2, Outside(0));
    end := Runs.Follow(Init, Next, end, s2);
    var s3 := State(1, [], true, 0, [Taking], [NoCall], NotJoining, 1, [], [], [0], 0, true);
    assert WakeAll(s2.workers) == s2.workers;
    assert Shutdown(s2, s3);
    end := Runs.Follow(Init, Next, end, s3);
  }
}
