/**
 * The static thread pool: AcquireWorker / ReleaseWorker keep a counter of outstanding work, tasks go through the
 * unbounded queue, workers loop, and Join waits for the counter to reach zero before it closes the queue. Tasks are
 * numbered in the order the queue accepted them. Submitters are outside threads or the tasks themselves. A region
 * under a mutex is one step; waiting on a condition variable releases the mutex and sleeps in the same step.
 */
module ThreadPool {
  import opened Counting
  import Runs

  /** An Execute call. */
  datatype Call =
    | NoCall
    | Acquired     // after AcquireWorker, before Put
    | Refused      // Put returned false, before the compensating ReleaseWorker

  datatype Worker =
    | Taking                          // entering Take
    | Asleep                          // in Take, in the condition variable of the queue
    | Notified                        // in Take, woken, has yet to look again
    | Running(task: nat, call: Call)  // in the body of a task, which may itself call Execute
    | Ran                             // body over, before incrementing the executed counter
    | Counted                         // before ReleaseWorker
    | Exited

  datatype Joiner =
    | NotJoining
    | Looking     // about to evaluate `current_number_ == 0` under the mutex
    | Sleeping
    | Home        // saw zero, before Close
    | Closing     // closed the queue, joining the workers
    | Joined

  /** History: `accepted` tasks so far, `taken` and `ran` in the order of Take and of finished bodies, `dropped` by
      Shutdown, `refused` Puts, whether Shutdown has been called (`shut`). */
  datatype State = State(
    current: int, queue: seq<nat>, closed: bool, executed: nat,
    workers: seq<Worker>, outside: seq<Call>, joiner: Joiner,
    accepted: nat, taken: seq<nat>, ran: seq<nat>, dropped: seq<nat>, refused: nat, shut: bool)

  ghost predicate Init(s: State) {
    && s.current == 0 && s.queue == [] && !s.closed && s.executed == 0
    && (forall w :: 0 <= w < |s.workers| ==> s.workers[w] == Taking)
    && (forall i :: 0 <= i < |s.outside| ==> s.outside[i] == NoCall)
    && s.joiner == NotJoining
    && s.accepted == 0 && s.taken == [] && s.ran == [] && s.dropped == [] && s.refused == 0 && !s.shut
  }

  // ----- Execute, from outside (slot i) or from the task running on worker i -----

  datatype Slot = Outside(i: nat) | Inside(i: nat)

  ghost predicate HasSlot(s: State, c: Slot) {
    match c
    case Outside(i) => i < |s.outside|
    case Inside(i) => i < |s.workers| && s.workers[i].Running?
  }

  ghost function CallOf(s: State, c: Slot): Call
    requires HasSlot(s, c)
  {
    match c
    case Outside(i) => s.outside[i]
    case Inside(i) => s.workers[i].call
  }

  ghost function WithCall(s: State, c: Slot, call: Call): State
    requires HasSlot(s, c)
  {
    match c
    case Outside(i) => s.(outside := s.outside[i := call])
    case Inside(i) => s.(workers := s.workers[i := s.workers[i].(call := call)])
  }

  /** Both AcquireWorker and ReleaseWorker notify the condition variable that Join waits on. */
  function Wake(j: Joiner): Joiner { if j == Sleeping then Looking else j }

  ghost predicate AcquireWorker(s: State, s': State, c: Slot) {
    && HasSlot(s, c) && CallOf(s, c) == NoCall
    && s' == WithCall(s, c, Acquired).(current := s.current + 1, joiner := Wake(s.joiner))
  }

  /** An accepted Put notifies one sleeping worker, u, if there is one. */
  ghost predicate Put(s: State, s': State, c: Slot, u: nat) {
    && HasSlot(s, c) && CallOf(s, c) == Acquired
    && if s.closed then s' == WithCall(s, c, Refused).(refused := s.refused + 1)
       else
         var more := WithCall(s, c, NoCall).(queue := s.queue + [s.accepted], accepted := s.accepted + 1);
         if u < |s.workers| && s.workers[u].Asleep? then s' == more.(workers := more.workers[u := Notified])
         else (forall w :: 0 <= w < |s.workers| ==> !s.workers[w].Asleep?) && s' == more
  }

  ghost predicate Compensate(s: State, s': State, c: Slot) {
    && HasSlot(s, c) && CallOf(s, c) == Refused
    && s' == WithCall(s, c, NoCall).(current := s.current - 1, joiner := Wake(s.joiner))
  }

  ghost predicate CallStep(s: State, s': State, c: Slot) {
    AcquireWorker(s, s', c) || (exists u :: Put(s, s', c, u)) || Compensate(s, s', c)
  }

  // ----- Worker w -----

  predicate Looks(w: Worker) { w.Taking? || w.Notified? }

  ghost predicate Take(s: State, s': State, w: nat) {
    && w < |s.workers| && Looks(s.workers[w]) && s.queue != []
    && s' == s.(queue := s.queue[1..], taken := s.taken + [s.queue[0]],
                workers := s.workers[w := Running(s.queue[0], NoCall)])
  }

  ghost predicate Exit(s: State, s': State, w: nat) {
    && w < |s.workers| && Looks(s.workers[w]) && s.queue == [] && s.closed
    && s' == s.(workers := s.workers[w := Exited])
  }

  ghost predicate FallAsleep(s: State, s': State, w: nat) {
    && w < |s.workers| && Looks(s.workers[w]) && s.queue == [] && !s.closed
    && s' == s.(workers := s.workers[w := Asleep])
  }

  ghost predicate SpuriousWake(s: State, s': State, w: nat) {
    && w < |s.workers| && s.workers[w].Asleep?
    && s' == s.(workers := s.workers[w := Notified])
  }

  ghost predicate EndBody(s: State, s': State, w: nat) {
    && w < |s.workers| && s.workers[w].Running? && s.workers[w].call == NoCall
    && s' == s.(ran := s.ran + [s.workers[w].task], workers := s.workers[w := Ran])
  }

  ghost predicate CountTask(s: State, s': State, w: nat) {
    && w < |s.workers| && s.workers[w].Ran?
    && s' == s.(executed := s.executed + 1, workers := s.workers[w := Counted])
  }

  ghost predicate ReleaseWorker(s: State, s': State, w: nat) {
    && w < |s.workers| && s.workers[w].Counted?
    && s' == s.(current := s.current - 1, joiner := Wake(s.joiner), workers := s.workers[w := Taking])
  }

  ghost predicate WorkerStep(s: State, s': State, w: nat) {
    || Take(s, s', w) || Exit(s, s', w) || FallAsleep(s, s', w) || SpuriousWake(s, s', w)
    || EndBody(s, s', w) || CountTask(s, s', w) || ReleaseWorker(s, s', w)
  }

  // ----- Join and Shutdown -----

  ghost predicate BeginJoin(s: State, s': State) {
    s.joiner == NotJoining && s' == s.(joiner := Looking)
  }

  ghost predicate JoinStep(s: State, s': State) {
    || (s.joiner == Looking && s' == s.(joiner := if s.current == 0 then Home else Sleeping))
    || (s.joiner == Sleeping && s' == s.(joiner := Looking))
    || CloseQueue(s, s')
    || (s.joiner == Closing && AllExited(s) && s' == s.(joiner := Joined))
  }

  ghost predicate CloseQueue(s: State, s': State) {
    s.joiner == Home && s' == s.(joiner := Closing, closed := true, workers := WakeAll(s.workers))
  }

  function WakeAll(ws: seq<Worker>): (r: seq<Worker>)
    ensures |r| == |ws|
    ensures forall i :: 0 <= i < |ws| ==> r[i] == if ws[i].Asleep? then Notified else ws[i]
  {
    if ws == [] then [] else [if ws[0].Asleep? then Notified else ws[0]] + WakeAll(ws[1..])
  }

  ghost predicate AllExited(s: State) {
    forall w :: 0 <= w < |s.workers| ==> s.workers[w].Exited?
  }

  ghost predicate Shutdown(s: State, s': State) {
    s' == s.(closed := true, queue := [], dropped := s.dropped + s.queue, workers := WakeAll(s.workers), shut := true)
  }

  ghost predicate Next(s: State, s': State) {
    || (exists c :: CallStep(s, s', c))
    || (exists w :: WorkerStep(s, s', w))
    || BeginJoin(s, s') || JoinStep(s, s') || Shutdown(s, s')
  }

  // ----- Invariant -----

  predicate Busy(w: Worker) { w.Running? || w.Ran? || w.Counted? }
  predicate Calls(w: Worker) { w.Running? && w.call != NoCall }
  predicate Uncounted(w: Worker) { w.Ran? }
  predicate InCall(c: Call) { c != NoCall }

  predicate InBody(w: Worker) { w.Running? }
  predicate Dozes(w: Worker) { w.Asleep? }
  predicate Woken(w: Worker) { w.Notified? }

  predicate RunsTask(w: Worker, k: nat) { w.Running? && w.task == k }

  ghost function Ids(n: nat): seq<nat> { seq(n, i => i) }

  ghost predicate Conserved(s: State) {
    s.current == |s.queue| + Count(s.workers, Busy) + Count(s.workers, Calls) + Count(s.outside, InCall) + |s.dropped|
  }

  /** A task that was taken has run or is running, once and not both. */
  ghost predicate RunsOnce(s: State) {
    && (forall i, j :: 0 <= i < j < |s.ran| ==> s.ran[i] != s.ran[j])
    && (forall w :: 0 <= w < |s.workers| && s.workers[w].Running? ==>
          s.workers[w].task in s.taken && s.workers[w].task !in s.ran)
    && (forall w, v :: 0 <= w < v < |s.workers| && s.workers[w].Running? && s.workers[v].Running? ==>
          s.workers[w].task != s.workers[v].task)
    && (forall k :: k in s.ran ==> k in s.taken)
    && (forall k :: k in s.taken && k !in s.ran ==>
          exists w :: 0 <= w < |s.workers| && RunsTask(s.workers[w], k))
  }

  ghost predicate Numbers(s: State) {
    && |s.taken| == |s.ran| + Count(s.workers, InBody)
    && |s.ran| == s.executed + Count(s.workers, Uncounted)
  }

  /** No wakeup of a worker is lost. */
  ghost predicate Wakeups(s: State) {
    if s.closed then Count(s.workers, Dozes) == 0
    else Count(s.workers, Dozes) > 0 ==> |s.queue| <= Count(s.workers, Woken)
  }

  ghost predicate Phases(s: State) {
    && (s.shut ==> s.closed && s.queue == [])
    && (s.dropped != [] ==> s.shut)
    && (forall w :: 0 <= w < |s.workers| && s.workers[w].Exited? ==> s.closed && s.queue == [])
    && (s.joiner == Sleeping ==> s.current != 0)
    && (s.joiner == Joined ==> AllExited(s))
  }

  ghost predicate Inv(s: State) {
    && Conserved(s)
    && Ids(s.accepted) == s.taken + s.dropped + s.queue
    && RunsOnce(s) && Numbers(s) && Phases(s) && Wakeups(s)
  }

  lemma Moves(ws: seq<Worker>, i: nat, w: Worker)
    requires i < |ws|
    ensures Count(ws[i := w], Busy) == Count(ws, Busy) - One(Busy(ws[i])) + One(Busy(w))
    ensures Count(ws[i := w], Calls) == Count(ws, Calls) - One(Calls(ws[i])) + One(Calls(w))
    ensures Count(ws[i := w], Uncounted) == Count(ws, Uncounted) - One(Uncounted(ws[i])) + One(Uncounted(w))
    ensures Count(ws[i := w], InBody) == Count(ws, InBody) - One(InBody(ws[i])) + One(InBody(w))
    ensures Count(ws[i := w], Dozes) == Count(ws, Dozes) - One(Dozes(ws[i])) + One(Dozes(w))
    ensures Count(ws[i := w], Woken) == Count(ws, Woken) - One(Woken(ws[i])) + One(Woken(w))
  {
    CountUpdate(ws, Dozes, i, w);
    CountUpdate(ws, Woken, i, w);
    CountUpdate(ws, Busy, i, w);
    CountUpdate(ws, Calls, i, w);
    CountUpdate(ws, Uncounted, i, w);
    CountUpdate(ws, InBody, i, w);
  }

  lemma InitHolds(s: State)
    requires Init(s)
    ensures Inv(s)
  {
    CountNone(s.workers, Busy);
    CountNone(s.workers, Calls);
    CountNone(s.workers, Uncounted);
    CountNone(s.workers, InBody);
    CountNone(s.workers, Dozes);
    CountNone(s.outside, InCall);
  }

  lemma WakeAllMoves(ws: seq<Worker>)
    ensures var r := WakeAll(ws);
      && Count(r, Busy) == Count(ws, Busy) && Count(r, Calls) == Count(ws, Calls)
      && Count(r, Uncounted) == Count(ws, Uncounted) && Count(r, InBody) == Count(ws, InBody)
      && Count(r, Dozes) == 0
  {
    var r := WakeAll(ws);
    CountSame(ws, r, Busy);
    CountSame(ws, r, Calls);
    CountSame(ws, r, Uncounted);
    CountSame(ws, r, InBody);
    CountNone(r, Dozes);
  }

  /** Steps that start or end no body leave the tasks where they are. */
  lemma OnceFrame(s: State, s': State)
    requires RunsOnce(s) && |s'.workers| == |s.workers| && s'.taken == s.taken && s'.ran == s.ran
    requires forall w :: 0 <= w < |s.workers| ==>
      (s'.workers[w].Running? <==> s.workers[w].Running?) &&
      (s.workers[w].Running? ==> s'.workers[w].task == s.workers[w].task)
    ensures RunsOnce(s')
  {
    forall k | k in s'.taken && k !in s'.ran
      ensures exists w :: 0 <= w < |s'.workers| && RunsTask(s'.workers[w], k)
    {
      var w :| 0 <= w < |s.workers| && RunsTask(s.workers[w], k);
      assert RunsTask(s'.workers[w], k);
    }
  }

  /** What replacing one call does to the counts. */
  lemma CallMoves(s: State, c: Slot, call: Call)
    requires HasSlot(s, c)
    ensures var s' := WithCall(s, c, call);
      && Count(s'.workers, Busy) == Count(s.workers, Busy)
      && Count(s'.workers, Uncounted) == Count(s.workers, Uncounted)
      && Count(s'.workers, InBody) == Count(s.workers, InBody)
      && Count(s'.workers, Dozes) == Count(s.workers, Dozes)
      && Count(s'.workers, Woken) == Count(s.workers, Woken)
      && Count(s'.workers, Calls) + Count(s'.outside, InCall)
         == Count(s.workers, Calls) + Count(s.outside, InCall) - One(InCall(CallOf(s, c))) + One(InCall(call))
  {
    match c
    case Outside(i) =>
      CountUpdate(s.outside, InCall, i, call);
    case Inside(i) =>
      Moves(s.workers, i, s.workers[i].(call := call));
  }

  lemma AcquireKeeps(s: State, s': State, c: Slot)
    requires Inv(s) && (AcquireWorker(s, s', c) || Compensate(s, s', c))
    ensures Inv(s')
  {
    CallMoves(s, c, CallOf(s', c));
    OnceFrame(s, s');
  }

  lemma RefusedKeeps(s: State, s': State, c: Slot, u: nat)
    requires Inv(s) && Put(s, s', c, u) && s.closed
    ensures Inv(s')
  {
    CallMoves(s, c, Refused);
    OnceFrame(s, s');
  }

  lemma PutMoves(s: State, s': State, c: Slot, u: nat)
    requires Put(s, s', c, u) && !s.closed
    ensures Count(s'.workers, Busy) == Count(s.workers, Busy)
    ensures Count(s'.workers, Uncounted) == Count(s.workers, Uncounted)
    ensures Count(s'.workers, InBody) == Count(s.workers, InBody)
    ensures Count(s'.workers, Calls) + Count(s'.outside, InCall)
      == Count(s.workers, Calls) + Count(s.outside, InCall) - 1
    ensures Count(s'.workers, Dozes) > 0 ==>
      Count(s.workers, Dozes) > 0 && Count(s'.workers, Woken) == Count(s.workers, Woken) + 1
  {
    CallMoves(s, c, NoCall);
    var mid := WithCall(s, c, NoCall).workers;
    if u < |s.workers| && s.workers[u].Asleep? {
      Moves(mid, u, Notified);
    } else {
      CountNone(mid, Dozes);
    }
  }

  lemma PutKeeps(s: State, s': State, c: Slot, u: nat)
    requires Inv(s) && Put(s, s', c, u) && !s.closed
    ensures Inv(s')
  {
    assert Conserved(s') && Numbers(s') && Wakeups(s') by { PutMoves(s, s', c, u); }
    PutOnce(s, s', c, u);
    PutOrder(s, s');
  }

  lemma PutOnce(s: State, s': State, c: Slot, u: nat)
    requires RunsOnce(s) && Phases(s) && Put(s, s', c, u) && !s.closed
    ensures RunsOnce(s') && Phases(s')
  {
    OnceFrame(s, s');
  }

  lemma PutOrder(s: State, s': State)
    requires Ids(s.accepted) == s.taken + s.dropped + s.queue
    requires s'.accepted == s.accepted + 1 && s'.queue == s.queue + [s.accepted]
    requires s'.taken == s.taken && s'.dropped == s.dropped
    ensures Ids(s'.accepted) == s'.taken + s'.dropped + s'.queue
  {
    assert Ids(s.accepted + 1) == Ids(s.accepted) + [s.accepted];
  }

  /** The next task in the queue has not been taken before. */
  lemma FrontIsNew(s: State)
    requires Ids(s.accepted) == s.taken + s.dropped + s.queue && s.queue != []
    ensures s.queue[0] !in s.taken
  {
    var n := |s.taken| + |s.dropped|;
    assert Ids(s.accepted)[n] == s.queue[0] == n;
    assert forall i :: 0 <= i < |s.taken| ==> s.taken[i] == Ids(s.accepted)[i] == i;
  }

  lemma TakeOnce(s: State, s': State, w: nat)
    requires Inv(s) && Take(s, s', w)
    ensures RunsOnce(s')
  {
    FrontIsNew(s);
    var t := s.queue[0];
    forall k | k in s'.taken && k !in s'.ran
      ensures exists v :: 0 <= v < |s'.workers| && RunsTask(s'.workers[v], k)
    {
      if k == t {
        assert RunsTask(s'.workers[w], k);
      } else {
        var v :| 0 <= v < |s.workers| && RunsTask(s.workers[v], k);
        assert RunsTask(s'.workers[v], k);
      }
    }
  }

  lemma TakeKeeps(s: State, s': State, w: nat)
    requires Inv(s) && Take(s, s', w)
    ensures Inv(s')
  {
    Moves(s.workers, w, s'.workers[w]);
    TakeOnce(s, s', w);
    assert s.queue == [s.queue[0]] + s.queue[1..];
    assert s.taken + s.dropped + s.queue == s'.taken + s'.dropped + s'.queue;
  }

  lemma EndOnce(s: State, s': State, w: nat)
    requires Inv(s) && EndBody(s, s', w)
    ensures RunsOnce(s')
  {
    forall k | k in s'.taken && k !in s'.ran
      ensures exists v :: 0 <= v < |s'.workers| && RunsTask(s'.workers[v], k)
    {
      var v :| 0 <= v < |s.workers| && RunsTask(s.workers[v], k);
      assert s'.ran[|s.ran|] == s.workers[w].task;
      assert RunsTask(s'.workers[v], k);
    }
  }

  lemma EndBodyKeeps(s: State, s': State, w: nat)
    requires Inv(s) && EndBody(s, s', w)
    ensures Inv(s')
  {
    Moves(s.workers, w, s'.workers[w]);
    EndOnce(s, s', w);
  }

  lemma RestKeeps(s: State, s': State, w: nat)
    requires Inv(s) && (Exit(s, s', w) || CountTask(s, s', w) || ReleaseWorker(s, s', w)
                        || FallAsleep(s, s', w) || SpuriousWake(s, s', w))
    ensures Inv(s')
  {
    Moves(s.workers, w, s'.workers[w]);
    OnceFrame(s, s');
  }

  lemma CloseKeeps(s: State, s': State)
    requires Inv(s) && (Shutdown(s, s') || CloseQueue(s, s'))
    ensures Inv(s')
  {
    WakeAllMoves(s.workers);
    OnceFrame(s, s');
    assert s.taken + s.dropped + s.queue == s'.taken + s'.dropped + s'.queue;
  }

  lemma JoinKeeps(s: State, s': State)
    requires Inv(s) && (BeginJoin(s, s') || JoinStep(s, s')) && !CloseQueue(s, s')
    ensures Inv(s')
  {
    OnceFrame(s, s');
  }

  lemma StepKeeps(s: State, s': State)
    requires Inv(s) && Next(s, s')
    ensures Inv(s')
  {
    if c :| CallStep(s, s', c) {
      if u :| Put(s, s', c, u) {
        if s.closed {
          RefusedKeeps(s, s', c, u);
        } else {
          PutKeeps(s, s', c, u);
        }
      } else {
        AcquireKeeps(s, s', c);
      }
    } else if w :| WorkerStep(s, s', w) {
      if Take(s, s', w) {
        TakeKeeps(s, s', w);
      } else if EndBody(s, s', w) {
        EndBodyKeeps(s, s', w);
      } else {
        RestKeeps(s, s', w);
      }
    } else if Shutdown(s, s') || CloseQueue(s, s') {
      CloseKeeps(s, s');
    } else {
      JoinKeeps(s, s');
    }
  }

  // ----- Join -----

  /** Every task is in `ran` once, except those that Shutdown dropped, and the executed counter says how many ran. */
  ghost predicate AllRan(s: State) {
    && (forall k :: 0 <= k < s.accepted ==> k in s.ran || k in s.dropped)
    && (forall i, j :: 0 <= i < j < |s.ran| ==> s.ran[i] != s.ran[j])
    && s.executed == |s.ran| == s.accepted - |s.dropped|
  }

  ghost predicate JoinedMeansRan(s: State) {
    s.joiner == Joined && |s.workers| > 0 ==> AllRan(s)
  }

  lemma JoinReturns(s: State)
    requires Inv(s)
    ensures JoinedMeansRan(s)
  {
    if s.joiner == Joined && |s.workers| > 0 {
      assert s.workers[0].Exited?;
      CountNone(s.workers, Uncounted);
      CountNone(s.workers, InBody);
      forall k | 0 <= k < s.accepted ensures k in s.ran || k in s.dropped {
        assert Ids(s.accepted)[k] == k;
        assert k in s.taken + s.dropped + s.queue;
      }
    }
  }

  lemma RunKeeps(run: seq<State>)
    requires Runs.IsRun(Init, Next, run)
    ensures forall i :: 0 <= i < |run| ==> Inv(run[i])
  {
    forall s | Init(s) ensures Inv(s) { InitHolds(s); }
    forall s, s' | Inv(s) && Next(s, s') ensures Inv(s') { StepKeeps(s, s'); }
    Runs.Invariant(Init, Next, Inv, run);
  }

  /** In every state of every run: the counter agrees with the outstanding work, tasks are taken in the order they
      were accepted, no task runs twice, Shutdown leaves a closed and empty queue and only Shutdown drops tasks,
      and what Join guarantees. */
  lemma PoolIsCorrect(run: seq<State>)
    requires Runs.IsRun(Init, Next, run)
    ensures forall i :: 0 <= i < |run| ==>
      && Conserved(run[i])
      && Ids(run[i].accepted) == run[i].taken + run[i].dropped + run[i].queue
      && RunsOnce(run[i])
      && (run[i].shut ==> run[i].closed && run[i].queue == [])
      && (run[i].dropped != [] ==> run[i].shut)
      && JoinedMeansRan(run[i])
  {
    RunKeeps(run);
    forall i | 0 <= i < |run| ensures JoinedMeansRan(run[i]) { JoinReturns(run[i]); }
  }

  // ----- Runs in which all submissions precede Join or come from running tasks -----

  ghost predicate NextTransitive(s: State, s': State) {
    || (exists c :: CallStep(s, s', c) && (s.joiner == NotJoining || c.Inside?))
    || (exists w :: WorkerStep(s, s', w))
    || (BeginJoin(s, s') && forall i :: 0 <= i < |s.outside| ==> s.outside[i] == NoCall)
    || JoinStep(s, s')
  }

  /** Once Join has started the outside is silent, and once it has seen zero so is everybody. */
  ghost predicate Quiet(s: State) {
    && s.refused == 0 && s.dropped == []
    && (s.joiner != NotJoining ==> forall i :: 0 <= i < |s.outside| ==> s.outside[i] == NoCall)
    && (s.joiner == Home || s.joiner == Closing || s.joiner == Joined ==> s.queue == [] && Count(s.workers, Busy) == 0)
    && (s.closed <==> s.joiner == Closing || s.joiner == Joined)
  }

  ghost predicate InvTransitive(s: State) { Inv(s) && Quiet(s) }

  lemma CallQuiet(s: State, s': State, c: Slot)
    requires Quiet(s) && (AcquireWorker(s, s', c) || Compensate(s, s', c)) && (s.joiner == NotJoining || c.Inside?)
    ensures Quiet(s')
  {
    CallMoves(s, c, CallOf(s', c));
    if c.Inside? {
      CountAtLeastOne(s.workers, Busy, c.i);
    }
  }

  lemma PutQuiet(s: State, s': State, c: Slot, u: nat)
    requires Quiet(s) && Put(s, s', c, u) && (s.joiner == NotJoining || c.Inside?)
    ensures Quiet(s')
  {
    if c.Inside? {
      CountAtLeastOne(s.workers, Busy, c.i);
    }
    assert !s.closed;
    PutMoves(s, s', c, u);
  }

  lemma WorkerQuiet(s: State, s': State, w: nat)
    requires Quiet(s) && WorkerStep(s, s', w)
    ensures Quiet(s')
  {
    CountUpdate(s.workers, Busy, w, s'.workers[w]);
  }

  lemma JoinQuiet(s: State, s': State)
    requires Quiet(s) && Conserved(s)
    requires JoinStep(s, s') || (BeginJoin(s, s') && forall i :: 0 <= i < |s.outside| ==> s.outside[i] == NoCall)
    ensures Quiet(s')
  {
    WakeAllMoves(s.workers);
  }

  lemma TransitiveKeeps(s: State, s': State)
    requires InvTransitive(s) && NextTransitive(s, s')
    ensures InvTransitive(s')
  {
    assert Inv(s') by { StepKeeps(s, s'); }
    if c :| CallStep(s, s', c) && (s.joiner == NotJoining || c.Inside?) {
      if u :| Put(s, s', c, u) {
        PutQuiet(s, s', c, u);
      } else {
        CallQuiet(s, s', c);
      }
    } else if w :| WorkerStep(s, s', w) {
      WorkerQuiet(s, s', w);
    } else {
      JoinQuiet(s, s');
    }
  }

  /** Join cannot sleep for ever: while it does, a worker is busy, or is awake in Take with a task to take. */
  ghost predicate JoinNotStuck(s: State) {
    s.joiner == Sleeping && |s.workers| > 0 ==>
      exists w :: 0 <= w < |s.workers| && (Busy(s.workers[w]) || (Looks(s.workers[w]) && s.queue != []))
  }

  lemma SleepingJoin(s: State)
    requires InvTransitive(s)
    ensures JoinNotStuck(s)
  {
    if s.joiner == Sleeping && |s.workers| > 0 {
      CountNone(s.outside, InCall);
      CountMono(s.workers, Calls, Busy);
      if Count(s.workers, Busy) > 0 {
        var w := CountWitness(s.workers, Busy);
      } else {
        assert s.queue != [];
        assert !Busy(s.workers[0]) by { CountZero(s.workers, Busy, 0); }
        if s.workers[0].Asleep? {
          CountAtLeastOne(s.workers, Dozes, 0);
          var w := CountWitness(s.workers, Woken);
        }
      }
    }
  }

  /** Then no submission is refused, nothing is dropped, Join is not stuck, and when it returns every task ever
      submitted, including those submitted by tasks, has run exactly once. */
  lemma TransitiveJoin(run: seq<State>)
    requires Runs.IsRun(Init, NextTransitive, run)
    ensures forall i :: 0 <= i < |run| ==>
      && run[i].refused == 0 && run[i].dropped == []
      && JoinNotStuck(run[i])
      && (run[i].joiner == Joined && |run[i].workers| > 0 ==> AllRan(run[i]))
  {
    forall s | Init(s) ensures InvTransitive(s) { InitHolds(s); CountNone(s.workers, Busy); }
    forall s, s' | InvTransitive(s) && NextTransitive(s, s') ensures InvTransitive(s') { TransitiveKeeps(s, s'); }
    Runs.Invariant(Init, NextTransitive, InvTransitive, run);
    forall i | 0 <= i < |run|
      ensures JoinNotStuck(run[i])
      ensures run[i].joiner == Joined && |run[i].workers| > 0 ==> AllRan(run[i])
    {
      SleepingJoin(run[i]);
      JoinReturns(run[i]);
    }
  }
}
