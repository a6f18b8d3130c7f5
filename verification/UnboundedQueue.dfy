/**
 * The unbounded blocking queue of the executors: a deque and a `closed_` flag under one mutex, with a
 * condition variable for takers. A region executed under the mutex is one step.
 */
module UnboundedQueue {
  import opened Counting
  import Runs

  type Value = nat

  datatype PC = Out | Entering | Asleep | Notified

  datatype Stop = Never | Closed | Cancelled

  /** History: `accepted` values in the order Put stored them, `taken` values in the order Take returned them,
      `dropped` values in the order Cancel cleared them; `refused` counts the Puts that returned false,
      `begun` the calls of Take and `ended` those that returned no value; `stopped` says whether Close or Cancel has been
      called. */
  datatype State = State(
    buffer: seq<Value>, closed: bool, takers: seq<PC>,
    accepted: seq<Value>, taken: seq<Value>, dropped: seq<Value>, refused: nat, begun: nat, ended: nat, stopped: Stop)

  ghost predicate Init(s: State) {
    && s.buffer == [] && !s.closed
    && (forall t :: 0 <= t < |s.takers| ==> s.takers[t] == Out)
    && s.accepted == [] && s.taken == [] && s.dropped == [] && s.refused == 0 && s.begun == 0 && s.ended == 0 && s.stopped == Never
  }

  predicate Inside(pc: PC) { !pc.Out? }
  predicate Sleeping(pc: PC) { pc.Asleep? }
  predicate Woken(pc: PC) { pc.Notified? }

  /** Put, by anybody; notify_one wakes some sleeper u if there is one. */
  ghost predicate Put(s: State, s': State, v: Value, u: nat) {
    if s.closed then s' == s.(refused := s.refused + 1)
    else
      var more := s.(buffer := s.buffer + [v], accepted := s.accepted + [v]);
      if u < |s.takers| && s.takers[u].Asleep?
      then s' == more.(takers := s.takers[u := Notified])
      else (forall w :: 0 <= w < |s.takers| ==> !s.takers[w].Asleep?) && s' == more
  }

  ghost predicate BeginTake(s: State, s': State, t: nat) {
    && t < |s.takers| && s.takers[t].Out?
    && s' == s.(takers := s.takers[t := Entering], begun := s.begun + 1)
  }

  /** Taker t holds the mutex and evaluates the predicate: on entering Take, or after a wakeup. */
  ghost predicate Look(s: State, s': State, t: nat) {
    && t < |s.takers| && (s.takers[t].Entering? || s.takers[t].Notified?)
    && s' == if s.buffer != [] then
               s.(buffer := s.buffer[1..], taken := s.taken + [s.buffer[0]], takers := s.takers[t := Out])
             else if s.closed then s.(takers := s.takers[t := Out], ended := s.ended + 1)
             else s.(takers := s.takers[t := Asleep])
  }

  ghost predicate SpuriousWake(s: State, s': State, t: nat) {
    && t < |s.takers| && s.takers[t].Asleep?
    && s' == s.(takers := s.takers[t := Notified])
  }

  function WakeAll(pcs: seq<PC>): (r: seq<PC>)
    ensures |r| == |pcs|
    ensures forall t :: 0 <= t < |pcs| ==> r[t] == if pcs[t].Asleep? then Notified else pcs[t]
  {
    if pcs == [] then [] else [if pcs[0].Asleep? then Notified else pcs[0]] + WakeAll(pcs[1..])
  }

  ghost predicate Close(s: State, s': State) {
    s' == s.(closed := true, takers := WakeAll(s.takers), stopped := if s.stopped == Never then Closed else s.stopped)
  }

  ghost predicate Cancel(s: State, s': State) {
    s' == s.(closed := true, takers := WakeAll(s.takers), buffer := [], dropped := s.dropped + s.buffer,
             stopped := Cancelled)
  }

  ghost predicate Next(s: State, s': State) {
    || (exists v, u: nat :: Put(s, s', v, u))
    || (exists t: nat :: BeginTake(s, s', t) || Look(s, s', t) || SpuriousWake(s, s', t))
    || Close(s, s')
    || Cancel(s, s')
  }

  ghost predicate Inv(s: State) {
    && s.accepted == s.taken + s.dropped + s.buffer
    && (s.closed <==> s.stopped != Never)
    && (s.stopped == Cancelled ==> s.buffer == [])
    && (s.dropped != [] ==> s.stopped == Cancelled)
    && (!s.closed ==> s.refused == 0)
    && (s.ended > 0 ==> s.closed && s.buffer == [])
    && s.begun == |s.taken| + s.ended + Count(s.takers, Inside)
    && (if s.closed then Count(s.takers, Sleeping) == 0
        else Count(s.takers, Sleeping) > 0 ==> |s.buffer| <= Count(s.takers, Woken))
  }

  lemma PutKeeps(s: State, s': State, v: Value, u: nat)
    requires Inv(s) && Put(s, s', v, u)
    ensures Inv(s')
  {
    if !s.closed {
      assert s.taken + s.dropped + (s.buffer + [v]) == (s.taken + s.dropped + s.buffer) + [v];
      if u < |s.takers| && s.takers[u].Asleep? {
        CountUpdate(s.takers, Sleeping, u, Notified);
        CountUpdate(s.takers, Woken, u, Notified);
        CountUpdate(s.takers, Inside, u, Notified);
      } else {
        CountNone(s.takers, Sleeping);
      }
    }
  }

  lemma TakeKeeps(s: State, s': State, t: nat)
    requires Inv(s) && (BeginTake(s, s', t) || Look(s, s', t) || SpuriousWake(s, s', t))
    ensures Inv(s')
  {
    CountUpdate(s.takers, Inside, t, s'.takers[t]);
    CountUpdate(s.takers, Sleeping, t, s'.takers[t]);
    CountUpdate(s.takers, Woken, t, s'.takers[t]);
    if Look(s, s', t) && s.buffer != [] {
      assert s.buffer == [s.buffer[0]] + s.buffer[1..];
    } else if SpuriousWake(s, s', t) {
      CountAtLeastOne(s.takers, Sleeping, t);
    }
  }

  lemma CloseKeeps(s: State, s': State)
    requires Inv(s) && (Close(s, s') || Cancel(s, s'))
    ensures Inv(s')
  {
    CountNone(s'.takers, Sleeping);
    CountSame(s.takers, s'.takers, Inside);
    if Cancel(s, s') {
      if s.dropped != [] {
        assert s.dropped + s.buffer == s.dropped;
      }
      assert s.taken + s.dropped + s.buffer == s.taken + (s.dropped + s.buffer) + [];
    }
  }

  lemma StepKeeps(s: State, s': State)
    requires Inv(s) && Next(s, s')
    ensures Inv(s')
  {
    if v, u: nat :| Put(s, s', v, u) {
      PutKeeps(s, s', v, u);
    } else if t: nat :| BeginTake(s, s', t) || Look(s, s', t) || SpuriousWake(s, s', t) {
      TakeKeeps(s, s', t);
    } else {
      CloseKeeps(s, s');
    }
  }

  /** An open queue with a sleeping taker has at least as many wakeups in flight as values; a closed queue has no sleeper. */
  ghost predicate NoLostWakeup(s: State) {
    (exists t :: 0 <= t < |s.takers| && s.takers[t].Asleep?) ==> !s.closed && |s.buffer| <= Count(s.takers, Woken)
  }

  lemma RunKeeps(run: seq<State>)
    requires Runs.IsRun(Init, Next, run)
    ensures forall i :: 0 <= i < |run| ==> Inv(run[i])
  {
    forall s | Init(s) ensures Inv(s) {
      CountNone(s.takers, Sleeping);
      CountNone(s.takers, Inside);
    }
    forall s, s' | Inv(s) && Next(s, s') ensures Inv(s') { StepKeeps(s, s'); }
    Runs.Invariant(Init, Next, Inv, run);
  }

  /** In every state of every run: values leave in the order they were accepted, the queue is closed exactly after Close
      or Cancel, nothing is left after Cancel and only Cancel drops values, Put refuses only after a close, every
      call of Take is inside, has returned a value, or has given up; the latter only after a close and when no value is
      left, and no wakeup is lost. */
  lemma QueueIsCorrect(run: seq<State>)
    requires Runs.IsRun(Init, Next, run)
    ensures forall i :: 0 <= i < |run| ==>
      && run[i].accepted == run[i].taken + run[i].dropped + run[i].buffer
      && (run[i].closed <==> run[i].stopped != Never)
      && (run[i].stopped == Cancelled ==> run[i].buffer == [])
      && (run[i].dropped != [] ==> run[i].stopped == Cancelled)
      && (run[i].refused > 0 ==> run[i].closed)
      && run[i].begun == |run[i].taken| + run[i].ended + Count(run[i].takers, Inside)
      && (run[i].ended > 0 ==> run[i].closed && run[i].buffer == [])
      && NoLostWakeup(run[i])
  {
    RunKeeps(run);
    forall i | 0 <= i < |run| ensures NoLostWakeup(run[i]) {
      if t: nat :| t < |run[i].takers| && run[i].takers[t].Asleep? {
        CountAtLeastOne(run[i].takers, Sleeping, t);
      }
    }
  }

  /** What consecutive states of a run show: a Take gives up only on a closed and empty queue, and otherwise returns the
      oldest value; Put stores its argument behind all others exactly when the queue is open; and values are lost only
      in a step that empties the queue and leaves it closed. */
  lemma StepsMean(run: seq<State>, i: nat)
    requires Runs.IsRun(Init, Next, run) && i + 1 < |run|
    ensures var s, s' := run[i], run[i + 1];
      && (s'.ended > s.ended ==> s.closed && s.buffer == [])
      && (s'.taken != s.taken ==> s.buffer != [] && s'.taken == s.taken + [s.buffer[0]])
      && (s'.dropped != s.dropped ==> s'.closed && s'.buffer == [])
      && (s'.accepted != s.accepted ==> !s.closed)
  {}

  lemma PutMeans(s: State, s': State, v: Value, u: nat)
    requires Put(s, s', v, u)
    ensures if s.closed then s'.refused > s.refused && s'.accepted == s.accepted
            else s'.accepted == s.accepted + [v] && s'.refused == s.refused
  {}

  /** Steps other than Cancel. */
  ghost predicate Keeping(s: State, s': State) {
    || (exists v, u: nat :: Put(s, s', v, u))
    || (exists t: nat :: BeginTake(s, s', t) || Look(s, s', t) || SpuriousWake(s, s', t))
    || Close(s, s')
  }

  ghost predicate KeepsAll(s: State) { Inv(s) && s.dropped == [] }

  /** Close without Cancel loses nothing: accepted values are taken or still there, and once a Take has given up, every
      accepted value has been taken. */
  lemma CloseLosesNothing(run: seq<State>)
    requires Runs.IsRun(Init, Keeping, run)
    ensures forall i :: 0 <= i < |run| ==>
      && run[i].accepted == run[i].taken + run[i].buffer
      && (run[i].ended > 0 ==> run[i].taken == run[i].accepted)
  {
    forall s | Init(s) ensures KeepsAll(s) { RunKeeps([s]); }
    forall s, s' | KeepsAll(s) && Keeping(s, s') ensures KeepsAll(s') { StepKeeps(s, s'); }
    Runs.Invariant(Init, Keeping, KeepsAll, run);
  }
}
