/**
 * The counting semaphore: a counter guarded by a mutex, with a condition variable. A region executed
 * under the mutex is one step; waiting releases the mutex and goes to sleep in the same step.
 */
module Semaphore {
  import opened Counting
  import Runs

  datatype PC =
    | Out
    | Entering   // Acquire has been called, before taking the mutex
    | Asleep     // in the condition variable
    | Notified   // woken, has yet to re-acquire the mutex and look again

  /** History: Acquire calls `begun`, permits `acquired` and `released`. */
  datatype State = State(initial: nat, permits: int, pcs: seq<PC>, begun: nat, acquired: nat, released: nat)

  ghost predicate Init(s: State) {
    && s.permits == s.initial && s.begun == 0 && s.acquired == 0 && s.released == 0
    && forall t :: 0 <= t < |s.pcs| ==> s.pcs[t] == Out
  }

  predicate Sleeping(pc: PC) { pc.Asleep? }
  predicate Woken(pc: PC) { pc.Notified? }
  predicate Inside(pc: PC) { !pc.Out? }

  ghost predicate Begin(s: State, s': State, t: nat) {
    && t < |s.pcs| && s.pcs[t].Out?
    && s' == s.(pcs := s.pcs[t := Entering], begun := s.begun + 1)
  }

  /** Thread t holds the mutex and evaluates the predicate: on entering Acquire, or after a wakeup. */
  ghost predicate Look(s: State, s': State, t: nat) {
    && t < |s.pcs| && (s.pcs[t].Entering? || s.pcs[t].Notified?)
    && s' == if s.permits > 0 then s.(permits := s.permits - 1, pcs := s.pcs[t := Out], acquired := s.acquired + 1)
             else s.(pcs := s.pcs[t := Asleep])
  }

  ghost predicate SpuriousWake(s: State, s': State, t: nat) {
    && t < |s.pcs| && s.pcs[t].Asleep?
    && s' == s.(pcs := s.pcs[t := Notified])
  }

  /** Release, by anybody; notify_one wakes some sleeper u if there is one. */
  ghost predicate Release(s: State, s': State, u: nat) {
    var more := s.(permits := s.permits + 1, released := s.released + 1);
    if u < |s.pcs| && s.pcs[u].Asleep?
    then s' == more.(pcs := s.pcs[u := Notified])
    else (forall v :: 0 <= v < |s.pcs| ==> !s.pcs[v].Asleep?) && s' == more
  }

  ghost predicate Next(s: State, s': State) {
    || (exists t: nat :: Begin(s, s', t) || Look(s, s', t) || SpuriousWake(s, s', t))
    || (exists u: nat :: Release(s, s', u))
  }

  ghost predicate Inv(s: State) {
    && s.permits >= 0
    && s.permits + s.acquired == s.initial + s.released
    && s.begun == s.acquired + Count(s.pcs, Inside)
    && (Count(s.pcs, Sleeping) > 0 ==> s.permits <= Count(s.pcs, Woken))
  }

  lemma StepKeeps(s: State, s': State)
    requires Inv(s) && Next(s, s')
    ensures Inv(s')
  {
    if t: nat :| Begin(s, s', t) || Look(s, s', t) || SpuriousWake(s, s', t) {
      CountUpdate(s.pcs, Inside, t, s'.pcs[t]);
      CountUpdate(s.pcs, Sleeping, t, s'.pcs[t]);
      CountUpdate(s.pcs, Woken, t, s'.pcs[t]);
    } else {
      var u: nat :| Release(s, s', u);
      if u < |s.pcs| && s.pcs[u].Asleep? {
        CountUpdate(s.pcs, Sleeping, u, Notified);
        CountUpdate(s.pcs, Woken, u, Notified);
        CountUpdate(s.pcs, Inside, u, Notified);
      } else {
        CountNone(s.pcs, Sleeping);
      }
    }
  }

  /** While any thread sleeps, at least as many wakeups are in flight as permits are available. */
  ghost predicate NoLostWakeup(s: State) {
    (exists t :: 0 <= t < |s.pcs| && s.pcs[t].Asleep?) ==> s.permits <= Count(s.pcs, Woken)
  }

  lemma RunKeeps(run: seq<State>)
    requires Runs.IsRun(Init, Next, run)
    ensures forall i :: 0 <= i < |run| ==> Inv(run[i])
  {
    forall s | Init(s) ensures Inv(s) {
      CountNone(s.pcs, Sleeping);
      CountNone(s.pcs, Inside);
    }
    forall s, s' | Inv(s) && Next(s, s') ensures Inv(s') { StepKeeps(s, s'); }
    Runs.Invariant(Init, Next, Inv, run);
  }

  /** In every state of every run, whoever barges in and whatever wakes up for no reason: permits are conserved and
      never negative, every call of Acquire is still inside or has returned with a permit of its own, and no wakeup is
      lost. */
  lemma SemaphoreIsCorrect(run: seq<State>)
    requires Runs.IsRun(Init, Next, run)
    ensures forall i :: 0 <= i < |run| ==>
      && run[i].permits >= 0
      && run[i].permits + run[i].acquired == run[i].initial + run[i].released
      && run[i].begun == run[i].acquired + Count(run[i].pcs, Inside)
      && NoLostWakeup(run[i])
  {
    RunKeeps(run);
    forall i | 0 <= i < |run| ensures NoLostWakeup(run[i]) {
      if t: nat :| t < |run[i].pcs| && run[i].pcs[t].Asleep? {
        CountAtLeastOne(run[i].pcs, Sleeping, t);
      }
    }
  }

  /** Acquire returns exactly in the step that takes a permit that is there; and Release does nothing but add one. */
  lemma ReturnTakesPermit(run: seq<State>, i: nat)
    requires Runs.IsRun(Init, Next, run) && i + 1 < |run|
    ensures |run[i + 1].pcs| == |run[i].pcs|
    ensures (exists t :: 0 <= t < |run[i].pcs| && Inside(run[i].pcs[t]) && run[i + 1].pcs[t].Out?) <==>
      run[i].permits > 0 && run[i + 1].permits == run[i].permits - 1
    ensures run[i + 1].permits >= run[i].permits ==>
      forall t :: 0 <= t < |run[i].pcs| && Inside(run[i].pcs[t]) ==> Inside(run[i + 1].pcs[t])
  {
    RunKeeps(run);
    var s, s' := run[i], run[i + 1];
    if t: nat :| Look(s, s', t) {
      assert Inside(s.pcs[t]);
    }
  }
}
