/**
 * The futex-style mutex: `state_` is one atomic word, `waiting_counter_` counts the threads that
 * went past the first exchange. Any number of threads call Lock and Unlock any number of times;
 * every atomic operation is one step.
 */
module Mutex {
  import opened Counting
  import Runs

  datatype PC =
    | Out           // not inside the mutex
    | Announcing    // first exchange failed, before fetch_add
    | Waiting       // about to evaluate `wait`: sleep if the word still says LOCKED
    | Asleep        // blocked in `wait`
    | Retrying      // `wait` returned, before the exchange of the loop
    | Retracting    // the exchange won the lock, before fetch_sub
    | Holding       // Lock has returned
    | Unlocking     // stored UNLOCKED, before reading the counter
    | Notifying     // read a positive counter, before notify_one

  datatype State = State(locked: bool, waiters: int, pcs: seq<PC>)

  ghost predicate Init(s: State) {
    && !s.locked
    && s.waiters == 0
    && forall t :: 0 <= t < |s.pcs| ==> s.pcs[t] == Out
  }

  predicate Owner(pc: PC) { pc.Holding? || pc.Retracting? }
  predicate Slow(pc: PC) { pc.Waiting? || pc.Asleep? || pc.Retrying? || pc.Retracting? }
  predicate Sleeping(pc: PC) { pc.Asleep? }
  predicate AwakeWaiter(pc: PC) { pc.Waiting? || pc.Retrying? }
  predicate Releasing(pc: PC) { pc.Unlocking? || pc.Notifying? }

  // Steps of thread t, in the order of the code.

  ghost predicate FirstExchange(s: State, s': State, t: nat) {
    && t < |s.pcs| && s.pcs[t].Out?
    && s' == s.(locked := true, pcs := s.pcs[t := if s.locked then Announcing else Holding])
  }

  ghost predicate FetchAdd(s: State, s': State, t: nat) {
    && t < |s.pcs| && s.pcs[t].Announcing?
    && s' == s.(waiters := s.waiters + 1, pcs := s.pcs[t := Waiting])
  }

  /** Comparing the word with LOCKED and going to sleep is one atomic step. */
  ghost predicate Wait(s: State, s': State, t: nat) {
    && t < |s.pcs| && s.pcs[t].Waiting?
    && s' == s.(pcs := s.pcs[t := if s.locked then Asleep else Retrying])
  }

  /** A sleeper may also be woken for no reason; it compares the word again. */
  ghost predicate SpuriousWake(s: State, s': State, t: nat) {
    && t < |s.pcs| && s.pcs[t].Asleep?
    && s' == s.(pcs := s.pcs[t := Waiting])
  }

  ghost predicate RetryExchange(s: State, s': State, t: nat) {
    && t < |s.pcs| && s.pcs[t].Retrying?
    && s' == s.(locked := true, pcs := s.pcs[t := if s.locked then Waiting else Retracting])
  }

  ghost predicate FetchSub(s: State, s': State, t: nat) {
    && t < |s.pcs| && s.pcs[t].Retracting?
    && s' == s.(waiters := s.waiters - 1, pcs := s.pcs[t := Holding])
  }

  ghost predicate StoreUnlocked(s: State, s': State, t: nat) {
    && t < |s.pcs| && s.pcs[t].Holding?
    && s' == s.(locked := false, pcs := s.pcs[t := Unlocking])
  }

  ghost predicate ReadCounter(s: State, s': State, t: nat) {
    && t < |s.pcs| && s.pcs[t].Unlocking?
    && s' == s.(pcs := s.pcs[t := if s.waiters > 0 then Notifying else Out])
  }

  /** notify_one wakes some sleeper `u` if there is one. */
  ghost predicate NotifyOne(s: State, s': State, t: nat, u: nat) {
    && t < |s.pcs| && s.pcs[t].Notifying?
    && if u < |s.pcs| && s.pcs[u].Asleep?
       then s' == s.(pcs := s.pcs[t := Out][u := Waiting])
       else (forall v :: 0 <= v < |s.pcs| ==> !s.pcs[v].Asleep?) && s' == s.(pcs := s.pcs[t := Out])
  }

  ghost predicate OwnStep(s: State, s': State, t: nat) {
    || FirstExchange(s, s', t) || FetchAdd(s, s', t) || Wait(s, s', t) || SpuriousWake(s, s', t)
    || RetryExchange(s, s', t) || FetchSub(s, s', t) || StoreUnlocked(s, s', t) || ReadCounter(s, s', t)
  }

  ghost predicate Next(s: State, s': State) {
    || (exists t: nat :: OwnStep(s, s', t))
    || (exists t: nat, u: nat :: NotifyOne(s, s', t, u))
  }

  ghost predicate Inv(s: State) {
    && Count(s.pcs, Owner) == One(s.locked)
    && Count(s.pcs, Slow) == s.waiters
    && (!s.locked && Count(s.pcs, Sleeping) > 0 ==> Count(s.pcs, Releasing) + Count(s.pcs, AwakeWaiter) > 0)
  }

  lemma Moves(pcs: seq<PC>, t: nat, pc: PC)
    requires t < |pcs|
    ensures var q := pcs[t := pc];
      && Count(q, Owner) == Count(pcs, Owner) - One(Owner(pcs[t])) + One(Owner(pc))
      && Count(q, Slow) == Count(pcs, Slow) - One(Slow(pcs[t])) + One(Slow(pc))
      && Count(q, Sleeping) == Count(pcs, Sleeping) - One(Sleeping(pcs[t])) + One(Sleeping(pc))
      && Count(q, Releasing) == Count(pcs, Releasing) - One(Releasing(pcs[t])) + One(Releasing(pc))
      && Count(q, AwakeWaiter) == Count(pcs, AwakeWaiter) - One(AwakeWaiter(pcs[t])) + One(AwakeWaiter(pc))
  {
    CountUpdate(pcs, Owner, t, pc);
    CountUpdate(pcs, Slow, t, pc);
    CountUpdate(pcs, Sleeping, t, pc);
    CountUpdate(pcs, Releasing, t, pc);
    CountUpdate(pcs, AwakeWaiter, t, pc);
  }

  lemma OwnStepKeeps(s: State, s': State, t: nat)
    requires Inv(s) && OwnStep(s, s', t)
    ensures Inv(s')
  {
    Moves(s.pcs, t, s'.pcs[t]);
    CountMono(s.pcs, Sleeping, Slow);
    assert s'.pcs == s.pcs[t := s'.pcs[t]];
  }

  lemma NotifyKeeps(s: State, s': State, t: nat, u: nat)
    requires Inv(s) && NotifyOne(s, s', t, u)
    ensures Inv(s')
  {
    Moves(s.pcs, t, Out);
    if u < |s.pcs| && s.pcs[u].Asleep? {
      Moves(s.pcs[t := Out], u, Waiting);
    } else {
      CountNone(s.pcs, Sleeping);
    }
  }

  lemma StepKeeps(s: State, s': State)
    requires Inv(s) && Next(s, s')
    ensures Inv(s')
  {
    if t: nat :| OwnStep(s, s', t) {
      OwnStepKeeps(s, s', t);
    } else {
      var t: nat, u: nat :| NotifyOne(s, s', t, u);
      NotifyKeeps(s, s', t, u);
    }
  }

  /** Two different threads never own the lock at once. */
  ghost predicate Exclusive(s: State) {
    forall t, u :: 0 <= t < |s.pcs| && 0 <= u < |s.pcs| && Owner(s.pcs[t]) && Owner(s.pcs[u]) ==> t == u
  }

  /** A free lock with a sleeper: an unlocker has yet to notify, or a waiter is awake and has yet to exchange. */
  ghost predicate NoLostWakeup(s: State) {
    !s.locked && (exists t :: 0 <= t < |s.pcs| && s.pcs[t].Asleep?) ==>
      exists u :: 0 <= u < |s.pcs| && (Releasing(s.pcs[u]) || AwakeWaiter(s.pcs[u]))
  }

  /** Some thread that is not merely waiting for a notification can act whenever a thread sleeps. */
  ghost predicate NotStuck(s: State) {
    (exists t :: 0 <= t < |s.pcs| && s.pcs[t].Asleep?) ==>
      exists u :: 0 <= u < |s.pcs| && !s.pcs[u].Asleep? && !s.pcs[u].Out?
  }

  lemma InvMeans(s: State)
    requires Inv(s)
    ensures Exclusive(s) && NoLostWakeup(s) && NotStuck(s)
    ensures s.locked <==> exists t :: 0 <= t < |s.pcs| && Owner(s.pcs[t])
  {
    forall t: nat, u: nat | t < |s.pcs| && u < |s.pcs| && Owner(s.pcs[t]) && Owner(s.pcs[u]) ensures t == u {
      CountUnique(s.pcs, Owner, t, u);
    }
    if t: nat :| t < |s.pcs| && Owner(s.pcs[t]) {
      CountAtLeastOne(s.pcs, Owner, t);
    }
    if s.locked {
      var o := CountWitness(s.pcs, Owner);
    }
    if t: nat :| !s.locked && t < |s.pcs| && s.pcs[t].Asleep? {
      CountAtLeastOne(s.pcs, Sleeping, t);
      if Count(s.pcs, Releasing) > 0 {
        var r := CountWitness(s.pcs, Releasing);
      } else {
        var w := CountWitness(s.pcs, AwakeWaiter);
      }
    }
  }

  /** In every state of every run: mutual exclusion, an exact waiter count, and no lost wakeup. */
  lemma MutexIsCorrect(run: seq<State>)
    requires Runs.IsRun(Init, Next, run)
    ensures forall i :: 0 <= i < |run| ==>
      && Exclusive(run[i])
      && (run[i].locked <==> exists t :: 0 <= t < |run[i].pcs| && Owner(run[i].pcs[t]))
      && run[i].waiters == Count(run[i].pcs, Slow)
      && NoLostWakeup(run[i])
      && NotStuck(run[i])
  {
    forall s | Init(s) ensures Inv(s) {
      CountNone(s.pcs, Owner);
      CountNone(s.pcs, Slow);
      CountNone(s.pcs, Sleeping);
    }
    forall s, s' | Inv(s) && Next(s, s') ensures Inv(s') { StepKeeps(s, s'); }
    Runs.Invariant(Init, Next, Inv, run);
    forall i | 0 <= i < |run| ensures
      && Exclusive(run[i])
      && (run[i].locked <==> exists t :: 0 <= t < |run[i].pcs| && Owner(run[i].pcs[t]))
      && run[i].waiters == Count(run[i].pcs, Slow)
      && NoLostWakeup(run[i]) && NotStuck(run[i])
    {
      InvMeans(run[i]);
    }
  }

  /** Inside Lock, past a first exchange that met a held lock. */
  predicate InLock(pc: PC) { pc.Announcing? || Slow(pc) }

  /** Of thread t: a Lock that met a held lock ends only by getting the lock, tries again only when it has seen the lock
      free, and gets a lock that is free; and only Unlock ends outside. */
  ghost predicate LockEnds(s: State, s': State, t: nat)
    requires t < |s.pcs| == |s'.pcs|
  {
    var pc, pc' := s.pcs[t], s'.pcs[t];
    && (InLock(pc) ==> InLock(pc') || pc'.Holding?)
    && (pc'.Retrying? && !pc.Retrying? ==> !s.locked)
    && (Owner(pc') && !Owner(pc) ==> !s.locked)
    && (pc.Out? && !pc'.Out? ==> if s.locked then InLock(pc') else pc'.Holding?)
    && (pc'.Out? && !pc.Out? ==> Releasing(pc))
  }

  /** Unlock notifies if and only if it has read that somebody is in the slow path. */
  ghost predicate UnlockEnds(s: State, s': State, t: nat)
    requires t < |s.pcs| == |s'.pcs|
  {
    s.pcs[t].Unlocking? && !s'.pcs[t].Unlocking? ==>
      if s.waiters > 0 then s'.pcs[t].Notifying? else s'.pcs[t].Out?
  }

  lemma OwnStepEnds(s: State, s': State, x: nat, t: nat)
    requires OwnStep(s, s', x) && t < |s.pcs| == |s'.pcs|
    ensures LockEnds(s, s', t) && UnlockEnds(s, s', t)
  {
    assert s'.pcs == s.pcs[x := s'.pcs[x]];
  }

  lemma LockEndsHolding(run: seq<State>, i: nat, t: nat)
    requires Runs.IsRun(Init, Next, run) && i + 1 < |run| && t < |run[i].pcs|
    ensures |run[i + 1].pcs| == |run[i].pcs| && LockEnds(run[i], run[i + 1], t) && UnlockEnds(run[i], run[i + 1], t)
  {
    var s, s' := run[i], run[i + 1];
    if x: nat :| OwnStep(s, s', x) {
      OwnStepEnds(s, s', x, t);
    } else {
      var x: nat, u: nat :| NotifyOne(s, s', x, u);
    }
  }
}
