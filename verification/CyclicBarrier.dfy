/**
 * The cyclic barrier with two alternating counters. Exactly as many threads as participants call Arrive any
 * number of times; the region under the mutex is one step, waiting releases it and sleeps in the same step.
 */
module CyclicBarrier {
  import opened Counting
  import Runs

  datatype PC = Out | Asleep(slot: nat) | Awake(slot: nat)

  /** `entered` and `left` are history: how many Arrive calls the thread has begun and finished. */
  datatype Thread = Thread(pc: PC, entered: nat, left: nat)

  datatype State = State(participants: nat, index: nat, counters: seq<nat>, threads: seq<Thread>)

  ghost predicate Init(s: State) {
    && s.index == 0 && s.counters == [0, 0] && |s.threads| == s.participants
    && forall t :: 0 <= t < |s.threads| ==> s.threads[t] == Thread(Out, 0, 0)
  }

  function WakeAll(ts: seq<Thread>): (r: seq<Thread>)
    ensures |r| == |ts|
    ensures forall t :: 0 <= t < |ts| ==>
      r[t] == if ts[t].pc.Asleep? then ts[t].(pc := Awake(ts[t].pc.slot)) else ts[t]
  {
    if ts == [] then []
    else [if ts[0].pc.Asleep? then ts[0].(pc := Awake(ts[0].pc.slot)) else ts[0]] + WakeAll(ts[1..])
  }

  ghost predicate WellFormed(s: State) { s.index < 2 && |s.counters| == 2 }

  /** Arrive by a thread that is not the last one: its counter is not full, so it sleeps on that counter. */
  ghost predicate ArriveAndWait(s: State, s': State, t: nat) {
    && WellFormed(s) && t < |s.threads| && s.threads[t].pc.Out?
    && s.counters[s.index] + 1 != s.participants
    && var th := s.threads[t];
    && s' == s.(counters := s.counters[s.index := s.counters[s.index] + 1],
                threads := s.threads[t := Thread(Asleep(s.index), th.entered + 1, th.left)])
  }

  /** The last thread of the round switches and resets counters, wakes everybody and returns. */
  ghost predicate ArriveLast(s: State, s': State, t: nat) {
    && WellFormed(s) && t < |s.threads| && s.threads[t].pc.Out?
    && s.counters[s.index] + 1 == s.participants
    && var th := s.threads[t];
    && s' == s.(index := 1 - s.index,
                counters := s.counters[s.index := s.counters[s.index] + 1][1 - s.index := 0],
                threads := WakeAll(s.threads[t := Thread(Out, th.entered + 1, th.left + 1)]))
  }

  /** A woken thread looks at the counter it arrived on. */
  ghost predicate Look(s: State, s': State, t: nat) {
    && WellFormed(s) && t < |s.threads| && s.threads[t].pc.Awake? && s.threads[t].pc.slot < 2
    && var th := s.threads[t];
    && s' == s.(threads := s.threads[t :=
                  if s.counters[th.pc.slot] == s.participants then Thread(Out, th.entered, th.left + 1)
                  else th.(pc := Asleep(th.pc.slot))])
  }

  ghost predicate SpuriousWake(s: State, s': State, t: nat) {
    && t < |s.threads| && s.threads[t].pc.Asleep?
    && s' == s.(threads := s.threads[t := s.threads[t].(pc := Awake(s.threads[t].pc.slot))])
  }

  ghost predicate Next(s: State, s': State) {
    exists t: nat :: ArriveAndWait(s, s', t) || ArriveLast(s, s', t) || Look(s, s', t) || SpuriousWake(s, s', t)
  }

  // ----- Rounds -----

  ghost function HasEntered(round: nat): Thread -> bool {
    (th: Thread) => th.entered > round
  }

  /** Where a thread may be while `round` full rounds are over and the next one is filling up. */
  ghost predicate Placed(s: State, round: nat, th: Thread) {
    match th.pc
    case Out => th.entered == th.left == round
    case Asleep(slot) => th.entered == round + 1 && th.left == round && slot == s.index
    case Awake(slot) =>
      || (th.entered == round + 1 && th.left == round && slot == s.index)
      || (th.entered == round == th.left + 1 && slot == 1 - s.index)
  }

  ghost predicate InvAt(s: State, round: nat) {
    && WellFormed(s) && |s.threads| == s.participants
    && s.index == round % 2
    && s.counters[s.index] == Count(s.threads, HasEntered(round))
    && (s.participants > 0 ==> s.counters[s.index] < s.participants)
    && (round > 0 ==> s.counters[1 - s.index] == s.participants)
    && forall t :: 0 <= t < |s.threads| ==> Placed(s, round, s.threads[t])
  }

  ghost predicate Inv(s: State) { exists round :: InvAt(s, round) }

  lemma InitHolds(s: State)
    requires Init(s)
    ensures InvAt(s, 0)
  {
    CountNone(s.threads, HasEntered(0));
  }

  lemma OwnStepKeeps(s: State, s': State, t: nat, round: nat)
    requires InvAt(s, round) && (ArriveAndWait(s, s', t) || Look(s, s', t) || SpuriousWake(s, s', t))
    ensures InvAt(s', round)
  {
    CountUpdate(s.threads, HasEntered(round), t, s'.threads[t]);
    CountBound(s'.threads, HasEntered(round));
  }

  /** When the last thread arrives everybody else has entered the round and waits on its counter, so nobody is left on
      the counter being reset. */
  lemma LastIsLast(s: State, s': State, t: nat, round: nat)
    requires InvAt(s, round) && ArriveLast(s, s', t)
    ensures forall u :: 0 <= u < |s.threads| && u != t ==>
      s.threads[u].entered == round + 1 && !s.threads[u].pc.Out? && s.threads[u].pc.slot == s.index
  {
    var th := s.threads[t];
    var mid := s.threads[t := Thread(Out, th.entered + 1, th.left + 1)];
    CountUpdate(s.threads, HasEntered(round), t, mid[t]);
    CountAll(mid, HasEntered(round));
    forall u | 0 <= u < |s.threads| && u != t
      ensures s.threads[u].entered == round + 1 && !s.threads[u].pc.Out? && s.threads[u].pc.slot == s.index
    {
      assert HasEntered(round)(mid[u]) && Placed(s, round, s.threads[u]);
    }
  }

  lemma ArriveLastKeeps(s: State, s': State, t: nat, round: nat)
    requires InvAt(s, round) && ArriveLast(s, s', t)
    ensures InvAt(s', round + 1)
  {
    LastIsLast(s, s', t, round);
    forall u | 0 <= u < |s'.threads| ensures Placed(s', round + 1, s'.threads[u]) {
      assert Placed(s, round, s.threads[u]);
    }
    CountNone(s'.threads, HasEntered(round + 1));
  }

  lemma StepKeeps(s: State, s': State)
    requires Inv(s) && Next(s, s')
    ensures Inv(s')
  {
    var round :| InvAt(s, round);
    var t: nat :| ArriveAndWait(s, s', t) || ArriveLast(s, s', t) || Look(s, s', t) || SpuriousWake(s, s', t);
    if ArriveLast(s, s', t) {
      ArriveLastKeeps(s, s', t, round);
    } else {
      OwnStepKeeps(s, s', t, round);
    }
  }

  /** Nobody finishes a round before everybody has entered it, and nobody runs more than one round ahead. */
  ghost predicate InStep(s: State) {
    forall t, u :: 0 <= t < |s.threads| && 0 <= u < |s.threads| ==>
      && s.threads[t].left <= s.threads[u].entered
      && s.threads[t].entered <= s.threads[u].entered + 1
  }

  /** The condition a waiting thread waits for. */
  ghost predicate Released(s: State, th: Thread) {
    && WellFormed(s) && (th.pc.Asleep? || th.pc.Awake?) && th.pc.slot < 2
    && s.counters[th.pc.slot] == s.participants
  }

  /** A released thread is awake; and once all threads are inside Arrive, one of them is released. */
  ghost predicate NotStuck(s: State) {
    && (forall t :: 0 <= t < |s.threads| && Released(s, s.threads[t]) ==> s.threads[t].pc.Awake?)
    && (s.participants > 0 && (forall t :: 0 <= t < |s.threads| ==> !s.threads[t].pc.Out?) ==>
          exists t :: 0 <= t < |s.threads| && Released(s, s.threads[t]))
  }

  lemma InvMeans(s: State)
    requires Inv(s)
    ensures InStep(s) && NotStuck(s)
  {
    var round :| InvAt(s, round);
    assert forall t :: 0 <= t < |s.threads| ==> Placed(s, round, s.threads[t]);
    if s.participants > 0 && forall t :: 0 <= t < |s.threads| ==> !s.threads[t].pc.Out? {
      CountAll(s.threads, HasEntered(round));
      var t :| 0 <= t < |s.threads| && !HasEntered(round)(s.threads[t]);
      assert Released(s, s.threads[t]);
    }
  }

  lemma RunKeeps(run: seq<State>)
    requires Runs.IsRun(Init, Next, run)
    ensures forall i :: 0 <= i < |run| ==> Inv(run[i])
  {
    forall s | Init(s) ensures Inv(s) { InitHolds(s); }
    forall s, s' | Inv(s) && Next(s, s') ensures Inv(s') { StepKeeps(s, s'); }
    Runs.Invariant(Init, Next, Inv, run);
  }

  /** In every state of every run: the threads stay in step, and the barrier is not stuck. */
  lemma BarrierIsCorrect(run: seq<State>)
    requires Runs.IsRun(Init, Next, run)
    ensures forall i :: 0 <= i < |run| ==> InStep(run[i]) && NotStuck(run[i])
  {
    RunKeeps(run);
    forall i | 0 <= i < |run| ensures InStep(run[i]) && NotStuck(run[i]) {
      InvMeans(run[i]);
    }
  }

  /** Although the counters are reused, a condition that has become true for a waiting thread stays true until it leaves. */
  lemma ReleaseIsStable(run: seq<State>, i: nat, t: nat)
    requires Runs.IsRun(Init, Next, run) && i + 1 < |run| && t < |run[i].threads|
    requires Released(run[i], run[i].threads[t])
    ensures |run[i + 1].threads| == |run[i].threads|
    ensures run[i + 1].threads[t].left == run[i].threads[t].left ==> Released(run[i + 1], run[i + 1].threads[t])
  {
    RunKeeps(run);
    var s, s' := run[i], run[i + 1];
    var round :| InvAt(s, round);
    var u: nat :| ArriveAndWait(s, s', u) || ArriveLast(s, s', u) || Look(s, s', u) || SpuriousWake(s, s', u);
    assert Placed(s, round, s.threads[t]);
    if ArriveLast(s, s', u) {
      LastIsLast(s, s', u, round);
    }
  }
}
