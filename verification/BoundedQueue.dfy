/**
 * The bounded blocking queue built from three semaphores: free slots, items, and a one-permit door in
 * front of the deque. Each semaphore is the mutex-and-condition-variable one, so threads really go to sleep and
 * are really notified; a region under a semaphore's mutex is one step.
 */
module BoundedQueue {
  import opened Counting
  import Runs

  type Value = nat

  datatype Role = Producer(value: Value) | Consumer
  datatype Wait = Ready | Asleep | Notified

  datatype PC =
    | Out
    | AtGate(role: Role, wait: Wait)   // acquiring a free slot (Put) or an item (Take)
    | AtDoor(role: Role, wait: Wait)   // acquiring the door
    | Inside(role: Role)               // before touching the deque
    | Leaving(role: Role)              // before releasing the door
    | Closing(role: Role)              // before releasing an item (Put) or a free slot (Take)

  /** History: `asked` are the arguments of the calls of Put, `put` the values in the order they entered the deque, `got`
      in the order they left it. */
  datatype State = State(
    capacity: nat, slots: int, items: int, door: int, buffer: seq<Value>, pcs: seq<PC>,
    asked: seq<Value>, put: seq<Value>, got: seq<Value>)

  ghost predicate Init(s: State) {
    && s.slots == s.capacity && s.items == 0 && s.door == 1
    && s.buffer == [] && s.asked == [] && s.put == [] && s.got == []
    && forall t :: 0 <= t < |s.pcs| ==> s.pcs[t] == Out
  }

  // ----- Steps of thread t -----

  ghost predicate Begin(s: State, s': State, t: nat, role: Role) {
    && t < |s.pcs| && s.pcs[t].Out?
    && s' == s.(pcs := s.pcs[t := AtGate(role, Ready)],
                asked := if role.Producer? then s.asked + [role.value] else s.asked)
  }

  ghost predicate LookAtGate(s: State, s': State, t: nat) {
    && t < |s.pcs| && s.pcs[t].AtGate? && !s.pcs[t].wait.Asleep?
    && var role := s.pcs[t].role;
    && s' == if role.Producer? && s.slots > 0 then s.(slots := s.slots - 1, pcs := s.pcs[t := AtDoor(role, Ready)])
             else if role.Consumer? && s.items > 0 then s.(items := s.items - 1, pcs := s.pcs[t := AtDoor(role, Ready)])
             else s.(pcs := s.pcs[t := AtGate(role, Asleep)])
  }

  ghost predicate LookAtDoor(s: State, s': State, t: nat) {
    && t < |s.pcs| && s.pcs[t].AtDoor? && !s.pcs[t].wait.Asleep?
    && var role := s.pcs[t].role;
    && s' == if s.door > 0 then s.(door := s.door - 1, pcs := s.pcs[t := Inside(role)])
             else s.(pcs := s.pcs[t := AtDoor(role, Asleep)])
  }

  ghost predicate SpuriousWake(s: State, s': State, t: nat) {
    && t < |s.pcs| && Blocked(s.pcs[t])
    && s' == s.(pcs := s.pcs[t := s.pcs[t].(wait := Notified)])
  }

  ghost predicate Push(s: State, s': State, t: nat) {
    && t < |s.pcs| && s.pcs[t].Inside? && s.pcs[t].role.Producer?
    && var v := s.pcs[t].role.value;
    && s' == s.(buffer := s.buffer + [v], put := s.put + [v], pcs := s.pcs[t := Leaving(s.pcs[t].role)])
  }

  ghost predicate Pop(s: State, s': State, t: nat) {
    && t < |s.pcs| && s.pcs[t].Inside? && s.pcs[t].role.Consumer? && s.buffer != []
    && s' == s.(buffer := s.buffer[1..], got := s.got + [s.buffer[0]], pcs := s.pcs[t := Leaving(Consumer)])
  }

  /** notify_one on a condition variable whose sleepers are the threads satisfying p: wakes one of them, u, if any. */
  ghost predicate NotifyOne(pcs: seq<PC>, pcs': seq<PC>, p: PC -> bool, u: nat) {
    if u < |pcs| && p(pcs[u]) then
      (pcs[u].AtGate? || pcs[u].AtDoor?) && pcs' == pcs[u := pcs[u].(wait := Notified)]
    else (forall w :: 0 <= w < |pcs| ==> !p(pcs[w])) && pcs' == pcs
  }

  ghost predicate ReleaseDoor(s: State, s': State, t: nat, u: nat) {
    && t < |s.pcs| && s.pcs[t].Leaving?
    && s' == s.(door := s.door + 1, pcs := s'.pcs)
    && NotifyOne(s.pcs[t := Closing(s.pcs[t].role)], s'.pcs, DoorSleeper, u)
  }

  ghost predicate ReleaseItem(s: State, s': State, t: nat, u: nat) {
    && t < |s.pcs| && s.pcs[t].Closing? && s.pcs[t].role.Producer?
    && s' == s.(items := s.items + 1, pcs := s'.pcs)
    && NotifyOne(s.pcs[t := Out], s'.pcs, ItemSleeper, u)
  }

  ghost predicate ReleaseSlot(s: State, s': State, t: nat, u: nat) {
    && t < |s.pcs| && s.pcs[t].Closing? && s.pcs[t].role.Consumer?
    && s' == s.(slots := s.slots + 1, pcs := s'.pcs)
    && NotifyOne(s.pcs[t := Out], s'.pcs, SlotSleeper, u)
  }

  ghost predicate OwnStep(s: State, s': State, t: nat) {
    || (exists role :: Begin(s, s', t, role))
    || LookAtGate(s, s', t) || LookAtDoor(s, s', t) || SpuriousWake(s, s', t)
    || Push(s, s', t) || Pop(s, s', t)
  }

  ghost predicate ReleaseStep(s: State, s': State, t: nat, u: nat) {
    ReleaseDoor(s, s', t, u) || ReleaseItem(s, s', t, u) || ReleaseSlot(s, s', t, u)
  }

  ghost predicate Next(s: State, s': State) {
    || (exists t: nat :: OwnStep(s, s', t))
    || (exists t: nat, u: nat :: ReleaseStep(s, s', t, u))
  }

  // ----- Where threads are -----

  predicate Blocked(pc: PC) { (pc.AtGate? || pc.AtDoor?) && pc.wait.Asleep? }
  predicate SlotSleeper(pc: PC) { pc.AtGate? && pc.role.Producer? && pc.wait.Asleep? }
  predicate SlotWoken(pc: PC) { pc.AtGate? && pc.role.Producer? && pc.wait.Notified? }
  predicate ItemSleeper(pc: PC) { pc.AtGate? && pc.role.Consumer? && pc.wait.Asleep? }
  predicate ItemWoken(pc: PC) { pc.AtGate? && pc.role.Consumer? && pc.wait.Notified? }
  predicate DoorSleeper(pc: PC) { pc.AtDoor? && pc.wait.Asleep? }
  predicate DoorWoken(pc: PC) { pc.AtDoor? && pc.wait.Notified? }
  /** Past its gate and not yet at the end. */
  predicate InFlight(pc: PC) { pc.AtDoor? || pc.Inside? || pc.Leaving? || pc.Closing? }
  predicate InsideDoor(pc: PC) { pc.Inside? || pc.Leaving? }
  /** A value is in the deque for this thread: it has pushed it and not yet published it, or has claimed it and not popped it. */
  predicate Claims(pc: PC) {
    || ((pc.Leaving? || pc.Closing?) && pc.role.Producer?)
    || ((pc.AtDoor? || pc.Inside?) && pc.role.Consumer?)
  }

  ghost predicate Conservation(s: State) {
    && s.slots >= 0 && s.items >= 0 && s.door >= 0
    && s.slots + s.items + Count(s.pcs, InFlight) == s.capacity
    && |s.buffer| == s.items + Count(s.pcs, Claims)
    && s.door + Count(s.pcs, InsideDoor) == 1
  }

  ghost predicate Wakeups(s: State) {
    && (Count(s.pcs, SlotSleeper) > 0 ==> s.slots <= Count(s.pcs, SlotWoken))
    && (Count(s.pcs, ItemSleeper) > 0 ==> s.items <= Count(s.pcs, ItemWoken))
    && (Count(s.pcs, DoorSleeper) > 0 ==> s.door <= Count(s.pcs, DoorWoken))
  }

  ghost predicate Inv(s: State) {
    && Conservation(s)
    && Wakeups(s)
    && s.put == s.got + s.buffer
  }

  lemma MovesFlight(pcs: seq<PC>, t: nat, pc: PC)
    requires t < |pcs|
    ensures var q := pcs[t := pc];
      && Count(q, InFlight) == Count(pcs, InFlight) - One(InFlight(pcs[t])) + One(InFlight(pc))
      && Count(q, InsideDoor) == Count(pcs, InsideDoor) - One(InsideDoor(pcs[t])) + One(InsideDoor(pc))
      && Count(q, Claims) == Count(pcs, Claims) - One(Claims(pcs[t])) + One(Claims(pc))
  {
    CountUpdate(pcs, InFlight, t, pc);
    CountUpdate(pcs, InsideDoor, t, pc);
    CountUpdate(pcs, Claims, t, pc);
  }

  lemma MovesSleep(pcs: seq<PC>, t: nat, pc: PC)
    requires t < |pcs|
    ensures var q := pcs[t := pc];
      && Count(q, SlotSleeper) == Count(pcs, SlotSleeper) - One(SlotSleeper(pcs[t])) + One(SlotSleeper(pc))
      && Count(q, SlotWoken) == Count(pcs, SlotWoken) - One(SlotWoken(pcs[t])) + One(SlotWoken(pc))
      && Count(q, ItemSleeper) == Count(pcs, ItemSleeper) - One(ItemSleeper(pcs[t])) + One(ItemSleeper(pc))
      && Count(q, ItemWoken) == Count(pcs, ItemWoken) - One(ItemWoken(pcs[t])) + One(ItemWoken(pc))
      && Count(q, DoorSleeper) == Count(pcs, DoorSleeper) - One(DoorSleeper(pcs[t])) + One(DoorSleeper(pc))
      && Count(q, DoorWoken) == Count(pcs, DoorWoken) - One(DoorWoken(pcs[t])) + One(DoorWoken(pc))
  {
    CountUpdate(pcs, SlotSleeper, t, pc);
    CountUpdate(pcs, SlotWoken, t, pc);
    CountUpdate(pcs, ItemSleeper, t, pc);
    CountUpdate(pcs, ItemWoken, t, pc);
    CountUpdate(pcs, DoorSleeper, t, pc);
    CountUpdate(pcs, DoorWoken, t, pc);
  }

  lemma LookKeeps(s: State, s': State, t: nat)
    requires Inv(s) && (LookAtGate(s, s', t) || LookAtDoor(s, s', t))
    ensures Inv(s')
  {
    MovesFlight(s.pcs, t, s'.pcs[t]);
    MovesSleep(s.pcs, t, s'.pcs[t]);
  }

  lemma DequeKeeps(s: State, s': State, t: nat)
    requires Inv(s) && (Push(s, s', t) || Pop(s, s', t))
    ensures Inv(s')
  {
    MovesFlight(s.pcs, t, s'.pcs[t]);
    MovesSleep(s.pcs, t, s'.pcs[t]);
    if Pop(s, s', t) {
      assert s.buffer == [s.buffer[0]] + s.buffer[1..];
    }
  }

  lemma WaitKeeps(s: State, s': State, t: nat)
    requires Inv(s) && (SpuriousWake(s, s', t) || exists role :: Begin(s, s', t, role))
    ensures Inv(s')
  {
    MovesFlight(s.pcs, t, s'.pcs[t]);
    MovesSleep(s.pcs, t, s'.pcs[t]);
  }

  lemma ReleaseStepKeeps(s: State, s': State, t: nat, u: nat)
    requires Inv(s) && ReleaseStep(s, s', t, u)
    ensures Inv(s')
  {
    var mid := if s.pcs[t].Leaving? then s.pcs[t := Closing(s.pcs[t].role)] else s.pcs[t := Out];
    MovesFlight(s.pcs, t, mid[t]);
    MovesSleep(s.pcs, t, mid[t]);
    if s'.pcs != mid {
      MovesFlight(mid, u, s'.pcs[u]);
      MovesSleep(mid, u, s'.pcs[u]);
    } else if s.pcs[t].Leaving? {
      CountNone(mid, DoorSleeper);
    } else if s.pcs[t].role.Producer? {
      CountNone(mid, ItemSleeper);
    } else {
      CountNone(mid, SlotSleeper);
    }
  }

  // ----- Whose value enters -----

  ghost function Is(v: Value): Value -> bool { (x: Value) => x == v }

  /** In a Put of v, before the push. */
  ghost function Carries(v: Value): PC -> bool {
    (pc: PC) => (pc.AtGate? || pc.AtDoor? || pc.Inside?) && pc.role == Producer(v)
  }

  /** Every value has entered the deque as often as Put was called with it, but for the calls on their way. */
  ghost predicate ValuesAgree(s: State) {
    forall v :: Brings(s, v)
  }

  ghost predicate Brings(s: State, v: Value) {
    Count(s.asked, Is(v)) == Count(s.put, Is(v)) + Count(s.pcs, Carries(v))
  }

  lemma OwnStepBrings(s: State, s': State, t: nat, v: Value)
    requires Brings(s, v) && OwnStep(s, s', t)
    ensures Brings(s', v)
  {
    CountUpdate(s.pcs, Carries(v), t, s'.pcs[t]);
    if Push(s, s', t) {
      CountAppend(s.put, Is(v), s.pcs[t].role.value);
    } else if s.pcs[t].Out? && s'.pcs[t].role.Producer? {
      CountAppend(s.asked, Is(v), s'.pcs[t].role.value);
    }
  }

  lemma ReleaseStepBrings(s: State, s': State, t: nat, u: nat, v: Value)
    requires Brings(s, v) && ReleaseStep(s, s', t, u)
    ensures Brings(s', v)
  {
    var mid := if s.pcs[t].Leaving? then s.pcs[t := Closing(s.pcs[t].role)] else s.pcs[t := Out];
    CountUpdate(s.pcs, Carries(v), t, mid[t]);
    if s'.pcs != mid {
      CountUpdate(mid, Carries(v), u, s'.pcs[u]);
    }
  }

  lemma ValuesKeep(run: seq<State>)
    requires Runs.IsRun(Init, Next, run)
    ensures forall i :: 0 <= i < |run| ==> ValuesAgree(run[i])
  {
    forall s, v | Init(s) ensures Brings(s, v) { CountNone(s.pcs, Carries(v)); }
    forall s, s', v | ValuesAgree(s) && Next(s, s') ensures Brings(s', v) {
      assert Brings(s, v);
      if t: nat :| OwnStep(s, s', t) {
        OwnStepBrings(s, s', t, v);
      } else {
        var t: nat, u: nat :| ReleaseStep(s, s', t, u);
        ReleaseStepBrings(s, s', t, u, v);
      }
    }
    Runs.Invariant(Init, Next, ValuesAgree, run);
  }

  /** No thread can act on its own: each is outside or asleep in a condition variable. */
  ghost predicate Quiescent(s: State) {
    forall t :: 0 <= t < |s.pcs| ==> s.pcs[t].Out? || Blocked(s.pcs[t])
  }

  /** Threads are stuck only for the reason the queue exists: producers on a full queue, consumers on an empty one. */
  ghost predicate StuckOnlyByBounds(s: State) {
    Quiescent(s) ==>
      forall t :: 0 <= t < |s.pcs| && Blocked(s.pcs[t]) ==>
        && s.pcs[t].AtGate?
        && (s.pcs[t].role.Producer? ==> |s.buffer| == s.capacity)
        && (s.pcs[t].role.Consumer? ==> s.buffer == [])
  }

  lemma QuietCounts(s: State)
    requires Quiescent(s)
    ensures Count(s.pcs, SlotWoken) == Count(s.pcs, ItemWoken) == Count(s.pcs, DoorWoken) == 0
    ensures Count(s.pcs, InsideDoor) == 0
  {
    CountNone(s.pcs, SlotWoken);
    CountNone(s.pcs, ItemWoken);
    CountNone(s.pcs, DoorWoken);
    CountNone(s.pcs, InsideDoor);
  }

  lemma NotStuck(s: State)
    requires Inv(s)
    ensures StuckOnlyByBounds(s)
  {
    if Quiescent(s) {
      QuietCounts(s);
      if t: nat :| t < |s.pcs| && DoorSleeper(s.pcs[t]) {
        CountAtLeastOne(s.pcs, DoorSleeper, t);
        assert false;
      }
      assert Count(s.pcs, InFlight) == 0 by { CountNone(s.pcs, InFlight); }
      assert Count(s.pcs, Claims) == 0 by { CountNone(s.pcs, Claims); }
      forall t: nat | t < |s.pcs| && Blocked(s.pcs[t])
        ensures s.pcs[t].AtGate?
        ensures s.pcs[t].role.Producer? ==> |s.buffer| == s.capacity
        ensures s.pcs[t].role.Consumer? ==> s.buffer == []
      {
        if s.pcs[t].role.Producer? {
          CountAtLeastOne(s.pcs, SlotSleeper, t);
        } else {
          CountAtLeastOne(s.pcs, ItemSleeper, t);
        }
      }
    }
  }

  /** A consumer about to read the front finds a value there. */
  ghost predicate FrontExists(s: State) {
    forall t :: 0 <= t < |s.pcs| && s.pcs[t].Inside? && s.pcs[t].role.Consumer? ==> s.buffer != []
  }

  /** At most one thread touches the deque. */
  ghost predicate Exclusive(s: State) {
    forall t, u :: 0 <= t < |s.pcs| && 0 <= u < |s.pcs| && InsideDoor(s.pcs[t]) && InsideDoor(s.pcs[u]) ==> t == u
  }

  lemma InvMeans(s: State)
    requires Inv(s)
    ensures |s.buffer| <= s.capacity && FrontExists(s) && Exclusive(s) && StuckOnlyByBounds(s)
  {
    CountMono(s.pcs, Claims, InFlight);
    forall t: nat | t < |s.pcs| && s.pcs[t].Inside? && s.pcs[t].role.Consumer? ensures s.buffer != [] {
      CountAtLeastOne(s.pcs, Claims, t);
    }
    forall t: nat, u: nat | t < |s.pcs| && u < |s.pcs| && InsideDoor(s.pcs[t]) && InsideDoor(s.pcs[u]) ensures t == u {
      CountUnique(s.pcs, InsideDoor, t, u);
    }
    NotStuck(s);
  }

  /** In every state of every run with any number of producers and consumers: tokens are conserved, the deque stays
      within its bounds and is used exclusively, values leave in the order they entered, and threads are stuck only
      on a full or an empty queue. */
  lemma BoundedQueueIsCorrect(run: seq<State>)
    requires Runs.IsRun(Init, Next, run)
    ensures forall i :: 0 <= i < |run| ==>
      && run[i].slots + run[i].items + Count(run[i].pcs, InFlight) == run[i].capacity
      && |run[i].buffer| <= run[i].capacity
      && FrontExists(run[i]) && Exclusive(run[i])
      && run[i].put == run[i].got + run[i].buffer
      && ValuesAgree(run[i])
      && StuckOnlyByBounds(run[i])
  {
    ValuesKeep(run);
    forall s | Init(s) ensures Inv(s) {
      CountNone(s.pcs, InFlight);
      CountNone(s.pcs, Claims);
      CountNone(s.pcs, InsideDoor);
      CountNone(s.pcs, SlotSleeper);
      CountNone(s.pcs, ItemSleeper);
      CountNone(s.pcs, DoorSleeper);
    }
    forall s, s' | Inv(s) && Next(s, s') ensures Inv(s') {
      if t: nat :| OwnStep(s, s', t) {
        if LookAtGate(s, s', t) || LookAtDoor(s, s', t) {
          LookKeeps(s, s', t);
        } else if Push(s, s', t) || Pop(s, s', t) {
          DequeKeeps(s, s', t);
        } else {
          WaitKeeps(s, s', t);
        }
      } else {
        var t: nat, u: nat :| ReleaseStep(s, s', t, u);
        ReleaseStepKeeps(s, s', t, u);
      }
    }
    Runs.Invariant(Init, Next, Inv, run);
    forall i | 0 <= i < |run|
      ensures |run[i].buffer| <= run[i].capacity
      ensures FrontExists(run[i]) && Exclusive(run[i]) && StuckOnlyByBounds(run[i])
    {
      InvMeans(run[i]);
    }
  }

  /** With capacity at least one, producers and consumers are never all asleep together. */
  lemma NeverAllStuck(run: seq<State>, i: nat, p: nat, c: nat)
    requires Runs.IsRun(Init, Next, run) && i < |run| && run[i].capacity >= 1
    requires p < |run[i].pcs| && Blocked(run[i].pcs[p]) && run[i].pcs[p].role.Producer?
    requires c < |run[i].pcs| && Blocked(run[i].pcs[c]) && run[i].pcs[c].role.Consumer?
    ensures exists t :: 0 <= t < |run[i].pcs| && !run[i].pcs[t].Out? && !Blocked(run[i].pcs[t])
  {
    BoundedQueueIsCorrect(run);
    assert StuckOnlyByBounds(run[i]);
  }
}
