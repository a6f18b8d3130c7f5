/**
 * The ticket lock with TryLock. Tickets are `size_t`, so the counters live modulo some `modulus`;
 * modulus 0 stands for counters that never wrap. Every atomic operation is one step.
 */
module TicketLock {
  import opened Counting
  import Runs

  datatype PC =
    | Out
    | Spinning(ticket: nat)   // Lock: took a ticket
    | Trying(seen: nat)       // TryLock: read owner_ticket_, before the compare-exchange
    | Holding(ticket: nat)
    | Unlocking(seen: nat)    // Unlock: read owner_ticket_, before the store

  /** `entered` is history: the tickets in the order their holders got the lock. */
  datatype State = State(modulus: nat, next: nat, owner: nat, pcs: seq<PC>, entered: seq<nat>)

  /** Increment of a counter with `m` values; with m == 0 it never wraps. */
  function Inc(m: nat, n: nat): nat { if n + 1 == m then 0 else n + 1 }

  ghost predicate Init(s: State) {
    && s.next == 0 && s.owner == 0 && s.entered == []
    && forall t :: 0 <= t < |s.pcs| ==> s.pcs[t] == Out
  }

  ghost predicate TakeTicket(s: State, s': State, t: nat) {
    && t < |s.pcs| && s.pcs[t].Out?
    && s' == s.(next := Inc(s.modulus, s.next), pcs := s.pcs[t := Spinning(s.next)])
  }

  /** A turn of the spin loop that does not see its own ticket changes nothing. */
  ghost predicate Enter(s: State, s': State, t: nat) {
    && t < |s.pcs| && s.pcs[t].Spinning? && s.pcs[t].ticket == s.owner
    && s' == s.(pcs := s.pcs[t := Holding(s.owner)], entered := s.entered + [s.owner])
  }

  ghost predicate TryLoad(s: State, s': State, t: nat) {
    && t < |s.pcs| && s.pcs[t].Out?
    && s' == s.(pcs := s.pcs[t := Trying(s.owner)])
  }

  ghost predicate TrySwapWins(s: State, s': State, t: nat) {
    && t < |s.pcs| && s.pcs[t].Trying? && s.pcs[t].seen == s.next
    && s' == s.(next := Inc(s.modulus, s.next), pcs := s.pcs[t := Holding(s.next)],
                entered := s.entered + [s.next])
  }

  ghost predicate TrySwapFails(s: State, s': State, t: nat) {
    && t < |s.pcs| && s.pcs[t].Trying? && s.pcs[t].seen != s.next
    && s' == s.(pcs := s.pcs[t := Out])
  }

  ghost predicate UnlockLoad(s: State, s': State, t: nat) {
    && t < |s.pcs| && s.pcs[t].Holding?
    && s' == s.(pcs := s.pcs[t := Unlocking(s.owner)])
  }

  ghost predicate UnlockStore(s: State, s': State, t: nat) {
    && t < |s.pcs| && s.pcs[t].Unlocking?
    && s' == s.(owner := Inc(s.modulus, s.pcs[t].seen), pcs := s.pcs[t := Out])
  }

  ghost predicate LockStep(s: State, s': State, t: nat) {
    TakeTicket(s, s', t) || Enter(s, s', t) || UnlockLoad(s, s', t) || UnlockStore(s, s', t)
  }

  ghost predicate TryStep(s: State, s': State, t: nat) {
    TryLoad(s, s', t) || TrySwapWins(s, s', t) || TrySwapFails(s, s', t)
  }

  ghost predicate Next(s: State, s': State) {
    exists t: nat :: LockStep(s, s', t) || TryStep(s, s', t)
  }

  /** Runs in which nobody calls TryLock. */
  ghost predicate LockOnly(s: State, s': State) {
    exists t: nat :: LockStep(s, s', t)
  }

  // ----- Counters that never wrap -----

  predicate Inside(pc: PC) { pc.Holding? || pc.Unlocking? }
  predicate Ticketed(pc: PC) { pc.Spinning? || Inside(pc) }

  function TicketOf(pc: PC): nat
    requires Ticketed(pc)
  {
    match pc
    case Spinning(t) => t
    case Holding(t) => t
    case Unlocking(t) => t
  }

  ghost predicate Inv(s: State) {
    && s.modulus == 0
    && s.owner <= s.next
    && Count(s.pcs, Ticketed) == s.next - s.owner
    && Count(s.pcs, Inside) <= 1
    && (forall t :: 0 <= t < |s.pcs| && Ticketed(s.pcs[t]) ==> s.owner <= TicketOf(s.pcs[t]) < s.next)
    && (forall t :: 0 <= t < |s.pcs| && Inside(s.pcs[t]) ==> TicketOf(s.pcs[t]) == s.owner)
    && (forall t :: 0 <= t < |s.pcs| && s.pcs[t].Trying? ==> s.pcs[t].seen <= s.owner)
    && (forall t, u :: 0 <= t < u < |s.pcs| && Ticketed(s.pcs[t]) && Ticketed(s.pcs[u]) ==>
          TicketOf(s.pcs[t]) != TicketOf(s.pcs[u]))
    && |s.entered| == s.owner + Count(s.pcs, Inside)
    && (forall i :: 0 <= i < |s.entered| ==> s.entered[i] == i)
  }

  lemma InitHolds(s: State)
    requires Init(s) && s.modulus == 0
    ensures Inv(s)
  {
    CountNone(s.pcs, Ticketed);
    CountNone(s.pcs, Inside);
  }

  lemma Moves(pcs: seq<PC>, t: nat, pc: PC)
    requires t < |pcs|
    ensures Count(pcs[t := pc], Ticketed) == Count(pcs, Ticketed) - One(Ticketed(pcs[t])) + One(Ticketed(pc))
    ensures Count(pcs[t := pc], Inside) == Count(pcs, Inside) - One(Inside(pcs[t])) + One(Inside(pc))
  {
    CountUpdate(pcs, Ticketed, t, pc);
    CountUpdate(pcs, Inside, t, pc);
  }

  /** While the thread whose turn it is still spins, nobody is inside. */
  lemma NobodyInside(s: State, t: nat)
    requires Inv(s) && t < |s.pcs| && s.pcs[t] == Spinning(s.owner)
    ensures Count(s.pcs, Inside) == 0
  {
    if Count(s.pcs, Inside) > 0 {
      var u := CountWitness(s.pcs, Inside);
      assert false;
    }
  }

  lemma EnterKeeps(s: State, s': State, t: nat)
    requires Inv(s) && Enter(s, s', t)
    ensures Inv(s')
  {
    NobodyInside(s, t);
    Moves(s.pcs, t, s'.pcs[t]);
  }

  lemma UnlockStoreKeeps(s: State, s': State, t: nat)
    requires Inv(s) && UnlockStore(s, s', t)
    ensures Inv(s')
  {
    Moves(s.pcs, t, s'.pcs[t]);
    CountAtLeastOne(s.pcs, Inside, t);
    forall u: nat | u < |s.pcs| && u != t && Inside(s.pcs[u]) ensures false {
      CountUnique(s.pcs, Inside, t, u);
    }
  }

  /** Steps by which nobody gets or gives up the lock. */
  lemma OtherKeeps(s: State, s': State, t: nat)
    requires Inv(s) && (TakeTicket(s, s', t) || UnlockLoad(s, s', t) || TryLoad(s, s', t) || TrySwapFails(s, s', t))
    ensures Inv(s')
  {
    Moves(s.pcs, t, s'.pcs[t]);
  }

  lemma TrySwapKeeps(s: State, s': State, t: nat)
    requires Inv(s) && TrySwapWins(s, s', t)
    ensures Inv(s')
  {
    Moves(s.pcs, t, s'.pcs[t]);
    CountMono(s.pcs, Inside, Ticketed);
  }

  lemma StepKeeps(s: State, s': State)
    requires Inv(s) && Next(s, s')
    ensures Inv(s')
  {
    var t: nat :| LockStep(s, s', t) || TryStep(s, s', t);
    if
    case Enter(s, s', t) => EnterKeeps(s, s', t);
    case UnlockStore(s, s', t) => UnlockStoreKeeps(s, s', t);
    case TrySwapWins(s, s', t) => TrySwapKeeps(s, s', t);
    case TakeTicket(s, s', t) || UnlockLoad(s, s', t) || TryLoad(s, s', t) || TrySwapFails(s, s', t) =>
      OtherKeeps(s, s', t);
  }

  ghost predicate Unbounded(s: State) { Init(s) && s.modulus == 0 }

  lemma RunKeeps(run: seq<State>)
    requires Runs.IsRun(Unbounded, Next, run)
    ensures forall i :: 0 <= i < |run| ==> Inv(run[i])
  {
    forall s | Unbounded(s) ensures Inv(s) { InitHolds(s); }
    forall s, s' | Inv(s) && Next(s, s') ensures Inv(s') { StepKeeps(s, s'); }
    Runs.Invariant(Unbounded, Next, Inv, run);
  }

  /** Two different threads are never between getting the lock and finishing Unlock. */
  ghost predicate Exclusive(s: State) {
    forall t, u :: 0 <= t < |s.pcs| && 0 <= u < |s.pcs| && Inside(s.pcs[t]) && Inside(s.pcs[u]) ==> t == u
  }

  /** Nobody holds the lock and nobody is queued for it. */
  ghost predicate Free(s: State) {
    forall t :: 0 <= t < |s.pcs| ==> !Ticketed(s.pcs[t])
  }

  lemma InvMeans(s: State)
    requires Inv(s)
    ensures Exclusive(s)
    ensures s.next == s.owner <==> Free(s)
  {
    forall t: nat, u: nat | t < |s.pcs| && u < |s.pcs| && Inside(s.pcs[t]) && Inside(s.pcs[u]) ensures t == u {
      CountUnique(s.pcs, Inside, t, u);
    }
    if s.next != s.owner {
      var t := CountWitness(s.pcs, Ticketed);
    }
  }

  /** With counters that do not wrap, in every state of every run mixing Lock, TryLock and Unlock: mutual exclusion,
      and the lock is granted in ticket order without gaps. */
  lemma TicketLockIsCorrect(run: seq<State>)
    requires Runs.IsRun(Unbounded, Next, run)
    ensures forall i :: 0 <= i < |run| ==>
      && Exclusive(run[i])
      && (forall k :: 0 <= k < |run[i].entered| ==> run[i].entered[k] == k)
  {
    RunKeeps(run);
    forall i | 0 <= i < |run| ensures Exclusive(run[i]) {
      InvMeans(run[i]);
    }
  }

  /** However old the owner ticket TryLock read, its compare-exchange succeeds only on a free lock with no queue. */
  lemma TryLockIsSafe(run: seq<State>, i: nat, t: nat)
    requires Runs.IsRun(Unbounded, Next, run) && i + 1 < |run| && TrySwapWins(run[i], run[i + 1], t)
    ensures Free(run[i])
  {
    RunKeeps(run);
    InvMeans(run[i]);
  }

  /** The compare-exchange of a TryLock gets the lock if the lock is free and the owner ticket is still what TryLock read;
      in every other case TryLock returns without it. */
  ghost predicate Answers(s: State, s': State, t: nat)
    requires t < |s.pcs| == |s'.pcs| && s.pcs[t].Trying?
  {
    s'.pcs[t] == if Free(s) && s.owner == s.pcs[t].seen then Holding(s.owner) else Out
  }

  lemma TryLockAnswers(run: seq<State>, i: nat, t: nat)
    requires Runs.IsRun(Unbounded, Next, run) && i + 1 < |run| && TryStep(run[i], run[i + 1], t) && run[i].pcs[t].Trying?
    ensures Answers(run[i], run[i + 1], t)
  {
    RunKeeps(run);
    InvMeans(run[i]);
  }

  // ----- Counters that wrap -----

  /** What a counter with m values shows after n increments. */
  ghost function Wrap(m: nat, n: nat): nat {
    if n == 0 then 0 else Inc(m, Wrap(m, n - 1))
  }

  lemma {:induction false} WrapAhead(m: nat, n: nat, k: nat)
    requires 0 < m && k < m
    ensures Wrap(m, n) < m
    ensures Wrap(m, n + k) == if Wrap(m, n) + k < m then Wrap(m, n) + k else Wrap(m, n) + k - m
    decreases n + k
  {
    if k > 0 {
      WrapAhead(m, n, k - 1);
    } else if n > 0 {
      WrapAhead(m, n - 1, 0);
    }
  }

  ghost function WrapPC(m: nat, pc: PC): PC {
    match pc
    case Out => Out
    case Spinning(t) => Spinning(Wrap(m, t))
    case Trying(t) => Trying(Wrap(m, t))
    case Holding(t) => Holding(Wrap(m, t))
    case Unlocking(t) => Unlocking(Wrap(m, t))
  }

  /** `w` is the state `u` of the machine without wrap-around, seen through counters with m values. */
  ghost predicate Shows(w: State, u: State) {
    && Inv(u) && w.modulus > 0
    && w.next == Wrap(w.modulus, u.next) && w.owner == Wrap(w.modulus, u.owner)
    && |w.pcs| == |u.pcs| <= w.modulus
    && (forall t :: 0 <= t < |w.pcs| ==> w.pcs[t] == WrapPC(w.modulus, u.pcs[t]))
    && |w.entered| == |u.entered|
    && (forall k :: 0 <= k < |w.entered| ==> w.entered[k] == Wrap(w.modulus, k))
  }

  /** Wrapped tickets tell a waiting thread from the owner as long as no more threads than counter values exist. */
  lemma WrappedTurn(w: State, u: State, t: nat)
    requires Shows(w, u) && t < |u.pcs| && u.pcs[t].Spinning? && w.pcs[t].ticket == w.owner
    ensures u.pcs[t].ticket == u.owner
  {
    CountBound(u.pcs, Ticketed);
    WrapAhead(w.modulus, u.owner, u.pcs[t].ticket - u.owner);
  }

  /** While some thread is without a ticket, wrapped counters are equal only on a free lock. */
  lemma WrappedFree(w: State, u: State, t: nat)
    requires Shows(w, u) && t < |u.pcs| && !Ticketed(u.pcs[t])
    ensures w.owner == w.next <==> u.owner == u.next
    ensures w.owner == w.next <==> Free(w)
  {
    CountBound(u.pcs, Ticketed);
    CountAll(u.pcs, Ticketed);
    WrapAhead(w.modulus, u.owner, u.next - u.owner);
    InvMeans(u);
    assert forall i :: 0 <= i < |w.pcs| ==> Ticketed(w.pcs[i]) == Ticketed(u.pcs[i]);
  }

  /** TryLock wins its compare-exchange while the owner ticket shows again, or still, what it read. */
  ghost predicate FreshWin(s: State, s': State, t: nat) {
    TrySwapWins(s, s', t) && s.owner == s.pcs[t].seen
  }

  ghost predicate FreshTryStep(s: State, s': State, t: nat) {
    TryLoad(s, s', t) || FreshWin(s, s', t) || TrySwapFails(s, s', t)
  }

  /** Steps of Lock, Unlock and TryLock other than a win on an outdated owner ticket. */
  ghost predicate FreshNext(s: State, s': State) {
    exists t: nat :: LockStep(s, s', t) || FreshTryStep(s, s', t)
  }

  /** The step without wrap-around that a Lock or Unlock step with wrapped counters shows. */
  ghost function Unwrapped(w: State, w': State, u: State, t: nat): State
    requires Shows(w, u) && LockStep(w, w', t)
  {
    if TakeTicket(w, w', t) then u.(next := u.next + 1, pcs := u.pcs[t := Spinning(u.next)])
    else if Enter(w, w', t) then u.(pcs := u.pcs[t := Holding(u.owner)], entered := u.entered + [u.owner])
    else if UnlockLoad(w, w', t) then u.(pcs := u.pcs[t := Unlocking(u.owner)])
    else u.(owner := u.pcs[t].seen + 1, pcs := u.pcs[t := Out])
  }

  lemma UnwrappedIsStep(w: State, w': State, u: State, t: nat)
    requires Shows(w, u) && LockStep(w, w', t)
    ensures LockStep(u, Unwrapped(w, w', u, t), t)
    ensures Enter(w, w', t) ==> |u.entered| == u.owner
  {
    if Enter(w, w', t) {
      WrappedTurn(w, u, t);
      NobodyInside(u, t);
    }
  }

  lemma WrappedStep(w: State, w': State, u: State, t: nat)
    requires Shows(w, u) && LockStep(w, w', t)
    ensures Shows(w', Unwrapped(w, w', u, t))
  {
    var u' := Unwrapped(w, w', u, t);
    UnwrappedIsStep(w, w', u, t);
    assert Inv(u') by {
      StepKeeps(u, u');
    }
  }

  /** A TryLock step with wrapped counters. A win need not be a step of `u`, whose TryLock may have read its owner
      ticket a whole number of turns ago, but is one after a second read that nobody could notice. */
  lemma WrappedTryStep(w: State, w': State, u: State, t: nat) returns (u': State)
    requires Shows(w, u) && FreshTryStep(w, w', t)
    ensures Shows(w', u')
  {
    if TryLoad(w, w', t) {
      u' := u.(pcs := u.pcs[t := Trying(u.owner)]);
      OtherKeeps(u, u', t);
    } else if TrySwapFails(w, w', t) {
      u' := u.(pcs := u.pcs[t := Out]);
      OtherKeeps(u, u', t);
    } else {
      u' := WrappedWin(w, w', u, t);
    }
  }

  lemma ReadAgain(u: State, t: nat) returns (again: State)
    requires Inv(u) && t < |u.pcs| && u.pcs[t].Trying?
    ensures again == u.(pcs := u.pcs[t := Trying(u.owner)]) && Inv(again)
  {
    again := u.(pcs := u.pcs[t := Trying(u.owner)]);
    Moves(u.pcs, t, Trying(u.owner));
  }

  lemma WrappedWin(w: State, w': State, u: State, t: nat) returns (u': State)
    requires Shows(w, u) && FreshWin(w, w', t)
    ensures Shows(w', u')
  {
    WrappedFree(w, u, t);
    var again := ReadAgain(u, t);
    u' := again.(next := u.next + 1, pcs := u.pcs[t := Holding(u.next)], entered := u.entered + [u.next]);
    TrySwapKeeps(again, u', t);
  }

  ghost predicate WrappingInit(s: State) { Init(s) && 0 < s.modulus && |s.pcs| <= s.modulus }

  ghost predicate Refines(w: State) { exists u :: Shows(w, u) }

  lemma WrappedRun(run: seq<State>)
    requires Runs.IsRun(WrappingInit, FreshNext, run)
    ensures forall i :: 0 <= i < |run| ==> Refines(run[i])
  {
    forall w | WrappingInit(w) ensures Refines(w) {
      InitHolds(w.(modulus := 0));
      assert Shows(w, w.(modulus := 0));
    }
    forall w, w' | Refines(w) && FreshNext(w, w') ensures Refines(w') {
      var u :| Shows(w, u);
      var t: nat :| LockStep(w, w', t) || FreshTryStep(w, w', t);
      if LockStep(w, w', t) {
        WrappedStep(w, w', u, t);
      } else {
        var u' := WrappedTryStep(w, w', u, t);
      }
    }
    Runs.Invariant(WrappingInit, FreshNext, Refines, run);
  }

  /** With counters of m values and at most m threads, runs of Lock, Unlock and TryLock in which every win of TryLock
      is fresh are exclusive for ever and serve the tickets in order, round and round. */
  lemma WrappingTicketLockIsCorrect(run: seq<State>)
    requires Runs.IsRun(WrappingInit, FreshNext, run)
    ensures forall i :: 0 <= i < |run| ==>
      && Exclusive(run[i])
      && (forall k :: 0 <= k < |run[i].entered| ==> run[i].entered[k] == Wrap(run[i].modulus, k))
  {
    WrappedRun(run);
    forall i | 0 <= i < |run|
      ensures Exclusive(run[i])
      ensures forall k :: 0 <= k < |run[i].entered| ==> run[i].entered[k] == Wrap(run[i].modulus, k)
    {
      assert Refines(run[i]);
      var u :| Shows(run[i], u);
      InvMeans(u);
    }
  }

  /** After any such run, a TryLock that is about to win finds the lock free with nobody queued if and only if the owner
      ticket shows what it read. */
  lemma WinIsSafeExactly(run: seq<State>, w': State, t: nat)
    requires Runs.IsRun(WrappingInit, FreshNext, run) && TrySwapWins(Runs.LastOf(run), w', t)
    ensures var w := Runs.LastOf(run); Free(w) <==> w.owner == w.pcs[t].seen
  {
    var w := Runs.LastOf(run);
    assert Refines(w) by { WrappedRun(run); }
    var u :| Shows(w, u);
    WrappedFree(w, u, t);
  }

  /** TryLock answers the same with counters that wrap. */
  lemma WrappingTryLockAnswers(run: seq<State>, i: nat, t: nat)
    requires Runs.IsRun(WrappingInit, FreshNext, run) && i + 1 < |run|
    requires FreshTryStep(run[i], run[i + 1], t) && run[i].pcs[t].Trying?
    ensures Answers(run[i], run[i + 1], t)
  {
    assert Refines(run[i]) by { WrappedRun(run); }
    var u :| Shows(run[i], u);
    WrappedFree(run[i], u, t);
  }

  // ----- Where wrapping counters fail -----

  /** A lock for n threads with counters of m values, before its first use. */
  ghost function Sized(m: nat, n: nat): State -> bool {
    (s: State) => Init(s) && s.modulus == m && |s.pcs| == n
  }

  /** The first k threads have taken a ticket and nobody has entered. */
  ghost function Queued(m: nat, n: nat, k: nat): State
    requires k <= n
  {
    State(m, Wrap(m, k), 0, seq(n, i => if 0 <= i < k then Spinning(Wrap(m, i)) else Out), [])
  }

  lemma {:induction false} QueueUp(m: nat, n: nat, k: nat) returns (end: State)
    requires k <= n
    ensures Runs.Reachable(Sized(m, n), LockOnly, end) && end == Queued(m, n, k)
  {
    if k == 0 {
      end := Runs.Start(Sized(m, n), LockOnly, Queued(m, n, 0));
    } else {
      end := QueueUp(m, n, k - 1);
      assert Queued(m, n, k).pcs == end.pcs[k - 1 := Spinning(Wrap(m, k - 1))];
      assert TakeTicket(end, Queued(m, n, k), k - 1);
      assert LockStep(end, Queued(m, n, k), k - 1);
      end := Runs.Follow(Sized(m, n), LockOnly, end, Queued(m, n, k));
    }
  }

  /** More threads than counter values: the first ticket and the one m later coincide and both threads enter. */
  lemma TooManyThreads(m: nat, n: nat) returns (end: State)
    requires 0 < m < n
    ensures Runs.Reachable(Sized(m, n), LockOnly, end) && !Exclusive(end)
  {
    end := QueueUp(m, n, n);
    var s := end;
    assert Wrap(m, 0) == 0;
    WrapTurn(m);
    var s1 := s.(pcs := s.pcs[0 := Holding(0)], entered := [0]);
    assert Enter(s, s1, 0) && LockStep(s, s1, 0);
    end := Runs.Follow(Sized(m, n), LockOnly, end, s1);
    var s2 := s1.(pcs := s1.pcs[m := Holding(0)], entered := [0, 0]);
    assert Enter(s1, s2, m) && LockStep(s1, s2, m);
    end := Runs.Follow(Sized(m, n), LockOnly, end, s2);
    assert Inside(s2.pcs[0]) && Inside(s2.pcs[m]);
  }

  /** A counter with m values shows zero after m increments. */
  lemma WrapTurn(m: nat)
    requires 0 < m
    ensures Wrap(m, m) == 0 && Wrap(m, m - 1) == m - 1
  {
    WrapAhead(m, 0, m - 1);
  }

  /** Every run of Lock and Unlock is exclusive throughout if and only if there are no more threads than counter
      values. */
  lemma ThreadsExactly(m: nat, n: nat)
    requires 0 < m
    ensures n <= m <==>
      forall run :: Runs.IsRun(Sized(m, n), LockOnly, run) ==> forall i :: 0 <= i < |run| ==> Exclusive(run[i])
  {
    if n <= m {
      forall run | Runs.IsRun(Sized(m, n), LockOnly, run) ensures forall i :: 0 <= i < |run| ==> Exclusive(run[i]) {
        LockOnlyIsFresh(m, n, run);
        WrappingTicketLockIsCorrect(run);
      }
    } else {
      var end := TooManyThreads(m, n);
      var run :| Runs.IsRun(Sized(m, n), LockOnly, run) && Runs.LastOf(run) == end;
      assert !Exclusive(run[|run| - 1]);
    }
  }

  lemma LockOnlyIsFresh(m: nat, n: nat, run: seq<State>)
    requires 0 < m && n <= m && Runs.IsRun(Sized(m, n), LockOnly, run)
    ensures Runs.IsRun(WrappingInit, FreshNext, run)
  {
    forall i, j | 0 <= i && j == i + 1 && j < |run| ensures FreshNext(run[i], run[j]) {
      assert LockOnly(run[i], run[j]);
    }
  }

  // ----- An owner ticket read a full turn ago -----

  /** Thread 1 is inside TryLock and thread 0 has had the lock k times. */
  ghost function Turned(m: nat, n: nat, k: nat): State
    requires n >= 2
  {
    State(m, Wrap(m, k), Wrap(m, k), seq(n, i => if i == 1 then Trying(0) else Out),
          seq(k, i requires 0 <= i => Wrap(m, i)))
  }

  /** Thread 0 has the lock for the next time. */
  ghost function HeldAgain(m: nat, n: nat, k: nat): State
    requires n >= 2
  {
    var s := Turned(m, n, k);
    s.(next := Wrap(m, k + 1), pcs := s.pcs[0 := Holding(s.owner)], entered := s.entered + [s.owner])
  }

  lemma LockAgain(m: nat, n: nat, k: nat)
    requires n >= 2 && Runs.Reachable(Sized(m, n), FreshNext, Turned(m, n, k))
    ensures Runs.Reachable(Sized(m, n), FreshNext, HeldAgain(m, n, k))
  {
    var s := Turned(m, n, k);
    var s1 := s.(next := Wrap(m, k + 1), pcs := s.pcs[0 := Spinning(s.next)]);
    assert TakeTicket(s, s1, 0) && LockStep(s, s1, 0);
    var end := Runs.Follow(Sized(m, n), FreshNext, s, s1);
    var s2 := HeldAgain(m, n, k);
    assert s2.pcs == s1.pcs[0 := Holding(s.owner)];
    assert Enter(s1, s2, 0) && LockStep(s1, s2, 0);
    end := Runs.Follow(Sized(m, n), FreshNext, s1, s2);
  }

  lemma UnlockAgain(m: nat, n: nat, k: nat)
    requires n >= 2 && Runs.Reachable(Sized(m, n), FreshNext, HeldAgain(m, n, k))
    ensures Runs.Reachable(Sized(m, n), FreshNext, Turned(m, n, k + 1))
  {
    var s := HeldAgain(m, n, k);
    var s1 := s.(pcs := s.pcs[0 := Unlocking(s.owner)]);
    assert UnlockLoad(s, s1, 0) && LockStep(s, s1, 0);
    var end := Runs.Follow(Sized(m, n), FreshNext, s, s1);
    var s2 := Turned(m, n, k + 1);
    assert s2.pcs == s1.pcs[0 := Out] && s2.entered == s1.entered;
    assert UnlockStore(s1, s2, 0) && LockStep(s1, s2, 0);
    end := Runs.Follow(Sized(m, n), FreshNext, s1, s2);
  }

  lemma {:induction false} TakeTurns(m: nat, n: nat, k: nat)
    requires n >= 2
    ensures Runs.Reachable(Sized(m, n), FreshNext, Turned(m, n, k))
  {
    if k == 0 {
      var s := State(m, 0, 0, seq(n, _ => Out), []);
      var s1 := Turned(m, n, 0);
      assert s1.pcs == s.pcs[1 := Trying(0)];
      assert TryLoad(s, s1, 1) && FreshTryStep(s, s1, 1);
      var end := Runs.Start(Sized(m, n), FreshNext, s);
      end := Runs.Follow(Sized(m, n), FreshNext, s, s1);
    } else {
      TakeTurns(m, n, k - 1);
      LockAgain(m, n, k - 1);
      UnlockAgain(m, n, k - 1);
    }
  }

  /** For all counters that wrap and from two threads on, some run ends in a state s where TryLock, on an owner ticket it
      read a full turn earlier, wins beside the holder: every step before that win is fresh. */
  lemma StaleTryLock(m: nat, n: nat) returns (s: State, s': State)
    requires 0 < m && 2 <= n
    ensures Runs.Reachable(Sized(m, n), FreshNext, s) && TrySwapWins(s, s', 1) && !Free(s) && !Exclusive(s')
  {
    TakeTurns(m, n, m - 1);
    LockAgain(m, n, m - 1);
    s := HeldAgain(m, n, m - 1);
    WrapTurn(m);
    s' := s.(next := Inc(m, 0), pcs := s.pcs[1 := Holding(0)], entered := s.entered + [0]);
    assert TrySwapWins(s, s', 1);
    assert Ticketed(s.pcs[0]);
    assert Inside(s'.pcs[0]) && Inside(s'.pcs[1]);
  }

  ghost predicate Alone(s: State) { |s.pcs| <= 1 }

  lemma FreshIsNext(m: nat, n: nat, s: State)
    requires Runs.Reachable(Sized(m, n), FreshNext, s)
    ensures Runs.Reachable(Sized(m, n), Next, s)
  {
    var run :| Runs.IsRun(Sized(m, n), FreshNext, run) && Runs.LastOf(run) == s;
    forall i, j | 0 <= i && j == i + 1 && j < |run| ensures Next(run[i], run[j]) {
      assert FreshNext(run[i], run[j]);
      var t: nat :| LockStep(run[i], run[j], t) || FreshTryStep(run[i], run[j], t);
      assert LockStep(run[i], run[j], t) || TryStep(run[i], run[j], t);
    }
    assert Runs.IsRun(Sized(m, n), Next, run);
  }

  /** With counters that wrap, every run mixing Lock, Unlock and TryLock is exclusive throughout if and only if there is
      at most one thread. */
  lemma TryLockExactly(m: nat, n: nat)
    requires 0 < m
    ensures n <= 1 <==>
      forall run :: Runs.IsRun(Sized(m, n), Next, run) ==> forall i :: 0 <= i < |run| ==> Exclusive(run[i])
  {
    if n <= 1 {
      forall run | Runs.IsRun(Sized(m, n), Next, run) ensures forall i :: 0 <= i < |run| ==> Exclusive(run[i]) {
        Runs.Invariant(Sized(m, n), Next, Alone, run);
      }
    } else {
      var s, s' := StaleTryLock(m, n);
      FreshIsNext(m, n, s);
      assert TryStep(s, s', 1);
      var end := Runs.Follow(Sized(m, n), Next, s, s');
      var run :| Runs.IsRun(Sized(m, n), Next, run) && Runs.LastOf(run) == s';
      assert !Exclusive(run[|run| - 1]);
    }
  }
}
