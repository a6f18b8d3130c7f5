/**
 * Dining philosophers with parity-ordered acquisition: even seats lock left then right, odd seats right then left,
 * and release in the same order. Seat i uses forks i (left) and (i + 1) mod n (right). Locking and unlocking a
 * fork are one step each.
 */
module Dining {
  import opened Counting
  import Runs

  datatype PC =
    | Thinking    // wants its first fork
    | HasFirst    // wants its second fork
    | Eating      // holds both
    | HasSecond   // released its first fork

  datatype Fork = Free | HeldBy(seat: nat)

  /** `dinners` is history: the seats in the order they began to eat. */
  datatype State = State(forks: seq<Fork>, pcs: seq<PC>, meals: seq<nat>, dinners: seq<nat>)

  ghost predicate Init(s: State) {
    && |s.pcs| >= 2 && |s.forks| == |s.meals| == |s.pcs|
    && (forall f :: 0 <= f < |s.forks| ==> s.forks[f] == Free)
    && (forall p :: 0 <= p < |s.pcs| ==> s.pcs[p] == Thinking && s.meals[p] == 0)
    && s.dinners == []
  }

  function Right(n: nat, p: nat): (r: nat)
    requires p < n
    ensures r < n
  {
    if p + 1 == n then 0 else p + 1
  }

  function First(n: nat, p: nat): (f: nat)
    requires p < n
    ensures f < n
  {
    if p % 2 == 0 then p else Right(n, p)
  }

  function Second(n: nat, p: nat): (f: nat)
    requires p < n
    ensures f < n
  {
    if p % 2 == 0 then Right(n, p) else p
  }

  ghost predicate Sized(s: State) { |s.pcs| >= 2 && |s.forks| == |s.meals| == |s.pcs| }

  ghost predicate LockFirst(s: State, s': State, p: nat) {
    && Sized(s) && p < |s.pcs| && s.pcs[p].Thinking?
    && var f := First(|s.pcs|, p);
    && s.forks[f].Free? && s' == s.(forks := s.forks[f := HeldBy(p)], pcs := s.pcs[p := HasFirst])
  }

  ghost predicate LockSecond(s: State, s': State, p: nat) {
    && Sized(s) && p < |s.pcs| && s.pcs[p].HasFirst?
    && var f := Second(|s.pcs|, p);
    && s.forks[f].Free? && s' == s.(forks := s.forks[f := HeldBy(p)], pcs := s.pcs[p := Eating],
                              dinners := s.dinners + [p])
  }

  /** Eat, then unlock the first fork. */
  ghost predicate UnlockFirst(s: State, s': State, p: nat) {
    && Sized(s) && p < |s.pcs| && s.pcs[p].Eating?
    && s' == s.(forks := s.forks[First(|s.pcs|, p) := Free], pcs := s.pcs[p := HasSecond],
                meals := s.meals[p := s.meals[p] + 1])
  }

  ghost predicate UnlockSecond(s: State, s': State, p: nat) {
    && Sized(s) && p < |s.pcs| && s.pcs[p].HasSecond?
    && s' == s.(forks := s.forks[Second(|s.pcs|, p) := Free], pcs := s.pcs[p := Thinking])
  }

  ghost predicate StepOf(s: State, s': State, p: nat) {
    LockFirst(s, s', p) || LockSecond(s, s', p) || UnlockFirst(s, s', p) || UnlockSecond(s, s', p)
  }

  ghost predicate Next(s: State, s': State) {
    exists p: nat :: StepOf(s, s', p)
  }

  ghost predicate Holds(n: nat, pc: PC, p: nat, f: nat)
    requires p < n
  {
    || (f == First(n, p) && (pc.HasFirst? || pc.Eating?))
    || (f == Second(n, p) && (pc.Eating? || pc.HasSecond?))
  }

  /** The locks record exactly what the philosophers' program counters say. */
  ghost predicate Inv(s: State) {
    && Sized(s)
    && (forall p, f :: 0 <= p < |s.pcs| && 0 <= f < |s.forks| ==>
          (s.forks[f] == HeldBy(p) <==> Holds(|s.pcs|, s.pcs[p], p, f)))
    && (forall f :: 0 <= f < |s.forks| && s.forks[f].HeldBy? ==> s.forks[f].seat < |s.pcs|)
  }

  lemma StepKeeps(s: State, s': State, p: nat)
    requires Inv(s) && StepOf(s, s', p)
    ensures Inv(s')
  {
    var n := |s.pcs|;
    assert First(n, p) != Second(n, p);
    forall q, f | 0 <= q < n && 0 <= f < n ensures s'.forks[f] == HeldBy(q) <==> Holds(n, s'.pcs[q], q, f) {
      assert s.forks[f] == HeldBy(q) <==> Holds(n, s.pcs[q], q, f);
      assert s.forks[f] == HeldBy(p) <==> Holds(n, s.pcs[p], p, f);
    }
  }

  /** The fork a philosopher has to lock next. */
  function Wanted(n: nat, pc: PC, p: nat): nat
    requires p < n
  {
    if pc.HasFirst? then Second(n, p) else First(n, p)
  }

  ghost predicate Blocked(s: State, p: nat)
    requires Sized(s) && p < |s.pcs|
  {
    (s.pcs[p].Thinking? || s.pcs[p].HasFirst?) && s.forks[Wanted(|s.pcs|, s.pcs[p], p)].HeldBy?
  }

  /** The philosopher that a blocked one waits for. */
  ghost function WaitsFor(s: State, p: nat): nat
    requires Sized(s) && p < |s.pcs| && Blocked(s, p)
  {
    s.forks[Wanted(|s.pcs|, s.pcs[p], p)].seat
  }

  ghost predicate NeighboursApart(s: State) {
    Sized(s) && forall p :: 0 <= p < |s.pcs| ==> !(s.pcs[p].Eating? && s.pcs[Right(|s.pcs|, p)].Eating?)
  }

  /** No group of philosophers, whatever its size, is blocked with everybody waiting for another member. */
  ghost predicate NoDeadlock(s: State) {
    Sized(s) && forall group :: IsGroup(s, group) ==> exists p :: p in group && !WaitsInside(s, group, p)
  }

  ghost predicate IsGroup(s: State, group: set<nat>) {
    group != {} && forall p :: p in group ==> p < |s.pcs|
  }

  ghost predicate WaitsInside(s: State, group: set<nat>, p: nat)
    requires Sized(s)
  {
    p < |s.pcs| && Blocked(s, p) && WaitsFor(s, p) in group
  }

  /** A fork with an odd number is never anybody's first fork. */
  lemma OddForksComeSecond(n: nat, p: nat)
    requires n >= 2 && p < n
    ensures First(n, p) % 2 == 0
    ensures Second(n, p) % 2 == 1 || (Second(n, p) == 0 && p == n - 1 && p % 2 == 0)
  {}

  /** A philosopher who holds one fork and is blocked waits for one who can act, or sits last at a table with an odd
      number of seats and waits for seat 0 holding one fork. */
  lemma SecondForkHolder(s: State, p: nat)
    requires Inv(s) && p < |s.pcs| && s.pcs[p].HasFirst? && Blocked(s, p)
    ensures var q := WaitsFor(s, p);
      && q < |s.pcs|
      && (!Blocked(s, q) || (|s.pcs| % 2 == 1 && p == |s.pcs| - 1 && q == 0 && s.pcs[0].HasFirst?))
  {
    var n := |s.pcs|;
    var q := WaitsFor(s, p);
    OddForksComeSecond(n, p);
    OddForksComeSecond(n, q);
    assert Holds(n, s.pcs[q], q, Second(n, p));
    if s.pcs[q].HasFirst? {
      assert First(n, q) == Second(n, p) == 0;
    }
  }

  /** Seat 0 wants fork 1 as its second, which only somebody who can act may hold. */
  lemma SeatZero(s: State)
    requires Inv(s) && s.pcs[0].HasFirst? && Blocked(s, 0)
    ensures var q := WaitsFor(s, 0); q < |s.pcs| && !Blocked(s, q)
  {
    var q := WaitsFor(s, 0);
    OddForksComeSecond(|s.pcs|, q);
    assert Holds(|s.pcs|, s.pcs[q], q, Second(|s.pcs|, 0));
  }

  /** Following at most three waits from any member of a group leads to one who does not wait inside the group. */
  lemma WaitChainEnds(s: State, group: set<nat>, p: nat) returns (q: nat)
    requires Inv(s) && IsGroup(s, group) && p in group
    ensures q in group && !WaitsInside(s, group, q)
  {
    q := p;
    if WaitsInside(s, group, q) && s.pcs[q].Thinking? {
      var r := WaitsFor(s, q);
      assert Holds(|s.pcs|, s.pcs[r], r, First(|s.pcs|, q));
      q := r;
    }
    if WaitsInside(s, group, q) {
      SecondForkHolder(s, q);
      q := WaitsFor(s, q);
    }
    if WaitsInside(s, group, q) {
      SeatZero(s);
      q := WaitsFor(s, q);
    }
  }

  lemma InvMeans(s: State)
    requires Inv(s)
    ensures NeighboursApart(s) && NoDeadlock(s)
  {
    var n := |s.pcs|;
    forall p | 0 <= p < n && s.pcs[p].Eating? ensures !s.pcs[Right(n, p)].Eating? {
      var q := Right(n, p);
      assert Holds(n, s.pcs[p], p, q);
      assert s.forks[q] == HeldBy(p) != HeldBy(q);
    }
    forall group | IsGroup(s, group) ensures exists p :: p in group && !WaitsInside(s, group, p) {
      var p :| p in group;
      var q := WaitChainEnds(s, group, p);
    }
  }

  ghost function Is(p: nat): nat -> bool { (x: nat) => x == p }

  /** Every dinner a philosopher began is counted once, when it ends. */
  ghost predicate MealsCounted(s: State) {
    Sized(s) && forall p :: 0 <= p < |s.pcs| ==> Count(s.dinners, Is(p)) == s.meals[p] + One(s.pcs[p].Eating?)
  }

  lemma MealsKeep(s: State, s': State, p: nat)
    requires MealsCounted(s) && StepOf(s, s', p)
    ensures MealsCounted(s')
  {
    forall q | 0 <= q < |s'.pcs| ensures Count(s'.dinners, Is(q)) == s'.meals[q] + One(s'.pcs[q].Eating?) {
      CountAppend(s.dinners, Is(q), p);
    }
  }

  /** For every table of at least two seats and every run: no neighbours eat together, no philosophers are deadlocked,
      all together or in part, and meals are counted. */
  lemma DiningIsCorrect(run: seq<State>)
    requires Runs.IsRun(Init, Next, run)
    ensures forall i :: 0 <= i < |run| ==>
      NeighboursApart(run[i]) && NoDeadlock(run[i]) && MealsCounted(run[i])
  {
    forall s, s' | MealsCounted(s) && Next(s, s') ensures MealsCounted(s') {
      var p: nat :| StepOf(s, s', p);
      MealsKeep(s, s', p);
    }
    Runs.Invariant(Init, Next, MealsCounted, run);
    forall s, s' | Inv(s) && Next(s, s') ensures Inv(s') {
      var p: nat :| StepOf(s, s', p);
      StepKeeps(s, s', p);
    }
    Runs.Invariant(Init, Next, Inv, run);
    forall i | 0 <= i < |run| ensures NeighboursApart(run[i]) && NoDeadlock(run[i]) {
      InvMeans(run[i]);
    }
  }
}
