/**
 * The strand executor: callers push tasks on a lock-free linked stack and race for the
 * `is_scheduled_` flag; the winner swaps the whole stack out, reverses it into a batch and has the
 * underlying executor run it. Any number of callers, any number of calls, every interleaving; each
 * atomic operation on `head_` or `is_scheduled_` is one step.
 *
 * Nodes live in a heap of addresses. A popped node is freed at once and its address may be
 * allocated again, which allows every behaviour of the node pool of a private stack and of plain
 * `delete`. Pushing never takes nodes from the pool of the shared stack, because that stack is never popped.
 */
module Strand {
  import Runs

  type Addr = nat
  type Task = nat

  datatype Ptr = Null | At(addr: Addr)
  datatype Node = Node(task: Task, next: Ptr)

  datatype Caller =
    | Idle
    | Loading(node: Addr)   // owns a new node, before `next = head_`
    | Swapping(node: Addr)  // before the compare-exchange of `head_`
    | Flagging(pos: nat)    // made the pos-th successful push, before the compare-exchange of the flag

  datatype Drain =
    | Exchanging                              // before the exchange of `head_` with null
    | Collecting(rest: Ptr, batch: seq<Task>) // popping the private stack into the vector
    | Posted(batch: seq<Task>)                // handed to the underlying executor
    | Running(batch: seq<Task>)               // between two tasks
    | InTask(task: Task, batch: seq<Task>)    // a task body is running
    | Window(mark: nat)                       // saw an empty stack after `mark` pushes, before the flag store
    | Ended(mark: nat)                        // stored false

  /** How the flag compare-exchange that follows a push went. `inWindow`: push and failed compare-exchange
      both fell between the emptiness check and the flag store of that drain. */
  datatype Fate = Undecided | Won | Lost(drain: int, inWindow: bool)

  /** History: `pushed` are the successful pushes in order, `fates` what their callers' compare-exchange of the flag
      gave, `executed` the tasks started, `ended` the bodies that have ended, and `args` the argument of the call of
      Execute that each caller is in. */
  datatype State = State(
    heap: map<Addr, Node>, head: Ptr, scheduled: bool, callers: seq<Caller>, drains: seq<Drain>,
    pushed: seq<Task>, fates: seq<Fate>, executed: seq<Task>, ended: seq<Task>, args: seq<Task>)

  ghost predicate Init(s: State) {
    && s.heap == map[] && s.head == Null && !s.scheduled
    && (forall c :: 0 <= c < |s.callers| ==> s.callers[c] == Idle)
    && s.drains == [] && s.pushed == [] && s.fates == [] && s.executed == [] && s.ended == []
    && |s.args| == |s.callers|
  }

  // ----- Steps of caller c -----

  ghost predicate Allocate(s: State, s': State, c: nat, a: Addr, t: Task) {
    && c < |s.callers| == |s.args| && s.callers[c].Idle? && a !in s.heap
    && s' == s.(heap := s.heap[a := Node(t, Null)], callers := s.callers[c := Loading(a)], args := s.args[c := t])
  }

  ghost predicate Load(s: State, s': State, c: nat) {
    && c < |s.callers| && s.callers[c].Loading?
    && var a := s.callers[c].node;
    && a in s.heap
    && s' == s.(heap := s.heap[a := s.heap[a].(next := s.head)], callers := s.callers[c := Swapping(a)])
  }

  ghost predicate SwapWins(s: State, s': State, c: nat) {
    && c < |s.callers| && s.callers[c].Swapping?
    && var a := s.callers[c].node;
    && a in s.heap && s.heap[a].next == s.head
    && s' == s.(head := At(a), callers := s.callers[c := Flagging(|s.pushed|)],
                pushed := s.pushed + [s.heap[a].task], fates := s.fates + [Undecided])
  }

  /** A failed compare-exchange writes the head it found into the expected value, here `next`. */
  ghost predicate SwapFails(s: State, s': State, c: nat) {
    && c < |s.callers| && s.callers[c].Swapping?
    && var a := s.callers[c].node;
    && a in s.heap && s.heap[a].next != s.head
    && s' == s.(heap := s.heap[a := s.heap[a].(next := s.head)], callers := s.callers[c := Loading(a)])
  }

  /** The winner goes on as a new drain. */
  ghost predicate FlagWins(s: State, s': State, c: nat) {
    && c < |s.callers| && s.callers[c].Flagging? && !s.scheduled
    && var k := s.callers[c].pos;
    && k < |s.fates|
    && s' == s.(scheduled := true, callers := s.callers[c := Idle], drains := s.drains + [Exchanging],
                fates := s.fates[k := Won])
  }

  ghost predicate FlagLoses(s: State, s': State, c: nat) {
    && c < |s.callers| && s.callers[c].Flagging? && s.scheduled
    && var k := s.callers[c].pos;
    && k < |s.fates|
    && var inWindow := s.drains != [] && Last(s).Window? && Last(s).mark <= k;
    && s' == s.(callers := s.callers[c := Idle], fates := s.fates[k := Lost(|s.drains| - 1, inWindow)])
  }

  // ----- Steps of drain d -----

  ghost predicate Exchange(s: State, s': State, d: nat) {
    && d < |s.drains| && s.drains[d].Exchanging?
    && s' == s.(head := Null, drains := s.drains[d := Collecting(s.head, [])])
  }

  ghost predicate Collect(s: State, s': State, d: nat) {
    && d < |s.drains| && s.drains[d].Collecting? && s.drains[d].rest.At?
    && var a := s.drains[d].rest.addr;
    && a in s.heap
    && s' == s.(heap := s.heap - {a},
                drains := s.drains[d := Collecting(s.heap[a].next, s.drains[d].batch + [s.heap[a].task])])
  }

  ghost predicate Post(s: State, s': State, d: nat) {
    && d < |s.drains| && s.drains[d].Collecting? && s.drains[d].rest.Null?
    && s' == s.(drains := s.drains[d := Posted(s.drains[d].batch)])
  }

  ghost predicate StartJob(s: State, s': State, d: nat) {
    && d < |s.drains| && s.drains[d].Posted?
    && s' == s.(drains := s.drains[d := Running(s.drains[d].batch)])
  }

  ghost predicate StartTask(s: State, s': State, d: nat) {
    && d < |s.drains| && s.drains[d].Running? && s.drains[d].batch != []
    && var b := s.drains[d].batch;
    && s' == s.(drains := s.drains[d := InTask(b[|b| - 1], b[..|b| - 1])], executed := s.executed + [b[|b| - 1]])
  }

  ghost predicate EndTask(s: State, s': State, d: nat) {
    && d < |s.drains| && s.drains[d].InTask?
    && s' == s.(drains := s.drains[d := Running(s.drains[d].batch)], ended := s.ended + [s.drains[d].task])
  }

  ghost predicate CheckEmpty(s: State, s': State, d: nat) {
    && d < |s.drains| && s.drains[d] == Running([]) && s.head.Null?
    && s' == s.(drains := s.drains[d := Window(|s.pushed|)])
  }

  ghost predicate CheckMore(s: State, s': State, d: nat) {
    && d < |s.drains| && s.drains[d] == Running([]) && s.head.At?
    && s' == s.(drains := s.drains[d := Exchanging])
  }

  ghost predicate StoreFlag(s: State, s': State, d: nat) {
    && d < |s.drains| && s.drains[d].Window?
    && s' == s.(scheduled := false, drains := s.drains[d := Ended(s.drains[d].mark)])
  }

  ghost predicate PushStep(s: State, s': State) {
    || (exists c, a, t :: Allocate(s, s', c, a, t))
    || (exists c :: Load(s, s', c))
    || (exists c :: SwapWins(s, s', c))
    || (exists c :: SwapFails(s, s', c))
  }

  ghost predicate FlagStep(s: State, s': State) {
    || (exists c :: FlagWins(s, s', c))
    || (exists c :: FlagLoses(s, s', c))
  }

  ghost predicate BatchStep(s: State, s': State, d: nat) {
    || Exchange(s, s', d) || Collect(s, s', d) || Post(s, s', d)
  }

  ghost predicate JobStep(s: State, s': State, d: nat) {
    || StartJob(s, s', d) || StartTask(s, s', d) || EndTask(s, s', d)
    || CheckEmpty(s, s', d) || CheckMore(s, s', d) || StoreFlag(s, s', d)
  }

  ghost predicate Next(s: State, s': State) {
    || PushStep(s, s')
    || FlagStep(s, s')
    || (exists d :: BatchStep(s, s', d))
    || (exists d :: JobStep(s, s', d))
  }

  // ----- Linked chains -----

  /** Following `next` from p visits exactly the addresses `ns` and then null. */
  ghost predicate Chain(h: map<Addr, Node>, p: Ptr, ns: seq<Addr>)
    decreases ns
  {
    if ns == [] then p.Null?
    else p == At(ns[0]) && ns[0] in h && Chain(h, h[ns[0]].next, ns[1..])
  }

  ghost function Tasks(h: map<Addr, Node>, ns: seq<Addr>): seq<Task>
    requires forall a :: a in ns ==> a in h
  {
    if ns == [] then [] else [h[ns[0]].task] + Tasks(h, ns[1..])
  }

  function Reverse<T>(s: seq<T>): seq<T> {
    if s == [] then [] else Reverse(s[1..]) + [s[0]]
  }

  lemma {:induction false} ReverseConcat<T>(a: seq<T>, b: seq<T>)
    ensures Reverse(a + b) == Reverse(b) + Reverse(a)
  {
    if a == [] {
      assert a + b == b;
    } else {
      assert (a + b)[1..] == a[1..] + b;
      ReverseConcat(a[1..], b);
    }
  }

  lemma {:induction false} ReverseLast<T>(s: seq<T>)
    requires s != []
    ensures Reverse(s) == [s[|s| - 1]] + Reverse(s[..|s| - 1])
  {
    var front, last := s[..|s| - 1], [s[|s| - 1]];
    assert s == front + last;
    assert Reverse(last) == Reverse(last[1..]) + [last[0]] == last;
    ReverseConcat(front, last);
  }

  lemma {:induction false} ChainInHeap(h: map<Addr, Node>, p: Ptr, ns: seq<Addr>)
    requires Chain(h, p, ns)
    ensures forall a :: a in ns ==> a in h
    decreases ns
  {
    if ns != [] {
      ChainInHeap(h, h[ns[0]].next, ns[1..]);
    }
  }

  /** Heaps that agree on the nodes of a chain hold the same chain with the same tasks. */
  lemma {:induction false} ChainFrame(h: map<Addr, Node>, h': map<Addr, Node>, p: Ptr, ns: seq<Addr>)
    requires Chain(h, p, ns)
    requires forall a :: a in ns && a in h ==> a in h' && h'[a] == h[a]
    ensures Chain(h', p, ns)
    ensures forall a :: a in ns ==> a in h && a in h'
    ensures Tasks(h', ns) == Tasks(h, ns)
    decreases ns
  {
    ChainInHeap(h, p, ns);
    if ns != [] {
      ChainFrame(h, h', h[ns[0]].next, ns[1..]);
    }
  }

  // ----- The invariant -----

  ghost function Last(s: State): Drain
    requires s.drains != []
  {
    s.drains[|s.drains| - 1]
  }

  predicate Marked(d: Drain) { d.Window? || d.Ended? }

  ghost predicate Distinct(ns: seq<Addr>) {
    forall i, j :: 0 <= i < j < |ns| ==> ns[i] != ns[j]
  }

  /** The chains behind `head_` and behind the private stack being popped. */
  datatype View = View(shared: seq<Addr>, own: seq<Addr>)

  /** One drain is active exactly when the flag is set, and it is the newest one. */
  ghost predicate Token(s: State) {
    && (forall d :: 0 <= d < |s.drains| - 1 ==> s.drains[d].Ended?)
    && (s.drains == [] ==> !s.scheduled)
    && (s.drains != [] ==> (s.scheduled <==> !Last(s).Ended?))
  }

  ghost predicate Owns(c: Caller, a: Addr) {
    (c.Loading? || c.Swapping?) && c.node == a
  }

  ghost predicate Linked(s: State, v: View) {
    && Chain(s.heap, s.head, v.shared)
    && (if s.drains != [] && Last(s).Collecting? then Chain(s.heap, Last(s).rest, v.own) else v.own == [])
    && (forall a :: a in v.shared || a in v.own ==> a in s.heap)
    && Distinct(v.shared) && Distinct(v.own)
    && (forall a :: a in v.shared ==> a !in v.own)
  }

  /** A node not yet pushed belongs to one caller and is on no chain. */
  ghost predicate Owned(s: State, v: View) {
    && (forall c, a :: 0 <= c < |s.callers| && Owns(s.callers[c], a) ==>
          a in s.heap && a !in v.shared && a !in v.own)
    && (forall c, e, a ::
          0 <= c < |s.callers| && 0 <= e < |s.callers| && Owns(s.callers[c], a) && Owns(s.callers[e], a) ==> c == e)
  }

  ghost predicate Shape(s: State, v: View) {
    Linked(s, v) && Owned(s, v)
  }

  /** The tasks already taken off the shared stack and not yet started, in the order they will run. */
  ghost function Batch(s: State, v: View): seq<Task>
    requires forall a :: a in v.own ==> a in s.heap
  {
    if s.drains == [] then []
    else match Last(s)
      case Collecting(_, b) => Reverse(b + Tasks(s.heap, v.own))
      case Posted(b) => Reverse(b)
      case Running(b) => Reverse(b)
      case InTask(_, b) => Reverse(b)
      case _ => []
  }

  /** Nothing is lost, duplicated or reordered. */
  ghost predicate Conserved(s: State, v: View)
    requires forall a :: a in v.shared || a in v.own ==> a in s.heap
  {
    s.pushed == s.executed + Batch(s, v) + Reverse(Tasks(s.heap, v.shared))
  }

  ghost predicate FlagsPending(s: State) {
    && |s.fates| == |s.pushed|
    && (forall c :: 0 <= c < |s.callers| && s.callers[c].Flagging? ==>
          s.callers[c].pos < |s.fates| && s.fates[s.callers[c].pos].Undecided?)
    && (forall c, e ::
          0 <= c < |s.callers| && 0 <= e < |s.callers| && s.callers[c].Flagging? && s.callers[c] == s.callers[e] ==>
          c == e)
    && (forall k :: 0 <= k < |s.fates| && s.fates[k].Undecided? ==>
          exists c :: 0 <= c < |s.callers| && s.callers[c] == Flagging(k))
  }

  ghost predicate Fates(s: State)
    requires |s.fates| == |s.pushed|
  {
    && (forall k :: 0 <= k < |s.fates| && s.fates[k].Lost? && s.fates[k].inWindow ==>
          0 <= s.fates[k].drain < |s.drains| && Marked(s.drains[s.fates[k].drain]))
    && (s.drains == [] ==> s.executed == [] && forall k :: 0 <= k < |s.fates| ==> s.fates[k].Undecided?)
    && (s.drains != [] && Marked(Last(s)) ==>
          && Last(s).mark == |s.executed|
          && (forall k :: |s.executed| <= k < |s.fates| ==>
                s.fates[k].Undecided? || s.fates[k] == Lost(|s.drains| - 1, true))
          && (forall k :: 0 <= k < |s.fates| && s.fates[k] == Lost(|s.drains| - 1, true) ==> |s.executed| <= k))
  }

  ghost predicate InvAt(s: State, v: View) {
    Token(s) && Shape(s, v) && Conserved(s, v) && FlagsPending(s) && Fates(s)
  }

  ghost predicate Inv(s: State) {
    exists v :: InvAt(s, v)
  }

  // ----- Every step keeps the invariant -----

  lemma InitHolds(s: State)
    requires Init(s)
    ensures Inv(s)
  {
    assert InvAt(s, View([], []));
  }

  /** Changing or adding a node that is on neither chain moves nothing. */
  lemma HeapFrame(s: State, s': State, v: View)
    requires Shape(s, v) && Conserved(s, v)
    requires s'.head == s.head && s'.drains == s.drains && s'.pushed == s.pushed && s'.executed == s.executed
    requires forall a :: a in v.shared || a in v.own ==> a in s'.heap && s'.heap[a] == s.heap[a]
    ensures Chain(s'.heap, s'.head, v.shared)
    ensures s.drains != [] && Last(s).Collecting? ==> Chain(s'.heap, Last(s).rest, v.own)
    ensures Conserved(s', v)
  {
    ChainFrame(s.heap, s'.heap, s.head, v.shared);
    if s.drains != [] && Last(s).Collecting? {
      ChainFrame(s.heap, s'.heap, Last(s).rest, v.own);
    }
  }

  /** Caller c moves to x: the undecided pushes are the same as before, less the one c was about to decide. */
  lemma PendingFrame(s: State, s': State, c: nat, x: Caller)
    requires FlagsPending(s) && c < |s.callers| && !x.Flagging?
    requires s'.callers == s.callers[c := x] && |s'.fates| == |s'.pushed| == |s.fates|
    requires forall k :: 0 <= k < |s.fates| ==>
      (s'.fates[k].Undecided? <==> s.fates[k].Undecided? && s.callers[c] != Flagging(k))
    ensures FlagsPending(s')
  {
    forall k | 0 <= k < |s'.fates| && s'.fates[k].Undecided?
      ensures exists e :: 0 <= e < |s'.callers| && s'.callers[e] == Flagging(k)
    {
      var e :| 0 <= e < |s.callers| && s.callers[e] == Flagging(k);
      assert s'.callers[e] == Flagging(k);
    }
  }

  lemma AllocateKeeps(s: State, s': State, v: View, c: nat, a: Addr, t: Task)
    requires InvAt(s, v) && Allocate(s, s', c, a, t)
    ensures InvAt(s', v)
  {
    HeapFrame(s, s', v);
    PendingFrame(s, s', c, Loading(a));
  }

  lemma LoadOwned(s: State, s': State, v: View, c: nat)
    requires Owned(s, v) && (Load(s, s', c) || SwapFails(s, s', c))
    ensures Owned(s', v)
  {
    forall e, a | 0 <= e < |s'.callers| && Owns(s'.callers[e], a) ensures Owns(s.callers[e], a) {}
  }

  lemma LoadKeeps(s: State, s': State, v: View, c: nat)
    requires InvAt(s, v) && (Load(s, s', c) || SwapFails(s, s', c))
    ensures InvAt(s', v)
  {
    assert Owns(s.callers[c], s.callers[c].node);
    HeapFrame(s, s', v);
    LoadOwned(s, s', v, c);
    PendingFrame(s, s', c, s'.callers[c]);
  }

  lemma SwapLinks(s: State, s': State, v: View, v': View, c: nat)
    requires Linked(s, v) && SwapWins(s, s', c) && v' == View([s.callers[c].node] + v.shared, v.own)
    requires s.callers[c].node !in v.shared && s.callers[c].node !in v.own
    ensures Linked(s', v')
  {
    assert v'.shared[1..] == v.shared;
  }

  lemma SwapOwned(s: State, s': State, v: View, v': View, c: nat)
    requires Owned(s, v) && SwapWins(s, s', c) && v' == View([s.callers[c].node] + v.shared, v.own)
    ensures Owned(s', v')
  {
    var a := s.callers[c].node;
    assert Owns(s.callers[c], a);
    forall e, b | 0 <= e < |s'.callers| && Owns(s'.callers[e], b)
      ensures e != c && Owns(s.callers[e], b) && b != a
    {}
  }

  lemma SwapConserves(s: State, s': State, v: View, v': View, c: nat)
    requires Linked(s, v) && Conserved(s, v) && SwapWins(s, s', c) && v' == View([s.callers[c].node] + v.shared, v.own)
    requires Linked(s', v')
    ensures Conserved(s', v')
  {
    var a := s.callers[c].node;
    assert v'.shared[1..] == v.shared;
    assert ([s.heap[a].task] + Tasks(s.heap, v.shared))[1..] == Tasks(s.heap, v.shared);
    assert Reverse(Tasks(s.heap, v'.shared)) == Reverse(Tasks(s.heap, v.shared)) + [s.heap[a].task];
    assert Batch(s', v') == Batch(s, v);
  }

  lemma SwapPending(s: State, s': State, c: nat)
    requires FlagsPending(s) && SwapWins(s, s', c)
    ensures FlagsPending(s')
  {
    forall k | 0 <= k < |s'.fates| && s'.fates[k].Undecided?
      ensures exists e :: 0 <= e < |s'.callers| && s'.callers[e] == Flagging(k)
    {
      if k == |s.pushed| {
        assert s'.callers[c] == Flagging(k);
      } else {
        var e :| 0 <= e < |s.callers| && s.callers[e] == Flagging(k);
        assert s'.callers[e] == Flagging(k);
      }
    }
  }

  lemma SwapKeeps(s: State, s': State, v: View, c: nat)
    requires InvAt(s, v) && SwapWins(s, s', c)
    ensures InvAt(s', View([s.callers[c].node] + v.shared, v.own))
  {
    var v' := View([s.callers[c].node] + v.shared, v.own);
    assert Owns(s.callers[c], s.callers[c].node);
    SwapLinks(s, s', v, v', c);
    SwapOwned(s, s', v, v', c);
    SwapConserves(s, s', v, v', c);
    SwapPending(s, s', c);
  }

  lemma FlagWinsKeeps(s: State, s': State, v: View, c: nat)
    requires InvAt(s, v) && FlagWins(s, s', c)
    ensures InvAt(s', v)
  {
    PendingFrame(s, s', c, Idle);
  }

  lemma FlagLosesKeeps(s: State, s': State, v: View, c: nat)
    requires InvAt(s, v) && FlagLoses(s, s', c)
    ensures InvAt(s', v)
  {
    PendingFrame(s, s', c, Idle);
  }

  lemma ExchangeShape(s: State, s': State, v: View, d: nat)
    requires Token(s) && Shape(s, v) && Exchange(s, s', d)
    ensures Token(s') && Shape(s', View([], v.shared))
  {
    assert d == |s.drains| - 1;
  }

  lemma ExchangeConserves(s: State, s': State, v: View, d: nat)
    requires Token(s) && Linked(s, v) && Conserved(s, v) && Exchange(s, s', d)
    ensures Conserved(s', View([], v.shared))
  {
    assert d == |s.drains| - 1;
    assert [] + Tasks(s.heap, v.shared) == Tasks(s.heap, v.shared);
  }

  lemma ExchangeFates(s: State, s': State, d: nat)
    requires Token(s) && FlagsPending(s) && Fates(s) && Exchange(s, s', d)
    ensures FlagsPending(s') && Fates(s')
  {}

  lemma ExchangeKeeps(s: State, s': State, v: View, d: nat)
    requires InvAt(s, v) && Exchange(s, s', d)
    ensures InvAt(s', View([], v.shared))
  {
    ExchangeShape(s, s', v, d);
    ExchangeConserves(s, s', v, d);
    ExchangeFates(s, s', d);
  }

  lemma CollectLinks(s: State, s': State, v: View, d: nat)
    requires Token(s) && Linked(s, v) && Collect(s, s', d)
    ensures v.own != [] && Linked(s', View(v.shared, v.own[1..]))
    ensures Tasks(s'.heap, v.shared) == Tasks(s.heap, v.shared)
    ensures Tasks(s'.heap, v.own[1..]) == Tasks(s.heap, v.own[1..])
  {
    assert d == |s.drains| - 1;
    var a := s.drains[d].rest.addr;
    assert a == v.own[0] && a !in v.shared && a !in v.own[1..];
    ChainFrame(s.heap, s'.heap, s.head, v.shared);
    ChainFrame(s.heap, s'.heap, s.heap[a].next, v.own[1..]);
  }

  lemma CollectKeeps(s: State, s': State, v: View, d: nat)
    requires InvAt(s, v) && Collect(s, s', d)
    ensures InvAt(s', View(v.shared, v.own[1..]))
  {
    assert d == |s.drains| - 1;
    CollectLinks(s, s', v, d);
    assert Owned(s', View(v.shared, v.own[1..]));
    var b := s.drains[d].batch;
    assert b + Tasks(s.heap, v.own) == b + [s.heap[v.own[0]].task] + Tasks(s.heap, v.own[1..]);
  }

  lemma PostKeeps(s: State, s': State, v: View, d: nat)
    requires InvAt(s, v) && Post(s, s', d)
    ensures InvAt(s', v)
  {
    assert d == |s.drains| - 1;
    var b := s.drains[d].batch;
    assert b + [] == b;
  }

  lemma StartTaskKeeps(s: State, s': State, v: View, d: nat)
    requires InvAt(s, v) && StartTask(s, s', d)
    ensures InvAt(s', v)
    ensures |s.executed| < |s.pushed| && s'.drains[d].InTask? && s'.drains[d].task == s.pushed[|s.executed|]
  {
    assert d == |s.drains| - 1;
    var b := s.drains[d].batch;
    assert Conserved(s', v) by {
      ReverseLast(b);
      MoveFirst(s.executed, b[|b| - 1], Reverse(b[..|b| - 1]), Reverse(Tasks(s.heap, v.shared)));
    }
  }

  lemma MoveFirst<T>(a: seq<T>, x: T, b: seq<T>, c: seq<T>)
    ensures a + ([x] + b) + c == (a + [x]) + b + c
  {
    assert a + ([x] + b) == (a + [x]) + b;
  }

  lemma TurnKeeps(s: State, s': State, v: View, d: nat)
    requires InvAt(s, v) && (StartJob(s, s', d) || EndTask(s, s', d))
    ensures InvAt(s', v)
  {
    assert d == |s.drains| - 1;
  }

  lemma CheckMoreKeeps(s: State, s': State, v: View, d: nat)
    requires InvAt(s, v) && CheckMore(s, s', d)
    ensures InvAt(s', v)
  {
    assert d == |s.drains| - 1;
  }

  lemma StoreFlagKeeps(s: State, s': State, v: View, d: nat)
    requires InvAt(s, v) && StoreFlag(s, s', d)
    ensures InvAt(s', v)
  {
    assert d == |s.drains| - 1;
  }

  lemma CheckEmptyKeeps(s: State, s': State, v: View, d: nat)
    requires InvAt(s, v) && CheckEmpty(s, s', d)
    ensures InvAt(s', v)
  {
    assert d == |s.drains| - 1;
    assert s.pushed == s.executed;
  }

  lemma PushStepKeeps(s: State, s': State)
    requires Inv(s) && PushStep(s, s')
    ensures Inv(s')
  {
    var v :| InvAt(s, v);
    if c, a, t :| Allocate(s, s', c, a, t) {
      AllocateKeeps(s, s', v, c, a, t);
    } else if c :| Load(s, s', c) {
      LoadKeeps(s, s', v, c);
    } else if c :| SwapWins(s, s', c) {
      SwapKeeps(s, s', v, c);
    } else {
      var c :| SwapFails(s, s', c);
      LoadKeeps(s, s', v, c);
    }
  }

  lemma FlagStepKeeps(s: State, s': State)
    requires Inv(s) && FlagStep(s, s')
    ensures Inv(s')
  {
    var v :| InvAt(s, v);
    if c :| FlagWins(s, s', c) {
      FlagWinsKeeps(s, s', v, c);
    } else {
      var c :| FlagLoses(s, s', c);
      FlagLosesKeeps(s, s', v, c);
    }
  }

  lemma BatchStepKeeps(s: State, s': State, d: nat)
    requires Inv(s) && BatchStep(s, s', d)
    ensures Inv(s')
  {
    var v :| InvAt(s, v);
    if Exchange(s, s', d) {
      ExchangeKeeps(s, s', v, d);
    } else if Collect(s, s', d) {
      CollectKeeps(s, s', v, d);
    } else {
      PostKeeps(s, s', v, d);
    }
  }

  lemma JobStepKeeps(s: State, s': State, d: nat)
    requires Inv(s) && JobStep(s, s', d)
    ensures Inv(s')
  {
    var v :| InvAt(s, v);
    if StartTask(s, s', d) {
      StartTaskKeeps(s, s', v, d);
    } else if CheckEmpty(s, s', d) {
      CheckEmptyKeeps(s, s', v, d);
    } else if CheckMore(s, s', d) {
      CheckMoreKeeps(s, s', v, d);
    } else if StoreFlag(s, s', d) {
      StoreFlagKeeps(s, s', v, d);
    } else {
      TurnKeeps(s, s', v, d);
    }
  }

  lemma StepKeeps(s: State, s': State)
    requires Inv(s) && Next(s, s')
    ensures Inv(s')
  {
    if PushStep(s, s') {
      PushStepKeeps(s, s');
    } else if FlagStep(s, s') {
      FlagStepKeeps(s, s');
    } else if d :| BatchStep(s, s', d) {
      BatchStepKeeps(s, s', d);
    } else {
      var d :| JobStep(s, s', d);
      JobStepKeeps(s, s', d);
    }
  }

  // ----- Which tasks: the caller's own is pushed, and the started one runs -----

  /** The body that runs is that of the task started last, and all others have ended. */
  ghost predicate Bodies(s: State) {
    s.executed == s.ended + if s.drains != [] && Last(s).InTask? then [Last(s).task] else []
  }

  ghost predicate Arguments(s: State) {
    && |s.args| == |s.callers|
    && (forall c, a :: 0 <= c < |s.callers| && Owns(s.callers[c], a) && a in s.heap ==> s.heap[a].task == s.args[c])
    && (forall c :: 0 <= c < |s.callers| && s.callers[c].Flagging? ==> Pushed(s, s.callers[c].pos, s.args[c]))
  }

  ghost predicate Pushed(s: State, k: nat, t: Task) { k < |s.pushed| && s.pushed[k] == t }

  lemma CallerBodies(s: State, s': State)
    requires Token(s) && Bodies(s) && (PushStep(s, s') || FlagStep(s, s'))
    ensures Bodies(s')
  {}

  lemma DrainBodies(s: State, s': State, d: nat)
    requires Token(s) && Bodies(s) && (BatchStep(s, s', d) || JobStep(s, s', d))
    ensures Bodies(s')
  {
    assert d == |s.drains| - 1;
  }

  lemma AllocateArguments(s: State, s': State, v: View, c: nat, a: Addr, t: Task)
    requires Owned(s, v) && Arguments(s) && Allocate(s, s', c, a, t)
    ensures Arguments(s')
  {
    forall e: nat, b | e < |s'.callers| && Owns(s'.callers[e], b) ensures e == c || b != a {
      assert e != c ==> Owns(s.callers[e], b);
    }
  }

  lemma NodeArguments(s: State, s': State, c: nat)
    requires Arguments(s) && (Load(s, s', c) || SwapWins(s, s', c) || SwapFails(s, s', c))
    ensures Arguments(s')
  {
    assert Owns(s.callers[c], s.callers[c].node);
  }

  lemma FlagArguments(s: State, s': State, c: nat)
    requires Arguments(s) && (FlagWins(s, s', c) || FlagLoses(s, s', c))
    ensures Arguments(s')
  {}

  lemma DrainArguments(s: State, s': State, d: nat)
    requires Arguments(s) && (BatchStep(s, s', d) || JobStep(s, s', d))
    ensures Arguments(s')
  {}

  lemma NextArguments(s: State, s': State, v: View)
    requires Owned(s, v) && Arguments(s) && Next(s, s')
    ensures Arguments(s')
  {
    if c, a, t :| Allocate(s, s', c, a, t) {
      AllocateArguments(s, s', v, c, a, t);
    } else if c :| Load(s, s', c) || SwapWins(s, s', c) || SwapFails(s, s', c) {
      NodeArguments(s, s', c);
    } else if c :| FlagWins(s, s', c) || FlagLoses(s, s', c) {
      FlagArguments(s, s', c);
    } else {
      var d: nat :| BatchStep(s, s', d) || JobStep(s, s', d);
      DrainArguments(s, s', d);
    }
  }

  ghost predicate Full(s: State) { Inv(s) && Bodies(s) && Arguments(s) }

  lemma FullStepKeeps(s: State, s': State)
    requires Full(s) && Next(s, s')
    ensures Full(s')
  {
    assert Inv(s') by { StepKeeps(s, s'); }
    var v :| InvAt(s, v);
    NextArguments(s, s', v);
    if PushStep(s, s') || FlagStep(s, s') {
      CallerBodies(s, s');
    } else {
      var d: nat :| BatchStep(s, s', d) || JobStep(s, s', d);
      DrainBodies(s, s', d);
    }
  }

  // ----- What it means -----

  /** A body that runs is that of the task started last; every other started task has ended, in the same order. */
  ghost predicate RunsWhatItStarts(s: State) {
    && (forall d :: 0 <= d < |s.drains| && s.drains[d].InTask? ==> s.executed == s.ended + [s.drains[d].task])
    && ((forall d :: 0 <= d < |s.drains| ==> !s.drains[d].InTask?) ==> s.executed == s.ended)
  }

  /** A push that waits for its flag put the argument of its own call into the history. */
  ghost predicate PushesItsTask(s: State) {
    |s.args| == |s.callers| && forall c :: 0 <= c < |s.callers| && s.callers[c].Flagging? ==>
      Pushed(s, s.callers[c].pos, s.args[c])
  }

  /** Started tasks, then the batch taken off the stack, then the stack from bottom to top: exactly the pushes. */
  ghost predicate NothingLost(s: State) {
    exists v :: Linked(s, v) && Conserved(s, v)
  }

  predicate Active(d: Drain) { !d.Ended? }

  /** At most one drain is under way, only while the flag is set, and the flag is never set without one. */
  ghost predicate OneAtATime(s: State) {
    && (forall d, e :: 0 <= d < |s.drains| && 0 <= e < |s.drains| && Active(s.drains[d]) && Active(s.drains[e]) ==> d == e)
    && (s.scheduled <==> exists d :: 0 <= d < |s.drains| && Active(s.drains[d]))
  }

  /** Popping a batch never reads a freed node, and a caller's node is never freed under it. */
  ghost predicate NoDanglingNode(s: State) {
    && (forall d :: 0 <= d < |s.drains| && s.drains[d].Collecting? && s.drains[d].rest.At? ==>
          s.drains[d].rest.addr in s.heap)
    && (forall c, a :: 0 <= c < |s.callers| && Owns(s.callers[c], a) ==> a in s.heap)
  }

  /** With the flag clear: a task whose caller has not yet tried the flag has that caller on its way, and any
      other task is still waiting if and only if it was pushed, and lost the flag, inside the window of the last drain. */
  ghost predicate IdleExactly(s: State) {
    |s.fates| == |s.pushed| && (!s.scheduled ==>
      && (forall k :: 0 <= k < |s.pushed| && s.fates[k].Undecided? ==>
            exists c :: 0 <= c < |s.callers| && s.callers[c] == Flagging(k))
      && (forall k :: 0 <= k < |s.pushed| && !s.fates[k].Undecided? ==>
            (|s.executed| <= k <==> s.fates[k] == Lost(|s.drains| - 1, true))))
  }

  lemma OrderMeans(s: State, v: View)
    requires InvAt(s, v)
    ensures s.executed <= s.pushed && NothingLost(s) && NoDanglingNode(s)
  {
    assert Linked(s, v) && Conserved(s, v);
  }

  lemma TokenMeans(s: State)
    requires Token(s)
    ensures OneAtATime(s)
  {
    assert forall d :: 0 <= d < |s.drains| && Active(s.drains[d]) ==> d == |s.drains| - 1;
  }

  lemma FatesMean(s: State)
    requires Token(s) && FlagsPending(s) && Fates(s)
    ensures IdleExactly(s)
  {}

  lemma InvMeans(s: State)
    requires Inv(s)
    ensures s.executed <= s.pushed && NothingLost(s) && OneAtATime(s) && NoDanglingNode(s) && IdleExactly(s)
  {
    var v :| InvAt(s, v);
    OrderMeans(s, v);
    TokenMeans(s);
    FatesMean(s);
  }

  lemma FullMeans(s: State)
    requires Full(s)
    ensures RunsWhatItStarts(s) && PushesItsTask(s)
  {
    assert Token(s) by { var v :| InvAt(s, v); }
  }

  lemma RunKeeps(run: seq<State>)
    requires Runs.IsRun(Init, Next, run)
    ensures forall i :: 0 <= i < |run| ==> Full(run[i])
  {
    forall s | Init(s) ensures Full(s) { InitHolds(s); }
    forall s, s' | Full(s) && Next(s, s') ensures Full(s') { FullStepKeeps(s, s'); }
    Runs.Invariant(Init, Next, Full, run);
  }

  /** In every state of every run: callers push their own tasks; tasks start in push order, each at most once, one at a
      time, none lost, and what is started is what runs; and which tasks an idle strand leaves on its stack. */
  lemma StrandIsCorrect(run: seq<State>)
    requires Runs.IsRun(Init, Next, run)
    ensures forall i :: 0 <= i < |run| ==>
      && run[i].executed <= run[i].pushed
      && NothingLost(run[i]) && OneAtATime(run[i]) && NoDanglingNode(run[i]) && IdleExactly(run[i])
      && RunsWhatItStarts(run[i]) && PushesItsTask(run[i])
  {
    RunKeeps(run);
    forall i | 0 <= i < |run|
      ensures run[i].executed <= run[i].pushed
      ensures NothingLost(run[i]) && OneAtATime(run[i]) && NoDanglingNode(run[i]) && IdleExactly(run[i])
      ensures RunsWhatItStarts(run[i]) && PushesItsTask(run[i])
    {
      FullMeans(run[i]);
      InvMeans(run[i]);
    }
  }

  /** While the flag is set the active drain can take its next step, whatever the callers do. */
  lemma NotStuck(run: seq<State>, i: nat) returns (s': State, d: nat)
    requires Runs.IsRun(Init, Next, run) && i < |run| && run[i].scheduled
    ensures d < |run[i].drains| && Active(run[i].drains[d])
    ensures BatchStep(run[i], s', d) || JobStep(run[i], s', d)
  {
    RunKeeps(run);
    var s := run[i];
    InvMeans(s);
    d :| 0 <= d < |s.drains| && Active(s.drains[d]);
    s' := DrainStep(s, d);
  }

  lemma DrainStep(s: State, d: nat) returns (s': State)
    requires d < |s.drains| && Active(s.drains[d]) && NoDanglingNode(s)
    ensures BatchStep(s, s', d) || JobStep(s, s', d)
  {
    match s.drains[d]
    case Exchanging => s' := s.(head := Null, drains := s.drains[d := Collecting(s.head, [])]);
    case Collecting(Null, b) => s' := s.(drains := s.drains[d := Posted(b)]);
    case Collecting(At(a), b) =>
      s' := s.(heap := s.heap - {a}, drains := s.drains[d := Collecting(s.heap[a].next, b + [s.heap[a].task])]);
    case Posted(b) => s' := s.(drains := s.drains[d := Running(b)]);
    case Running(b) => s' := TurnStep(s, d);
    case InTask(t, b) => s' := s.(drains := s.drains[d := Running(b)], ended := s.ended + [t]);
    case Window(k) => s' := s.(scheduled := false, drains := s.drains[d := Ended(k)]);
  }

  lemma TurnStep(s: State, d: nat) returns (s': State)
    requires d < |s.drains| && s.drains[d].Running?
    ensures JobStep(s, s', d)
  {
    var b := s.drains[d].batch;
    if b != [] {
      var t := b[|b| - 1];
      s' := s.(drains := s.drains[d := InTask(t, b[..|b| - 1])], executed := s.executed + [t]);
      assert StartTask(s, s', d);
    } else if s.head.Null? {
      s' := s.(drains := s.drains[d := Window(|s.pushed|)]);
      assert CheckEmpty(s, s', d);
    } else {
      s' := s.(drains := s.drains[d := Exchanging]);
      assert CheckMore(s, s', d);
    }
  }

  /** The private stack of drain d holds every task not yet started, to be run in push order. */
  ghost predicate TookAll(s: State, d: nat, own: seq<Addr>) {
    && s.head == Null
    && d < |s.drains| && s.drains[d].Collecting? && Chain(s.heap, s.drains[d].rest, own)
    && (forall a :: a in own ==> a in s.heap)
    && |s.executed| <= |s.pushed| && Reverse(Tasks(s.heap, own)) == s.pushed[|s.executed|..]
  }

  ghost predicate TookEverything(s: State, d: nat) { exists own :: TookAll(s, d, own) }

  lemma ExchangeTakes(s: State, s': State, v: View, d: nat)
    requires InvAt(s, v) && Exchange(s, s', d)
    ensures TookAll(s', d, v.shared)
  {
    assert d == |s.drains| - 1;
    assert s.pushed == s.executed + Reverse(Tasks(s.heap, v.shared));
  }

  /** The exchange of a drain takes every task not yet started, in push order, including those an idle strand had left. */
  lemma ExchangeTakesAll(run: seq<State>, i: nat, d: nat)
    requires Runs.IsRun(Init, Next, run) && i + 1 < |run| && Exchange(run[i], run[i + 1], d)
    ensures TookEverything(run[i + 1], d)
  {
    RunKeeps(run);
    var v :| InvAt(run[i], v);
    ExchangeTakes(run[i], run[i + 1], v, d);
  }

  /** A first task goes through the strand alone, up to the emptiness check that follows it. */
  lemma FirstTaskRuns() returns (end: State)
    ensures Runs.Reachable(Init, Next, end)
    ensures end == State(map[], Null, true, [Idle], [Window(1)], [7], [Won], [7], [7], [7])
  {
    var s0 := State(map[], Null, false, [Idle], [], [], [], [], [], [0]);
    var s1 := s0.(heap := map[0 := Node(7, Null)], callers := [Loading(0)], args := [7]);
    assert Allocate(s0, s1, 0, 0, 7);
    var s2 := s1.(callers := [Swapping(0)]);
    assert Load(s1, s2, 0);
    var s3 := s2.(head := At(0), callers := [Flagging(0)], pushed := [7], fates := [Undecided]);
    assert SwapWins(s2, s3, 0);
    var s4 := s3.(scheduled := true, callers := [Idle], drains := [Exchanging], fates := [Won]);
    assert FlagWins(s3, s4, 0);
    end := Runs.Start(Init, Next, s0);
    end := Runs.Follow(Init, Next, end, s1);
    end := Runs.Follow(Init, Next, end, s2);
    end := Runs.Follow(Init, Next, end, s3);
    end := Runs.Follow(Init, Next, end, s4);
    end := BatchRuns(end);
  }

  lemma BatchRuns(start: State) returns (end: State)
    requires Runs.Reachable(Init, Next, start)
    requires start == State(map[0 := Node(7, Null)], At(0), true, [Idle], [Exchanging], [7], [Won], [], [], [7])
    ensures Runs.Reachable(Init, Next, end)
    ensures end == State(map[], Null, true, [Idle], [Window(1)], [7], [Won], [7], [7], [7])
  {
    var s5 := State(map[0 := Node(7, Null)], Null, true, [Idle], [Collecting(At(0), [])], [7], [Won], [], [], [7]);
    assert Exchange(start, s5, 0) && BatchStep(start, s5, 0);
    end := Runs.Follow(Init, Next, start, s5);
    var s6 := s5.(heap := map[], drains := [Collecting(Null, [7])]);
    assert s5.heap - {0} == map[] && s5.drains[0].batch + [7] == [7];
    assert Collect(s5, s6, 0) && BatchStep(s5, s6, 0);
    end := Runs.Follow(Init, Next, end, s6);
    var s7 := s6.(drains := [Posted([7])]);
    assert Post(s6, s7, 0) && BatchStep(s6, s7, 0);
    end := Runs.Follow(Init, Next, end, s7);
    end := JobRuns(end);
  }

  lemma JobRuns(start: State) returns (end: State)
    requires Runs.Reachable(Init, Next, start)
    requires start == State(map[], Null, true, [Idle], [Posted([7])], [7], [Won], [], [], [7])
    ensures Runs.Reachable(Init, Next, end)
    ensures end == State(map[], Null, true, [Idle], [Window(1)], [7], [Won], [7], [7], [7])
  {
    var s8 := start.(drains := [Running([7])]);
    assert StartJob(start, s8, 0) && JobStep(start, s8, 0);
    end := Runs.Follow(Init, Next, start, s8);
    var s9 := s8.(drains := [InTask(7, [])], executed := [7]);
    assert StartTask(s8, s9, 0) && JobStep(s8, s9, 0);
    end := Runs.Follow(Init, Next, end, s9);
    end := JobEnds(end);
  }

  lemma JobEnds(start: State) returns (end: State)
    requires Runs.Reachable(Init, Next, start)
    requires start == State(map[], Null, true, [Idle], [InTask(7, [])], [7], [Won], [7], [], [7])
    ensures Runs.Reachable(Init, Next, end)
    ensures end == State(map[], Null, true, [Idle], [Window(1)], [7], [Won], [7], [7], [7])
  {
    var s10 := start.(drains := [Running([])], ended := [7]);
    assert EndTask(start, s10, 0) && JobStep(start, s10, 0);
    end := Runs.Follow(Init, Next, start, s10);
    var s11 := s10.(drains := [Window(1)]);
    assert CheckEmpty(s10, s11, 0) && JobStep(s10, s11, 0);
    end := Runs.Follow(Init, Next, end, s11);
  }

  /** A second task is pushed while the drain is between its emptiness check and its store. */
  lemma PushInWindow() returns (end: State)
    ensures Runs.Reachable(Init, Next, end)
    ensures end ==
      State(map[0 := Node(8, Null)], At(0), true, [Flagging(1)], [Window(1)], [7, 8], [Won, Undecided], [7], [7], [8])
  {
    end := FirstTaskRuns();
    var s11 := end;
    var s12 := s11.(heap := map[0 := Node(8, Null)], callers := [Loading(0)], args := [8]);
    assert Allocate(s11, s12, 0, 0, 8);
    end := Runs.Follow(Init, Next, end, s12);
    var s13 := s12.(callers := [Swapping(0)]);
    assert Load(s12, s13, 0);
    end := Runs.Follow(Init, Next, end, s13);
    var s14 := s13.(head := At(0), callers := [Flagging(1)], pushed := [7, 8], fates := [Won, Undecided]);
    assert SwapWins(s13, s14, 0);
    end := Runs.Follow(Init, Next, end, s14);
  }

  /** The documented order does not include promptness: a run after which every call has returned, no drain is
      left and a task still waits. */
  lemma StrandedTask() returns (end: State)
    ensures Runs.Reachable(Init, Next, end)
    ensures end == State(map[0 := Node(8, Null)], At(0), false, [Idle], [Ended(1)],
                         [7, 8], [Won, Lost(0, true)], [7], [7], [8])
  {
    end := PushInWindow();
    var s14 := end;
    var s15 := s14.(callers := [Idle], fates := [Won, Lost(0, true)]);
    assert FlagLoses(s14, s15, 0);
    end := Runs.Follow(Init, Next, end, s15);
    var s16 := s15.(scheduled := false, drains := [Ended(1)]);
    assert StoreFlag(s15, s16, 0) && JobStep(s15, s16, 0);
    end := Runs.Follow(Init, Next, end, s16);
  }
}
