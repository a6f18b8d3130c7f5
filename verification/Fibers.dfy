/**
 * The tinyfibers scheduler with its parking lots, wait queues, timers and join handles. Everything runs on one thread:
 * the io_context runs posted handlers in the order they were posted, a handler switches to its fiber, and the
 * fiber runs until its next system call. Each such indivisible piece is one step; FiberScheduler.dfy has the object.
 */
module Fibers {
  import Runs

  type FiberId = nat
  type LotId = nat
  type QueueId = nat
  type HandleId = nat

  datatype Option<T> = None | Some(value: T)

  datatype FiberState = Starting | Runnable | Running | Suspended | Terminated

  datatype Fiber = Fiber(state: FiberState, watcher: Option<HandleId>)

  /** A user's parking lot. Wake never clears `waitee_`; `woken` says that it has resumed somebody since the last Park. */
  datatype Lot = Lot(waitee: Option<FiberId>, woken: bool)

  /** A join handle with its own parking lot. */
  datatype Handle = Handle(fiber: Option<FiberId>, completed: bool, waitee: Option<FiberId>)

  /** The one place a live fiber is in. */
  datatype Place =
    | Ready                  // posted to the io_context
    | OnCpu
    | InLot(lot: LotId)
    | InQueue(queue: QueueId)
    | InTimer
    | InJoin(handle: HandleId)

  /** History: fibers in the order they became ready and in the order they were switched to, the handles that resumed a
      joiner, and for each wait queue the fibers in the order they parked there and in the order they were woken. */
  datatype Past = Past(
    readied: seq<FiberId>, stepped: seq<FiberId>, joinWakes: seq<HandleId>,
    parked: map<QueueId, seq<FiberId>>, woken: map<QueueId, seq<FiberId>>)

  /** The state of the scheduler. `place` is where each live fiber is. */
  datatype World = World(
    fibers: map<FiberId, Fiber>, posted: seq<FiberId>, running: Option<FiberId>, nextId: nat,
    lots: map<LotId, Lot>, queues: map<QueueId, seq<FiberId>>, timers: set<FiberId>,
    handles: map<HandleId, Handle>,
    joining: map<FiberId, HandleId>,   // fibers that are inside Join and have not yet returned from it
    place: map<FiberId, Place>, past: Past)

  const EMPTY := World(map[], [], None, 0, map[], map[], {}, map[], map[], map[], Past([], [], [], map[], map[]))

  // ----- Invariant -----

  ghost predicate NoDuplicates(s: seq<nat>) {
    forall i, j :: 0 <= i < j < |s| ==> s[i] != s[j]
  }

  predicate Fits(st: FiberState, p: Place) {
    match p
    case Ready => st == Starting || st == Runnable
    case OnCpu => st == Running
    case _ => st == Suspended
  }

  ghost predicate StatesAgree(w: World) {
    && w.place.Keys == w.fibers.Keys
    && forall f :: f in w.fibers ==> f < w.nextId && Fits(w.fibers[f].state, w.place[f])
  }

  /** The structure behind place p holds fiber f. */
  ghost predicate Holds(w: World, p: Place, f: FiberId) {
    match p
    case Ready => f in w.posted
    case OnCpu => w.running == Some(f)
    case InLot(l) => l in w.lots && w.lots[l].waitee == Some(f) && !w.lots[l].woken
    case InQueue(q) => q in w.queues && f in w.queues[q]
    case InTimer => f in w.timers
    case InJoin(h) => h in w.handles && w.handles[h].waitee == Some(f) && !w.handles[h].completed
  }

  ghost predicate At(w: World, p: Place, f: FiberId) {
    f in w.place && w.place[f] == p
  }

  /** Every live fiber is held by exactly one structure, and no structure holds anything else. */
  ghost predicate PlacesAgree(w: World) {
    forall p, f :: Holds(w, p, f) <==> At(w, p, f)
  }

  ghost predicate HeldOnce(w: World) {
    && NoDuplicates(w.posted)
    && (forall q :: q in w.queues ==> NoDuplicates(w.queues[q]))
    && (forall l :: l in w.lots && w.lots[l].woken ==> w.lots[l].waitee.Some?)
  }

  ghost predicate Watches(w: World, h: HandleId, f: FiberId) {
    f in w.fibers && w.fibers[f].watcher == Some(h)
  }

  ghost predicate Attached(w: World, h: HandleId, f: FiberId) {
    h in w.handles && w.handles[h].fiber == Some(f)
  }

  ghost predicate Completes(w: World, h: HandleId) {
    h in w.handles && w.handles[h].completed
  }

  /** A handle watches exactly the fiber it is attached to until it completes; then that fiber is gone for good. */
  ghost predicate HandlesAgree(w: World) {
    && (forall h, f :: Watches(w, h, f) <==> Attached(w, h, f) && !Completes(w, h))
    && (forall h, f: FiberId :: Attached(w, h, f) && Completes(w, h) ==> f !in w.fibers && f < w.nextId)
  }

  /** A fiber inside Join is parked in its handle until the handle completes. */
  ghost predicate JoinsAgree(w: World) {
    && (forall f :: f in w.joining ==>
          var h := w.joining[f];
          && f in w.place && h in w.handles && w.handles[h].waitee == Some(f) && w.handles[h].fiber.Some?
          && if w.handles[h].completed then w.place[f] == Ready || w.place[f] == OnCpu else w.place[f] == InJoin(h))
    && (forall f :: f in w.place && w.place[f].InJoin? ==> f in w.joining && w.joining[f] == w.place[f].handle)
  }

  ghost predicate HistoryAgrees(w: World) {
    && w.past.readied == w.past.stepped + w.posted
    && NoDuplicates(w.past.joinWakes)
    && forall h :: h in w.past.joinWakes ==> h in w.handles && w.handles[h].completed
  }

  ghost predicate Inv(w: World) {
    StatesAgree(w) && PlacesAgree(w) && HeldOnce(w) && HandlesAgree(w) && JoinsAgree(w) && HistoryAgrees(w)
  }

  // ----- What each piece of code does -----

  function Put(w: World, f: FiberId, st: FiberState, p: Place): World
    requires f in w.fibers
  {
    w.(fibers := w.fibers[f := w.fibers[f].(state := st)], place := w.place[f := p])
  }

  function Readied(p: Past, f: FiberId): Past { p.(readied := p.readied + [f]) }

  /** Resume: the fiber becomes runnable and is posted. Its assertion is this precondition. */
  function Resumed(w: World, f: FiberId): World
    requires f in w.fibers && w.fibers[f].state == Suspended
  {
    Put(w, f, Runnable, Ready).(posted := w.posted + [f], past := Readied(w.past, f))
  }

  /** Suspend: the running fiber gives up the processor for place p. */
  function Parked(w: World, f: FiberId, p: Place): World
    requires f in w.fibers
  {
    Put(w, f, Suspended, p).(running := None)
  }

  function Stepping(w: World): World
    requires w.posted != [] && w.posted[0] in w.fibers
  {
    var f := w.posted[0];
    Put(w, f, Running, OnCpu).(running := Some(f), posted := w.posted[1..],
                               past := w.past.(stepped := w.past.stepped + [f]))
  }

  function Spawned(w: World): World {
    var f := w.nextId;
    w.(fibers := w.fibers[f := Fiber(Starting, None)], place := w.place[f := Ready], nextId := f + 1,
       posted := w.posted + [f], past := Readied(w.past, f))
  }

  function Yielded(w: World, f: FiberId): World
    requires f in w.fibers
  {
    Put(w, f, Runnable, Ready).(running := None, posted := w.posted + [f], past := Readied(w.past, f))
  }

  /** The watcher of a destroyed fiber completes and wakes its joiner. */
  function Completed(w: World, h: HandleId): World
    requires h in w.handles && AssertionHolds(w, w.handles[h].waitee)
  {
    var done := w.(handles := w.handles[h := w.handles[h].(completed := true)]);
    match w.handles[h].waitee
    case None => done
    case Some(j) => Resumed(done.(past := w.past.(joinWakes := w.past.joinWakes + [h])), j)
  }

  /** Resume's assertion for a fiber that a parking lot is about to wake. */
  predicate AssertionHolds(w: World, waitee: Option<FiberId>) {
    waitee.Some? ==> waitee.value in w.fibers && w.fibers[waitee.value].state == Suspended
  }

  function Gone(w: World, f: FiberId): World {
    w.(fibers := w.fibers - {f}, place := w.place - {f}, running := None)
  }

  predicate WatcherReady(w: World, f: FiberId)
    requires f in w.fibers
  {
    w.fibers[f].watcher.Some? ==>
      var h := w.fibers[f].watcher.value;
      h in w.handles && AssertionHolds(Gone(w, f), w.handles[h].waitee)
  }

  /** Terminate: the fiber is destroyed. */
  function Destroyed(w: World, f: FiberId): World
    requires f in w.fibers && WatcherReady(w, f)
  {
    match w.fibers[f].watcher
    case None => Gone(w, f)
    case Some(h) => Completed(Gone(w, f), h)
  }

  // ----- Steps -----

  /** Fiber f may make a system call now. */
  predicate Acts(w: World, f: FiberId) {
    w.running == Some(f) && f in w.fibers && f !in w.joining
  }

  /** The io_context runs the next posted handler. */
  ghost predicate Step(w: World, w': World) {
    w.running == None && w.posted != [] && w.posted[0] in w.fibers && w' == Stepping(w)
  }

  ghost predicate FireTimer(w: World, w': World, f: FiberId) {
    && w.running == None && f in w.timers && AssertionHolds(w, Some(f))
    && w' == Resumed(w.(timers := w.timers - {f}), f)
  }

  ghost predicate Spawn(w: World, w': World) { w' == Spawned(w) }

  ghost predicate Yield(w: World, w': World, f: FiberId) {
    Acts(w, f) && w' == Yielded(w, f)
  }

  ghost predicate SleepFor(w: World, w': World, f: FiberId) {
    Acts(w, f) && w' == Parked(w.(timers := w.timers + {f}), f, InTimer)
  }

  ghost predicate ParkInQueue(w: World, w': World, f: FiberId, q: QueueId) {
    Acts(w, f) && q in w.queues && w' == Parked(Enqueued(w, f, q), f, InQueue(q))
  }

  function Append(m: map<QueueId, seq<FiberId>>, q: QueueId, f: FiberId): map<QueueId, seq<FiberId>> {
    m[q := (if q in m then m[q] else []) + [f]]
  }

  function Enqueued(w: World, f: FiberId, q: QueueId): World
    requires q in w.queues
  {
    w.(queues := w.queues[q := w.queues[q] + [f]],
       past := w.past.(parked := Append(w.past.parked, q, f)))
  }

  /** On an empty queue WakeOne does nothing. */
  ghost predicate WakeOne(w: World, w': World, q: QueueId) {
    && q in w.queues && w.queues[q] != [] && AssertionHolds(w, Some(w.queues[q][0]))
    && w' == Resumed(Dequeued(w, q), w.queues[q][0])
  }

  function Dequeued(w: World, q: QueueId): World
    requires q in w.queues && w.queues[q] != []
  {
    w.(queues := w.queues[q := w.queues[q][1..]],
       past := w.past.(woken := Append(w.past.woken, q, w.queues[q][0])))
  }

  /** A lot is parked in while nobody is parked there: it is new, or its last waitee has been woken. */
  ghost predicate ParkInLot(w: World, w': World, f: FiberId, l: LotId) {
    && Acts(w, f) && l in w.lots && Vacant(w.lots[l])
    && w' == LotTaken(w, f, l)
  }

  predicate Vacant(lot: Lot) { lot.waitee == None || lot.woken }

  /** Park overwrites the waitee of the lot, whoever that is. */
  function LotTaken(w: World, f: FiberId, l: LotId): World
    requires f in w.fibers
  {
    Parked(w.(lots := w.lots[l := Lot(Some(f), false)]), f, InLot(l))
  }

  /** A parking lot resumes somebody once for each Park; Wake on a lot without a waitee does nothing. */
  ghost predicate WakeLot(w: World, w': World, l: LotId) {
    && l in w.lots && !w.lots[l].woken && w.lots[l].waitee.Some? && AssertionHolds(w, w.lots[l].waitee)
    && w' == LotWoken(w, l)
  }

  /** Wake resumes the waitee of the lot, wherever that is. */
  function LotWoken(w: World, l: LotId): World
    requires l in w.lots && w.lots[l].waitee.Some? && AssertionHolds(w, w.lots[l].waitee)
  {
    Resumed(w.(lots := w.lots[l := w.lots[l].(woken := true)]), w.lots[l].waitee.value)
  }

  ghost predicate NewQueueOrLot(w: World, w': World, i: nat) {
    || (i !in w.queues && w' == NewQueue(w, i))
    || (i !in w.lots && w' == w.(lots := w.lots[i := Lot(None, false)]))
  }

  function NewQueue(w: World, i: nat): World {
    w.(queues := w.queues[i := []],
       past := w.past.(parked := w.past.parked[i := []], woken := w.past.woken[i := []]))
  }

  /** A new handle watches a fiber that nobody watches yet. */
  ghost predicate Attach(w: World, w': World, h: HandleId, f: FiberId) {
    && h !in w.handles && f in w.fibers && w.fibers[f].watcher == None
    && w' == Watching(w, h, f)
  }

  function Watching(w: World, h: HandleId, f: FiberId): World
    requires f in w.fibers
  {
    w.(handles := w.handles[h := Handle(Some(f), false, None)],
       fibers := w.fibers[f := w.fibers[f].(watcher := Some(h))])
  }

  /** Moving an attached handle that nobody is joining on: the target of an uncompleted one gets a new watcher. */
  ghost predicate MoveHandle(w: World, w': World, h: HandleId, h': HandleId) {
    && h in w.handles && h' !in w.handles && w.handles[h].fiber.Some? && w.handles[h].waitee == None
    && var f := w.handles[h].fiber.value;
    && var moved := w.(handles := w.handles[h := w.handles[h].(fiber := None)][h' := Handle(Some(f), w.handles[h].completed, None)]);
    && if w.handles[h].completed then w' == moved
       else f in w.fibers && w' == moved.(fibers := w.fibers[f := w.fibers[f].(watcher := Some(h'))])
  }

  /** Join on an attached handle: returns at once if completed, else parks in the lot of the handle. */
  ghost predicate Join(w: World, w': World, f: FiberId, h: HandleId) {
    && Acts(w, f) && h in w.handles && w.handles[h].fiber.Some? && w.handles[h].waitee == None
    && if w.handles[h].completed then w' == w.(handles := w.handles[h := w.handles[h].(fiber := None)])
       else w' == Parked(w.(handles := w.handles[h := w.handles[h].(waitee := Some(f))], joining := w.joining[f := h]),
                         f, InJoin(h))
  }

  /** A joiner that was parked runs again and returns from Join. */
  ghost predicate JoinReturns(w: World, w': World, f: FiberId) {
    && w.running == Some(f) && f in w.joining && w.joining[f] in w.handles
    && var h := w.joining[f];
    && w' == w.(handles := w.handles[h := w.handles[h].(fiber := None)], joining := w.joining - {f})
  }

  /** Detach touches the target, so it needs one that has not completed. */
  ghost predicate Detach(w: World, w': World, h: HandleId) {
    && h in w.handles && w.handles[h].fiber.Some? && !w.handles[h].completed && w.handles[h].waitee == None
    && var f := w.handles[h].fiber.value;
    && f in w.fibers
    && w' == w.(handles := w.handles[h := w.handles[h].(fiber := None)],
                fibers := w.fibers[f := w.fibers[f].(watcher := None)])
  }

  ghost predicate Terminate(w: World, w': World, f: FiberId) {
    Acts(w, f) && WatcherReady(w, f) && w' == Destroyed(w, f)
  }

  ghost predicate FiberStep(w: World, w': World, f: FiberId) {
    FireTimer(w, w', f) || Yield(w, w', f) || SleepFor(w, w', f) || JoinReturns(w, w', f) || Terminate(w, w', f)
  }

  ghost predicate WaitStep(w: World, w': World, f: FiberId, i: nat) {
    || ParkInQueue(w, w', f, i) || WakeOne(w, w', i) || ParkInLot(w, w', f, i) || WakeLot(w, w', i)
    || NewQueueOrLot(w, w', i)
  }

  ghost predicate HandleStep(w: World, w': World, f: FiberId, h: HandleId) {
    Attach(w, w', h, f) || MoveHandle(w, w', h, f) || Join(w, w', f, h) || Detach(w, w', h)
  }

  ghost predicate Next(w: World, w': World) {
    || Step(w, w') || Spawn(w, w')
    || (exists f :: FiberStep(w, w', f))
    || (exists f, i :: WaitStep(w, w', f, i))
    || (exists f, h :: HandleStep(w, w', f, h))
  }

  // ----- Every step keeps the invariant -----

  /** Watchers and attachments that do not change keep agreeing. */
  lemma HandlesFrame(w: World, w': World)
    requires HandlesAgree(w) && w'.handles == w.handles && w'.nextId == w.nextId
    requires forall f :: f in w'.fibers <==> f in w.fibers
    requires forall f :: f in w.fibers ==> w'.fibers[f].watcher == w.fibers[f].watcher
    ensures HandlesAgree(w')
  {
    forall h, f ensures Watches(w', h, f) <==> Attached(w', h, f) && !Completes(w', h) {
      assert Watches(w, h, f) <==> Attached(w, h, f) && !Completes(w, h);
    }
    forall h, f: FiberId | Attached(w', h, f) && Completes(w', h) ensures f !in w'.fibers && f < w'.nextId {
      assert Attached(w, h, f) && Completes(w, h);
    }
  }

  /** Fiber f goes from the place it is in to p, and nothing else moves. */
  ghost predicate Moves(w: World, w': World, f: FiberId, p: Place) {
    && f in w.fibers && f in w'.fibers && Fits(w'.fibers[f].state, p)
    && w'.fibers == w.fibers[f := w.fibers[f].(state := w'.fibers[f].state)]
    && w'.place == w.place[f := p]
    && w'.nextId == w.nextId
    && (forall q, g :: Holds(w', q, g) <==> if g == f then q == p else Holds(w, q, g))
  }

  lemma MoveKeeps(w: World, w': World, f: FiberId, p: Place)
    requires Inv(w) && Moves(w, w', f, p)
    requires w'.handles == w.handles && w'.joining == w.joining && !p.InJoin?
    requires f in w.joining ==> w.handles[w.joining[f]].completed && (p == Ready || p == OnCpu)
    ensures StatesAgree(w') && PlacesAgree(w') && HandlesAgree(w') && JoinsAgree(w')
  {
    HandlesFrame(w, w');
    forall q, g ensures Holds(w', q, g) <==> At(w', q, g) {
      assert Holds(w, q, g) <==> At(w, q, g);
    }
  }

  lemma StepKeeps(w: World, w': World)
    requires Inv(w) && Step(w, w')
    ensures Inv(w')
  {
    var f := w.posted[0];
    forall q, g ensures Holds(w', q, g) <==> if g == f then q == OnCpu else Holds(w, q, g) {
      assert Holds(w, q, g) <==> At(w, q, g);
      assert Holds(w, Ready, f);
    }
    assert At(w, Ready, f);
    MoveKeeps(w, w', f, OnCpu);
  }

  /** Only timers, wait queues and lots have changed. */
  ghost predicate OnlyHolders(w: World, mid: World) {
    mid == w.(timers := mid.timers, queues := mid.queues, lots := mid.lots,
              past := w.past.(parked := mid.past.parked, woken := mid.past.woken))
  }

  /** A suspended fiber outside any Join is taken out of the structure that held it and resumed. */
  lemma ResumeKeeps(w: World, mid: World, f: FiberId)
    requires Inv(w) && f in w.fibers && w.fibers[f].state == Suspended && f !in w.joining
    requires OnlyHolders(w, mid) && HeldOnce(mid)
    requires forall q, g :: Holds(mid, q, g) <==> Holds(w, q, g) && g != f
    ensures Inv(Resumed(mid, f))
  {
    var w' := Resumed(mid, f);
    forall q, g ensures Holds(w', q, g) <==> if g == f then q == Ready else Holds(w, q, g) {
      assert Holds(mid, q, g) <==> Holds(w, q, g) && g != f;
    }
    assert !Holds(mid, Ready, f);
    MoveKeeps(w, w', f, Ready);
  }

  /** The running fiber, outside any Join, goes to a place other than a join handle. */
  lemma ParkKeeps(w: World, mid: World, f: FiberId, p: Place)
    requires Inv(w) && Acts(w, f) && (p.InLot? || p.InQueue? || p.InTimer?)
    requires OnlyHolders(w, mid) && HeldOnce(mid)
    requires forall q, g :: Holds(mid, q, g) <==> Holds(w, q, g) || (q == p && g == f)
    ensures Inv(Parked(mid, f, p))
  {
    var w' := Parked(mid, f, p);
    assert Holds(w, OnCpu, f);
    forall q, g ensures Holds(w', q, g) <==> if g == f then q == p else Holds(w, q, g) {
      assert Holds(mid, q, g) <==> Holds(w, q, g) || (q == p && g == f);
      assert Holds(w, q, g) <==> At(w, q, g);
    }
    MoveKeeps(w, w', f, p);
  }

  lemma YieldKeeps(w: World, w': World, f: FiberId)
    requires Inv(w) && Yield(w, w', f)
    ensures Inv(w')
  {
    assert Holds(w, OnCpu, f);
    forall q, g ensures Holds(w', q, g) <==> if g == f then q == Ready else Holds(w, q, g) {
      assert Holds(w, q, g) <==> At(w, q, g);
    }
    assert !Holds(w, Ready, f);
    MoveKeeps(w, w', f, Ready);
  }

  lemma FireTimerKeeps(w: World, w': World, f: FiberId)
    requires Inv(w) && FireTimer(w, w', f)
    ensures Inv(w')
  {
    var mid := w.(timers := w.timers - {f});
    assert Holds(w, InTimer, f);
    forall q, g ensures Holds(mid, q, g) <==> Holds(w, q, g) && g != f {
      assert Holds(w, q, g) <==> At(w, q, g);
    }
    ResumeKeeps(w, mid, f);
  }

  lemma SleepForKeeps(w: World, w': World, f: FiberId)
    requires Inv(w) && SleepFor(w, w', f)
    ensures Inv(w')
  {
    ParkKeeps(w, w.(timers := w.timers + {f}), f, InTimer);
  }

  lemma ParkInQueueKeeps(w: World, w': World, f: FiberId, q: QueueId)
    requires Inv(w) && ParkInQueue(w, w', f, q)
    ensures Inv(w')
  {
    assert Holds(w, OnCpu, f) && !Holds(w, InQueue(q), f);
    ParkKeeps(w, Enqueued(w, f, q), f, InQueue(q));
  }

  lemma WakeOneKeeps(w: World, w': World, q: QueueId)
    requires Inv(w) && WakeOne(w, w', q)
    ensures Inv(w')
  {
    var f := w.queues[q][0];
    var mid := Dequeued(w, q);
    assert Holds(w, InQueue(q), f);
    forall p, g ensures Holds(mid, p, g) <==> Holds(w, p, g) && g != f {
      assert Holds(w, p, g) <==> At(w, p, g);
    }
    ResumeKeeps(w, mid, f);
  }

  lemma ParkInLotKeeps(w: World, w': World, f: FiberId, l: LotId)
    requires Inv(w) && ParkInLot(w, w', f, l)
    ensures Inv(w')
  {
    var mid := w.(lots := w.lots[l := Lot(Some(f), false)]);
    ParkKeeps(w, mid, f, InLot(l));
  }

  lemma WakeLotKeeps(w: World, w': World, l: LotId)
    requires Inv(w) && WakeLot(w, w', l)
    ensures Inv(w')
  {
    var f := w.lots[l].waitee.value;
    var mid := w.(lots := w.lots[l := w.lots[l].(woken := true)]);
    assert Holds(w, InLot(l), f);
    forall p, g ensures Holds(mid, p, g) <==> Holds(w, p, g) && g != f {
      assert Holds(w, p, g) <==> At(w, p, g);
    }
    ResumeKeeps(w, mid, f);
  }

  /** Steps that move no fiber: they change watchers and handles, but not who waits in a handle. */
  lemma StillKeeps(w: World, w': World)
    requires StatesAgree(w) && PlacesAgree(w) && HeldOnce(w)
    requires w' == w.(fibers := w'.fibers, handles := w'.handles, joining := w'.joining)
    requires w'.fibers.Keys == w.fibers.Keys && forall f :: f in w.fibers ==> w'.fibers[f].state == w.fibers[f].state
    requires forall h :: h in w.handles ==>
      h in w'.handles && w'.handles[h].waitee == w.handles[h].waitee && w'.handles[h].completed == w.handles[h].completed
    requires forall h :: h in w'.handles && h !in w.handles ==> w'.handles[h].waitee == None
    ensures StatesAgree(w') && PlacesAgree(w') && HeldOnce(w')
  {
    forall p, g ensures Holds(w', p, g) <==> At(w', p, g) {
      assert Holds(w, p, g) <==> At(w, p, g);
    }
  }

  lemma NewQueueKeeps(w: World, w': World, i: nat)
    requires Inv(w) && i !in w.queues && w' == NewQueue(w, i)
    ensures Inv(w')
  {
    HandlesFrame(w, w');
    forall p, g ensures Holds(w', p, g) <==> At(w', p, g) {
      assert Holds(w, p, g) <==> At(w, p, g);
    }
  }

  lemma NewLotKeeps(w: World, w': World, i: nat)
    requires Inv(w) && i !in w.lots && w' == w.(lots := w.lots[i := Lot(None, false)])
    ensures Inv(w')
  {
    HandlesFrame(w, w');
    forall p, g ensures Holds(w', p, g) <==> At(w', p, g) {
      assert Holds(w, p, g) <==> At(w, p, g);
    }
  }

  lemma SpawnKeeps(w: World, w': World)
    requires Inv(w) && Spawn(w, w')
    ensures Inv(w')
  {
    assert HandlesAgree(w') by {
      forall e, g ensures Watches(w', e, g) <==> Attached(w', e, g) && !Completes(w', e) {
        assert Watches(w, e, g) <==> Attached(w, e, g) && !Completes(w, e);
      }
      forall e, g: FiberId | Attached(w', e, g) && Completes(w', e) ensures g !in w'.fibers && g < w'.nextId {
        assert Watches(w, e, g) <==> Attached(w, e, g) && !Completes(w, e);
      }
    }
    forall p, g ensures Holds(w', p, g) <==> At(w', p, g) {
      assert Holds(w, p, g) <==> At(w, p, g);
    }
    assert !Holds(w, Ready, w.nextId);
  }

  lemma AttachKeeps(w: World, w': World, h: HandleId, f: FiberId)
    requires Inv(w) && Attach(w, w', h, f)
    ensures Inv(w')
  {
    assert HandlesAgree(w') by {
      forall e, g ensures Watches(w', e, g) <==> Attached(w', e, g) && !Completes(w', e) {
        assert Watches(w, e, g) <==> Attached(w, e, g) && !Completes(w, e);
      }
      forall e, g: FiberId | Attached(w', e, g) && Completes(w', e) ensures g !in w'.fibers && g < w'.nextId {
        assert Watches(w, e, g) <==> Attached(w, e, g) && !Completes(w, e);
      }
    }
    StillKeeps(w, w');
  }

  lemma MovedHandles(w: World, w': World, h: HandleId, h': HandleId)
    requires HandlesAgree(w) && MoveHandle(w, w', h, h')
    ensures HandlesAgree(w')
  {
    assert Attached(w, h, w.handles[h].fiber.value);
    forall e, g ensures Watches(w', e, g) <==> Attached(w', e, g) && !Completes(w', e) {
      assert Watches(w, e, g) <==> Attached(w, e, g) && !Completes(w, e);
    }
    forall e, g: FiberId | Attached(w', e, g) && Completes(w', e) ensures g !in w'.fibers && g < w'.nextId {
      assert Watches(w, e, g) <==> Attached(w, e, g) && !Completes(w, e);
    }
  }

  lemma MovedJoins(w: World, w': World, h: HandleId, h': HandleId)
    requires JoinsAgree(w) && HistoryAgrees(w) && MoveHandle(w, w', h, h')
    ensures JoinsAgree(w') && HistoryAgrees(w')
  {}

  lemma MovedPlaces(w: World, w': World, h: HandleId, h': HandleId)
    requires StatesAgree(w) && PlacesAgree(w) && HeldOnce(w) && MoveHandle(w, w', h, h')
    ensures StatesAgree(w') && PlacesAgree(w') && HeldOnce(w')
  {
    StillKeeps(w, w');
  }

  lemma MoveHandleKeeps(w: World, w': World, h: HandleId, h': HandleId)
    requires Inv(w) && MoveHandle(w, w', h, h')
    ensures Inv(w')
  {
    MovedHandles(w, w', h, h');
    MovedJoins(w, w', h, h');
    MovedPlaces(w, w', h, h');
  }

  lemma DetachKeeps(w: World, w': World, h: HandleId)
    requires Inv(w) && Detach(w, w', h)
    ensures Inv(w')
  {
    assert HandlesAgree(w') by {
      assert Attached(w, h, w.handles[h].fiber.value);
      forall e, g ensures Watches(w', e, g) <==> Attached(w', e, g) && !Completes(w', e) {
        assert Watches(w, e, g) <==> Attached(w, e, g) && !Completes(w, e);
      }
      forall e, g: FiberId | Attached(w', e, g) && Completes(w', e) ensures g !in w'.fibers && g < w'.nextId {
        assert Watches(w, e, g) <==> Attached(w, e, g) && !Completes(w, e);
      }
    }
    StillKeeps(w, w');
  }

  /** A completed handle lets go of its target, which is gone. */
  lemma ReleasedHandles(w: World, w': World, h: HandleId)
    requires HandlesAgree(w) && Completes(w, h)
    requires w' == w.(handles := w.handles[h := w.handles[h].(fiber := None)], joining := w'.joining)
    ensures HandlesAgree(w')
  {
    forall e, g ensures Watches(w', e, g) <==> Attached(w', e, g) && !Completes(w', e) {
      assert Watches(w, e, g) <==> Attached(w, e, g) && !Completes(w, e);
    }
    forall e, g: FiberId | Attached(w', e, g) && Completes(w', e) ensures g !in w'.fibers && g < w'.nextId {
      assert Watches(w, e, g) <==> Attached(w, e, g) && !Completes(w, e);
    }
  }

  /** Join returns, after parking or at once. */
  lemma JoinReturnsKeeps(w: World, w': World, f: FiberId, h: HandleId)
    requires Inv(w)
    requires
      || (JoinReturns(w, w', f) && h == w.joining[f])
      || (Join(w, w', f, h) && w.handles[h].completed)
    ensures Inv(w')
  {
    assert Holds(w, OnCpu, f);
    ReleasedHandles(w, w', h);
    StillKeeps(w, w');
  }

  lemma JoinPlaces(w: World, w': World, f: FiberId, h: HandleId)
    requires PlacesAgree(w) && At(w, OnCpu, f) && Join(w, w', f, h) && !w.handles[h].completed
    ensures PlacesAgree(w')
  {
    assert Holds(w, OnCpu, f);
    forall q, g ensures Holds(w', q, g) <==> At(w', q, g) {
      assert Holds(w, q, g) <==> At(w, q, g);
    }
  }

  lemma JoinHandles(w: World, w': World, f: FiberId, h: HandleId)
    requires HandlesAgree(w) && Join(w, w', f, h) && !w.handles[h].completed
    ensures HandlesAgree(w')
  {
    forall e, g ensures Watches(w', e, g) <==> Attached(w', e, g) && !Completes(w', e) {
      assert Watches(w, e, g) <==> Attached(w, e, g) && !Completes(w, e);
    }
    forall e, g: FiberId | Attached(w', e, g) && Completes(w', e) ensures g !in w'.fibers && g < w'.nextId {
      assert Watches(w, e, g) <==> Attached(w, e, g) && !Completes(w, e);
    }
  }

  lemma JoinJoins(w: World, w': World, f: FiberId, h: HandleId)
    requires JoinsAgree(w) && At(w, OnCpu, f) && Join(w, w', f, h) && !w.handles[h].completed
    ensures JoinsAgree(w')
  {}

  lemma JoinKeeps(w: World, w': World, f: FiberId, h: HandleId)
    requires Inv(w) && Join(w, w', f, h)
    ensures Inv(w')
  {
    if w.handles[h].completed {
      JoinReturnsKeeps(w, w', f, h);
    } else {
      assert Holds(w, OnCpu, f);
      JoinPlaces(w, w', f, h);
      JoinHandles(w, w', f, h);
      JoinJoins(w, w', f, h);
    }
  }

  /** The end of a fiber takes its place away, and that of its joiner in the handle. */
  lemma GonePlaces(w: World, w': World, f: FiberId)
    requires PlacesAgree(w) && At(w, OnCpu, f) && f in w.fibers && WatcherReady(w, f) && w' == Destroyed(w, f)
    requires w.fibers[f].watcher.Some? ==> !w.handles[w.fibers[f].watcher.value].completed
    ensures PlacesAgree(w')
  {
    assert Holds(w, OnCpu, f);
    if w.fibers[f].watcher.Some? && w.handles[w.fibers[f].watcher.value].waitee.Some? {
      var h := w.fibers[f].watcher.value;
      assert Holds(w, InJoin(h), w.handles[h].waitee.value);
    }
    forall q, g ensures Holds(w', q, g) <==> At(w', q, g) {
      assert Holds(w, q, g) <==> At(w, q, g);
    }
  }

  /** Fiber f is gone and its watcher has completed; all other watchers and attachments are as before. */
  ghost predicate OnlyWatcherCompletes(w: World, w': World, f: FiberId)
    requires f in w.fibers
  {
    && w'.nextId == w.nextId
    && (forall g :: g in w'.fibers <==> g in w.fibers && g != f)
    && (forall g :: g in w'.fibers ==> w'.fibers[g].watcher == w.fibers[g].watcher)
    && (forall e :: e in w'.handles <==> e in w.handles)
    && (forall e :: e in w.handles ==>
          && w'.handles[e].fiber == w.handles[e].fiber
          && w'.handles[e].completed == (w.handles[e].completed || w.fibers[f].watcher == Some(e)))
  }

  lemma CompletedShape(w: World, h: HandleId)
    requires h in w.handles && AssertionHolds(w, w.handles[h].waitee)
    ensures var w' := Completed(w, h);
      && w'.nextId == w.nextId && w'.fibers.Keys == w.fibers.Keys
      && (forall g :: g in w.fibers ==> w'.fibers[g].watcher == w.fibers[g].watcher)
      && w'.handles == w.handles[h := w.handles[h].(completed := true)]
  {
    if w.handles[h].waitee.Some? {
      var j := w.handles[h].waitee.value;
      assert Completed(w, h).fibers == w.fibers[j := w.fibers[j].(state := Runnable)];
    }
  }

  lemma DestroyedShape(w: World, f: FiberId)
    requires f in w.fibers && WatcherReady(w, f)
    ensures OnlyWatcherCompletes(w, Destroyed(w, f), f)
  {
    if w.fibers[f].watcher.Some? {
      CompletedShape(Gone(w, f), w.fibers[f].watcher.value);
    }
  }

  lemma GoneHandles(w: World, w': World, f: FiberId)
    requires StatesAgree(w) && HandlesAgree(w) && f in w.fibers && OnlyWatcherCompletes(w, w', f)
    ensures HandlesAgree(w')
  {
    if w.fibers[f].watcher.Some? {
      assert Watches(w, w.fibers[f].watcher.value, f);
    }
    forall e, g ensures Watches(w', e, g) <==> Attached(w', e, g) && !Completes(w', e) {
      assert Watches(w, e, g) <==> Attached(w, e, g) && !Completes(w, e);
    }
    forall e, g: FiberId | Attached(w', e, g) && Completes(w', e) ensures g !in w'.fibers && g < w'.nextId {
      assert Watches(w, e, g) <==> Attached(w, e, g) && !Completes(w, e);
    }
  }

  lemma GoneJoins(w: World, w': World, f: FiberId)
    requires JoinsAgree(w) && Acts(w, f) && At(w, OnCpu, f) && WatcherReady(w, f) && w' == Destroyed(w, f)
    requires w.fibers[f].watcher.Some? ==>
      var h := w.fibers[f].watcher.value;
      !w.handles[h].completed && (w.handles[h].waitee.Some? ==> At(w, InJoin(h), w.handles[h].waitee.value))
    ensures JoinsAgree(w')
  {}

  /** What the watcher of the running fiber looks like. */
  lemma WatcherFacts(w: World, f: FiberId)
    requires PlacesAgree(w) && HandlesAgree(w) && Acts(w, f)
    ensures At(w, OnCpu, f)
    ensures w.fibers[f].watcher.Some? ==>
      var h := w.fibers[f].watcher.value;
      && h in w.handles && !w.handles[h].completed
      && (w.handles[h].waitee.Some? ==>
            At(w, InJoin(h), w.handles[h].waitee.value) && w.handles[h].waitee.value !in w.posted)
  {
    assert Holds(w, OnCpu, f);
    if w.fibers[f].watcher.Some? {
      var h := w.fibers[f].watcher.value;
      assert Watches(w, h, f);
      if w.handles[h].waitee.Some? {
        var j := w.handles[h].waitee.value;
        assert Holds(w, InJoin(h), j) && !Holds(w, Ready, j);
      }
    }
  }

  lemma GoneStates(w: World, w': World, f: FiberId)
    requires StatesAgree(w) && f in w.fibers && WatcherReady(w, f) && w' == Destroyed(w, f)
    ensures StatesAgree(w')
  {
    var gone := Gone(w, f);
    assert StatesAgree(gone) by { assert gone.place.Keys == gone.fibers.Keys; }
    if w.fibers[f].watcher.Some? {
      var j := w.handles[w.fibers[f].watcher.value].waitee;
      assert j.Some? ==> w'.place.Keys == gone.place.Keys;
    }
  }

  lemma GoneHistory(w: World, w': World, f: FiberId)
    requires HistoryAgrees(w) && f in w.fibers && WatcherReady(w, f) && w' == Destroyed(w, f)
    requires w.fibers[f].watcher.Some? ==> !w.handles[w.fibers[f].watcher.value].completed
    ensures HistoryAgrees(w')
  {}

  lemma GoneHeld(w: World, w': World, f: FiberId)
    requires HeldOnce(w) && f in w.fibers && WatcherReady(w, f) && w' == Destroyed(w, f)
    requires w.fibers[f].watcher.Some? ==>
      var waitee := w.handles[w.fibers[f].watcher.value].waitee;
      waitee.Some? ==> waitee.value !in w.posted
    ensures HeldOnce(w')
  {}

  lemma TerminateKeeps(w: World, w': World, f: FiberId)
    requires Inv(w) && Terminate(w, w', f)
    ensures Inv(w')
  {
    WatcherFacts(w, f);
    GonePlaces(w, w', f);
    DestroyedShape(w, f);
    GoneHandles(w, w', f);
    GoneJoins(w, w', f);
    GoneStates(w, w', f);
    GoneHistory(w, w', f);
    GoneHeld(w, w', f);
  }

  lemma NextKeeps(w: World, w': World)
    requires Inv(w) && Next(w, w')
    ensures Inv(w')
  {
    if Step(w, w') {
      StepKeeps(w, w');
    } else if Spawn(w, w') {
      SpawnKeeps(w, w');
    } else if f :| FiberStep(w, w', f) {
      if
      case FireTimer(w, w', f) => FireTimerKeeps(w, w', f);
      case Yield(w, w', f) => YieldKeeps(w, w', f);
      case SleepFor(w, w', f) => SleepForKeeps(w, w', f);
      case JoinReturns(w, w', f) => JoinReturnsKeeps(w, w', f, w.joining[f]);
      case Terminate(w, w', f) => TerminateKeeps(w, w', f);
    } else if f, i :| WaitStep(w, w', f, i) {
      if
      case ParkInQueue(w, w', f, i) => ParkInQueueKeeps(w, w', f, i);
      case WakeOne(w, w', i) => WakeOneKeeps(w, w', i);
      case ParkInLot(w, w', f, i) => ParkInLotKeeps(w, w', f, i);
      case WakeLot(w, w', i) => WakeLotKeeps(w, w', i);
      case i !in w.queues && w' == NewQueue(w, i) => NewQueueKeeps(w, w', i);
      case i !in w.lots && w' == w.(lots := w.lots[i := Lot(None, false)]) => NewLotKeeps(w, w', i);
    } else {
      var f, h :| HandleStep(w, w', f, h);
      if
      case Attach(w, w', h, f) => AttachKeeps(w, w', h, f);
      case MoveHandle(w, w', h, f) => MoveHandleKeeps(w, w', h, f);
      case Join(w, w', f, h) => JoinKeeps(w, w', f, h);
      case Detach(w, w', h) => DetachKeeps(w, w', h);
    }
  }

  // ----- What it means -----

  ghost predicate Init(w: World) { w == EMPTY }

  /** Every live fiber is in exactly one place, and is there once. */
  ghost predicate OnePlace(w: World) {
    && (forall f :: f in w.fibers ==> exists p :: Holds(w, p, f))
    && (forall p, q, f :: Holds(w, p, f) && Holds(w, q, f) ==> p == q && f in w.fibers)
    && HeldOnce(w)
  }

  /** Whatever is about to be resumed is a live suspended fiber, and whatever is about to be stepped is ready. */
  ghost predicate NoAssertionFails(w: World) {
    && (forall p, f :: Holds(w, p, f) && !p.Ready? && !p.OnCpu? ==> AssertionHolds(w, Some(f)))
    && (forall f :: f in w.posted ==>
          f in w.fibers && (w.fibers[f].state == Starting || w.fibers[f].state == Runnable))
    && (forall f :: Acts(w, f) ==> WatcherReady(w, f))
  }

  /** A parked joiner has a live target that will wake it, and a joiner that runs again has a target that is gone. A
      fiber inside Join is parked there exactly while its target lives, and after that it is ready or runs. */
  ghost predicate JoinIsSafe(w: World) {
    && (forall f, h :: Holds(w, InJoin(h), f) ==>
          && w.handles[h].fiber.Some?
          && var target := w.handles[h].fiber.value;
             target in w.fibers && w.fibers[target].watcher == Some(h))
    && (forall f :: f in w.joining && w.running == Some(f) ==>
          && w.joining[f] in w.handles && w.handles[w.joining[f]].fiber.Some?
          && w.handles[w.joining[f]].fiber.value !in w.fibers)
    && (forall f :: f in w.joining ==> InJoinExactly(w, f))
    && NoDuplicates(w.past.joinWakes)
  }

  ghost predicate InJoinExactly(w: World, f: FiberId)
    requires f in w.joining
  {
    var h := w.joining[f];
    && h in w.handles && w.handles[h].fiber.Some?
    && var target := w.handles[h].fiber.value;
    && (target in w.fibers <==> Holds(w, InJoin(h), f))
    && (target !in w.fibers <==> Holds(w, Ready, f) || Holds(w, OnCpu, f))
  }

  lemma InvPlaces(w: World)
    requires Inv(w)
    ensures OnePlace(w)
  {
    forall f | f in w.fibers ensures exists p :: Holds(w, p, f) {
      assert At(w, w.place[f], f);
      assert Holds(w, w.place[f], f);
    }
    forall p, q, f | Holds(w, p, f) && Holds(w, q, f) ensures p == q && f in w.fibers {
      assert At(w, p, f) && At(w, q, f);
    }
  }

  lemma InvAssertions(w: World)
    requires Inv(w)
    ensures NoAssertionFails(w)
  {
    forall p, f | Holds(w, p, f) && !p.Ready? && !p.OnCpu? ensures AssertionHolds(w, Some(f)) {
      assert At(w, p, f);
    }
    forall f | f in w.posted ensures f in w.fibers && (w.fibers[f].state == Starting || w.fibers[f].state == Runnable) {
      assert Holds(w, Ready, f);
    }
    forall f | Acts(w, f) ensures WatcherReady(w, f) {
      WatcherFacts(w, f);
    }
  }

  lemma InvJoins(w: World)
    requires Inv(w)
    ensures JoinIsSafe(w)
  {
    forall f, h | Holds(w, InJoin(h), f)
      ensures w.handles[h].fiber.Some?
      ensures w.handles[h].fiber.value in w.fibers && w.fibers[w.handles[h].fiber.value].watcher == Some(h)
    {
      assert At(w, InJoin(h), f);
      assert Attached(w, h, w.handles[h].fiber.value) && !Completes(w, h);
      assert Watches(w, h, w.handles[h].fiber.value);
    }
    forall f | f in w.joining && w.running == Some(f)
      ensures w.joining[f] in w.handles && w.handles[w.joining[f]].fiber.Some?
      ensures w.handles[w.joining[f]].fiber.value !in w.fibers
    {
      assert Holds(w, OnCpu, f);
      assert Attached(w, w.joining[f], w.handles[w.joining[f]].fiber.value) && Completes(w, w.joining[f]);
    }
    forall f | f in w.joining ensures InJoinExactly(w, f) {
      JoinerPlace(w, f);
    }
  }

  lemma JoinerPlace(w: World, f: FiberId)
    requires PlacesAgree(w) && HandlesAgree(w) && JoinsAgree(w) && f in w.joining
    ensures InJoinExactly(w, f)
  {
    var h := w.joining[f];
    var target := w.handles[h].fiber.value;
    assert Watches(w, h, target) <==> Attached(w, h, target) && !Completes(w, h);
    assert Holds(w, InJoin(h), f) <==> At(w, InJoin(h), f);
    assert Holds(w, Ready, f) <==> At(w, Ready, f);
    assert Holds(w, OnCpu, f) <==> At(w, OnCpu, f);
  }

  /** The fibers in a wait queue are those that parked there and have not been woken, first come first. */
  ghost predicate QueuesInOrder(w: World) {
    forall q :: q in w.queues ==> InOrder(w, q)
  }

  ghost predicate InOrder(w: World, q: QueueId)
    requires q in w.queues
  {
    && q in w.past.parked && q in w.past.woken
    && w.past.parked[q] == w.past.woken[q] + w.queues[q]
  }

  ghost predicate SameQueues(w: World, w': World) {
    w'.queues == w.queues && w'.past.parked == w.past.parked && w'.past.woken == w.past.woken
  }

  lemma DestroyedQueues(w: World, f: FiberId)
    requires f in w.fibers && WatcherReady(w, f)
    ensures SameQueues(w, Destroyed(w, f))
  {}

  lemma FiberQueues(w: World, w': World, f: FiberId)
    requires FireTimer(w, w', f) || Yield(w, w', f) || SleepFor(w, w', f) || JoinReturns(w, w', f)
    ensures SameQueues(w, w')
  {}

  lemma HandleQueues(w: World, w': World, f: FiberId, h: HandleId)
    requires HandleStep(w, w', f, h)
    ensures SameQueues(w, w')
  {}

  lemma EnqueuedInOrder(w: World, f: FiberId, q: QueueId)
    requires QueuesInOrder(w) && q in w.queues
    ensures QueuesInOrder(Enqueued(w, f, q))
  {
    assert InOrder(w, q);
    var w' := Enqueued(w, f, q);
    forall p | p in w'.queues ensures InOrder(w', p) {
      assert InOrder(w, p);
    }
  }

  lemma DequeuedInOrder(w: World, q: QueueId)
    requires QueuesInOrder(w) && q in w.queues && w.queues[q] != []
    ensures QueuesInOrder(Dequeued(w, q))
  {
    assert InOrder(w, q);
    assert w.queues[q] == [w.queues[q][0]] + w.queues[q][1..];
    var w' := Dequeued(w, q);
    forall p | p in w'.queues ensures InOrder(w', p) {
      assert InOrder(w, p);
    }
  }

  lemma SameOrder(w: World, w': World)
    requires QueuesInOrder(w) && SameQueues(w, w')
    ensures QueuesInOrder(w')
  {
    forall p | p in w'.queues ensures InOrder(w', p) {
      assert InOrder(w, p);
    }
  }

  lemma WaitQueues(w: World, w': World, f: FiberId, i: nat)
    requires QueuesInOrder(w) && WaitStep(w, w', f, i)
    ensures QueuesInOrder(w')
  {
    if
    case ParkInQueue(w, w', f, i) =>
      EnqueuedInOrder(w, f, i);
      SameOrder(Enqueued(w, f, i), w');
    case WakeOne(w, w', i) =>
      DequeuedInOrder(w, i);
      SameOrder(Dequeued(w, i), w');
    case ParkInLot(w, w', f, i) => SameOrder(w, w');
    case WakeLot(w, w', i) => SameOrder(w, w');
    case NewQueueOrLot(w, w', i) =>
      forall p | p in w'.queues ensures InOrder(w', p) {
        assert p in w.queues ==> InOrder(w, p);
      }
  }

  lemma NextQueues(w: World, w': World)
    requires QueuesInOrder(w) && Next(w, w')
    ensures QueuesInOrder(w')
  {
    if f, i :| WaitStep(w, w', f, i) {
      WaitQueues(w, w', f, i);
    } else {
      if f :| FiberStep(w, w', f) {
        if Terminate(w, w', f) {
          DestroyedQueues(w, f);
        } else {
          FiberQueues(w, w', f);
        }
      } else if f, h :| HandleStep(w, w', f, h) {
        HandleQueues(w, w', f, h);
      }
      SameOrder(w, w');
    }
  }

  lemma RunKeeps(run: seq<World>)
    requires Runs.IsRun(Init, Next, run)
    ensures forall i :: 0 <= i < |run| ==> Inv(run[i])
  {
    forall w, w' | Inv(w) && Next(w, w') ensures Inv(w') { NextKeeps(w, w'); }
    Runs.Invariant(Init, Next, Inv, run);
  }

  lemma QueuesKeep(run: seq<World>)
    requires Runs.IsRun(Init, Next, run)
    ensures forall i :: 0 <= i < |run| ==> QueuesInOrder(run[i])
  {
    forall w, w' | QueuesInOrder(w) && Next(w, w') ensures QueuesInOrder(w') { NextQueues(w, w'); }
    Runs.Invariant(Init, Next, QueuesInOrder, run);
  }

  /** In every state of every run whose lots are parked in when vacant and woken once for each Park: every fiber is in
      exactly one place, no assertion of the scheduler can fail, fibers are switched to in the order they became ready and woken from a wait
      queue in the order they parked there, and Join is safe. */
  lemma SchedulerIsCorrect(run: seq<World>)
    requires Runs.IsRun(Init, Next, run)
    ensures forall i :: 0 <= i < |run| ==>
      && OnePlace(run[i]) && NoAssertionFails(run[i]) && JoinIsSafe(run[i])
      && run[i].past.readied == run[i].past.stepped + run[i].posted
      && QueuesInOrder(run[i])
  {
    RunKeeps(run);
    QueuesKeep(run);
    forall i | 0 <= i < |run|
      ensures OnePlace(run[i]) && NoAssertionFails(run[i]) && JoinIsSafe(run[i])
    {
      InvPlaces(run[i]);
      InvAssertions(run[i]);
      InvJoins(run[i]);
    }
  }

  /** Join returns, at once or after parking, only when the target has been destroyed, and leaves the handle detached. */
  lemma JoinWaitsForTarget(run: seq<World>, i: nat, f: FiberId, h: HandleId)
    requires Runs.IsRun(Init, Next, run) && i + 1 < |run|
    requires
      || (Join(run[i], run[i + 1], f, h) && run[i + 1].running == Some(f))
      || (JoinReturns(run[i], run[i + 1], f) && run[i].joining[f] == h)
    ensures run[i].handles[h].fiber.Some? && run[i].handles[h].fiber.value !in run[i].fibers
    ensures h in run[i + 1].handles && run[i + 1].handles[h].fiber == None
  {
    RunKeeps(run);
    InvJoins(run[i]);
    if Join(run[i], run[i + 1], f, h) {
      assert Attached(run[i], h, run[i].handles[h].fiber.value) && Completes(run[i], h);
    }
  }

  /** Wake on a lot with a waitee passes the assertion and keeps every fiber in one place if and only if the lot has
      not resumed anybody since the last Park. */
  lemma WakeIsSafeExactly(w: World, l: LotId)
    requires Inv(w) && l in w.lots && w.lots[l].waitee.Some?
    ensures !w.lots[l].woken <==> AssertionHolds(w, w.lots[l].waitee) && Inv(LotWoken(w, l))
  {
    var f := w.lots[l].waitee.value;
    if !w.lots[l].woken {
      assert Holds(w, InLot(l), f);
      assert At(w, InLot(l), f);
      WakeLotKeeps(w, LotWoken(w, l), l);
    } else if AssertionHolds(w, w.lots[l].waitee) {
      var w' := LotWoken(w, l);
      var p := w.place[f];
      assert At(w, p, f);
      assert Holds(w, p, f) && Holds(w', p, f) && !At(w', p, f);
    }
  }

  /** Park keeps every fiber in one place if and only if nobody is parked in the lot; otherwise the fiber that was is
      suspended and held by nothing that could ever resume it. */
  lemma ParkIsSafeExactly(w: World, f: FiberId, l: LotId)
    requires Inv(w) && Acts(w, f) && l in w.lots
    ensures Vacant(w.lots[l]) <==> Inv(LotTaken(w, f, l))
    ensures !Vacant(w.lots[l]) ==> Forgotten(LotTaken(w, f, l), w.lots[l].waitee.value)
  {
    var w' := LotTaken(w, f, l);
    if Vacant(w.lots[l]) {
      ParkInLotKeeps(w, w', f, l);
    } else {
      var g := w.lots[l].waitee.value;
      assert Holds(w, OnCpu, f) && Holds(w, InLot(l), g);
      forall p ensures !Holds(w', p, g) {
        assert Holds(w, p, g) <==> At(w, p, g);
      }
      assert !Holds(w', InLot(l), g) && At(w', InLot(l), g);
    }
  }

  /** A live suspended fiber that no structure holds. */
  ghost predicate Forgotten(w: World, f: FiberId) {
    f in w.fibers && w.fibers[f].state == Suspended && forall p :: !Holds(w, p, f)
  }

  /** A constructor that watches a fiber keeps handles and watchers in agreement if and only if nobody watched it. */
  lemma AttachIsSafeExactly(w: World, h: HandleId, f: FiberId)
    requires Inv(w) && h !in w.handles && f in w.fibers
    ensures w.fibers[f].watcher == None <==> Inv(Watching(w, h, f))
  {
    var w' := Watching(w, h, f);
    if w.fibers[f].watcher == None {
      AttachKeeps(w, w', h, f);
    } else {
      var e := w.fibers[f].watcher.value;
      assert Watches(w, e, f);
      assert Attached(w', e, f) && !Completes(w', e) && !Watches(w', e, f);
    }
  }

  /** Detach and the move of an uncompleted handle reach into the target; it is there if and only if the handle has
      not completed. */
  lemma TargetIsLiveExactly(w: World, h: HandleId, f: FiberId)
    requires Inv(w) && Attached(w, h, f)
    ensures f in w.fibers <==> !Completes(w, h)
  {
    assert Watches(w, h, f) <==> Attached(w, h, f) && !Completes(w, h);
  }

  /** A run after which Detach would write to a fiber that is gone: the target ended before its handle was joined. */
  lemma TargetIsGone() returns (end: World)
    ensures Runs.Reachable(Init, Next, end)
    ensures end.handles == map[0 := Handle(Some(0), true, None)] && end.fibers == map[]
  {
    end := OneRunning();
    var w2 := end;
    var w3 := Watching(w2, 0, 0);
    assert Attach(w2, w3, 0, 0) && HandleStep(w2, w3, 0, 0);
    end := Runs.Follow(Init, Next, end, w3);
    var w4 := Destroyed(w3, 0);
    assert Terminate(w3, w4, 0) && FiberStep(w3, w4, 0);
    end := Runs.Follow(Init, Next, end, w4);
  }

  /** Waking a parking lot twice: after the first Wake its waitee is runnable and a second Wake fails the assertion. */
  lemma SecondWakeFails() returns (end: World)
    ensures Runs.Reachable(Init, Next, end)
    ensures end.lots == map[0 := Lot(Some(0), true)] && !AssertionHolds(end, Some(0))
  {
    end := LotParked();
    var w4 := end;
    var w5 := Resumed(w4.(lots := map[0 := Lot(Some(0), true)]), 0);
    assert WakeLot(w4, w5, 0) && WaitStep(w4, w5, 0, 0);
    end := Runs.Follow(Init, Next, end, w5);
  }

  /** A run after which the running fiber may park in a lot where another one is still parked. */
  lemma LotOccupied() returns (end: World)
    ensures Runs.Reachable(Init, Next, end)
    ensures Acts(end, 1) && end.lots == map[0 := Lot(Some(0), false)]
  {
    end := LotParked();
    var w4 := end;
    var w5 := Spawned(w4);
    assert Spawn(w4, w5);
    end := Runs.Follow(Init, Next, end, w5);
    var w6 := Stepping(w5);
    assert Step(w5, w6);
    end := Runs.Follow(Init, Next, end, w6);
  }

  /** The first fiber is running. */
  lemma OneRunning() returns (end: World)
    ensures Runs.Reachable(Init, Next, end)
    ensures end == World(map[0 := Fiber(Running, None)], [], Some(0), 1, map[], map[], {}, map[], map[],
                                      map[0 := OnCpu], Past([0], [0], [], map[], map[]))
  {
    var w1 := Spawned(EMPTY);
    assert Spawn(EMPTY, w1);
    end := Runs.Start(Init, Next, EMPTY);
    end := Runs.Follow(Init, Next, end, w1);
    var w2 := Stepping(w1);
    assert Step(w1, w2);
    end := Runs.Follow(Init, Next, end, w2);
  }

  lemma LotParked() returns (end: World)
    ensures Runs.Reachable(Init, Next, end)
    ensures end.lots == map[0 := Lot(Some(0), false)] && end.fibers == map[0 := Fiber(Suspended, None)]
    ensures end.nextId == 1 && end.posted == [] && end.running == None && end.joining == map[]
  {
    end := OneRunning();
    var w2 := end;
    var w3 := w2.(lots := map[0 := Lot(None, false)]);
    assert NewQueueOrLot(w2, w3, 0) && WaitStep(w2, w3, 0, 0);
    end := Runs.Follow(Init, Next, end, w3);
    var w4 := LotTaken(w3, 0, 0);
    assert ParkInLot(w3, w4, 0, 0) && WaitStep(w3, w4, 0, 0);
    end := Runs.Follow(Init, Next, end, w4);
  }
}
