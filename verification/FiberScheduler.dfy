/**
 * The scheduler as an object: fields that its methods update in place, with the methods following the source. The
 * context switch back to the event loop is where a system call ends, so every method runs to that point. Each is
 * proved to be the step of the same name; those of a parking lot and of a new handle say exactly when. The default
 * branch of Reschedule is proved unreachable at every call.
 */
module FiberScheduler {
  import opened Fibers

  class Scheduler {
    var fibers: map<FiberId, Fiber>
    var posted: seq<FiberId>
    var running: Option<FiberId>
    var nextId: nat
    var lots: map<LotId, Lot>
    var queues: map<QueueId, seq<FiberId>>
    var timers: set<FiberId>
    var handles: map<HandleId, Handle>
    var joining: map<FiberId, HandleId>
    ghost var place: map<FiberId, Place>
    ghost var past: Past

    ghost function Now(): World
      reads this
    {
      World(fibers, posted, running, nextId, lots, queues, timers, handles, joining, place, past)
    }

    ghost predicate Valid()
      reads this
    {
      Inv(Now())
    }

    constructor ()
      ensures Valid() && Now() == EMPTY
    {
      fibers, posted, running, nextId := map[], [], None, 0;
      lots, queues, timers, handles, joining := map[], map[], {}, map[], map[];
      place, past := map[], Past([], [], [], map[], map[]);
    }

    // ----- Private parts -----

    method SetState(f: FiberId, st: FiberState, ghost p: Place)
      requires f in fibers
      modifies this`fibers, this`place
      ensures Now() == Put(old(Now()), f, st, p)
    {
      fibers := fibers[f := fibers[f].(state := st)];
      place := place[f := p];
    }

    method Schedule(f: FiberId)
      modifies this`posted, this`past
      ensures posted == old(posted) + [f] && past == Readied(old(past), f)
    {
      posted := posted + [f];
      past := Readied(past, f);
    }

    method Resume(f: FiberId)
      requires f in fibers && fibers[f].state == Suspended
      modifies this`fibers, this`posted, this`past, this`place
      ensures Now() == Resumed(old(Now()), f)
      ensures fibers[f].state == Runnable && posted == old(posted) + [f]
    {
      SetState(f, Runnable, Ready);
      Schedule(f);
    }

    /** The watcher interface of a join handle. */
    method OnCompleted(h: HandleId)
      requires h in handles && AssertionHolds(Now(), handles[h].waitee)
      modifies this`fibers, this`posted, this`past, this`place, this`handles
      ensures Now() == Completed(old(Now()), h)
    {
      handles := handles[h := handles[h].(completed := true)];
      if handles[h].waitee.Some? {
        past := past.(joinWakes := past.joinWakes + [h]);
        Resume(handles[h].waitee.value);
      }
    }

    method Destroy(f: FiberId)
      requires f in fibers && running == None && WatcherReady(Now(), f)
      modifies this`fibers, this`posted, this`past, this`place, this`handles
      ensures Now() == Destroyed(old(Now()), f)
    {
      var watcher := fibers[f].watcher;
      fibers := fibers - {f};
      place := place - {f};
      assert Now() == Gone(old(Now()), f);
      if watcher.Some? {
        OnCompleted(watcher.value);
      }
    }

    /** What the handler does after its fiber has switched back. */
    method Reschedule(f: FiberId) returns (panic: bool)
      requires f in fibers && running == None
      requires fibers[f].state == Terminated ==> WatcherReady(Now(), f)
      modifies this`fibers, this`posted, this`past, this`place, this`handles
      ensures panic <==> old(fibers)[f].state == Starting || old(fibers)[f].state == Running
      ensures panic ==> Now() == old(Now())
      ensures old(fibers)[f].state == Runnable ==>
        Now() == old(Now()).(posted := old(posted) + [f], past := Readied(old(past), f))
      ensures old(fibers)[f].state == Suspended ==> Now() == old(Now())
      ensures old(fibers)[f].state == Terminated ==> Now() == Destroyed(old(Now()), f)
    {
      panic := false;
      match fibers[f].state {
        case Runnable => Schedule(f);
        case Suspended =>
        case Terminated => Destroy(f);
        case _ => panic := true;
      }
    }

    /** The last switch of a fiber out of its context, and its destruction. */
    method Exit(f: FiberId)
      requires running == Some(f) && f in fibers && WatcherReady(Now(), f)
      modifies this
      ensures Now() == Destroyed(old(Now()), f)
    {
      fibers := fibers[f := fibers[f].(state := Terminated)];
      running := None;
      assert Gone(Now(), f) == Gone(old(Now()), f);
      var panic := Reschedule(f);
      assert !panic;
    }

    /** Suspend of the running fiber, in whose favour the caller has already recorded place p. */
    method Suspend(f: FiberId, ghost p: Place)
      requires running == Some(f) && f in fibers
      modifies this`fibers, this`posted, this`past, this`place, this`handles, this`running
      ensures Now() == Parked(old(Now()), f, p)
    {
      SetState(f, Suspended, p);
      running := None;
      var panic := Reschedule(f);
      assert !panic;
    }

    // ----- The event loop -----

    method RunNextHandler() returns (f: FiberId)
      requires Valid() && running == None && posted != []
      modifies this
      ensures Valid() && Step(old(Now()), Now())
      ensures f == old(posted)[0] && running == Some(f)
    {
      f := posted[0];
      assert Holds(Now(), Ready, f);
      posted := posted[1..];
      running := Some(f);
      SetState(f, Running, OnCpu);
      past := past.(stepped := past.stepped + [f]);
      StepKeeps(old(Now()), Now());
    }

    method TimerExpires(f: FiberId)
      requires Valid() && running == None && f in timers
      modifies this
      ensures Valid() && FireTimer(old(Now()), Now(), f)
      ensures timers == old(timers) - {f} && posted == old(posted) + [f]
    {
      InvAssertions(Now());
      assert Holds(Now(), InTimer, f);
      timers := timers - {f};
      Resume(f);
      FireTimerKeeps(old(Now()), Now(), f);
    }

    // ----- System calls -----

    method SpawnFiber() returns (f: FiberId)
      requires Valid()
      modifies this
      ensures Valid() && Spawn(old(Now()), Now())
      ensures f !in old(fibers) && posted == old(posted) + [f]
      ensures f in fibers && fibers[f] == Fiber(Starting, None)
    {
      f := nextId;
      nextId := nextId + 1;
      fibers := fibers[f := Fiber(Starting, None)];
      place := place[f := Ready];
      Schedule(f);
      SpawnKeeps(old(Now()), Now());
    }

    method YieldFiber(f: FiberId)
      requires Valid() && Acts(Now(), f)
      modifies this
      ensures Valid() && Yield(old(Now()), Now(), f)
      ensures posted == old(posted) + [f] && running == None && f in fibers && fibers[f].state == Runnable
    {
      SetState(f, Runnable, Ready);
      running := None;
      var panic := Reschedule(f);
      assert !panic;
      YieldKeeps(old(Now()), Now(), f);
    }

    method Sleep(f: FiberId)
      requires Valid() && Acts(Now(), f)
      modifies this
      ensures Valid() && SleepFor(old(Now()), Now(), f)
      ensures timers == old(timers) + {f} && posted == old(posted) && running == None
    {
      timers := timers + {f};
      Suspend(f, InTimer);
      SleepForKeeps(old(Now()), Now(), f);
    }

    method TerminateFiber(f: FiberId)
      requires Valid() && Acts(Now(), f)
      modifies this
      ensures Valid() && Terminate(old(Now()), Now(), f)
      ensures f !in fibers
    {
      InvAssertions(Now());
      Exit(f);
      TerminateKeeps(old(Now()), Now(), f);
    }

    // ----- Wait queues -----

    method QueuePark(f: FiberId, q: QueueId)
      requires Valid() && Acts(Now(), f) && q in queues
      modifies this
      ensures Valid() && ParkInQueue(old(Now()), Now(), f, q)
      ensures queues == old(queues)[q := old(queues)[q] + [f]] && posted == old(posted) && running == None
    {
      queues := queues[q := queues[q] + [f]];
      past := past.(parked := Append(past.parked, q, f));
      Suspend(f, InQueue(q));
      ParkInQueueKeeps(old(Now()), Now(), f, q);
    }

    method QueueWakeOne(q: QueueId)
      requires Valid() && q in queues
      modifies this
      ensures Valid()
      ensures if old(queues)[q] == [] then Now() == old(Now()) else WakeOne(old(Now()), Now(), q)
      ensures old(queues)[q] != [] ==>
        queues == old(queues)[q := old(queues)[q][1..]] && posted == old(posted) + [old(queues)[q][0]]
    {
      if queues[q] == [] {
        return;
      }
      var f := queues[q][0];
      InvAssertions(Now());
      assert Holds(Now(), InQueue(q), f);
      queues := queues[q := queues[q][1..]];
      past := past.(woken := Append(past.woken, q, f));
      Resume(f);
      WakeOneKeeps(old(Now()), Now(), q);
    }

    /** One turn of the loop of WakeAll. */
    method QueueWakeFront(q: QueueId)
      requires Valid() && q in queues && queues[q] != []
      modifies this
      ensures Valid()
      ensures queues == old(queues)[q := old(queues)[q][1..]] && posted == old(posted) + [old(queues)[q][0]]
      ensures fibers.Keys == old(fibers).Keys && running == old(running)
    {
      QueueWakeOne(q);
    }

    /** Readies every waiting fiber, in the order they parked. */
    method QueueWakeAll(q: QueueId)
      requires Valid() && q in queues
      modifies this
      ensures Valid()
      ensures queues == old(queues)[q := []] && posted == old(posted) + old(queues)[q]
      ensures fibers.Keys == old(fibers).Keys && running == old(running)
    {
      ghost var waiting := queues[q];
      ghost var n := 0;
      while queues[q] != []
        invariant Valid() && q in queues && n <= |waiting|
        invariant queues == old(queues)[q := waiting[n..]]
        invariant posted == old(posted) + waiting[..n]
        invariant fibers.Keys == old(fibers).Keys && running == old(running)
        decreases |queues[q]|
      {
        QueueWakeFront(q);
        n := n + 1;
        assert waiting[..n] == waiting[..n - 1] + [waiting[n - 1]];
      }
    }

    // ----- Parking lots -----

    /** Park keeps the invariant exactly on a vacant lot. */
    method LotPark(f: FiberId, l: LotId)
      requires Valid() && Acts(Now(), f) && l in lots
      modifies this
      ensures Now() == LotTaken(old(Now()), f, l)
      ensures Valid() <==> Vacant(old(lots)[l])
    {
      lots := lots[l := Lot(Some(f), false)];
      Suspend(f, InLot(l));
      ParkIsSafeExactly(old(Now()), f, l);
    }

    /** Wake demands what Resume asserts, and keeps the invariant exactly on a lot not woken since the last Park. */
    method LotWake(l: LotId)
      requires Valid() && l in lots && AssertionHolds(Now(), lots[l].waitee)
      modifies this
      ensures Now() == if old(lots)[l].waitee == None then old(Now()) else LotWoken(old(Now()), l)
      ensures Valid() <==> !old(lots)[l].woken
    {
      if lots[l].waitee.Some? {
        var f := lots[l].waitee.value;
        lots := lots[l := lots[l].(woken := true)];
        Resume(f);
        WakeIsSafeExactly(old(Now()), l);
      }
    }

    // ----- Join handles -----

    /** A new handle keeps the invariant exactly on a fiber nobody watches. */
    method NewHandle(h: HandleId, f: FiberId)
      requires Valid() && h !in handles && f in fibers
      modifies this
      ensures Now() == Watching(old(Now()), h, f)
      ensures Valid() <==> old(fibers)[f].watcher == None
    {
      handles := handles[h := Handle(Some(f), false, None)];
      fibers := fibers[f := fibers[f].(watcher := Some(h))];
      AttachIsSafeExactly(old(Now()), h, f);
    }

    method MovedHandle(h: HandleId, h': HandleId)
      requires Valid() && h in handles && h' !in handles && handles[h].fiber.Some? && handles[h].waitee == None
      modifies this
      ensures Valid() && MoveHandle(old(Now()), Now(), h, h')
      ensures handles[h'].fiber == old(handles)[h].fiber && handles[h'].completed == old(handles)[h].completed
      ensures handles[h].fiber == None
    {
      var f := handles[h].fiber.value;
      assert Attached(Now(), h, f);
      var completed := handles[h].completed;
      handles := handles[h := handles[h].(fiber := None)];
      handles := handles[h' := Handle(Some(f), completed, None)];
      if !completed {
        fibers := fibers[f := fibers[f].(watcher := Some(h'))];
      }
      MoveHandleKeeps(old(Now()), Now(), h, h');
    }

    method BeginJoin(f: FiberId, h: HandleId)
      requires Valid() && Acts(Now(), f) && h in handles && handles[h].fiber.Some? && handles[h].waitee == None
      modifies this
      ensures Valid() && Join(old(Now()), Now(), f, h)
      ensures if old(handles)[h].completed then running == Some(f) && h in handles && handles[h].fiber == None
              else running == None && f in joining && joining[f] == h
    {
      if handles[h].completed {
        handles := handles[h := handles[h].(fiber := None)];
      } else {
        handles := handles[h := handles[h].(waitee := Some(f))];
        joining := joining[f := h];
        Suspend(f, InJoin(h));
      }
      JoinKeeps(old(Now()), Now(), f, h);
    }

    method EndJoin(f: FiberId)
      requires Valid() && running == Some(f) && f in joining
      modifies this
      ensures Valid() && JoinReturns(old(Now()), Now(), f)
      ensures running == Some(f) && f !in joining
      ensures old(joining)[f] in handles && handles[old(joining)[f]].fiber == None
    {
      var h := joining[f];
      handles := handles[h := handles[h].(fiber := None)];
      joining := joining - {f};
      JoinReturnsKeeps(old(Now()), Now(), f, h);
    }

    /** `dangling`: the code would write to a fiber that has been destroyed; nothing is said about what follows. */
    method DetachHandle(h: HandleId) returns (dangling: bool)
      requires Valid() && h in handles && handles[h].fiber.Some? && handles[h].waitee == None
      modifies this
      ensures dangling <==> old(handles)[h].completed
      ensures !dangling ==> Valid() && Detach(old(Now()), Now(), h)
    {
      var f := handles[h].fiber.value;
      TargetIsLiveExactly(Now(), h, f);
      dangling := f !in fibers;
      if dangling {
        return;
      }
      fibers := fibers[f := fibers[f].(watcher := None)];
      handles := handles[h := handles[h].(fiber := None)];
      DetachKeeps(old(Now()), Now(), h);
    }
  }
}
