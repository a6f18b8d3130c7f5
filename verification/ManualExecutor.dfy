/**
 * The manual executor: a deque of tasks run on demand by the calling thread. A task is a finite tree: running it logs
 * its id and schedules its children on the same executor. Exceptions of a task are swallowed and change nothing here.
 */
module ManualExecutor {

  datatype Task = Task(id: nat, children: seq<Task>)

  function Size(t: Task): nat { 1 + SizeAll(t.children) }

  /** All tasks that will ever run from a queue, those scheduled by others included. */
  function SizeAll(q: seq<Task>): nat {
    if q == [] then 0 else Size(q[0]) + SizeAll(q[1..])
  }

  // ----- Running the queue from the front -----

  /** The queue after running at most k tasks. */
  function Rest(q: seq<Task>, k: nat): seq<Task>
    decreases k
  {
    if k == 0 || q == [] then q else Rest(q[1..] + q[0].children, k - 1)
  }

  /** The ids run meanwhile. */
  function Log(q: seq<Task>, k: nat): seq<nat>
    decreases k
  {
    if k == 0 || q == [] then [] else [q[0].id] + Log(q[1..] + q[0].children, k - 1)
  }

  // ----- Breadth-first order, by levels -----

  function Ids(q: seq<Task>): seq<nat> {
    if q == [] then [] else [q[0].id] + Ids(q[1..])
  }

  function Children(q: seq<Task>): seq<Task> {
    if q == [] then [] else q[0].children + Children(q[1..])
  }

  /** The ids of the first k levels of the forest, level by level. */
  function Levels(q: seq<Task>, k: nat): seq<nat>
    decreases k
  {
    if k == 0 then [] else Ids(q) + Levels(Children(q), k - 1)
  }

  /** Level k of the forest. */
  function Level(q: seq<Task>, k: nat): seq<Task>
    decreases k
  {
    if k == 0 then q else Level(Children(q), k - 1)
  }

  lemma {:induction false} SizeConcat(a: seq<Task>, b: seq<Task>)
    ensures SizeAll(a + b) == SizeAll(a) + SizeAll(b)
  {
    if a == [] {
      assert a + b == b;
    } else {
      assert (a + b)[1..] == a[1..] + b;
      SizeConcat(a[1..], b);
    }
  }

  lemma {:induction false} ChildrenSize(q: seq<Task>)
    ensures SizeAll(Children(q)) + |q| == SizeAll(q)
  {
    if q != [] {
      ChildrenSize(q[1..]);
      SizeConcat(q[0].children, Children(q[1..]));
    }
  }

  function BreadthFirst(q: seq<Task>): seq<nat>
    decreases SizeAll(q)
  {
    if q == [] then []
    else
      ChildrenSize(q);
      Ids(q) + BreadthFirst(Children(q))
  }

  // ----- Laws -----

  /** Running a tasks and then b tasks is running a + b tasks. */
  lemma {:induction false} RunAdditive(q: seq<Task>, a: nat, b: nat)
    ensures Rest(q, a + b) == Rest(Rest(q, a), b)
    ensures Log(q, a + b) == Log(q, a) + Log(Rest(q, a), b)
    decreases a
  {
    if a > 0 && q != [] {
      RunAdditive(q[1..] + q[0].children, a - 1, b);
    }
  }

  /** Running as many tasks as f is long runs exactly f and leaves its children behind what followed. */
  lemma {:induction false} RunLevel(f: seq<Task>, g: seq<Task>)
    ensures Rest(f + g, |f|) == g + Children(f)
    ensures Log(f + g, |f|) == Ids(f)
    decreases |f|
  {
    if f == [] {
      assert f + g == g && g + Children(f) == g;
    } else {
      var g' := g + f[0].children;
      assert (f + g)[1..] + f[0].children == f[1..] + g';
      RunLevel(f[1..], g');
      assert g' + Children(f[1..]) == g + Children(f);
    }
  }

  /** RunAllScheduled runs exactly one level. */
  lemma RunAllIsOneLevel(q: seq<Task>)
    ensures Rest(q, |q|) == Children(q) && Log(q, |q|) == Ids(q)
  {
    RunLevel(q, []);
    assert q + [] == q && [] + Children(q) == Children(q);
  }

  /** Each task run takes one off the total. */
  lemma {:induction false} RunShrinks(q: seq<Task>, k: nat)
    requires k <= SizeAll(q)
    ensures SizeAll(Rest(q, k)) == SizeAll(q) - k && |Log(q, k)| == k
    decreases k
  {
    if k > 0 && q != [] {
      SizeConcat(q[1..], q[0].children);
      RunShrinks(q[1..] + q[0].children, k - 1);
    }
  }

  /** A drain runs the first level and then drains the next one. */
  lemma {:induction false} DrainLevel(q: seq<Task>)
    ensures SizeAll(q) == |q| + SizeAll(Children(q))
    ensures Rest(q, SizeAll(q)) == Rest(Children(q), SizeAll(Children(q)))
    ensures Log(q, SizeAll(q)) == Ids(q) + Log(Children(q), SizeAll(Children(q)))
  {
    ChildrenSize(q);
    RunAllIsOneLevel(q);
    RunAdditive(q, |q|, SizeAll(Children(q)));
  }

  /** Draining runs the whole forest in breadth-first order. */
  lemma {:induction false} DrainIsBreadthFirst(q: seq<Task>)
    ensures Rest(q, SizeAll(q)) == []
    ensures Log(q, SizeAll(q)) == BreadthFirst(q)
    ensures |BreadthFirst(q)| == SizeAll(q)
    decreases SizeAll(q)
  {
    if q != [] {
      DrainLevel(q);
      DrainIsBreadthFirst(Children(q));
      RunShrinks(q, SizeAll(q));
    }
  }

  class Executor {
    var tasks: seq<Task>
    /** The ids of the tasks run so far. */
    var log: seq<nat>

    constructor ()
      ensures tasks == [] && log == []
    {
      tasks, log := [], [];
    }

    method Execute(t: Task)
      modifies this`tasks
      ensures tasks == old(tasks) + [t]
    {
      tasks := tasks + [t];
    }

    method PopTask() returns (t: Task)
      requires tasks != []
      modifies this`tasks
      ensures t == old(tasks)[0] && tasks == old(tasks)[1..]
    {
      t := tasks[0];
      tasks := tasks[1..];
    }

    /** The body of a task. */
    method ExecuteHere(t: Task)
      modifies this
      ensures tasks == old(tasks) + t.children && log == old(log) + [t.id]
    {
      log := log + [t.id];
      for i := 0 to |t.children|
        invariant tasks == old(tasks) + t.children[..i] && log == old(log) + [t.id]
      {
        Execute(t.children[i]);
        assert t.children[..i + 1] == t.children[..i] + [t.children[i]];
      }
      assert t.children[..|t.children|] == t.children;
    }

    method RunAtMost(limit: nat) returns (n: nat)
      modifies this
      ensures tasks == Rest(old(tasks), limit)
      ensures log == old(log) + Log(old(tasks), limit)
      ensures n == |Log(old(tasks), limit)| == if limit <= SizeAll(old(tasks)) then limit else SizeAll(old(tasks))
    {
      ghost var q := tasks;
      for i := 0 to limit
        invariant i <= SizeAll(q)
        invariant tasks == Rest(q, i) && log == old(log) + Log(q, i)
      {
        RunShrinks(q, i);
        if tasks == [] {
          RunAdditive(q, i, limit - i);
          return i;
        }
        RunAdditive(q, i, 1);
        var task := PopTask();
        ExecuteHere(task);
      }
      RunShrinks(q, limit);
      return limit;
    }

    method RunAtMostOne() returns (b: bool)
      modifies this
      ensures b <==> old(tasks) != []
      ensures tasks == Rest(old(tasks), 1) && log == old(log) + Log(old(tasks), 1)
    {
      var n := RunAtMost(1);
      b := n == 1;
    }

    method RunAllScheduled() returns (n: nat)
      modifies this
      ensures n == |old(tasks)|
      ensures tasks == Children(old(tasks)) && log == old(log) + Ids(old(tasks))
    {
      RunAllIsOneLevel(tasks);
      ChildrenSize(tasks);
      n := RunAtMost(|tasks|);
    }

    method Drain() returns (count: nat)
      modifies this
      ensures tasks == []
      ensures log == old(log) + BreadthFirst(old(tasks))
      ensures count == SizeAll(old(tasks))
    {
      ghost var q := tasks;
      count := 0;
      while tasks != []
        invariant count <= SizeAll(q)
        invariant tasks == Rest(q, count) && log == old(log) + Log(q, count)
        decreases SizeAll(tasks)
      {
        RunAdditive(q, count, 1);
        RunShrinks(q, count);
        SizeConcat(tasks[1..], tasks[0].children);
        var task := PopTask();
        ExecuteHere(task);
        count := count + 1;
      }
      RunShrinks(q, count);
      DrainIsBreadthFirst(q);
    }

    method Clear()
      modifies this`tasks
      ensures tasks == []
    {
      tasks := [];
    }
  }

  /** k calls of RunAllScheduled run exactly the first k levels. */
  method RunRounds(e: Executor, k: nat)
    modifies e
    ensures e.tasks == Level(old(e.tasks), k)
    ensures e.log == old(e.log) + Levels(old(e.tasks), k)
  {
    ghost var q := e.tasks;
    for i := 0 to k
      invariant e.tasks == Level(q, i) && e.log == old(e.log) + Levels(q, i)
    {
      NextLevel(q, i);
      var n := e.RunAllScheduled();
    }
  }

  lemma {:induction false} NextLevel(q: seq<Task>, k: nat)
    ensures Level(q, k + 1) == Children(Level(q, k))
    ensures Levels(q, k + 1) == Levels(q, k) + Ids(Level(q, k))
    decreases k
  {
    if k > 0 {
      NextLevel(Children(q), k - 1);
    } else {
      assert Levels(Children(q), 0) == [];
    }
  }
}
