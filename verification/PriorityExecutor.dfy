/**
 * The priority executor: Execute puts a task in a priority queue under a mutex and then posts a job to the underlying
 * executor; a job pops the top of the queue under the mutex, unlocks, and then runs it. The underlying executor starts
 * a posted job at most once, and may run several jobs at once. A region under the mutex, a post, and the start of a
 * task are one step each.
 */
module PriorityExecutor {
  import opened Counting
  import Runs

  datatype Task = Task(priority: int, id: nat)

  datatype Caller = Out | Emplaced   // between the emplace and the post

  /** `jobs` are posted and not started, `lost` were posted and will never start, `held` are the tasks that jobs have
      popped and not started. History: tasks `submitted`, and in order those `popped` and those `ran`. */
  datatype State = State(queue: multiset<Task>, callers: seq<Caller>, jobs: nat, lost: nat, held: multiset<Task>,
                         submitted: multiset<Task>, popped: seq<Task>, ran: seq<Task>)

  ghost predicate Init(s: State) {
    && s.queue == multiset{} && s.jobs == 0 && s.lost == 0 && s.held == multiset{}
    && s.submitted == multiset{} && s.popped == [] && s.ran == []
    && forall c :: 0 <= c < |s.callers| ==> s.callers[c] == Out
  }

  /** The comparator of the queue. */
  predicate Less(a: Task, b: Task) { a.priority < b.priority }

  /** What `top` may return: an element that is less than no other. */
  ghost predicate IsTop(q: multiset<Task>, t: Task) {
    t in q && forall u :: u in q ==> !Less(t, u)
  }

  ghost predicate Emplace(s: State, s': State, c: nat, t: Task) {
    && c < |s.callers| && s.callers[c].Out?
    && s' == s.(queue := s.queue + multiset{t}, submitted := s.submitted + multiset{t},
                callers := s.callers[c := Emplaced])
  }

  ghost predicate Post(s: State, s': State, c: nat) {
    && c < |s.callers| && s.callers[c].Emplaced?
    && s' == s.(jobs := s.jobs + 1, callers := s.callers[c := Out])
  }

  /** A job starts and pops the top. */
  ghost predicate PopTop(s: State, s': State, t: Task) {
    && s.jobs > 0 && IsTop(s.queue, t)
    && s' == s.(jobs := s.jobs - 1, queue := s.queue - multiset{t}, held := s.held + multiset{t},
                popped := s.popped + [t])
  }

  ghost predicate RunTask(s: State, s': State, t: Task) {
    && t in s.held
    && s' == s.(held := s.held - multiset{t}, ran := s.ran + [t])
  }

  ghost predicate LoseJob(s: State, s': State) {
    s.jobs > 0 && s' == s.(jobs := s.jobs - 1, lost := s.lost + 1)
  }

  ghost predicate JobStep(s: State, s': State) {
    (exists t :: PopTop(s, s', t)) || (exists t :: RunTask(s, s', t))
  }

  ghost predicate Next(s: State, s': State) {
    || (exists c: nat, t :: Emplace(s, s', c, t))
    || (exists c: nat :: Post(s, s', c))
    || JobStep(s, s')
    || LoseJob(s, s')
  }

  predicate Pending(c: Caller) { c.Emplaced? }

  ghost predicate Inv(s: State) {
    && |s.queue| == s.jobs + Count(s.callers, Pending) + s.lost
    && s.submitted == s.queue + multiset(s.popped)
    && multiset(s.popped) == s.held + multiset(s.ran)
  }

  lemma PopKeeps(s: State, s': State, t: Task)
    requires Inv(s) && PopTop(s, s', t)
    ensures Inv(s')
  {
    assert s.queue == s'.queue + multiset{t};
    assert multiset(s'.popped) == multiset(s.popped) + multiset{t};
  }

  lemma RunTaskKeeps(s: State, s': State, t: Task)
    requires Inv(s) && RunTask(s, s', t)
    ensures Inv(s')
  {
    assert s.held == s'.held + multiset{t};
    assert multiset(s'.ran) == multiset(s.ran) + multiset{t};
  }

  lemma StepKeeps(s: State, s': State)
    requires Inv(s) && Next(s, s')
    ensures Inv(s')
  {
    if c: nat, t :| Emplace(s, s', c, t) {
      CountUpdate(s.callers, Pending, c, Emplaced);
    } else if c: nat :| Post(s, s', c) {
      CountUpdate(s.callers, Pending, c, Out);
    } else if t :| PopTop(s, s', t) {
      PopKeeps(s, s', t);
    } else if t :| RunTask(s, s', t) {
      RunTaskKeeps(s, s', t);
    }
  }

  lemma RunKeeps(run: seq<State>)
    requires Runs.IsRun(Init, Next, run)
    ensures forall i :: 0 <= i < |run| ==> Inv(run[i])
  {
    forall s | Init(s) ensures Inv(s) { CountNone(s.callers, Pending); }
    forall s, s' | Inv(s) && Next(s, s') ensures Inv(s') { StepKeeps(s, s'); }
    Runs.Invariant(Init, Next, Inv, run);
  }

  /** A queue that is not empty has a top. */
  lemma {:induction false} TopExists(q: multiset<Task>) returns (t: Task)
    requires q != multiset{}
    ensures IsTop(q, t)
    decreases |q|
  {
    t :| t in q;
    var rest := q - multiset{t};
    assert q == rest + multiset{t};
    if rest != multiset{} {
      var r := TopExists(rest);
      if Less(t, r) {
        t := r;
      }
    }
  }

  /** In every state of every run: nothing is lost from the queue, it covers every unstarted job and every caller on
      its way to post one, and so a job never asks an empty queue for its top. */
  lemma PriorityExecutorIsCorrect(run: seq<State>)
    requires Runs.IsRun(Init, Next, run)
    ensures forall i :: 0 <= i < |run| ==>
      && run[i].jobs + Count(run[i].callers, Pending) <= |run[i].queue|
      && run[i].submitted == run[i].queue + run[i].held + multiset(run[i].ran)
      && (run[i].jobs > 0 ==> exists t :: IsTop(run[i].queue, t))
  {
    RunKeeps(run);
    forall i | 0 <= i < |run| && run[i].jobs > 0 ensures exists t :: IsTop(run[i].queue, t) {
      var t := TopExists(run[i].queue);
    }
  }

  ghost predicate NonIncreasing(ts: seq<Task>) {
    forall i, j :: 0 <= i < j < |ts| ==> ts[i].priority >= ts[j].priority
  }

  /** From index m on only jobs run, and everything submitted before was still queued at m. */
  ghost predicate FillThenDrain(run: seq<State>, m: nat) {
    && m < |run| && run[m].popped == []
    && forall i, j :: m <= i && j == i + 1 && j < |run| ==> JobStep(run[i], run[j])
  }

  /** The jobs do not overlap: each starts when the task of the one before has been started. */
  ghost predicate OneByOne(run: seq<State>, m: nat) {
    forall i, j :: m <= i && j == i + 1 && j < |run| ==> Alone(run[i], run[j])
  }

  ghost predicate Alone(s: State, s': State) {
    (exists t :: PopTop(s, s', t)) ==> s.held == multiset{}
  }

  /** What has been popped is sorted and outranks what is queued. */
  ghost predicate Draining(s: State) {
    && NonIncreasing(s.popped)
    && forall i, u :: 0 <= i < |s.popped| && u in s.queue ==> s.popped[i].priority >= u.priority
  }

  /** What has run is what was popped, in the same order, but for the last task. */
  ghost predicate InOrder(s: State) {
    && s.ran <= s.popped
    && var rest := s.popped[|s.ran|..];
    && |rest| <= 1 && s.held == multiset(rest)
  }

  lemma DrainStep(s: State, s': State)
    requires Draining(s) && JobStep(s, s')
    ensures Draining(s') && s'.submitted == s.submitted
  {
    if t :| PopTop(s, s', t) {
      DrainPop(s, s', t);
    }
  }

  lemma DrainPop(s: State, s': State, t: Task)
    requires Draining(s) && PopTop(s, s', t)
    ensures Draining(s')
  {
    forall i, u | 0 <= i < |s'.popped| && u in s'.queue ensures s'.popped[i].priority >= u.priority {
      assert u in s.queue;
    }
  }

  lemma PopInOrder(s: State, s': State, t: Task)
    requires InOrder(s) && PopTop(s, s', t) && s.held == multiset{}
    ensures InOrder(s')
  {
    var rest := s.popped[|s.ran|..];
    assert |multiset(rest)| == |rest| == 0;
    assert s'.popped[|s'.ran|..] == [t];
    assert s'.held == multiset([t]);
  }

  lemma RunInOrder(s: State, s': State, t: Task)
    requires InOrder(s) && RunTask(s, s', t)
    ensures InOrder(s')
  {
    var rest := s.popped[|s.ran|..];
    assert t in rest;
    assert rest == [t];
    assert s.popped == s'.ran;
    assert s'.held == multiset([]);
  }

  lemma AloneKeepsOrder(s: State, s': State)
    requires InOrder(s) && JobStep(s, s') && Alone(s, s')
    ensures InOrder(s')
  {
    if t :| PopTop(s, s', t) {
      PopInOrder(s, s', t);
    } else {
      var t :| RunTask(s, s', t);
      RunInOrder(s, s', t);
    }
  }

  lemma {:induction false} DrainSegment(run: seq<State>, m: nat)
    requires m < |run| && Draining(run[m])
    requires forall i, j :: m <= i && j == i + 1 && j < |run| ==> JobStep(run[i], run[j])
    ensures Draining(Runs.LastOf(run)) && Runs.LastOf(run).submitted == run[m].submitted
    ensures InOrder(run[m]) && OneByOne(run, m) ==> InOrder(Runs.LastOf(run))
    decreases |run| - m
  {
    if m + 1 < |run| {
      DrainStep(run[m], run[m + 1]);
      if InOrder(run[m]) && OneByOne(run, m) {
        AloneKeepsOrder(run[m], run[m + 1]);
      }
      DrainSegment(run, m + 1);
    }
  }

  lemma StartsInOrder(s: State)
    requires Inv(s) && s.popped == []
    ensures InOrder(s) && s.ran == []
  {
    assert |multiset(s.popped)| == |s.held| + |s.ran| == 0;
  }

  /** Filling the executor and then draining it to the last job pops the tasks highest priority first and runs each of
      them once; if jobs do not overlap, they run in that order too. */
  lemma DrainIsSorted(run: seq<State>, m: nat)
    requires Runs.IsRun(Init, Next, run) && FillThenDrain(run, m)
    requires var s := Runs.LastOf(run);
      s.jobs == 0 && s.lost == 0 && Count(s.callers, Pending) == 0 && s.held == multiset{}
    ensures var s := Runs.LastOf(run);
      && s.queue == multiset{}
      && NonIncreasing(s.popped)
      && multiset(s.ran) == multiset(s.popped) == run[m].submitted
      && (OneByOne(run, m) ==> NonIncreasing(s.ran))
  {
    RunKeeps(run);
    StartsInOrder(run[m]);
    DrainSegment(run, m);
    var s := Runs.LastOf(run);
    if InOrder(s) {
      assert |multiset(s.popped[|s.ran|..])| == |s.popped[|s.ran|..]| == 0;
      assert s.ran == s.popped;
    }
  }
}
