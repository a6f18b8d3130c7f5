/**
 * Chains of synchronous Then and Recover. Link i of a chain is a shared state; the callback subscribed to link i
 * applies the i-th step and fulfils the promise of link i + 1. Subscriptions, the fulfilment of the first promise,
 * callbacks and executor jobs interleave in every way.
 */
module FutureChain {
  import opened Results
  import Rendezvous
  import Runs

  /** `f` and `h` are the user's functions as `Invoke` sees them: an exception they throw is an error result. */
  datatype Step<!V, !E> = Then(f: V -> Result<V, E>) | Recover(h: E -> Result<V, E>)

  /** The transformer that Then and Recover build around the user's function. */
  function Transform<V, E>(step: Step<V, E>, input: Result<V, E>): Result<V, E> {
    match step
    case Then(f) => if input.Ok? then f(input.value) else Err(input.error)
    case Recover(h) => if input.Ok? then input else h(input.error)
  }

  /** How the callback fulfils the next promise: SetValue converts the new result to its value, which throws the error
      if there is one, and the handler then calls SetError with it. */
  function Fulfil<V, E>(newResult: Result<V, E>): (given: Result<V, E>)
    ensures given == newResult
  {
    match newResult
    case Ok(v) => Ok(v)
    case Err(e) => Err(e)
  }

  /** The meaning of a chain: its steps applied one after the other. */
  function Fold<V, E>(steps: seq<Step<V, E>>, r: Result<V, E>): Result<V, E> {
    if steps == [] then r else Fold(steps[1..], Transform(steps[0], r))
  }

  lemma {:induction false} FoldAppend<V, E>(steps: seq<Step<V, E>>, step: Step<V, E>, r: Result<V, E>)
    ensures Fold(steps + [step], r) == Transform(step, Fold(steps, r))
  {
    if steps == [] {
      assert steps + [step] == [step];
    } else {
      assert (steps + [step])[1..] == steps[1..] + [step];
      FoldAppend(steps[1..], step, Transform(steps[0], r));
    }
  }

  /** A Then that ends a chain calls its continuation on the value before it, and a Recover its handler on the error. */
  lemma {:induction false} LastStepCalls<V, E>(steps: seq<Step<V, E>>, step: Step<V, E>, r: Result<V, E>)
    ensures Calls(step, Fold(steps, r), Fold(steps + [step], r))
    ensures Fold([], r) == r
  {
    FoldAppend(steps, step, r);
  }

  /** What the user is promised of one step: Then is called on values and skips errors, Recover the other way round. */
  ghost predicate Calls<V, E>(step: Step<V, E>, input: Result<V, E>, output: Result<V, E>) {
    match (step, input)
    case (Then(f), Ok(v)) => output == f(v)
    case (Then(f), Err(e)) => output == Err(e)
    case (Recover(h), Ok(v)) => output == Ok(v)
    case (Recover(h), Err(e)) => output == h(e)
  }

  /** An error passes through every Then up to the next Recover. */
  lemma {:induction false} ErrorsSkipThen<V, E>(steps: seq<Step<V, E>>, e: E)
    requires forall i :: 0 <= i < |steps| ==> steps[i].Then?
    ensures Fold(steps, Err(e)) == Err(e)
  {
    if steps != [] {
      ErrorsSkipThen(steps[1..], e);
    }
  }

  /** A value passes through every Recover up to the next Then. */
  lemma {:induction false} ValuesSkipRecover<V, E>(steps: seq<Step<V, E>>, v: V)
    requires forall i :: 0 <= i < |steps| ==> steps[i].Recover?
    ensures Fold(steps, Ok(v)) == Ok(v)
  {
    if steps != [] {
      ValuesSkipRecover(steps[1..], v);
    }
  }

  // ----- The chain as a system -----

  type Link<V, E> = Rendezvous.State<Result<V, E>>

  datatype Chain<!V, !E> = Chain(steps: seq<Step<V, E>>, first: Result<V, E>, links: seq<Link<V, E>>)

  ghost predicate Init<V(!new), E(!new)>(c: Chain<V, E>) {
    && |c.links| == |c.steps| + 1
    && (forall i :: 0 <= i < |c.links| ==> Rendezvous.Init(c.links[i]))
    && (forall i :: 0 <= i < |c.steps| ==> !c.links[i].blocking)
  }

  /** The result that link i is given: the first promise's, or what the callback of the link before computes. */
  ghost predicate Fulfilling<V(!new), E(!new)>(c: Chain<V, E>, c': Chain<V, E>, i: nat) {
    && i < |c.links| && |c.links| == |c.steps| + 1
    && (i > 0 ==> c.links[i - 1].delivered != [])
    && var r := if i == 0 then c.first else Fulfil(Transform(c.steps[i - 1], c.links[i - 1].delivered[0]));
    && exists l :: Rendezvous.SetResult(c.links[i], l, r) && c' == c.(links := c.links[i := l])
  }

  ghost predicate LinkProgress<V(!new), E(!new)>(c: Chain<V, E>, c': Chain<V, E>, i: nat) {
    && i < |c.links|
    && exists l :: Rendezvous.Progress(c.links[i], l) && c' == c.(links := c.links[i := l])
  }

  ghost predicate LinkSpurious<V(!new), E(!new)>(c: Chain<V, E>, c': Chain<V, E>, i: nat) {
    && i < |c.links|
    && exists l :: Rendezvous.SpuriousWake(c.links[i], l) && c' == c.(links := c.links[i := l])
  }

  ghost predicate Progress<V(!new), E(!new)>(c: Chain<V, E>, c': Chain<V, E>) {
    exists i: nat :: Fulfilling(c, c', i) || LinkProgress(c, c', i)
  }

  ghost predicate Next<V(!new), E(!new)>(c: Chain<V, E>, c': Chain<V, E>) {
    Progress(c, c') || exists i: nat :: LinkSpurious(c, c', i)
  }

  /** Every link keeps its own invariant and is promised the fold of the steps before it. */
  ghost predicate Inv<V(!new), E(!new)>(c: Chain<V, E>) {
    && |c.links| == |c.steps| + 1
    && (forall i :: 0 <= i < |c.links| ==> Rendezvous.Inv(c.links[i]))
    && (forall i :: 0 <= i < |c.links| && c.links[i].promised != [] ==> c.links[i].promised == [Fold(c.steps[..i], c.first)])
    && (forall i :: 0 < i < |c.links| && c.links[i].promised != [] ==> c.links[i - 1].delivered != [])
  }

  lemma PromiseIsFold<V(!new), E(!new)>(c: Chain<V, E>, i: nat)
    requires Inv(c) && 0 < i < |c.links| && c.links[i - 1].delivered != []
    ensures Transform(c.steps[i - 1], c.links[i - 1].delivered[0]) == Fold(c.steps[..i], c.first)
  {
    Rendezvous.InvMeans(c.links[i - 1]);
    assert c.steps[..i] == c.steps[..i - 1] + [c.steps[i - 1]];
    FoldAppend(c.steps[..i - 1], c.steps[i - 1], c.first);
  }

  lemma FulfillingKeeps<V(!new), E(!new)>(c: Chain<V, E>, c': Chain<V, E>, i: nat)
    requires Inv(c) && Fulfilling(c, c', i)
    ensures Inv(c')
  {
    Rendezvous.StepKeeps(c.links[i], c'.links[i]);
    if i > 0 {
      PromiseIsFold(c, i);
    }
  }

  lemma LinkKeeps<V(!new), E(!new)>(c: Chain<V, E>, c': Chain<V, E>, i: nat)
    requires Inv(c) && (LinkProgress(c, c', i) || LinkSpurious(c, c', i))
    ensures Inv(c')
  {
    var l := c'.links[i];
    Rendezvous.PromiseIsKept(c.links[i], l);
    assert Rendezvous.Inv(l) by { Rendezvous.StepKeeps(c.links[i], l); }
  }

  lemma StepKeeps<V(!new), E(!new)>(c: Chain<V, E>, c': Chain<V, E>)
    requires Inv(c) && Next(c, c')
    ensures Inv(c')
  {
    if i: nat :| Fulfilling(c, c', i) {
      FulfillingKeeps(c, c', i);
    } else {
      var i: nat :| LinkProgress(c, c', i) || LinkSpurious(c, c', i);
      LinkKeeps(c, c', i);
    }
  }

  /** What the last consumer has been given. */
  ghost function Outcome<V, E>(c: Chain<V, E>): seq<Result<V, E>>
    requires c.links != []
  {
    c.links[|c.links| - 1].delivered
  }

  /** Every result that a link has delivered is the first result, or what the step before the link makes of the
      result delivered there. */
  ghost predicate EachStepCalls<V(!new), E(!new)>(c: Chain<V, E>) {
    forall i :: 0 <= i < |c.links| && c.links[i].delivered != [] ==> StepCalls(c, i)
  }

  ghost predicate StepCalls<V(!new), E(!new)>(c: Chain<V, E>, i: nat)
    requires i < |c.links| && c.links[i].delivered != []
  {
    if i == 0 then c.links[i].delivered == [c.first]
    else
      && |c.steps| >= i && |c.links[i].delivered| == |c.links[i - 1].delivered| == 1
      && Calls(c.steps[i - 1], c.links[i - 1].delivered[0], c.links[i].delivered[0])
  }

  ghost predicate AllComplete<V(!new), E(!new)>(c: Chain<V, E>) {
    forall i :: 0 <= i < |c.links| ==> Rendezvous.Complete(c.links[i])
  }

  lemma DeliveredCalls<V(!new), E(!new)>(c: Chain<V, E>, i: nat)
    requires Inv(c) && i < |c.links| && c.links[i].delivered != []
    ensures StepCalls(c, i)
  {
    Rendezvous.InvMeans(c.links[i]);
    if i > 0 {
      Rendezvous.InvMeans(c.links[i - 1]);
      assert c.steps[..i] == c.steps[..i - 1] + [c.steps[i - 1]];
      LastStepCalls(c.steps[..i - 1], c.steps[i - 1], c.first);
    }
  }

  /** In every state of every run the last consumer has nothing or exactly the fold, every step has been applied as
      promised to what was delivered before it, and no link is at fault. */
  lemma ChainIsConfluent<V(!new), E(!new)>(run: seq<Chain<V, E>>)
    requires Runs.IsRun(Init<V, E>, Next<V, E>, run)
    ensures forall j :: 0 <= j < |run| ==>
      && run[j].links != []
      && (Outcome(run[j]) == [] || Outcome(run[j]) == [Fold(run[j].steps, run[j].first)])
      && (AllComplete(run[j]) ==> Outcome(run[j]) == [Fold(run[j].steps, run[j].first)])
      && EachStepCalls(run[j])
      && (forall i :: 0 <= i < |run[j].links| ==> Rendezvous.NoFault(run[j].links[i]))
  {
    forall c: Chain<V, E>, c' | Inv(c) && Next(c, c') ensures Inv(c') { StepKeeps(c, c'); }
    Runs.Invariant(Init<V, E>, Next<V, E>, Inv<V, E>, run);
    forall j | 0 <= j < |run|
      ensures run[j].links != []
      ensures Outcome(run[j]) == [] || Outcome(run[j]) == [Fold(run[j].steps, run[j].first)]
      ensures AllComplete(run[j]) ==> Outcome(run[j]) == [Fold(run[j].steps, run[j].first)]
      ensures EachStepCalls(run[j])
      ensures forall i :: 0 <= i < |run[j].links| ==> Rendezvous.NoFault(run[j].links[i])
    {
      var c := run[j];
      assert c.steps[..|c.steps|] == c.steps;
      forall i | 0 <= i < |c.links| ensures Rendezvous.NoFault(c.links[i]) && Rendezvous.DeliveredOnce(c.links[i]) {
        Rendezvous.InvMeans(c.links[i]);
      }
      forall i | 0 <= i < |c.links| && c.links[i].delivered != [] ensures StepCalls(c, i) {
        DeliveredCalls(c, i);
      }
    }
  }

  // ----- Every chain finishes -----

  ghost function Remaining<V, E>(links: seq<Link<V, E>>): nat {
    if links == [] then 0 else Rendezvous.Remaining(links[0]) + Remaining(links[1..])
  }

  lemma {:induction false} RemainingUpdate<V, E>(links: seq<Link<V, E>>, i: nat, l: Link<V, E>)
    requires i < |links|
    ensures Remaining(links[i := l]) == Remaining(links) - Rendezvous.Remaining(links[i]) + Rendezvous.Remaining(l)
  {
    if i == 0 {
      assert links[i := l][1..] == links[1..];
    } else {
      assert links[i := l][1..] == links[1..][i - 1 := l];
      RemainingUpdate(links[1..], i - 1, l);
    }
  }

  /** Apart from wakeups for no reason every step uses up a bounded supply. */
  lemma ProgressDecreases<V(!new), E(!new)>(c: Chain<V, E>, c': Chain<V, E>)
    requires Inv(c) && Progress(c, c')
    ensures Remaining(c'.links) < Remaining(c.links)
  {
    var i: nat :| Fulfilling(c, c', i) || LinkProgress(c, c', i);
    RemainingUpdate(c.links, i, c'.links[i]);
    if LinkProgress(c, c', i) {
      Rendezvous.ProgressDecreases(c.links[i], c'.links[i]);
    }
  }

  /** A chain that is not complete can make progress: fulfil the first idle link, or step the first incomplete one. */
  lemma NotStuck<V(!new), E(!new)>(c: Chain<V, E>) returns (c': Chain<V, E>)
    requires Inv(c) && !AllComplete(c)
    ensures Progress(c, c')
  {
    var i: nat := 0;
    while Rendezvous.Complete(c.links[i])
      invariant i < |c.links|
      invariant forall j :: 0 <= j < i ==> Rendezvous.Complete(c.links[j])
      decreases |c.links| - i
    {
      i := i + 1;
    }
    var l := c.links[i];
    if l.producer == Rendezvous.Unset {
      if i > 0 {
        Rendezvous.InvMeans(c.links[i - 1]);
      }
      var r := if i == 0 then c.first else Fulfil(Transform(c.steps[i - 1], c.links[i - 1].delivered[0]));
      var l' := l.(result := Rendezvous.Full(r), producer := Rendezvous.Offering, promised := [r]);
      assert Rendezvous.SetResult(l, l', r);
      c' := c.(links := c.links[i := l']);
      assert Fulfilling(c, c', i);
    } else {
      var l' := Rendezvous.NotStuck(l);
      c' := c.(links := c.links[i := l']);
      assert LinkProgress(c, c', i);
    }
  }

  lemma {:induction false} InitialSupply<V(!new), E(!new)>(links: seq<Link<V, E>>)
    requires forall i :: 0 <= i < |links| ==> Rendezvous.Init(links[i])
    ensures Remaining(links) == 15 * |links|
  {
    if links != [] {
      InitialSupply(links[1..]);
    }
  }

  lemma SupplyStep<V(!new), E(!new)>(c: Chain<V, E>, c': Chain<V, E>)
    requires Inv(c) && Progress(c, c')
    ensures Inv(c') && c'.steps == c.steps && c'.first == c.first
    ensures Remaining(c'.links) < Remaining(c.links)
  {
    ProgressDecreases(c, c');
    StepKeeps(c, c');
  }

  lemma {:induction false} SupplyShrinks<V(!new), E(!new)>(run: seq<Chain<V, E>>, k: nat)
    requires Runs.IsRun(Init<V, E>, Progress<V, E>, run) && k < |run|
    ensures Inv(run[k]) && run[k].steps == run[0].steps && run[k].first == run[0].first
    ensures Remaining(run[k].links) + k <= 15 * |run[0].links|
  {
    if k == 0 {
      InitialSupply(run[0].links);
    } else {
      SupplyShrinks(run, k - 1);
      SupplyStep(run[k - 1], run[k]);
    }
  }

  lemma CompleteMeansDelivered<V(!new), E(!new)>(c: Chain<V, E>)
    requires Inv(c) && AllComplete(c)
    ensures Outcome(c) == [Fold(c.steps, c.first)]
  {
    assert c.steps[..|c.steps|] == c.steps;
    Rendezvous.InvMeans(c.links[|c.links| - 1]);
  }

  /** Without wakeups for no reason every run is finite, and a run that cannot go on has delivered the fold. */
  lemma MaximalRunDelivers<V(!new), E(!new)>(run: seq<Chain<V, E>>)
    requires Runs.IsRun(Init<V, E>, Progress<V, E>, run)
    ensures |run| <= 15 * |run[0].links| + 1
    ensures var c := Runs.LastOf(run);
      (forall c' :: !Progress(c, c')) ==> c.links != [] && Outcome(c) == [Fold(run[0].steps, run[0].first)]
  {
    var c := Runs.LastOf(run);
    SupplyShrinks(run, |run| - 1);
    if AllComplete(c) {
      CompleteMeansDelivered(c);
    } else {
      var c' := NotStuck(c);
    }
  }
}
