/**
 * The state shared between a Promise and a Future: one four-valued atomic word joins one producer (SetResult) to
 * one consumer (Subscribe, or the blocking GetResult). Every access to the word or to one of the two slots is
 * one step; a slot that is read while empty, or twice, or a VERIFY that does not hold, leads to `Fault`.
 */
module Rendezvous {
  import Runs

  datatype Word = Start | OnlyResult | OnlyCallback | Done

  /** An optional that is written once and moved out of once. */
  datatype Slot<T> = Empty | Full(value: T) | Moved

  datatype Producer<R> =
    | Unset             // SetResult not yet called
    | Offering          // result_ written, before the compare-exchange
    | Notifying         // word was Start, before notify_one
    | Claiming          // word was OnlyCallback, before storing Done
    | Reading           // stored Done, before moving callback_ and result_ out
    | Handing(r: R)     // before handing the result to the callback
    | Set
    | ProducerFault

  datatype Consumer<R> =
    | Unused
    | Passing           // Subscribe saw no result, before writing callback_
    | Registering       // callback_ written, before the compare-exchange
    | Registered        // word was Start: the producer will run the callback
    | Waiting           // GetResult, about to evaluate `wait`: sleep if the word is still Start
    | Asleep
    | Taking            // a result is there, before storing Done
    | Fetching          // stored Done, before moving result_ out
    | Calling(r: R)     // before handing the result to the callback
    | Finished
    | ConsumerFault

  /** `blocking`: the consumer calls GetResult instead of Subscribe. `executor`: callbacks go through an executor.
      History: `promised` is the argument of SetResult, `delivered` what the consumer was given, `jobsRun` how often by
      a job of the executor. */
  datatype State<R> = State(
    blocking: bool, executor: bool,
    word: Word, result: Slot<R>, callback: Slot<()>, producer: Producer<R>, consumer: Consumer<R>, jobs: seq<R>,
    promised: seq<R>, delivered: seq<R>, jobsRun: nat)

  ghost predicate Init<R(!new)>(s: State<R>) {
    && s.word == Start && s.result == Empty && s.callback == Empty
    && s.producer == Unset && s.consumer == Unused && s.jobs == [] && s.promised == [] && s.delivered == [] && s.jobsRun == 0
  }

  // ----- Producer -----

  ghost predicate SetResult<R(!new)>(s: State<R>, s': State<R>, r: R) {
    && s.producer == Unset
    && s' == s.(result := Full(r), producer := Offering, promised := [r])
  }

  ghost predicate Offer<R(!new)>(s: State<R>, s': State<R>) {
    && s.producer == Offering
    && s' == match s.word
             case Start => s.(word := OnlyResult, producer := Notifying)
             case OnlyCallback => s.(producer := Claiming)
             case _ => s.(producer := ProducerFault)
  }

  ghost predicate Notify<R(!new)>(s: State<R>, s': State<R>) {
    && s.producer == Notifying
    && s' == s.(producer := Set, consumer := if s.consumer == Asleep then Waiting else s.consumer)
  }

  ghost predicate Claim<R(!new)>(s: State<R>, s': State<R>) {
    && s.producer == Claiming
    && s' == s.(word := Done, producer := Reading)
  }

  ghost predicate Read<R(!new)>(s: State<R>, s': State<R>) {
    && s.producer == Reading
    && s' == if s.result.Full? && s.callback.Full?
             then s.(result := Moved, callback := Moved, producer := Handing(s.result.value))
             else s.(producer := ProducerFault)
  }

  ghost predicate Hand<R(!new)>(s: State<R>, s': State<R>) {
    && s.producer.Handing?
    && s' == if s.executor then s.(jobs := s.jobs + [s.producer.r], producer := Set)
             else s.(delivered := s.delivered + [s.producer.r], producer := Set)
  }

  // ----- Consumer -----

  /** Subscribe asks HasResult first. */
  ghost predicate Subscribe<R(!new)>(s: State<R>, s': State<R>) {
    && s.consumer == Unused && !s.blocking
    && s' == s.(consumer := if s.word == OnlyResult then Taking else Passing)
  }

  ghost predicate Pass<R(!new)>(s: State<R>, s': State<R>) {
    && s.consumer == Passing
    && s' == s.(callback := Full(()), consumer := Registering)
  }

  /** On failure the callback is moved out of its slot again. */
  ghost predicate Register<R(!new)>(s: State<R>, s': State<R>) {
    && s.consumer == Registering
    && s' == match s.word
             case Start => s.(word := OnlyCallback, consumer := Registered)
             case OnlyResult =>
               if s.callback.Full? then s.(callback := Moved, consumer := Taking) else s.(consumer := ConsumerFault)
             case _ => s.(consumer := ConsumerFault)
  }

  ghost predicate BeginGet<R(!new)>(s: State<R>, s': State<R>) {
    && s.consumer == Unused && s.blocking
    && s' == s.(consumer := Waiting)
  }

  ghost predicate Wait<R(!new)>(s: State<R>, s': State<R>) {
    && s.consumer == Waiting
    && s' == s.(consumer := if s.word == Start then Asleep else Taking)
  }

  ghost predicate SpuriousWake<R(!new)>(s: State<R>, s': State<R>) {
    && s.consumer == Asleep
    && s' == s.(consumer := Waiting)
  }

  ghost predicate Take<R(!new)>(s: State<R>, s': State<R>) {
    && s.consumer == Taking
    && s' == s.(word := Done, consumer := Fetching)
  }

  ghost predicate Fetch<R(!new)>(s: State<R>, s': State<R>) {
    && s.consumer == Fetching
    && s' == if s.result.Full? then s.(result := Moved, consumer := Calling(s.result.value))
             else s.(consumer := ConsumerFault)
  }

  /** GetResult returns the value; Subscribe hands it to the callback. */
  ghost predicate Call<R(!new)>(s: State<R>, s': State<R>) {
    && s.consumer.Calling?
    && s' == if s.executor && !s.blocking then s.(jobs := s.jobs + [s.consumer.r], consumer := Finished)
             else s.(delivered := s.delivered + [s.consumer.r], consumer := Finished)
  }

  ghost predicate RunJob<R(!new)>(s: State<R>, s': State<R>) {
    && s.jobs != []
    && s' == s.(jobs := s.jobs[1..], delivered := s.delivered + [s.jobs[0]], jobsRun := s.jobsRun + 1)
  }

  ghost predicate ProducerStep<R(!new)>(s: State<R>, s': State<R>) {
    Offer(s, s') || Notify(s, s') || Claim(s, s') || Read(s, s') || Hand(s, s')
  }

  ghost predicate ConsumerStep<R(!new)>(s: State<R>, s': State<R>) {
    || Subscribe(s, s') || Pass(s, s') || Register(s, s') || BeginGet(s, s') || Wait(s, s')
    || Take(s, s') || Fetch(s, s') || Call(s, s')
  }

  /** A step that makes progress once the result is set. */
  ghost predicate Progress<R(!new)>(s: State<R>, s': State<R>) {
    ProducerStep(s, s') || ConsumerStep(s, s') || RunJob(s, s')
  }

  ghost predicate Next<R(!new)>(s: State<R>, s': State<R>) {
    || (exists r :: SetResult(s, s', r))
    || Progress(s, s')
    || SpuriousWake(s, s')
  }

  // ----- Invariant -----

  /** Nobody has taken the result out yet. */
  ghost predicate Untaken<R(!new)>(s: State<R>) {
    && s.jobs == [] && s.delivered == []
    && s.result == (if s.promised == [] then Empty else Full(s.promised[0]))
  }

  /** The result is on its way to the consumer through exactly one place, or has arrived. */
  ghost predicate OnItsWay<R(!new)>(s: State<R>) {
    && |s.promised| == 1
    && match (s.producer, s.consumer)
       case (Reading, _) => s.result == Full(s.promised[0]) && s.callback == Full(()) && s.jobs == s.delivered == []
       case (Handing(r), _) => r == s.promised[0] && s.result == Moved && s.jobs == s.delivered == []
       case (_, Fetching) => s.result == Full(s.promised[0]) && s.jobs == s.delivered == []
       case (_, Calling(r)) => r == s.promised[0] && s.result == Moved && s.jobs == s.delivered == []
       case _ => s.result == Moved && s.jobs + s.delivered == s.promised
  }

  /** With an executor callbacks run in its jobs and nowhere else; without one, and in GetResult, there are no jobs. */
  ghost predicate RunsWhereAsked<R(!new)>(s: State<R>) {
    if s.executor && !s.blocking then s.jobsRun == |s.delivered| else s.jobsRun == 0 && s.jobs == []
  }

  ghost predicate Inv<R(!new)>(s: State<R>) {
    && |s.promised| <= 1
    && (s.producer == Unset <==> s.promised == [])
    && (s.consumer == Registering ==> s.callback == Full(()))
    && (s.blocking ==> !(s.consumer == Passing || s.consumer == Registering || s.consumer == Registered))
    && (!s.blocking ==> !(s.consumer == Waiting || s.consumer == Asleep))
    && RunsWhereAsked(s)
    && (s.blocking || s.consumer == Unused || s.consumer == Passing ==> s.callback == Empty)
    && (s.consumer == Taking || s.consumer == Fetching || s.consumer.Calling? || s.consumer == Finished ==>
          !s.callback.Full?)
    && match s.word
       case Start =>
         && Untaken(s)
         && (s.producer == Unset || s.producer == Offering)
         && (s.consumer == Unused || s.consumer == Passing || s.consumer == Registering
             || s.consumer == Waiting || s.consumer == Asleep)
       case OnlyResult =>
         && Untaken(s)
         && (s.producer == Notifying || s.producer == Set)
         && (s.consumer == Unused || s.consumer == Passing || s.consumer == Registering || s.consumer == Taking
             || s.consumer == Waiting || (s.consumer == Asleep && s.producer == Notifying))
       case OnlyCallback =>
         && Untaken(s) && s.callback == Full(())
         && (s.producer == Unset || s.producer == Offering || s.producer == Claiming)
         && s.consumer == Registered
       case Done =>
         && OnItsWay(s)
         && if s.consumer == Registered
            then s.producer == Reading || ((s.producer.Handing? || s.producer == Set) && s.callback == Moved)
            else (s.producer == Notifying || s.producer == Set)
                 && (s.consumer == Fetching || s.consumer.Calling? || s.consumer == Finished)
  }

  lemma ProducerKeeps<R(!new)>(s: State<R>, s': State<R>)
    requires Inv(s) && ProducerStep(s, s')
    ensures Inv(s')
  {}

  lemma SubscribeKeeps<R(!new)>(s: State<R>, s': State<R>)
    requires Inv(s) && (Subscribe(s, s') || Pass(s, s') || Register(s, s'))
    ensures Inv(s')
  {}

  lemma WaitKeeps<R(!new)>(s: State<R>, s': State<R>)
    requires Inv(s) && (BeginGet(s, s') || Wait(s, s') || SpuriousWake(s, s'))
    ensures Inv(s')
  {}

  lemma TakeKeeps<R(!new)>(s: State<R>, s': State<R>)
    requires Inv(s) && (Take(s, s') || Fetch(s, s') || Call(s, s'))
    ensures Inv(s')
  {}

  lemma OtherKeeps<R(!new)>(s: State<R>, s': State<R>)
    requires Inv(s) && (RunJob(s, s') || exists r :: SetResult(s, s', r))
    ensures Inv(s')
  {
    if RunJob(s, s') {
      assert s.jobs == [s.jobs[0]] + s.jobs[1..];
      assert |s.jobs| + |s.delivered| == 1;
    }
  }

  lemma StepKeeps<R(!new)>(s: State<R>, s': State<R>)
    requires Inv(s) && Next(s, s')
    ensures Inv(s')
  {
    if ProducerStep(s, s') {
      ProducerKeeps(s, s');
    } else if Subscribe(s, s') || Pass(s, s') || Register(s, s') {
      SubscribeKeeps(s, s');
    } else if BeginGet(s, s') || Wait(s, s') || SpuriousWake(s, s') {
      WaitKeeps(s, s');
    } else if Take(s, s') || Fetch(s, s') || Call(s, s') {
      TakeKeeps(s, s');
    } else {
      OtherKeeps(s, s');
    }
  }

  lemma PromiseIsKept<R(!new)>(s: State<R>, s': State<R>)
    requires Progress(s, s') || SpuriousWake(s, s')
    ensures s'.promised == s.promised && s.delivered <= s'.delivered
  {}

  // ----- What it means -----

  /** No VERIFY fails and no slot is read before it is written or after it was moved out of. */
  ghost predicate NoFault<R(!new)>(s: State<R>) {
    s.producer != ProducerFault && s.consumer != ConsumerFault
  }

  /** Nothing is left to do for either side. */
  ghost predicate Complete<R(!new)>(s: State<R>) {
    s.producer == Set && (s.consumer == Registered || s.consumer == Finished) && s.jobs == []
  }

  ghost predicate DeliveredOnce<R(!new)>(s: State<R>) {
    && s.delivered <= s.promised && |s.promised| <= 1
    && (Complete(s) ==> s.word == Done && s.delivered == s.promised != [] && !s.callback.Full?)
  }

  lemma InvMeans<R(!new)>(s: State<R>)
    requires Inv(s)
    ensures NoFault(s) && DeliveredOnce(s) && RunsWhereAsked(s)
  {}

  function ProducerRank<R>(p: Producer<R>): nat {
    match p
    case Unset => 6
    case Offering => 5
    case Claiming => 4
    case Notifying => 3
    case Reading => 3
    case Handing(_) => 2
    case _ => 0
  }

  function ConsumerRank<R>(c: Consumer<R>): nat {
    match c
    case Unused => 9
    case Passing => 8
    case Registering => 7
    case Waiting => 6
    case Asleep => 5
    case Taking => 4
    case Fetching => 3
    case Calling(_) => 2
    case _ => 0
  }

  /** Bounds the steps still possible, not counting wakeups for no reason. */
  function Remaining<R>(s: State<R>): nat {
    ProducerRank(s.producer) + ConsumerRank(s.consumer) + |s.jobs|
  }

  lemma ProgressDecreases<R(!new)>(s: State<R>, s': State<R>)
    requires Inv(s) && Progress(s, s')
    ensures Remaining(s') < Remaining(s)
  {
    if ProducerStep(s, s') {
      ProducerDecreases(s, s');
    } else if ConsumerStep(s, s') {
      ConsumerDecreases(s, s');
    }
  }

  lemma ProducerDecreases<R(!new)>(s: State<R>, s': State<R>)
    requires ProducerStep(s, s')
    ensures Remaining(s') < Remaining(s)
  {}

  lemma ConsumerDecreases<R(!new)>(s: State<R>, s': State<R>)
    requires ConsumerStep(s, s')
    ensures Remaining(s') < Remaining(s)
  {}

  lemma ProducerCanStep<R(!new)>(s: State<R>) returns (s': State<R>)
    requires Inv(s) && s.producer != Unset && s.producer != Set
    ensures ProducerStep(s, s')
  {
    match s.producer
    case Offering => s' := if s.word == Start then s.(word := OnlyResult, producer := Notifying) else s.(producer := Claiming);
    case Notifying => s' := s.(producer := Set, consumer := if s.consumer == Asleep then Waiting else s.consumer);
    case Claiming => s' := s.(word := Done, producer := Reading);
    case Reading => s' := s.(result := Moved, callback := Moved, producer := Handing(s.result.value));
    case Handing(r) =>
      s' := if s.executor then s.(jobs := s.jobs + [r], producer := Set)
            else s.(delivered := s.delivered + [r], producer := Set);
  }

  lemma ConsumerCanStep<R(!new)>(s: State<R>) returns (s': State<R>)
    requires Inv(s) && s.producer == Set && s.consumer != Registered && s.consumer != Finished
    ensures ConsumerStep(s, s')
  {
    match s.consumer
    case Unused => s' := s.(consumer := if s.blocking then Waiting else if s.word == OnlyResult then Taking else Passing);
    case Passing => s' := s.(callback := Full(()), consumer := Registering);
    case Registering => s' := s.(callback := Moved, consumer := Taking);
    case Waiting => s' := s.(consumer := Taking);
    case Taking => s' := s.(word := Done, consumer := Fetching);
    case Fetching => s' := s.(result := Moved, consumer := Calling(s.result.value));
    case Calling(r) =>
      s' := if s.executor && !s.blocking then s.(jobs := s.jobs + [r], consumer := Finished)
            else s.(delivered := s.delivered + [r], consumer := Finished);
  }

  /** Once the result is set, a rendezvous that is not complete can make progress. */
  lemma NotStuck<R(!new)>(s: State<R>) returns (s': State<R>)
    requires Inv(s) && s.producer != Unset && !Complete(s)
    ensures Progress(s, s')
  {
    if s.producer != Set {
      s' := ProducerCanStep(s);
    } else if s.jobs != [] {
      s' := s.(jobs := s.jobs[1..], delivered := s.delivered + [s.jobs[0]], jobsRun := s.jobsRun + 1);
    } else {
      s' := ConsumerCanStep(s);
    }
  }

  /** In every state of every run of one SetResult with one Subscribe or GetResult: no fault, the consumer gets the
      promised result and gets it once, in a job if and only if there is an executor to subscribe through, and the word
      ends in Done. */
  lemma RendezvousIsCorrect<R(!new)>(run: seq<State<R>>)
    requires Runs.IsRun(Init<R>, Next<R>, run)
    ensures forall i :: 0 <= i < |run| ==> NoFault(run[i]) && DeliveredOnce(run[i]) && RunsWhereAsked(run[i])
  {
    forall s: State<R>, s' | Inv(s) && Next(s, s') ensures Inv(s') { StepKeeps(s, s'); }
    Runs.Invariant(Init<R>, Next<R>, Inv<R>, run);
    forall i | 0 <= i < |run| ensures NoFault(run[i]) && DeliveredOnce(run[i]) && RunsWhereAsked(run[i]) {
      InvMeans(run[i]);
    }
  }
}
