/**
 * The FirstOf combinator: every input future has one callback; callbacks run concurrently and race on one atomic
 * flag. The exchange of the flag and the use of the promise are separate steps.
 */
module FirstOf {
  import opened Counting
  import opened Results
  import Runs

  datatype Callback =
    | NotCalled
    | Exchanging   // has a value, before the exchange of the flag
    | Winner       // the exchange returned false, before using the promise
    | Returned

  /** `winners` and `given` are history: the inputs that won the exchange, and the values the promise was set to. */
  datatype State = State(
    inputs: seq<Result<nat, nat>>, callbacks: seq<Callback>, released: bool, winners: seq<nat>, given: seq<nat>)

  ghost predicate Init(s: State) {
    && |s.callbacks| == |s.inputs| && !s.released && s.winners == [] && s.given == []
    && forall i :: 0 <= i < |s.callbacks| ==> s.callbacks[i] == NotCalled
  }

  ghost predicate Call(s: State, s': State, i: nat) {
    && i < |s.callbacks| == |s.inputs| && s.callbacks[i].NotCalled?
    && s' == s.(callbacks := s.callbacks[i := if s.inputs[i].Err? then Returned else Exchanging])
  }

  ghost predicate Exchange(s: State, s': State, i: nat) {
    && i < |s.callbacks| && s.callbacks[i].Exchanging?
    && s' == if s.released then s.(callbacks := s.callbacks[i := Returned])
             else s.(released := true, winners := s.winners + [i], callbacks := s.callbacks[i := Winner])
  }

  ghost predicate SetValue(s: State, s': State, i: nat) {
    && i < |s.callbacks| == |s.inputs| && s.callbacks[i].Winner? && s.inputs[i].Ok?
    && s' == s.(given := s.given + [s.inputs[i].value], callbacks := s.callbacks[i := Returned])
  }

  ghost predicate Next(s: State, s': State) {
    exists i: nat :: Call(s, s', i) || Exchange(s, s', i) || SetValue(s, s', i)
  }

  ghost predicate Inv(s: State) {
    && |s.callbacks| == |s.inputs|
    && |s.winners| == One(s.released)
    && (forall i :: 0 <= i < |s.callbacks| && s.callbacks[i].Winner? ==> s.winners == [i] && s.given == [])
    && (forall i :: 0 <= i < |s.callbacks| && (s.callbacks[i].Winner? || s.callbacks[i].Exchanging?) ==> s.inputs[i].Ok?)
    && (s.released ==>
          var w := s.winners[0];
          && w < |s.inputs| && s.inputs[w].Ok?
          && (s.callbacks[w] == Winner || (s.callbacks[w] == Returned && s.given == [s.inputs[w].value])))
    && (!s.released ==> s.given == [])
    && (!s.released ==> forall i :: 0 <= i < |s.callbacks| && s.callbacks[i].Returned? ==> s.inputs[i].Err?)
  }

  lemma StepKeeps(s: State, s': State)
    requires Inv(s) && Next(s, s')
    ensures Inv(s')
  {}

  /** The promise is set at most once, to the value of the one input that won the exchange. */
  ghost predicate FirstWins(s: State) {
    && |s.winners| <= 1 && |s.given| <= |s.winners|
    && (forall i :: 0 <= i < |s.callbacks| && s.callbacks[i].Winner? ==> i < |s.inputs| && s.inputs[i].Ok?)
    && (s.given != [] ==> s.winners[0] < |s.inputs| && s.inputs[s.winners[0]] == Ok(s.given[0]))
  }

  /** After all callbacks: the promise is set if and only if some input succeeded. */
  ghost predicate SetIffSuccess(s: State) {
    (forall i :: 0 <= i < |s.callbacks| ==> s.callbacks[i].Returned?) ==>
      (s.given != [] <==> exists i :: 0 <= i < |s.inputs| && s.inputs[i].Ok?)
  }

  /** In every state of every run, for every mix of inputs. The documented "last error" never arrives: inputs that all
      fail leave the promise unset. */
  lemma FirstOfIsCorrect(run: seq<State>)
    requires Runs.IsRun(Init, Next, run)
    ensures forall k :: 0 <= k < |run| ==>
      && FirstWins(run[k]) && SetIffSuccess(run[k])
      && ((forall i :: 0 <= i < |run[k].inputs| ==> run[k].inputs[i].Err?) ==> run[k].given == [])
  {
    forall s, s' | Inv(s) && Next(s, s') ensures Inv(s') { StepKeeps(s, s'); }
    Runs.Invariant(Init, Next, Inv, run);
  }

  /** One failing input: its callback returns and the combined future is never given anything. */
  lemma ErrorIsForgotten(e: nat) returns (end: State)
    ensures Runs.Reachable(Init, Next, end)
    ensures end == State([Err(e)], [Returned], false, [], [])
    ensures forall s' :: !Next(end, s')
  {
    var s0 := State([Err(e)], [NotCalled], false, [], []);
    var s1 := State([Err(e)], [Returned], false, [], []);
    assert Call(s0, s1, 0);
    end := Runs.Start(Init, Next, s0);
    end := Runs.Follow(Init, Next, end, s1);
  }
}
