/**
 * The All combinator: every input future is given one callback; the callbacks serialise on a mutex, so what
 * matters is the order in which results arrive. One call of OnResult is one callback.
 */
module AllCombinator {
  import opened Results

  type Error = nat

  /** What the combined future has been given. */
  datatype Outcome<T> = Pending | Fulfilled(values: seq<T>) | Failed(error: Error)

  /** The position of the first error, or the length if there is none. */
  function FirstError<T>(rs: seq<Result<T, Error>>): (k: nat)
    ensures k <= |rs|
    ensures forall i :: 0 <= i < k ==> rs[i].Ok?
    ensures k < |rs| ==> rs[k].Err?
  {
    if rs == [] || rs[0].Err? then 0 else 1 + FirstError(rs[1..])
  }

  ghost function Values<T>(rs: seq<Result<T, Error>>): seq<T>
    requires forall i :: 0 <= i < |rs| ==> rs[i].Ok?
  {
    seq(|rs|, i requires 0 <= i < |rs| => rs[i].value)
  }

  /** All values in arrival order, or the first error to arrive. */
  ghost function Expected<T>(n: nat, arrived: seq<Result<T, Error>>): Outcome<T> {
    var k := FirstError(arrived);
    if k < |arrived| then Failed(arrived[k].error)
    else if |arrived| == n then Fulfilled(Values(arrived))
    else Pending
  }

  lemma {:induction false} FirstErrorAppend<T>(rs: seq<Result<T, Error>>, r: Result<T, Error>)
    ensures FirstError(rs + [r]) ==
      if FirstError(rs) < |rs| then FirstError(rs) else if r.Err? then |rs| else |rs| + 1
  {
    if rs == [] {
      assert rs + [r] == [r];
    } else if rs[0].Ok? {
      assert (rs + [r])[1..] == rs[1..] + [r];
      FirstErrorAppend(rs[1..], r);
    }
  }

  class Combinator<T(0)> {
    const n: nat
    var error: bool
    var results: array<T>
    var counter: nat
    /** The promise: unset, or used once. */
    var outcome: Outcome<T>
    /** The promise was used a second time, which ends the program in a failed VERIFY. */
    var aborted: bool
    ghost var arrived: seq<Result<T, Error>>

    /** Every field is determined by the results that have arrived. */
    ghost predicate Valid()
      reads this, results
    {
      var k := FirstError(arrived);
      && n > 0 && results.Length == n && |arrived| <= n
      && error == (k < |arrived|)
      && counter == (if k < |arrived| then k + 1 else |arrived|)
      && (forall i :: 0 <= i < k ==> results[i] == arrived[i].value)
      && outcome == Expected(n, arrived)
      && aborted == (k < |arrived| && k == n - 1)
    }

    constructor (n: nat)
      requires n > 0
      ensures Valid() && fresh(results) && this.n == n && arrived == []
    {
      this.n := n;
      error := false;
      results := new T[n];
      counter := 0;
      outcome := Pending;
      aborted := false;
      arrived := [];
    }

    /** Sets the promise, or fails the VERIFY in ReleaseState if it was set before. */
    method UsePromise(o: Outcome<T>)
      requires !o.Pending?
      modifies this`outcome, this`aborted
      ensures if old(outcome).Pending? then outcome == o && aborted == old(aborted) else outcome == old(outcome) && aborted
    {
      if outcome.Pending? {
        outcome := o;
      } else {
        aborted := true;
      }
    }

    /** The callback of one input. */
    method OnResult(r: Result<T, Error>)
      requires Valid() && !aborted && |arrived| < n
      modifies this, results
      ensures Valid() && arrived == old(arrived) + [r] && results == old(results)
    {
      FirstErrorAppend(arrived, r);
      ghost var was := arrived;
      arrived := arrived + [r];
      if error {
        return;
      }
      if r.Err? {
        error := true;
        UsePromise(Failed(r.error));
      } else {
        results[counter] := r.value;
      }
      counter := counter + 1;
      if counter == n {
        assert r.Ok? ==> results[..] == Values(arrived);
        UsePromise(Fulfilled(results[..]));
      }
    }

    /** All callbacks, in the order of arrival, unless the program ends first. */
    method OnResults(arrivals: seq<Result<T, Error>>)
      requires Valid() && arrived == [] && |arrivals| == n
      modifies this, results
      ensures Valid()
      ensures aborted ==> arrived <= arrivals
      ensures !aborted ==> arrived == arrivals
    {
      for i := 0 to n
        invariant Valid() && arrived == arrivals[..i] && results == old(results) && !aborted
      {
        OnResult(arrivals[i]);
        assert arrivals[..i + 1] == arrivals[..i] + [arrivals[i]];
        if aborted {
          return;
        }
      }
    }
  }

  /** The combined future of n inputs, for any order of arrival. */
  method Combine<T(0)>(arrivals: seq<Result<T, Error>>) returns (outcome: Outcome<T>, aborted: bool)
    ensures (forall i :: 0 <= i < |arrivals| ==> arrivals[i].Ok?) ==>
      && outcome.Fulfilled? && |outcome.values| == |arrivals| && !aborted
      && forall i :: 0 <= i < |arrivals| ==> outcome.values[i] == arrivals[i].value
    ensures forall k :: 0 <= k < |arrivals| && arrivals[k].Err? && (forall i :: 0 <= i < k ==> arrivals[i].Ok?) ==>
      outcome == Failed(arrivals[k].error) && (aborted <==> k == |arrivals| - 1)
    ensures outcome == Expected(|arrivals|, arrivals)
    ensures aborted <==> |arrivals| > 0 && FirstError(arrivals) == |arrivals| - 1
  {
    if |arrivals| == 0 {
      return Fulfilled([]), false;
    }
    var c := new Combinator<T>(|arrivals|);
    c.OnResults(arrivals);
    ghost var k := FirstError(c.arrived);
    if c.aborted {
      SamePrefix(c.arrived, arrivals);
    }
    return c.outcome, c.aborted;
  }

  lemma {:induction false} SamePrefix<T>(a: seq<Result<T, Error>>, b: seq<Result<T, Error>>)
    requires a <= b && FirstError(a) < |a|
    ensures FirstError(b) == FirstError(a)
  {
    if a[0].Ok? {
      SamePrefix(a[1..], b[1..]);
    }
  }

  /** Whatever the order of arrival: with no error among the inputs, all values and nothing else. */
  lemma AllValues<T>(inputs: seq<Result<T, Error>>, arrivals: seq<Result<T, Error>>)
    requires multiset(arrivals) == multiset(inputs)
    requires forall i :: 0 <= i < |inputs| ==> inputs[i].Ok?
    ensures |arrivals| == |inputs| && (forall i :: 0 <= i < |arrivals| ==> arrivals[i].Ok?)
    ensures Expected(|inputs|, arrivals) == Fulfilled(Values(arrivals))
    ensures multiset(Values(arrivals)) == multiset(Values(inputs))
  {
    assert |multiset(arrivals)| == |multiset(inputs)|;
    forall i | 0 <= i < |arrivals| ensures arrivals[i].Ok? {
      assert arrivals[i] in multiset(arrivals);
      assert arrivals[i] in inputs;
    }
    ValuesPermute(arrivals, inputs);
  }

  ghost function Without<X>(s: seq<X>, j: nat): seq<X>
    requires j < |s|
  {
    s[..j] + s[j + 1..]
  }

  lemma MultisetWithout<X>(s: seq<X>, j: nat)
    requires j < |s|
    ensures multiset(s) == multiset(Without(s, j)) + multiset{s[j]}
  {
    assert s == s[..j] + ([s[j]] + s[j + 1..]);
  }

  lemma SameWithout<X>(s: seq<X>, i: nat, t: seq<X>, j: nat)
    requires i < |s| && j < |t| && s[i] == t[j]
    ensures multiset(s) == multiset(t) <==> multiset(Without(s, i)) == multiset(Without(t, j))
  {
    MultisetWithout(s, i);
    MultisetWithout(t, j);
    var x := multiset{s[i]};
    assert multiset(Without(s, i)) == multiset(s) - x && multiset(Without(t, j)) == multiset(t) - x;
  }

  lemma ValuesWithout<T>(rs: seq<Result<T, Error>>, j: nat)
    requires j < |rs| && forall i :: 0 <= i < |rs| ==> rs[i].Ok?
    ensures Values(Without(rs, j)) == Without(Values(rs), j)
  {}

  lemma {:induction false} ValuesPermute<T>(a: seq<Result<T, Error>>, b: seq<Result<T, Error>>)
    requires multiset(a) == multiset(b)
    requires (forall i :: 0 <= i < |a| ==> a[i].Ok?) && (forall i :: 0 <= i < |b| ==> b[i].Ok?)
    ensures multiset(Values(a)) == multiset(Values(b))
    decreases |a|
  {
    if a == [] {
      assert |multiset(a)| == |multiset(b)|;
    } else {
      assert a[0] in multiset(b);
      var j :| 0 <= j < |b| && b[j] == a[0];
      SameWithout(a, 0, b, j);
      ValuesPermute(Without(a, 0), Without(b, j));
      ValuesWithout(a, 0);
      ValuesWithout(b, j);
      SameWithout(Values(a), 0, Values(b), j);
    }
  }

  /** Whatever the order of arrival: with an error among the inputs, one of those errors. */
  lemma AnyError<T>(inputs: seq<Result<T, Error>>, arrivals: seq<Result<T, Error>>, i: nat)
    requires multiset(arrivals) == multiset(inputs) && i < |inputs| && inputs[i].Err?
    ensures Expected(|inputs|, arrivals).Failed? && Err(Expected(|inputs|, arrivals).error) in inputs
  {
    assert inputs[i] in multiset(arrivals);
    var j :| 0 <= j < |arrivals| && arrivals[j] == inputs[i];
    var k := FirstError(arrivals);
    assert arrivals[k] in multiset(inputs);
  }

  /** A single failed input: the error is delivered and then the promise is used again. */
  method SingleFailure(e: Error) returns (outcome: Outcome<nat>, aborted: bool)
    ensures outcome == Failed(e) && aborted
  {
    outcome, aborted := Combine<nat>([Err(e)]);
  }
}
