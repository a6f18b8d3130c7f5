/** Counting the elements of a sequence that satisfy a predicate: how many threads are at some point of their code. */
module Counting {

  ghost function Count<T(!new)>(s: seq<T>, p: T -> bool): nat {
    if s == [] then 0 else (if p(s[0]) then 1 else 0) + Count(s[1..], p)
  }

  function One(b: bool): nat { if b then 1 else 0 }

  lemma {:induction false} CountUpdate<T(!new)>(s: seq<T>, p: T -> bool, i: nat, x: T)
    requires i < |s|
    ensures Count(s[i := x], p) == Count(s, p) - One(p(s[i])) + One(p(x))
  {
    if i == 0 {
      assert s[i := x][1..] == s[1..];
    } else {
      assert s[i := x][1..] == s[1..][i - 1 := x];
      CountUpdate(s[1..], p, i - 1, x);
    }
  }

  lemma {:induction false} CountAppend<T(!new)>(s: seq<T>, p: T -> bool, x: T)
    ensures Count(s + [x], p) == Count(s, p) + One(p(x))
  {
    if s == [] {
      assert s + [x] == [x];
    } else {
      assert (s + [x])[1..] == s[1..] + [x];
      CountAppend(s[1..], p, x);
    }
  }

  lemma {:induction false} CountNone<T(!new)>(s: seq<T>, p: T -> bool)
    requires forall i :: 0 <= i < |s| ==> !p(s[i])
    ensures Count(s, p) == 0
  {
    if s != [] {
      assert s[0] == s[0];
      CountNone(s[1..], p);
    }
  }

  /** A positive count has a witness. */
  lemma {:induction false} CountWitness<T(!new)>(s: seq<T>, p: T -> bool) returns (i: nat)
    requires Count(s, p) > 0
    ensures i < |s| && p(s[i])
  {
    if p(s[0]) {
      i := 0;
    } else {
      var j := CountWitness(s[1..], p);
      i := j + 1;
    }
  }

  lemma CountAtLeastOne<T(!new)>(s: seq<T>, p: T -> bool, i: nat)
    requires i < |s| && p(s[i])
    ensures Count(s, p) >= 1
  {
    CountUpdate(s, p, i, s[i]);
    if Count(s, p) == 0 {
      CountSplit(s, p, i);
    }
  }

  lemma {:induction false} CountSplit<T(!new)>(s: seq<T>, p: T -> bool, i: nat)
    requires i < |s|
    ensures Count(s, p) == Count(s[..i], p) + One(p(s[i])) + Count(s[i + 1..], p)
  {
    if i > 0 {
      CountSplit(s[1..], p, i - 1);
      assert s[1..][..i - 1] == s[..i][1..];
      assert s[1..][i..] == s[i + 1..];
    } else {
      assert s[..i] == [];
    }
  }

  lemma CountZero<T(!new)>(s: seq<T>, p: T -> bool, i: nat)
    requires Count(s, p) == 0 && i < |s|
    ensures !p(s[i])
  {
    CountSplit(s, p, i);
  }

  /** A count of at most one has at most one witness. */
  lemma CountUnique<T(!new)>(s: seq<T>, p: T -> bool, i: nat, j: nat)
    requires Count(s, p) <= 1
    requires i < |s| && p(s[i]) && j < |s| && p(s[j])
    ensures i == j
  {
    if i < j {
      CountSplit(s, p, j);
      CountAtLeastOne(s[..j], p, i);
    } else if j < i {
      CountSplit(s, p, i);
      CountAtLeastOne(s[..i], p, j);
    }
  }

  lemma {:induction false} CountBound<T(!new)>(s: seq<T>, p: T -> bool)
    ensures Count(s, p) <= |s|
  {
    if s != [] {
      CountBound(s[1..], p);
    }
  }

  /** Everything is counted exactly when everything satisfies the predicate. */
  lemma {:induction false} CountAll<T(!new)>(s: seq<T>, p: T -> bool)
    ensures Count(s, p) == |s| <==> forall i :: 0 <= i < |s| ==> p(s[i])
  {
    if s != [] {
      CountBound(s[1..], p);
      CountAll(s[1..], p);
      assert forall i :: 0 <= i < |s[1..]| ==> s[1..][i] == s[i + 1];
      assert forall i :: 0 < i < |s| ==> s[i] == s[1..][i - 1];
    }
  }

  /** A larger predicate counts at least as much. */
  lemma {:induction false} CountMono<T(!new)>(s: seq<T>, p: T -> bool, q: T -> bool)
    requires forall x :: p(x) ==> q(x)
    ensures Count(s, p) <= Count(s, q)
  {
    if s != [] {
      CountMono(s[1..], p, q);
    }
  }

  ghost function Sum<T(!new)>(s: seq<T>, f: T -> nat): nat {
    if s == [] then 0 else f(s[0]) + Sum(s[1..], f)
  }

  lemma {:induction false} SumUpdate<T(!new)>(s: seq<T>, f: T -> nat, i: nat, x: T)
    requires i < |s|
    ensures Sum(s[i := x], f) == Sum(s, f) - f(s[i]) + f(x)
  {
    if i == 0 {
      assert s[i := x][1..] == s[1..];
    } else {
      assert s[i := x][1..] == s[1..][i - 1 := x];
      SumUpdate(s[1..], f, i - 1, x);
    }
  }

  lemma {:induction false} CountSame<T(!new)>(s: seq<T>, s': seq<T>, p: T -> bool)
    requires |s'| == |s| && forall i :: 0 <= i < |s| ==> p(s'[i]) == p(s[i])
    ensures Count(s', p) == Count(s, p)
  {
    if s != [] {
      assert p(s'[0]) == p(s[0]);
      CountSame(s[1..], s'[1..], p);
    }
  }
}
