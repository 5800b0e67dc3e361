/** Sums over sequences, used for the progress measures. */
module Sums {

  /** The sum of `f` over a sequence. */
  function Total<T>(ts: seq<T>, f: T -> nat): nat {
    if ts == [] then 0 else f(ts[0]) + Total(ts[1..], f)
  }

  lemma {:induction false} TotalUpdate<T>(ts: seq<T>, i: nat, t: T, f: T -> nat)
    requires i < |ts|
    ensures Total(ts[i := t], f) + f(ts[i]) == Total(ts, f) + f(t)
    ensures Total(ts, f) >= f(ts[i])
    decreases |ts|
  {
    if i == 0 {
      assert ts[i := t][1..] == ts[1..];
    } else {
      assert ts[i := t][1..] == ts[1..][i - 1 := t];
      TotalUpdate(ts[1..], i - 1, t, f);
    }
  }

  lemma {:induction false} TotalZero<T>(ts: seq<T>, f: T -> nat)
    ensures Total(ts, f) == 0 <==> forall i :: 0 <= i < |ts| ==> f(ts[i]) == 0
    decreases |ts|
  {
    if ts != [] {
      TotalZero(ts[1..], f);
      assert forall i :: 1 <= i < |ts| ==> ts[i] == ts[1..][i - 1];
    }
  }

  lemma {:induction false} TotalAtMost<T>(ts: seq<T>, f: T -> nat, c: nat)
    requires forall i :: 0 <= i < |ts| ==> f(ts[i]) <= c
    ensures Total(ts, f) <= |ts| * c
    decreases |ts|
  {
    if ts != [] {
      TotalAtMost(ts[1..], f, c);
      assert |ts| * c == (|ts| - 1) * c + c;
    }
  }

  /** The last element for which `done` does not hold is just before `p`, if there is one. */
  lemma FindLast<T>(ts: seq<T>, done: T -> bool) returns (p: nat)
    ensures p <= |ts|
    ensures forall j :: p <= j < |ts| ==> done(ts[j])
    ensures p > 0 ==> !done(ts[p - 1])
  {
    p := |ts|;
    while p > 0 && done(ts[p - 1])
      invariant p <= |ts|
      invariant forall j :: p <= j < |ts| ==> done(ts[j])
    {
      p := p - 1;
    }
  }

  /** The first element for which `done` does not hold. */
  lemma FindFirst<T>(ts: seq<T>, done: T -> bool) returns (p: nat)
    requires exists i :: 0 <= i < |ts| && !done(ts[i])
    ensures p < |ts| && !done(ts[p])
    ensures forall j :: 0 <= j < p ==> done(ts[j])
  {
    p := 0;
    while done(ts[p])
      invariant p < |ts| && forall j :: 0 <= j < p ==> done(ts[j])
      decreases |ts| - p
    {
      p := p + 1;
    }
  }
}
