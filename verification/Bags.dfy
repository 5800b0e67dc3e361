/** What the elements of a sequence own together. */
module Bags {
  import opened Sequences

  ghost function Gather<S, T>(xs: seq<S>, own: S -> multiset<T>): multiset<T> {
    if xs == [] then multiset{} else own(xs[0]) + Gather(xs[1..], own)
  }

  lemma Exchange<T>(h: multiset<T>, r: multiset<T>, r': multiset<T>, o: multiset<T>, t: multiset<T>)
    ensures r' + o == r + t ==> (h + r') + o == (h + r) + t
    ensures (t + r) + o == (o + r) + t
  {
    assert (h + r') + o == h + (r' + o);
    assert (h + r) + t == h + (r + t);
  }

  lemma {:induction false} GatherUpdate<S, T>(xs: seq<S>, i: nat, x: S, own: S -> multiset<T>)
    requires i < |xs|
    ensures Gather(xs[i := x], own) + own(xs[i]) == Gather(xs, own) + own(x)
    decreases |xs|
  {
    if i == 0 {
      assert xs[i := x][1..] == xs[1..];
      Exchange(own(xs[0]), Gather(xs[1..], own), Gather(xs[1..], own), own(xs[0]), own(x));
    } else {
      assert xs[i := x][1..] == xs[1..][i - 1 := x];
      GatherUpdate(xs[1..], i - 1, x, own);
      Exchange(own(xs[0]), Gather(xs[1..], own), Gather(xs[1..][i - 1 := x], own), own(xs[i]), own(x));
    }
  }

  lemma Cancel<T>(a: multiset<T>, b: multiset<T>, o: multiset<T>, d: multiset<T>)
    requires a + o == b + (o + d)
    ensures a == b + d
  {
    assert a == (a + o) - o;
    assert b + d == (b + (o + d)) - o;
  }

  /** One element owns `d` more. */
  lemma GatherMore<S, T>(xs: seq<S>, i: nat, x: S, own: S -> multiset<T>, d: multiset<T>)
    requires i < |xs| && own(x) == own(xs[i]) + d
    ensures Gather(xs[i := x], own) == Gather(xs, own) + d
  {
    GatherUpdate(xs, i, x, own);
    Cancel(Gather(xs[i := x], own), Gather(xs, own), own(xs[i]), d);
  }

  lemma GatherSame<S, T>(xs: seq<S>, i: nat, x: S, own: S -> multiset<T>)
    requires i < |xs| && own(x) == own(xs[i])
    ensures Gather(xs[i := x], own) == Gather(xs, own)
  {
    GatherMore(xs, i, x, own, multiset{});
  }

  /** One element gives up what it owns. */
  lemma GatherLess<S, T>(xs: seq<S>, i: nat, x: S, own: S -> multiset<T>)
    requires i < |xs| && own(x) == multiset{}
    ensures Gather(xs[i := x], own) + own(xs[i]) == Gather(xs, own)
  {
    GatherUpdate(xs, i, x, own);
  }

  lemma {:induction false} GatherNone<S, T>(xs: seq<S>, own: S -> multiset<T>)
    requires forall i :: 0 <= i < |xs| ==> own(xs[i]) == multiset{}
    ensures Gather(xs, own) == multiset{}
    decreases |xs|
  {
    if xs != [] { GatherNone(xs[1..], own); }
  }

  lemma MultisetSnoc<T>(s: seq<T>, x: T)
    ensures multiset(s + [x]) == multiset(s) + multiset{x}
  {
  }

  lemma MultisetConcat<T>(a: seq<T>, b: seq<T>)
    ensures multiset(a + b) == multiset(a) + multiset(b)
  {
  }
}
