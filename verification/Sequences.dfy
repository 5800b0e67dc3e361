/** Facts about sequences that the solver does not find by itself. */
module Sequences {
  /** The numbers below `n`. */
  function Below(n: nat): (r: set<nat>)
    ensures forall i: nat :: i in r <==> i < n
    ensures |r| == n
  {
    if n == 0 then {} else Below(n - 1) + {n - 1}
  }

  /** Concatenation of a list of sequences. */
  function Concat<T>(parts: seq<seq<T>>): seq<T> {
    if parts == [] then [] else parts[0] + Concat(parts[1..])
  }

  ghost predicate Distinct<T>(s: seq<T>) {
    forall i, k :: 0 <= i < k < |s| ==> s[i] != s[k]
  }

  /** The first `n` elements all differ. */
  ghost predicate FirstDistinct<T>(s: seq<T>, n: nat) {
    n <= |s| && forall i, k :: 0 <= i < k < n ==> s[i] != s[k]
  }

  lemma Assoc<T>(a: seq<T>, b: seq<T>, c: seq<T>)
    ensures (a + b) + c == a + (b + c)
  {
  }

  lemma Snoc<T>(s: seq<T>)
    requires s != []
    ensures s == s[..|s| - 1] + [s[|s| - 1]]
  {
  }

  lemma TakeMore<T>(before: seq<T>, s: seq<T>, k: nat)
    requires k < |s|
    ensures before + s[..k + 1] == (before + s[..k]) + [s[k]]
    ensures before + s == (before + s[..k + 1]) + s[k + 1..]
  {
  }

  lemma SliceSplit<T>(t: seq<T>, from: nat, to: nat)
    requires from <= to <= |t|
    ensures t[..from] + t[from..to] == t[..to]
  {
  }

  lemma SliceSlice<T>(t: seq<T>, from: nat, d: nat)
    requires from + d <= |t|
    ensures t[from..][d..] == t[from + d..]
  {
  }

  lemma InCons<T>(x: T, xs: seq<T>)
    ensures forall y :: y in [x] + xs <==> y == x || y in xs
  {
  }

  lemma NotInPrefix<T>(t: seq<T>, k: nat, c: T)
    requires k <= |t| && forall i :: 0 <= i < k ==> t[i] != c
    ensures c !in t[..k]
  {
  }

  lemma {:induction false} ConcatAppend<T>(a: seq<seq<T>>, b: seq<seq<T>>)
    ensures Concat(a + b) == Concat(a) + Concat(b)
    decreases |a|
  {
    if a == [] {
      assert a + b == b;
    } else {
      assert (a + b)[1..] == a[1..] + b;
      ConcatAppend(a[1..], b);
    }
  }

  lemma ConcatOne<T>(a: seq<seq<T>>, x: seq<T>)
    ensures Concat(a + [x]) == Concat(a) + x
  {
    ConcatAppend(a, [x]);
    assert Concat([x]) == x;
  }

  lemma LastOut<T>(a: seq<T>)
    requires a != []
    ensures a[|a| - 1] in multiset(a) && multiset(a[..|a| - 1]) == multiset(a) - multiset{a[|a| - 1]}
  {
    Snoc(a);
  }

  lemma Split<T>(b: seq<T>, x: T) returns (l: seq<T>, r: seq<T>)
    requires x in multiset(b)
    ensures b == l + [x] + r && multiset(l + r) == multiset(b) - multiset{x}
  {
    var j :| 0 <= j < |b| && b[j] == x;
    l, r := b[..j], b[j + 1..];
    assert b == l + [x] + r;
  }

  lemma MultisetEmpty<T>(s: seq<T>)
    ensures multiset(s) == multiset{} <==> s == []
  {
    if s != [] { assert s[0] in multiset(s); }
  }

  lemma ConcatInit<T>(a: seq<T>, b: seq<T>)
    requires b != []
    ensures (a + b)[..|a + b| - 1] == a + b[..|b| - 1] && (a + b)[|a + b| - 1] == b[|b| - 1]
  {
  }

  lemma SliceInit<T>(s: seq<T>, n: nat)
    requires 0 < n <= |s|
    ensures s[..n][..n - 1] == s[..n - 1] && s[..n][n - 1] == s[n - 1]
  {
  }

  lemma EmptyRight<T>(s: seq<T>) ensures s + [] == s {}

  lemma Empty<T>(s: seq<T>) ensures [] + s == s {}

  lemma TakeAll<T>(s: seq<T>)
    ensures s[..|s|] == s
  {
  }

  lemma SeenTwice<T>(s: seq<T>, i: nat, k: nat)
    requires i < k < |s| && s[i] == s[k]
    ensures multiset(s)[s[i]] >= 2
  {
    assert s == s[..k] + s[k..];
    assert s[i] in s[..k] && s[k] in s[k..];
  }

  lemma {:induction false} SeenOnce<T>(s: seq<T>, x: T)
    requires forall i, k :: 0 <= i < k < |s| ==> s[i] != s[k]
    ensures multiset(s)[x] <= 1
    decreases |s|
  {
    if s != [] {
      var s', last := s[..|s| - 1], s[|s| - 1];
      Snoc(s);
      SeenOnce(s', x);
      assert last !in s';
      assert last !in multiset(s');
    }
  }
}
