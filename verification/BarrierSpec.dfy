/**
 The abstract object that all five barriers of project2 implement: an N-party barrier that
 can be used for any number of episodes.  A participant's whole history is two counters.
*/
module BarrierSpec {

  /** How many episodes a participant has entered and how many it has left. */
  datatype Participant = Participant(entered: nat, left: nat)

  // Participants are named by whatever identifies them: a rank, or a process and a thread.
  type Abstract<A(==)> = map<A, Participant>

  ghost predicate Init<A>(a: Abstract<A>) {
    forall i :: i in a ==> a[i] == Participant(0, 0)
  }

  /** Participant `i` calls the barrier. */
  ghost predicate Enter<A>(a: Abstract<A>, a': Abstract<A>, i: A) {
    && i in a
    && a[i].entered == a[i].left
    && a' == a[i := a[i].(entered := a[i].entered + 1)]
  }

  /** Participant `i` returns; everybody must have entered the episode that it finishes. */
  ghost predicate Leave<A>(a: Abstract<A>, a': Abstract<A>, i: A) {
    && i in a
    && a[i].left < a[i].entered
    && (forall j :: j in a ==> a[i].left < a[j].entered)
    && a' == a[i := a[i].(left := a[i].left + 1)]
  }

  ghost predicate Next<A>(a: Abstract<A>, a': Abstract<A>, i: A) {
    a' == a || Enter(a, a', i) || Leave(a, a', i)
  }

  lemma MapUpdate<K, V>(m: map<K, V>, m': map<K, V>, k: K, v: V)
    requires k in m' && m'[k] == v
    requires forall x :: x in m' <==> x in m
    requires forall x :: x in m && x != k ==> m'[x] == m[x]
    ensures m' == m[k := v]
  {
  }

  /** A participant whose counters move in one of the three permitted ways makes a step of the specification. */
  lemma NextByCounters<A>(a: Abstract<A>, i: A, p: Participant)
    requires i in a
    requires
      || p == a[i]
      || (a[i].entered == a[i].left && p == Participant(a[i].entered + 1, a[i].left))
      || (a[i].left < a[i].entered && p == Participant(a[i].entered, a[i].left + 1))
    requires p.left > a[i].left ==> forall j :: j in a ==> a[i].left < a[j].entered
    ensures Next(a, a[i := p], i)
  {
    assert p == a[i] ==> a[i := p] == a;
  }

  /** Whoever has left an episode knows that everybody has entered it. */
  ghost predicate Safe<A>(a: Abstract<A>) {
    forall i, j :: i in a && j in a ==> a[i].left <= a[j].entered
  }

  /** The specification itself is safe in every reachable state. */
  lemma NextSafe<A>(a: Abstract<A>, a': Abstract<A>, i: A)
    requires Safe(a) && Next(a, a', i)
    ensures Safe(a') && a'.Keys == a.Keys
  {
  }

  /** A behaviour of the specification: from an initial state on, participant `movers[k]` makes step `k`. */
  ghost predicate Behaviour<A>(trace: seq<Abstract<A>>, movers: seq<A>) {
    && |trace| == |movers| + 1 && Init(trace[0])
    && forall k :: 0 <= k < |movers| ==> Next(trace[k], trace[k + 1], movers[k])
  }

  /** In a behaviour everybody who has left an episode knows that all have entered it, at every point. */
  lemma {:induction false} BehaviourSafe<A>(trace: seq<Abstract<A>>, movers: seq<A>, k: nat)
    requires Behaviour(trace, movers) && k <= |movers|
    ensures Safe(trace[k]) && trace[k].Keys == trace[0].Keys
  {
    if k > 0 {
      BehaviourSafe(trace, movers, k - 1);
      NextSafe(trace[k - 1], trace[k], movers[k - 1]);
    }
  }
}
