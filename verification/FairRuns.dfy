/**
 Runs of an interleaved system.  `step(s, l)` is what the system does when the scheduler picks
 label `l`; picking somebody who is blocked or spinning leaves the state as it is.
*/
module FairRuns {

  ghost function Run<S, L>(step: (S, L) -> S, s: S, schedule: seq<L>): S
    decreases |schedule|
  {
    if schedule == [] then s else Run(step, step(s, schedule[0]), schedule[1..])
  }

  lemma {:induction false} RunConcat<S, L>(step: (S, L) -> S, s: S, a: seq<L>, b: seq<L>)
    ensures Run(step, s, a + b) == Run(step, Run(step, s, a), b)
    decreases |a|
  {
    if a == [] {
      assert a + b == b;
    } else {
      assert (a + b)[1..] == a[1..] + b;
      RunConcat(step, step(s, a[0]), a[1..], b);
    }
  }

  lemma RunThen<S, L>(step: (S, L) -> S, s: S, a: seq<L>, t: S, b: seq<L>, u: S)
    requires Run(step, s, a) == t && Run(step, t, b) == u
    ensures Run(step, s, a + b) == u
  {
    RunConcat(step, s, a, b);
  }

  lemma RunInThree<S, L>(step: (S, L) -> S, s: S, a: seq<L>, t: S, b: seq<L>, u: S, c: seq<L>, v: S)
    requires Run(step, s, a) == t && Run(step, t, b) == u && Run(step, u, c) == v
    ensures Run(step, s, a + b + c) == v
  {
    RunThen(step, s, a, t, b, u);
    RunThen(step, s, a + b, u, c, v);
  }

  lemma RunOfOne<S, L>(step: (S, L) -> S, s: S, a: L)
    ensures Run(step, s, [a]) == step(s, a)
  {
    assert [a][1..] == [];
  }

  lemma RunOfTwo<S, L>(step: (S, L) -> S, s0: S, s1: S, s2: S, a: L, b: L)
    requires step(s0, a) == s1 && step(s1, b) == s2
    ensures Run(step, s0, [a, b]) == s2
  {
    assert [a, b][1..] == [b];
    RunOfOne(step, s1, b);
  }

  lemma RunOfThree<S, L>(step: (S, L) -> S, s0: S, s1: S, s2: S, s3: S, a: L, b: L, c: L)
    requires step(s0, a) == s1 && step(s1, b) == s2 && step(s2, c) == s3
    ensures Run(step, s0, [a, b, c]) == s3
  {
    assert [a, b, c][1..] == [b, c];
    RunOfTwo(step, s1, s2, s3, b, c);
  }

  lemma RunOfFour<S, L>(step: (S, L) -> S, s0: S, s1: S, s2: S, s3: S, s4: S, a: L, b: L, c: L, d: L)
    requires step(s0, a) == s1 && step(s1, b) == s2 && step(s2, c) == s3 && step(s3, d) == s4
    ensures Run(step, s0, [a, b, c, d]) == s4
  {
    assert [a, b, c, d][1..] == [b, c, d];
    RunOfThree(step, s1, s2, s3, s4, b, c, d);
  }

  /** An invariant of every step holds after every run. */
  lemma {:induction false} RunKeeps<S(!new), L(!new)>(step: (S, L) -> S, inv: S -> bool, s: S, schedule: seq<L>)
    requires inv(s)
    requires forall t: S, l: L {:trigger step(t, l)} :: inv(t) ==> inv(step(t, l))
    ensures inv(Run(step, s, schedule))
    decreases |schedule|
  {
    if schedule != [] {
      RunKeeps(step, inv, step(s, schedule[0]), schedule[1..]);
    }
  }

  /**
   What a liveness argument has to supply.  `enabled(s, a)` says that actor `a` can do real work
   in `s`: doing it lowers `measure`, and it stays enabled until `a` is scheduled.
  */
  ghost predicate Productive<S(!new), L(!new), A(!new)>(
    step: (S, L) -> S, who: L -> A, inv: S -> bool, measure: S -> nat, enabled: (S, A) -> bool)
  {
    && (forall s: S, l: L {:trigger step(s, l)} :: inv(s) ==> inv(step(s, l)) && measure(step(s, l)) <= measure(s))
    && (forall s: S, l: L {:trigger step(s, l)} :: inv(s) && enabled(s, who(l)) ==> measure(step(s, l)) < measure(s))
    && (forall s: S, l: L, a: A {:trigger step(s, l), enabled(s, a)} ::
          inv(s) && enabled(s, a) && who(l) != a ==> enabled(step(s, l), a) || measure(step(s, l)) < measure(s))
  }

  /** A measure never grows along a run. */
  lemma {:induction false} RunLowers<S(!new), L(!new), A(!new)>(
    step: (S, L) -> S, who: L -> A, inv: S -> bool, measure: S -> nat, enabled: (S, A) -> bool, s: S, schedule: seq<L>)
    requires inv(s) && Productive(step, who, inv, measure, enabled)
    ensures inv(Run(step, s, schedule)) && measure(Run(step, s, schedule)) <= measure(s)
    decreases |schedule|
  {
    if schedule != [] {
      RunLowers(step, who, inv, measure, enabled, step(s, schedule[0]), schedule[1..]);
    }
  }

  /** A run that schedules an enabled actor somewhere makes progress. */
  lemma {:induction false} RunLowersStrictly<S(!new), L(!new), A(!new)>(
    step: (S, L) -> S, who: L -> A, inv: S -> bool, measure: S -> nat, enabled: (S, A) -> bool,
    s: S, schedule: seq<L>, k: nat)
    requires inv(s) && Productive(step, who, inv, measure, enabled)
    requires k < |schedule| && enabled(s, who(schedule[k]))
    ensures measure(Run(step, s, schedule)) < measure(s)
    decreases |schedule|
  {
    var t := step(s, schedule[0]);
    RunLowers(step, who, inv, measure, enabled, t, schedule[1..]);
    if k > 0 && who(schedule[0]) != who(schedule[k]) && enabled(t, who(schedule[k])) {
      assert schedule[1..][k - 1] == schedule[k];
      RunLowersStrictly(step, who, inv, measure, enabled, t, schedule[1..], k - 1);
    }
  }

  function Flatten<L>(rounds: seq<seq<L>>): seq<L> {
    if rounds == [] then [] else rounds[0] + Flatten(rounds[1..])
  }

  // Who is meant when the labels of a schedule are the actors themselves.
  function Self<A>(a: A): A { a }

  /** `a` gets at least one turn in this stretch of the schedule. */
  ghost predicate Scheduled<L, A>(who: L -> A, round: seq<L>, a: A) {
    exists k :: 0 <= k < |round| && who(round[k]) == a
  }

  /**
   Fairness suffices: if whenever work is left some actor is enabled, then `measure(s)` rounds,
   in each of which every actor gets a turn, finish the work -- in any order, with any number
   of extra turns in between.
  */
  lemma {:induction false} FairRunFinishes<S(!new), L(!new), A(!new)>(
    step: (S, L) -> S, who: L -> A, actor: A -> bool, inv: S -> bool, measure: S -> nat,
    enabled: (S, A) -> bool, s: S, rounds: seq<seq<L>>)
    requires inv(s) && Productive(step, who, inv, measure, enabled)
    requires forall t: S {:trigger measure(t)} :: inv(t) && measure(t) > 0 ==> exists a :: actor(a) && enabled(t, a)
    requires forall n, a :: 0 <= n < |rounds| && actor(a) ==> Scheduled(who, rounds[n], a)
    requires measure(s) <= |rounds|
    ensures inv(Run(step, s, Flatten(rounds))) && measure(Run(step, s, Flatten(rounds))) == 0
    decreases |rounds|
  {
    if rounds == [] {
    } else {
      var t := Run(step, s, rounds[0]);
      RunConcat(step, s, rounds[0], Flatten(rounds[1..]));
      RunLowers(step, who, inv, measure, enabled, s, rounds[0]);
      if measure(s) > 0 {
        var a :| actor(a) && enabled(s, a);
        assert Scheduled(who, rounds[0], a);
        var k :| 0 <= k < |rounds[0]| && who(rounds[0][k]) == a;
        RunLowersStrictly(step, who, inv, measure, enabled, s, rounds[0], k);
      }
      forall n, b | 0 <= n < |rounds[1..]| && actor(b) ensures Scheduled(who, rounds[1..][n], b) {
        assert rounds[1..][n] == rounds[n + 1];
      }
      FairRunFinishes(step, who, actor, inv, measure, enabled, t, rounds[1..]);
    }
  }

  /** What a liveness argument has to supply when the labels are the actors themselves. */
  ghost predicate EachProductive<S(!new), A(!new)>(
    step: (S, A) -> S, inv: S -> bool, measure: S -> nat, enabled: (S, A) -> bool)
  {
    && (forall s: S, l: A {:trigger step(s, l)} :: inv(s) ==> inv(step(s, l)) && measure(step(s, l)) <= measure(s))
    && (forall s: S, l: A {:trigger step(s, l)} :: inv(s) && enabled(s, l) ==> measure(step(s, l)) < measure(s))
    && (forall s: S, l: A, a: A {:trigger step(s, l), enabled(s, a)} ::
          inv(s) && enabled(s, a) && l != a ==> enabled(step(s, l), a) || measure(step(s, l)) < measure(s))
  }

  lemma EachRunFinishes<S(!new), A(!new)>(
    step: (S, A) -> S, actor: A -> bool, inv: S -> bool, measure: S -> nat,
    enabled: (S, A) -> bool, s: S, rounds: seq<seq<A>>)
    requires inv(s) && EachProductive(step, inv, measure, enabled)
    requires forall t: S {:trigger measure(t)} :: inv(t) && measure(t) > 0 ==> exists a :: actor(a) && enabled(t, a)
    requires forall n, a :: 0 <= n < |rounds| && actor(a) ==> Scheduled(Self, rounds[n], a)
    requires measure(s) <= |rounds|
    ensures inv(Run(step, s, Flatten(rounds))) && measure(Run(step, s, Flatten(rounds))) == 0
  {
    FairRunFinishes(step, Self, actor, inv, measure, enabled, s, rounds);
  }

  // ---- one episode after the other

  ghost predicate AllScheduled<L>(who: L -> nat, n: nat, round: seq<L>) {
    forall p: nat :: p < n ==> Scheduled(who, round, p)
  }

  /** What every step does for the actor that makes it, and no step undoes, a fair round does for all. */
  lemma {:induction false} RoundDoes<S(!new), L(!new), A(!new)>(
    step: (S, L) -> S, who: L -> A, inv: S -> bool, has: (S, A) -> bool, s: S, round: seq<L>, a: A)
    requires inv(s)
    requires forall t: S, l: L {:trigger step(t, l)} :: inv(t) ==> inv(step(t, l)) && has(step(t, l), who(l))
    requires forall t: S, l: L, b: A {:trigger step(t, l), has(t, b)} :: inv(t) && has(t, b) ==> has(step(t, l), b)
    requires has(s, a) || Scheduled(who, round, a)
    ensures has(Run(step, s, round), a)
    decreases |round|
  {
    if round != [] {
      if !has(s, a) && who(round[0]) != a {
        var k :| 0 <= k < |round| && who(round[k]) == a;
        assert round[1..][k - 1] == round[k];
      }
      RoundDoes(step, who, inv, has, step(s, round[0]), round[1..], a);
    }
  }

  lemma {:induction false} FlattenConcat<L>(a: seq<seq<L>>, b: seq<seq<L>>)
    ensures Flatten(a + b) == Flatten(a) + Flatten(b)
    decreases |a|
  {
    if a == [] {
      assert a + b == b;
    } else {
      assert (a + b)[1..] == a[1..] + b;
      FlattenConcat(a[1..], b);
    }
  }

  /**
   What an argument about all episodes has to supply: once all have left episode `e`, `rounds` fair
   rounds make all enter and leave the next.
  */
  ghost predicate EpisodeFollows<S(!new), L(!new)>(
    step: (S, L) -> S, fair: seq<L> -> bool, inv: S -> bool, allLeft: (S, nat) -> bool, bound: nat)
  {
    forall t: S, rounds: seq<seq<L>>, e: nat {:trigger Run(step, t, Flatten(rounds)), allLeft(t, e)} ::
      inv(t) && allLeft(t, e) && AllFair(fair, rounds) && |rounds| == bound ==>
        inv(Run(step, t, Flatten(rounds))) && allLeft(Run(step, t, Flatten(rounds)), e + 1)
  }

  ghost predicate AllFair<L>(fair: seq<L> -> bool, rounds: seq<seq<L>>) {
    forall k :: 0 <= k < |rounds| ==> fair(rounds[k])
  }

  /** Then `bound` fair rounds for each make all leave any number of episodes. */
  lemma {:induction false} EpisodesFinish<S(!new), L(!new)>(
    step: (S, L) -> S, fair: seq<L> -> bool, inv: S -> bool, allLeft: (S, nat) -> bool, bound: nat,
    s: S, e: nat, rounds: seq<seq<L>>)
    requires inv(s) && allLeft(s, 0) && EpisodeFollows(step, fair, inv, allLeft, bound)
    requires AllFair(fair, rounds) && |rounds| == e * bound
    ensures inv(Run(step, s, Flatten(rounds))) && allLeft(Run(step, s, Flatten(rounds)), e)
    decreases e
  {
    if e == 0 {
      assert rounds == [];
    } else {
      OneLess(e, bound);
      var before, last := rounds[..(e - 1) * bound], rounds[(e - 1) * bound..];
      assert before + last == rounds;
      EpisodesFinish(step, fair, inv, allLeft, bound, s, e - 1, before);
      FlattenConcat(before, last);
      RunConcat(step, s, Flatten(before), Flatten(last));
    }
  }

  lemma OneLess(e: nat, bound: nat)
    requires e > 0
    ensures 0 <= (e - 1) * bound && e * bound == (e - 1) * bound + bound
  {
  }
}
