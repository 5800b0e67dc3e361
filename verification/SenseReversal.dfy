/**
 The centralized sense-reversing barrier (project2/omp/gtmp1.c): a shared counter and a shared
 sense flag.  Every access to `count` or `sense` is one atomic step of one thread.
*/
module SenseReversal {
  import opened Sequences
  import opened FairRuns
  import opened Refinement
  import opened Sums
  import Spec = BarrierSpec

  // Where a thread is in gtmp_barrier: about to do the named action.
  datatype Pc = Outside | Decrement | ResetCount | FlipSense | Spin

  // `entered` and `left` are history: the program never reads them.
  datatype Thread = Thread(pc: Pc, mySense: bool, entered: nat, left: nat)

  // `flips` is history as well: how often the sense has been reversed.
  datatype State = State(count: int, sense: bool, threads: seq<Thread>, flips: nat)

  function Start(n: nat): State {
    State(n, false, seq(n, _ => Thread(Outside, false, 0, 0)), 0)
  }

  /** The next atomic action of thread `i`; a spinning thread may find nothing to do. */
  function Step(s: State, i: nat): State {
    if i >= |s.threads| then s else
    var t := s.threads[i];
    match t.pc
    case Outside => Put(s, i, t.(pc := Decrement, mySense := !s.sense, entered := t.entered + 1))
    case Decrement =>
      Put(s.(count := s.count - 1), i, t.(pc := if s.count == 1 then ResetCount else Spin))
    case ResetCount => Put(s.(count := |s.threads|), i, t.(pc := FlipSense))
    case FlipSense => Put(s.(sense := t.mySense, flips := s.flips + 1), i, t.(pc := Outside, left := t.left + 1))
    case Spin => if s.sense == t.mySense then Put(s, i, t.(pc := Outside, left := t.left + 1)) else s
  }

  function Put(s: State, i: nat, t: Thread): State
    requires i < |s.threads|
  {
    s.(threads := s.threads[i := t])
  }

  // ---- what every reachable state satisfies

  predicate Odd(n: nat) { n % 2 == 1 }

  predicate InLast(t: Thread) { t.pc == ResetCount || t.pc == FlipSense }

  /** The thread has made its decrement for the episode that ends with the next flip. */
  predicate Arrived(t: Thread, flips: nat) {
    InLast(t) || (t.pc == Spin && t.left == flips)
  }

  predicate ThreadOk(t: Thread, flips: nat) {
    match t.pc
    case Outside => t.entered == t.left == flips
    case Spin => t.entered == t.left + 1 && t.left <= flips <= t.left + 1 && t.mySense == Odd(t.left + 1)
    case _ => t.left == flips && t.entered == flips + 1 && t.mySense == Odd(flips + 1)
  }

  function Pending(s: State): set<nat> {
    set i: nat | i < |s.threads| && !Arrived(s.threads[i], s.flips)
  }

  /** At most one thread is the last arrival, and then everybody else has arrived and waits. */
  ghost predicate OneLast(s: State) {
    forall i, j :: 0 <= i < |s.threads| && 0 <= j < |s.threads| && i != j && InLast(s.threads[i]) ==>
      s.threads[j].pc == Spin && s.threads[j].left == s.flips
  }

  ghost predicate CountOk(s: State) {
    if exists i :: 0 <= i < |s.threads| && s.threads[i].pc == FlipSense then s.count == |s.threads|
    else s.count == |Pending(s)| && (s.count > 0 || exists i :: 0 <= i < |s.threads| && InLast(s.threads[i]))
  }

  ghost predicate Inv(s: State) {
    && |s.threads| > 0
    && s.sense == Odd(s.flips)
    && (forall i :: 0 <= i < |s.threads| ==> ThreadOk(s.threads[i], s.flips))
    && OneLast(s)
    && CountOk(s)
  }

  lemma StartInv(n: nat)
    requires n > 0
    ensures Inv(Start(n))
    ensures Spec.Init(Abs(Start(n)))
  {
    assert Pending(Start(n)) == Below(n);
  }

  lemma Others(s: State, i: nat)
    ensures |Step(s, i).threads| == |s.threads|
    ensures forall j :: 0 <= j < |s.threads| && j != i ==> Step(s, i).threads[j] == s.threads[j]
    ensures forall j :: 0 <= j < |s.threads| ==> Step(s, i).threads[j].entered >= s.threads[j].entered
  {
  }

  /** The counter protocol: only the decrement that fetches 1 finds everybody arrived. */
  lemma DecrementPending(s: State, i: nat)
    requires Inv(s) && i < |s.threads| && s.threads[i].pc == Decrement
    ensures i in Pending(s) && Pending(Step(s, i)) == Pending(s) - {i}
    ensures |Pending(Step(s, i))| == |Pending(s)| - 1
  {
    Others(s, i);
    assert i in Pending(s);
    assert Pending(Step(s, i)) == Pending(s) - {i};
  }

  lemma LastOfAll(s: State, i: nat)
    requires Inv(s) && i < |s.threads| && s.threads[i].pc == Decrement && s.count == 1
    ensures Pending(s) == {i}
    ensures forall j :: 0 <= j < |s.threads| && j != i ==> s.threads[j].pc == Spin && s.threads[j].left == s.flips
  {
    DecrementPending(s, i);
    assert |Pending(s) - {i}| == 0;
    assert Pending(s) == {i};
    forall j | 0 <= j < |s.threads| && j != i ensures s.threads[j].pc == Spin && s.threads[j].left == s.flips {
      assert j !in Pending(s);
    }
  }

  lemma DecrementInv(s: State, i: nat)
    requires Inv(s) && i < |s.threads| && s.threads[i].pc == Decrement
    ensures Inv(Step(s, i))
    ensures s.count == 1 ==> Pending(s) == {i}
  {
    Others(s, i);
    DecrementPending(s, i);
    if s.count == 1 { LastOfAll(s, i); }
    assert Step(s, i).threads[i].pc != FlipSense;
  }

  lemma ResetInv(s: State, i: nat)
    requires Inv(s) && i < |s.threads| && s.threads[i].pc == ResetCount
    ensures Inv(Step(s, i))
  {
    Others(s, i);
    assert Step(s, i).threads[i].pc == FlipSense;
  }

  /** The flip opens the next episode for everybody at once. */
  lemma FlipThreads(s: State, i: nat)
    requires Inv(s) && i < |s.threads| && s.threads[i].pc == FlipSense
    ensures var s' := Step(s, i);
      forall j :: 0 <= j < |s.threads| ==>
        ThreadOk(s'.threads[j], s'.flips) && !Arrived(s'.threads[j], s'.flips) && !InLast(s'.threads[j])
  {
    forall j | 0 <= j < |s.threads| && j != i
      ensures Step(s, i).threads[j] == s.threads[j]
      ensures s.threads[j].pc == Spin && s.threads[j].left == s.flips
    {
    }
  }

  lemma FlipInv(s: State, i: nat)
    requires Inv(s) && i < |s.threads| && s.threads[i].pc == FlipSense
    ensures Inv(Step(s, i))
  {
    var s' := Step(s, i);
    FlipThreads(s, i);
    assert OneLast(s');
    assert CountOk(s') by {
      assert Pending(s') == Below(|s.threads|);
      assert s'.count == s.count == |s.threads|;
    }
  }

  lemma EnterInv(s: State, i: nat)
    requires Inv(s) && i < |s.threads| && s.threads[i].pc == Outside
    ensures Inv(Step(s, i))
  {
    var s' := Step(s, i);
    Others(s, i);
    assert Pending(s') == Pending(s);
    NotLastWhilePending(s, i);
    assert s.count > 0;
  }

  lemma SpinInv(s: State, i: nat)
    requires Inv(s) && i < |s.threads| && s.threads[i].pc == Spin
    ensures Inv(Step(s, i))
  {
    var s' := Step(s, i);
    Others(s, i);
    if s.sense == s.threads[i].mySense {
      assert s.threads[i].left + 1 == s.flips;
      NotLastWhilePending(s, i);
      assert Pending(s') == Pending(s);
    }
  }

  /** While somebody has not arrived, nobody is past the last decrement. */
  lemma NotLastWhilePending(s: State, i: nat)
    requires Inv(s) && i < |s.threads| && !Arrived(s.threads[i], s.flips)
    ensures forall j :: 0 <= j < |s.threads| ==> !InLast(s.threads[j])
    ensures s.count == |Pending(s)| > 0
  {
    assert i in Pending(s);
  }

  lemma StepInv(s: State, i: nat)
    requires Inv(s)
    ensures Inv(Step(s, i))
  {
    if i < |s.threads| {
      match s.threads[i].pc
      case Outside => EnterInv(s, i);
      case Decrement => DecrementInv(s, i);
      case ResetCount => ResetInv(s, i);
      case FlipSense => FlipInv(s, i);
      case Spin => SpinInv(s, i);
    }
  }

  // ---- refinement of the abstract barrier

  ghost function Abs(s: State): Spec.Abstract<nat> {
    map i: nat | i < |s.threads| :: Spec.Participant(s.threads[i].entered, s.threads[i].left)
  }

  lemma AbsUpdate(s: State, s': State, i: nat)
    requires i < |s.threads| == |s'.threads|
    requires forall j: nat :: j < |s.threads| && j != i ==> s'.threads[j] == s.threads[j]
    ensures Abs(s') == Abs(s)[i := Spec.Participant(s'.threads[i].entered, s'.threads[i].left)]
  {
    Spec.MapUpdate(Abs(s), Abs(s'), i, Abs(s')[i]);
  }

  /** Whoever is about to leave knows that everybody has entered. */
  lemma LeaverKnows(s: State, i: nat, j: nat)
    requires Inv(s) && i < |s.threads| && j < |s.threads|
    requires s.threads[i].pc == FlipSense || (s.threads[i].pc == Spin && s.sense == s.threads[i].mySense)
    ensures s.threads[i].left < s.threads[j].entered
  {
    assert ThreadOk(s.threads[i], s.flips) && ThreadOk(s.threads[j], s.flips);
  }

  lemma StepRefines(s: State, i: nat)
    requires Inv(s)
    ensures Spec.Next(Abs(s), Abs(Step(s, i)), i)
  {
    if i < |s.threads| {
      var t, t' := s.threads[i], Step(s, i).threads[i];
      Others(s, i);
      AbsUpdate(s, Step(s, i), i);
      assert ThreadOk(t, s.flips);
      forall j: nat | j < |s.threads| && t'.left > t.left ensures t.left < s.threads[j].entered {
        LeaverKnows(s, i, j);
      }
      Spec.NextByCounters(Abs(s), i, Spec.Participant(t'.entered, t'.left));
    }
  }

  lemma SafeInv(s: State)
    requires Inv(s)
    ensures Spec.Safe(Abs(s))
  {
  }

  /** Every run is a behaviour of the specification, from its initial state on. */
  lemma RunRefines(n: nat, schedule: seq<nat>)
    requires n > 0
    ensures Inv(Run(Step, Start(n), schedule)) && Spec.Safe(Abs(Run(Step, Start(n), schedule)))
    ensures Spec.Behaviour(Trace(Step, Abs, Start(n), schedule), Movers(Self, schedule))
    ensures Trace(Step, Abs, Start(n), schedule)[|schedule|] == Abs(Run(Step, Start(n), schedule))
  {
    StartInv(n);
    forall s, l: nat | Inv(s) ensures Inv(Step(s, l)) && Spec.Next(Abs(s), Abs(Step(s, l)), Self(l)) {
      StepInv(s, l);
      StepRefines(s, l);
    }
    Refinement.RunRefines(Step, Self, Inv, Abs, Start(n), schedule);
  }

  /** Every run, of any length and with any scheduling, of any number of threads is safe. */
  lemma RunSafe(n: nat, schedule: seq<nat>)
    requires n > 0
    ensures var s := Run(Step, Start(n), schedule);
      && Inv(s) && Spec.Safe(Abs(s))
  {
    RunRefines(n, schedule);
  }

  // ---- progress

  ghost predicate AllEntered(s: State, e: nat) {
    forall i :: 0 <= i < |s.threads| ==> s.threads[i].entered >= e
  }

  ghost predicate AllLeft(s: State, e: nat) {
    forall i :: 0 <= i < |s.threads| ==> s.threads[i].left >= e
  }

  /** Steps that thread `t` still has to make before it has left episode `e`. */
  function Remaining(t: Thread, e: nat): nat {
    if t.left >= e then 0 else
    match t.pc case Outside => 5 case Decrement => 4 case ResetCount => 3 case FlipSense => 2 case Spin => 1
  }

  /** What an element still has to do. */
  function Todo(e: nat): Thread -> nat { (t: Thread) => Remaining(t, e) }

  function Work(s: State, e: nat): nat { Total(s.threads, Todo(e)) }

  lemma WorkZero(s: State, e: nat)
    ensures Work(s, e) == 0 <==> AllLeft(s, e)
  {
    TotalZero(s.threads, Todo(e));
  }

  /** Thread `i` is still inside episode `e` and its next action is not a fruitless spin. */
  predicate Enabled(s: State, i: nat, e: nat) {
    && i < |s.threads|
    && s.threads[i].left < e
    && (s.threads[i].pc == Spin ==> s.sense == s.threads[i].mySense)
  }

  lemma StepEntered(s: State, i: nat, e: nat)
    requires Inv(s) && AllEntered(s, e)
    ensures AllEntered(Step(s, i), e)
  {
    Others(s, i);
  }

  lemma StepRemaining(s: State, i: nat, e: nat)
    requires Inv(s) && i < |s.threads| && s.threads[i].left + 1 >= e
    ensures var r, r' := Remaining(s.threads[i], e), Remaining(Step(s, i).threads[i], e);
      if Enabled(s, i, e) then r' < r else r' == r
  {
  }

  lemma StepWork(s: State, i: nat, e: nat)
    requires Inv(s) && (i < |s.threads| ==> s.threads[i].left + 1 >= e)
    ensures if Enabled(s, i, e) then Work(Step(s, i), e) < Work(s, e) else Work(Step(s, i), e) == Work(s, e)
  {
    if i < |s.threads| {
      Others(s, i);
      StepRemaining(s, i, e);
      TotalUpdate(s.threads, i, Step(s, i).threads[i], Todo(e));
      assert Step(s, i).threads == s.threads[i := Step(s, i).threads[i]];
    }
  }

  lemma StaysEnabled(s: State, i: nat, j: nat, e: nat)
    requires Inv(s) && Enabled(s, i, e) && j != i
    ensures Enabled(Step(s, j), i, e)
  {
    Others(s, j);
    if s.threads[i].pc == Spin && j < |s.threads| {
      NotLastWhilePending(s, i);
    }
  }

  lemma PendingIfAllSpin(s: State, i: nat)
    requires Inv(s) && i < |s.threads| && s.threads[i].left == s.flips
    ensures exists k :: 0 <= k < |s.threads| && (s.threads[k].pc != Spin || s.threads[k].left != s.flips)
  {
    if forall k :: 0 <= k < |s.threads| ==> s.threads[k].pc == Spin && s.threads[k].left == s.flips {
      assert Pending(s) == {};
    }
  }

  /** No deadlock: once everybody has entered, somebody who is still inside can move. */
  lemma SomeoneEnabled(s: State, e: nat) returns (i: nat)
    requires Inv(s) && AllEntered(s, e) && Work(s, e) > 0
    ensures Enabled(s, i, e)
  {
    WorkZero(s, e);
    i :| i < |s.threads| && s.threads[i].left < e;
    if !Enabled(s, i, e) {
      assert s.flips == s.threads[i].left == e - 1;
      PendingIfAllSpin(s, i);
      i :| i < |s.threads| && (s.threads[i].pc != Spin || s.threads[i].left != s.flips);
    }
  }

  /**
   Completion: from every reachable state in which all threads have entered episode `e`, all
   threads have left it after `Work(s, e)` rounds of any fair schedule.
  */
  lemma EpisodeCompletes(s: State, e: nat, rounds: seq<seq<nat>>)
    requires Inv(s) && AllEntered(s, e)
    requires forall k, i: nat :: 0 <= k < |rounds| && i < |s.threads| ==> Scheduled(Self, rounds[k], i)
    requires Work(s, e) <= |rounds|
    ensures AllLeft(Run(Step, s, Flatten(rounds)), e)
  {
    var actor := (i: nat) => i < |s.threads|;
    var inv := (t: State) => Inv(t) && AllEntered(t, e) && |t.threads| == |s.threads|;
    var measure := (t: State) => Work(t, e);
    var enabled := (t: State, i: nat) => Enabled(t, i, e);
    forall t: State, l: nat | inv(t)
      ensures inv(Step(t, l)) && measure(Step(t, l)) <= measure(t)
      ensures enabled(t, l) ==> measure(Step(t, l)) < measure(t)
    {
      StepInv(t, l);
      Others(t, l);
      StepEntered(t, l, e);
      StepWork(t, l, e);
    }
    forall t: State, l: nat, a: nat | inv(t) && enabled(t, a) && l != a ensures enabled(Step(t, l), a) {
      StaysEnabled(t, a, l, e);
    }
    forall t: State | inv(t) && measure(t) > 0 ensures exists a :: actor(a) && enabled(t, a) {
      var a := SomeoneEnabled(t, e);
      assert actor(a) && enabled(t, a);
    }
    EachRunFinishes(Step, actor, inv, measure, enabled, s, rounds);
    WorkZero(Run(Step, s, Flatten(rounds)), e);
  }

  // ---- every episode

  lemma StepLeft(s: State, l: nat, e: nat)
    requires Inv(s) && AllLeft(s, e)
    ensures AllLeft(Step(s, l), e)
  {
    Others(s, l);
  }

  /** Whoever gets a turn after episode `e` is over has then entered the next one. */
  lemma TurnEnters(s: State, l: nat, e: nat)
    requires Inv(s) && AllLeft(s, e) && l < |s.threads|
    ensures |Step(s, l).threads| == |s.threads| && Step(s, l).threads[l].entered > e
  {
    Others(s, l);
    assert ThreadOk(s.threads[l], s.flips);
  }

  lemma RoundEnters(s: State, e: nat, round: seq<nat>)
    requires Inv(s) && AllLeft(s, e)
    requires forall p: nat :: p < |s.threads| ==> Scheduled(Self, round, p)
    ensures AllEntered(Run(Step, s, round), e + 1)
  {
    var n := |s.threads|;
    var inv := (t: State) => Inv(t) && AllLeft(t, e) && |t.threads| == n;
    var has := (t: State, p: nat) => p < n && p < |t.threads| ==> t.threads[p].entered > e;
    forall t: State, l: nat | inv(t)
      ensures inv(Step(t, l)) && has(Step(t, l), l)
      ensures forall p: nat :: has(t, p) ==> has(Step(t, l), p)
    {
      StepInv(t, l);
      StepLeft(t, l, e);
      Others(t, l);
      if l < n { TurnEnters(t, l, e); }
    }
    RunKeeps(Step, inv, s, round);
    forall p: nat | p < n ensures Run(Step, s, round).threads[p].entered >= e + 1 {
      RoundDoes(Step, Self, inv, has, s, round, p);
    }
  }

  lemma WorkBound(s: State, e: nat)
    requires Inv(s)
    ensures Work(s, e) <= |s.threads| * 5
  {
    TotalAtMost(s.threads, Todo(e), 5);
  }

  ghost predicate InvFor(s: State, n: nat) {
    Inv(s) && |s.threads| == n
  }

  lemma RunInvFor(s: State, n: nat, schedule: seq<nat>)
    requires InvFor(s, n)
    ensures InvFor(Run(Step, s, schedule), n)
  {
    forall t: State, l: nat | InvFor(t, n) ensures InvFor(Step(t, l), n) {
      StepInv(t, l);
      Others(t, l);
    }
    RunKeeps(Step, t => InvFor(t, n), s, schedule);
  }

  /** One fair round makes all enter the next episode, and the others make them leave it. */
  lemma NextEpisode(s: State, n: nat, e: nat, rounds: seq<seq<nat>>)
    requires InvFor(s, n) && AllLeft(s, e)
    requires AllFair(FairFor(n), rounds) && |rounds| == n * 5 + 1
    ensures InvFor(Run(Step, s, Flatten(rounds)), n) && AllLeft(Run(Step, s, Flatten(rounds)), e + 1)
  {
    forall k, p: nat | 0 <= k < |rounds| && p < n ensures Scheduled(Self, rounds[k], p) {
      assert FairFor(n)(rounds[k]);
    }
    var t := Run(Step, s, rounds[0]);
    RoundEnters(s, e, rounds[0]);
    RunInvFor(s, n, rounds[0]);
    RunConcat(Step, s, rounds[0], Flatten(rounds[1..]));
    WorkBound(t, e + 1);
    EpisodeCompletes(t, e + 1, rounds[1..]);
    RunInvFor(t, n, Flatten(rounds[1..]));
  }

  ghost function FairFor(n: nat): seq<nat> -> bool {
    (round: seq<nat>) => AllScheduled(Self, n, round)
  }

  ghost function InvOf(n: nat): State -> bool {
    (s: State) => InvFor(s, n)
  }

  lemma EachEpisode(n: nat)
    ensures EpisodeFollows(Step, FairFor(n), InvOf(n), AllLeft, n * 5 + 1)
  {
    forall s: State, rounds: seq<seq<nat>>, e: nat
      | InvOf(n)(s) && AllLeft(s, e) && AllFair(FairFor(n), rounds) && |rounds| == n * 5 + 1
      ensures InvOf(n)(Run(Step, s, Flatten(rounds))) && AllLeft(Run(Step, s, Flatten(rounds)), e + 1)
    {
      NextEpisode(s, n, e, rounds);
    }
  }

  /** From the start, any number of episodes complete under every schedule that is fair for long enough. */
  lemma EveryEpisodeCompletes(n: nat, e: nat, rounds: seq<seq<nat>>)
    requires n > 0
    requires forall k, p: nat :: 0 <= k < |rounds| && p < n ==> Scheduled(Self, rounds[k], p)
    requires |rounds| == e * (n * 5 + 1)
    ensures AllLeft(Run(Step, Start(n), Flatten(rounds)), e)
  {
    StartInv(n);
    EachEpisode(n);
    EpisodesFinish(Step, FairFor(n), InvOf(n), AllLeft, n * 5 + 1, Start(n), e, rounds);
  }

  // ---- the program

  /** gtmp1.c with its shared variables, and with one program counter and `my_sense` per thread. */
  class Barrier {
    var count: int
    var sense: bool
    const numThreads: nat
    const threads: array<Thread>
    ghost var flips: nat

    ghost function View(): State
      reads this, threads
    {
      State(count, sense, threads[..], flips)
    }

    ghost predicate Valid()
      reads this
    {
      threads.Length == numThreads
    }

    constructor (n: nat)
      ensures Valid() && View() == Start(n) && fresh(threads)
    {
      count := n;
      numThreads := n;
      sense := false;
      threads := new Thread[n](_ => Thread(Outside, false, 0, 0));
      flips := 0;
      new;
      assert threads[..] == Start(n).threads;
    }

    /** The scheduler lets thread `i` perform its next action on the shared variables. */
    method Advance(i: nat)
      requires Valid() && i < numThreads
      modifies this, threads
      ensures Valid() && View() == Step(old(View()), i)
    {
      var t := threads[i];
      match t.pc {
        case Outside =>
          threads[i] := t.(pc := Decrement, mySense := !sense, entered := t.entered + 1);
        case Decrement =>
          var fetched := count;
          count := count - 1;
          threads[i] := t.(pc := if fetched == 1 then ResetCount else Spin);
        case ResetCount =>
          count := numThreads;
          threads[i] := t.(pc := FlipSense);
        case FlipSense =>
          sense := t.mySense;
          flips := flips + 1;
          threads[i] := t.(pc := Outside, left := t.left + 1);
        case Spin =>
          if sense == t.mySense {
            threads[i] := t.(pc := Outside, left := t.left + 1);
          }
      }
    }

    /** Any interleaving of any number of barrier calls, starting where the barrier is now. */
    method Execute(schedule: seq<nat>)
      requires Valid() && Inv(View())
      requires forall k :: 0 <= k < |schedule| ==> schedule[k] < numThreads
      modifies this, threads
      ensures Valid() && View() == Run(Step, old(View()), schedule)
      ensures Inv(View()) && Spec.Safe(Abs(View()))
    {
      for k := 0 to |schedule|
        invariant Valid() && Inv(View())
        invariant Run(Step, View(), schedule[k..]) == Run(Step, old(View()), schedule)
      {
        StepInv(View(), schedule[k]);
        assert schedule[k..][1..] == schedule[k + 1..];
        Advance(schedule[k]);
      }
      SafeInv(View());
    }
  }
}
