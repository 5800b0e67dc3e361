/**
 The hierarchical barrier (project2/combined/combined.c): inside every MPI process its threads use
 sense reversal, and the thread that arrives last runs the dissemination rounds for its process
 before it resets the counter and flips the sense.
*/
module Combined {
  import opened FairRuns
  import opened Refinement
  import opened Sums
  import opened RingArithmetic
  import Spec = BarrierSpec
  import Local = SenseReversal
  import Net = Dissemination

  // `inRounds`: the last thread of this process is inside the round loop (lines 34-46), which lies
  // between its decrement and its reset of the counter.
  datatype Node = Node(local: Local.State, inRounds: bool)

  datatype State = State(nodes: seq<Node>, net: Net.State)

  // Process and thread.
  type Id = (nat, nat)

  function Start(processes: nat, threads: nat): State {
    State(seq(processes, _ => Node(Local.Start(threads), false)), Net.Start(processes))
  }

  predicate IsThread(s: State, id: Id) {
    id.0 < |s.nodes| && id.1 < |s.nodes[id.0].local.threads|
  }

  function ThreadOf(s: State, id: Id): Local.Thread
    requires IsThread(s, id)
  {
    s.nodes[id.0].local.threads[id.1]
  }

  /** Thread `id.1` of process `id.0` is the one that calls MPI next. */
  predicate CallsNet(s: State, id: Id)
    requires IsThread(s, id)
  {
    ThreadOf(s, id).pc == Local.ResetCount && s.nodes[id.0].inRounds
  }

  /** What thread `i` of process `p` does next to its process and to the network. */
  function NodeStep(node: Node, net: Net.State, p: nat, i: nat): (Node, Net.State)
    requires i < |node.local.threads|
  {
    var pc := node.local.threads[i].pc;
    if pc == Local.ResetCount && node.inRounds then
      var net' := Net.Step(net, p);
      (node.(inRounds := p < |net'.procs| && !net'.procs[p].pc.Outside?), net')
    else
      var fetchedOne := pc == Local.Decrement && node.local.count == 1;
      (Node(Local.Step(node.local, i), node.inRounds || fetchedOne), net)
  }

  function Step(s: State, id: Id): State {
    if !IsThread(s, id) then s else
    var (node', net') := NodeStep(s.nodes[id.0], s.net, id.0, id.1);
    State(s.nodes[id.0 := node'], net')
  }

  // ---- what every reachable state satisfies

  /** Some thread of the process has made the last arrival and has not yet flipped the sense. */
  ghost predicate HasLast(l: Local.State) {
    exists i :: 0 <= i < |l.threads| && Local.InLast(l.threads[i])
  }

  ghost predicate HasReset(l: Local.State) {
    exists i :: 0 <= i < |l.threads| && l.threads[i].pc == Local.ResetCount
  }

  /** How the rounds of a process fit between its last arrival and its flip. */
  ghost predicate Linked(node: Node, pr: Net.Proc) {
    && (node.inRounds ==> HasReset(node.local))
    && (!node.inRounds ==> pr.pc.Outside?)
    && pr.left == node.local.flips + if HasLast(node.local) && !node.inRounds then 1 else 0
  }

  ghost predicate Inv(s: State) {
    && |s.nodes| == |s.net.procs|
    && Net.Inv(s.net)
    && (forall p :: 0 <= p < |s.nodes| ==> Local.Inv(s.nodes[p].local))
    && (forall p :: 0 <= p < |s.nodes| ==> Linked(s.nodes[p], s.net.procs[p]))
  }

  lemma StartInv(processes: nat, threads: nat)
    requires processes > 0 && threads > 0
    ensures Inv(Start(processes, threads))
    ensures Spec.Init(Abs(Start(processes, threads)))
  {
    Net.StartInv(processes);
    Local.StartInv(threads);
  }

  lemma Others(s: State, id: Id)
    ensures |Step(s, id).nodes| == |s.nodes|
    ensures |Step(s, id).net.procs| == |s.net.procs|
    ensures forall q :: 0 <= q < |s.nodes| && q != id.0 ==> Step(s, id).nodes[q] == s.nodes[q]
    ensures forall q :: 0 <= q < |s.net.procs| && q != id.0 ==> Step(s, id).net.procs[q] == s.net.procs[q]
  {
    Net.Others(s.net, id.0);
  }

  lemma NetStepLinked(s: State, id: Id)
    requires Inv(s) && IsThread(s, id) && CallsNet(s, id)
    ensures Linked(Step(s, id).nodes[id.0], Step(s, id).net.procs[id.0])
  {
    var l := s.nodes[id.0].local;
    assert HasReset(l);
    assert Local.InLast(l.threads[id.1]);
    assert Net.ProcOk(s.net.procs[id.0], CeilLog2(|s.net.procs|));
  }

  /** A thread's own step leaves the last arrival alone, except for the arrival and the flip themselves. */
  lemma LocalLast(l: Local.State, i: nat)
    requires Local.Inv(l) && i < |l.threads|
    ensures var l' := Local.Step(l, i);
      match l.threads[i].pc
      case Decrement => (if l.count == 1 then HasReset(l') else !HasLast(l')) && !HasLast(l) && l'.flips == l.flips
      case ResetCount => HasLast(l') && l'.flips == l.flips
      case FlipSense => !HasLast(l') && l'.flips == l.flips + 1 && !HasReset(l)
      case _ => HasLast(l') == HasLast(l) && HasReset(l') == HasReset(l) && l'.flips == l.flips
  {
    Local.Others(l, i);
    var l' := Local.Step(l, i);
    match l.threads[i].pc
    case Outside => Local.NotLastWhilePending(l, i);
    case Decrement =>
      Local.NotLastWhilePending(l, i);
      assert l.count == 1 ==> l'.threads[i].pc == Local.ResetCount;
    case ResetCount => assert Local.InLast(l'.threads[i]);
    case FlipSense => Local.FlipThreads(l, i);
    case Spin =>
      if l.sense == l.threads[i].mySense { Local.NotLastWhilePending(l, i); }
  }

  lemma LocalStepLinked(s: State, id: Id)
    requires Inv(s) && IsThread(s, id) && !CallsNet(s, id)
    ensures Linked(Step(s, id).nodes[id.0], Step(s, id).net.procs[id.0])
  {
    var node := s.nodes[id.0];
    LocalLast(node.local, id.1);
    assert Linked(node, s.net.procs[id.0]);
    if Local.InLast(node.local.threads[id.1]) {
      assert HasLast(node.local);
      assert !node.inRounds;
    }
    if HasReset(Local.Step(node.local, id.1)) {
      assert HasLast(Local.Step(node.local, id.1));
    }
  }

  lemma StepInv(s: State, id: Id)
    requires Inv(s)
    ensures Inv(Step(s, id))
  {
    Others(s, id);
    if IsThread(s, id) {
      if CallsNet(s, id) {
        Net.StepInv(s.net, id.0);
        NetStepLinked(s, id);
      } else {
        Local.StepInv(s.nodes[id.0].local, id.1);
        LocalStepLinked(s, id);
      }
    }
  }

  // ---- safety

  /** A process enters the rounds of episode e only when all its threads have entered e. */
  lemma NetEntryMeansThreads(s: State, q: nat, i: nat)
    requires Inv(s) && IsThread(s, (q, i))
    ensures s.net.procs[q].entered <= ThreadOf(s, (q, i)).entered
  {
    var l := s.nodes[q].local;
    assert Linked(s.nodes[q], s.net.procs[q]);
    assert Net.ProcOk(s.net.procs[q], CeilLog2(|s.net.procs|));
    assert Local.ThreadOk(l.threads[i], l.flips);
    if HasLast(l) {
      var k :| 0 <= k < |l.threads| && Local.InLast(l.threads[k]);
      assert Local.ThreadOk(l.threads[k], l.flips);
      assert l.threads[i].entered == l.flips + 1;
    }
  }

  /** What a finished set of rounds tells: every thread of every process has entered the episode. */
  lemma NetExitMeansAll(s: State, p: nat, id: Id)
    requires Inv(s) && p < |s.nodes| && IsThread(s, id)
    ensures s.net.procs[p].left <= ThreadOf(s, id).entered
  {
    NetEntryMeansThreads(s, id.0, id.1);
    assert s.net.procs[p].left <= s.net.procs[id.0].entered;
  }

  /** A thread leaves an episode only after the rounds of its process for it. */
  lemma ThreadExitAfterNet(s: State, id: Id)
    requires Inv(s) && IsThread(s, id)
    ensures ThreadOf(s, id).left <= s.net.procs[id.0].left
  {
    var l := s.nodes[id.0].local;
    assert Local.ThreadOk(l.threads[id.1], l.flips);
    assert Linked(s.nodes[id.0], s.net.procs[id.0]);
  }

  ghost function Abs(s: State): Spec.Abstract<Id> {
    map p: nat, i: nat | p < |s.nodes| && i < |s.nodes[p].local.threads| ::
      (p, i) := Spec.Participant(s.nodes[p].local.threads[i].entered, s.nodes[p].local.threads[i].left)
  }

  lemma AbsAt(s: State, id: Id)
    ensures id in Abs(s) <==> IsThread(s, id)
    ensures IsThread(s, id) ==> Abs(s)[id] == Spec.Participant(ThreadOf(s, id).entered, ThreadOf(s, id).left)
  {
    assert id == (id.0, id.1);
  }

  lemma SafeInv(s: State)
    requires Inv(s)
    ensures Spec.Safe(Abs(s))
  {
    forall a, b | a in Abs(s) && b in Abs(s) ensures Abs(s)[a].left <= Abs(s)[b].entered {
      AbsAt(s, a);
      AbsAt(s, b);
      ThreadExitAfterNet(s, a);
      NetExitMeansAll(s, a.0, b);
    }
  }

  /** Only the thread that moves changes its counters. */
  lemma OtherThreads(s: State, id: Id, b: Id)
    ensures IsThread(Step(s, id), b) <==> IsThread(s, b)
    ensures IsThread(s, b) && b != id ==> ThreadOf(Step(s, id), b) == ThreadOf(s, b)
  {
    if IsThread(s, id) {
      Others(s, id);
      Local.Others(s.nodes[id.0].local, id.1);
      if b.0 == id.0 && b.1 == id.1 {
        assert b == id;
      }
    }
  }

  lemma AbsSame(s: State, s': State, b: Id)
    requires IsThread(s', b) <==> IsThread(s, b)
    ensures b in Abs(s') <==> b in Abs(s)
    ensures IsThread(s, b) && ThreadOf(s', b) == ThreadOf(s, b) ==> Abs(s')[b] == Abs(s)[b]
  {
    AbsAt(s, b);
    AbsAt(s', b);
  }

  lemma AbsUpdate(s: State, s': State, id: Id)
    requires IsThread(s, id) && IsThread(s', id)
    requires forall b: Id :: IsThread(s', b) <==> IsThread(s, b)
    requires forall b: Id :: IsThread(s, b) && b != id ==> ThreadOf(s', b) == ThreadOf(s, b)
    ensures var t := ThreadOf(s', id); Abs(s') == Abs(s)[id := Spec.Participant(t.entered, t.left)]
  {
    AbsAt(s, id);
    AbsAt(s', id);
    forall b: Id ensures (b in Abs(s') <==> b in Abs(s)) && (b in Abs(s) && b != id ==> Abs(s')[b] == Abs(s)[b]) {
      AbsAt(s, b);
      AbsSame(s, s', b);
    }
    Spec.MapUpdate(Abs(s), Abs(s'), id, Abs(s')[id]);
  }

  /** One step enters, or leaves, or does neither. */
  lemma ThreadCounters(s: State, id: Id)
    requires Inv(s) && IsThread(s, id) && IsThread(Step(s, id), id)
    ensures var t, t' := ThreadOf(s, id), ThreadOf(Step(s, id), id);
      || (t'.entered == t.entered && t'.left == t.left)
      || (t.entered == t.left && t'.entered == t.entered + 1 && t'.left == t.left)
      || (t.left < t.entered && t'.entered == t.entered && t'.left == t.left + 1)
  {
    var l := s.nodes[id.0].local;
    assert Local.ThreadOk(l.threads[id.1], l.flips);
  }

  /** Whoever leaves knows that everybody else has entered. */
  lemma LeaveKnows(s: State, id: Id, b: Id)
    requires Inv(s) && IsThread(s, id) && IsThread(Step(s, id), id) && IsThread(s, b)
    requires ThreadOf(Step(s, id), id).left > ThreadOf(s, id).left
    ensures ThreadOf(s, id).left < ThreadOf(s, b).entered
  {
    var s' := Step(s, id);
    StepInv(s, id);
    ThreadExitAfterNet(s', id);
    OtherThreads(s, id, b);
    if b == id {
      ThreadCounters(s, id);
    } else {
      NetExitMeansAll(s', id.0, b);
    }
  }

  lemma AbsStep(s: State, id: Id)
    requires IsThread(s, id)
    ensures IsThread(Step(s, id), id)
    ensures var t := ThreadOf(Step(s, id), id); Abs(Step(s, id)) == Abs(s)[id := Spec.Participant(t.entered, t.left)]
  {
    forall b: Id
      ensures IsThread(Step(s, id), b) <==> IsThread(s, b)
      ensures IsThread(s, b) && b != id ==> ThreadOf(Step(s, id), b) == ThreadOf(s, b)
    {
      OtherThreads(s, id, b);
    }
    AbsUpdate(s, Step(s, id), id);
  }

  lemma LeavePermitted(s: State, id: Id)
    requires Inv(s) && IsThread(s, id) && IsThread(Step(s, id), id)
    requires ThreadOf(Step(s, id), id).left > ThreadOf(s, id).left
    ensures forall b :: b in Abs(s) ==> ThreadOf(s, id).left < Abs(s)[b].entered
  {
    forall b | b in Abs(s) ensures ThreadOf(s, id).left < Abs(s)[b].entered {
      AbsAt(s, b);
      LeaveKnows(s, id, b);
    }
  }

  lemma StepRefines(s: State, id: Id)
    requires Inv(s)
    ensures Spec.Next(Abs(s), Abs(Step(s, id)), id)
  {
    if IsThread(s, id) {
      AbsStep(s, id);
      AbsAt(s, id);
      var t, t' := ThreadOf(s, id), ThreadOf(Step(s, id), id);
      if t'.left > t.left { LeavePermitted(s, id); }
      ThreadCounters(s, id);
      Spec.NextByCounters(Abs(s), id, Spec.Participant(t'.entered, t'.left));
    }
  }

  /** Every run is a behaviour of the specification, from its initial state on. */
  lemma RunRefines(processes: nat, threads: nat, schedule: seq<Id>)
    requires processes > 0 && threads > 0
    ensures Inv(Run(Step, Start(processes, threads), schedule)) &&
      Spec.Safe(Abs(Run(Step, Start(processes, threads), schedule)))
    ensures Spec.Behaviour(Trace(Step, Abs, Start(processes, threads), schedule), Movers(Self, schedule))
    ensures Trace(Step, Abs, Start(processes, threads), schedule)[|schedule|] ==
      Abs(Run(Step, Start(processes, threads), schedule))
  {
    StartInv(processes, threads);
    forall s, l: Id | Inv(s) ensures Inv(Step(s, l)) && Spec.Next(Abs(s), Abs(Step(s, l)), Self(l)) {
      StepInv(s, l);
      StepRefines(s, l);
    }
    Refinement.RunRefines(Step, Self, Inv, Abs, Start(processes, threads), schedule);
  }

  lemma RunSafe(processes: nat, threads: nat, schedule: seq<Id>)
    requires processes > 0 && threads > 0
    ensures var s := Run(Step, Start(processes, threads), schedule);
      && Inv(s) && Spec.Safe(Abs(s))
  {
    RunRefines(processes, threads, schedule);
  }

  // ---- progress

  ghost predicate AllEntered(s: State, e: nat) {
    forall id: Id :: IsThread(s, id) ==> ThreadOf(s, id).entered >= e
  }

  ghost predicate AllLeft(s: State, e: nat) {
    forall id: Id :: IsThread(s, id) ==> ThreadOf(s, id).left >= e
  }

  /** What the threads of a process still have to do. */
  function Todo(e: nat): Node -> nat { (node: Node) => Local.Work(node.local, e) }

  function Work(s: State, e: nat): nat {
    Total(s.nodes, Todo(e)) + Net.Work(s.net, e)
  }

  predicate Enabled(s: State, id: Id, e: nat) {
    && IsThread(s, id)
    && ThreadOf(s, id).left < e
    && if CallsNet(s, id) then Net.Enabled(s.net, id.0, e) else Local.Enabled(s.nodes[id.0].local, id.1, e)
  }

  lemma WorkZero(s: State, e: nat)
    requires Inv(s) && Work(s, e) == 0
    ensures AllLeft(s, e)
  {
    TotalZero(s.nodes, Todo(e));
    forall id: Id | IsThread(s, id) ensures ThreadOf(s, id).left >= e {
      assert Todo(e)(s.nodes[id.0]) == 0;
      Local.WorkZero(s.nodes[id.0].local, e);
    }
  }

  /** Once all have entered episode e, nobody is more than one episode behind it. */
  lemma NearEpisode(s: State, e: nat, p: nat)
    requires Inv(s) && AllEntered(s, e) && p < |s.nodes|
    ensures Local.AllEntered(s.nodes[p].local, e)
    ensures s.nodes[p].local.flips + 1 >= e && s.net.procs[p].left + 1 >= e
    ensures forall i :: 0 <= i < |s.nodes[p].local.threads| ==> s.nodes[p].local.threads[i].left + 1 >= e
  {
    var l := s.nodes[p].local;
    forall i: nat | i < |l.threads| ensures l.threads[i].entered >= e {
      assert IsThread(s, (p, i)) && ThreadOf(s, (p, i)) == l.threads[i];
    }
    assert Local.ThreadOk(l.threads[0], l.flips);
    assert Linked(s.nodes[p], s.net.procs[p]);
  }

  lemma StepEntered(s: State, id: Id, e: nat)
    requires Inv(s) && AllEntered(s, e)
    ensures AllEntered(Step(s, id), e)
  {
    forall b: Id | IsThread(Step(s, id), b) ensures ThreadOf(Step(s, id), b).entered >= e {
      OtherThreads(s, id, b);
      if b == id {
        ThreadCounters(s, id);
      }
    }
  }

  lemma LocalStepWork(s: State, id: Id, e: nat)
    requires Inv(s) && AllEntered(s, e) && IsThread(s, id) && !CallsNet(s, id)
    ensures if Enabled(s, id, e) then Work(Step(s, id), e) < Work(s, e) else Work(Step(s, id), e) == Work(s, e)
  {
    NearEpisode(s, e, id.0);
    var l := s.nodes[id.0].local;
    Local.StepWork(l, id.1, e);
    TotalUpdate(s.nodes, id.0, Step(s, id).nodes[id.0], Todo(e));
    assert Step(s, id).nodes == s.nodes[id.0 := Step(s, id).nodes[id.0]];
  }

  lemma CallerBehind(s: State, id: Id)
    requires Inv(s) && IsThread(s, id)
    ensures CallsNet(s, id) ==> s.net.procs[id.0].left == ThreadOf(s, id).left
  {
    var l := s.nodes[id.0].local;
    assert Local.ThreadOk(l.threads[id.1], l.flips);
    assert Linked(s.nodes[id.0], s.net.procs[id.0]);
  }

  lemma NetStepWork(s: State, id: Id, e: nat)
    requires Inv(s) && AllEntered(s, e) && IsThread(s, id) && CallsNet(s, id)
    ensures if Enabled(s, id, e) then Work(Step(s, id), e) < Work(s, e) else Work(Step(s, id), e) == Work(s, e)
  {
    NearEpisode(s, e, id.0);
    Net.StepWork(s.net, id.0, e);
    CallerBehind(s, id);
    TotalUpdate(s.nodes, id.0, Step(s, id).nodes[id.0], Todo(e));
    assert Step(s, id).nodes == s.nodes[id.0 := Step(s, id).nodes[id.0]];
  }

  lemma StepWork(s: State, id: Id, e: nat)
    requires Inv(s) && AllEntered(s, e)
    ensures if Enabled(s, id, e) then Work(Step(s, id), e) < Work(s, e) else Work(Step(s, id), e) == Work(s, e)
  {
    if IsThread(s, id) {
      if CallsNet(s, id) { NetStepWork(s, id, e); } else { LocalStepWork(s, id, e); }
    }
  }

  lemma StaysEnabled(s: State, id: Id, other: Id, e: nat)
    requires Inv(s) && AllEntered(s, e) && Enabled(s, id, e) && other != id
    ensures Enabled(Step(s, other), id, e)
  {
    if IsThread(s, other) {
      OtherThreads(s, other, id);
      Others(s, other);
      var l := s.nodes[id.0].local;
      if other.0 == id.0 {
        Local.StaysEnabled(l, id.1, other.1, e);
        if l.threads[id.1].pc == Local.ResetCount {
          // the last arrival is alone: everybody else in the process spins
          assert Local.InLast(l.threads[id.1]);
          assert l.threads[other.1].pc == Local.Spin;
        }
      } else if CallsNet(s, id) && CallsNet(s, other) {
        Net.StaysEnabled(s.net, id.0, other.0, e);
      }
    }
  }

  /** A process with work left has a thread that can move, unless its last thread waits for a message. */
  lemma NodeEnabled(s: State, e: nat, p: nat) returns (id: Id)
    requires Inv(s) && AllEntered(s, e) && p < |s.nodes| && s.nodes[p].local.flips < e
    ensures IsThread(s, id) && id.0 == p && ThreadOf(s, id).left < e
    ensures CallsNet(s, id) || Enabled(s, id, e)
  {
    NearEpisode(s, e, p);
    var l := s.nodes[p].local;
    assert Local.ThreadOk(l.threads[0], l.flips);
    Local.WorkZero(l, e);
    var i := Local.SomeoneEnabled(l, e);
    id := (p, i);
  }

  /** Every process has entered its rounds or has a thread on the way to them. */
  lemma SomeoneEnabled(s: State, e: nat) returns (id: Id)
    requires Inv(s) && AllEntered(s, e) && Work(s, e) > 0
    ensures Enabled(s, id, e)
  {
    forall p: nat | p < |s.nodes| ensures s.net.procs[p].left + 1 >= e { NearEpisode(s, e, p); }
    if Net.Work(s.net, e) > 0 {
      Net.WorkZero(s.net, e);
      var p := Net.LeastAdvanced(s.net, e, |s.net.procs|);
      assert Linked(s.nodes[p], s.net.procs[p]);
      id := NodeEnabled(s, e, p);
      if CallsNet(s, id) {
        Net.LeastAdvancedEnabled(s.net, p, e);
      }
    } else {
      Net.WorkZero(s.net, e);
      TotalZero(s.nodes, Todo(e));
      var p :| 0 <= p < |s.nodes| && Todo(e)(s.nodes[p]) > 0;
      NearEpisode(s, e, p);
      var i := Local.SomeoneEnabled(s.nodes[p].local, e);
      id := (p, i);
      CallerBehind(s, id);
    }
  }

  /** Threads neither appear nor disappear. */
  ghost predicate SameThreads(s: State, t: State) {
    forall id: Id :: IsThread(t, id) <==> IsThread(s, id)
  }

  lemma StepSame(s: State, t: State, id: Id)
    requires SameThreads(s, t)
    ensures SameThreads(s, Step(t, id))
  {
    forall b: Id ensures IsThread(Step(t, id), b) <==> IsThread(s, b) { OtherThreads(t, id, b); }
  }

  ghost predicate Late(s: State, t: State, e: nat) {
    Inv(t) && AllEntered(t, e) && SameThreads(s, t)
  }

  lemma LateStep(s: State, t: State, id: Id, e: nat)
    requires Late(s, t, e)
    ensures Late(s, Step(t, id), e) && Work(Step(t, id), e) <= Work(t, e)
    ensures Enabled(t, id, e) ==> Work(Step(t, id), e) < Work(t, e)
  {
    StepInv(t, id);
    StepEntered(t, id, e);
    StepSame(s, t, id);
    StepWork(t, id, e);
  }

  lemma LateEnabled(s: State, t: State, e: nat) returns (id: Id)
    requires Late(s, t, e) && Work(t, e) > 0
    ensures IsThread(s, id) && Enabled(t, id, e)
  {
    id := SomeoneEnabled(t, e);
  }

  lemma LateFinishes(s: State, e: nat, rounds: seq<seq<Id>>)
    requires Late(s, s, e) && Work(s, e) <= |rounds|
    requires forall k, id: Id :: 0 <= k < |rounds| && IsThread(s, id) ==> Scheduled(Self, rounds[k], id)
    ensures Late(s, Run(Step, s, Flatten(rounds)), e) && Work(Run(Step, s, Flatten(rounds)), e) == 0
  {
    var actor := (id: Id) => IsThread(s, id);
    var inv := (t: State) => Late(s, t, e);
    var measure := (t: State) => Work(t, e);
    var enabled := (t: State, id: Id) => Enabled(t, id, e);
    forall t: State, l: Id | inv(t)
      ensures inv(Step(t, l)) && measure(Step(t, l)) <= measure(t)
      ensures enabled(t, l) ==> measure(Step(t, l)) < measure(t)
    {
      LateStep(s, t, l, e);
    }
    forall t: State, l: Id, a: Id | inv(t) && enabled(t, a) && l != a ensures enabled(Step(t, l), a) {
      StaysEnabled(t, a, l, e);
    }
    forall t: State | inv(t) && measure(t) > 0 ensures exists a :: actor(a) && enabled(t, a) {
      var a := LateEnabled(s, t, e);
      assert actor(a) && enabled(t, a);
    }
    EachRunFinishes(Step, actor, inv, measure, enabled, s, rounds);
  }

  /** Completion under every fair schedule, from every reachable state in which all have entered. */
  lemma EpisodeCompletes(s: State, e: nat, rounds: seq<seq<Id>>)
    requires Inv(s) && AllEntered(s, e)
    requires forall k, id: Id :: 0 <= k < |rounds| && IsThread(s, id) ==> Scheduled(Self, rounds[k], id)
    requires Work(s, e) <= |rounds|
    ensures AllLeft(Run(Step, s, Flatten(rounds)), e)
  {
    LateFinishes(s, e, rounds);
    WorkZero(Run(Step, s, Flatten(rounds)), e);
  }

  // ---- every episode

  ghost predicate InvFor(s: State, processes: nat, threads: nat) {
    && Inv(s)
    && |s.nodes| == processes
    && forall p :: 0 <= p < |s.nodes| ==> |s.nodes[p].local.threads| == threads
  }

  lemma StepInvFor(s: State, id: Id, processes: nat, threads: nat)
    requires InvFor(s, processes, threads)
    ensures InvFor(Step(s, id), processes, threads)
  {
    StepInv(s, id);
    Others(s, id);
    if IsThread(s, id) {
      Local.Others(s.nodes[id.0].local, id.1);
    }
  }

  lemma RunInvFor(s: State, processes: nat, threads: nat, schedule: seq<Id>)
    requires InvFor(s, processes, threads)
    ensures InvFor(Run(Step, s, schedule), processes, threads)
  {
    forall t: State, id: Id | InvFor(t, processes, threads) ensures InvFor(Step(t, id), processes, threads) {
      StepInvFor(t, id, processes, threads);
    }
    RunKeeps(Step, t => InvFor(t, processes, threads), s, schedule);
  }

  /** Whoever gets a turn after episode `e` is over has then entered the next one. */
  lemma TurnEnters(s: State, id: Id, e: nat)
    requires Inv(s) && AllLeft(s, e) && IsThread(s, id)
    ensures IsThread(Step(s, id), id) && ThreadOf(Step(s, id), id).entered > e
  {
    OtherThreads(s, id, id);
    Local.Others(s.nodes[id.0].local, id.1);
    assert Local.ThreadOk(ThreadOf(s, id), s.nodes[id.0].local.flips);
    ThreadCounters(s, id);
  }

  ghost predicate Over(s: State, t: State, e: nat) {
    Inv(t) && AllLeft(t, e) && SameThreads(s, t)
  }

  ghost predicate HasEntered(s: State, t: State, e: nat, b: Id) {
    IsThread(s, b) ==> IsThread(t, b) && ThreadOf(t, b).entered > e
  }

  lemma OverStep(s: State, t: State, id: Id, e: nat)
    requires Over(s, t, e)
    ensures Over(s, Step(t, id), e) && HasEntered(s, Step(t, id), e, id)
  {
    StepInv(t, id);
    StepSame(s, t, id);
    forall b: Id | IsThread(Step(t, id), b) ensures ThreadOf(Step(t, id), b).left >= e {
      OtherThreads(t, id, b);
      if b == id { ThreadCounters(t, id); }
    }
    if IsThread(t, id) { TurnEnters(t, id, e); }
  }

  lemma EnteredStays(s: State, t: State, id: Id, e: nat, b: Id)
    requires Over(s, t, e) && HasEntered(s, t, e, b)
    ensures HasEntered(s, Step(t, id), e, b)
  {
    OtherThreads(t, id, b);
    if b == id && IsThread(t, id) { ThreadCounters(t, id); }
  }

  lemma RoundEnters(s: State, e: nat, round: seq<Id>)
    requires Inv(s) && AllLeft(s, e)
    requires forall id: Id :: IsThread(s, id) ==> Scheduled(Self, round, id)
    ensures AllEntered(Run(Step, s, round), e + 1)
  {
    var inv := (t: State) => Over(s, t, e);
    var has := (t: State, b: Id) => HasEntered(s, t, e, b);
    forall t: State, id: Id | inv(t) ensures inv(Step(t, id)) && has(Step(t, id), id) {
      OverStep(s, t, id, e);
    }
    forall t: State, id: Id, b: Id | inv(t) && has(t, b) ensures has(Step(t, id), b) {
      EnteredStays(s, t, id, e, b);
    }
    RunKeeps(Step, inv, s, round);
    var u := Run(Step, s, round);
    forall id: Id | IsThread(u, id) ensures ThreadOf(u, id).entered >= e + 1 {
      RoundDoes(Step, Self, inv, has, s, round, id);
    }
  }

  lemma WorkBound(s: State, processes: nat, threads: nat, e: nat)
    requires InvFor(s, processes, threads)
    ensures Work(s, e) <= processes * (threads * 5) + processes * (2 * CeilLog2(processes) + 2)
  {
    forall p: nat | p < |s.nodes| ensures Todo(e)(s.nodes[p]) <= threads * 5 {
      Local.WorkBound(s.nodes[p].local, e);
    }
    TotalAtMost(s.nodes, Todo(e), threads * 5);
    Net.WorkBound(s.net, e);
  }

  ghost predicate TurnForAll(processes: nat, threads: nat, round: seq<Id>) {
    forall id: Id :: id.0 < processes && id.1 < threads ==> Scheduled(Self, round, id)
  }

  ghost function FairFor(processes: nat, threads: nat): seq<Id> -> bool {
    (round: seq<Id>) => TurnForAll(processes, threads, round)
  }

  ghost function InvOf(processes: nat, threads: nat): State -> bool {
    (s: State) => InvFor(s, processes, threads)
  }

  lemma NextEntered(s: State, processes: nat, threads: nat, e: nat, round: seq<Id>)
    requires InvFor(s, processes, threads) && AllLeft(s, e) && TurnForAll(processes, threads, round)
    ensures InvFor(Run(Step, s, round), processes, threads) && AllEntered(Run(Step, s, round), e + 1)
  {
    RunInvFor(s, processes, threads, round);
    RoundEnters(s, e, round);
  }

  lemma NextLeft(s: State, processes: nat, threads: nat, e: nat, rounds: seq<seq<Id>>)
    requires InvFor(s, processes, threads) && AllEntered(s, e)
    requires forall k :: 0 <= k < |rounds| ==> TurnForAll(processes, threads, rounds[k])
    requires Work(s, e) <= |rounds|
    ensures InvFor(Run(Step, s, Flatten(rounds)), processes, threads) && AllLeft(Run(Step, s, Flatten(rounds)), e)
  {
    RunInvFor(s, processes, threads, Flatten(rounds));
    forall k, id: Id | 0 <= k < |rounds| && IsThread(s, id) ensures Scheduled(Self, rounds[k], id) {
      assert TurnForAll(processes, threads, rounds[k]);
    }
    EpisodeCompletes(s, e, rounds);
  }

  /** One fair round makes all enter the next episode, and the others make them leave it. */
  lemma NextEpisode(s: State, processes: nat, threads: nat, e: nat, bound: nat, rounds: seq<seq<Id>>)
    requires InvFor(s, processes, threads) && AllLeft(s, e)
    requires forall t: State :: InvFor(t, processes, threads) ==> Work(t, e + 1) <= bound
    requires AllFair(FairFor(processes, threads), rounds) && |rounds| == bound + 1
    ensures InvFor(Run(Step, s, Flatten(rounds)), processes, threads) && AllLeft(Run(Step, s, Flatten(rounds)), e + 1)
  {
    forall k | 0 <= k < |rounds| ensures TurnForAll(processes, threads, rounds[k]) {
      assert FairFor(processes, threads)(rounds[k]);
    }
    NextEntered(s, processes, threads, e, rounds[0]);
    NextLeft(Run(Step, s, rounds[0]), processes, threads, e + 1, rounds[1..]);
    RunConcat(Step, s, rounds[0], Flatten(rounds[1..]));
  }

  lemma EachEpisode(processes: nat, threads: nat, bound: nat)
    requires forall t: State, e: nat :: InvFor(t, processes, threads) ==> Work(t, e) <= bound
    ensures EpisodeFollows(Step, FairFor(processes, threads), InvOf(processes, threads), AllLeft, bound + 1)
  {
    var fair, inv := FairFor(processes, threads), InvOf(processes, threads);
    forall s: State, rounds: seq<seq<Id>>, e: nat
      | inv(s) && AllLeft(s, e) && AllFair(fair, rounds) && |rounds| == bound + 1
      ensures inv(Run(Step, s, Flatten(rounds))) && AllLeft(Run(Step, s, Flatten(rounds)), e + 1)
    {
      NextEpisode(s, processes, threads, e, bound, rounds);
    }
  }

  /** From the start, any number of episodes complete under every schedule that is fair for long enough. */
  lemma EveryEpisodeCompletes(processes: nat, threads: nat, bound: nat, e: nat, rounds: seq<seq<Id>>)
    requires processes > 0 && threads > 0
    requires bound == processes * (threads * 5) + processes * (2 * CeilLog2(processes) + 2)
    requires forall k :: 0 <= k < |rounds| ==> TurnForAll(processes, threads, rounds[k])
    requires |rounds| == e * (bound + 1)
    ensures AllLeft(Run(Step, Start(processes, threads), Flatten(rounds)), e)
  {
    StartInv(processes, threads);
    forall t: State, f: nat | InvFor(t, processes, threads) ensures Work(t, f) <= bound {
      WorkBound(t, processes, threads, f);
    }
    EachEpisode(processes, threads, bound);
    EpisodesFinish(Step, FairFor(processes, threads), InvOf(processes, threads), AllLeft, bound + 1,
                   Start(processes, threads), e, rounds);
  }

  // ---- the program

  /** The globals of one MPI process, and the program counter and `my_sense` of its threads. */
  class Process {
    var count: int
    var sense: bool
    var numThreads: nat
    var inRounds: bool
    const threads: array<Local.Thread>
    ghost var flips: nat

    ghost function View(): Node
      reads this, threads
    {
      Node(Local.State(count, sense, threads[..], flips), inRounds)
    }

    ghost predicate Valid()
      reads this
    {
      threads.Length == numThreads
    }

    constructor (n: nat)
      ensures Valid() && View() == Node(Local.Start(n), false) && numThreads == n && fresh(threads)
    {
      count := n;
      numThreads := n;
      sense := false;
      inRounds := false;
      threads := new Local.Thread[n](_ => Local.Thread(Local.Outside, false, 0, 0));
      flips := 0;
      new;
      assert threads[..] == Local.Start(n).threads;
    }

    /**
     combined_barrier: thread `i` of process `rank` performs its next action, on the shared
     variables of its process or, in the round loop, on the network.
    */
    method Advance(i: nat, rank: nat, net: Net.World)
      requires Valid() && net.Valid() && i < numThreads && rank < net.numProcess
      modifies this, threads, net, net.procs
      ensures Valid() && net.Valid()
      ensures (View(), net.View()) == NodeStep(old(View()), old(net.View()), rank, i)
      ensures numThreads == old(numThreads) && net.numProcess == old(net.numProcess)
    {
      var t := threads[i];
      match t.pc {
        case Outside =>
          threads[i] := t.(pc := Local.Decrement, mySense := !sense, entered := t.entered + 1);
        case Decrement =>
          var fetched := count;
          count := count - 1;
          if fetched == 1 {
            inRounds := true;
          }
          threads[i] := t.(pc := if fetched == 1 then Local.ResetCount else Local.Spin);
        case ResetCount =>
          if inRounds {
            net.Advance(rank);
            inRounds := !net.procs[rank].pc.Outside?;
          } else {
            count := numThreads;
            threads[i] := t.(pc := Local.FlipSense);
          }
        case FlipSense =>
          sense := t.mySense;
          flips := flips + 1;
          threads[i] := t.(pc := Local.Outside, left := t.left + 1);
        case Spin =>
          if sense == t.mySense {
            threads[i] := t.(pc := Local.Outside, left := t.left + 1);
          }
      }
    }
  }
}
