/**
 The MCS tree barrier over messages (project2/mpi/gtmpi2.c).  Arrivals and wakeups carry the same
 tag, and arrivals are received with MPI_ANY_SOURCE.
*/
module McsMessages {
  import opened FairRuns
  import opened Refinement
  import opened Sums
  import opened HeapTrees
  import Spec = BarrierSpec

  // Aborted: the assert on the source of an arrival (lines 28-29) has failed.
  datatype Pc = Outside | Gather(finished: nat) | SendUp | AwaitWake | WakeLoop(k: nat) | Aborted

  // `entered` and `left` are history.
  datatype Proc = Proc(pc: Pc, entered: nat, left: nat)

  // Messages are empty; kind and episode are history that no receiver looks at.
  datatype Message = Arrival(episode: nat) | Wakeup(episode: nat)

  // Channels are FIFO per (source, destination, tag); one that is not in the map is empty.
  // `consumed[c]` is history: how many arrivals of `c` its parent has received.
  datatype State = State(procs: seq<Proc>, channels: map<(nat, nat), seq<Message>>, consumed: seq<nat>)

  // The process that acts, and the source that its MPI_ANY_SOURCE receive takes first.
  type Label = (nat, nat)

  function Channel(s: State, from: nat, to: nat): seq<Message> {
    if (from, to) in s.channels then s.channels[(from, to)] else []
  }

  function SetChannel(s: State, from: nat, to: nat, msgs: seq<Message>): State {
    s.(channels := s.channels[(from, to) := msgs])
  }

  function Put(s: State, p: nat, pr: Proc): State
    requires p < |s.procs|
  {
    s.(procs := s.procs[p := pr])
  }

  /** Lines 16-22: the number of 4-ary children that exist. */
  function NumChildren(rank: nat, n: nat): nat {
    var rest := n - (rank * 4 + 1);
    if rest < 0 then 0 else if rest > 4 then 4 else rest
  }

  function Start(n: nat): State {
    State(seq(n, _ => Proc(Outside, 0, 0)), map[], seq(n, _ => 0))
  }

  /** The lowest source, from `x` on, that has a message for `p`; the number of processes if there is none. */
  function LowestSource(s: State, p: nat, x: nat): (r: nat)
    ensures x <= |s.procs| ==> x <= r <= |s.procs|
    ensures r < |s.procs| ==> Channel(s, r, p) != []
    ensures forall y: nat :: x <= y < r && y < |s.procs| ==> Channel(s, y, p) == []
    decreases |s.procs| - x
  {
    if x >= |s.procs| then x else if Channel(s, x, p) != [] then x else LowestSource(s, p, x + 1)
  }

  /** MPI_ANY_SOURCE: whatever source the label prefers, if it has sent something, or else any other. */
  function AnySource(s: State, p: nat, prefer: nat): nat {
    if prefer < |s.procs| && Channel(s, prefer, p) != [] then prefer else LowestSource(s, p, 0)
  }

  function Receive(s: State, from: nat, p: nat): State
    requires Channel(s, from, p) != []
  {
    SetChannel(s, from, p, Channel(s, from, p)[1..])
  }

  /** The next action of process `l.0`. */
  function Step(s: State, l: Label): State {
    var p, n := l.0, |s.procs|;
    if p >= n || |s.consumed| != n then s else
    var pr := s.procs[p];
    match pr.pc
    case Aborted => s
    case Outside => Put(s, p, pr.(pc := Gather(0), entered := pr.entered + 1))
    case Gather(finished) =>
      if finished < NumChildren(p, n) then
        var from := AnySource(s, p, l.1);
        if from >= n then s
        else
          var s' := Receive(s, from, p).(consumed := s.consumed[from := s.consumed[from] + 1]);
          if from >= 4 * p + 1 && from <= 4 * p + 1 + NumChildren(p, n)
          then Put(s', p, pr.(pc := Gather(finished + 1)))
          else Put(s', p, pr.(pc := Aborted))
      else Put(s, p, pr.(pc := if p != 0 then SendUp else WakeLoop(0)))
    case SendUp =>
      if p == 0 then s else
      var to := (p - 1) / 4;
      Put(SetChannel(s, p, to, Channel(s, p, to) + [Arrival(pr.entered)]), p, pr.(pc := AwaitWake))
    case AwaitWake =>
      if p == 0 || Channel(s, (p - 1) / 2, p) == [] then s
      else Put(Receive(s, (p - 1) / 2, p), p, pr.(pc := WakeLoop(0)))
    case WakeLoop(k) =>
      var to := 2 * p + 1 + k;
      if to < n && k < 2
      then Put(SetChannel(s, p, to, Channel(s, p, to) + [Wakeup(pr.entered)]), p, pr.(pc := WakeLoop(k + 1)))
      else Put(s, p, pr.(pc := Outside, left := pr.left + 1))
  }

  // ---- counters read off the program counter

  /** Episodes for which the process has sent its arrival (the root: received all arrivals). */
  function Arrivals(pr: Proc): nat {
    if pr.pc.AwaitWake? || pr.pc.WakeLoop? then pr.entered else pr.left
  }

  /** Episodes for which the process has received all its children's arrivals. */
  function Gathered(pr: Proc): nat {
    if pr.pc.SendUp? || pr.pc.AwaitWake? || pr.pc.WakeLoop? then pr.entered else pr.left
  }

  function Woken(pr: Proc): nat {
    if pr.pc.WakeLoop? then pr.entered else pr.left
  }

  function WakesMade(pr: Proc, k: nat): nat {
    if pr.pc.WakeLoop? && k < pr.pc.k then pr.entered else pr.left
  }

  // ---- what every reachable state satisfies

  function Got(s: State, p: nat, k: nat): int
    requires p < |s.procs| == |s.consumed|
  {
    if 4 * p + 1 + k < |s.procs| && s.consumed[4 * p + 1 + k] == s.procs[p].left + 1 then 1 else 0
  }

  predicate ProcOk(s: State, p: nat)
    requires p < |s.procs| == |s.consumed|
  {
    var pr := s.procs[p];
    && !pr.pc.Aborted?
    && (if pr.pc.Outside? then pr.entered == pr.left else pr.entered == pr.left + 1)
    && (p == 0 ==> !pr.pc.SendUp? && !pr.pc.AwaitWake?)
    && (pr.pc.Gather? ==> pr.pc.finished == Got(s, p, 0) + Got(s, p, 1) + Got(s, p, 2) + Got(s, p, 3))
    && (pr.pc.WakeLoop? ==> pr.pc.k <= 2)
  }

  function ArrivalTags(from: nat, to: nat): seq<Message>
    requires from <= to
  {
    seq(to - from, i requires 0 <= i => Arrival(from + 1 + i))
  }

  function WakeTags(from: nat, to: nat): seq<Message>
    requires from <= to
  {
    seq(to - from, i requires 0 <= i => Wakeup(from + 1 + i))
  }

  /** The channel from `c` up to its parent holds the arrivals sent and not yet received. */
  predicate UpOk(s: State, c: nat)
    requires 0 < c < |s.procs| == |s.consumed|
  {
    var p := Parent4(c);
    var g, used, a := Gathered(s.procs[p]), s.consumed[c], Arrivals(s.procs[c]);
    && (if s.procs[p].pc.Gather? then g <= used <= g + 1 else used == g)
    && used <= a
    && Channel(s, c, p) == ArrivalTags(used, a)
  }

  /** The channel down to `c` from its binary parent holds the wakeups sent and not yet received. */
  predicate DownOk(s: State, c: nat)
    requires 0 < c < |s.procs| == |s.consumed|
  {
    var p := Parent2(c);
    var w, made := Woken(s.procs[c]), WakesMade(s.procs[p], Slot2(c));
    w <= made && Channel(s, p, c) == WakeTags(w, made)
  }

  predicate OnTree(from: nat, to: nat) {
    (from > 0 && to == Parent4(from)) || (to > 0 && from == Parent2(to))
  }

  ghost predicate Inv(s: State) {
    && 0 < |s.procs| == |s.consumed|
    && (forall p: nat :: p < |s.procs| ==> ProcOk(s, p))
    && (forall c: nat :: 0 < c < |s.procs| ==> UpOk(s, c))
    && (forall c: nat :: 0 < c < |s.procs| ==> DownOk(s, c))
    && (forall x: nat, y: nat :: x < |s.procs| && y < |s.procs| && !OnTree(x, y) ==> Channel(s, x, y) == [])
  }

  lemma StartInv(n: nat)
    requires n > 0
    ensures Inv(Start(n))
    ensures Spec.Init(Abs(Start(n)))
  {
  }

  lemma {:induction false} RootArrivesLast(s: State, c: nat)
    requires Inv(s) && c < |s.procs|
    ensures Arrivals(s.procs[0]) <= Arrivals(s.procs[c])
  {
    if c > 0 {
      RootArrivesLast(s, Parent4(c));
      assert UpOk(s, c);
      assert ProcOk(s, Parent4(c));
    }
  }

  lemma {:induction false} RootWakesFirst(s: State, c: nat)
    requires Inv(s) && c < |s.procs|
    ensures Woken(s.procs[c]) <= Woken(s.procs[0])
  {
    if c > 0 {
      RootWakesFirst(s, Parent2(c));
      assert DownOk(s, c);
      assert ProcOk(s, Parent2(c));
    }
  }

  lemma WokenAfterArrivals(s: State, i: nat, j: nat)
    requires Inv(s) && i < |s.procs| && j < |s.procs|
    ensures s.procs[i].left <= Woken(s.procs[i]) <= Arrivals(s.procs[j]) <= s.procs[j].entered <= s.procs[j].left + 1
  {
    RootArrivesLast(s, j);
    RootWakesFirst(s, i);
    assert ProcOk(s, 0) && ProcOk(s, i) && ProcOk(s, j);
  }

  /**
   What MPI_ANY_SOURCE can deliver to a process in its arrival loop: only the arrival, for this very
   episode, of one of its own children that it has not heard of yet -- never a wakeup, never an
   arrival for the next episode, never anything from elsewhere.
  */
  lemma OnlyOwnArrivals(s: State, p: nat, from: nat)
    requires Inv(s) && p < |s.procs| && from < |s.procs|
    requires s.procs[p].pc.Gather? && Channel(s, from, p) != []
    ensures from > 0 && Parent4(from) == p && from == 4 * p + 1 + Slot4(from) && Slot4(from) < NumChildren(p, |s.procs|)
    ensures Channel(s, from, p) == [Arrival(s.procs[p].entered)]
    ensures s.consumed[from] == s.procs[p].left && Got(s, p, Slot4(from)) == 0
  {
    assert ProcOk(s, p);
    if p > 0 && from == Parent2(p) {
      assert DownOk(s, p);
      assert ProcOk(s, from);
      WokenAfterArrivals(s, from, p);
    }
    assert OnTree(from, p);
    Up(from);
    assert UpOk(s, from);
    WokenAfterArrivals(s, from, p);
    assert ProcOk(s, from);
  }

  /** When the loop has counted as many messages as there are children, every child has arrived. */
  lemma AllGathered(s: State, p: nat, c: nat)
    requires Inv(s) && p < |s.procs| && s.procs[p].pc.Gather? && s.procs[p].pc.finished >= NumChildren(p, |s.procs|)
    requires 0 < c < |s.procs| && Parent4(c) == p
    ensures s.consumed[c] == s.procs[p].entered
  {
    Up(c);
    assert ProcOk(s, p);
    assert Got(s, p, Slot4(c)) == 1;
  }

  /** And while it has not, some child is missing. */
  lemma SomeChildMissing(s: State, p: nat) returns (c: nat)
    requires Inv(s) && p < |s.procs| && s.procs[p].pc.Gather? && s.procs[p].pc.finished < NumChildren(p, |s.procs|)
    ensures 0 < c < |s.procs| && Parent4(c) == p && s.consumed[c] == s.procs[p].left
  {
    assert ProcOk(s, p);
    var k: nat :| k < 4 && 4 * p + 1 + k < |s.procs| && Got(s, p, k) == 0;
    c := 4 * p + 1 + k;
    Child4(p, k);
    assert UpOk(s, c);
  }

  // ---- what one step does

  lemma Others(s: State, l: Label)
    requires Inv(s)
    ensures |Step(s, l).procs| == |s.procs| && |Step(s, l).consumed| == |s.consumed|
    ensures forall j :: 0 <= j < |s.procs| && j != l.0 ==> Step(s, l).procs[j] == s.procs[j]
    ensures forall j :: 0 <= j < |s.procs| ==> Step(s, l).procs[j].entered >= s.procs[j].entered
  {
  }

  /** The receives and sends of one step, channel by channel. */
  lemma StepChannel(s: State, l: Label, x: nat, y: nat)
    requires Inv(s) && l.0 < |s.procs|
    ensures var p, pr := l.0, s.procs[l.0];
      var was, now := Channel(s, x, y), Channel(Step(s, l), x, y);
      match pr.pc
      case Gather(f) =>
        now == (if f < NumChildren(p, |s.procs|) && y == p &&
          x == AnySource(s, p, l.1) < |s.procs| then was[1..] else was)
      case SendUp => now == (if p > 0 && x == p && y == Parent4(p) then was + [Arrival(pr.entered)] else was)
      case AwaitWake => now == (if p > 0 && x == Parent2(p) && y == p && was != [] then was[1..] else was)
      case WakeLoop(k) =>
        now == (if x == p && y == 2 * p + 1 + k && y < |s.procs| && k < 2 then was + [Wakeup(pr.entered)] else was)
      case _ => now == was
  {
  }

  lemma GatherProc(s: State, l: Label)
    requires Inv(s) && l.0 < |s.procs| && s.procs[l.0].pc.Gather?
    ensures ProcOk(Step(s, l), l.0)
    ensures forall c: nat :: c < |s.procs| && !(c > 0 && Parent4(c) == l.0) ==> Step(s, l).consumed[c] == s.consumed[c]
  {
    var p := l.0;
    assert ProcOk(s, p);
    var from := AnySource(s, p, l.1);
    if s.procs[p].pc.finished < NumChildren(p, |s.procs|) && from < |s.procs| {
      OnlyOwnArrivals(s, p, from);
      GotStep(s, l, Slot4(from));
    }
  }

  /** Receiving from the k-th child adds that child, and no other, to those heard of. */
  lemma GotStep(s: State, l: Label, k: nat)
    requires Inv(s) && l.0 < |s.procs| && s.procs[l.0].pc.Gather?
    requires s.procs[l.0].pc.finished < NumChildren(l.0, |s.procs|) && AnySource(s, l.0, l.1) < |s.procs|
    requires AnySource(s, l.0, l.1) == 4 * l.0 + 1 + k && k < 4
    ensures forall m: nat :: m < 4 ==> Got(Step(s, l), l.0, m) == if m == k then 1 else Got(s, l.0, m)
  {
    OnlyOwnArrivals(s, l.0, AnySource(s, l.0, l.1));
  }

  lemma StepProcOk(s: State, l: Label, j: nat)
    requires Inv(s) && l.0 < |s.procs| && j < |s.procs|
    ensures ProcOk(Step(s, l), j)
  {
    Others(s, l);
    assert ProcOk(s, j);
    if s.procs[l.0].pc.Gather? {
      GatherProc(s, l);
      if j != l.0 {
        forall k: nat | k < 4 ensures Got(Step(s, l), j, k) == Got(s, j, k) { Child4(j, k); }
      }
    } else if j == l.0 && s.procs[j].pc.Outside? {
      forall k: nat | k < 4 ensures Got(s, j, k) == 0 {
        if 4 * j + 1 + k < |s.procs| {
          Child4(j, k);
          assert UpOk(s, 4 * j + 1 + k);
        }
      }
      assert forall k: nat :: k < 4 ==> Got(Step(s, l), j, k) == Got(s, j, k);
    } else {
      assert forall k: nat :: k < 4 ==> j != l.0 ==> Got(Step(s, l), j, k) == Got(s, j, k);
    }
  }

  lemma GatherUpOk(s: State, l: Label, c: nat)
    requires Inv(s) && l.0 < |s.procs| && 0 < c < |s.procs| && s.procs[l.0].pc.Gather?
    ensures UpOk(Step(s, l), c)
  {
    var p, from := l.0, AnySource(s, l.0, l.1);
    Others(s, l);
    Up(c);
    assert UpOk(s, c);
    StepChannel(s, l, c, Parent4(c));
    if s.procs[p].pc.finished < NumChildren(p, |s.procs|) {
      if from < |s.procs| {
        OnlyOwnArrivals(s, p, from);
      }
    } else if Parent4(c) == p {
      AllGathered(s, p, c);
    }
  }

  lemma StepUpOk(s: State, l: Label, c: nat)
    requires Inv(s) && l.0 < |s.procs| && 0 < c < |s.procs|
    ensures UpOk(Step(s, l), c)
  {
    if s.procs[l.0].pc.Gather? {
      GatherUpOk(s, l, c);
    } else {
      Others(s, l);
      Up(c);
      assert UpOk(s, c) && ProcOk(s, l.0);
      if l.0 > 0 { Up(l.0); }
      StepChannel(s, l, c, Parent4(c));
    }
  }

  lemma GatherDownOk(s: State, l: Label, c: nat)
    requires Inv(s) && l.0 < |s.procs| && 0 < c < |s.procs| && s.procs[l.0].pc.Gather?
    ensures DownOk(Step(s, l), c)
  {
    var p, from := l.0, AnySource(s, l.0, l.1);
    Others(s, l);
    Up(c);
    assert DownOk(s, c) && ProcOk(s, p);
    StepChannel(s, l, Parent2(c), c);
    if p == c && from < |s.procs| {
      OnlyOwnArrivals(s, p, from);
    }
  }

  lemma WakeDownOk(s: State, l: Label, c: nat)
    requires Inv(s) && l.0 < |s.procs| && 0 < c < |s.procs| && s.procs[l.0].pc.WakeLoop?
    ensures DownOk(Step(s, l), c)
  {
    Others(s, l);
    Up(c);
    assert DownOk(s, c) && ProcOk(s, l.0);
    StepChannel(s, l, Parent2(c), c);
  }

  lemma StepDownOk(s: State, l: Label, c: nat)
    requires Inv(s) && l.0 < |s.procs| && 0 < c < |s.procs|
    ensures DownOk(Step(s, l), c)
  {
    var p := l.0;
    if s.procs[p].pc.Gather? {
      GatherDownOk(s, l, c);
    } else if s.procs[p].pc.WakeLoop? {
      WakeDownOk(s, l, c);
    } else {
      Others(s, l);
      Up(c);
      if p > 0 { Up(p); }
      assert DownOk(s, c) && ProcOk(s, p);
      StepChannel(s, l, Parent2(c), c);
    }
  }

  lemma StepQuiet(s: State, l: Label, x: nat, y: nat)
    requires Inv(s) && l.0 < |s.procs| && x < |s.procs| && y < |s.procs| && !OnTree(x, y)
    ensures Channel(Step(s, l), x, y) == []
  {
    var p := l.0;
    StepChannel(s, l, x, y);
    var from := AnySource(s, p, l.1);
    if s.procs[p].pc.WakeLoop? && s.procs[p].pc.k < 2 {
      Child2(p, s.procs[p].pc.k);
    }
  }

  lemma StepInv(s: State, l: Label)
    requires Inv(s)
    ensures Inv(Step(s, l))
  {
    Others(s, l);
    if l.0 < |s.procs| {
      forall j: nat | j < |s.procs| ensures ProcOk(Step(s, l), j) { StepProcOk(s, l, j); }
      forall c: nat | 0 < c < |s.procs| ensures UpOk(Step(s, l), c) { StepUpOk(s, l, c); }
      forall c: nat | 0 < c < |s.procs| ensures DownOk(Step(s, l), c) { StepDownOk(s, l, c); }
      forall x: nat, y: nat | x < |s.procs| && y < |s.procs| && !OnTree(x, y) ensures Channel(Step(s, l), x, y) == [] {
        StepQuiet(s, l, x, y);
      }
    }
  }

  // ---- refinement of the abstract barrier

  ghost function Abs(s: State): Spec.Abstract<nat> {
    map i: nat | i < |s.procs| :: Spec.Participant(s.procs[i].entered, s.procs[i].left)
  }

  lemma StepRefines(s: State, l: Label)
    requires Inv(s)
    ensures Spec.Next(Abs(s), Abs(Step(s, l)), l.0)
  {
    Others(s, l);
    var i := l.0;
    if i < |s.procs| {
      var a, pr' := Abs(s), Step(s, l).procs[i];
      assert ProcOk(s, i);
      assert Abs(Step(s, l)) == a[i := Spec.Participant(pr'.entered, pr'.left)];
      if pr'.left > s.procs[i].left {
        forall j | j in a ensures a[i].left < a[j].entered { WokenAfterArrivals(s, i, j); }
      }
      Spec.NextByCounters(a, i, Spec.Participant(pr'.entered, pr'.left));
    }
  }

  lemma SafeInv(s: State)
    requires Inv(s)
    ensures Spec.Safe(Abs(s))
    ensures forall p :: 0 <= p < |s.procs| ==> !s.procs[p].pc.Aborted?
  {
    forall i, j | i in Abs(s) && j in Abs(s) ensures Abs(s)[i].left <= Abs(s)[j].entered {
      WokenAfterArrivals(s, i, j);
    }
    forall p: nat | p < |s.procs| ensures !s.procs[p].pc.Aborted? {
      assert ProcOk(s, p);
    }
  }

  /** Every run is a behaviour of the specification, from its initial state on. */
  lemma RunRefines(n: nat, schedule: seq<Label>)
    requires n > 0
    ensures Inv(Run(Step, Start(n), schedule)) && Spec.Safe(Abs(Run(Step, Start(n), schedule)))
    ensures Spec.Behaviour(Trace(Step, Abs, Start(n), schedule), Movers(Rank, schedule))
    ensures Trace(Step, Abs, Start(n), schedule)[|schedule|] == Abs(Run(Step, Start(n), schedule))
  {
    StartInv(n);
    forall s, l: Label | Inv(s) ensures Inv(Step(s, l)) && Spec.Next(Abs(s), Abs(Step(s, l)), Rank(l)) {
      StepInv(s, l);
      StepRefines(s, l);
    }
    Refinement.RunRefines(Step, Rank, Inv, Abs, Start(n), schedule);
  }

  /** Every run is safe and no assert ever fails. */
  lemma RunSafe(n: nat, schedule: seq<Label>)
    requires n > 0
    ensures var s := Run(Step, Start(n), schedule);
      && Inv(s) && Spec.Safe(Abs(s))
      && forall p :: 0 <= p < |s.procs| ==> !s.procs[p].pc.Aborted?
  {
    RunRefines(n, schedule);
    SafeInv(Run(Step, Start(n), schedule));
  }

  // ---- progress

  ghost predicate AllEntered(s: State, e: nat) {
    forall i :: 0 <= i < |s.procs| ==> s.procs[i].entered >= e
  }

  ghost predicate AllLeft(s: State, e: nat) {
    forall i :: 0 <= i < |s.procs| ==> s.procs[i].left >= e
  }

  function Remaining(pr: Proc, e: nat): nat {
    if pr.left >= e then 0 else
    match pr.pc
    case Outside => 11
    case Gather(f) => if f <= 4 then 10 - f else 6
    case SendUp => 5
    case AwaitWake => 4
    case WakeLoop(k) => if k <= 2 then 3 - k else 1
    case Aborted => 1
  }

  /** What an element still has to do. */
  function Todo(e: nat): Proc -> nat { (pr: Proc) => Remaining(pr, e) }

  function Work(s: State, e: nat): nat { Total(s.procs, Todo(e)) }

  lemma WorkZero(s: State, e: nat)
    ensures Work(s, e) == 0 <==> AllLeft(s, e)
  {
    TotalZero(s.procs, Todo(e));
  }

  predicate Enabled(s: State, p: nat, e: nat) {
    && p < |s.procs|
    && s.procs[p].left < e
    && (s.procs[p].pc.Gather? && s.procs[p].pc.finished < NumChildren(p, |s.procs|) ==>
       LowestSource(s, p, 0) < |s.procs|)
    && (s.procs[p].pc.AwaitWake? && p > 0 ==> Channel(s, Parent2(p), p) != [])
  }

  lemma StepEntered(s: State, l: Label, e: nat)
    requires Inv(s) && AllEntered(s, e)
    ensures AllEntered(Step(s, l), e)
  {
    Others(s, l);
  }

  lemma StepRemaining(s: State, l: Label, e: nat)
    requires Inv(s) && AllEntered(s, e) && l.0 < |s.procs|
    ensures var r, r' := Remaining(s.procs[l.0], e), Remaining(Step(s, l).procs[l.0], e);
      if Enabled(s, l.0, e) then r' < r else r' == r
  {
    assert ProcOk(s, l.0);
    StepInv(s, l);
    assert ProcOk(Step(s, l), l.0);
  }

  lemma StepWork(s: State, l: Label, e: nat)
    requires Inv(s) && AllEntered(s, e)
    ensures if Enabled(s, l.0, e) then Work(Step(s, l), e) < Work(s, e) else Work(Step(s, l), e) == Work(s, e)
  {
    Others(s, l);
    if l.0 < |s.procs| {
      StepRemaining(s, l, e);
      TotalUpdate(s.procs, l.0, Step(s, l).procs[l.0], Todo(e));
      assert Step(s, l).procs == s.procs[l.0 := Step(s, l).procs[l.0]];
    }
  }

  lemma StaysEnabled(s: State, p: nat, l: Label, e: nat)
    requires Inv(s) && Enabled(s, p, e) && l.0 != p
    ensures Enabled(Step(s, l), p, e)
  {
    Others(s, l);
    if l.0 < |s.procs| {
      var x := if s.procs[p].pc.Gather? then LowestSource(s, p, 0) else if p > 0 then Parent2(p) else 0;
      StepChannel(s, l, x, p);
    }
  }

  /** A missing child that has arrived has its message waiting. */
  lemma LastNotArrivedEnabled(s: State, e: nat, p: nat)
    requires Inv(s) && AllEntered(s, e) && p < |s.procs| && Arrivals(s.procs[p]) < e
    requires forall j :: p < j < |s.procs| ==> Arrivals(s.procs[j]) >= e
    ensures Enabled(s, p, e)
  {
    assert ProcOk(s, p);
    if s.procs[p].pc.Gather? && s.procs[p].pc.finished < NumChildren(p, |s.procs|) {
      var c := SomeChildMissing(s, p);
      Up(c);
      assert UpOk(s, c);
      assert Channel(s, c, p) != [];
    }
  }

  lemma FirstInsideEnabled(s: State, e: nat, p: nat)
    requires Inv(s) && AllEntered(s, e) && p < |s.procs| && s.procs[p].left < e && Arrivals(s.procs[p]) >= e
    requires forall j :: 0 <= j < p ==> s.procs[j].left >= e
    ensures Enabled(s, p, e)
  {
    assert ProcOk(s, p);
    if s.procs[p].pc.AwaitWake? && p > 0 {
      Up(p);
      assert ProcOk(s, Parent2(p));
      assert DownOk(s, p);
    }
  }

  lemma SomeoneEnabled(s: State, e: nat) returns (p: nat)
    requires Inv(s) && AllEntered(s, e) && Work(s, e) > 0
    ensures Enabled(s, p, e)
  {
    WorkZero(s, e);
    p := FindLast(s.procs, (t: Proc) => Arrivals(t) >= e);
    if p > 0 {
      p := p - 1;
      LastNotArrivedEnabled(s, e, p);
    } else {
      p := FindFirst(s.procs, (t: Proc) => t.left >= e);
      FirstInsideEnabled(s, e, p);
    }
  }

  function Rank(l: Label): nat { l.0 }

  /** Completion under every fair schedule, whatever sources MPI_ANY_SOURCE picks. */
  lemma EpisodeCompletes(s: State, e: nat, rounds: seq<seq<Label>>)
    requires Inv(s) && AllEntered(s, e)
    requires forall k, p: nat :: 0 <= k < |rounds| && p < |s.procs| ==> Scheduled(Rank, rounds[k], p)
    requires Work(s, e) <= |rounds|
    ensures AllLeft(Run(Step, s, Flatten(rounds)), e)
  {
    var actor := (p: nat) => p < |s.procs|;
    var inv := (t: State) => Inv(t) && AllEntered(t, e) && |t.procs| == |s.procs|;
    var measure := (t: State) => Work(t, e);
    var enabled := (t: State, p: nat) => Enabled(t, p, e);
    forall t: State, l: Label | inv(t)
      ensures inv(Step(t, l)) && measure(Step(t, l)) <= measure(t)
      ensures enabled(t, Rank(l)) ==> measure(Step(t, l)) < measure(t)
    {
      StepInv(t, l);
      Others(t, l);
      StepEntered(t, l, e);
      StepWork(t, l, e);
    }
    forall t: State, l: Label, a: nat | inv(t) && enabled(t, a) && Rank(l) != a ensures enabled(Step(t, l), a) {
      StaysEnabled(t, a, l, e);
    }
    forall t: State | inv(t) && measure(t) > 0 ensures exists a :: actor(a) && enabled(t, a) {
      var a := SomeoneEnabled(t, e);
      assert actor(a) && enabled(t, a);
    }
    FairRunFinishes(Step, Rank, actor, inv, measure, enabled, s, rounds);
    WorkZero(Run(Step, s, Flatten(rounds)), e);
  }

  // ---- every episode

  lemma StepLeft(s: State, l: Label, e: nat)
    requires Inv(s) && AllLeft(s, e)
    ensures AllLeft(Step(s, l), e)
  {
    Others(s, l);
  }

  /** Whoever gets a turn after episode `e` is over has then entered the next one. */
  lemma TurnEnters(s: State, l: Label, e: nat)
    requires Inv(s) && AllLeft(s, e) && l.0 < |s.procs|
    ensures |Step(s, l).procs| == |s.procs| && Step(s, l).procs[l.0].entered > e
  {
    Others(s, l);
    assert ProcOk(s, l.0);
  }

  lemma RoundEnters(s: State, e: nat, round: seq<Label>)
    requires Inv(s) && AllLeft(s, e)
    requires forall p: nat :: p < |s.procs| ==> Scheduled(Rank, round, p)
    ensures AllEntered(Run(Step, s, round), e + 1)
  {
    var n := |s.procs|;
    var inv := (t: State) => Inv(t) && AllLeft(t, e) && |t.procs| == n;
    var has := (t: State, p: nat) => p < n && p < |t.procs| ==> t.procs[p].entered > e;
    forall t: State, l: Label | inv(t)
      ensures inv(Step(t, l)) && has(Step(t, l), Rank(l))
      ensures forall p: nat :: has(t, p) ==> has(Step(t, l), p)
    {
      StepInv(t, l);
      StepLeft(t, l, e);
      Others(t, l);
      if l.0 < n { TurnEnters(t, l, e); }
    }
    RunKeeps(Step, inv, s, round);
    forall p: nat | p < n ensures Run(Step, s, round).procs[p].entered >= e + 1 {
      RoundDoes(Step, Rank, inv, has, s, round, p);
    }
  }

  lemma WorkBound(s: State, e: nat)
    requires Inv(s)
    ensures Work(s, e) <= |s.procs| * 11
  {
    TotalAtMost(s.procs, Todo(e), 11);
  }

  ghost predicate InvFor(s: State, n: nat) {
    Inv(s) && |s.procs| == n
  }

  lemma RunInvFor(s: State, n: nat, schedule: seq<Label>)
    requires InvFor(s, n)
    ensures InvFor(Run(Step, s, schedule), n)
  {
    forall t: State, l: Label | InvFor(t, n) ensures InvFor(Step(t, l), n) {
      StepInv(t, l);
      Others(t, l);
    }
    RunKeeps(Step, t => InvFor(t, n), s, schedule);
  }

  /** One fair round makes all enter the next episode, and the others make them leave it. */
  lemma NextEpisode(s: State, n: nat, e: nat, rounds: seq<seq<Label>>)
    requires InvFor(s, n) && AllLeft(s, e)
    requires AllFair(FairFor(n), rounds) && |rounds| == n * 11 + 1
    ensures InvFor(Run(Step, s, Flatten(rounds)), n) && AllLeft(Run(Step, s, Flatten(rounds)), e + 1)
  {
    forall k, p: nat | 0 <= k < |rounds| && p < n ensures Scheduled(Rank, rounds[k], p) {
      assert FairFor(n)(rounds[k]);
    }
    var t := Run(Step, s, rounds[0]);
    RoundEnters(s, e, rounds[0]);
    RunInvFor(s, n, rounds[0]);
    RunConcat(Step, s, rounds[0], Flatten(rounds[1..]));
    WorkBound(t, e + 1);
    EpisodeCompletes(t, e + 1, rounds[1..]);
    RunInvFor(t, n, Flatten(rounds[1..]));
  }

  ghost function FairFor(n: nat): seq<Label> -> bool {
    (round: seq<Label>) => AllScheduled(Rank, n, round)
  }

  ghost function InvOf(n: nat): State -> bool {
    (s: State) => InvFor(s, n)
  }

  lemma EachEpisode(n: nat)
    ensures EpisodeFollows(Step, FairFor(n), InvOf(n), AllLeft, n * 11 + 1)
  {
    forall s: State, rounds: seq<seq<Label>>, e: nat
      | InvOf(n)(s) && AllLeft(s, e) && AllFair(FairFor(n), rounds) && |rounds| == n * 11 + 1
      ensures InvOf(n)(Run(Step, s, Flatten(rounds))) && AllLeft(Run(Step, s, Flatten(rounds)), e + 1)
    {
      NextEpisode(s, n, e, rounds);
    }
  }

  /** From the start, any number of episodes complete under every schedule that is fair for long enough. */
  lemma EveryEpisodeCompletes(n: nat, e: nat, rounds: seq<seq<Label>>)
    requires n > 0
    requires forall k, p: nat :: 0 <= k < |rounds| && p < n ==> Scheduled(Rank, rounds[k], p)
    requires |rounds| == e * (n * 11 + 1)
    ensures AllLeft(Run(Step, Start(n), Flatten(rounds)), e)
  {
    StartInv(n);
    EachEpisode(n);
    EpisodesFinish(Step, FairFor(n), InvOf(n), AllLeft, n * 11 + 1, Start(n), e, rounds);
  }

  // ---- the program

  /** gtmpi2.c: every process's place in the barrier, and the messages in transit. */
  class World {
    const numProcesses: nat
    const procs: array<Proc>
    var channels: map<(nat, nat), seq<Message>>
    var consumed: seq<nat>

    ghost function View(): State
      reads this, procs
    {
      State(procs[..], channels, consumed)
    }

    ghost predicate Valid()
      reads this
    {
      procs.Length == numProcesses == |consumed|
    }

    constructor (n: nat)
      ensures Valid() && View() == Start(n) && fresh(procs)
    {
      numProcesses := n;
      procs := new Proc[n](_ => Proc(Outside, 0, 0));
      channels := map[];
      consumed := seq(n, _ => 0);
      new;
      assert procs[..] == Start(n).procs;
    }

    method Isend(from: nat, to: nat, m: Message)
      modifies `channels
      ensures View() == SetChannel(old(View()), from, to, Channel(old(View()), from, to) + [m])
    {
      var queued := if (from, to) in channels then channels[(from, to)] else [];
      channels := channels[(from, to) := queued + [m]];
    }

    /** MPI_ANY_SOURCE: the preferred source if it has sent something, otherwise the lowest one that has. */
    method FindSource(rank: nat, prefer: nat) returns (from: nat)
      requires Valid()
      ensures from == AnySource(View(), rank, prefer)
    {
      if prefer < numProcesses && (prefer, rank) in channels && channels[(prefer, rank)] != [] {
        return prefer;
      }
      from := 0;
      while from < numProcesses && !((from, rank) in channels && channels[(from, rank)] != [])
        invariant from <= numProcesses
        invariant LowestSource(View(), rank, 0) == LowestSource(View(), rank, from)
      {
        from := from + 1;
      }
    }

    /** The scheduler lets process `rank` perform its next action. */
    method Advance(rank: nat, prefer: nat)
      requires Valid() && rank < numProcesses
      modifies this, procs
      ensures Valid() && View() == Step(old(View()), (rank, prefer))
    {
      var pr := procs[rank];
      match pr.pc {
        case Outside =>
          procs[rank] := pr.(pc := Gather(0), entered := pr.entered + 1);
        case Gather(finished) =>
          var firstChild := rank * 4 + 1;
          var numChildren := numProcesses - firstChild;
          if numChildren < 0 {
            numChildren := 0;
          } else if numChildren > 4 {
            numChildren := 4;
          }
          if finished < numChildren {
            var source := FindSource(rank, prefer);
            if source < numProcesses {
              channels := channels[(source, rank) := channels[(source, rank)][1..]];
              consumed := consumed[source := consumed[source] + 1];
              var asserted := source >= firstChild && source <= firstChild + numChildren;
              procs[rank] := pr.(pc := if asserted then Gather(finished + 1) else Aborted);
            }
          } else {
            procs[rank] := pr.(pc := if rank != 0 then SendUp else WakeLoop(0));
          }
        case SendUp =>
          if rank != 0 {
            Isend(rank, (rank - 1) / 4, Arrival(pr.entered));
            procs[rank] := pr.(pc := AwaitWake);
          }
        case AwaitWake =>
          if rank != 0 {
            var source := (rank - 1) / 2;
            if (source, rank) in channels && channels[(source, rank)] != [] {
              channels := channels[(source, rank) := channels[(source, rank)][1..]];
              procs[rank] := pr.(pc := WakeLoop(0));
            }
          }
        case WakeLoop(k) =>
          var i := rank * 2 + 1 + k;
          if i < numProcesses && k < 2 {
            Isend(rank, i, Wakeup(pr.entered));
            procs[rank] := pr.(pc := WakeLoop(k + 1));
          } else {
            procs[rank] := pr.(pc := Outside, left := pr.left + 1);
          }
        case Aborted =>
      }
    }

    /** Any interleaving of any number of barrier calls, starting where the processes are now. */
    method Execute(schedule: seq<Label>)
      requires Valid() && Inv(View())
      requires forall k :: 0 <= k < |schedule| ==> schedule[k].0 < numProcesses
      modifies this, procs
      ensures Valid() && View() == Run(Step, old(View()), schedule)
      ensures Inv(View()) && Spec.Safe(Abs(View()))
    {
      for k := 0 to |schedule|
        invariant Valid() && Inv(View())
        invariant Run(Step, View(), schedule[k..]) == Run(Step, old(View()), schedule)
      {
        StepInv(View(), schedule[k]);
        assert schedule[k..][1..] == schedule[k + 1..];
        assert schedule[k] == (schedule[k].0, schedule[k].1);
        Advance(schedule[k].0, schedule[k].1);
      }
      SafeInv(View());
    }
  }
}
