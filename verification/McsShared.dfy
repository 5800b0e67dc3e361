/**
 The MCS tree barrier in shared memory (project2/omp/gtmp2.c), under sequential consistency.
 Every access to a field that another thread may access is one atomic step.
*/
module McsShared {
  import opened FairRuns
  import opened Refinement
  import opened Sums
  import opened HeapTrees
  import Spec = BarrierSpec

  // The unions of gtmp.h: four bytes that are also read and written as one word.
  datatype Bytes = Bytes(b0: int, b1: int, b2: int, b3: int)

  function Get(b: Bytes, k: nat): int {
    if k == 0 then b.b0 else if k == 1 then b.b1 else if k == 2 then b.b2 else b.b3
  }

  function Set(b: Bytes, k: nat, v: int): Bytes {
    if k == 0 then b.(b0 := v) else if k == 1 then b.(b1 := v) else if k == 2 then b.(b2 := v) else b.(b3 := v)
  }

  function Word(b: Bytes): int {
    b.b0 + 0x100 * b.b1 + 0x1_0000 * b.b2 + 0x100_0000 * b.b3
  }

  datatype BytePtr = NoByte | ByteAt(node: nat, slot: nat)
  datatype SensePtr = NoSense | SenseAt(node: nat)

  datatype Node = Node(
    parentPtr: BytePtr, wakeup0: SensePtr, wakeup1: SensePtr,
    sense: int, parentSense: int, hc: Bytes, cn: Bytes)

  datatype Pc = Outside | WaitChildren | Rearm | Signal | WaitParent | Wake0 | Wake1 | Flip

  // `entered` and `left` are history.
  datatype Thread = Thread(pc: Pc, entered: nat, left: nat)

  datatype State = State(nodes: seq<Node>, threads: seq<Thread>)

  function Wakeup(i: nat, k: nat, n: nat): SensePtr {
    if 2 * i + 1 + k < n then SenseAt(2 * i + 1 + k) else NoSense
  }

  function HasChild(i: nat, k: nat, n: nat): int {
    if 4 * i + 1 + k < n then 1 else 0
  }

  function ChildBytes(i: nat, n: nat): Bytes {
    Bytes(HasChild(i, 0, n), HasChild(i, 1, n), HasChild(i, 2, n), HasChild(i, 3, n))
  }

  function StartNode(i: nat, n: nat): Node {
    Node(if i == 0 then NoByte else ByteAt(Parent4(i), Slot4(i)),
         Wakeup(i, 0, n), Wakeup(i, 1, n), 1, 0, ChildBytes(i, n), ChildBytes(i, n))
  }

  function Start(n: nat): State {
    State(seq(n, i requires 0 <= i => StartNode(i, n)), seq(n, _ => Thread(Outside, 0, 0)))
  }

  function WriteSense(s: State, ptr: SensePtr, v: int): State {
    if ptr.SenseAt? && ptr.node < |s.nodes| then
      s.(nodes := s.nodes[ptr.node := s.nodes[ptr.node].(parentSense := v)])
    else s
  }

  function WriteByte(s: State, ptr: BytePtr, v: int): State {
    if ptr.ByteAt? && ptr.node < |s.nodes| then
      s.(nodes := s.nodes[ptr.node := s.nodes[ptr.node].(cn := Set(s.nodes[ptr.node].cn, ptr.slot, v))])
    else s
  }

  /** The next atomic action of thread `i`. */
  function Step(s: State, i: nat): State {
    if i >= |s.threads| || i >= |s.nodes| then s else
    var t, node := s.threads[i], s.nodes[i];
    match t.pc
    case Outside => Put(s, i, t.(pc := WaitChildren, entered := t.entered + 1))
    case WaitChildren => if Word(node.cn) != 0 then s else Put(s, i, t.(pc := Rearm))
    case Rearm =>
      Put(s.(nodes := s.nodes[i := node.(cn := node.hc)]), i,
        t.(pc := if node.parentPtr.NoByte? then Wake0 else Signal))
    case Signal => Put(WriteByte(s, node.parentPtr, 0), i, t.(pc := WaitParent))
    case WaitParent => if node.parentSense != node.sense then s else Put(s, i, t.(pc := Wake0))
    case Wake0 => Put(WriteSense(s, node.wakeup0, node.sense), i, t.(pc := Wake1))
    case Wake1 => Put(WriteSense(s, node.wakeup1, node.sense), i, t.(pc := Flip))
    case Flip =>
      Put(s.(nodes := s.nodes[i := node.(sense := if node.sense == 0 then 1 else 0)]), i,
        t.(pc := Outside, left := t.left + 1))
  }

  function Put(s: State, i: nat, t: Thread): State
    requires i < |s.threads|
  {
    s.(threads := s.threads[i := t])
  }

  // ---- counters read off the program counter

  function Parity(n: nat): int { n % 2 }

  /** Episodes for which the thread has reported its arrival (the root: seen all arrivals). */
  function Arrivals(t: Thread): nat {
    if t.pc in {WaitParent, Wake0, Wake1, Flip} then t.entered else t.left
  }

  /** Episodes for which the thread has re-armed its children's flags. */
  function Rearms(t: Thread): nat {
    if t.pc in {Signal, WaitParent, Wake0, Wake1, Flip} then t.entered else t.left
  }

  /** Episodes for which the thread has been woken. */
  function Woken(t: Thread): nat {
    if t.pc in {Wake0, Wake1, Flip} then t.entered else t.left
  }

  /** Episodes for which the thread has woken its k-th child. */
  function WakesMade(t: Thread, k: nat): nat {
    if t.pc == Flip || (t.pc == Wake1 && k == 0) then t.entered else t.left
  }

  // ---- what every reachable state satisfies

  predicate NodeOk(s: State, i: nat)
    requires i < |s.nodes| == |s.threads|
  {
    var node, t, n := s.nodes[i], s.threads[i], |s.nodes|;
    && node == StartNode(i, n).(sense := node.sense, parentSense := node.parentSense, cn := node.cn)
    && node.sense == Parity(t.left + 1)
    && (if t.pc == Outside then t.entered == t.left else t.entered == t.left + 1)
    && (i == 0 ==> t.pc != Signal && t.pc != WaitParent)
    && (forall k: nat :: k < 4 && HasChild(i, k, n) == 0 ==> Get(node.cn, k) == 0)
  }

  /** The flag that thread `c` clears in its parent says exactly whether `c` has arrived since the last re-arming. */
  predicate FlagOk(s: State, c: nat)
    requires 0 < c < |s.nodes| == |s.threads|
  {
    var p := Parent4(c);
    var r, a := Rearms(s.threads[p]), Arrivals(s.threads[c]);
    && r <= a <= r + 1
    && Get(s.nodes[p].cn, Slot4(c)) == (if a == r then 1 else 0)
    && (s.threads[p].pc == Rearm ==> a == r + 1)
  }

  /** The sense that the waker writes into node `c` counts, modulo 2, how often it has done so. */
  predicate WakeOk(s: State, c: nat)
    requires 0 < c < |s.nodes| == |s.threads|
  {
    var made := WakesMade(s.threads[Parent2(c)], Slot2(c));
    && Woken(s.threads[c]) <= made
    && s.nodes[c].parentSense == Parity(made)
  }

  ghost predicate Inv(s: State) {
    && 0 < |s.nodes| == |s.threads|
    && (forall i: nat :: i < |s.nodes| ==> NodeOk(s, i))
    && (forall c: nat :: 0 < c < |s.nodes| ==> FlagOk(s, c))
    && (forall c: nat :: 0 < c < |s.nodes| ==> WakeOk(s, c))
  }

  lemma StartInv(n: nat)
    requires n > 0
    ensures Inv(Start(n))
    ensures Spec.Init(Abs(Start(n)))
  {
    var s := Start(n);
    forall c: nat | 0 < c < n ensures FlagOk(s, c) {
      Up(c);
    }
  }

  /** Nobody arrives later than the root, which arrives after all of its subtree. */
  lemma {:induction false} RootArrivesLast(s: State, c: nat)
    requires Inv(s) && c < |s.threads|
    ensures Arrivals(s.threads[0]) <= Arrivals(s.threads[c])
  {
    if c > 0 {
      RootArrivesLast(s, Parent4(c));
      assert FlagOk(s, c);
      assert NodeOk(s, Parent4(c));
    }
  }

  /** Nobody is woken before the root. */
  lemma {:induction false} RootWakesFirst(s: State, c: nat)
    requires Inv(s) && c < |s.threads|
    ensures Woken(s.threads[c]) <= Woken(s.threads[0])
  {
    if c > 0 {
      RootWakesFirst(s, Parent2(c));
      assert WakeOk(s, c);
      assert NodeOk(s, Parent2(c));
    }
  }

  /** The whole argument in one line: being woken means that everybody has arrived. */
  lemma WokenAfterArrivals(s: State, i: nat, j: nat)
    requires Inv(s) && i < |s.threads| && j < |s.threads|
    ensures s.threads[i].left <= Woken(s.threads[i]) <= Arrivals(s.threads[j])
    ensures Arrivals(s.threads[j]) <= s.threads[j].entered <= s.threads[j].left + 1
  {
    RootArrivesLast(s, j);
    RootWakesFirst(s, i);
    assert NodeOk(s, 0) && NodeOk(s, i) && NodeOk(s, j);
  }

  /** A child reports only after its parent has re-armed: the flag that it clears is set. */
  lemma SignalFindsFlagSet(s: State, c: nat)
    requires Inv(s) && 0 < c < |s.threads| && s.threads[c].pc == Signal
    ensures Get(s.nodes[Parent4(c)].cn, Slot4(c)) == 1 && Rearms(s.threads[Parent4(c)]) == Arrivals(s.threads[c])
    ensures s.threads[Parent4(c)].pc != Rearm
  {
    WokenAfterArrivals(s, c, Parent4(c));
    assert FlagOk(s, c);
    assert NodeOk(s, Parent4(c)) && NodeOk(s, c);
  }

  /** Re-arming erases no arrival: every child has reported for this episode, and none for the next. */
  lemma RearmErasesNothing(s: State, c: nat)
    requires Inv(s) && 0 < c < |s.threads| && s.threads[Parent4(c)].pc == Rearm
    ensures Arrivals(s.threads[c]) == s.threads[Parent4(c)].entered
  {
    assert FlagOk(s, c);
    assert NodeOk(s, Parent4(c));
  }

  /** A waker overwrites no wakeup: the child has consumed every earlier one. */
  lemma WakeOverwritesNothing(s: State, c: nat)
    requires Inv(s) && 0 < c < |s.threads|
    requires s.threads[Parent2(c)].pc == (if Slot2(c) == 0 then Wake0 else Wake1)
    ensures Woken(s.threads[c]) == WakesMade(s.threads[Parent2(c)], Slot2(c)) == s.threads[Parent2(c)].left
    ensures s.threads[c].pc == WaitParent
  {
    var p := Parent2(c);
    WokenAfterArrivals(s, p, c);
    assert WakeOk(s, c);
    assert NodeOk(s, c) && NodeOk(s, p);
  }

  /** The spin on `parent_sense` ends exactly when the wakeup of this episode is there. */
  lemma SenseMeaning(s: State, c: nat)
    requires Inv(s) && 0 < c < |s.threads| && s.threads[c].pc == WaitParent
    ensures s.nodes[c].parentSense == s.nodes[c].sense <==>
      WakesMade(s.threads[Parent2(c)], Slot2(c)) == s.threads[c].entered
    ensures WakesMade(s.threads[Parent2(c)], Slot2(c)) <= s.threads[c].entered
  {
    var p := Parent2(c);
    WokenAfterArrivals(s, p, c);
    assert WakeOk(s, c);
    assert NodeOk(s, c) && NodeOk(s, p);
  }

  lemma GetSet(b: Bytes, k: nat, m: nat, v: int)
    requires k < 4 && m < 4
    ensures Get(Set(b, k, v), m) == if m == k then v else Get(b, m)
  {
  }

  lemma WordZero(b: Bytes)
    requires forall k: nat :: k < 4 ==> 0 <= Get(b, k) <= 1
    ensures Word(b) == 0 <==> forall k: nat :: k < 4 ==> Get(b, k) == 0
  {
    assert Get(b, 0) == b.b0 && Get(b, 1) == b.b1 && Get(b, 2) == b.b2 && Get(b, 3) == b.b3;
  }

  /** One flag of node `p`: cleared exactly when there is no such child or it has arrived. */
  lemma FlagMeaning(s: State, p: nat, k: nat)
    requires Inv(s) && p < |s.threads| && k < 4
    ensures 0 <= Get(s.nodes[p].cn, k) <= 1
    ensures Get(s.nodes[p].cn, k) == 0 <==>
      (4 * p + 1 + k < |s.threads| ==> Arrivals(s.threads[4 * p + 1 + k]) == Rearms(s.threads[p]) + 1)
  {
    Child4(p, k);
    assert NodeOk(s, p);
    if 4 * p + 1 + k < |s.threads| {
      assert FlagOk(s, 4 * p + 1 + k);
    } else {
      assert HasChild(p, k, |s.threads|) == 0;
    }
  }

  ghost predicate ChildrenArrived(s: State, p: nat)
    requires p < |s.threads|
  {
    forall c: nat :: 0 < c < |s.threads| && Parent4(c) == p ==> Arrivals(s.threads[c]) == Rearms(s.threads[p]) + 1
  }

  /** The word read of `cn` sees all four flags: zero exactly when all children have arrived. */
  lemma WordMeaning(s: State, p: nat)
    requires Inv(s) && p < |s.threads|
    ensures Word(s.nodes[p].cn) == 0 <==> ChildrenArrived(s, p)
  {
    var cn := s.nodes[p].cn;
    forall k: nat | k < 4 ensures 0 <= Get(cn, k) <= 1 { FlagMeaning(s, p, k); }
    WordZero(cn);
    if Word(cn) == 0 {
      forall c: nat | 0 < c < |s.threads| && Parent4(c) == p
        ensures Arrivals(s.threads[c]) == Rearms(s.threads[p]) + 1
      {
        Up(c);
        FlagMeaning(s, p, Slot4(c));
      }
    }
    if ChildrenArrived(s, p) {
      forall k: nat | k < 4 ensures Get(cn, k) == 0 {
        FlagMeaning(s, p, k);
        Child4(p, k);
      }
    }
  }

  lemma Others(s: State, i: nat)
    requires Inv(s)
    ensures |Step(s, i).threads| == |s.threads| && |Step(s, i).nodes| == |s.nodes|
    ensures forall j :: 0 <= j < |s.threads| && j != i ==> Step(s, i).threads[j] == s.threads[j]
    ensures forall j :: 0 <= j < |s.threads| ==> Step(s, i).threads[j].entered >= s.threads[j].entered
  {
  }

  lemma StepSense(s: State, i: nat, j: nat)
    requires Inv(s) && i < |s.threads| && j < |s.threads|
    ensures var node, node', t := s.nodes[j], Step(s, i).nodes[j], s.threads[i];
      && node' == node.(sense := node'.sense, parentSense := node'.parentSense, cn := node'.cn)
      && node'.sense == (if i == j && t.pc == Flip then Parity(t.left + 2) else node.sense)
  {
    assert NodeOk(s, i) && NodeOk(s, j);
  }

  lemma StepParentSense(s: State, i: nat, j: nat)
    requires Inv(s) && i < |s.threads| && j < |s.threads|
    ensures var node, node', t := s.nodes[j], Step(s, i).nodes[j], s.threads[i];
      node'.parentSense ==
        (if j > 0 && i == Parent2(j) && t.pc == (if Slot2(j) == 0 then Wake0 else Wake1) then Parity(t.entered)
         else node.parentSense)
  {
    assert NodeOk(s, i) && NodeOk(s, j);
    if j > 0 {
      Up(j);
    }
    Child2(i, 0);
    Child2(i, 1);
  }

  lemma StepFlags(s: State, i: nat, j: nat)
    requires Inv(s) && i < |s.threads| && j < |s.threads|
    ensures var node, node', t := s.nodes[j], Step(s, i).nodes[j], s.threads[i];
      node'.cn ==
        (if i == j && t.pc == Rearm then node.hc
         else if i > 0 && j == Parent4(i) && t.pc == Signal then Set(node.cn, Slot4(i), 0)
         else node.cn)
  {
    assert NodeOk(s, i) && NodeOk(s, j);
  }

  /** What a step does to the fields of node `j`. */
  lemma StepNode(s: State, i: nat, j: nat)
    requires Inv(s) && i < |s.threads| && j < |s.threads|
    ensures var node, node', t := s.nodes[j], Step(s, i).nodes[j], s.threads[i];
      && node' == node.(sense := node'.sense, parentSense := node'.parentSense, cn := node'.cn)
      && node'.sense == (if i == j && t.pc == Flip then Parity(t.left + 2) else node.sense)
      && node'.parentSense ==
        (if j > 0 && i == Parent2(j) && t.pc == (if Slot2(j) == 0 then Wake0 else Wake1) then Parity(t.entered)
         else node.parentSense)
      && node'.cn ==
        (if i == j && t.pc == Rearm then node.hc
         else if i > 0 && j == Parent4(i) && t.pc == Signal then Set(node.cn, Slot4(i), 0)
         else node.cn)
  {
    StepSense(s, i, j);
    StepParentSense(s, i, j);
    StepFlags(s, i, j);
  }

  lemma OwnThread(s: State, i: nat)
    requires Inv(s) && i < |s.threads|
    ensures |Step(s, i).threads| == |s.threads|
    ensures var t, t' := s.threads[i], Step(s, i).threads[i];
      && t'.left == t.left + (if t.pc == Flip then 1 else 0)
      && (if t'.pc == Outside then t'.entered == t'.left else t'.entered == t'.left + 1)
      && (i == 0 ==> t'.pc != Signal && t'.pc != WaitParent)
  {
    assert NodeOk(s, i);
  }

  lemma OwnFlags(s: State, i: nat)
    requires Inv(s) && i < |s.threads|
    ensures |Step(s, i).nodes| == |s.nodes|
    ensures forall k: nat :: k < 4 && HasChild(i, k, |s.nodes|) == 0 ==> Get(Step(s, i).nodes[i].cn, k) == 0
  {
    Others(s, i);
    StepNode(s, i, i);
    assert NodeOk(s, i);
  }

  lemma OwnStepNodeOk(s: State, i: nat)
    requires Inv(s) && i < |s.threads|
    ensures |Step(s, i).nodes| == |Step(s, i).threads| == |s.threads| && NodeOk(Step(s, i), i)
  {
    OwnThread(s, i);
    OwnFlags(s, i);
    StepNode(s, i, i);
    assert NodeOk(s, i);
  }

  lemma OtherStepNodeOk(s: State, i: nat, j: nat)
    requires Inv(s) && i < |s.threads| && j < |s.threads| && j != i
    ensures |Step(s, i).nodes| == |Step(s, i).threads| == |s.threads| && NodeOk(Step(s, i), j)
  {
    Others(s, i);
    StepNode(s, i, j);
    assert NodeOk(s, j);
  }

  lemma StepNodeOk(s: State, i: nat, j: nat)
    requires Inv(s) && i < |s.threads| && j < |s.threads|
    ensures |Step(s, i).nodes| == |Step(s, i).threads| == |s.threads| && NodeOk(Step(s, i), j)
  {
    if i == j { OwnStepNodeOk(s, i); } else { OtherStepNodeOk(s, i, j); }
  }

  lemma ChildStepFlagOk(s: State, c: nat)
    requires Inv(s) && 0 < c < |s.threads|
    ensures FlagOk(Step(s, c), c)
  {
    var p := Parent4(c);
    Up(c);
    Others(s, c);
    StepNode(s, c, p);
    assert FlagOk(s, c) && NodeOk(s, c);
    if s.threads[c].pc == Signal {
      SignalFindsFlagSet(s, c);
    }
  }

  lemma ParentStepFlagOk(s: State, c: nat)
    requires Inv(s) && 0 < c < |s.threads|
    ensures FlagOk(Step(s, Parent4(c)), c)
  {
    var p := Parent4(c);
    Up(c);
    Others(s, p);
    StepNode(s, p, p);
    assert FlagOk(s, c) && NodeOk(s, p);
    if s.threads[p].pc == WaitChildren {
      WordMeaning(s, p);
    }
  }

  lemma OtherStepFlagOk(s: State, i: nat, c: nat)
    requires Inv(s) && i < |s.threads| && 0 < c < |s.threads| && i != c && i != Parent4(c)
    ensures FlagOk(Step(s, i), c)
  {
    var p := Parent4(c);
    Up(c);
    Others(s, i);
    StepNode(s, i, p);
    assert FlagOk(s, c);
    if i > 0 && s.threads[i].pc == Signal && Parent4(i) == p {
      if Slot4(i) == Slot4(c) { SameChild4(i, c); }
      Up(i);
      GetSet(s.nodes[p].cn, Slot4(i), Slot4(c), 0);
    }
  }

  lemma StepFlagOk(s: State, i: nat, c: nat)
    requires Inv(s) && i < |s.threads| && 0 < c < |s.threads|
    ensures FlagOk(Step(s, i), c)
  {
    if i == c {
      ChildStepFlagOk(s, c);
    } else if i == Parent4(c) {
      ParentStepFlagOk(s, c);
    } else {
      OtherStepFlagOk(s, i, c);
    }
  }

  lemma StepWakeOk(s: State, i: nat, c: nat)
    requires Inv(s) && i < |s.threads| && 0 < c < |s.threads|
    ensures WakeOk(Step(s, i), c)
  {
    var p := Parent2(c);
    Up(c);
    Others(s, i);
    if i == c {
      WakeOkWoken(s, c);
    } else if i == p {
      WakeOkWaker(s, c);
    } else {
      StepParentSense(s, i, c);
      assert WakeOk(s, c);
    }
  }

  lemma WakeOkWoken(s: State, c: nat)
    requires Inv(s) && 0 < c < |s.threads|
    ensures WakeOk(Step(s, c), c)
  {
    Up(c);
    Others(s, c);
    StepParentSense(s, c, c);
    assert WakeOk(s, c) && NodeOk(s, c);
    if s.threads[c].pc == WaitParent {
      SenseMeaning(s, c);
    }
  }

  lemma WakeOkWaker(s: State, c: nat)
    requires Inv(s) && 0 < c < |s.threads|
    ensures WakeOk(Step(s, Parent2(c)), c)
  {
    var p := Parent2(c);
    Up(c);
    Others(s, p);
    StepParentSense(s, p, c);
    assert WakeOk(s, c) && NodeOk(s, p);
  }

  lemma StepInv(s: State, i: nat)
    requires Inv(s)
    ensures Inv(Step(s, i))
  {
    Others(s, i);
    if i < |s.threads| {
      forall j: nat | j < |s.threads| ensures NodeOk(Step(s, i), j) { StepNodeOk(s, i, j); }
      forall c: nat | 0 < c < |s.threads| ensures FlagOk(Step(s, i), c) { StepFlagOk(s, i, c); }
      forall c: nat | 0 < c < |s.threads| ensures WakeOk(Step(s, i), c) { StepWakeOk(s, i, c); }
    }
  }

  // ---- refinement of the abstract barrier

  ghost function Abs(s: State): Spec.Abstract<nat> {
    map i: nat | i < |s.threads| :: Spec.Participant(s.threads[i].entered, s.threads[i].left)
  }

  lemma StepRefines(s: State, i: nat)
    requires Inv(s)
    ensures Spec.Next(Abs(s), Abs(Step(s, i)), i)
  {
    Others(s, i);
    if i < |s.threads| {
      var a, t' := Abs(s), Step(s, i).threads[i];
      assert NodeOk(s, i);
      assert Abs(Step(s, i)) == a[i := Spec.Participant(t'.entered, t'.left)];
      if t'.left > s.threads[i].left {
        forall j | j in a ensures a[i].left < a[j].entered { WokenAfterArrivals(s, i, j); }
      }
      Spec.NextByCounters(a, i, Spec.Participant(t'.entered, t'.left));
    }
  }

  lemma SafeInv(s: State)
    requires Inv(s)
    ensures Spec.Safe(Abs(s))
  {
    forall i, j | i in Abs(s) && j in Abs(s) ensures Abs(s)[i].left <= Abs(s)[j].entered {
      WokenAfterArrivals(s, i, j);
    }
  }

  /** Every run is a behaviour of the specification, from its initial state on. */
  lemma RunRefines(n: nat, schedule: seq<nat>)
    requires n > 0
    ensures Inv(Run(Step, Start(n), schedule)) && Spec.Safe(Abs(Run(Step, Start(n), schedule)))
    ensures Spec.Behaviour(Trace(Step, Abs, Start(n), schedule), Movers(Self, schedule))
    ensures Trace(Step, Abs, Start(n), schedule)[|schedule|] == Abs(Run(Step, Start(n), schedule))
  {
    StartInv(n);
    forall s, l: nat | Inv(s) ensures Inv(Step(s, l)) && Spec.Next(Abs(s), Abs(Step(s, l)), Self(l)) {
      StepInv(s, l);
      StepRefines(s, l);
    }
    Refinement.RunRefines(Step, Self, Inv, Abs, Start(n), schedule);
  }

  lemma RunSafe(n: nat, schedule: seq<nat>)
    requires n > 0
    ensures var s := Run(Step, Start(n), schedule);
      && Inv(s) && Spec.Safe(Abs(s))
  {
    RunRefines(n, schedule);
  }

  // ---- progress

  ghost predicate AllEntered(s: State, e: nat) {
    forall i :: 0 <= i < |s.threads| ==> s.threads[i].entered >= e
  }

  ghost predicate AllLeft(s: State, e: nat) {
    forall i :: 0 <= i < |s.threads| ==> s.threads[i].left >= e
  }

  function Remaining(t: Thread, e: nat): nat {
    if t.left >= e then 0 else
    match t.pc
    case Outside => 8 case WaitChildren => 7 case Rearm => 6 case Signal => 5
    case WaitParent => 4 case Wake0 => 3 case Wake1 => 2 case Flip => 1
  }

  /** What an element still has to do. */
  function Todo(e: nat): Thread -> nat { (t: Thread) => Remaining(t, e) }

  function Work(s: State, e: nat): nat { Total(s.threads, Todo(e)) }

  lemma WorkZero(s: State, e: nat)
    ensures Work(s, e) == 0 <==> AllLeft(s, e)
  {
    TotalZero(s.threads, Todo(e));
  }

  predicate Enabled(s: State, i: nat, e: nat) {
    && i < |s.threads| && i < |s.nodes|
    && s.threads[i].left < e
    && (s.threads[i].pc == WaitChildren ==> Word(s.nodes[i].cn) == 0)
    && (s.threads[i].pc == WaitParent ==> s.nodes[i].parentSense == s.nodes[i].sense)
  }

  lemma StepEntered(s: State, i: nat, e: nat)
    requires Inv(s) && AllEntered(s, e)
    ensures AllEntered(Step(s, i), e)
  {
    Others(s, i);
  }

  lemma StepWork(s: State, i: nat, e: nat)
    requires Inv(s) && AllEntered(s, e)
    ensures if Enabled(s, i, e) then Work(Step(s, i), e) < Work(s, e) else Work(Step(s, i), e) == Work(s, e)
  {
    Others(s, i);
    if i < |s.threads| {
      assert NodeOk(s, i);
      TotalUpdate(s.threads, i, Step(s, i).threads[i], Todo(e));
      assert Step(s, i).threads == s.threads[i := Step(s, i).threads[i]];
    }
  }

  lemma StaysEnabled(s: State, i: nat, j: nat, e: nat)
    requires Inv(s) && Enabled(s, i, e) && j != i
    ensures Enabled(Step(s, j), i, e)
  {
    Others(s, j);
    if j < |s.threads| {
      StepInv(s, j);
      StepNode(s, j, i);
      if s.threads[i].pc == WaitChildren {
        WordMeaning(s, i);
        WordMeaning(Step(s, j), i);
        forall c: nat | 0 < c < |s.threads| && Parent4(c) == i
          ensures Arrivals(Step(s, j).threads[c]) == Rearms(s.threads[i]) + 1
        {
          assert FlagOk(Step(s, j), c) && FlagOk(s, c) && NodeOk(s, c);
        }
      } else if s.threads[i].pc == WaitParent {
        assert NodeOk(s, i);
        SenseMeaning(s, i);
        if j == Parent2(i) && s.threads[j].pc == (if Slot2(i) == 0 then Wake0 else Wake1) {
          WakeOverwritesNothing(s, i);
        }
      }
    }
  }

  /** The deepest thread that has not arrived has all its children's flags cleared. */
  lemma LastNotArrivedEnabled(s: State, e: nat, p: nat)
    requires Inv(s) && AllEntered(s, e) && p < |s.threads| && Arrivals(s.threads[p]) < e
    requires forall j :: p < j < |s.threads| ==> Arrivals(s.threads[j]) >= e
    ensures Enabled(s, p, e)
  {
    assert NodeOk(s, p);
    if s.threads[p].pc == WaitChildren {
      forall c: nat | 0 < c < |s.threads| && Parent4(c) == p
        ensures Arrivals(s.threads[c]) == Rearms(s.threads[p]) + 1
      {
        Up(c);
        assert FlagOk(s, c);
      }
      WordMeaning(s, p);
    }
  }

  /** With all arrived, the thread nearest the root that is still inside has been woken. */
  lemma FirstInsideEnabled(s: State, e: nat, p: nat)
    requires Inv(s) && AllEntered(s, e) && p < |s.threads| && s.threads[p].left < e
    requires Arrivals(s.threads[p]) >= e
    requires forall j :: 0 <= j < p ==> s.threads[j].left >= e
    ensures Enabled(s, p, e)
  {
    assert NodeOk(s, p);
    if s.threads[p].pc == WaitParent {
      Up(p);
      assert NodeOk(s, Parent2(p));
      SenseMeaning(s, p);
    }
  }

  lemma SomeoneEnabled(s: State, e: nat) returns (i: nat)
    requires Inv(s) && AllEntered(s, e) && Work(s, e) > 0
    ensures Enabled(s, i, e)
  {
    WorkZero(s, e);
    i := FindLast(s.threads, (t: Thread) => Arrivals(t) >= e);
    if i > 0 {
      i := i - 1;
      LastNotArrivedEnabled(s, e, i);
    } else {
      i := FindFirst(s.threads, (t: Thread) => t.left >= e);
      FirstInsideEnabled(s, e, i);
    }
  }

  /** Completion under every fair schedule, from every reachable state in which all have entered. */
  lemma EpisodeCompletes(s: State, e: nat, rounds: seq<seq<nat>>)
    requires Inv(s) && AllEntered(s, e)
    requires forall k, i: nat :: 0 <= k < |rounds| && i < |s.threads| ==> Scheduled(Self, rounds[k], i)
    requires Work(s, e) <= |rounds|
    ensures AllLeft(Run(Step, s, Flatten(rounds)), e)
  {
    var actor := (i: nat) => i < |s.threads|;
    var inv := (t: State) => Inv(t) && AllEntered(t, e) && |t.threads| == |s.threads|;
    var measure := (t: State) => Work(t, e);
    var enabled := (t: State, i: nat) => Enabled(t, i, e);
    forall t: State, l: nat | inv(t)
      ensures inv(Step(t, l)) && measure(Step(t, l)) <= measure(t)
      ensures enabled(t, l) ==> measure(Step(t, l)) < measure(t)
    {
      StepInv(t, l);
      Others(t, l);
      StepEntered(t, l, e);
      StepWork(t, l, e);
    }
    forall t: State, l: nat, a: nat | inv(t) && enabled(t, a) && l != a ensures enabled(Step(t, l), a) {
      StaysEnabled(t, a, l, e);
    }
    forall t: State | inv(t) && measure(t) > 0 ensures exists a :: actor(a) && enabled(t, a) {
      var a := SomeoneEnabled(t, e);
      assert actor(a) && enabled(t, a);
    }
    EachRunFinishes(Step, actor, inv, measure, enabled, s, rounds);
    WorkZero(Run(Step, s, Flatten(rounds)), e);
  }

  // ---- every episode

  lemma StepLeft(s: State, l: nat, e: nat)
    requires Inv(s) && AllLeft(s, e)
    ensures AllLeft(Step(s, l), e)
  {
    Others(s, l);
  }

  /** Whoever gets a turn after episode `e` is over has then entered the next one. */
  lemma TurnEnters(s: State, l: nat, e: nat)
    requires Inv(s) && AllLeft(s, e) && l < |s.threads|
    ensures |Step(s, l).threads| == |s.threads| && Step(s, l).threads[l].entered > e
  {
    Others(s, l);
    assert NodeOk(s, l);
  }

  lemma RoundEnters(s: State, e: nat, round: seq<nat>)
    requires Inv(s) && AllLeft(s, e)
    requires forall p: nat :: p < |s.threads| ==> Scheduled(Self, round, p)
    ensures AllEntered(Run(Step, s, round), e + 1)
  {
    var n := |s.threads|;
    var inv := (t: State) => Inv(t) && AllLeft(t, e) && |t.threads| == n;
    var has := (t: State, p: nat) => p < n && p < |t.threads| ==> t.threads[p].entered > e;
    forall t: State, l: nat | inv(t)
      ensures inv(Step(t, l)) && has(Step(t, l), l)
      ensures forall p: nat :: has(t, p) ==> has(Step(t, l), p)
    {
      StepInv(t, l);
      StepLeft(t, l, e);
      Others(t, l);
      if l < n { TurnEnters(t, l, e); }
    }
    RunKeeps(Step, inv, s, round);
    forall p: nat | p < n ensures Run(Step, s, round).threads[p].entered >= e + 1 {
      RoundDoes(Step, Self, inv, has, s, round, p);
    }
  }

  lemma WorkBound(s: State, e: nat)
    requires Inv(s)
    ensures Work(s, e) <= |s.threads| * 8
  {
    TotalAtMost(s.threads, Todo(e), 8);
  }

  ghost predicate InvFor(s: State, n: nat) {
    Inv(s) && |s.threads| == n
  }

  lemma RunInvFor(s: State, n: nat, schedule: seq<nat>)
    requires InvFor(s, n)
    ensures InvFor(Run(Step, s, schedule), n)
  {
    forall t: State, l: nat | InvFor(t, n) ensures InvFor(Step(t, l), n) {
      StepInv(t, l);
      Others(t, l);
    }
    RunKeeps(Step, t => InvFor(t, n), s, schedule);
  }

  /** One fair round makes all enter the next episode, and the others make them leave it. */
  lemma NextEpisode(s: State, n: nat, e: nat, rounds: seq<seq<nat>>)
    requires InvFor(s, n) && AllLeft(s, e)
    requires AllFair(FairFor(n), rounds) && |rounds| == n * 8 + 1
    ensures InvFor(Run(Step, s, Flatten(rounds)), n) && AllLeft(Run(Step, s, Flatten(rounds)), e + 1)
  {
    forall k, p: nat | 0 <= k < |rounds| && p < n ensures Scheduled(Self, rounds[k], p) {
      assert FairFor(n)(rounds[k]);
    }
    var t := Run(Step, s, rounds[0]);
    RoundEnters(s, e, rounds[0]);
    RunInvFor(s, n, rounds[0]);
    RunConcat(Step, s, rounds[0], Flatten(rounds[1..]));
    WorkBound(t, e + 1);
    EpisodeCompletes(t, e + 1, rounds[1..]);
    RunInvFor(t, n, Flatten(rounds[1..]));
  }

  ghost function FairFor(n: nat): seq<nat> -> bool {
    (round: seq<nat>) => AllScheduled(Self, n, round)
  }

  ghost function InvOf(n: nat): State -> bool {
    (s: State) => InvFor(s, n)
  }

  lemma EachEpisode(n: nat)
    ensures EpisodeFollows(Step, FairFor(n), InvOf(n), AllLeft, n * 8 + 1)
  {
    forall s: State, rounds: seq<seq<nat>>, e: nat
      | InvOf(n)(s) && AllLeft(s, e) && AllFair(FairFor(n), rounds) && |rounds| == n * 8 + 1
      ensures InvOf(n)(Run(Step, s, Flatten(rounds))) && AllLeft(Run(Step, s, Flatten(rounds)), e + 1)
    {
      NextEpisode(s, n, e, rounds);
    }
  }

  /** From the start, any number of episodes complete under every schedule that is fair for long enough. */
  lemma EveryEpisodeCompletes(n: nat, e: nat, rounds: seq<seq<nat>>)
    requires n > 0
    requires forall k, p: nat :: 0 <= k < |rounds| && p < n ==> Scheduled(Self, rounds[k], p)
    requires |rounds| == e * (n * 8 + 1)
    ensures AllLeft(Run(Step, Start(n), Flatten(rounds)), e)
  {
    StartInv(n);
    EachEpisode(n);
    EpisodesFinish(Step, FairFor(n), InvOf(n), AllLeft, n * 8 + 1, Start(n), e, rounds);
  }

  // ---- the program

  /** gtmp2.c: the array of nodes, and one program counter per thread. */
  class Barrier {
    const numThreads: nat
    const nodes: array<Node>
    const threads: array<Thread>

    ghost function View(): State
      reads nodes, threads
    {
      State(nodes[..], threads[..])
    }

    ghost predicate Valid() {
      nodes.Length == numThreads == threads.Length
    }

    /** gtmp_init: the loops that build the arrival tree and the wakeup tree. */
    constructor (n: nat)
      ensures Valid() && View() == Start(n) && fresh(nodes) && fresh(threads)
    {
      numThreads := n;
      nodes := new Node[n](_ => Node(NoByte, NoSense, NoSense, 0, 0, Bytes(0, 0, 0, 0), Bytes(0, 0, 0, 0)));
      threads := new Thread[n](_ => Thread(Outside, 0, 0));
      new;
      for i := 0 to n
        invariant forall m :: 0 <= m < i ==> nodes[m] == StartNode(m, n)
        invariant threads[..] == Start(n).threads
      {
        var flags := LinkChildren(i, n);
        var w0, w1 := LinkWakeups(i, n);
        var parentPtr := if i != 0 then ByteAt((i - 1) / 4, (i - 1) % 4) else NoByte;
        nodes[i] := Node(parentPtr, w0, w1, 1, 0, flags, flags);
      }
      assert nodes[..] == Start(n).nodes;
    }

    /** Lines 28-31: one flag for each child that exists. */
    static method LinkChildren(i: nat, n: nat) returns (flags: Bytes)
      ensures flags == ChildBytes(i, n)
    {
      flags := Bytes(0, 0, 0, 0);
      var j, k := i * 4 + 1, 0;
      while j < n && k < 4
        invariant k <= 4 && j == i * 4 + 1 + k
        invariant forall m: nat :: m < 4 ==> Get(flags, m) == (if m < k then HasChild(i, m, n) else 0)
      {
        forall m: nat | m < 4
          ensures Get(Set(flags, k, 1), m) == if m == k then 1 else Get(flags, m) { GetSet(flags, k, m, 1); }
        flags := Set(flags, k, 1);
        j, k := j + 1, k + 1;
      }
      assert forall m: nat :: m < 4 ==> Get(flags, m) == HasChild(i, m, n);
      assert Get(flags, 0) == flags.b0 && Get(flags, 1) == flags.b1 && Get(flags, 2) == flags.b2 &&
        Get(flags, 3) == flags.b3;
    }

    /** Lines 39-45: pointers to the binary children that exist, NULL for the others. */
    static method LinkWakeups(i: nat, n: nat) returns (w0: SensePtr, w1: SensePtr)
      ensures w0 == Wakeup(i, 0, n) && w1 == Wakeup(i, 1, n)
    {
      w0, w1 := NoSense, NoSense;
      var j, k := i * 2 + 1, 0;
      while j < n && k < 2
        invariant k <= 2 && j == i * 2 + 1 + k
        invariant w0 == (if 0 < k then Wakeup(i, 0, n) else NoSense)
        invariant w1 == (if 1 < k then Wakeup(i, 1, n) else NoSense)
      {
        if k == 0 { w0 := SenseAt(j); } else { w1 := SenseAt(j); }
        j, k := j + 1, k + 1;
      }
    }

    /** The scheduler lets thread `id` perform its next action on the shared nodes. */
    method Advance(id: nat)
      requires Valid() && id < numThreads
      modifies nodes, threads
      ensures Valid() && View() == Step(old(View()), id)
    {
      var t, node := threads[id], nodes[id];
      match t.pc {
        case Outside =>
          threads[id] := t.(pc := WaitChildren, entered := t.entered + 1);
        case WaitChildren =>
          if Word(node.cn) == 0 {
            threads[id] := t.(pc := Rearm);
          }
        case Rearm =>
          nodes[id] := node.(cn := node.hc);
          threads[id] := t.(pc := if node.parentPtr.NoByte? then Wake0 else Signal);
        case Signal =>
          var ptr := node.parentPtr;
          if ptr.ByteAt? && ptr.node < numThreads {
            nodes[ptr.node] := nodes[ptr.node].(cn := Set(nodes[ptr.node].cn, ptr.slot, 0));
          }
          threads[id] := t.(pc := WaitParent);
        case WaitParent =>
          if node.parentSense == node.sense {
            threads[id] := t.(pc := Wake0);
          }
        case Wake0 =>
          Wake(node.wakeup0, node.sense);
          threads[id] := t.(pc := Wake1);
        case Wake1 =>
          Wake(node.wakeup1, node.sense);
          threads[id] := t.(pc := Flip);
        case Flip =>
          nodes[id] := node.(sense := if node.sense == 0 then 1 else 0);
          threads[id] := t.(pc := Outside, left := t.left + 1);
      }
    }

    method Wake(ptr: SensePtr, sense: int)
      requires Valid()
      modifies nodes
      ensures View() == WriteSense(old(View()), ptr, sense)
    {
      if ptr.SenseAt? && ptr.node < numThreads {
        nodes[ptr.node] := nodes[ptr.node].(parentSense := sense);
      }
    }

    /** Any interleaving of any number of barrier calls, starting where the threads are now. */
    method Execute(schedule: seq<nat>)
      requires Valid() && Inv(View())
      requires forall k :: 0 <= k < |schedule| ==> schedule[k] < numThreads
      modifies nodes, threads
      ensures Valid() && View() == Run(Step, old(View()), schedule)
      ensures Inv(View()) && Spec.Safe(Abs(View()))
    {
      for k := 0 to |schedule|
        invariant Inv(View())
        invariant Run(Step, View(), schedule[k..]) == Run(Step, old(View()), schedule)
      {
        StepInv(View(), schedule[k]);
        assert schedule[k..][1..] == schedule[k + 1..];
        Advance(schedule[k]);
      }
      SafeInv(View());
    }
  }
}
