/**
 The dissemination barrier over messages (project2/mpi/gtmpi1.c).  In round r process p sends to
 p + 2^r and then waits for a message from p - 2^r, all with one and the same tag.
*/
module Dissemination {
  import opened FairRuns
  import opened Refinement
  import opened Sums
  import opened RingArithmetic
  import Spec = BarrierSpec

  datatype Pc = Outside | Sending(round: nat) | Receiving(round: nat)

  // `entered` and `left` are history.
  datatype Proc = Proc(pc: Pc, entered: nat, left: nat)

  // A message has no payload; round and episode are history that no receiver looks at.
  datatype Message = Message(round: nat, episode: nat)

  // MPI delivers the messages of one (source, destination, tag) in the order in which they were
  // sent (section 3.5 of MPI-3.1); a channel that is not in the map is empty.
  datatype State = State(procs: seq<Proc>, channels: map<(int, int), seq<Message>>)

  function Channel(s: State, from: int, to: int): seq<Message> {
    if (from, to) in s.channels then s.channels[(from, to)] else []
  }

  function Start(n: nat): State {
    State(seq(n, _ => Proc(Outside, 0, 0)), map[])
  }

  /** The next action of process `p`; a receive waits for a message on its channel. */
  function Step(s: State, p: nat): State {
    var n := |s.procs|;
    if p >= n then s else
    var pr := s.procs[p];
    match pr.pc
    case Outside => Put(s, p, pr.(pc := Sending(0), entered := pr.entered + 1))
    case Sending(r) =>
      if r >= CeilLog2(n) then Put(s, p, pr.(pc := Outside, left := pr.left + 1))
      else
        var to := SendTo(p, r, n);
        var msgs := Channel(s, p, to) + [Message(r, pr.entered)];
        Put(s.(channels := s.channels[(p, to) := msgs]), p, pr.(pc := Receiving(r)))
    case Receiving(r) =>
      var from := RecvFrom(p, r, n);
      var msgs := Channel(s, from, p);
      if msgs == [] then s
      else Put(s.(channels := s.channels[(from, p) := msgs[1..]]), p, pr.(pc := Sending(r + 1)))
  }

  function Put(s: State, p: nat, pr: Proc): State
    requires p < |s.procs|
  {
    s.(procs := s.procs[p := pr])
  }

  // ---- what every reachable state satisfies

  predicate ProcOk(pr: Proc, rounds: nat) {
    match pr.pc
    case Outside => pr.entered == pr.left
    case Sending(r) => pr.entered == pr.left + 1 && r <= rounds
    case Receiving(r) => pr.entered == pr.left + 1 && r < rounds
  }

  /** The number of messages that the process has sent in round `r`, over all episodes. */
  function Sent(pr: Proc, r: nat): nat {
    if (pr.pc.Sending? && r < pr.pc.round) || (pr.pc.Receiving? && r <= pr.pc.round) then pr.entered else pr.left
  }

  /** The number of messages that the process has received in round `r`, over all episodes. */
  function Received(pr: Proc, r: nat): nat {
    if !pr.pc.Outside? && r < pr.pc.round then pr.entered else pr.left
  }

  function Tags(r: nat, from: nat, to: nat): seq<Message>
    requires from <= to
  {
    seq(to - from, i requires 0 <= i => Message(r, from + 1 + i))
  }

  /** The channel of round `r` out of `p` holds exactly what was sent and not yet received, in order. */
  ghost predicate ChannelOk(s: State, p: nat, r: nat)
    requires p < |s.procs| && r < CeilLog2(|s.procs|)
  {
    var to := SendTo(p, r, |s.procs|);
    && 0 <= to < |s.procs|
    && Received(s.procs[to], r) <= Sent(s.procs[p], r)
    && Channel(s, p, to) == Tags(r, Received(s.procs[to], r), Sent(s.procs[p], r))
  }

  /** The 2^k processes that end at `p` on the ring have all entered episode `e`. */
  ghost predicate Knows(s: State, p: nat, k: nat, e: nat) {
    forall d: nat :: d < Pow2(k) && |s.procs| > 0 ==> s.procs[Back(p, d, |s.procs|)].entered >= e
  }

  ghost predicate KnowsOk(s: State, p: nat)
    requires p < |s.procs|
  {
    !s.procs[p].pc.Outside? ==> Knows(s, p, s.procs[p].pc.round, s.procs[p].entered)
  }

  ghost predicate Safe(s: State) {
    forall p, q :: 0 <= p < |s.procs| && 0 <= q < |s.procs| ==> s.procs[p].left <= s.procs[q].entered
  }

  ghost predicate Inv(s: State) {
    && |s.procs| > 0
    && (forall p :: 0 <= p < |s.procs| ==> ProcOk(s.procs[p], CeilLog2(|s.procs|)))
    && (forall p: nat, r: nat :: p < |s.procs| && r < CeilLog2(|s.procs|) ==> ChannelOk(s, p, r))
    && (forall p: nat :: p < |s.procs| ==> KnowsOk(s, p))
    && Safe(s)
  }

  lemma StartInv(n: nat)
    requires n > 0
    ensures Inv(Start(n))
    ensures Spec.Init(Abs(Start(n)))
  {
    var s := Start(n);
    forall p: nat, r: nat | p < n && r < CeilLog2(n) ensures ChannelOk(s, p, r) {
      RoundOffset(n, r);
      Partners(p, r, n);
    }
  }

  lemma Others(s: State, p: nat)
    ensures |Step(s, p).procs| == |s.procs|
    ensures forall q :: 0 <= q < |s.procs| && q != p ==> Step(s, p).procs[q] == s.procs[q]
    ensures Inv(s) ==> forall q :: 0 <= q < |s.procs| ==> Step(s, p).procs[q].entered >= s.procs[q].entered
  {
  }

  /** A directed channel is used in one round only, so one tag is enough. */
  lemma OneRoundPerChannel(p: nat, r: nat, r': nat, n: nat)
    requires p < n && r < CeilLog2(n) && r' < CeilLog2(n) && SendTo(p, r, n) == SendTo(p, r', n)
    ensures r == r'
  {
    RoundOffset(n, r);
    RoundOffset(n, r');
    Partners(p, r, n);
    Partners(p, r', n);
    if r < r' {
      Pow2Increases(r, r');
    } else if r' < r {
      Pow2Increases(r', r);
    }
  }

  lemma KnowsGrows(s: State, s': State, p: nat, k: nat, e: nat)
    requires |s'.procs| == |s.procs| && Knows(s, p, k, e)
    requires forall q :: 0 <= q < |s.procs| ==> s'.procs[q].entered >= s.procs[q].entered
    ensures Knows(s', p, k, e)
  {
  }

  /** A message says what its sender knew: the sender's 2^r predecessors have entered its episode. */
  lemma MessageMeaning(s: State, p: nat, r: nat, e: nat)
    requires Inv(s) && p < |s.procs| && r < CeilLog2(|s.procs|) && e <= Sent(s.procs[p], r)
    ensures Knows(s, p, r, e)
  {
    var pr := s.procs[p];
    if e > pr.left {
      assert KnowsOk(s, p);
      forall d: nat | d < Pow2(r) ensures s.procs[Back(p, d, |s.procs|)].entered >= e {
        if r < pr.pc.round { Pow2Increases(r, pr.pc.round); }
      }
    }
  }

  /** The n-th receive on a channel gets the message of episode n, from the right round. */
  lemma ReceiveMatches(s: State, p: nat)
    requires Inv(s) && p < |s.procs| && s.procs[p].pc.Receiving?
    ensures var r := s.procs[p].pc.round;
      var from := RecvFrom(p, r, |s.procs|);
      && 0 <= from < |s.procs| && SendTo(from, r, |s.procs|) == p
      && (Channel(s, from, p) != [] <==> Sent(s.procs[from], r) >= s.procs[p].entered)
      && (Channel(s, from, p) != [] ==> Channel(s, from, p)[0] == Message(r, s.procs[p].entered))
  {
    var r := s.procs[p].pc.round;
    RoundOffset(|s.procs|, r);
    Partners(p, r, |s.procs|);
    assert ChannelOk(s, RecvFrom(p, r, |s.procs|), r);
  }

  /** No channel ever holds more than two messages. */
  lemma ChannelBound(s: State, p: nat, r: nat)
    requires Inv(s) && p < |s.procs| && r < CeilLog2(|s.procs|)
    ensures |Channel(s, p, SendTo(p, r, |s.procs|))| <= 2
  {
    assert ChannelOk(s, p, r);
    var to := SendTo(p, r, |s.procs|);
    assert s.procs[p].left <= s.procs[to].entered;
  }

  /** Receiving doubles what a process knows: its own 2^r places and those of the sender before them. */
  lemma KnowledgeDoubles(s: State, p: nat)
    requires Inv(s) && p < |s.procs| && s.procs[p].pc.Receiving?
    requires Channel(s, RecvFrom(p, s.procs[p].pc.round, |s.procs|), p) != []
    ensures Knows(s, p, s.procs[p].pc.round + 1, s.procs[p].entered)
  {
    var n, r, e := |s.procs|, s.procs[p].pc.round, s.procs[p].entered;
    var from := RecvFrom(p, r, n);
    ReceiveMatches(s, p);
    MessageMeaning(s, from, r, e);
    RoundOffset(n, r);
    Partners(p, r, n);
    assert KnowsOk(s, p);
    forall d: nat | d < Pow2(r + 1) ensures s.procs[Back(p, d, n)].entered >= e {
      if d >= Pow2(r) {
        BackBack(p, Pow2(r), d - Pow2(r), n);
        assert s.procs[Back(from, d - Pow2(r), n)].entered >= e;
      }
    }
  }

  /** After ceil(log2 n) rounds a process knows about everybody. */
  lemma AllRoundsDone(s: State, p: nat)
    requires Inv(s) && p < |s.procs| && s.procs[p].pc.Sending? && s.procs[p].pc.round >= CeilLog2(|s.procs|)
    ensures forall q :: 0 <= q < |s.procs| ==> s.procs[q].entered >= s.procs[p].entered
  {
    var n := |s.procs|;
    assert KnowsOk(s, p);
    forall q: nat | q < n ensures s.procs[q].entered >= s.procs[p].entered {
      var d := BackReaches(p, q, n);
      assert d < Pow2(CeilLog2(n));
    }
  }

  lemma StepKnows(s: State, p: nat, q: nat)
    requires Inv(s) && q < |s.procs|
    ensures KnowsOk(Step(s, p), q)
  {
    var s' := Step(s, p);
    Others(s, p);
    assert KnowsOk(s, q);
    if q == p {
      match s.procs[p].pc
      case Outside =>
        assert Pow2(0) == 1;
        SmallMod(p, |s.procs|);
      case Sending(r) => KnowsGrows(s, s', p, r, s.procs[p].entered);
      case Receiving(r) =>
        if s' != s {
          KnowledgeDoubles(s, p);
          KnowsGrows(s, s', p, r + 1, s.procs[p].entered);
        }
    } else if !s.procs[q].pc.Outside? {
      KnowsGrows(s, s', q, s.procs[q].pc.round, s.procs[q].entered);
    }
  }

  /** What a step does to the counts of the process that makes it: nothing outside its round. */
  lemma StepCounts(s: State, p: nat, r: nat)
    requires Inv(s) && p < |s.procs| && r < CeilLog2(|s.procs|)
    ensures var pr, pr' := s.procs[p], Step(s, p).procs[p];
      && Sent(pr', r) == Sent(pr, r) + (if pr.pc == Sending(r) then 1 else 0)
      && Received(pr', r) == Received(pr, r) + (if pr.pc == Receiving(r) && pr' != pr then 1 else 0)
  {
  }

  lemma QuietChannel(s: State, p: nat, q: nat, r: nat)
    requires Inv(s) && p < |s.procs| && q < |s.procs| && r < CeilLog2(|s.procs|)
    requires s.procs[p].pc == Sending(r) ==> q != p
    requires s.procs[p].pc == Receiving(r) ==> SendTo(q, r, |s.procs|) != p || Step(s, p) == s
    requires var to := SendTo(q, r, |s.procs|); Channel(Step(s, p), q, to) == Channel(s, q, to)
    ensures ChannelOk(Step(s, p), q, r)
  {
    Others(s, p);
    StepCounts(s, p, r);
    assert ChannelOk(s, q, r);
  }

  lemma SendChannel(s: State, p: nat, q: nat, r: nat)
    requires Inv(s) && p < |s.procs| && q < |s.procs| && r < CeilLog2(|s.procs|)
    requires s.procs[p].pc.Sending? && s.procs[p].pc.round < CeilLog2(|s.procs|)
    ensures ChannelOk(Step(s, p), q, r)
  {
    var n, k := |s.procs|, s.procs[p].pc.round;
    if q == p && k == r {
      Others(s, p);
      StepCounts(s, p, r);
      assert ChannelOk(s, q, r);
      RoundOffset(n, r);
      Partners(p, r, n);
    } else {
      if q == p && SendTo(p, k, n) == SendTo(q, r, n) {
        OneRoundPerChannel(p, k, r, n);
      }
      QuietChannel(s, p, q, r);
    }
  }

  lemma ReceivedChannel(s: State, q: nat, r: nat)
    requires Inv(s) && q < |s.procs| && r < CeilLog2(|s.procs|) && SendTo(q, r, |s.procs|) < |s.procs|
    requires var p := SendTo(q, r, |s.procs|); s.procs[p].pc == Receiving(r) && Step(s, p) != s
    requires q == RecvFrom(SendTo(q, r, |s.procs|), r, |s.procs|)
    ensures ChannelOk(Step(s, SendTo(q, r, |s.procs|)), q, r)
  {
    var p := SendTo(q, r, |s.procs|);
    Others(s, p);
    StepCounts(s, p, r);
    assert ChannelOk(s, q, r);
  }

  lemma ReceiveChannel(s: State, p: nat, q: nat, r: nat)
    requires Inv(s) && p < |s.procs| && q < |s.procs| && r < CeilLog2(|s.procs|)
    requires s.procs[p].pc.Receiving? && Step(s, p) != s
    ensures ChannelOk(Step(s, p), q, r)
  {
    var n, k := |s.procs|, s.procs[p].pc.round;
    RoundOffset(n, k);
    Partners(p, k, n);
    RoundOffset(n, r);
    Partners(q, r, n);
    if q == RecvFrom(p, k, n) && SendTo(q, r, n) == p {
      OneRoundPerChannel(q, k, r, n);
      ReceivedChannel(s, q, r);
    } else {
      QuietChannel(s, p, q, r);
    }
  }

  lemma StepChannel(s: State, p: nat, q: nat, r: nat)
    requires Inv(s) && q < |s.procs| && r < CeilLog2(|s.procs|)
    ensures ChannelOk(Step(s, p), q, r)
  {
    RoundOffset(|s.procs|, r);
    Partners(q, r, |s.procs|);
    assert ChannelOk(s, q, r);
    if p < |s.procs| && s.procs[p].pc.Sending? && s.procs[p].pc.round < CeilLog2(|s.procs|) {
      SendChannel(s, p, q, r);
    } else if p < |s.procs| && s.procs[p].pc.Receiving? && Step(s, p) != s {
      ReceiveChannel(s, p, q, r);
    }
  }

  lemma StepInv(s: State, p: nat)
    requires Inv(s)
    ensures Inv(Step(s, p))
  {
    var s' := Step(s, p);
    Others(s, p);
    forall q: nat | q < |s.procs| ensures KnowsOk(s', q) { StepKnows(s, p, q); }
    forall q: nat, r: nat | q < |s.procs| && r < CeilLog2(|s.procs|)
      ensures ChannelOk(s', q, r) { StepChannel(s, p, q, r); }
    if p < |s.procs| && s.procs[p].pc.Sending? && s.procs[p].pc.round >= CeilLog2(|s.procs|) {
      AllRoundsDone(s, p);
    }
  }

  // ---- refinement of the abstract barrier

  ghost function Abs(s: State): Spec.Abstract<nat> {
    map i: nat | i < |s.procs| :: Spec.Participant(s.procs[i].entered, s.procs[i].left)
  }

  lemma LeaveRefines(s: State, p: nat)
    requires Inv(s) && p < |s.procs| && s.procs[p].pc.Sending? && s.procs[p].pc.round >= CeilLog2(|s.procs|)
    ensures Spec.Leave(Abs(s), Abs(Step(s, p)), p)
  {
    var a := Abs(s);
    Others(s, p);
    AllRoundsDone(s, p);
    assert Abs(Step(s, p)) == a[p := a[p].(left := a[p].left + 1)];
  }

  lemma StepRefines(s: State, p: nat)
    requires Inv(s)
    ensures Spec.Next(Abs(s), Abs(Step(s, p)), p)
  {
    if p < |s.procs| {
      var a, a' := Abs(s), Abs(Step(s, p));
      Others(s, p);
      var pc := s.procs[p].pc;
      if pc.Outside? {
        assert a' == a[p := a[p].(entered := a[p].entered + 1)];
      } else if pc.Sending? && pc.round >= CeilLog2(|s.procs|) {
        LeaveRefines(s, p);
      } else {
        assert a' == a;
      }
    }
  }

  lemma SafeInv(s: State)
    requires Inv(s)
    ensures Spec.Safe(Abs(s))
  {
  }

  /** Every run is a behaviour of the specification, from its initial state on. */
  lemma RunRefines(n: nat, schedule: seq<nat>)
    requires n > 0
    ensures Inv(Run(Step, Start(n), schedule)) && Spec.Safe(Abs(Run(Step, Start(n), schedule)))
    ensures Spec.Behaviour(Trace(Step, Abs, Start(n), schedule), Movers(Self, schedule))
    ensures Trace(Step, Abs, Start(n), schedule)[|schedule|] == Abs(Run(Step, Start(n), schedule))
  {
    StartInv(n);
    forall s, l: nat | Inv(s) ensures Inv(Step(s, l)) && Spec.Next(Abs(s), Abs(Step(s, l)), Self(l)) {
      StepInv(s, l);
      StepRefines(s, l);
    }
    Refinement.RunRefines(Step, Self, Inv, Abs, Start(n), schedule);
  }

  lemma RunSafe(n: nat, schedule: seq<nat>)
    requires n > 0
    ensures var s := Run(Step, Start(n), schedule);
      && Inv(s) && Spec.Safe(Abs(s))
  {
    RunRefines(n, schedule);
  }

  // ---- progress

  ghost predicate AllEntered(s: State, e: nat) {
    forall p :: 0 <= p < |s.procs| ==> s.procs[p].entered >= e
  }

  ghost predicate AllLeft(s: State, e: nat) {
    forall p :: 0 <= p < |s.procs| ==> s.procs[p].left >= e
  }

  /** Sends and receives that the process still has to make before it has left episode `e`. */
  function Remaining(pr: Proc, rounds: nat, e: nat): nat {
    if pr.left >= e then 0 else
    match pr.pc
    case Outside => 2 * rounds + 2
    case Sending(r) => if r <= rounds then 2 * (rounds - r) + 1 else 1
    case Receiving(r) => if r <= rounds then 2 * (rounds - r) else 0
  }

  /** What a process still has to do. */
  function Todo(rounds: nat, e: nat): Proc -> nat { (pr: Proc) => Remaining(pr, rounds, e) }

  function Work(s: State, e: nat): nat {
    if s.procs == [] then 0 else Total(s.procs, Todo(CeilLog2(|s.procs|), e))
  }

  lemma WorkZero(s: State, e: nat)
    requires Inv(s)
    ensures Work(s, e) == 0 <==> AllLeft(s, e)
  {
    TotalZero(s.procs, Todo(CeilLog2(|s.procs|), e));
  }

  predicate Enabled(s: State, p: nat, e: nat) {
    && p < |s.procs|
    && s.procs[p].left < e
    && (s.procs[p].pc.Receiving? ==> Channel(s, RecvFrom(p, s.procs[p].pc.round, |s.procs|), p) != [])
  }

  lemma StepEntered(s: State, p: nat, e: nat)
    requires Inv(s) && AllEntered(s, e)
    ensures AllEntered(Step(s, p), e)
  {
    Others(s, p);
  }

  lemma StepWork(s: State, p: nat, e: nat)
    requires Inv(s) && (p < |s.procs| ==> s.procs[p].left + 1 >= e)
    ensures if Enabled(s, p, e) then Work(Step(s, p), e) < Work(s, e) else Work(Step(s, p), e) == Work(s, e)
  {
    Others(s, p);
    if p < |s.procs| {
      TotalUpdate(s.procs, p, Step(s, p).procs[p], Todo(CeilLog2(|s.procs|), e));
      assert Step(s, p).procs == s.procs[p := Step(s, p).procs[p]];
    }
  }

  lemma StaysEnabled(s: State, p: nat, q: nat, e: nat)
    requires Inv(s) && Enabled(s, p, e) && q != p
    ensures Enabled(Step(s, q), p, e)
  {
    Others(s, q);
  }

  /** Of the processes still inside, one that is least advanced. */
  lemma {:induction false} LeastAdvanced(s: State, e: nat, k: nat) returns (p: nat)
    requires Inv(s) && k <= |s.procs| && exists i :: 0 <= i < k && s.procs[i].left < e
    ensures p < k && s.procs[p].left < e
    ensures forall q :: 0 <= q < k ==>
      Remaining(s.procs[q], CeilLog2(|s.procs|), e) <= Remaining(s.procs[p], CeilLog2(|s.procs|), e)
    decreases k
  {
    var rounds := CeilLog2(|s.procs|);
    p := k - 1;
    if exists i :: 0 <= i < k - 1 && s.procs[i].left < e {
      var q := LeastAdvanced(s, e, k - 1);
      if Remaining(s.procs[q], rounds, e) >= Remaining(s.procs[p], rounds, e) {
        p := q;
      }
    }
  }

  /** The least advanced process inside the episode is not kept waiting. */
  lemma LeastAdvancedEnabled(s: State, p: nat, e: nat)
    requires Inv(s) && p < |s.procs| && s.procs[p].left < e
    requires forall q :: 0 <= q < |s.procs| ==> s.procs[q].left >= e - 1
    requires forall q :: 0 <= q < |s.procs| ==>
      Remaining(s.procs[q], CeilLog2(|s.procs|), e) <= Remaining(s.procs[p], CeilLog2(|s.procs|), e)
    ensures Enabled(s, p, e)
  {
    if s.procs[p].pc.Receiving? {
      ReceiveMatches(s, p);
    }
  }

  lemma SomeoneEnabled(s: State, e: nat) returns (p: nat)
    requires Inv(s) && AllEntered(s, e) && Work(s, e) > 0
    ensures Enabled(s, p, e)
  {
    WorkZero(s, e);
    p := LeastAdvanced(s, e, |s.procs|);
    LeastAdvancedEnabled(s, p, e);
  }

  /** Completion under every fair schedule, from every reachable state in which all have entered. */
  lemma EpisodeCompletes(s: State, e: nat, rounds: seq<seq<nat>>)
    requires Inv(s) && AllEntered(s, e)
    requires forall k, p: nat :: 0 <= k < |rounds| && p < |s.procs| ==> Scheduled(Self, rounds[k], p)
    requires Work(s, e) <= |rounds|
    ensures AllLeft(Run(Step, s, Flatten(rounds)), e)
  {
    var actor := (p: nat) => p < |s.procs|;
    var inv := (t: State) => Inv(t) && AllEntered(t, e) && |t.procs| == |s.procs|;
    var measure := (t: State) => Work(t, e);
    var enabled := (t: State, p: nat) => Enabled(t, p, e);
    forall t: State, l: nat | inv(t)
      ensures inv(Step(t, l)) && measure(Step(t, l)) <= measure(t)
      ensures enabled(t, l) ==> measure(Step(t, l)) < measure(t)
    {
      StepInv(t, l);
      Others(t, l);
      StepEntered(t, l, e);
      StepWork(t, l, e);
    }
    forall t: State, l: nat, a: nat | inv(t) && enabled(t, a) && l != a ensures enabled(Step(t, l), a) {
      StaysEnabled(t, a, l, e);
    }
    forall t: State | inv(t) && measure(t) > 0 ensures exists a :: actor(a) && enabled(t, a) {
      var a := SomeoneEnabled(t, e);
      assert actor(a) && enabled(t, a);
    }
    EachRunFinishes(Step, actor, inv, measure, enabled, s, rounds);
    WorkZero(Run(Step, s, Flatten(rounds)), e);
  }

  // ---- every episode

  lemma StepLeft(s: State, l: nat, e: nat)
    requires Inv(s) && AllLeft(s, e)
    ensures AllLeft(Step(s, l), e)
  {
    Others(s, l);
  }

  /** Whoever gets a turn after episode `e` is over has then entered the next one. */
  lemma TurnEnters(s: State, l: nat, e: nat)
    requires Inv(s) && AllLeft(s, e) && l < |s.procs|
    ensures |Step(s, l).procs| == |s.procs| && Step(s, l).procs[l].entered > e
  {
    Others(s, l);
    assert ProcOk(s.procs[l], CeilLog2(|s.procs|));
  }

  lemma RoundEnters(s: State, e: nat, round: seq<nat>)
    requires Inv(s) && AllLeft(s, e)
    requires forall p: nat :: p < |s.procs| ==> Scheduled(Self, round, p)
    ensures AllEntered(Run(Step, s, round), e + 1)
  {
    var n := |s.procs|;
    var inv := (t: State) => Inv(t) && AllLeft(t, e) && |t.procs| == n;
    var has := (t: State, p: nat) => p < n && p < |t.procs| ==> t.procs[p].entered > e;
    forall t: State, l: nat | inv(t)
      ensures inv(Step(t, l)) && has(Step(t, l), l)
      ensures forall p: nat :: has(t, p) ==> has(Step(t, l), p)
    {
      StepInv(t, l);
      StepLeft(t, l, e);
      Others(t, l);
      if l < n { TurnEnters(t, l, e); }
    }
    RunKeeps(Step, inv, s, round);
    forall p: nat | p < n ensures Run(Step, s, round).procs[p].entered >= e + 1 {
      RoundDoes(Step, Self, inv, has, s, round, p);
    }
  }

  lemma WorkBound(s: State, e: nat)
    requires Inv(s)
    ensures Work(s, e) <= |s.procs| * (2 * CeilLog2(|s.procs|) + 2)
  {
    TotalAtMost(s.procs, Todo(CeilLog2(|s.procs|), e), (2 * CeilLog2(|s.procs|) + 2));
  }

  ghost predicate InvFor(s: State, n: nat) {
    Inv(s) && |s.procs| == n
  }

  lemma RunInvFor(s: State, n: nat, schedule: seq<nat>)
    requires InvFor(s, n)
    ensures InvFor(Run(Step, s, schedule), n)
  {
    forall t: State, l: nat | InvFor(t, n) ensures InvFor(Step(t, l), n) {
      StepInv(t, l);
      Others(t, l);
    }
    RunKeeps(Step, t => InvFor(t, n), s, schedule);
  }

  /** One fair round makes all enter the next episode, and the others make them leave it. */
  lemma NextEpisode(s: State, n: nat, e: nat, bound: nat, rounds: seq<seq<nat>>)
    requires InvFor(s, n) && AllLeft(s, e)
    requires forall t: State :: InvFor(t, n) ==> Work(t, e + 1) <= bound
    requires AllFair(FairFor(n), rounds) && |rounds| == bound + 1
    ensures InvFor(Run(Step, s, Flatten(rounds)), n) && AllLeft(Run(Step, s, Flatten(rounds)), e + 1)
  {
    forall k, p: nat | 0 <= k < |rounds| && p < n ensures Scheduled(Self, rounds[k], p) {
      assert FairFor(n)(rounds[k]);
    }
    var t := Run(Step, s, rounds[0]);
    RoundEnters(s, e, rounds[0]);
    RunInvFor(s, n, rounds[0]);
    RunConcat(Step, s, rounds[0], Flatten(rounds[1..]));
    EpisodeCompletes(t, e + 1, rounds[1..]);
    RunInvFor(t, n, Flatten(rounds[1..]));
  }

  ghost function FairFor(n: nat): seq<nat> -> bool {
    (round: seq<nat>) => AllScheduled(Self, n, round)
  }

  ghost function InvOf(n: nat): State -> bool {
    (s: State) => InvFor(s, n)
  }

  lemma EachEpisode(n: nat, bound: nat)
    requires forall t: State, e: nat :: InvFor(t, n) ==> Work(t, e) <= bound
    ensures EpisodeFollows(Step, FairFor(n), InvOf(n), AllLeft, bound + 1)
  {
    forall s: State, rounds: seq<seq<nat>>, e: nat
      | InvOf(n)(s) && AllLeft(s, e) && AllFair(FairFor(n), rounds) && |rounds| == bound + 1
      ensures InvOf(n)(Run(Step, s, Flatten(rounds))) && AllLeft(Run(Step, s, Flatten(rounds)), e + 1)
    {
      NextEpisode(s, n, e, bound, rounds);
    }
  }

  /** From the start, any number of episodes complete under every schedule that is fair for long enough. */
  lemma EveryEpisodeCompletes(n: nat, bound: nat, e: nat, rounds: seq<seq<nat>>)
    requires n > 0 && bound == n * (2 * CeilLog2(n) + 2)
    requires forall k, p: nat :: 0 <= k < |rounds| && p < n ==> Scheduled(Self, rounds[k], p)
    requires |rounds| == e * (bound + 1)
    ensures AllLeft(Run(Step, Start(n), Flatten(rounds)), e)
  {
    StartInv(n);
    forall t: State, f: nat | InvFor(t, n) ensures Work(t, f) <= bound { WorkBound(t, f); }
    EachEpisode(n, bound);
    EpisodesFinish(Step, FairFor(n), InvOf(n), AllLeft, bound + 1, Start(n), e, rounds);
  }

  // ---- the program

  /** gtmpi1.c: its two globals, the messages in transit, and every process's place in the round loop. */
  class World {
    var numRounds: nat
    var numProcess: nat
    var channels: map<(int, int), seq<Message>>
    const procs: array<Proc>

    ghost function View(): State
      reads this, procs
    {
      State(procs[..], channels)
    }

    ghost predicate Valid()
      reads this
    {
      procs.Length == numProcess > 0 && numRounds == CeilLog2(numProcess)
    }

    /** gtmpi_init */
    constructor (n: nat)
      requires n > 0
      ensures Valid() && View() == Start(n) && fresh(procs)
    {
      numRounds := CeilLog2(n);
      numProcess := n;
      channels := map[];
      procs := new Proc[n](_ => Proc(Outside, 0, 0));
      new;
      assert procs[..] == Start(n).procs;
    }

    method Isend(from: int, to: int, m: Message)
      modifies `channels
      ensures channels == old(channels)[(from, to) := old(Channel(State([], channels), from, to)) + [m]]
    {
      var queued := if (from, to) in channels then channels[(from, to)] else [];
      channels := channels[(from, to) := queued + [m]];
    }

    /** The scheduler lets process `rank` perform its next action. */
    method Advance(rank: nat)
      requires Valid() && rank < numProcess
      modifies this, procs
      ensures Valid() && View() == Step(old(View()), rank)
    {
      var pr := procs[rank];
      match pr.pc {
        case Outside =>
          procs[rank] := pr.(pc := Sending(0), entered := pr.entered + 1);
        case Sending(round) =>
          if round < numRounds {
            var sendTo := CRem(rank + Pow2(round), numProcess);
            Isend(rank, sendTo, Message(round, pr.entered));
            procs[rank] := pr.(pc := Receiving(round));
          } else {
            procs[rank] := pr.(pc := Outside, left := pr.left + 1);
          }
        case Receiving(round) =>
          var recvFrom := CRem(rank - Pow2(round) + numProcess, numProcess);
          if (recvFrom, rank) in channels && channels[(recvFrom, rank)] != [] {
            channels := channels[(recvFrom, rank) := channels[(recvFrom, rank)][1..]];
            procs[rank] := pr.(pc := Sending(round + 1));
          }
      }
    }

    /** Any interleaving of any number of barrier calls, starting where the processes are now. */
    method Execute(schedule: seq<nat>)
      requires Valid() && Inv(View())
      requires forall k :: 0 <= k < |schedule| ==> schedule[k] < numProcess
      modifies this, procs
      ensures Valid() && View() == Run(Step, old(View()), schedule)
      ensures Inv(View()) && Spec.Safe(Abs(View()))
    {
      for k := 0 to |schedule|
        invariant Valid() && numProcess == old(numProcess) && Inv(View())
        invariant Run(Step, View(), schedule[k..]) == Run(Step, old(View()), schedule)
      {
        StepInv(View(), schedule[k]);
        assert schedule[k..][1..] == schedule[k + 1..];
        Advance(schedule[k]);
      }
      SafeInv(View());
    }
  }
}
