/** The master's dispatch and failure bookkeeping (project4/src/master.cc). */
module MasterSpec {
  import opened Sequences
  import opened Bags
  import opened FairRuns
  import opened Sharding

  /** What ip_addr2worker holds for an address: nothing once the worker has been dropped. */
  datatype Slot = Gone | Worker(mapShards: seq<FileShard>, completed: nat)

  /** A call that has been sent and not been answered yet; addresses are numbered. */
  datatype Call = Call(addr: nat, isMap: bool)

  /**
   Where Master::run is: Dispatching (324-345), Waiting and Notified (180-185, before and after
   poll_workers wakes it), Decided (after 194-211), Reducing (from 359 on).
  */
  datatype Pc = Dispatching | Waiting | Notified | Decided | Reducing

  /** `errors` and `rescanned` record error replies, and a pass that started over with the same shards. */
  datatype State = State(pc: Pc, shards: seq<FileShard>, next: nat, unfinished: seq<FileShard>, clients: seq<Slot>,
                         dropped: set<nat>, ready: seq<nat>, calls: multiset<Call>, numMapMsgs: int,
                         numDroppedMapJobs: int, numDroppedWorkers: nat, numShards: nat, mapComplete: bool,
                         errors: nat, rescanned: bool)

  /**
   DispatchMap, DispatchReduce: one iteration of the loops at 324 and 381 (which partition is reduced, and how
   many there are, is in ReduceSpec).  EndOfPass: schedule_monitor begins.  Reply: poll_workers handles an answer.
   Fail: handle_worker_failure.  Decide: 194-211.  NextPass: 348-356.
  */
  datatype Event = DispatchMap | DispatchReduce | EndOfPass | Reply(call: Call, ok: bool) | Fail(addr: nat)
                 | Decide | NextPass

  function Start(shards: seq<FileShard>, workers: nat): State {
    State(Dispatching, shards, 0, [], seq(workers, _ => Worker([], 0)), {}, seq(workers, i requires 0 <= i => i),
          multiset{}, 0, 0, 0, |shards|, false, 0, false)
  }

  predicate Live(s: State, a: nat) {
    a < |s.clients| && s.clients[a].Worker?
  }

  function DispatchMapStep(s: State): State {
    if s.pc != Dispatching || s.next >= |s.shards| || s.ready == [] then s else
    var a, s1 := s.ready[0], s.(ready := s.ready[1..]);
    if a in s.dropped || !Live(s, a) then s1
    else s1.(next := s.next + 1, calls := s.calls + multiset{Call(a, true)},
             clients := s.clients[a := s.clients[a].(mapShards := s.clients[a].mapShards + [s.shards[s.next]])])
  }

  function DispatchReduceStep(s: State): State {
    if s.pc != Reducing || s.ready == [] then s else
    var a, s1 := s.ready[0], s.(ready := s.ready[1..]);
    if a in s.dropped then s1
    else s1.(calls := s.calls + multiset{Call(a, false)})
  }

  /** Lines 221-265: the answer itself. */
  function Answer(s: State, c: Call, ok: bool): State {
    var s1 := s.(calls := s.calls - multiset{c});
    if ok then
      if !Live(s, c.addr) then s1 else
      var s2 := s1.(ready := s.ready + [c.addr]);
      if c.isMap
      then s2.(numMapMsgs := s.numMapMsgs + 1,
               clients := s.clients[c.addr := s.clients[c.addr].(completed := s.clients[c.addr].completed + 1)])
      else s2
    else if c.isMap then s1.(numDroppedMapJobs := s.numDroppedMapJobs + 1, errors := s.errors + 1)
    else s1
  }

  function Answered(s: State): int { s.numMapMsgs - s.numDroppedMapJobs }

  /** Lines 270-278; the part about reduce jobs cannot hold before there are any. */
  predicate WakesMaster(s: State) {
    s.numDroppedWorkers > 0 || (Answered(s) == s.numShards && !s.mapComplete)
  }

  function Woken(s: State): State {
    if s.pc == Waiting && WakesMaster(s) then s.(pc := Notified) else s
  }

  function ReplyStep(s: State, c: Call, ok: bool): State {
    if c !in s.calls then s else Woken(Answer(s, c, ok))
  }

  function FailStep(s: State, a: nat): State {
    if !Live(s, a) then s else
    var s1 := s.(clients := s.clients[a := Gone], dropped := s.dropped + {a},
      numDroppedWorkers := s.numDroppedWorkers + 1);
    if s.mapComplete then s1
    else s1.(unfinished := s.unfinished + s.clients[a].mapShards,
      numDroppedMapJobs := s.numDroppedMapJobs + s.clients[a].completed)
  }

  function DecideStep(s: State): State {
    if s.pc == Reducing then s.(numDroppedWorkers := 0)
    else if s.pc != Notified then s
    else s.(pc := Decided, numDroppedWorkers := 0, mapComplete := s.mapComplete ||
      (s.unfinished == [] && Answered(s) == s.numShards))
  }

  function NextPassStep(s: State): State {
    if s.pc != Decided then s
    else if s.unfinished != [] then s.(pc := Dispatching, shards := s.unfinished, unfinished := [], next := 0)
    else if s.mapComplete then s.(pc := Reducing, shards := [], next := 0)
    else s.(pc := Dispatching, next := 0, rescanned := true)
  }

  function Step(s: State, e: Event): State {
    match e
    case DispatchMap => DispatchMapStep(s)
    case DispatchReduce => DispatchReduceStep(s)
    case EndOfPass => if s.pc == Dispatching && s.next == |s.shards| then s.(pc := Waiting) else s
    case Reply(c, ok) => ReplyStep(s, c, ok)
    case Fail(a) => FailStep(s, a)
    case Decide => DecideStep(s)
    case NextPass => NextPassStep(s)
  }

  // ---- no shard is lost

  function SlotShards(c: Slot): seq<FileShard> {
    if c.Worker? then c.mapShards else []
  }

  ghost function SlotBag(c: Slot): multiset<FileShard> {
    multiset(SlotShards(c))
  }

  /** The shards that have been sent to workers that are still there. */
  ghost function WithWorkers(s: State): multiset<FileShard> {
    Gather(s.clients, SlotBag)
  }

  /** What this pass has not dispatched yet. */
  function Rest(s: State): seq<FileShard> {
    if s.next <= |s.shards| then s.shards[s.next..] else []
  }

  /** All shards that the master still knows of. */
  ghost function Known(s: State): multiset<FileShard> {
    WithWorkers(s) + (multiset(Rest(s)) + multiset(s.unfinished))
  }

  ghost predicate Control(s: State) {
    && s.next <= |s.shards|
    && (s.pc == Waiting || s.pc == Notified || s.pc == Decided ==> s.next == |s.shards|)
    && (s.mapComplete ==> s.unfinished == [] && (s.pc == Decided || s.pc == Reducing))
    && (s.pc == Reducing ==> s.mapComplete && s.shards == [])
  }

  /**
   Before the map phase is complete no step loses a shard; and none is there twice unless a pass has
   started over.
  */
  ghost predicate NoShardLost(s: State, all: seq<FileShard>) {
    !s.mapComplete ==> multiset(all) <= Known(s) && (!s.rescanned ==> multiset(all) == Known(s))
  }

  lemma BagMoves<T>(w: multiset<T>, w': multiset<T>, r: multiset<T>, r': multiset<T>, u: multiset<T>, d: multiset<T>)
    requires w' == w + d && r == d + r'
    ensures w' + (r' + u) == w + (r + u)
  {
  }

  lemma BagReturns<T>(w: multiset<T>, w': multiset<T>, r: multiset<T>, u: multiset<T>, u': multiset<T>, d: multiset<T>)
    requires w' + d == w && u' == u + d
    ensures w' + (r + u') == w + (r + u)
  {
  }

  lemma RestHead(s: seq<FileShard>, k: nat)
    requires k < |s|
    ensures multiset(s[k..]) == multiset{s[k]} + multiset(s[k + 1..])
  {
    assert s[k..] == [s[k]] + s[k + 1..];
  }

  /** A dispatch moves one shard from the rest of the pass to a worker. */
  lemma DispatchKnown(s: State)
    requires Control(s)
    ensures Known(DispatchMapStep(s)) == Known(s) && DispatchMapStep(s).rescanned == s.rescanned
  {
    if DispatchMapStep(s).next != s.next {
      SentKnown(s, DispatchMapStep(s), s.ready[0]);
    }
  }

  lemma SentKnown(s: State, s': State, a: nat)
    requires s.next < |s.shards| && Live(s, a)
    requires s'.shards == s.shards && s'.next == s.next + 1 && s'.unfinished == s.unfinished
    requires s'.clients == s.clients[a := s.clients[a].(mapShards := s.clients[a].mapShards + [s.shards[s.next]])]
    ensures Known(s') == Known(s)
  {
    var x := s.shards[s.next];
    assert Rest(s) == s.shards[s.next..] && Rest(s') == s.shards[s.next + 1..];
    MultisetSnoc(s.clients[a].mapShards, x);
    GatherMore(s.clients, a, s'.clients[a], SlotBag, multiset{x});
    RestHead(s.shards, s.next);
    BagMoves(WithWorkers(s), WithWorkers(s'), multiset(Rest(s)), multiset(Rest(s')), multiset(s.unfinished),
      multiset{x});
  }

  /** A failure moves the shards of the worker to the unfinished ones. */
  lemma FailKnown(s: State, a: nat)
    requires Control(s) && !s.mapComplete
    ensures Known(FailStep(s, a)) == Known(s) && FailStep(s, a).rescanned == s.rescanned
  {
    if Live(s, a) {
      var s' := FailStep(s, a);
      GatherLess(s.clients, a, Gone, SlotBag);
      MultisetConcat(s.unfinished, s.clients[a].mapShards);
      BagReturns(WithWorkers(s), WithWorkers(s'), multiset(Rest(s)), multiset(s.unfinished), multiset(s'.unfinished),
        SlotBag(s.clients[a]));
    }
  }

  lemma WokenSame(s: State)
    ensures Woken(s) == s || Woken(s) == s.(pc := Notified)
    ensures s.pc != Waiting ==> Woken(s) == s
  {
  }

  ghost predicate SameLists(s: State, t: State) {
    t.shards == s.shards && t.next == s.next && t.unfinished == s.unfinished && t.rescanned == s.rescanned
  }

  lemma SameKnown(s: State, t: State)
    requires SameLists(s, t) && WithWorkers(t) == WithWorkers(s)
    ensures Known(t) == Known(s)
  {
  }

  lemma ReplyLists(s: State, c: Call, ok: bool)
    ensures SameLists(s, ReplyStep(s, c, ok))
    ensures ReplyStep(s, c, ok).clients == if c in s.calls then Answer(s, c, ok).clients else s.clients
  {
    WokenSame(Answer(s, c, ok));
  }

  lemma AnswerWorkers(s: State, c: Call, ok: bool)
    ensures Gather(Answer(s, c, ok).clients, SlotBag) == WithWorkers(s)
  {
    if ok && Live(s, c.addr) && c.isMap {
      GatherSame(s.clients, c.addr, Answer(s, c, ok).clients[c.addr], SlotBag);
    }
  }

  lemma ReplyKnown(s: State, c: Call, ok: bool)
    ensures Known(ReplyStep(s, c, ok)) == Known(s) && ReplyStep(s, c, ok).rescanned == s.rescanned
  {
    ReplyLists(s, c, ok);
    AnswerWorkers(s, c, ok);
    SameKnown(s, ReplyStep(s, c, ok));
  }

  lemma NextPassKnown(s: State)
    requires Control(s)
    ensures Known(s) <= Known(NextPassStep(s))
    ensures !NextPassStep(s).rescanned ==> !s.rescanned && Known(NextPassStep(s)) == Known(s)
  {
    var s' := NextPassStep(s);
    if s.pc == Decided {
      assert Rest(s) == [];
      if s.unfinished != [] {
        assert Rest(s') == s.unfinished;
      } else if s.mapComplete {
        assert Rest(s') == [];
      }
    }
  }

  /** An answer leaves the passes alone; at most it wakes the master. */
  lemma ReplyPasses(s: State, c: Call, ok: bool)
    ensures var t := ReplyStep(s, c, ok);
      && t.shards == s.shards && t.next == s.next && t.unfinished == s.unfinished && t.mapComplete == s.mapComplete
      && (t.pc == s.pc || (s.pc == Waiting && t.pc == Notified))
  {
    WokenSame(Answer(s, c, ok));
  }

  lemma StepControl(s: State, e: Event)
    requires Control(s)
    ensures Control(Step(s, e))
  {
    match e {
      case Reply(c, ok) => ReplyPasses(s, c, ok);
      case _ => OtherControl(s, e);
    }
  }

  lemma OtherControl(s: State, e: Event)
    requires Control(s) && !e.Reply?
    ensures Control(Step(s, e))
  {
  }

  lemma OthersSame(s: State, e: Event)
    requires e.DispatchReduce? || e.EndOfPass? || e.Decide?
    ensures Step(s, e).clients == s.clients && SameLists(s, Step(s, e))
  {
  }

  ghost predicate KnownStays(s: State, t: State) {
    Known(s) <= Known(t) && (!t.rescanned ==> !s.rescanned && Known(t) == Known(s))
  }

  lemma StepKnown(s: State, e: Event)
    requires Control(s) && !s.mapComplete
    ensures KnownStays(s, Step(s, e))
  {
    match e {
      case DispatchMap => DispatchKnown(s);
      case Reply(c, ok) => ReplyKnown(s, c, ok);
      case Fail(a) => FailKnown(s, a);
      case NextPass => NextPassKnown(s);
      case _ =>
        OthersSame(s, e);
        SameKnown(s, Step(s, e));
    }
  }

  lemma MapStaysComplete(s: State, e: Event)
    ensures s.mapComplete ==> Step(s, e).mapComplete
  {
  }

  lemma StepNoShardLost(s: State, e: Event, all: seq<FileShard>)
    requires Control(s) && NoShardLost(s, all)
    ensures NoShardLost(Step(s, e), all)
  {
    MapStaysComplete(s, e);
    if !s.mapComplete { StepKnown(s, e); }
  }

  // ---- one job at a time for a worker

  function Occurs(q: seq<nat>, a: nat): nat {
    if q == [] then 0 else Occurs(q[1..], a) + if q[0] == a then 1 else 0
  }

  lemma {:induction false} OccursSnoc(q: seq<nat>, x: nat, a: nat)
    ensures Occurs(q + [x], a) == Occurs(q, a) + if x == a then 1 else 0
    decreases |q|
  {
    if q == [] {
      assert q + [x] == [x];
      assert [x][1..] == [];
    } else {
      assert (q + [x])[1..] == q[1..] + [x];
      OccursSnoc(q[1..], x, a);
    }
  }

  /** How often an address is waiting in ready_queue or working on a call. */
  ghost function Engaged(s: State, a: nat): nat {
    Occurs(s.ready, a) + s.calls[Call(a, true)] + s.calls[Call(a, false)]
  }

  lemma DispatchEngaged(s: State, a: nat)
    ensures Engaged(DispatchMapStep(s), a) <= Engaged(s, a) && Engaged(DispatchReduceStep(s), a) <= Engaged(s, a)
  {
  }

  lemma AnswerEngaged(s: State, c: Call, ok: bool, a: nat)
    requires c in s.calls
    ensures Engaged(Answer(s, c, ok), a) <= Engaged(s, a)
  {
    OccursSnoc(s.ready, c.addr, a);
  }

  lemma ReplyEngaged(s: State, c: Call, ok: bool, a: nat)
    ensures Engaged(ReplyStep(s, c, ok), a) <= Engaged(s, a)
  {
    if c in s.calls {
      AnswerEngaged(s, c, ok, a);
      WokenSame(Answer(s, c, ok));
    }
  }

  lemma OthersEngaged(s: State, e: Event)
    requires !e.DispatchMap? && !e.DispatchReduce? && !e.Reply?
    ensures Step(s, e).ready == s.ready && Step(s, e).calls == s.calls
  {
  }

  /** No step makes an address busier: it is never waiting and working, or working on two calls. */
  lemma StepEngaged(s: State, e: Event, a: nat)
    ensures Engaged(Step(s, e), a) <= Engaged(s, a)
  {
    match e {
      case DispatchMap => DispatchEngaged(s, a);
      case DispatchReduce => DispatchEngaged(s, a);
      case Reply(c, ok) => ReplyEngaged(s, c, ok, a);
      case _ => OthersEngaged(s, e);
    }
  }

  lemma SameShards(s: State, e: Event)
    ensures Step(s, e).numShards == s.numShards && |Step(s, e).clients| == |s.clients|
  {
    match e {
      case Reply(c, ok) => WokenSame(Answer(s, c, ok));
      case _ =>
    }
  }

  ghost predicate OneJob(s: State) {
    forall a: nat {:trigger Engaged(s, a)} :: Engaged(s, a) <= if a < |s.clients| then 1 else 0
  }

  lemma StepOneJob(s: State, e: Event)
    requires OneJob(s)
    ensures OneJob(Step(s, e))
  {
    SameShards(s, e);
    forall a: nat ensures Engaged(Step(s, e), a) <= if a < |s.clients| then 1 else 0 {
      StepEngaged(s, e, a);
      assert Engaged(s, a) <= if a < |s.clients| then 1 else 0;
    }
  }

  /** The list of dropped addresses and the map of clients agree. */
  ghost predicate DropsKnown(s: State) {
    forall a: nat :: a < |s.clients| ==> (a in s.dropped <==> s.clients[a].Gone?)
  }

  lemma StepDrops(s: State, e: Event)
    requires DropsKnown(s)
    ensures DropsKnown(Step(s, e))
  {
    match e {
      case DispatchMap =>
      case Reply(c, ok) =>
        assert DropsKnown(Answer(s, c, ok));
        WokenSame(Answer(s, c, ok));
      case Fail(a) =>
      case _ => DropsSame(s, e);
    }
  }

  lemma DropsSame(s: State, e: Event)
    requires e.DispatchReduce? || e.EndOfPass? || e.Decide? || e.NextPass?
    ensures Step(s, e).clients == s.clients && Step(s, e).dropped == s.dropped
  {
  }

  /**
   An address taken from ready_queue that is not listed as dropped belongs to a client: line 342 never yields null.
  */
  lemma DispatchFindsClient(s: State)
    requires OneJob(s) && DropsKnown(s) && s.ready != [] && s.ready[0] !in s.dropped
    ensures Live(s, s.ready[0])
  {
    assert Engaged(s, s.ready[0]) >= 1;
  }

  // ---- the counters

  function CompletedIn(clients: seq<Slot>): nat {
    if clients == [] then 0 else CompletedIn(clients[1..]) + if clients[0].Worker? then clients[0].completed else 0
  }

  function SentIn(clients: seq<Slot>): nat {
    if clients == [] then 0 else SentIn(clients[1..]) + |SlotShards(clients[0])|
  }

  lemma {:induction false} CompletedUpdate(clients: seq<Slot>, a: nat, c: Slot)
    requires a < |clients|
    ensures CompletedIn(clients[a := c]) + (if clients[a].Worker? then clients[a].completed else 0) ==
      CompletedIn(clients) + if c.Worker? then c.completed else 0
    decreases |clients|
  {
    if a == 0 {
      assert clients[a := c][1..] == clients[1..];
    } else {
      assert clients[a := c][1..] == clients[1..][a - 1 := c];
      CompletedUpdate(clients[1..], a - 1, c);
    }
  }

  lemma {:induction false} SentIsSize(clients: seq<Slot>)
    ensures SentIn(clients) == |Gather(clients, SlotBag)|
    decreases |clients|
  {
    if clients != [] {
      SentIsSize(clients[1..]);
      assert |SlotBag(clients[0])| == |SlotShards(clients[0])|;
    }
  }

  /** The answers counted are those of the workers that are still there, less one for every error. */
  ghost predicate Ledger(s: State) {
    !s.mapComplete ==> Answered(s) == CompletedIn(s.clients) - s.errors
  }

  /** These events leave the workers, their map calls and the counters alone. */
  lemma BooksSame(s: State, e: Event)
    requires e.DispatchReduce? || e.EndOfPass? || e.Decide? || e.NextPass?
    ensures var t := Step(s, e);
      && t.clients == s.clients && t.errors == s.errors && Answered(t) == Answered(s)
      && forall a: nat {:trigger Call(a, true)} :: t.calls[Call(a, true)] == s.calls[Call(a, true)]
  {
  }

  lemma DispatchLedger(s: State)
    requires Ledger(s)
    ensures Ledger(DispatchMapStep(s))
  {
    var t := DispatchMapStep(s);
    if t.next != s.next { CompletedUpdate(s.clients, s.ready[0], t.clients[s.ready[0]]); }
  }

  lemma AnswerLedger(s: State, c: Call, ok: bool)
    requires Ledger(s)
    ensures Ledger(Answer(s, c, ok))
  {
    if ok && Live(s, c.addr) && c.isMap { CompletedUpdate(s.clients, c.addr, Answer(s, c, ok).clients[c.addr]); }
  }

  lemma FailLedger(s: State, a: nat)
    requires Ledger(s)
    ensures Ledger(FailStep(s, a))
  {
    if Live(s, a) { CompletedUpdate(s.clients, a, Gone); }
  }

  lemma StepLedger(s: State, e: Event)
    requires Ledger(s)
    ensures Ledger(Step(s, e))
  {
    match e {
      case DispatchMap => DispatchLedger(s);
      case Reply(c, ok) =>
        AnswerLedger(s, c, ok);
        WokenSame(Answer(s, c, ok));
      case Fail(a) => FailLedger(s, a);
      case _ =>
        BooksSame(s, e);
        MapStaysComplete(s, e);
    }
  }

  /** A worker has answered for no more than it was sent, not counting the call it is working on. */
  ghost predicate Owes(s: State, a: nat)
    requires a < |s.clients|
  {
    s.clients[a].Worker? ==> s.clients[a].completed + s.calls[Call(a, true)] <= |s.clients[a].mapShards|
  }

  ghost predicate AllOwe(s: State) {
    forall a: nat :: a < |s.clients| ==> Owes(s, a)
  }

  lemma DispatchOwes(s: State, a: nat)
    requires AllOwe(s) && a < |s.clients|
    ensures |DispatchMapStep(s).clients| == |s.clients| && Owes(DispatchMapStep(s), a)
  {
    assert Owes(s, a);
  }

  lemma AnswerOwes(s: State, c: Call, ok: bool, a: nat)
    requires AllOwe(s) && a < |s.clients| && c in s.calls
    ensures |Answer(s, c, ok).clients| == |s.clients| && Owes(Answer(s, c, ok), a)
  {
    assert Owes(s, a);
  }

  lemma FailOwes(s: State, b: nat, a: nat)
    requires AllOwe(s) && a < |s.clients|
    ensures |FailStep(s, b).clients| == |s.clients| && Owes(FailStep(s, b), a)
  {
    assert Owes(s, a);
  }

  lemma StepOwesAt(s: State, e: Event, a: nat)
    requires AllOwe(s) && a < |s.clients|
    ensures |Step(s, e).clients| == |s.clients| && Owes(Step(s, e), a)
  {
    match e {
      case DispatchMap => DispatchOwes(s, a);
      case Reply(c, ok) =>
        if c in s.calls {
          AnswerOwes(s, c, ok, a);
          WokenSame(Answer(s, c, ok));
        }
      case Fail(b) => FailOwes(s, b, a);
      case _ => BooksSame(s, e);
    }
    assert Owes(s, a);
  }

  lemma StepOwes(s: State, e: Event)
    requires AllOwe(s)
    ensures AllOwe(Step(s, e))
  {
    SameShards(s, e);
    forall a: nat | a < |Step(s, e).clients| ensures Owes(Step(s, e), a) { StepOwesAt(s, e, a); }
  }

  lemma {:induction false} CompletedAtMostSent(clients: seq<Slot>)
    requires forall a :: 0 <= a < |clients| && clients[a].Worker? ==> clients[a].completed <= |clients[a].mapShards|
    ensures CompletedIn(clients) <= SentIn(clients)
    ensures CompletedIn(clients) == SentIn(clients) <==>
      forall a :: 0 <= a < |clients| && clients[a].Worker? ==> clients[a].completed == |clients[a].mapShards|
    decreases |clients|
  {
    if clients != [] {
      CompletedAtMostSent(clients[1..]);
      assert forall a :: 1 <= a < |clients| ==> clients[a] == clients[1..][a - 1];
      assert forall a :: 0 <= a < |clients[1..]| ==> clients[1..][a] == clients[a + 1];
    }
  }

  // ---- runs

  ghost predicate Inv(s: State, all: seq<FileShard>) {
    Control(s) && s.numShards == |all| && NoShardLost(s, all) && OneJob(s) && DropsKnown(s) && Ledger(s) && AllOwe(s)
  }

  lemma StepInv(s: State, e: Event, all: seq<FileShard>)
    requires Inv(s, all)
    ensures Inv(Step(s, e), all)
  {
    StepControl(s, e);
    SameShards(s, e);
    StepNoShardLost(s, e, all);
    StepOneJob(s, e);
    StepDrops(s, e);
    StepLedger(s, e);
    StepOwes(s, e);
  }

  lemma ReplyInv(s: State, c: Call, ok: bool, t: State, all: seq<FileShard>)
    requires Inv(s, all) && c in s.calls && t == Woken(Answer(s, c, ok))
    ensures Inv(t, all)
  {
    StepInv(s, Reply(c, ok), all);
    ReplyIs(s, c, ok, t);
  }

  lemma ReplyIs(s: State, c: Call, ok: bool, t: State)
    requires c in s.calls && t == Woken(Answer(s, c, ok))
    ensures Step(s, Reply(c, ok)) == t
  {
  }

  lemma {:induction false} OccursOnce(n: nat, from: nat, a: nat)
    requires from <= n
    ensures var q: seq<nat> := seq(n - from, i requires 0 <= i => from + i);
      Occurs(q, a) == if from <= a < n then 1 else 0
    decreases n - from
  {
    if from < n {
      var q: seq<nat> := seq(n - from, i requires 0 <= i => from + i);
      var r: seq<nat> := seq(n - (from + 1), i requires 0 <= i => from + 1 + i);
      assert q[1..] == r;
      OccursOnce(n, from + 1, a);
    }
  }

  lemma {:induction false} NothingCompleted(n: nat)
    ensures CompletedIn(seq(n, _ => Worker([], 0))) == 0
    decreases n
  {
    if n > 0 {
      assert seq(n, _ => Worker([], 0))[1..] == seq(n - 1, _ => Worker([], 0));
      NothingCompleted(n - 1);
    }
  }

  lemma StartInv(all: seq<FileShard>, workers: nat)
    ensures Inv(Start(all, workers), all)
  {
    var s := Start(all, workers);
    GatherNone(s.clients, SlotBag);
    assert Rest(s) == all;
    NothingCompleted(workers);
    forall a: nat ensures Engaged(s, a) <= if a < |s.clients| then 1 else 0 {
      OccursOnce(workers, 0, a);
      assert s.ready == seq(workers - 0, i requires 0 <= i => 0 + i);
    }
  }

  /** In every interleaving of dispatches, answers, errors and failures. */
  lemma RunInv(all: seq<FileShard>, workers: nat, schedule: seq<Event>)
    ensures Inv(Run(Step, Start(all, workers), schedule), all)
  {
    StartInv(all, workers);
    forall s: State, e: Event | Inv(s, all) ensures Inv(Step(s, e), all) { StepInv(s, e, all); }
    RunKeeps(Step, s => Inv(s, all), Start(all, workers), schedule);
  }

  /** Clients neither appear nor disappear, though they may be gone. */
  lemma RunClients(all: seq<FileShard>, workers: nat, schedule: seq<Event>)
    ensures |Run(Step, Start(all, workers), schedule).clients| == workers
  {
    forall s: State, e: Event | |s.clients| == workers ensures |Step(s, e).clients| == workers { SameShards(s, e); }
    RunKeeps(Step, (s: State) => |s.clients| == workers, Start(all, workers), schedule);
  }

  /** No worker ever has two jobs, or is offered a second one while it has one. */
  lemma RunOneJob(all: seq<FileShard>, workers: nat, schedule: seq<Event>, a: nat)
    ensures Engaged(Run(Step, Start(all, workers), schedule), a) <= 1
  {
    RunInv(all, workers, schedule);
  }

  /**
   Until the map phase is complete, every shard is waiting, with a worker that is still there, or among the
   unfinished.
  */
  lemma RunNoShardLost(all: seq<FileShard>, workers: nat, schedule: seq<Event>)
    ensures var s := Run(Step, Start(all, workers), schedule);
      !s.mapComplete ==> multiset(all) <= WithWorkers(s) + (multiset(Rest(s)) + multiset(s.unfinished))
  {
    RunInv(all, workers, schedule);
  }

  // ---- completion

  predicate Completes(s: State) {
    !s.mapComplete && DecideStep(s).mapComplete
  }

  /** When the map phase is declared complete, every shard has been sent to a worker that is still there. */
  lemma CompleteMeansSent(s: State, all: seq<FileShard>)
    requires Inv(s, all) && Completes(s)
    ensures multiset(all) <= WithWorkers(DecideStep(s))
    ensures CompletedIn(s.clients) == |all| + s.errors
  {
    assert Rest(s) == [];
  }

  ghost predicate AllCompleted(clients: seq<Slot>) {
    forall a :: 0 <= a < |clients| && clients[a].Worker? ==> clients[a].completed == |clients[a].mapShards|
  }

  /**
   With nothing left to do: the count matches exactly if there was no error and every worker has answered for all its
   shards.
  */
  lemma CountMatchesIff(s: State, all: seq<FileShard>)
    requires Inv(s, all) && !s.mapComplete && !s.rescanned && Rest(s) == [] && s.unfinished == []
    ensures Answered(s) == s.numShards <==> s.errors == 0 && AllCompleted(s.clients)
    ensures WithWorkers(s) == multiset(all)
  {
    forall a: nat | a < |s.clients| && s.clients[a].Worker? ensures s.clients[a].completed <= |s.clients[a].mapShards| {
      assert Owes(s, a);
    }
    CompletedAtMostSent(s.clients);
    SentIsSize(s.clients);
    assert |multiset(all)| == |all|;
  }

  /**
   In every reachable state the map phase is declared complete exactly if nothing is unfinished and the
   workers that are still there have given one answer for each shard, and one more for each error.
   Which shards they have answered for is not looked at.
  */
  lemma CompletesIff(s: State, all: seq<FileShard>)
    requires Inv(s, all) && s.pc == Notified
    ensures Completes(s) <==> s.unfinished == [] && CompletedIn(s.clients) == |all| + s.errors
  {
  }

  /** At completion nothing is outstanding exactly if no more shards than that have been sent to these workers. */
  lemma NothingOutstandingIff(s: State, all: seq<FileShard>)
    requires Inv(s, all) && Completes(s)
    ensures AllCompleted(s.clients) <==> SentIn(s.clients) == |all| + s.errors
  {
    CompletesIff(s, all);
    forall a: nat | a < |s.clients| && s.clients[a].Worker? ensures s.clients[a].completed <= |s.clients[a].mapShards| {
      assert Owes(s, a);
    }
    CompletedAtMostSent(s.clients);
  }

  // ---- which shards have been answered for

  /** The shards that a worker has answered for: all that were sent to it but the last, or all (`RunTurns`). */
  function AnsweredShards(c: Slot): seq<FileShard> {
    if c.Gone? then [] else if c.completed <= |c.mapShards| then c.mapShards[..c.completed] else c.mapShards
  }

  ghost function AnsweredBag(c: Slot): multiset<FileShard> {
    multiset(AnsweredShards(c))
  }

  ghost function AnsweredFor(s: State): multiset<FileShard> {
    Gather(s.clients, AnsweredBag)
  }

  lemma {:induction false} AnsweredSize(clients: seq<Slot>)
    requires forall a :: 0 <= a < |clients| && clients[a].Worker? ==> clients[a].completed <= |clients[a].mapShards|
    ensures |Gather(clients, AnsweredBag)| == CompletedIn(clients)
    decreases |clients|
  {
    if clients != [] {
      AnsweredSize(clients[1..]);
      assert |AnsweredBag(clients[0])| == |AnsweredShards(clients[0])|;
    }
  }

  lemma SameSize<T>(x: multiset<T>, b: multiset<T>)
    requires x <= b && |x| == |b|
    ensures x == b
  {
    assert b == x + (b - x);
  }

  /** A bag that is `e` larger than another contains it exactly if it has `e` elements that the other has not. */
  lemma ContainsIff<T>(a: multiset<T>, b: multiset<T>, e: nat)
    requires |a| == |b| + e
    ensures b <= a <==> |a - b| == e
    ensures e == 0 ==> (b <= a <==> a <= b)
  {
    assert a == (a - b) + (a * b);
    if b <= a { assert a * b == b; }
    if |a - b| == e { SameSize(a * b, b); }
    if e == 0 && b <= a { SameSize(b, a); }
    if e == 0 && a <= b { SameSize(a, b); }
  }

  /**
   At completion every shard has been answered for exactly if there are no more answers too many than there were
   errors: without errors, exactly if no shard has been answered for more often than it occurs.
  */
  lemma AllAnsweredForIff(s: State, all: seq<FileShard>)
    requires Inv(s, all) && Completes(s)
    ensures multiset(all) <= AnsweredFor(s) <==> |AnsweredFor(s) - multiset(all)| == s.errors
    ensures s.errors == 0 ==> (multiset(all) <= AnsweredFor(s) <==> AnsweredFor(s) <= multiset(all))
  {
    CompletesIff(s, all);
    forall a: nat | a < |s.clients| && s.clients[a].Worker? ensures s.clients[a].completed <= |s.clients[a].mapShards| {
      assert Owes(s, a);
    }
    AnsweredSize(s.clients);
    assert |multiset(all)| == |all|;
    ContainsIff(AnsweredFor(s), multiset(all), s.errors);
  }

  /** A worker that waits for a job, or reduces, has answered for all it was sent; others may owe the last answer. */
  ghost predicate Turn(s: State, a: nat)
    requires a < |s.clients|
  {
    s.clients[a].Worker? ==>
      && |s.clients[a].mapShards| <= s.clients[a].completed + 1
      && (Occurs(s.ready, a) > 0 || s.calls[Call(a, false)] > 0 ==> s.clients[a].completed == |s.clients[a].mapShards|)
  }

  ghost predicate Turns(s: State) {
    forall a: nat :: a < |s.clients| ==> Turn(s, a)
  }

  lemma DispatchTurn(s: State, a: nat)
    requires OneJob(s) && Turns(s) && a < |s.clients|
    ensures |DispatchMapStep(s).clients| == |s.clients| && Turn(DispatchMapStep(s), a)
  {
    assert Turn(s, a);
    assert Engaged(s, a) <= 1;
  }

  lemma DispatchReduceTurn(s: State, a: nat)
    requires Turns(s) && a < |s.clients|
    ensures |DispatchReduceStep(s).clients| == |s.clients| && Turn(DispatchReduceStep(s), a)
  {
    assert Turn(s, a);
  }

  lemma AnswerTurn(s: State, c: Call, ok: bool, a: nat)
    requires AllOwe(s) && Turns(s) && a < |s.clients| && c in s.calls
    ensures |Answer(s, c, ok).clients| == |s.clients| && Turn(Answer(s, c, ok), a)
  {
    assert Turn(s, a) && Owes(s, a);
    assert s.calls[Call(c.addr, c.isMap)] > 0;
    OccursSnoc(s.ready, c.addr, a);
  }

  lemma OtherTurn(s: State, e: Event, a: nat)
    requires Turns(s) && a < |s.clients| && (e.EndOfPass? || e.Fail? || e.Decide? || e.NextPass?)
    ensures |Step(s, e).clients| == |s.clients| && Turn(Step(s, e), a)
  {
    assert Turn(s, a);
    OthersEngaged(s, e);
    SameShards(s, e);
  }

  lemma StepTurns(s: State, e: Event)
    requires OneJob(s) && AllOwe(s) && Turns(s)
    ensures Turns(Step(s, e))
  {
    SameShards(s, e);
    forall a: nat | a < |Step(s, e).clients| ensures Turn(Step(s, e), a) {
      match e {
        case DispatchMap => DispatchTurn(s, a);
        case DispatchReduce => DispatchReduceTurn(s, a);
        case Reply(c, ok) =>
          if c in s.calls {
            AnswerTurn(s, c, ok, a);
            WokenSame(Answer(s, c, ok));
          } else {
            assert Turn(s, a);
          }
        case _ => OtherTurn(s, e, a);
      }
    }
  }

  /** In every run: a worker that is still there has answered for all the shards sent to it, or for all but the last. */
  lemma RunTurns(all: seq<FileShard>, workers: nat, schedule: seq<Event>, a: nat)
    requires a < |Run(Step, Start(all, workers), schedule).clients|
    ensures var c := Run(Step, Start(all, workers), schedule).clients[a];
      c.Worker? ==> c.completed <= |c.mapShards| <= c.completed + 1
  {
    StartInv(all, workers);
    forall s: State, e: Event | Inv(s, all) && Turns(s) ensures Inv(Step(s, e), all) && Turns(Step(s, e)) {
      StepInv(s, e, all);
      StepTurns(s, e);
    }
    RunKeeps(Step, s => Inv(s, all) && Turns(s), Start(all, workers), schedule);
    var s := Run(Step, Start(all, workers), schedule);
    assert Turn(s, a) && Owes(s, a);
  }

  /**
   As long as no pass has started over, the map phase is declared complete exactly if nothing is left to
   do, no call has ever failed, and every worker that is still there has answered for all its shards.
  */
  lemma FirstPassesCompleteIff(s: State, all: seq<FileShard>)
    requires Inv(s, all) && s.pc == Notified && !s.rescanned
    ensures Completes(s) <==> s.unfinished == [] && s.errors == 0 && AllCompleted(s.clients)
  {
    assert Rest(s) == [];
    CompletesIff(s, all);
    if s.unfinished == [] { CountMatchesIff(s, all); }
  }

  /**
   As long as nobody was dropped and no pass has started over, an answer wakes the waiting master exactly if it is the
   last one and no call has failed.
  */
  lemma WokenIff(s: State, all: seq<FileShard>)
    requires Inv(s, all) && s.pc == Waiting && !s.rescanned && s.numDroppedWorkers == 0 && s.unfinished == []
    ensures Woken(s).pc == Notified <==> s.errors == 0 && AllCompleted(s.clients)
  {
    assert Rest(s) == [];
    CountMatchesIff(s, all);
  }

  /** A failure before the master looks wakes it with the next answer, whatever that is. */
  lemma FailureWakes(s: State, c: Call, ok: bool)
    requires s.pc == Waiting && s.numDroppedWorkers > 0 && c in s.calls
    ensures ReplyStep(s, c, ok).pc == Notified
  {
    AnswerSamePc(s, c, ok);
  }

  lemma AnswerSamePc(s: State, c: Call, ok: bool)
    ensures Answer(s, c, ok).pc == s.pc && Answer(s, c, ok).numDroppedWorkers == s.numDroppedWorkers
  {
  }

  /** Then no worker that is still there is working on a map call. */
  lemma NoCallPending(s: State, a: nat)
    requires AllOwe(s) && AllCompleted(s.clients) && Live(s, a)
    ensures s.calls[Call(a, true)] == 0
  {
    assert Owes(s, a);
  }

  // ---- runs without failures

  predicate Harmless(e: Event) {
    !e.Fail? && !(e.Reply? && !e.ok)
  }

  /** Every shard has been sent exactly once, and answered for. */
  ghost predicate AllAnswered(clients: seq<Slot>, calls: multiset<Call>, all: seq<FileShard>) {
    && Gather(clients, SlotBag) == multiset(all) && AllCompleted(clients)
    && forall a: nat {:trigger Call(a, true)} :: calls[Call(a, true)] == 0
  }

  ghost predicate NoFailures(s: State) {
    !s.rescanned && s.numDroppedWorkers == 0 && s.errors == 0 && s.unfinished == [] && s.dropped == {}
  }

  predicate Over(pc: Pc) {
    pc == Notified || pc == Decided || pc == Reducing
  }

  /** Without failures no pass ever starts over, and reducing waits for every shard to be answered for. */
  ghost predicate Smooth(s: State, all: seq<FileShard>) {
    && NoFailures(s)
    && (Over(s.pc) ==> AllAnswered(s.clients, s.calls, all))
    && (s.pc == Decided ==> s.mapComplete)
    && (forall a: nat {:trigger Call(a, false)} :: s.calls[Call(a, false)] > 0 ==> s.pc == Reducing)
  }

  lemma MatchMeansAnswered(s: State, all: seq<FileShard>)
    requires Inv(s, all) && NoFailures(s) && !s.mapComplete && Rest(s) == [] && Answered(s) == s.numShards
    ensures AllAnswered(s.clients, s.calls, all)
  {
    CountMatchesIff(s, all);
    forall a: nat ensures s.calls[Call(a, true)] == 0 {
      assert Engaged(s, a) <= if a < |s.clients| then 1 else 0;
      if a < |s.clients| { NoCallPending(s, a); }
    }
  }

  lemma SmoothDispatchMap(s: State, all: seq<FileShard>)
    requires Smooth(s, all)
    ensures Smooth(DispatchMapStep(s), all)
  {
    assert s.pc != Dispatching ==> DispatchMapStep(s) == s;
  }

  lemma SmoothDispatchReduce(s: State, all: seq<FileShard>)
    requires Smooth(s, all)
    ensures Smooth(DispatchReduceStep(s), all)
  {
    assert s.pc != Reducing ==> DispatchReduceStep(s) == s;
    BooksSame(s, DispatchReduce);
  }

  /** What an answer leaves as it was. */
  lemma AnswerSame(s: State, c: Call)
    ensures var t := Answer(s, c, true);
      && t.pc == s.pc && t.mapComplete == s.mapComplete && (NoFailures(s) ==> NoFailures(t))
      && t.shards == s.shards && t.next == s.next && t.calls == s.calls - multiset{c} &&
         (!c.isMap ==> t.clients == s.clients)
  {
  }

  lemma SmoothAnswer(s: State, c: Call, all: seq<FileShard>)
    requires Smooth(s, all) && c in s.calls
    ensures Smooth(Answer(s, c, true), all)
  {
    AnswerSame(s, c);
    assert s.calls[Call(c.addr, c.isMap)] > 0;
  }

  lemma SmoothReply(s: State, c: Call, all: seq<FileShard>)
    requires Smooth(s, all) && Inv(ReplyStep(s, c, true), all)
    ensures Smooth(ReplyStep(s, c, true), all)
  {
    var t := ReplyStep(s, c, true);
    if c in s.calls {
      SmoothAnswer(s, c, all);
      SmoothWoken(Answer(s, c, true), all);
    }
  }

  lemma SmoothWoken(s: State, all: seq<FileShard>)
    requires Smooth(s, all) && Inv(Woken(s), all)
    ensures Smooth(Woken(s), all)
  {
    WokenSame(s);
    var t := Woken(s);
    if t != s {
      assert Rest(t) == [];
      MatchMeansAnswered(t, all);
    }
  }

  lemma SmoothDecide(s: State, all: seq<FileShard>)
    requires Smooth(s, all) && Inv(s, all)
    ensures Smooth(DecideStep(s), all)
  {
    if s.pc == Notified {
      assert Rest(s) == [];
      CountMatchesIff(s, all);
    }
  }

  lemma SmoothPass(s: State, all: seq<FileShard>)
    requires Smooth(s, all)
    ensures Smooth(Step(s, EndOfPass), all) && Smooth(NextPassStep(s), all)
  {
  }

  lemma StepSmooth(s: State, e: Event, all: seq<FileShard>)
    requires Smooth(s, all) && Inv(s, all) && Harmless(e)
    ensures Smooth(Step(s, e), all) && Inv(Step(s, e), all)
  {
    StepInv(s, e, all);
    match e {
      case DispatchMap => SmoothDispatchMap(s, all);
      case DispatchReduce => SmoothDispatchReduce(s, all);
      case Reply(c, ok) => SmoothReply(s, c, all);
      case Decide => SmoothDecide(s, all);
      case _ => SmoothPass(s, all);
    }
  }

  lemma {:induction false} RunSmooth(s: State, all: seq<FileShard>, schedule: seq<Event>)
    requires Smooth(s, all) && Inv(s, all) && forall k :: 0 <= k < |schedule| ==> Harmless(schedule[k])
    ensures Smooth(Run(Step, s, schedule), all) && Inv(Run(Step, s, schedule), all)
    decreases |schedule|
  {
    if schedule != [] {
      StepSmooth(s, schedule[0], all);
      RunSmooth(Step(s, schedule[0]), all, schedule[1..]);
    }
  }

  /**
   In a run without failures the reduce phase starts only when every shard has been sent to exactly one
   worker and answered for; before that no reduce call is ever sent.
  */
  lemma ReduceWaitsForMap(all: seq<FileShard>, workers: nat, schedule: seq<Event>, a: nat)
    requires forall k :: 0 <= k < |schedule| ==> Harmless(schedule[k])
    ensures var s := Run(Step, Start(all, workers), schedule);
      && (s.mapComplete ==> AllAnswered(s.clients, s.calls, all))
      && (s.calls[Call(a, false)] > 0 ==> s.mapComplete)
  {
    StartInv(all, workers);
    RunSmooth(Start(all, workers), all, schedule);
  }

  // ---- runs with failures

  /** Completion means that every worker that is still there has answered, unless a pass has started over. */
  ghost predicate CompleteMeansDone(s: State) {
    s.mapComplete && !s.rescanned ==> AllCompleted(s.clients)
  }

  lemma AnswerDone(s: State, c: Call, ok: bool)
    requires AllOwe(s) && AllCompleted(s.clients) && c in s.calls
    ensures AllCompleted(Answer(s, c, ok).clients)
  {
    assert s.calls[Call(c.addr, c.isMap)] > 0;
    if Live(s, c.addr) { NoCallPending(s, c.addr); }
  }

  lemma FailDone(s: State, a: nat)
    requires AllCompleted(s.clients)
    ensures AllCompleted(FailStep(s, a).clients)
  {
  }

  lemma CompleteFlags(s: State, e: Event)
    ensures Step(s, e).mapComplete ==> s.mapComplete || e == Decide
    ensures s.rescanned ==> Step(s, e).rescanned
    ensures Step(s, e).errors >= s.errors
  {
    match e {
      case Reply(c, ok) => WokenSame(Answer(s, c, ok));
      case _ =>
    }
  }

  lemma DecideDone(s: State, all: seq<FileShard>)
    requires Inv(s, all) && CompleteMeansDone(s)
    ensures CompleteMeansDone(DecideStep(s))
  {
    if s.pc == Notified && !s.rescanned { FirstPassesCompleteIff(s, all); }
  }

  lemma StepDone(s: State, e: Event, all: seq<FileShard>)
    requires Inv(s, all) && CompleteMeansDone(s)
    ensures CompleteMeansDone(Step(s, e))
  {
    CompleteFlags(s, e);
    match e {
      case DispatchMap => assert s.mapComplete ==> DispatchMapStep(s) == s;
      case Reply(c, ok) =>
        ReplyLists(s, c, ok);
        if c in s.calls && s.mapComplete && !s.rescanned { AnswerDone(s, c, ok); }
      case Fail(a) =>
        if s.mapComplete && !s.rescanned { FailDone(s, a); }
      case Decide => DecideDone(s, all);
      case _ => BooksSame(s, e);
    }
  }

  /**
   In every run, failures and errors included: once the map phase is declared complete, every worker that is
   still there has answered for all its shards and is working on none, unless a pass has started over.
  */
  lemma RunDone(all: seq<FileShard>, workers: nat, schedule: seq<Event>)
    ensures var s := Run(Step, Start(all, workers), schedule);
      s.mapComplete && !s.rescanned ==>
        && AllCompleted(s.clients)
        && forall a: nat {:trigger Call(a, true)} :: Live(s, a) ==> s.calls[Call(a, true)] == 0
  {
    StartInv(all, workers);
    forall s: State, e: Event | Inv(s, all) && CompleteMeansDone(s)
      ensures Inv(Step(s, e), all) && CompleteMeansDone(Step(s, e))
    {
      StepInv(s, e, all);
      StepDone(s, e, all);
    }
    RunKeeps(Step, s => Inv(s, all) && CompleteMeansDone(s), Start(all, workers), schedule);
    var s := Run(Step, Start(all, workers), schedule);
    forall a: nat | s.mapComplete && !s.rescanned && Live(s, a) ensures s.calls[Call(a, true)] == 0 {
      NoCallPending(s, a);
    }
  }

  // ---- errors

  /** After an error reply the map phase is not complete, or a pass has started over. */
  ghost predicate Blocked(s: State) {
    s.errors > 0 && (!s.mapComplete || s.rescanned)
  }

  lemma StepBlocked(s: State, e: Event, all: seq<FileShard>)
    requires Inv(s, all) && Blocked(s)
    ensures Blocked(Step(s, e))
  {
    CompleteFlags(s, e);
    if e == Decide && s.pc == Notified && !s.rescanned { FirstPassesCompleteIff(s, all); }
  }

  /** And so it stays: whatever follows, the phase is never declared complete before a pass starts over. */
  lemma ErrorBlocksCompletion(s: State, all: seq<FileShard>, schedule: seq<Event>)
    requires Inv(s, all) && s.errors > 0 && !s.mapComplete
    ensures Blocked(Run(Step, s, schedule))
  {
    forall t: State, e: Event | Inv(t, all) && Blocked(t) ensures Inv(Step(t, e), all) && Blocked(Step(t, e)) {
      StepInv(t, e, all);
      StepBlocked(t, e, all);
    }
    RunKeeps(Step, t => Inv(t, all) && Blocked(t), s, schedule);
  }

  /** The shortest such run: one shard, one worker, one error reply. */
  lemma ErrorReply(a: FileShard)
    ensures var s := Run(Step, Start([a], 1), [DispatchMap, Reply(Call(0, true), false)]);
      && Inv(s, [a]) && s.errors == 1 && !s.mapComplete
      && s.clients == [Worker([a], 0)] && s.calls == multiset{} && s.ready == []
  {
    var s := Start([a], 1);
    RunOfTwo(Step, s, Step(s, DispatchMap), Step(Step(s, DispatchMap), Reply(Call(0, true), false)),
             DispatchMap, Reply(Call(0, true), false));
    FirstCall(a);
    FailedCall(Step(s, DispatchMap), a);
    RunInv([a], 1, [DispatchMap, Reply(Call(0, true), false)]);
  }

  lemma FirstCall(a: FileShard)
    ensures var t := Step(Start([a], 1), DispatchMap);
      && t.pc == Dispatching && t.errors == 0 && !t.mapComplete
      && t.clients == [Worker([a], 0)] && t.calls == multiset{Call(0, true)} && t.ready == []
  {
    assert Start([a], 1).ready == [0];
    assert [] + [a] == [a];
  }

  lemma FailedCall(s: State, a: FileShard)
    requires s.pc == Dispatching && s.errors == 0 && !s.mapComplete
    requires s.clients == [Worker([a], 0)] && s.calls == multiset{Call(0, true)} && s.ready == []
    ensures var t := Step(s, Reply(Call(0, true), false));
      && t.errors == 1 && !t.mapComplete && t.clients == [Worker([a], 0)] && t.calls == multiset{} && t.ready == []
  {
  }
}
