/** One producer and any number of consumers on a locked queue (prelab/producer_consumer.c). */
module ProducerConsumer {
  import opened Sequences
  import opened Bags
  import opened FairRuns
  import opened Sums
  import opened LinkedQueue

  // Who holds a mutex.
  datatype Owner = Nobody | TheProducer | Consumer(id: nat)

  /**
   The producer's next action: MakeNode (115-120), TakeQueue (123), Link (124-136), GiveQueue (137),
   TakeNum (143), Decrement (144), GiveNum (145).
  */
  datatype ProducerPc = MakeNode | TakeQueue | Link | GiveQueue | TakeNum | Decrement | GiveNum | Finished

  /**
   A consumer's next action: LockQueue (176, 204), LockNum (177, 205), Test (178), UnlockNum (179),
   Remove (181-191), UnlockRemoved (192), Print (195-197), UnlockEmpty (200), ExitNum (207), ExitQueue (208).
  */
  datatype ConsumerPc = LockQueue | LockNum | Test | UnlockNum | Remove | UnlockRemoved | Print
                      | UnlockEmpty | ExitNum | ExitQueue | Exited

  /** `node` is the character of the node last removed; `printed` is what the consumer has printed. */
  datatype Thread = Thread(pc: ConsumerPc, node: char, count: nat, printed: seq<char>)

  /** `removed` records the characters in the order in which they left the queue. */
  datatype State = State(queue: seq<char>, numProd: int, queueLock: Owner, numLock: Owner,
                         pc: ProducerPc, c: char, consumers: seq<Thread>, removed: seq<char>)

  function Start(n: nat): State {
    State([], 1, Nobody, Nobody, MakeNode, 'a', seq(n, _ => Thread(LockQueue, 'a', 0, [])), [])
  }

  function Succ(c: char): char
    requires c <= 'z'
  {
    (c as int + 1) as char
  }

  function ProducerStep(s: State): State {
    match s.pc
    case MakeNode => s.(pc := if s.c <= 'z' then TakeQueue else TakeNum)
    case TakeQueue => if s.queueLock == Nobody then s.(queueLock := TheProducer, pc := Link) else s
    case Link => s.(queue := s.queue + [s.c], pc := GiveQueue)
    case GiveQueue => s.(queueLock := Nobody, pc := MakeNode, c := if s.c <= 'z' then Succ(s.c) else s.c)
    case TakeNum => if s.numLock == Nobody then s.(numLock := TheProducer, pc := Decrement) else s
    case Decrement => s.(numProd := s.numProd - 1, pc := GiveNum)
    case GiveNum => s.(numLock := Nobody, pc := Finished)
    case Finished => s
  }

  /** What a consumer's action does to its own variables. */
  function Local(s: State, i: nat): Thread
    requires i < |s.consumers|
  {
    var t := s.consumers[i];
    match t.pc
    case LockQueue => if s.queueLock == Nobody then t.(pc := LockNum) else t
    case LockNum => if s.numLock == Nobody then t.(pc := Test) else t
    case Test => t.(pc := if s.queue != [] || s.numProd > 0 then UnlockNum else ExitNum)
    case UnlockNum => t.(pc := Remove)
    case Remove => if s.queue != [] then t.(pc := UnlockRemoved, node := s.queue[0]) else t.(pc := UnlockEmpty)
    case UnlockRemoved => t.(pc := Print)
    case Print => t.(pc := LockQueue, count := t.count + 1, printed := t.printed + [t.node])
    case UnlockEmpty => t.(pc := LockQueue)
    case ExitNum => t.(pc := ExitQueue)
    case ExitQueue => t.(pc := Exited)
    case Exited => t
  }

  /** What it does to the shared variables. */
  function Shared(s: State, i: nat): State
    requires i < |s.consumers|
  {
    match s.consumers[i].pc
    case LockQueue => if s.queueLock == Nobody then s.(queueLock := Consumer(i)) else s
    case LockNum => if s.numLock == Nobody then s.(numLock := Consumer(i)) else s
    case Remove => if s.queue != [] then s.(queue := s.queue[1..], removed := s.removed + [s.queue[0]]) else s
    case UnlockNum | ExitNum => s.(numLock := Nobody)
    case UnlockRemoved | UnlockEmpty | ExitQueue => s.(queueLock := Nobody)
    case Test | Print | Exited => s
  }

  function ConsumerStep(s: State, i: nat): State
    requires i < |s.consumers|
  {
    Shared(s, i).(consumers := s.consumers[i := Local(s, i)])
  }

  /** Label 0 is the producer, label `i + 1` consumer `i`. */
  function Step(s: State, l: nat): State {
    if l == 0 then ProducerStep(s)
    else if l - 1 < |s.consumers| then ConsumerStep(s, l - 1)
    else s
  }

  // ---- the invariant

  predicate HoldsQueue(pc: ConsumerPc) {
    !(pc.LockQueue? || pc.Print? || pc.Exited?)
  }

  predicate HoldsNum(pc: ConsumerPc) {
    pc.Test? || pc.UnlockNum? || pc.ExitNum?
  }

  predicate HoldsNode(pc: ConsumerPc) {
    pc.UnlockRemoved? || pc.Print?
  }

  predicate Leaving(pc: ConsumerPc) {
    pc.ExitNum? || pc.ExitQueue? || pc.Exited?
  }

  /** Mutual exclusion: who is between lock and unlock is exactly who owns the mutex. */
  ghost predicate Locks(s: State) {
    && (s.queueLock == TheProducer <==> s.pc.Link? || s.pc.GiveQueue?)
    && (s.numLock == TheProducer <==> s.pc.Decrement? || s.pc.GiveNum?)
    && (s.queueLock.Consumer? ==> s.queueLock.id < |s.consumers|)
    && (s.numLock.Consumer? ==> s.numLock.id < |s.consumers|)
    && (forall i: nat :: i < |s.consumers| ==> LocksOf(s, i))
  }

  ghost predicate LocksOf(s: State, i: nat)
    requires i < |s.consumers|
  {
    && (s.queueLock == Consumer(i) <==> HoldsQueue(s.consumers[i].pc))
    && (s.numLock == Consumer(i) <==> HoldsNum(s.consumers[i].pc))
  }

  function Letters(k: nat): string
    requires k <= 26
  {
    seq(k, i requires 0 <= i < k => ('a' as int + i) as char)
  }

  /** How many letters the producer has appended. */
  function Appended(s: State): int {
    s.c as int - 'a' as int + if s.pc == GiveQueue then 1 else 0
  }

  ghost predicate ProducerInv(s: State) {
    && 'a' <= s.c <= '{'
    && (s.pc.TakeQueue? || s.pc.Link? || s.pc.GiveQueue? ==> s.c <= 'z')
    && (s.pc.TakeNum? || s.pc.Decrement? || s.pc.GiveNum? || s.pc.Finished? ==> s.c == '{')
    && s.numProd == (if s.pc.GiveNum? || s.pc.Finished? then 0 else 1)
  }

  /** What has been removed and what is queued is what has been produced, in order. */
  ghost predicate QueueInv(s: State) {
    ProducerInv(s) && s.removed + s.queue == Letters(Appended(s))
  }

  predicate Done(s: State) {
    s.queue == [] && s.numProd == 0
  }

  ghost predicate ExitsAreFinal(s: State) {
    forall i: nat :: i < |s.consumers| ==> FinalFor(s, i)
  }

  ghost predicate FinalFor(s: State, i: nat)
    requires i < |s.consumers|
  {
    Leaving(s.consumers[i].pc) ==> Done(s)
  }

  /** What one consumer has taken out of the queue. */
  function Own(t: Thread): seq<char> {
    t.printed + if HoldsNode(t.pc) then [t.node] else []
  }

  ghost function OwnBag(t: Thread): multiset<char> {
    multiset(Own(t))
  }

  /** What the consumers have taken out of the queue together. */
  ghost function Taken(ts: seq<Thread>): multiset<char> {
    Gather(ts, OwnBag)
  }

  ghost predicate Counted(ts: seq<Thread>) {
    forall i :: 0 <= i < |ts| ==> ts[i].count == |ts[i].printed|
  }

  ghost predicate Control(s: State) {
    Locks(s) && QueueInv(s) && ExitsAreFinal(s)
  }

  ghost predicate Inv(s: State) {
    Control(s) && Accounted(s)
  }

  lemma StartControl(n: nat)
    ensures Control(Start(n))
  {
    assert Locks(Start(n));
    assert ExitsAreFinal(Start(n));
  }

  lemma StartInv(n: nat)
    ensures Inv(Start(n))
  {
    StartControl(n);
    GatherNone(Start(n).consumers, OwnBag);
  }

  // ---- every step keeps it

  lemma LettersSnoc(k: nat)
    requires k < 26
    ensures Letters(k + 1) == Letters(k) + [('a' as int + k) as char]
  {
  }

  lemma ProducerKeeps(s: State)
    requires Control(s)
    ensures Control(ProducerStep(s))
  {
    ProducerLocks(s);
    ProducerQueue(s);
    ProducerExits(s);
  }

  lemma ProducerTakesNothing(s: State)
    ensures ProducerStep(s).consumers == s.consumers && ProducerStep(s).removed == s.removed
  {
  }

  lemma ProducerQueue(s: State)
    requires QueueInv(s)
    ensures QueueInv(ProducerStep(s))
  {
    if s.pc == Link {
      LettersSnoc(s.c as int - 'a' as int);
      assert s.removed + (s.queue + [s.c]) == (s.removed + s.queue) + [s.c];
    }
  }

  lemma ProducerExits(s: State)
    requires ProducerInv(s) && ExitsAreFinal(s)
    ensures ExitsAreFinal(ProducerStep(s))
  {
    var t := ProducerStep(s);
    forall k: nat | k < |t.consumers| ensures FinalFor(t, k) {
      assert FinalFor(s, k);
    }
  }

  lemma ProducerLocks(s: State)
    requires Locks(s)
    ensures Locks(ProducerStep(s))
  {
    var t := ProducerStep(s);
    forall i: nat | i < |t.consumers| ensures LocksOf(t, i) {
      assert LocksOf(s, i);
    }
  }

  lemma ConsumerLocks(s: State, i: nat)
    requires Locks(s) && i < |s.consumers|
    ensures Locks(ConsumerStep(s, i))
  {
    var t := ConsumerStep(s, i);
    assert LocksOf(s, i);
    forall k: nat | k < |t.consumers| ensures LocksOf(t, k) {
      assert LocksOf(s, k);
    }
  }

  lemma ConsumerExits(s: State, i: nat)
    requires ProducerInv(s) && ExitsAreFinal(s) && i < |s.consumers|
    ensures ExitsAreFinal(ConsumerStep(s, i))
  {
    var t := ConsumerStep(s, i);
    assert FinalFor(s, i);
    assert Done(s) ==> Done(t);
    forall k: nat | k < |t.consumers| ensures FinalFor(t, k) {
      assert FinalFor(s, k);
    }
  }

  lemma ConsumerQueue(s: State, i: nat)
    requires QueueInv(s) && i < |s.consumers|
    ensures QueueInv(ConsumerStep(s, i))
  {
    if s.queue != [] {
      assert s.removed + s.queue == (s.removed + [s.queue[0]]) + s.queue[1..];
    }
  }

  ghost predicate Accounted(s: State) {
    Counted(s.consumers) && Taken(s.consumers) == multiset(s.removed)
  }

  predicate Takes(s: State, i: nat)
    requires i < |s.consumers|
  {
    s.consumers[i].pc == Remove && s.queue != []
  }

  lemma TakingAccounts(s: State, i: nat)
    requires i < |s.consumers| && Accounted(s) && Takes(s, i)
    ensures Accounted(ConsumerStep(s, i))
  {
    EmptyRight(s.consumers[i].printed);
    MultisetSnoc(Own(s.consumers[i]), s.queue[0]);
    GatherMore(s.consumers, i, Local(s, i), OwnBag, multiset{s.queue[0]});
    MultisetSnoc(s.removed, s.queue[0]);
  }

  lemma ConsumerTakes(s: State, i: nat)
    requires i < |s.consumers| && Accounted(s)
    ensures Accounted(ConsumerStep(s, i))
  {
    if Takes(s, i) {
      TakingAccounts(s, i);
    } else {
      OwnKept(s, i);
      assert Shared(s, i).removed == s.removed;
      KeepsAccounts(s, ConsumerStep(s, i), i, Local(s, i));
    }
  }

  lemma KeepsAccounts(s: State, s': State, i: nat, t: Thread)
    requires i < |s.consumers| && Accounted(s)
    requires s'.removed == s.removed && s'.consumers == s.consumers[i := t]
    requires Own(t) == Own(s.consumers[i]) && t.count == |t.printed|
    ensures Accounted(s')
  {
    GatherSame(s.consumers, i, t, OwnBag);
  }

  /** Printing moves a character from the node to the output; nothing else changes what a consumer has taken. */
  lemma OwnKept(s: State, i: nat)
    requires i < |s.consumers| && !Takes(s, i) && Counted(s.consumers)
    ensures Own(Local(s, i)) == Own(s.consumers[i])
    ensures Local(s, i).count == |Local(s, i).printed|
  {
    if s.consumers[i].pc == Print { EmptyRight(Local(s, i).printed); }
  }

  lemma ConsumerKeeps(s: State, i: nat)
    requires Control(s) && i < |s.consumers|
    ensures Control(ConsumerStep(s, i))
  {
    ConsumerLocks(s, i);
    ConsumerExits(s, i);
    ConsumerQueue(s, i);
  }

  lemma StepControl(s: State, l: nat)
    requires Control(s)
    ensures Control(Step(s, l))
  {
    if l == 0 {
      ProducerKeeps(s);
    } else if l - 1 < |s.consumers| {
      ConsumerKeeps(s, l - 1);
    }
  }

  lemma StepAccounts(s: State, l: nat)
    requires Accounted(s)
    ensures Accounted(Step(s, l))
  {
    if l == 0 {
      ProducerAccounts(s);
    } else if l - 1 < |s.consumers| {
      ConsumerTakes(s, l - 1);
    }
  }

  lemma ProducerAccounts(s: State)
    requires Accounted(s)
    ensures Accounted(ProducerStep(s))
  {
    ProducerTakesNothing(s);
  }

  lemma StepInv(s: State, l: nat)
    requires Inv(s)
    ensures Inv(Step(s, l))
  {
    StepControl(s, l);
    StepAccounts(s, l);
  }

  // ---- what holds over whole runs

  ghost predicate InvFor(s: State, n: nat) {
    Inv(s) && |s.consumers| == n
  }

  /** In every reachable state: removed ++ queued is what was produced so far, a prefix of the alphabet. */
  lemma RunInv(n: nat, schedule: seq<nat>)
    ensures InvFor(Run(Step, Start(n), schedule), n)
  {
    StartInv(n);
    StepsKeep(n);
    RunKeeps(Step, (s: State) => InvFor(s, n), Start(n), schedule);
  }

  lemma StepsKeep(n: nat)
    ensures forall s: State, l: nat {:trigger Step(s, l)} :: InvFor(s, n) ==> InvFor(Step(s, l), n)
  {
    forall s: State, l: nat | InvFor(s, n) ensures InvFor(Step(s, l), n) {
      StepInv(s, l);
      StepSize(s, l);
    }
  }

  lemma StepSize(s: State, l: nat)
    ensures |Step(s, l).consumers| == |s.consumers|
    ensures s.pc == Finished ==> Step(s, l).pc == Finished
  {
  }

  /** As soon as one consumer has left, the whole alphabet has been taken out, in order. */
  lemma ExitMeansAll(s: State, i: nat)
    requires Control(s) && i < |s.consumers| && s.consumers[i].pc == Exited
    ensures s.removed == Letters(26) && s.queue == []
  {
    assert FinalFor(s, i);
    assert s.removed + s.queue == s.removed;
  }

  function Counts(ts: seq<Thread>): nat {
    if ts == [] then 0 else ts[0].count + Counts(ts[1..])
  }

  lemma {:induction false} CountsAreTaken(ts: seq<Thread>)
    requires Counted(ts) && forall i :: 0 <= i < |ts| ==> !HoldsNode(ts[i].pc)
    ensures |Taken(ts)| == Counts(ts)
    decreases |ts|
  {
    if ts != [] {
      CountsAreTaken(ts[1..]);
      EmptyRight(ts[0].printed);
      assert |multiset(ts[0].printed)| == |ts[0].printed|;
    }
  }

  predicate AllExited(s: State) {
    forall i: nat :: i < |s.consumers| ==> s.consumers[i].pc == Exited
  }

  /**
   When all consumers have left they have printed every letter exactly once between them, and their counts add up to
   26.
  */
  lemma AllPrinted(s: State)
    requires Inv(s) && s.consumers != [] && AllExited(s)
    ensures Counts(s.consumers) == 26 && Taken(s.consumers) == multiset(Letters(26))
  {
    assert s.consumers[0].pc == Exited;
    ExitMeansAll(s, 0);
    CountsAreTaken(s.consumers);
    assert |multiset(s.removed)| == |s.removed| == 26;
  }

  // ---- no deadlock

  predicate CanAct(s: State, l: nat) {
    Step(s, l) != s
  }

  /** Whatever the interleaving, somebody can act until everybody has finished. */
  lemma NoDeadlock(s: State) returns (l: nat)
    requires Control(s) && !(s.pc == Finished && AllExited(s))
    ensures CanAct(s, l)
  {
    l := 0;
    match s.queueLock {
      case TheProducer =>
      case Consumer(i) =>
        assert LocksOf(s, i);
        if s.consumers[i].pc == LockNum && s.numLock != Nobody {
          NumHolder(s);
        } else {
          l := i + 1;
          ConsumerMoves(s, i);
        }
      case Nobody =>
        if s.pc == Finished {
          var i: nat :| i < |s.consumers| && s.consumers[i].pc != Exited;
          assert LocksOf(s, i);
          l := i + 1;
          ConsumerMoves(s, i);
        } else if s.pc == TakeNum && s.numLock != Nobody {
          NumHolder(s);
        }
    }
  }

  /** The mutex of the counter is only ever held by the producer or by whoever holds the queue. */
  lemma NumHolder(s: State)
    requires Locks(s) && s.numLock != Nobody
    ensures s.numLock == TheProducer || s.numLock == s.queueLock
  {
    if s.numLock.Consumer? {
      assert LocksOf(s, s.numLock.id);
    }
  }

  lemma ConsumerMoves(s: State, i: nat)
    requires i < |s.consumers| && s.consumers[i].pc != Exited
    requires s.consumers[i].pc == LockQueue ==> s.queueLock == Nobody
    requires s.consumers[i].pc == LockNum ==> s.numLock == Nobody
    ensures ConsumerStep(s, i) != s && ConsumerStep(s, i).consumers[i].pc != s.consumers[i].pc
  {
  }

  // ---- draining the queue

  function Weight(pc: ConsumerPc): nat {
    match pc
    case LockQueue => 9
    case LockNum => 8
    case Test => 7
    case UnlockNum => 6
    case Remove => 5
    case UnlockRemoved => 11
    case Print => 10
    case UnlockEmpty => 10
    case ExitNum => 2
    case ExitQueue => 1
    case Exited => 0
  }

  function WeightOf(t: Thread): nat { Weight(t.pc) }

  /** Somebody found the producer still busy, and will find the queue empty and try again. */
  predicate WillRetry(s: State) {
    && s.queue == [] && s.queueLock.Consumer? && s.queueLock.id < |s.consumers|
    && (s.consumers[s.queueLock.id].pc.UnlockNum? || s.consumers[s.queueLock.id].pc.Remove?)
  }

  function Work(s: State): nat {
    20 * |s.queue| + Total(s.consumers, WeightOf) + if WillRetry(s) then 8 else 0
  }

  ghost predicate Draining(s: State, n: nat) {
    Control(s) && |s.consumers| == n && s.pc == Finished
  }

  /** Once the producer is done, every step of a consumer that is not blocked brings the end nearer. */
  lemma StepLowers(s: State, i: nat, n: nat)
    requires Draining(s, n) && i < n
    ensures ConsumerStep(s, i) == s || Work(ConsumerStep(s, i)) < Work(s)
  {
    assert LocksOf(s, i);
    TotalUpdate(s.consumers, i, Local(s, i), WeightOf);
    RetryAfter(s, i, n);
  }

  lemma RetryAfter(s: State, i: nat, n: nat)
    requires Draining(s, n) && i < n
    ensures WillRetry(ConsumerStep(s, i)) ==> WillRetry(s)
    ensures s.consumers[i].pc.Remove? && s.queue == [] ==> WillRetry(s) && !WillRetry(ConsumerStep(s, i))
  {
    assert LocksOf(s, i);
    if s.queueLock.Consumer? { assert LocksOf(s, s.queueLock.id); }
  }

  predicate Enabled(s: State, l: nat) {
    && 0 < l <= |s.consumers|
    && var pc := s.consumers[l - 1].pc;
      pc.Print? || s.queueLock == Consumer(l - 1) || (pc.LockQueue? && s.queueLock == Nobody)
  }

  lemma EnabledMoves(s: State, l: nat, n: nat)
    requires Draining(s, n) && Enabled(s, l)
    ensures Step(s, l) != s
  {
    assert LocksOf(s, l - 1);
    if s.numLock != Nobody { NumHolder(s); }
    ConsumerMoves(s, l - 1);
  }

  lemma SomeoneEnabled(s: State, n: nat) returns (l: nat)
    requires Draining(s, n) && 0 < n && Work(s) > 0
    ensures 0 < l <= n && Enabled(s, l)
  {
    if s.queueLock.Consumer? {
      l := s.queueLock.id + 1;
    } else if AllExited(s) {
      assert s.consumers[0].pc == Exited;
      ExitMeansAll(s, 0);
      TotalZero(s.consumers, WeightOf);
      l := 1;
    } else {
      var i: nat :| i < |s.consumers| && s.consumers[i].pc != Exited;
      assert LocksOf(s, i);
      l := i + 1;
    }
  }

  lemma DrainFinishes(s: State, n: nat, rounds: seq<seq<nat>>)
    requires Draining(s, n) && 0 < n && Work(s) <= |rounds|
    requires forall k, l: nat :: 0 <= k < |rounds| && 0 < l <= n ==> Scheduled(Self, rounds[k], l)
    ensures Draining(Run(Step, s, Flatten(rounds)), n) && Work(Run(Step, s, Flatten(rounds))) == 0
  {
    var inv := (t: State) => Draining(t, n);
    var actor := (l: nat) => 0 < l <= n;
    forall t: State, l: nat | inv(t)
      ensures inv(Step(t, l)) && Work(Step(t, l)) <= Work(t)
      ensures Enabled(t, l) ==> Work(Step(t, l)) < Work(t)
    {
      DrainStep(t, l, n);
    }
    forall t: State, l: nat, a: nat | inv(t) && Enabled(t, a) && l != a
      ensures Enabled(Step(t, l), a) || Work(Step(t, l)) < Work(t)
    {
      DrainStep(t, l, n);
    }
    forall t: State | inv(t) && Work(t) > 0 ensures exists a :: actor(a) && Enabled(t, a) {
      var a := SomeoneEnabled(t, n);
      assert actor(a) && Enabled(t, a);
    }
    EachRunFinishes(Step, actor, inv, Work, Enabled, s, rounds);
  }

  /**
   After the producer has returned, all consumers get to the end under any schedule that keeps giving
   each of them a turn.
  */
  lemma DrainCompletes(s: State, n: nat, rounds: seq<seq<nat>>)
    requires Inv(s) && Draining(s, n) && 0 < n && Work(s) <= |rounds|
    requires forall k, l: nat :: 0 <= k < |rounds| && 0 < l <= n ==> Scheduled(Self, rounds[k], l)
    ensures var t := Run(Step, s, Flatten(rounds));
      Inv(t) && |t.consumers| == n && AllExited(t) && Counts(t.consumers) == 26
  {
    DrainFinishes(s, n, rounds);
    NoWorkLeft(Run(Step, s, Flatten(rounds)), n);
    StepsKeep(n);
    RunKeeps(Step, (t: State) => InvFor(t, n), s, Flatten(rounds));
    AllPrinted(Run(Step, s, Flatten(rounds)));
  }

  lemma DrainStep(s: State, l: nat, n: nat)
    requires Draining(s, n)
    ensures Draining(Step(s, l), n)
    ensures Step(s, l) == s || Work(Step(s, l)) < Work(s)
    ensures Enabled(s, l) ==> Step(s, l) != s
  {
    StepControl(s, l);
    StepSize(s, l);
    WorkLowers(s, l, n);
    if Enabled(s, l) { EnabledMoves(s, l, n); }
  }

  lemma WorkLowers(s: State, l: nat, n: nat)
    requires Draining(s, n)
    ensures Step(s, l) == s || Work(Step(s, l)) < Work(s)
  {
    if 0 < l <= n { StepLowers(s, l - 1, n); }
  }

  lemma NoWorkLeft(s: State, n: nat)
    requires Draining(s, n) && Work(s) == 0
    ensures AllExited(s)
  {
    TotalZero(s.consumers, WeightOf);
    forall i: nat | i < n ensures s.consumers[i].pc == Exited {
      assert WeightOf(s.consumers[i]) == 0;
    }
  }

  // ---- the program

  /** The local variables of a consumer; `node` is prev_node_p. */
  datatype Frame = Frame(pc: ConsumerPc, node: Node?, count: nat, printed: seq<char>)

  function ThreadOf(l: Frame): Thread {
    Thread(l.pc, if l.node == null then 'a' else l.node.c, l.count, l.printed)
  }

  function ThreadsOf(ls: seq<Frame>): seq<Thread> {
    seq(|ls|, i requires 0 <= i < |ls| => ThreadOf(ls[i]))
  }

  class Program {
    const queue: Queue
    const threads: array<Frame>
    var numProd: int
    var queueLock: Owner
    var numLock: Owner
    var pc: ProducerPc
    var c: char
    var newNode: Node?
    ghost var removed: seq<char>
    // The nodes that were ever allocated.
    ghost var heap: set<Node>

    ghost predicate Valid()
      reads this, queue, heap
    {
      && (forall x :: x in queue.nodes ==> x in heap) && queue.Valid()
      && (pc.TakeQueue? || pc.Link? ==>
            newNode != null && newNode in heap && newNode !in queue.nodes && newNode.next == null && newNode.c == c)
    }

    ghost function View(): State
      reads this, queue, threads
    {
      State(Chars(queue.nodes), numProd, queueLock, numLock, pc, c, ThreadsOf(threads[..]), removed)
    }

    constructor (n: nat)
      ensures Valid() && View() == Start(n) && fresh(queue) && fresh(threads) && heap == {} && threads.Length == n
    {
      queue := new Queue();
      threads := new Frame[n](_ => Frame(LockQueue, null, 0, []));
      numProd, queueLock, numLock, pc, c, newNode := 1, Nobody, Nobody, MakeNode, 'a', null;
      removed, heap := [], {};
      new;
      assert ThreadsOf(threads[..]) == Start(n).consumers;
    }

    /** Lines 118-120. */
    method AllocateNode()
      requires Valid() && pc == MakeNode && c <= 'z'
      modifies this
      ensures Valid() && fresh(heap - old(heap)) && old(heap) <= heap
      ensures View() == old(View()).(pc := TakeQueue)
    {
      newNode := new Node(c);
      heap := heap + {newNode};
      pc := TakeQueue;
    }

    method LinkNode()
      requires Valid() && pc == Link
      modifies this`pc, queue, heap
      ensures Valid() && pc == GiveQueue && Chars(queue.nodes) == old(Chars(queue.nodes)) + [c]
    {
      queue.Append(newNode);
      pc := GiveQueue;
    }

    /** Lines 123 and 137-140: taking and giving back the queue. */
    method QueueMutex()
      requires Valid() && (pc == TakeQueue || pc == GiveQueue)
      modifies this
      ensures Valid() && heap == old(heap) && View() == ProducerStep(old(View()))
    {
      if pc == GiveQueue {
        queueLock := Nobody;
        pc := MakeNode;
        if c <= 'z' { c := Succ(c); }
      } else if queueLock == Nobody {
        queueLock := TheProducer;
        pc := Link;
      }
    }

    /** Lines 143-145. */
    method SignOff()
      requires Valid() && (pc == TakeNum || pc == Decrement || pc == GiveNum)
      modifies this
      ensures Valid() && heap == old(heap) && View() == ProducerStep(old(View()))
    {
      if pc == Decrement {
        numProd := numProd - 1;
        pc := GiveNum;
      } else if pc == GiveNum {
        numLock := Nobody;
        pc := Finished;
      } else if numLock == Nobody {
        numLock := TheProducer;
        pc := Decrement;
      }
    }

    /** The producer's next action. */
    method AdvanceProducer()
      requires Valid()
      modifies this, queue, heap
      ensures Valid() && fresh(heap - old(heap)) && old(heap) <= heap
      ensures View() == ProducerStep(old(View()))
    {
      match pc {
        case MakeNode =>
          if c <= 'z' {
            AllocateNode();
          } else {
            pc := TakeNum;
          }
        case Link => LinkNode();
        case TakeQueue => QueueMutex();
        case GiveQueue => QueueMutex();
        case Finished =>
        case _ => SignOff();
      }
    }

    /** Lines 184-191. */
    method UnlinkNode() returns (node: Node)
      requires Valid() && queue.front != null
      modifies this`removed, queue, heap
      ensures Valid() && removed == old(removed) + [node.c]
      ensures old(queue.nodes) != [] && node.c == old(Chars(queue.nodes))[0]
      ensures Chars(queue.nodes) == old(Chars(queue.nodes))[1..]
    {
      node := queue.RemoveFront();
      removed := removed + [node.c];
    }

    /** Lines 181-200, up to the unlocking. */
    method RemoveNode(i: nat)
      requires Valid() && i < threads.Length && threads[i].pc == Remove
      modifies this, queue, heap, threads
      ensures Valid() && heap == old(heap)
      ensures View() == ConsumerStep(old(View()), i)
    {
      var t := threads[i];
      ghost var before := threads[..];
      if queue.front != null {
        var node := UnlinkNode();
        t := t.(pc := UnlockRemoved, node := node);
      } else {
        t := t.(pc := UnlockEmpty);
      }
      threads[i] := t;
      assert threads[..] == before[i := t];
      ThreadsUpdate(before, i, t);
    }

    method Store(i: nat, t: Frame)
      requires i < threads.Length
      modifies threads
      ensures ThreadsOf(threads[..]) == old(ThreadsOf(threads[..]))[i := ThreadOf(t)]
    {
      ghost var before := threads[..];
      threads[i] := t;
      assert threads[..] == before[i := t];
      ThreadsUpdate(before, i, t);
    }

    /** A consumer takes both mutexes and looks whether there is, or may be, something to remove. */
    method Acquire(i: nat)
      requires Valid() && i < threads.Length && threads[i].pc in {LockQueue, LockNum, Test}
      modifies this`queueLock, this`numLock, threads
      ensures Valid() && View() == ConsumerStep(old(View()), i)
    {
      var t := threads[i];
      if t.pc == LockQueue {
        if queueLock == Nobody {
          queueLock := Consumer(i);
          t := t.(pc := LockNum);
        }
      } else if t.pc == LockNum {
        if numLock == Nobody {
          numLock := Consumer(i);
          t := t.(pc := Test);
        }
      } else {
        t := t.(pc := if queue.front != null || numProd > 0 then UnlockNum else ExitNum);
      }
      Store(i, t);
    }

    /** It gives a mutex back. */
    method Release(i: nat)
      requires Valid() && i < threads.Length
      requires var pc := threads[i].pc; pc == UnlockNum || pc == UnlockRemoved || pc == UnlockEmpty
      modifies this`queueLock, this`numLock, threads
      ensures Valid() && View() == ConsumerStep(old(View()), i)
    {
      var t := threads[i];
      if t.pc == UnlockNum {
        numLock := Nobody;
        t := t.(pc := Remove);
      } else {
        queueLock := Nobody;
        t := t.(pc := if t.pc == UnlockRemoved then Print else LockQueue);
      }
      Store(i, t);
    }

    /** It prints what it has removed. */
    method PrintNode(i: nat)
      requires Valid() && i < threads.Length && threads[i].pc == Print
      modifies threads
      ensures Valid() && View() == ConsumerStep(old(View()), i)
    {
      var t := threads[i];
      Store(i, t.(pc := LockQueue, count := t.count + 1, printed := t.printed + [ThreadOf(t).node]));
    }

    /** It gives both back and leaves the loop. */
    method Leave(i: nat)
      requires Valid() && i < threads.Length && threads[i].pc in {ExitNum, ExitQueue, Exited}
      modifies this`queueLock, this`numLock, threads
      ensures Valid() && View() == ConsumerStep(old(View()), i)
    {
      var t := threads[i];
      match t.pc {
        case ExitNum =>
          numLock := Nobody;
          t := t.(pc := ExitQueue);
        case ExitQueue =>
          queueLock := Nobody;
          t := t.(pc := Exited);
        case _ =>
      }
      Store(i, t);
    }

    /** The next action of consumer `i`. */
    method AdvanceConsumer(i: nat)
      requires Valid() && i < threads.Length
      modifies this, queue, heap, threads
      ensures Valid() && heap == old(heap)
      ensures View() == ConsumerStep(old(View()), i)
    {
      if threads[i].pc == Remove {
        RemoveNode(i);
      } else if threads[i].pc in {LockQueue, LockNum, Test} {
        Acquire(i);
      } else if threads[i].pc in {ExitNum, ExitQueue, Exited} {
        Leave(i);
      } else if threads[i].pc == Print {
        PrintNode(i);
      } else {
        Release(i);
      }
    }

    method Advance(l: nat)
      requires Valid()
      modifies this, queue, heap, threads
      ensures Valid() && fresh(heap - old(heap)) && old(heap) <= heap
      ensures View() == Step(old(View()), l)
    {
      ghost var s := View();
      if l == 0 {
        AdvanceProducer();
        assert Step(s, l) == ProducerStep(s);
      } else if l - 1 < threads.Length {
        AdvanceConsumer(l - 1);
        assert Step(s, l) == ConsumerStep(s, l - 1);
      }
    }

    /** Any interleaving of the producer and the consumers. */
    method Execute(schedule: seq<nat>)
      requires Valid()
      modifies this, queue, heap, threads
      ensures Valid() && fresh(heap - old(heap))
      ensures View() == Run(Step, old(View()), schedule)
    {
      ghost var start := View();
      for k := 0 to |schedule|
        invariant Valid() && fresh(heap - old(heap))
        invariant Run(Step, View(), schedule[k..]) == Run(Step, start, schedule)
      {
        RunNext(View(), schedule, k);
        Advance(schedule[k]);
      }
    }
  }

  lemma RunNext(s: State, schedule: seq<nat>, k: nat)
    requires k < |schedule|
    ensures Run(Step, s, schedule[k..]) == Run(Step, Step(s, schedule[k]), schedule[k + 1..])
  {
    assert schedule[k..][1..] == schedule[k + 1..];
  }

  lemma ThreadsUpdate(ls: seq<Frame>, i: nat, l: Frame)
    requires i < |ls|
    ensures ThreadsOf(ls[i := l]) == ThreadsOf(ls)[i := ThreadOf(l)]
    ensures l == ls[i] ==> ThreadsOf(ls[i := l]) == ThreadsOf(ls)
  {
  }
}
