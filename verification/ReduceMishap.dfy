/** Two runs of the master in which reducing goes wrong (project4/src/master.cc). */
module ReduceMishap {
  import opened FairRuns
  import opened Sharding
  import opened MasterSpec
  import Whole = ReduceSpec

  const IDLE := Worker([], 0)

  // ---- a shard that is reduced twice

  /** Two workers, two partitions and one shard; `files`, `answered` and `early` as in ReduceSpec. */
  function Scene(base: State, parts: seq<nat>, files: set<(nat, nat)>, answered: set<nat>,
                 early: set<nat>): Whole.State {
    Whole.State(base, Whole.Reduce(Whole.Sending, parts, 0, map[], map[], 0, 0, [], false, [0, 1], files, {}, false,
                                   answered, early, 0))
  }

  function Shared(pc: Pc, shards: seq<FileShard>, next: nat, unfinished: seq<FileShard>, clients: seq<Slot>,
                  ready: seq<nat>, calls: multiset<Call>, msgs: nat, gone: bool, drops: nat): State
  {
    State(pc, shards, next, unfinished, clients, if gone then {0} else {}, ready, calls, msgs, if gone then 1 else 0,
          drops, 1, pc == Reducing || (pc == Decided && msgs == 2), 0, false)
  }

  function Begun(x: FileShard): Whole.State {
    Scene(Shared(Dispatching, [x], 0, [], [IDLE, IDLE], [0, 1], multiset{}, 0, false, 0), [], {}, {}, {})
  }

  function Dead(x: FileShard): Whole.State {
    Scene(Shared(Notified, [x], 1, [x], [Gone, IDLE], [1, 0], multiset{}, 1, true, 1), [], {(0, 1)}, {0}, {0})
  }

  function SentAgain(x: FileShard): Whole.State {
    Scene(Shared(Waiting, [x], 1, [], [Gone, Worker([x], 0)], [0], multiset{Call(1, true)}, 1, true, 0), [], {(0, 1)},
          {0}, {0})
  }

  function MappedAgain(x: FileShard, pc: Pc): Whole.State {
    Scene(Shared(pc, [x], 1, [], [Gone, Worker([x], 1)], [0, 1], multiset{}, 2, true, 0), [], {(0, 1), (1, 0), (1, 1)},
          {0, 1}, {0})
  }

  function Started(x: FileShard): Whole.State {
    Scene(Shared(Reducing, [], 0, [], [Gone, Worker([x], 1)], [0, 1], multiset{}, 2, true, 0), [0, 1],
          {(0, 1), (1, 0), (1, 1)}, {0, 1}, {0})
  }

  /** Worker 0 maps the shard and dies before the master looks. */
  const DIES := [DispatchMap, EndOfPass, Reply(Call(0, true), true), Fail(0)]

  function Sent(x: FileShard, pc: Pc): Whole.State {
    Scene(Shared(pc, [x], 1, [], [Worker([x], 0), IDLE], [1], multiset{Call(0, true)}, 0, false, 0), [], {}, {}, {})
  }

  function Mapped(x: FileShard, pc: Pc): Whole.State {
    Scene(Shared(pc, [x], 1, [], [Worker([x], 1), IDLE], [1, 0], multiset{}, 1, false, 0), [], {(0, 0), (0, 1)}, {0},
          {})
  }

  lemma FirstSent(x: FileShard)
    ensures Whole.Start([x], 2, [0, 1]) == Begun(x) && Whole.Step(Begun(x), DispatchMap) == Sent(x, Dispatching)
  {
    assert [0, 1][1..] == [1] && [] + [x] == [x];
  }

  lemma FirstReply(x: FileShard)
    ensures Whole.Step(Sent(x, Waiting), Reply(Call(0, true), true)) == Mapped(x, Notified)
  {
    var t := Whole.Answer(Sent(x, Waiting), Call(0, true), true);
    assert Whole.FilesOf(0, 2) == {(0, 0), (0, 1)};
    assert t == Mapped(x, Waiting);
  }

  lemma DeathBase(x: FileShard)
    ensures FailStep(Mapped(x, Notified).base, 0) == Dead(x).base
  {
    assert [] + [x] == [x];
    assert [Worker([x], 1), IDLE][0 := Gone] == [Gone, IDLE];
  }

  lemma DeathFiles(x: FileShard)
    ensures Whole.Drop(Mapped(x, Notified).r, 0, false) == Dead(x).r
  {
    var f: set<(nat, nat)> := {(0, 0), (0, 1)};
    assert f - {(0, 0)} == {(0, 1)};
  }

  lemma FirstDeath(x: FileShard)
    ensures Whole.Step(Mapped(x, Notified), Fail(0)) == Dead(x)
  {
    DeathBase(x);
    DeathFiles(x);
    var s := Mapped(x, Notified);
    assert Live(s.base, 0) && !s.base.mapComplete;
    assert Whole.Step(s, Fail(0)) == Whole.State(FailStep(s.base, 0), Whole.Drop(s.r, 0, false));
  }

  lemma Dies(x: FileShard)
    ensures Run(Whole.Step, Begun(x), DIES) == Dead(x)
  {
    FirstSent(x);
    FirstReply(x);
    FirstDeath(x);
    assert Whole.Step(Sent(x, Dispatching), EndOfPass) == Sent(x, Waiting);
    RunOfFour(Whole.Step, Begun(x), Sent(x, Dispatching), Sent(x, Waiting), Mapped(x, Notified), Dead(x),
              DispatchMap, EndOfPass, Reply(Call(0, true), true), Fail(0));
  }

  /** The shard is sent to worker 1. */
  const AGAIN := [Decide, NextPass, DispatchMap, EndOfPass]

  lemma Again(x: FileShard)
    ensures Run(Whole.Step, Dead(x), AGAIN) == SentAgain(x)
  {
    var f: set<(nat, nat)> := {(0, 1)};
    var s0 := Dead(x);
    var s1 := Scene(Shared(Decided, [x], 1, [x], [Gone, IDLE], [1, 0], multiset{}, 1, true, 0), [], f, {0}, {0});
    var s2 := Scene(Shared(Dispatching, [x], 0, [], [Gone, IDLE], [1, 0], multiset{}, 1, true, 0), [], f, {0}, {0});
    var c, w := multiset{Call(1, true)}, [Gone, Worker([x], 0)];
    var s3 := Scene(Shared(Dispatching, [x], 1, [], w, [0], c, 1, true, 0), [], f, {0}, {0});
    var s4 := SentAgain(x);
    assert Whole.Step(s0, Decide) == s1;
    assert Whole.Step(s1, NextPass) == s2;
    assert [1, 0][1..] == [0] && [] + [x] == [x];
    assert Whole.Step(s2, DispatchMap) == s3;
    assert Whole.Step(s3, EndOfPass) == s4;
    RunOfFour(Whole.Step, s0, s1, s2, s3, s4, Decide, NextPass, DispatchMap, EndOfPass);
  }

  const STARTS := [Reply(Call(1, true), true), Decide, NextPass]

  lemma LastReply(x: FileShard)
    ensures Whole.Step(SentAgain(x), Reply(Call(1, true), true)) == MappedAgain(x, Notified)
  {
    var s, t := SentAgain(x), Whole.Answer(SentAgain(x), Call(1, true), true);
    assert Whole.FilesOf(1, 2) == {(1, 0), (1, 1)};
    assert t == MappedAgain(x, Waiting);
  }

  lemma ReduceBegins(x: FileShard)
    ensures Whole.Step(MappedAgain(x, Decided), NextPass) == Started(x)
  {
    var f: set<(nat, nat)> := {(0, 1), (1, 0), (1, 1)};
    assert (1, 0) in f && (1, 0).1 == 0 && (1, 1) in f && (1, 1).1 == 1;
    Whole.PartsAll([0, 1], f);
  }

  lemma Starts(x: FileShard)
    ensures Run(Whole.Step, SentAgain(x), STARTS) == Started(x)
  {
    LastReply(x);
    ReduceBegins(x);
    assert Whole.Step(MappedAgain(x, Notified), Decide) == MappedAgain(x, Decided);
    RunOfThree(Whole.Step, SentAgain(x), MappedAgain(x, Notified), MappedAgain(x, Decided), Started(x),
               Reply(Call(1, true), true), Decide, NextPass);
  }

  /**
   Both workers have mapped the only shard, and the reduce job of partition 1 reads the files of both: every value
   of its keys occurs twice.
  */
  lemma ReducedTwice(x: FileShard)
    ensures var s := Run(Whole.Step, Whole.Start([x], 2, [0, 1]), DIES + AGAIN + STARTS);
      && s.base.clients == [Gone, Worker([x], 1)] && s.base.errors == 0 && !s.base.rescanned
      && s.base.pc == Reducing && s.r.parts == [0, 1] && s.r.files == {(0, 1), (1, 0), (1, 1)}
  {
    FirstSent(x);
    Dies(x);
    Again(x);
    Starts(x);
    RunInThree(Whole.Step, Begun(x), DIES, Dead(x), AGAIN, SentAgain(x), STARTS, Started(x));
  }

  // ---- a partition that is never reduced

  const FILES: set<(nat, nat)> := {(0, 0), (0, 1)}

  /** Four workers, two partitions and one shard, which worker 0 has mapped; worker 3 may be gone. */
  function Reduce(x: FileShard, stage: Whole.Stage, next: nat, sent: map<nat, nat>, done: map<nat, nat>, out: seq<nat>,
                  gone: bool, ready: seq<nat>, calls: multiset<Call>, drops: nat, restarted: bool): Whole.State
  {
    var base := State(Reducing, [], 0, [], [Worker([x], 1), IDLE, IDLE, if gone then Gone else IDLE],
                      if gone then {3} else {}, ready, calls, 1, 0, drops, 1, true, 0, false);
    Whole.State(base, Whole.Reduce(stage, [0, 1], next, sent, done, |out|, 0, out,
                                   stage == Whole.Judged && |out| == 2, [0, 1], FILES, {}, restarted, {0}, {}, 0))
  }

  lemma Send(x: FileShard, a: nat, next: nat, sent: map<nat, nat>, done: map<nat, nat>, out: seq<nat>, gone: bool,
             ready: seq<nat>, calls: multiset<Call>, restarted: bool)
    requires next < 2 && a < 3
    ensures Whole.Step(Reduce(x, Whole.Sending, next, sent, done, out, gone, [a] + ready, calls, 0, restarted),
                       DispatchReduce) ==
      Reduce(x, Whole.Sending, next + 1, sent[a := next], done, out, gone, ready, calls + multiset{Call(a, false)}, 0,
             restarted)
  {
    assert ([a] + ready)[1..] == ready;
  }

  lemma Skip(x: FileShard, sent: map<nat, nat>, done: map<nat, nat>, out: seq<nat>, ready: seq<nat>,
             calls: multiset<Call>)
    ensures Whole.Step(Reduce(x, Whole.Sending, 0, sent, done, out, true, [3] + ready, calls, 0, true),
                       DispatchReduce) ==
      Reduce(x, Whole.Sending, 0, sent, done, out, true, ready, calls, 0, true)
  {
    assert ([3] + ready)[1..] == ready;
  }

  lemma Sent2(x: FileShard, sent: map<nat, nat>, done: map<nat, nat>, out: seq<nat>, gone: bool, ready: seq<nat>,
              calls: multiset<Call>, restarted: bool)
    ensures Whole.Step(Reduce(x, Whole.Sending, 2, sent, done, out, gone, ready, calls, 0, restarted), EndOfPass) ==
      Reduce(x, Whole.Awaiting, 2, sent, done, out, gone, ready, calls, 0, restarted)
  {
  }

  lemma ThirdDies(x: FileShard, sent: map<nat, nat>, ready: seq<nat>, calls: multiset<Call>)
    ensures Whole.Step(Reduce(x, Whole.Awaiting, 2, sent, map[], [], false, ready, calls, 0, false), Fail(3)) ==
      Reduce(x, Whole.Awaiting, 2, sent, map[], [], true, ready, calls, 1, false)
  {
  }

  lemma Reduced(x: FileShard, a: nat, sent: map<nat, nat>, done: map<nat, nat>, out: seq<nat>, ready: seq<nat>,
                calls: multiset<Call>, drops: nat, restarted: bool)
    requires a < 3 && calls[Call(a, false)] > 0 && a in sent && sent[a] == 0 && a !in done && (drops > 0 || |out| == 1)
    ensures Whole.Step(Reduce(x, Whole.Awaiting, 2, sent, done, out, true, ready, calls, drops, restarted),
                       Reply(Call(a, false), true)) ==
      Reduce(x, Whole.Told, 2, sent, done[a := 1], out + [0], true, ready + [a], calls - multiset{Call(a, false)},
             drops, restarted)
  {
  }

  lemma StartOver(x: FileShard, sent: map<nat, nat>, ready: seq<nat>, calls: multiset<Call>)
    ensures Whole.Step(Whole.Step(Reduce(x, Whole.Told, 2, sent, map[1 := 1], [0], true, ready, calls, 1, false),
                                  Decide), NextPass) ==
      Reduce(x, Whole.Sending, 0, sent, map[1 := 1], [0], true, ready, calls, 0, true)
  {
  }

  lemma Declared(x: FileShard, sent: map<nat, nat>, ready: seq<nat>, calls: multiset<Call>)
    ensures Whole.Step(Reduce(x, Whole.Told, 2, sent, map[1 := 1, 0 := 1], [0, 0], true, ready, calls, 0, true),
                       Decide) ==
      Reduce(x, Whole.Judged, 2, sent, map[1 := 1, 0 := 1], [0, 0], true, ready, calls, 0, true)
  {
  }

  // The map phase.
  function Map4(x: FileShard, pc: Pc, next: nat, mapped: Slot, ready: seq<nat>, calls: multiset<Call>,
                msgs: nat): State {
    State(pc, [x], next, [], [mapped, IDLE, IDLE, IDLE], {}, ready, calls, msgs, 0, 0, 1, pc == Decided, 0, false)
  }

  function Before(base: State, files: set<(nat, nat)>, answered: set<nat>): Whole.State {
    Whole.State(base, Whole.Reduce(Whole.Sending, [], 0, map[], map[], 0, 0, [], false, [0, 1], files, {}, false,
                                   answered, {}, 0))
  }

  lemma MapFirst(x: FileShard)
    ensures Whole.Start([x], 4, [0, 1]) == Before(Map4(x, Dispatching, 0, IDLE, [0, 1, 2, 3], multiset{}, 0), {}, {})
    ensures Whole.Step(Before(Map4(x, Dispatching, 0, IDLE, [0, 1, 2, 3], multiset{}, 0), {}, {}), DispatchMap) ==
      Before(Map4(x, Dispatching, 1, Worker([x], 0), [1, 2, 3], multiset{Call(0, true)}, 0), {}, {})
  {
    assert [0, 1, 2, 3][1..] == [1, 2, 3] && [] + [x] == [x];
  }

  lemma MapReply(x: FileShard)
    ensures Whole.Step(Before(Map4(x, Waiting, 1, Worker([x], 0), [1, 2, 3], multiset{Call(0, true)}, 0), {}, {}),
                       Reply(Call(0, true), true)) ==
      Before(Map4(x, Notified, 1, Worker([x], 1), [1, 2, 3, 0], multiset{}, 1), FILES, {0})
  {
    var s := Before(Map4(x, Waiting, 1, Worker([x], 0), [1, 2, 3], multiset{Call(0, true)}, 0), {}, {});
    assert Whole.FilesOf(0, 2) == FILES;
    assert Whole.Answer(s, Call(0, true), true) ==
      Before(Map4(x, Waiting, 1, Worker([x], 1), [1, 2, 3, 0], multiset{}, 1), FILES, {0});
  }

  lemma MapDone(x: FileShard)
    ensures Whole.Step(Before(Map4(x, Decided, 1, Worker([x], 1), [1, 2, 3, 0], multiset{}, 1), FILES, {0}),
                       NextPass) ==
      Reduce(x, Whole.Sending, 0, map[], map[], [], false, [1, 2, 3, 0], multiset{}, 0, false)
  {
    assert (0, 0) in FILES && (0, 0).1 == 0 && (0, 1) in FILES && (0, 1).1 == 1;
    Whole.PartsAll([0, 1], FILES);
  }

  const MAPS := [DispatchMap, EndOfPass, Reply(Call(0, true), true)] + [Decide, NextPass]

  lemma MapsFirst(x: FileShard)
    ensures Run(Whole.Step, Whole.Start([x], 4, [0, 1]), [DispatchMap, EndOfPass, Reply(Call(0, true), true)]) ==
      Before(Map4(x, Notified, 1, Worker([x], 1), [1, 2, 3, 0], multiset{}, 1), FILES, {0})
  {
    var s0 := Before(Map4(x, Dispatching, 0, IDLE, [0, 1, 2, 3], multiset{}, 0), {}, {});
    var s1 := Before(Map4(x, Dispatching, 1, Worker([x], 0), [1, 2, 3], multiset{Call(0, true)}, 0), {}, {});
    var s2 := Before(Map4(x, Waiting, 1, Worker([x], 0), [1, 2, 3], multiset{Call(0, true)}, 0), {}, {});
    var s3 := Before(Map4(x, Notified, 1, Worker([x], 1), [1, 2, 3, 0], multiset{}, 1), FILES, {0});
    MapFirst(x);
    MapReply(x);
    assert Whole.Step(s1, EndOfPass) == s2;
    RunOfThree(Whole.Step, s0, s1, s2, s3, DispatchMap, EndOfPass, Reply(Call(0, true), true));
  }

  lemma MapsLast(x: FileShard)
    ensures Run(Whole.Step, Before(Map4(x, Notified, 1, Worker([x], 1), [1, 2, 3, 0], multiset{}, 1), FILES, {0}),
                [Decide, NextPass]) ==
      Reduce(x, Whole.Sending, 0, map[], map[], [], false, [1, 2, 3, 0], multiset{}, 0, false)
  {
    var s3 := Before(Map4(x, Notified, 1, Worker([x], 1), [1, 2, 3, 0], multiset{}, 1), FILES, {0});
    var s4 := Before(Map4(x, Decided, 1, Worker([x], 1), [1, 2, 3, 0], multiset{}, 1), FILES, {0});
    var s5 := Reduce(x, Whole.Sending, 0, map[], map[], [], false, [1, 2, 3, 0], multiset{}, 0, false);
    MapDone(x);
    assert Whole.Step(s3, Decide) == s4;
    RunOfTwo(Whole.Step, s3, s4, s5, Decide, NextPass);
  }

  lemma Maps(x: FileShard)
    ensures Run(Whole.Step, Whole.Start([x], 4, [0, 1]), MAPS) ==
      Reduce(x, Whole.Sending, 0, map[], map[], [], false, [1] + ([2] + [3, 0]), multiset{}, 0, false)
  {
    MapsFirst(x);
    MapsLast(x);
    RunThen(Whole.Step, Whole.Start([x], 4, [0, 1]), [DispatchMap, EndOfPass, Reply(Call(0, true), true)],
            Before(Map4(x, Notified, 1, Worker([x], 1), [1, 2, 3, 0], multiset{}, 1), FILES, {0}), [Decide, NextPass],
            Reduce(x, Whole.Sending, 0, map[], map[], [], false, [1, 2, 3, 0], multiset{}, 0, false));
    assert [1] + ([2] + [3, 0]) == [1, 2, 3, 0];
  }

  /** Both partitions are sent, and an idle worker dies. */
  const FIRST := [DispatchReduce, DispatchReduce, EndOfPass, Fail(3)]

  /** The first one is reduced; the pass starts over, and all is sent again. */
  const SECOND := [Reply(Call(1, false), true), Decide, NextPass] + [DispatchReduce, DispatchReduce, DispatchReduce,
                                                                     EndOfPass]

  /** The first one is reduced again. */
  const THIRD := [Reply(Call(0, false), true), Decide]

  function AfterFirst(x: FileShard): Whole.State {
    Reduce(x, Whole.Awaiting, 2, map[1 := 0, 2 := 1], map[], [], true, [3, 0],
           multiset{Call(1, false), Call(2, false)}, 1, false)
  }

  function AfterSecond(x: FileShard): Whole.State {
    Reduce(x, Whole.Awaiting, 2, map[1 := 1, 2 := 1, 0 := 0], map[1 := 1], [0], true, [],
           multiset{Call(2, false), Call(0, false), Call(1, false)}, 0, true)
  }

  lemma FirstPart(x: FileShard)
    ensures Run(Whole.Step,
                Reduce(x, Whole.Sending, 0, map[], map[], [], false, [1] + ([2] + [3, 0]), multiset{}, 0, false),
                FIRST) == AfterFirst(x)
  {
    var s0 := Reduce(x, Whole.Sending, 0, map[], map[], [], false, [1] + ([2] + [3, 0]), multiset{}, 0, false);
    var c1 := multiset{} + multiset{Call(1, false)};
    var c2 := c1 + multiset{Call(2, false)};
    var m1 := map[][1 := 0];
    var m2 := m1[2 := 1];
    Send(x, 1, 0, map[], map[], [], false, [2] + [3, 0], multiset{}, false);
    Send(x, 2, 1, m1, map[], [], false, [3, 0], c1, false);
    Sent2(x, m2, map[], [], false, [3, 0], c2, false);
    ThirdDies(x, m2, [3, 0], c2);
    RunOfFour(Whole.Step, s0, Reduce(x, Whole.Sending, 1, m1, map[], [], false, [2] + [3, 0], c1, 0, false),
              Reduce(x, Whole.Sending, 2, m2, map[], [], false, [3, 0], c2, 0, false),
              Reduce(x, Whole.Awaiting, 2, m2, map[], [], false, [3, 0], c2, 0, false),
              Reduce(x, Whole.Awaiting, 2, m2, map[], [], true, [3, 0], c2, 1, false),
              DispatchReduce, DispatchReduce, EndOfPass, Fail(3));
    assert m2 == map[1 := 0, 2 := 1] && c2 == multiset{Call(1, false), Call(2, false)};
  }

  lemma Halfway(x: FileShard)
    ensures Run(Whole.Step, AfterFirst(x), [Reply(Call(1, false), true), Decide, NextPass]) ==
      Reduce(x, Whole.Sending, 0, map[1 := 0, 2 := 1], map[1 := 1], [0], true, [3] + ([0] + ([1] + [])),
             multiset{Call(2, false)}, 0, true)
  {
    var m, c := map[1 := 0, 2 := 1], multiset{Call(1, false), Call(2, false)};
    var c1, ready := c - multiset{Call(1, false)}, [3, 0] + [1];
    var s1 := Reduce(x, Whole.Told, 2, m, map[][1 := 1], [] + [0], true, ready, c1, 1, false);
    Reduced(x, 1, m, map[], [], [3, 0], c, 1, false);
    assert [] + [0] == [0];
    StartOver(x, m, ready, c1);
    RunOfThree(Whole.Step, AfterFirst(x), s1, Whole.Step(s1, Decide), Whole.Step(Whole.Step(s1, Decide), NextPass),
               Reply(Call(1, false), true), Decide, NextPass);
    assert ready == [3] + ([0] + ([1] + [])) && c1 == multiset{Call(2, false)};
  }

  lemma SecondPass(x: FileShard)
    ensures Run(Whole.Step,
                Reduce(x, Whole.Sending, 0, map[1 := 0, 2 := 1], map[1 := 1], [0], true, [3] + ([0] + ([1] + [])),
                                   multiset{Call(2, false)}, 0, true),
                [DispatchReduce, DispatchReduce, DispatchReduce, EndOfPass]) == AfterSecond(x)
  {
    var m: map<nat, nat>, c := map[1 := 0, 2 := 1], multiset{Call(2, false)};
    var m1, c1 := m[0 := 0], c + multiset{Call(0, false)};
    var m2, c2 := m1[1 := 1], c1 + multiset{Call(1, false)};
    Skip(x, m, map[1 := 1], [0], [0] + ([1] + []), c);
    Send(x, 0, 0, m, map[1 := 1], [0], true, [1] + [], c, true);
    Send(x, 1, 1, m1, map[1 := 1], [0], true, [], c1, true);
    Sent2(x, m2, map[1 := 1], [0], true, [], c2, true);
    RunOfFour(Whole.Step, Reduce(x, Whole.Sending, 0, m, map[1 := 1], [0], true, [3] + ([0] + ([1] + [])), c, 0, true),
              Reduce(x, Whole.Sending, 0, m, map[1 := 1], [0], true, [0] + ([1] + []), c, 0, true),
              Reduce(x, Whole.Sending, 1, m1, map[1 := 1], [0], true, [1] + [], c1, 0, true),
              Reduce(x, Whole.Sending, 2, m2, map[1 := 1], [0], true, [], c2, 0, true),
              Reduce(x, Whole.Awaiting, 2, m2, map[1 := 1], [0], true, [], c2, 0, true),
              DispatchReduce, DispatchReduce, DispatchReduce, EndOfPass);
    assert m2 == map[1 := 1, 2 := 1, 0 := 0] && c2 == multiset{Call(2, false), Call(0, false), Call(1, false)};
  }

  lemma SecondPart(x: FileShard)
    ensures Run(Whole.Step, AfterFirst(x), SECOND) == AfterSecond(x)
  {
    Halfway(x);
    SecondPass(x);
    RunThen(Whole.Step, AfterFirst(x), [Reply(Call(1, false), true), Decide, NextPass],
            Reduce(x, Whole.Sending, 0, map[1 := 0, 2 := 1], map[1 := 1], [0], true, [3] + ([0] + ([1] + [])),
                   multiset{Call(2, false)}, 0, true),
            [DispatchReduce, DispatchReduce, DispatchReduce, EndOfPass], AfterSecond(x));
  }

  function AfterThird(x: FileShard): Whole.State {
    Reduce(x, Whole.Judged, 2, map[1 := 1, 2 := 1, 0 := 0], map[1 := 1, 0 := 1], [0, 0], true, [0],
           multiset{Call(2, false), Call(1, false)}, 0, true)
  }

  lemma ThirdPart(x: FileShard)
    ensures Run(Whole.Step, AfterSecond(x), THIRD) == AfterThird(x)
  {
    var m, c := map[1 := 1, 2 := 1, 0 := 0], multiset{Call(2, false), Call(0, false), Call(1, false)};
    var c1 := c - multiset{Call(0, false)};
    Reduced(x, 0, m, map[1 := 1], [0], [], c, 0, true);
    assert [0] + [0] == [0, 0] && [] + [0] == [0];
    Declared(x, m, [0], c1);
    RunOfTwo(Whole.Step, AfterSecond(x),
             Reduce(x, Whole.Told, 2, m, map[1 := 1, 0 := 1], [0, 0], true, [0], c1, 0, true),
             Reduce(x, Whole.Judged, 2, m, map[1 := 1, 0 := 1], [0, 0], true, [0], c1, 0, true), Reply(Call(0, false),
                                                                                                       true), Decide);
    assert c1 == multiset{Call(2, false), Call(1, false)};
  }

  lemma LastParts(x: FileShard)
    ensures Run(Whole.Step, AfterFirst(x), SECOND + THIRD) == AfterThird(x)
  {
    SecondPart(x);
    ThirdPart(x);
    RunThen(Whole.Step, AfterFirst(x), SECOND, AfterSecond(x), THIRD, AfterThird(x));
  }

  lemma AllParts(x: FileShard)
    ensures Run(Whole.Step, Whole.Start([x], 4, [0, 1]), MAPS + FIRST + (SECOND + THIRD)) == AfterThird(x)
  {
    Maps(x);
    FirstPart(x);
    LastParts(x);
    RunInThree(Whole.Step, Whole.Start([x], 4, [0, 1]), MAPS,
               Reduce(x, Whole.Sending, 0, map[], map[], [], false, [1] + ([2] + [3, 0]), multiset{}, 0, false),
               FIRST, AfterFirst(x), SECOND + THIRD, AfterThird(x));
  }

  /**
   No error, and one idle worker dies: the reduce phase is declared complete when partition 0 has been reduced twice,
   into one file, while the calls of workers 1 and 2, both for partition 1, are unanswered.
  */
  lemma NeverReduced(x: FileShard)
    ensures var s := Run(Whole.Step, Whole.Start([x], 4, [0, 1]), MAPS + FIRST + (SECOND + THIRD));
      && s.r.reduceComplete && s.r.outputFiles == [0, 0] && s.r.lost == {} && s.base.errors == 0
      && s.base.calls == multiset{Call(2, false), Call(1, false)}
      && Whole.PartOf(s.r, 1) == Whole.PartOf(s.r, 2) == 1
  {
    AllParts(x);
  }
}
