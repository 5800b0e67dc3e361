/** A run of the master in which the map phase is declared complete too early (project4/src/master.cc). */
module MasterMishap {
  import opened FairRuns
  import opened Sharding
  import opened MasterSpec

  /** Three shards, seven workers; worker 6 may be gone. */
  function Scene(abc: seq<FileShard>, pc: Pc, next: nat, ready: seq<nat>, clients: seq<Slot>, calls: multiset<Call>,
                 msgs: int, drops: nat, rescanned: bool): State
  {
    State(pc, abc, next, [], clients, if |clients| == 7 && clients[6].Gone? then {6} else {},
          ready, calls, msgs, 0, drops, 3,
          pc == Decided && msgs == 3, 0, rescanned)
  }

  lemma SceneDispatch(abc: seq<FileShard>, next: nat, w: nat, ready: seq<nat>, c: seq<Slot>, calls: multiset<Call>,
                      msgs: int, rescanned: bool)
    requires next < |abc| == 3 && |c| == 7 && w < 6 && c[w] == IDLE
    ensures Step(Scene(abc, Dispatching, next, [w] + ready, c, calls, msgs, 0, rescanned), DispatchMap) ==
      Scene(abc, Dispatching, next + 1, ready, c[w := Worker([abc[next]], 0)], calls + multiset{Call(w, true)},
            msgs, 0, rescanned)
  {
    assert ([w] + ready)[1..] == ready;
    assert [] + [abc[next]] == [abc[next]];
  }

  lemma SceneEndOfPass(abc: seq<FileShard>, ready: seq<nat>, c: seq<Slot>, calls: multiset<Call>, msgs: int,
                       rescanned: bool)
    requires |c| == 7 && |abc| == 3
    ensures Step(Scene(abc, Dispatching, 3, ready, c, calls, msgs, 0, rescanned), EndOfPass) ==
      Scene(abc, Waiting, 3, ready, c, calls, msgs, 0, rescanned)
  {
  }

  lemma SceneReply(abc: seq<FileShard>, w: nat, ready: seq<nat>, c: seq<Slot>, calls: multiset<Call>, msgs: int,
                   drops: nat, rescanned: bool)
    requires |abc| == 3 && |c| == 7 && w < 6 && c[w].Worker? && calls[Call(w, true)] > 0
    ensures Step(Scene(abc, Waiting, 3, ready, c, calls, msgs, drops, rescanned), Reply(Call(w, true), true)) ==
      Scene(abc, if drops > 0 || msgs + 1 == 3 then Notified else Waiting, 3, ready + [w],
            c[w := c[w].(completed := c[w].completed + 1)], calls - multiset{Call(w, true)}, msgs + 1, drops, rescanned)
  {
  }

  lemma SceneFail(abc: seq<FileShard>, ready: seq<nat>, c: seq<Slot>, calls: multiset<Call>)
    requires |abc| == 3 && |c| == 7 && c[6] == IDLE
    ensures Step(Scene(abc, Waiting, 3, ready, c, calls, 0, 0, false), Fail(6)) ==
      Scene(abc, Waiting, 3, ready, c[6 := Gone], calls, 0, 1, false)
  {
  }

  lemma SceneStartOver(abc: seq<FileShard>, ready: seq<nat>, c: seq<Slot>, calls: multiset<Call>)
    requires |abc| == 3 && |c| == 7
    ensures Step(Step(Scene(abc, Notified, 3, ready, c, calls, 1, 1, false), Decide), NextPass) ==
      Scene(abc, Dispatching, 0, ready, c, calls, 1, 0, true)
  {
  }

  lemma SceneComplete(abc: seq<FileShard>, ready: seq<nat>, c: seq<Slot>, calls: multiset<Call>)
    requires |abc| == 3 && |c| == 7
    ensures Step(Scene(abc, Notified, 3, ready, c, calls, 3, 0, true), Decide) ==
      Scene(abc, Decided, 3, ready, c, calls, 3, 0, true)
  {
  }

  const IDLE := Worker([], 0)
  const IDLES := [IDLE, IDLE, IDLE, IDLE, IDLE, IDLE, IDLE]

  /** A pass over three shards. */
  const PASS := [DispatchMap, DispatchMap, DispatchMap, EndOfPass]

  /** The idle worker 6 dies, and the answer of worker 0 wakes the master: the pass starts over. */
  const MISHAP := [Fail(6), Reply(Call(0, true), true), Decide, NextPass]

  /** Two of the workers of the second pass answer. */
  const ANSWERS := [Reply(Call(3, true), true), Reply(Call(4, true), true), Decide]

  /** What a pass does to the clients, and to the calls. */
  function Sent(abc: seq<FileShard>, w: nat, c: seq<Slot>): seq<Slot>
    requires |abc| == 3 && w + 2 < |c|
  {
    c[w := Worker([abc[0]], 0)][w + 1 := Worker([abc[1]], 0)][w + 2 := Worker([abc[2]], 0)]
  }

  function Calling(w: nat, calls: multiset<Call>): multiset<Call> {
    calls + multiset{Call(w, true)} + multiset{Call(w + 1, true)} + multiset{Call(w + 2, true)}
  }

  lemma PassOf(abc: seq<FileShard>, w: nat, ready: seq<nat>, c: seq<Slot>, calls: multiset<Call>, msgs: int,
               rescanned: bool)
    requires |abc| == 3 && |c| == 7 && w <= 3 && c[w] == c[w + 1] == c[w + 2] == IDLE
    ensures Run(Step, Scene(abc, Dispatching, 0, [w] + ([w + 1] + ([w + 2] + ready)), c, calls, msgs, 0, rescanned),
      PASS) ==
      Scene(abc, Waiting, 3, ready, Sent(abc, w, c), Calling(w, calls), msgs, 0, rescanned)
  {
    var c1 := c[w := Worker([abc[0]], 0)];
    var calls1 := calls + multiset{Call(w, true)};
    var c2, calls2 := c1[w + 1 := Worker([abc[1]], 0)], calls1 + multiset{Call(w + 1, true)};
    var ready1 := [w + 1] + ([w + 2] + ready);
    var s0 := Scene(abc, Dispatching, 0, [w] + ready1, c, calls, msgs, 0, rescanned);
    var s1 := Scene(abc, Dispatching, 1, ready1, c1, calls1, msgs, 0, rescanned);
    var s2 := Scene(abc, Dispatching, 2, [w + 2] + ready, c2, calls2, msgs, 0, rescanned);
    var s3 := Scene(abc, Dispatching, 3, ready, Sent(abc, w, c), Calling(w, calls), msgs, 0, rescanned);
    var s4 := Scene(abc, Waiting, 3, ready, Sent(abc, w, c), Calling(w, calls), msgs, 0, rescanned);
    SceneDispatch(abc, 0, w, [w + 1] + ([w + 2] + ready), c, calls, msgs, rescanned);
    SceneDispatch(abc, 1, w + 1, [w + 2] + ready, c1, calls1, msgs, rescanned);
    SceneDispatch(abc, 2, w + 2, ready, c2, calls2, msgs, rescanned);
    SceneEndOfPass(abc, ready, Sent(abc, w, c), Calling(w, calls), msgs, rescanned);
    RunOfFour(Step, s0, s1, s2, s3, s4, DispatchMap, DispatchMap, DispatchMap, EndOfPass);
  }

  lemma MishapOf(abc: seq<FileShard>, ready: seq<nat>, c: seq<Slot>, calls: multiset<Call>)
    requires |abc| == 3 && |c| == 7 && c[6] == IDLE && c[0].Worker? && calls[Call(0, true)] > 0
    ensures Run(Step, Scene(abc, Waiting, 3, ready, c, calls, 0, 0, false), MISHAP) ==
      Scene(abc, Dispatching, 0, ready + [0], c[6 := Gone][0 := c[0].(completed := c[0].completed + 1)],
            calls - multiset{Call(0, true)}, 1, 0, true)
  {
    var c1, calls1 := c[6 := Gone][0 := c[0].(completed := c[0].completed + 1)], calls - multiset{Call(0, true)};
    var s0 := Scene(abc, Waiting, 3, ready, c, calls, 0, 0, false);
    var s1 := Scene(abc, Waiting, 3, ready, c[6 := Gone], calls, 0, 1, false);
    var s2 := Scene(abc, Notified, 3, ready + [0], c1, calls1, 1, 1, false);
    SceneFail(abc, ready, c, calls);
    SceneReply(abc, 0, ready, c[6 := Gone], calls, 0, 1, false);
    SceneStartOver(abc, ready + [0], c1, calls1);
    RunOfFour(Step, s0, s1, s2, Step(s2, Decide), Step(Step(s2, Decide), NextPass),
              Fail(6), Reply(Call(0, true), true), Decide, NextPass);
  }

  lemma AnswersOf(abc: seq<FileShard>, ready: seq<nat>, c: seq<Slot>, calls: multiset<Call>)
    requires |abc| == 3 && |c| == 7 && c[3] == Worker([abc[0]], 0) && c[4] == Worker([abc[1]], 0)
    requires calls[Call(3, true)] > 0 && calls[Call(4, true)] > 0
    ensures Run(Step, Scene(abc, Waiting, 3, ready, c, calls, 1, 0, true), ANSWERS) ==
      Scene(abc, Decided, 3, ready + [3] + [4], c[3 := Worker([abc[0]], 1)][4 := Worker([abc[1]], 1)],
            calls - multiset{Call(3, true)} - multiset{Call(4, true)}, 3, 0, true)
  {
    var s := Scene(abc, Waiting, 3, ready, c, calls, 1, 0, true);
    var c1, calls1 := c[3 := Worker([abc[0]], 1)], calls - multiset{Call(3, true)};
    var c2, calls2 := c1[4 := Worker([abc[1]], 1)], calls1 - multiset{Call(4, true)};
    SceneReply(abc, 3, ready, c, calls, 1, 0, true);
    SceneReply(abc, 4, ready + [3], c1, calls1, 2, 0, true);
    SceneComplete(abc, ready + [3] + [4], c2, calls2);
    RunOfThree(Step, s, Scene(abc, Waiting, 3, ready + [3], c1, calls1, 2, 0, true),
               Scene(abc, Notified, 3, ready + [3] + [4], c2, calls2, 3, 0, true),
               Scene(abc, Decided, 3, ready + [3] + [4], c2, calls2, 3, 0, true),
               Reply(Call(3, true), true), Reply(Call(4, true), true), Decide);
  }

  lemma StartScene(abc: seq<FileShard>)
    requires |abc| == 3
    ensures Start(abc, 7) ==
      Scene(abc, Dispatching, 0, [0] + ([1] + ([2] + [3, 4, 5, 6])), IDLES, multiset{}, 0, 0, false)
  {
  }

  /** The clients when the pass starts over, and at the end. */
  function Halfway(abc: seq<FileShard>): seq<Slot>
    requires |abc| == 3
  {
    [Worker([abc[0]], 1), Worker([abc[1]], 0), Worker([abc[2]], 0), IDLE, IDLE, IDLE, Gone]
  }

  function Finally(abc: seq<FileShard>): seq<Slot>
    requires |abc| == 3
  {
    [Worker([abc[0]], 1), Worker([abc[1]], 0), Worker([abc[2]], 0),
     Worker([abc[0]], 1), Worker([abc[1]], 1), Worker([abc[2]], 0), Gone]
  }

  const OPEN := multiset{Call(1, true), Call(2, true)}

  lemma FirstPass(abc: seq<FileShard>)
    requires |abc| == 3
    ensures Run(Step, Start(abc, 7), PASS) ==
      Scene(abc, Waiting, 3, [3, 4, 5, 6], Sent(abc, 0, IDLES), Calling(0, multiset{}), 0, 0, false)
  {
    StartScene(abc);
    PassOf(abc, 0, [3, 4, 5, 6], IDLES, multiset{}, 0, false);
  }

  lemma FirstMishap(abc: seq<FileShard>)
    requires |abc| == 3
    ensures Run(Step, Scene(abc, Waiting, 3, [3, 4, 5, 6], Sent(abc, 0, IDLES), Calling(0, multiset{}), 0,
                            0, false), MISHAP) ==
      Scene(abc, Dispatching, 0, [3] + ([4] + ([5] + [6, 0])), Halfway(abc), OPEN, 1, 0, true)
  {
    HalfwayIs(abc);
    MishapOf(abc, [3, 4, 5, 6], Sent(abc, 0, IDLES), Calling(0, multiset{}));
  }

  lemma FirstHalf(abc: seq<FileShard>)
    requires |abc| == 3
    ensures Run(Step, Start(abc, 7), PASS + MISHAP) ==
      Scene(abc, Dispatching, 0, [3] + ([4] + ([5] + [6, 0])), Halfway(abc), OPEN, 1, 0, true)
  {
    FirstPass(abc);
    FirstMishap(abc);
    RunThen(Step, Start(abc, 7), PASS,
            Scene(abc, Waiting, 3, [3, 4, 5, 6], Sent(abc, 0, IDLES), Calling(0, multiset{}), 0, 0, false),
            MISHAP, Scene(abc, Dispatching, 0, [3] + ([4] + ([5] + [6, 0])), Halfway(abc), OPEN, 1, 0, true));
  }

  lemma HalfwayIs(abc: seq<FileShard>)
    requires |abc| == 3
    ensures Sent(abc, 0, IDLES)[6 := Gone][0 := Worker([abc[0]], 1)] == Halfway(abc)
    ensures Calling(0, multiset{}) - multiset{Call(0, true)} == OPEN
    ensures [3, 4, 5, 6] + [0] == [3] + ([4] + ([5] + [6, 0]))
  {
  }

  lemma FinallyIs(abc: seq<FileShard>)
    requires |abc| == 3
    ensures Sent(abc, 3, Halfway(abc))[3 := Worker([abc[0]], 1)][4 := Worker([abc[1]], 1)] == Finally(abc)
    ensures Calling(3, OPEN) - multiset{Call(3, true)} - multiset{Call(4, true)} == OPEN + multiset{Call(5, true)}
  {
  }

  lemma BeforeAnswers(abc: seq<FileShard>)
    requires |abc| == 3
    ensures |Sent(abc, 3, Halfway(abc))| == 7
    ensures Sent(abc, 3, Halfway(abc))[3] == Worker([abc[0]], 0) && Sent(abc, 3, Halfway(abc))[4] == Worker([abc[1]], 0)
    ensures Calling(3, OPEN)[Call(3, true)] > 0 && Calling(3, OPEN)[Call(4, true)] > 0
  {
  }

  lemma SecondHalf(abc: seq<FileShard>)
    requires |abc| == 3
    ensures Run(Step, Scene(abc, Dispatching, 0, [3] + ([4] + ([5] + [6, 0])), Halfway(abc), OPEN, 1, 0, true),
      PASS + ANSWERS) ==
      Scene(abc, Decided, 3, [6, 0] + [3] + [4], Finally(abc), OPEN + multiset{Call(5, true)}, 3, 0, true)
  {
    var c, calls := Sent(abc, 3, Halfway(abc)), Calling(3, OPEN);
    var s := Scene(abc, Dispatching, 0, [3] + ([4] + ([5] + [6, 0])), Halfway(abc), OPEN, 1, 0, true);
    PassOf(abc, 3, [6, 0], Halfway(abc), OPEN, 1, true);
    BeforeAnswers(abc);
    AnswersOf(abc, [6, 0], c, calls);
    RunConcat(Step, s, PASS, ANSWERS);
    FinallyIs(abc);
  }

  /**
   Three shards, seven workers and no error.  An idle worker dies during the first pass, so the same shards
   are sent again; then the phase is declared complete although the third shard, sent to workers 2 and 5, has
   been answered for by neither.
  */
  lemma PrematureCompletion(abc: seq<FileShard>)
    requires |abc| == 3
    ensures var s := Run(Step, Start(abc, 7), (PASS + MISHAP) + (PASS + ANSWERS));
      && s.mapComplete && s.errors == 0 && s.clients == Finally(abc)
      && s.calls == multiset{Call(1, true), Call(2, true), Call(5, true)}
  {
    FirstHalf(abc);
    SecondHalf(abc);
    RunConcat(Step, Start(abc, 7), PASS + MISHAP, PASS + ANSWERS);
  }
}
