/**
 The master with its reduce phase (project4/src/master.cc): the map phase is MasterSpec, and this adds what
 is known about reduce jobs and intermediate files.
*/
module ReduceSpec {
  import opened Bags
  import opened FairRuns
  import opened Sequences
  import opened Sharding
  import Base = MasterSpec

  /**
   Where the reduce loop (380-412) is: Sending (381-400), Awaiting and Told (180-185, before and after
   poll_workers wakes it), Judged (after 194-211), Finished.
  */
  datatype Stage = Sending | Awaiting | Told | Judged | Finished

  /**
   `sentPart` is the partition that an address was last sent, the one named in its answer.  `order` is the
   order in which line 373 lists the partitions, `files` intermediate_files: a worker and a partition for each.
   No client records which partitions it was sent (reduce_partitions stays empty, worker_client.cc:41-63),
   so unfinished_partitions stays empty and no output file is ever removed.
   History: `lost` are the partitions whose call was answered by an error or by a dropped worker, `restarted`
   says that a pass over the partitions started over, `answered` are the workers with an answered map call,
   `droppedEarly` those dropped before the map phase was complete, `errors` counts error replies to reduce calls.
  */
  datatype Reduce = Reduce(stage: Stage, parts: seq<nat>, next: nat, sentPart: map<nat, nat>,
                           completedReduce: map<nat, nat>, numReduceMsgs: nat, numDroppedReduceJobs: nat,
                           outputFiles: seq<nat>, reduceComplete: bool, order: seq<nat>, files: set<(nat, nat)>,
                           lost: set<nat>, restarted: bool, answered: set<nat>, droppedEarly: set<nat>, errors: nat)

  datatype State = State(base: Base.State, r: Reduce)

  function Start(shards: seq<FileShard>, workers: nat, order: seq<nat>): State {
    State(Base.Start(shards, workers),
          Reduce(Sending, [], 0, map[], map[], 0, 0, [], false, order, {}, {}, false, {}, {}, 0))
  }

  /** worker_request.cc:70-73: the answer to a map call names a file for every partition. */
  function FilesOf(a: nat, n: nat): set<(nat, nat)> {
    set p: nat | p < n :: (a, p)
  }

  predicate HasFile(files: set<(nat, nat)>, p: nat) {
    exists f :: f in files && f.1 == p
  }

  /** Lines 362-375: the partitions that have a file. */
  function PartsOf(order: seq<nat>, files: set<(nat, nat)>): seq<nat> {
    if order == [] then []
    else (if HasFile(files, order[0]) then [order[0]] else []) + PartsOf(order[1..], files)
  }

  function PartOf(r: Reduce, a: nat): nat {
    if a in r.sentPart then r.sentPart[a] else 0
  }

  /** completed_reduce_jobs */
  function ReducedBy(r: Reduce, a: nat): nat {
    if a in r.completedReduce then r.completedReduce[a] else 0
  }

  /** The next partition goes to address `a`. */
  function Send(r: Reduce, a: nat): Reduce
    requires r.next < |r.parts|
  {
    r.(next := r.next + 1, sentPart := r.sentPart[a := r.parts[r.next]])
  }

  function DispatchReduceStep(s: State): State {
    if s.base.pc != Base.Reducing || s.r.stage != Sending || s.r.next >= |s.r.parts| || s.base.ready == [] then s else
    var a := s.base.ready[0];
    State(Base.DispatchReduceStep(s.base), if a in s.base.dropped then s.r else Send(s.r, a))
  }

  /** Lines 240-262: what is noted of an answer; `taken` if it is no error and its worker is still there. */
  function Note(r: Reduce, c: Base.Call, ok: bool, taken: bool): Reduce {
    if c.isMap then
      if taken then r.(files := r.files + FilesOf(c.addr, |r.order|), answered := r.answered + {c.addr}) else r
    else if taken then
      r.(numReduceMsgs := r.numReduceMsgs + 1, outputFiles := r.outputFiles + [PartOf(r, c.addr)],
         completedReduce := r.completedReduce[c.addr := ReducedBy(r, c.addr) + 1])
    else
      r.(lost := r.lost + {PartOf(r, c.addr)}, numDroppedReduceJobs := r.numDroppedReduceJobs + (if ok then 0 else 1),
         errors := r.errors + if ok then 0 else 1)
  }

  /** Lines 221-265. */
  function Answer(s: State, c: Base.Call, ok: bool): State {
    State(Base.Answer(s.base, c, ok), Note(s.r, c, ok, ok && Base.Live(s.base, c.addr)))
  }

  /** Lines 270-278. */
  predicate WakesMaster(s: State) {
    || (s.base.numDroppedWorkers == 0 && Base.Answered(s.base) == s.base.numShards && !s.base.mapComplete)
    || (s.base.numDroppedWorkers == 0 && s.r.numReduceMsgs - s.r.numDroppedReduceJobs == |s.r.order| &&
        !s.r.reduceComplete)
    || s.base.numDroppedWorkers > 0
  }

  function Woken(s: State): State {
    if !WakesMaster(s) then s
    else if s.base.pc == Base.Waiting then s.(base := s.base.(pc := Base.Notified))
    else if s.base.pc == Base.Reducing && s.r.stage == Awaiting then s.(r := s.r.(stage := Told))
    else s
  }

  /** poll_workers returns once the reduce phase is complete (line 294). */
  function ReplyStep(s: State, c: Base.Call, ok: bool): State {
    if s.r.reduceComplete || c !in s.base.calls then s else Woken(Answer(s, c, ok))
  }

  /** Lines 126-135 and 145-151; only the first of the worker's files is removed. */
  function Drop(r: Reduce, a: nat, mapComplete: bool): Reduce {
    if mapComplete then r.(numDroppedReduceJobs := r.numDroppedReduceJobs + ReducedBy(r, a))
    else r.(files := r.files - {(a, 0)}, droppedEarly := r.droppedEarly + {a})
  }

  /** handle_worker_failure */
  function FailStep(s: State, a: nat): State {
    State(Base.FailStep(s.base, a), if Base.Live(s.base, a) then Drop(s.r, a, s.base.mapComplete) else s.r)
  }

  /** Lines 201-206. */
  function Judge(r: Reduce): Reduce {
    r.(stage := Judged, reduceComplete := r.reduceComplete || |r.outputFiles| == |r.order|)
  }

  function DecideStep(s: State): State {
    if s.base.pc != Base.Reducing then s.(base := Base.DecideStep(s.base))
    else if s.r.stage != Told then s
    else State(Base.DecideStep(s.base), Judge(s.r))
  }

  /** Lines 402-411. */
  function NextReduce(r: Reduce): Reduce {
    if r.stage != Judged then r
    else if r.reduceComplete then r.(stage := Finished, parts := [], next := 0)
    else r.(stage := Sending, next := 0, restarted := true)
  }

  /** Lines 348-375 and 402-411. */
  function NextPassStep(s: State): State {
    if s.base.pc == Base.Reducing then s.(r := NextReduce(s.r)) else
    var b := Base.NextPassStep(s.base);
    State(b, if b.pc == Base.Reducing then s.r.(parts := PartsOf(s.r.order, s.r.files)) else s.r)
  }

  function EndOfPassStep(s: State): State {
    if s.base.pc != Base.Reducing then s.(base := Base.Step(s.base, Base.EndOfPass))
    else if s.r.stage == Sending && s.r.next == |s.r.parts| then s.(r := s.r.(stage := Awaiting))
    else s
  }

  function Step(s: State, e: Base.Event): State {
    match e
    case DispatchMap => s.(base := Base.DispatchMapStep(s.base))
    case DispatchReduce => DispatchReduceStep(s)
    case EndOfPass => EndOfPassStep(s)
    case Reply(c, ok) => ReplyStep(s, c, ok)
    case Fail(a) => FailStep(s, a)
    case Decide => DecideStep(s)
    case NextPass => NextPassStep(s)
  }

  // ---- the map phase is MasterSpec

  /** Nothing about reduce jobs happens before the map phase is over. */
  ghost predicate Quiet(s: State) {
    && |s.r.order| > 0
    && (s.base.pc != Base.Reducing ==>
          && s.r.numReduceMsgs == 0 && s.r.numDroppedReduceJobs == 0 && s.r.outputFiles == [] && s.r.lost == {}
          && s.r.completedReduce == map[] && s.r.stage == Sending && s.r.next == 0 && s.r.parts == []
          && !s.r.reduceComplete && !s.r.restarted
          && forall a: nat {:trigger Base.Call(a, false)} :: s.base.calls[Base.Call(a, false)] == 0)
  }

  lemma AnswerQuiet(s: State, c: Base.Call, ok: bool)
    requires Quiet(s) && c in s.base.calls
    ensures Quiet(Answer(s, c, ok)) && Answer(s, c, ok).base.pc == s.base.pc
  {
    assert s.base.calls[Base.Call(c.addr, c.isMap)] > 0;
  }

  lemma WokenBase(s: State)
    requires Quiet(s)
    ensures Quiet(Woken(s)) && Woken(s).base == Base.Woken(s.base)
  {
  }

  lemma StepQuiet(s: State, e: Base.Event)
    requires Quiet(s)
    ensures Quiet(Step(s, e))
    ensures Step(s, e).base == s.base || Step(s, e).base == Base.Step(s.base, e)
  {
    match e {
      case Reply(c, ok) =>
        if !s.r.reduceComplete && c in s.base.calls {
          AnswerQuiet(s, c, ok);
          WokenBase(Answer(s, c, ok));
        }
      case _ => OtherQuiet(s, e);
    }
  }

  lemma OtherQuiet(s: State, e: Base.Event)
    requires Quiet(s) && !e.Reply?
    ensures Quiet(Step(s, e))
    ensures Step(s, e).base == s.base || Step(s, e).base == Base.Step(s.base, e)
  {
  }

  /** Whatever the reduce phase does, the map phase runs as MasterSpec says. */
  lemma {:induction false} RunIsBaseRun(s: State, schedule: seq<Base.Event>) returns (events: seq<Base.Event>)
    requires Quiet(s)
    ensures Run(Step, s, schedule).base == Run(Base.Step, s.base, events) && |events| <= |schedule|
    ensures forall k :: 0 <= k < |events| ==> events[k] in schedule
    decreases |schedule|
  {
    if schedule == [] {
      events := [];
    } else {
      StepQuiet(s, schedule[0]);
      var rest := RunIsBaseRun(Step(s, schedule[0]), schedule[1..]);
      if Step(s, schedule[0]).base == s.base {
        events := rest;
      } else {
        events := [schedule[0]] + rest;
        assert events[1..] == rest;
      }
      assert forall k :: 0 <= k < |rest| ==> rest[k] in schedule;
    }
  }

  // ---- the partitions

  /** What holds of the lists of partitions in every run. */
  ghost predicate Lists(s: State) {
    && s.r.numReduceMsgs == |s.r.outputFiles|
    && Distinct(s.r.order) && (forall i :: 0 <= i < |s.r.order| ==> s.r.order[i] < |s.r.order|)
    && Distinct(s.r.parts) && (forall i :: 0 <= i < |s.r.parts| ==> s.r.parts[i] in s.r.order)
    && s.r.next <= |s.r.parts|
    && (s.r.reduceComplete ==> |s.r.outputFiles| == |s.r.order| && (s.r.stage == Judged || s.r.stage == Finished))
  }

  lemma {:induction false} PartsListed(order: seq<nat>, files: set<(nat, nat)>)
    requires Distinct(order)
    ensures Distinct(PartsOf(order, files))
    ensures forall p :: p in PartsOf(order, files) <==> p in order && HasFile(files, p)
    decreases |order|
  {
    if order != [] {
      var rest := PartsOf(order[1..], files);
      assert order == [order[0]] + order[1..];
      PartsListed(order[1..], files);
      assert order[0] !in order[1..];
      DistinctCons(order[0], rest);
      assert [] + rest == rest;
    }
  }

  lemma DistinctCons<T>(x: T, xs: seq<T>)
    requires Distinct(xs) && x !in xs
    ensures Distinct([x] + xs)
  {
  }

  lemma DistinctSnoc<T>(xs: seq<T>, x: T)
    requires Distinct(xs) && x !in xs
    ensures Distinct(xs + [x])
  {
  }

  lemma AnswerLists(s: State, c: Base.Call, ok: bool)
    requires Lists(s) && !s.r.reduceComplete
    ensures Lists(Answer(s, c, ok))
  {
  }

  lemma WokenLists(s: State)
    requires Lists(s) && !s.r.reduceComplete
    ensures Lists(Woken(s))
  {
  }

  lemma StepLists(s: State, e: Base.Event)
    requires Lists(s) && Quiet(s)
    ensures Lists(Step(s, e))
  {
    match e {
      case Reply(c, ok) =>
        if !s.r.reduceComplete && c in s.base.calls {
          AnswerLists(s, c, ok);
          WokenLists(Answer(s, c, ok));
        }
      case NextPass => PassLists(s);
      case _ => OtherLists(s, e);
    }
  }

  lemma PassLists(s: State)
    requires Lists(s) && Quiet(s)
    ensures Lists(NextPassStep(s))
  {
    PartsListed(s.r.order, s.r.files);
  }

  lemma OtherLists(s: State, e: Base.Event)
    requires Lists(s) && Quiet(s) && !e.Reply? && !e.NextPass?
    ensures Lists(Step(s, e))
  {
  }

  /** Address `a` is working on a reduce call. */
  ghost predicate Busy(s: State, a: nat) {
    s.base.calls[Base.Call(a, false)] > 0
  }

  /** Partition `p` has not been sent in this pass. */
  ghost predicate Unsent(s: State, p: nat) {
    exists i :: s.r.next <= i < |s.r.parts| && s.r.parts[i] == p
  }

  /** Partition `p` is on its way: neither written nor lost, nor still to be sent. */
  ghost predicate OnItsWay(s: State, p: nat) {
    p in s.r.order && p !in s.r.outputFiles && p !in s.r.lost && !Unsent(s, p)
  }

  /** As long as no pass over the partitions has started over, each is in one place only. */
  ghost predicate OncePerPass(s: State) {
    && Distinct(s.r.outputFiles) && (forall p :: p in s.r.outputFiles ==> p in s.r.order)
    && (forall a: nat :: Busy(s, a) ==> OnItsWay(s, PartOf(s.r, a)))
    && (forall a: nat, b: nat :: Busy(s, a) && Busy(s, b) && a != b ==> PartOf(s.r, a) != PartOf(s.r, b))
    && (forall p: nat :: Unsent(s, p) ==> p !in s.r.outputFiles && p !in s.r.lost)
    && (forall p :: p in s.r.lost ==> p in s.r.order && p !in s.r.outputFiles)
  }

  /** What sending a partition changes. */
  lemma SendChanges(s: State)
    requires Lists(s) && Base.OneJob(s.base) && DispatchReduceStep(s).r.next != s.r.next
    ensures var t, a, p := DispatchReduceStep(s), s.base.ready[0], s.r.parts[s.r.next];
      && t.r.order == s.r.order && t.r.outputFiles == s.r.outputFiles && t.r.lost == s.r.lost
      && Unsent(s, p) && !Busy(s, a) && PartOf(t.r, a) == p
      && (forall b: nat {:trigger Busy(t, b)} :: Busy(t, b) <==> Busy(s, b) || b == a)
      && (forall b: nat {:trigger PartOf(t.r, b)} :: b != a ==> PartOf(t.r, b) == PartOf(s.r, b))
      && (forall q: nat {:trigger Unsent(t, q)} :: Unsent(t, q) <==> Unsent(s, q) && q != p)
  {
    var t, a, p := DispatchReduceStep(s), s.base.ready[0], s.r.parts[s.r.next];
    assert Base.Engaged(s.base, a) <= 1;
    forall b: nat ensures Busy(t, b) <==> Busy(s, b) || b == a {
      assert t.base.calls == s.base.calls + multiset{Base.Call(a, false)};
    }
    forall q: nat ensures Unsent(t, q) <==> Unsent(s, q) && q != p {
      if Unsent(s, q) && q != p {
        var i :| s.r.next <= i < |s.r.parts| && s.r.parts[i] == q;
        assert i != s.r.next;
      }
    }
  }

  lemma SendOnce(s: State)
    requires Lists(s) && OncePerPass(s) && Base.OneJob(s.base)
    ensures OncePerPass(DispatchReduceStep(s))
  {
    var t := DispatchReduceStep(s);
    if t.r.next != s.r.next {
      SendChanges(s);
      var a, p := s.base.ready[0], s.r.parts[s.r.next];
      assert p in s.r.order;
      forall b: nat | Busy(t, b) ensures OnItsWay(t, PartOf(t.r, b)) {
        assert b != a ==> Busy(s, b) && OnItsWay(s, PartOf(s.r, b));
      }
      forall b: nat, d: nat | Busy(t, b) && Busy(t, d) && b != d ensures PartOf(t.r, b) != PartOf(t.r, d) {
        assert Busy(s, b) ==> OnItsWay(s, PartOf(s.r, b));
        assert Busy(s, d) ==> OnItsWay(s, PartOf(s.r, d));
      }
    } else {
      SameOnce(s, t);
    }
  }

  ghost predicate SameReduce(s: State, t: State) {
    && t.r.order == s.r.order && t.r.outputFiles == s.r.outputFiles && t.r.lost == s.r.lost
    && t.r.sentPart == s.r.sentPart && t.r.next == s.r.next && t.r.parts == s.r.parts
    && forall a: nat {:trigger Busy(t, a)} :: Busy(t, a) ==> Busy(s, a)
  }

  lemma SameOnce(s: State, t: State)
    requires OncePerPass(s) && SameReduce(s, t)
    ensures OncePerPass(t)
  {
    assert forall q: nat {:trigger Unsent(t, q)} :: Unsent(t, q) <==> Unsent(s, q);
    forall a: nat | Busy(t, a) ensures Busy(s, a) && OnItsWay(t, PartOf(t.r, a)) {
      assert OnItsWay(s, PartOf(s.r, a));
    }
  }

  /** What the answer to a reduce call changes. */
  lemma AnswerChanges(s: State, c: Base.Call, ok: bool)
    requires Base.OneJob(s.base) && c in s.base.calls && !c.isMap
    ensures var t := Answer(s, c, ok);
      && t.r.order == s.r.order && t.r.sentPart == s.r.sentPart && t.r.next == s.r.next && t.r.parts == s.r.parts
      && Busy(s, c.addr)
      && (forall b: nat {:trigger Busy(t, b)} :: Busy(t, b) <==> Busy(s, b) && b != c.addr)
      && (if ok && Base.Live(s.base, c.addr)
          then t.r.outputFiles == s.r.outputFiles + [PartOf(s.r, c.addr)] && t.r.lost == s.r.lost
          else t.r.outputFiles == s.r.outputFiles && t.r.lost == s.r.lost + {PartOf(s.r, c.addr)})
  {
    var t := Answer(s, c, ok);
    assert c == Base.Call(c.addr, false) && Base.Engaged(s.base, c.addr) <= 1;
    forall b: nat ensures Busy(t, b) <==> Busy(s, b) && b != c.addr {
      assert t.base.calls == s.base.calls - multiset{c};
    }
  }

  lemma ReducedOnce(s: State, c: Base.Call, ok: bool)
    requires OncePerPass(s) && Base.OneJob(s.base) && c in s.base.calls && !c.isMap
    ensures OncePerPass(Answer(s, c, ok))
  {
    var t, p := Answer(s, c, ok), PartOf(s.r, c.addr);
    AnswerChanges(s, c, ok);
    assert OnItsWay(s, p);
    DistinctSnoc(s.r.outputFiles, p);
    assert forall q: nat {:trigger Unsent(t, q)} :: Unsent(t, q) <==> Unsent(s, q);
    forall b: nat | Busy(t, b) ensures OnItsWay(t, PartOf(t.r, b)) {
      assert Busy(s, b) && OnItsWay(s, PartOf(s.r, b));
      assert PartOf(s.r, b) != p;
    }
    forall b: nat, d: nat | Busy(t, b) && Busy(t, d) && b != d ensures PartOf(t.r, b) != PartOf(t.r, d) {
      assert Busy(s, b) && Busy(s, d);
    }
  }

  lemma MappedOnce(s: State, c: Base.Call, ok: bool)
    requires OncePerPass(s) && c.isMap
    ensures OncePerPass(Answer(s, c, ok))
  {
    var t := Answer(s, c, ok);
    forall a: nat | Busy(t, a) ensures Busy(s, a) {
      assert t.base.calls == s.base.calls - multiset{c};
    }
    SameOnce(s, t);
  }

  lemma PassOnce(s: State)
    requires Quiet(s) && OncePerPass(s) && !NextPassStep(s).r.restarted
    ensures OncePerPass(NextPassStep(s))
  {
    var t := NextPassStep(s);
    forall a: nat | Busy(t, a) ensures Busy(s, a) {}
    if s.base.pc != Base.Reducing {
      assert forall a: nat {:trigger Base.Call(a, false)} :: s.base.calls[Base.Call(a, false)] == 0;
    } else {
      forall p: nat | Unsent(t, p) ensures Unsent(s, p) {}
      forall a: nat | Busy(t, a) ensures OnItsWay(t, PartOf(t.r, a)) { assert OnItsWay(s, PartOf(s.r, a)); }
    }
  }

  lemma FailUnchanged(s: State, a: nat)
    ensures SameReduce(s, FailStep(s, a)) && FailStep(s, a).r.restarted == s.r.restarted
  {
  }

  lemma ReduceUnchanged(s: State, e: Base.Event)
    requires e.DispatchMap? || e.EndOfPass? || e.Fail? || e.Decide?
    ensures SameReduce(s, Step(s, e))
  {
    match e {
      case Fail(a) => FailUnchanged(s, a);
      case _ =>
    }
  }

  lemma WokenSame(s: State)
    ensures SameReduce(s, Woken(s)) && SameFiles(s, Woken(s)) && Woken(s).r.restarted == s.r.restarted
  {
  }

  lemma ReplyOnce(s: State, c: Base.Call, ok: bool)
    requires OncePerPass(s) && Base.OneJob(s.base)
    ensures OncePerPass(ReplyStep(s, c, ok))
  {
    if !s.r.reduceComplete && c in s.base.calls {
      if c.isMap { MappedOnce(s, c, ok); } else { ReducedOnce(s, c, ok); }
      WokenSame(Answer(s, c, ok));
      SameOnce(Answer(s, c, ok), Woken(Answer(s, c, ok)));
    }
  }

  lemma OnceStays(s: State, e: Base.Event)
    requires Quiet(s) && Lists(s) && Base.OneJob(s.base) && OncePerPass(s) && !Step(s, e).r.restarted
    ensures OncePerPass(Step(s, e))
  {
    match e {
      case DispatchReduce => SendOnce(s);
      case Reply(c, ok) => ReplyOnce(s, c, ok);
      case NextPass => PassOnce(s);
      case _ =>
        ReduceUnchanged(s, e);
        SameOnce(s, Step(s, e));
    }
  }

  lemma RestartStays(s: State, e: Base.Event)
    ensures s.r.restarted ==> Step(s, e).r.restarted
  {
    match e {
      case Reply(c, ok) => WokenSame(Answer(s, c, ok));
      case _ =>
    }
  }

  lemma StepOnce(s: State, e: Base.Event)
    requires Quiet(s) && Lists(s) && Base.OneJob(s.base) && (s.r.restarted || OncePerPass(s))
    ensures Step(s, e).r.restarted || OncePerPass(Step(s, e))
  {
    RestartStays(s, e);
    if !Step(s, e).r.restarted { OnceStays(s, e); }
  }

  // ---- intermediate files

  /** Every worker whose map answer was taken has a file for each partition, except the first one if it was dropped. */
  ghost predicate FilesKnown(s: State) {
    && (forall a: nat, p: nat :: (a, p) in s.r.files <==>
          a in s.r.answered && p < |s.r.order| && !(p == 0 && a in s.r.droppedEarly))
    && (forall a: nat :: a in s.r.droppedEarly ==> !Base.Live(s.base, a))
    && (forall a: nat :: Base.Live(s.base, a) && s.base.clients[a].completed > 0 ==> a in s.r.answered)
  }

  ghost predicate SameFiles(s: State, t: State) {
    && t.r.files == s.r.files && t.r.order == s.r.order && t.r.answered == s.r.answered
    && t.r.droppedEarly == s.r.droppedEarly
    && |t.base.clients| == |s.base.clients|
    && forall a: nat {:trigger Base.Live(t.base, a)} :: Base.Live(t.base, a) ==>
         Base.Live(s.base, a) && t.base.clients[a].completed == s.base.clients[a].completed
  }

  lemma KeepFiles(s: State, t: State)
    requires FilesKnown(s) && SameFiles(s, t)
    ensures FilesKnown(t)
  {
    forall a: nat | a in t.r.droppedEarly ensures !Base.Live(t.base, a) {
      assert !Base.Live(s.base, a);
    }
  }

  lemma AnswerFiles(s: State, c: Base.Call, ok: bool)
    requires FilesKnown(s)
    ensures FilesKnown(Answer(s, c, ok))
  {
  }

  lemma FailFiles(s: State, a: nat)
    requires FilesKnown(s) && |s.r.order| > 0
    ensures FilesKnown(FailStep(s, a))
  {
  }

  lemma OtherFiles(s: State, e: Base.Event)
    requires !e.Reply? && !e.Fail?
    ensures SameFiles(s, Step(s, e))
  {
  }

  lemma StepFiles(s: State, e: Base.Event)
    requires FilesKnown(s) && |s.r.order| > 0
    ensures FilesKnown(Step(s, e))
  {
    match e {
      case Reply(c, ok) =>
        if !s.r.reduceComplete && c in s.base.calls {
          AnswerFiles(s, c, ok);
          WokenSame(Answer(s, c, ok));
          KeepFiles(Answer(s, c, ok), Woken(Answer(s, c, ok)));
        }
      case Fail(a) => FailFiles(s, a);
      case _ =>
        OtherFiles(s, e);
        KeepFiles(s, Step(s, e));
    }
  }

  // ---- the counters

  /** What the first `n` workers have reduced, as far as they are still there. */
  function LiveReduced(s: State, n: nat): nat {
    if n == 0 then 0
    else LiveReduced(s, n - 1) + if Base.Live(s.base, n - 1) then ReducedBy(s.r, n - 1) else 0
  }

  /** The reduce answers counted are those of the workers that are still there, less one for every error. */
  ghost predicate Ledger(s: State) {
    s.r.numReduceMsgs - s.r.numDroppedReduceJobs == LiveReduced(s, |s.base.clients|) - s.r.errors
  }

  ghost predicate SameAt(s: State, t: State, a: nat) {
    (Base.Live(t.base, a) <==> Base.Live(s.base, a)) && ReducedBy(t.r, a) == ReducedBy(s.r, a)
  }

  lemma {:induction false} LiveSame(s: State, t: State, n: nat)
    requires forall a: nat :: a < n ==> SameAt(s, t, a)
    ensures LiveReduced(t, n) == LiveReduced(s, n)
    decreases n
  {
    if n > 0 {
      LiveSame(s, t, n - 1);
      assert SameAt(s, t, n - 1);
    }
  }

  /** Only worker `a` changes. */
  lemma {:induction false} LiveBut(s: State, t: State, a: nat, n: nat)
    requires a < n && forall b: nat :: b < n && b != a ==> SameAt(s, t, b)
    ensures LiveReduced(t, n) + (if Base.Live(s.base, a) then ReducedBy(s.r, a) else 0) ==
      LiveReduced(s, n) + if Base.Live(t.base, a) then ReducedBy(t.r, a) else 0
    decreases n
  {
    if a < n - 1 {
      LiveBut(s, t, a, n - 1);
      assert SameAt(s, t, n - 1);
    } else {
      LiveSame(s, t, n - 1);
    }
  }

  lemma AnswerLedger(s: State, c: Base.Call, ok: bool)
    requires Ledger(s)
    ensures Ledger(Answer(s, c, ok))
  {
    var t, n := Answer(s, c, ok), |s.base.clients|;
    assert |t.base.clients| == n;
    if !c.isMap && ok && Base.Live(s.base, c.addr) {
      forall b: nat | b < n && b != c.addr ensures SameAt(s, t, b) {}
      LiveBut(s, t, c.addr, n);
    } else {
      forall b: nat | b < n ensures SameAt(s, t, b) {}
      LiveSame(s, t, n);
    }
  }

  lemma FailLedger(s: State, a: nat)
    requires Ledger(s) && Quiet(s) && Base.Control(s.base)
    ensures Ledger(FailStep(s, a))
  {
    var t, n := FailStep(s, a), |s.base.clients|;
    if Base.Live(s.base, a) {
      forall b: nat | b < n && b != a ensures SameAt(s, t, b) {}
      LiveBut(s, t, a, n);
    }
  }

  /** What the other events leave alone. */
  lemma SameCounters(s: State, e: Base.Event)
    requires !e.Reply? && !e.Fail?
    ensures var t := Step(s, e);
      && t.r.numReduceMsgs == s.r.numReduceMsgs && t.r.errors == s.r.errors
      && t.r.numDroppedReduceJobs == s.r.numDroppedReduceJobs && t.r.completedReduce == s.r.completedReduce
  {
  }

  lemma SameLive(s: State, e: Base.Event)
    requires !e.Reply? && !e.Fail?
    ensures |Step(s, e).base.clients| == |s.base.clients|
    ensures forall a: nat :: Base.Live(Step(s, e).base, a) <==> Base.Live(s.base, a)
  {
  }

  lemma WokenCounters(s: State)
    ensures Woken(s).base.clients == s.base.clients && Woken(s).r == s.r.(stage := Woken(s).r.stage)
  {
  }

  lemma StepLedger(s: State, e: Base.Event)
    requires Ledger(s) && Quiet(s) && Base.Control(s.base)
    ensures Ledger(Step(s, e))
  {
    match e {
      case Reply(c, ok) =>
        if !s.r.reduceComplete && c in s.base.calls {
          AnswerLedger(s, c, ok);
          WokenLedger(Answer(s, c, ok));
        }
      case Fail(a) => FailLedger(s, a);
      case _ => OtherLedger(s, e);
    }
  }

  lemma WokenLedger(s: State)
    requires Ledger(s)
    ensures Ledger(Woken(s))
  {
    WokenCounters(s);
    forall b: nat | b < |s.base.clients| ensures SameAt(s, Woken(s), b) {}
    LiveSame(s, Woken(s), |s.base.clients|);
  }

  lemma OtherLedger(s: State, e: Base.Event)
    requires Ledger(s) && !e.Reply? && !e.Fail?
    ensures Ledger(Step(s, e))
  {
    SameCounters(s, e);
    SameLive(s, e);
    forall b: nat | b < |s.base.clients| ensures SameAt(s, Step(s, e), b) {}
    LiveSame(s, Step(s, e), |s.base.clients|);
  }

  /**
   While nobody has been dropped, an answer wakes the master that waits for the reduce jobs exactly if the workers that
   are still there have given one answer for each partition and one more for each error.
  */
  lemma ReduceWokenIff(s: State)
    requires Ledger(s) && Base.Control(s.base) && s.base.pc == Base.Reducing && s.r.stage == Awaiting
    requires s.base.numDroppedWorkers == 0 && !s.r.reduceComplete
    ensures Woken(s).r.stage == Told <==> LiveReduced(s, |s.base.clients|) == |s.r.order| + s.r.errors
  {
  }

  // ---- runs

  /** Only partitions are ever sent and written. */
  ghost predicate Named(s: State) {
    && (forall p :: p in s.r.outputFiles ==> p in s.r.order)
    && (forall a :: a in s.r.sentPart ==> s.r.sentPart[a] in s.r.order)
    && (forall a: nat :: Busy(s, a) ==> a in s.r.sentPart)
  }

  lemma KeepNamed(s: State, t: State)
    requires Named(s) && SameReduce(s, t)
    ensures Named(t)
  {
    forall a: nat | Busy(t, a) ensures a in t.r.sentPart { assert Busy(s, a); }
  }

  lemma SendNamed(s: State)
    requires Named(s) && Lists(s) && Base.OneJob(s.base)
    ensures Named(DispatchReduceStep(s))
  {
    var t := DispatchReduceStep(s);
    if t.r.next != s.r.next {
      SendChanges(s);
      forall a: nat | Busy(t, a) ensures a in t.r.sentPart { assert a != s.base.ready[0] ==> Busy(s, a); }
    } else {
      KeepNamed(s, t);
    }
  }

  lemma AnswerNamed(s: State, c: Base.Call, ok: bool)
    requires Named(s) && Base.OneJob(s.base) && c in s.base.calls
    ensures Named(Answer(s, c, ok))
  {
    var t := Answer(s, c, ok);
    if !c.isMap {
      AnswerChanges(s, c, ok);
      forall a: nat | Busy(t, a) ensures a in t.r.sentPart { assert Busy(s, a); }
    } else {
      forall a: nat | Busy(t, a) ensures Busy(s, a) { assert t.base.calls == s.base.calls - multiset{c}; }
      KeepNamed(s, t);
    }
  }

  lemma PassNamed(s: State)
    requires Named(s)
    ensures Named(NextPassStep(s))
  {
    forall a: nat | Busy(NextPassStep(s), a) ensures Busy(s, a) {}
  }

  lemma StepNamed(s: State, e: Base.Event)
    requires Named(s) && Lists(s) && Base.OneJob(s.base)
    ensures Named(Step(s, e))
  {
    match e {
      case DispatchReduce => SendNamed(s);
      case Reply(c, ok) =>
        if !s.r.reduceComplete && c in s.base.calls {
          AnswerNamed(s, c, ok);
          WokenSame(Answer(s, c, ok));
          KeepNamed(Answer(s, c, ok), Woken(Answer(s, c, ok)));
        }
      case NextPass => PassNamed(s);
      case _ => OtherNamed(s, e);
    }
  }

  lemma OtherNamed(s: State, e: Base.Event)
    requires Named(s) && (e.DispatchMap? || e.EndOfPass? || e.Fail? || e.Decide?)
    ensures Named(Step(s, e))
  {
    ReduceUnchanged(s, e);
    KeepNamed(s, Step(s, e));
  }

  ghost predicate Inv(s: State, all: seq<FileShard>) {
    && Base.Inv(s.base, all) && Quiet(s) && Lists(s) && Named(s) && FilesKnown(s) && Ledger(s)
    && (s.r.restarted || OncePerPass(s))
  }

  lemma StepInv(s: State, e: Base.Event, all: seq<FileShard>)
    requires Inv(s, all)
    ensures Inv(Step(s, e), all)
  {
    StepQuiet(s, e);
    Base.StepInv(s.base, e, all);
    StepLists(s, e);
    StepNamed(s, e);
    StepFiles(s, e);
    StepLedger(s, e);
    StepOnce(s, e);
  }

  /** A numbering of the output files. */
  ghost predicate Partitions(order: seq<nat>) {
    order != [] && Distinct(order) && forall i :: 0 <= i < |order| ==> order[i] < |order|
  }

  lemma StartInv(all: seq<FileShard>, workers: nat, order: seq<nat>)
    requires Partitions(order)
    ensures Inv(Start(all, workers, order), all)
  {
    Base.StartInv(all, workers);
    NoneReduced(Start(all, workers, order), workers);
  }

  lemma {:induction false} NoneReduced(s: State, n: nat)
    requires s.r.completedReduce == map[]
    ensures LiveReduced(s, n) == 0
    decreases n
  {
    if n > 0 { NoneReduced(s, n - 1); }
  }

  lemma RunInv(all: seq<FileShard>, workers: nat, order: seq<nat>, schedule: seq<Base.Event>)
    requires Partitions(order)
    ensures Inv(Run(Step, Start(all, workers, order), schedule), all)
  {
    StartInv(all, workers, order);
    forall s: State, e: Base.Event | Inv(s, all) ensures Inv(Step(s, e), all) { StepInv(s, e, all); }
    RunKeeps(Step, s => Inv(s, all), Start(all, workers, order), schedule);
  }

  // ---- completion of the reduce phase

  lemma {:induction false} DistinctBag<T>(xs: seq<T>)
    requires Distinct(xs)
    ensures forall x :: multiset(xs)[x] == if x in xs then 1 else 0
    decreases |xs|
  {
    if xs != [] {
      assert xs == [xs[0]] + xs[1..];
      DistinctBag(xs[1..]);
    }
  }

  lemma {:induction false} OftenDistinct<T>(xs: seq<T>)
    requires forall x :: multiset(xs)[x] <= 1
    ensures Distinct(xs)
    decreases |xs|
  {
    if xs != [] {
      assert xs == [xs[0]] + xs[1..];
      assert multiset(xs) == multiset{xs[0]} + multiset(xs[1..]);
      assert multiset(xs)[xs[0]] <= 1;
      assert xs[0] !in multiset(xs[1..]);
      forall x ensures multiset(xs[1..])[x] <= 1 { assert multiset(xs)[x] <= 1; }
      OftenDistinct(xs[1..]);
      DistinctCons(xs[0], xs[1..]);
    }
  }

  /**
   When the reduce phase is declared complete, every partition has been written exactly if none has been written
   twice.
  */
  lemma AllReducedIff(s: State, all: seq<FileShard>)
    requires Inv(s, all) && s.r.reduceComplete
    ensures multiset(s.r.order) <= multiset(s.r.outputFiles) <==> Distinct(s.r.outputFiles)
    ensures Distinct(s.r.outputFiles) ==> multiset(s.r.outputFiles) == multiset(s.r.order)
  {
    var order, out := multiset(s.r.order), multiset(s.r.outputFiles);
    DistinctBag(s.r.order);
    assert |order| == |out|;
    if order <= out {
      Base.SameSize(order, out);
      OftenDistinct(s.r.outputFiles);
    }
    if Distinct(s.r.outputFiles) {
      DistinctBag(s.r.outputFiles);
      assert forall p :: out[p] <= order[p];
      Base.SameSize(out, order);
    }
  }

  /** As it is in every run, failures and errors included, in which no pass over the partitions starts over. */
  lemma CompleteMeansReduced(s: State, all: seq<FileShard>)
    requires Inv(s, all) && s.r.reduceComplete && !s.r.restarted
    ensures multiset(s.r.outputFiles) == multiset(s.r.order) && s.r.lost == {}
  {
    AllReducedIff(s, all);
    forall p ensures p !in s.r.lost {
      assert p in s.r.order <==> p in multiset(s.r.order);
      assert p in s.r.outputFiles <==> p in multiset(s.r.outputFiles);
    }
  }

  lemma RunReduced(all: seq<FileShard>, workers: nat, order: seq<nat>, schedule: seq<Base.Event>)
    requires Partitions(order)
    ensures var s := Run(Step, Start(all, workers, order), schedule);
      s.r.reduceComplete && !s.r.restarted ==> multiset(s.r.outputFiles) == multiset(order)
  {
    RunInv(all, workers, order, schedule);
    RunOrder(all, workers, order, schedule);
    var s := Run(Step, Start(all, workers, order), schedule);
    if s.r.reduceComplete && !s.r.restarted { CompleteMeansReduced(s, all); }
  }

  lemma StepOrder(s: State, e: Base.Event)
    ensures Step(s, e).r.order == s.r.order
  {
    match e {
      case Reply(c, ok) => WokenSame(Answer(s, c, ok));
      case _ =>
    }
  }

  lemma RunOrder(all: seq<FileShard>, workers: nat, order: seq<nat>, schedule: seq<Base.Event>)
    ensures Run(Step, Start(all, workers, order), schedule).r.order == order
  {
    forall s: State, e: Base.Event | s.r.order == order ensures Step(s, e).r.order == order { StepOrder(s, e); }
    RunKeeps(Step, (s: State) => s.r.order == order, Start(all, workers, order), schedule);
  }

  // ---- a lost partition

  lemma StepLost(s: State, e: Base.Event)
    ensures s.r.lost <= Step(s, e).r.lost
  {
    match e {
      case Reply(c, ok) => WokenSame(Answer(s, c, ok));
      case _ =>
    }
  }

  /**
   A partition whose call was answered by an error, or by a worker that had been dropped, is not sent again:
   whatever follows, the phase is not declared complete unless a whole pass starts over.
  */
  lemma LossBlocksCompletion(s: State, all: seq<FileShard>, schedule: seq<Base.Event>)
    requires Inv(s, all) && s.r.lost != {}
    ensures var t := Run(Step, s, schedule); t.r.restarted || !t.r.reduceComplete
  {
    var p :| p in s.r.lost;
    forall t: State, e: Base.Event | Inv(t, all) && p in t.r.lost
      ensures Inv(Step(t, e), all) && p in Step(t, e).r.lost
    {
      StepInv(t, e, all);
      StepLost(t, e);
    }
    RunKeeps(Step, t => Inv(t, all) && p in t.r.lost, s, schedule);
    var t := Run(Step, s, schedule);
    if t.r.reduceComplete && !t.r.restarted { CompleteMeansReduced(t, all); }
  }

  lemma StepOutputs(s: State, e: Base.Event)
    ensures |Step(s, e).r.outputFiles| >= |s.r.outputFiles| && Step(s, e).r.order == s.r.order
  {
    match e {
      case Reply(c, ok) => WokenSame(Answer(s, c, ok));
      case _ =>
    }
    StepOrder(s, e);
  }

  /** Once there are more answers than partitions the phase is never declared complete. */
  lemma OvershootBlocksCompletion(s: State, all: seq<FileShard>, schedule: seq<Base.Event>)
    requires Inv(s, all) && |s.r.outputFiles| > |s.r.order|
    ensures !Run(Step, s, schedule).r.reduceComplete
  {
    forall t: State, e: Base.Event | Inv(t, all) && |t.r.outputFiles| > |t.r.order|
      ensures Inv(Step(t, e), all) && |Step(t, e).r.outputFiles| > |Step(t, e).r.order|
    {
      StepInv(t, e, all);
      StepOutputs(t, e);
    }
    RunKeeps(Step, t => Inv(t, all) && |t.r.outputFiles| > |t.r.order|, s, schedule);
  }

  // ---- runs without failures

  /** Without failures no pass over the partitions starts over. */
  ghost predicate Smooth(s: State, all: seq<FileShard>) {
    && Base.Smooth(s.base, all) && !s.r.restarted && s.r.numDroppedReduceJobs == 0
    && (s.r.stage == Told ==> |s.r.outputFiles| == |s.r.order|)
    && (s.r.stage == Judged ==> s.r.reduceComplete)
  }

  /** There cannot be more output files than partitions before one is written twice. */
  lemma OutputsBound(s: State)
    requires Distinct(s.r.order) && OncePerPass(s)
    ensures |s.r.outputFiles| <= |s.r.order|
  {
    var order, out := multiset(s.r.order), multiset(s.r.outputFiles);
    DistinctBag(s.r.order);
    DistinctBag(s.r.outputFiles);
    assert forall p :: out[p] <= order[p];
    assert order == out + (order - out);
  }

  /** What an answer other than an error leaves as it was. */
  lemma GoodAnswer(s: State, c: Base.Call)
    ensures var t := Answer(s, c, true);
      && t.base == Base.Answer(s.base, c, true) && t.r.stage == s.r.stage && t.r.restarted == s.r.restarted
      && t.r.numDroppedReduceJobs == s.r.numDroppedReduceJobs && t.r.reduceComplete == s.r.reduceComplete
      && t.r.order == s.r.order
      && |t.r.outputFiles| >= |s.r.outputFiles|
  {
  }

  lemma SmoothAnswer(s: State, c: Base.Call, all: seq<FileShard>)
    requires Smooth(s, all) && Inv(s, all) && c in s.base.calls && !s.r.reduceComplete
    ensures Smooth(Answer(s, c, true), all) && Quiet(Answer(s, c, true))
  {
    Base.SmoothAnswer(s.base, c, all);
    AnswerQuiet(s, c, true);
    GoodAnswer(s, c);
    if c.isMap { MappedOnce(s, c, true); } else { ReducedOnce(s, c, true); }
    OutputsBound(Answer(s, c, true));
  }

  lemma SmoothWoken(s: State, all: seq<FileShard>)
    requires Smooth(s, all) && Quiet(s) && s.r.numReduceMsgs == |s.r.outputFiles| && Base.Inv(Base.Woken(s.base), all)
    ensures Smooth(Woken(s), all)
  {
    WokenBase(s);
    Base.SmoothWoken(s.base, all);
  }

  lemma SmoothReply(s: State, c: Base.Call, all: seq<FileShard>)
    requires Smooth(s, all) && Inv(s, all)
    ensures Smooth(ReplyStep(s, c, true), all)
  {
    if !s.r.reduceComplete && c in s.base.calls { SmoothTaken(s, c, all); }
  }

  lemma SmoothTaken(s: State, c: Base.Call, all: seq<FileShard>)
    requires Smooth(s, all) && Inv(s, all) && c in s.base.calls && !s.r.reduceComplete
    ensures Smooth(Woken(Answer(s, c, true)), all)
  {
    SmoothAnswer(s, c, all);
    AnswerCounts(s, c);
    Base.ReplyInv(s.base, c, true, Base.Woken(Base.Answer(s.base, c, true)), all);
    SmoothWoken(Answer(s, c, true), all);
  }

  lemma AnswerCounts(s: State, c: Base.Call)
    requires s.r.numReduceMsgs == |s.r.outputFiles|
    ensures Answer(s, c, true).base == Base.Answer(s.base, c, true)
    ensures Answer(s, c, true).r.numReduceMsgs == |Answer(s, c, true).r.outputFiles|
  {
  }


  /** What the other events do to a run without failures. */
  lemma OtherChanges(s: State, e: Base.Event)
    requires Quiet(s) && !e.Reply? && !e.Fail? && !(e.NextPass? && s.r.stage == Judged && !s.r.reduceComplete)
    ensures var t := Step(s, e);
      && (t.base == s.base || t.base == Base.Step(s.base, e))
      && t.r.restarted == s.r.restarted && t.r.numDroppedReduceJobs == s.r.numDroppedReduceJobs
      && t.r.outputFiles == s.r.outputFiles && t.r.order == s.r.order
      && (t.r.stage == Told ==> s.r.stage == Told)
      && (t.r.stage == Judged ==> t.r.reduceComplete || s.r.stage == Judged || |s.r.outputFiles| != |s.r.order|)
      && (s.r.reduceComplete ==> t.r.reduceComplete)
      && (s.r.stage != Judged && t.r.stage == Judged ==> s.r.stage == Told)
  {
  }

  lemma StepSmooth(s: State, e: Base.Event, all: seq<FileShard>)
    requires Smooth(s, all) && Inv(s, all) && Base.Harmless(e)
    ensures Smooth(Step(s, e), all) && Inv(Step(s, e), all)
  {
    StepInv(s, e, all);
    match e {
      case Reply(c, ok) => SmoothReply(s, c, all);
      case _ =>
        OtherChanges(s, e);
        Base.StepSmooth(s.base, e, all);
    }
  }

  lemma {:induction false} RunSmooth(s: State, all: seq<FileShard>, schedule: seq<Base.Event>)
    requires Smooth(s, all) && Inv(s, all) && forall k :: 0 <= k < |schedule| ==> Base.Harmless(schedule[k])
    ensures Smooth(Run(Step, s, schedule), all) && Inv(Run(Step, s, schedule), all)
    decreases |schedule|
  {
    if schedule != [] {
      StepSmooth(s, schedule[0], all);
      RunSmooth(Step(s, schedule[0]), all, schedule[1..]);
    }
  }

  /** In a run without failures, completion means that every partition has been written exactly once. */
  lemma HarmlessReduced(all: seq<FileShard>, workers: nat, order: seq<nat>, schedule: seq<Base.Event>)
    requires Partitions(order) && forall k :: 0 <= k < |schedule| ==> Base.Harmless(schedule[k])
    ensures var s := Run(Step, Start(all, workers, order), schedule);
      s.r.reduceComplete ==>
        && multiset(s.r.outputFiles) == multiset(order)
        && s.base.mapComplete && Base.AllAnswered(s.base.clients, s.base.calls, all)
  {
    StartInv(all, workers, order);
    RunSmooth(Start(all, workers, order), all, schedule);
    RunReduced(all, workers, order, schedule);
    var s := Run(Step, Start(all, workers, order), schedule);
    if s.r.reduceComplete { assert s.base.pc == Base.Reducing; }
  }

  // ---- what is reduced

  /** Every partition has a file. */
  ghost predicate AllFiled(s: State) {
    forall p :: p in s.r.order ==> HasFile(s.r.files, p)
  }

  /** Once the map phase is complete every partition has a file, and all of them are reduced. */
  ghost predicate AllParts(s: State, all: seq<FileShard>) {
    all != [] && s.base.mapComplete ==>
      AllFiled(s) && (s.base.pc == Base.Reducing && s.r.stage != Finished ==> s.r.parts == s.r.order)
  }

  lemma {:induction false} PartsAll(order: seq<nat>, files: set<(nat, nat)>)
    requires forall p :: p in order ==> HasFile(files, p)
    ensures PartsOf(order, files) == order
    decreases |order|
  {
    if order != [] {
      assert order[0] in order && order == [order[0]] + order[1..];
      PartsAll(order[1..], files);
    }
  }

  lemma {:induction false} SomeCompleted(clients: seq<Base.Slot>) returns (a: nat)
    requires Base.CompletedIn(clients) > 0
    ensures a < |clients| && clients[a].Worker? && clients[a].completed > 0
    decreases |clients|
  {
    if clients[0].Worker? && clients[0].completed > 0 {
      a := 0;
    } else {
      var b := SomeCompleted(clients[1..]);
      a := b + 1;
    }
  }

  lemma CompleteFiled(s: State, all: seq<FileShard>)
    requires Inv(s, all) && all != [] && Base.Completes(s.base)
    ensures AllFiled(s)
  {
    Base.CompletesIff(s.base, all);
    var a := SomeCompleted(s.base.clients);
    assert Base.Live(s.base, a);
    forall p | p in s.r.order ensures HasFile(s.r.files, p) {
      assert (a, p) in s.r.files;
      assert (a, p).1 == p;
    }
  }

  ghost predicate FilesStay(s: State, t: State) {
    && s.r.files <= t.r.files && t.r.order == s.r.order
    && (s.base.pc == Base.Reducing && t.r.stage != Finished ==> s.r.stage != Finished && t.r.parts == s.r.parts)
  }

  lemma ReplyFiles(s: State, c: Base.Call, ok: bool)
    ensures FilesStay(s, ReplyStep(s, c, ok))
    ensures ReplyStep(s, c, ok).base.pc == Base.Reducing ==> s.base.pc == Base.Reducing
  {
    assert s.r.files <= Answer(s, c, ok).r.files && Answer(s, c, ok).r.stage == s.r.stage;
  }

  lemma MoreFiles(s: State, e: Base.Event)
    requires s.base.mapComplete
    ensures FilesStay(s, Step(s, e))
    ensures s.base.pc != Base.Reducing && Step(s, e).base.pc == Base.Reducing ==> e == Base.NextPass
  {
    match e {
      case Reply(c, ok) => ReplyFiles(s, c, ok);
      case _ =>
    }
  }

  lemma StepAllParts(s: State, e: Base.Event, all: seq<FileShard>)
    requires Inv(s, all) && AllParts(s, all)
    ensures AllParts(Step(s, e), all)
  {
    var t := Step(s, e);
    if all != [] && t.base.mapComplete {
      if s.base.mapComplete {
        MoreFiles(s, e);
        forall p | p in t.r.order ensures HasFile(t.r.files, p) {
          assert HasFile(s.r.files, p);
        }
        if s.base.pc != Base.Reducing && t.base.pc == Base.Reducing { PartsAll(s.r.order, s.r.files); }
      } else {
        StepQuiet(s, e);
        Base.CompleteFlags(s.base, e);
        CompleteFiled(s, all);
      }
    }
  }

  /** In every run: when reducing starts, every partition is sent, whatever has failed before. */
  lemma RunAllParts(all: seq<FileShard>, workers: nat, order: seq<nat>, schedule: seq<Base.Event>)
    requires Partitions(order) && all != []
    ensures var s := Run(Step, Start(all, workers, order), schedule);
      s.base.pc == Base.Reducing && s.r.stage != Finished ==> s.r.parts == order
  {
    StartInv(all, workers, order);
    forall s: State, e: Base.Event | Inv(s, all) && AllParts(s, all)
      ensures Inv(Step(s, e), all) && AllParts(Step(s, e), all)
    {
      StepInv(s, e, all);
      StepAllParts(s, e, all);
    }
    RunKeeps(Step, s => Inv(s, all) && AllParts(s, all), Start(all, workers, order), schedule);
    RunOrder(all, workers, order, schedule);
    assert Base.Control(Run(Step, Start(all, workers, order), schedule).base);
  }

  /**
   What a worker wrote before it was dropped in the map phase is reduced all the same, besides what the workers
   wrote that were given its shards, exactly if there is a second partition: only the file of the first is removed.
  */
  lemma StaleFilesIff(s: State, all: seq<FileShard>, a: nat)
    requires Inv(s, all) && a in s.r.answered && a in s.r.droppedEarly
    ensures (exists f :: f in s.r.files && f.0 == a) <==> |s.r.order| >= 2
    ensures forall p: nat :: (a, p) in s.r.files <==> 0 < p < |s.r.order|
  {
    if |s.r.order| >= 2 { assert (a, 1) in s.r.files && (a, 1).0 == a; }
    forall f | f in s.r.files && f.0 == a ensures |s.r.order| >= 2 {
      assert f == (a, f.1);
    }
  }
}
