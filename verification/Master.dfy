/** The Master class. */
module Master {
  import opened Sharding
  import opened FairRuns
  import Spec = MasterSpec
  import Whole = ReduceSpec

  /** WorkerClient; `completed_reduce_jobs` is in ReduceJobs, and `reduce_partitions` is never filled. */
  class WorkerClient {
    var mapShards: seq<FileShard>
    var completedMapJobs: nat

    constructor ()
      ensures mapShards == [] && completedMapJobs == 0
    {
      mapShards, completedMapJobs := [], 0;
    }
  }

  /**
   The members of the master that are about reduce jobs and intermediate files.  `order` numbers the output files in
   the order in which the map of line 362 lists them, `sentPart` is the partition that a worker's answer names.
  */
  class ReduceJobs {
    const order: seq<nat>
    var stage: Whole.Stage
    var partitions: seq<nat>
    var unfinishedPartitions: seq<nat>
    var nextPartition: nat
    var sentPart: map<nat, nat>
    var completedReduceJobs: map<nat, nat>
    var numReduceMsgs: nat
    var numDroppedReduceJobs: nat
    var outputFiles: seq<nat>
    var reduceComplete: bool
    var intermediateFiles: set<(nat, nat)>
    ghost var lost: set<nat>
    ghost var restarted: bool
    ghost var answered: set<nat>
    ghost var droppedEarly: set<nat>
    ghost var errors: nat

    ghost function View(): Whole.Reduce
      reads this
    {
      Whole.Reduce(stage, partitions, nextPartition, sentPart, completedReduceJobs, numReduceMsgs,
                   numDroppedReduceJobs, outputFiles, reduceComplete, order, intermediateFiles, lost, restarted,
                   answered, droppedEarly, errors)
    }

    constructor (order: seq<nat>)
      ensures unfinishedPartitions == []
      ensures View() ==
        Whole.Reduce(Whole.Sending, [], 0, map[], map[], 0, 0, [], false, order, {}, {}, false, {}, {}, 0)
    {
      this.order := order;
      stage, partitions, unfinishedPartitions, nextPartition := Whole.Sending, [], [], 0;
      sentPart, completedReduceJobs, numReduceMsgs, numDroppedReduceJobs := map[], map[], 0, 0;
      outputFiles, reduceComplete, intermediateFiles := [], false, {};
      lost, restarted, answered, droppedEarly, errors := {}, false, {}, {}, 0;
    }

    /** Lines 393-399: the next partition goes to worker `a`. */
    method Send(a: nat)
      requires nextPartition < |partitions|
      modifies this
      ensures View() == Whole.Send(old(View()), a) && unfinishedPartitions == old(unfinishedPartitions)
    {
      sentPart := sentPart[a := partitions[nextPartition]];
      nextPartition := nextPartition + 1;
    }

    /** Lines 243-246: the files that the answer to a map call names. */
    method InsertFiles(a: nat)
      modifies this
      ensures View() == old(View()).(files := old(intermediateFiles) + Whole.FilesOf(a, |order|))
      ensures unfinishedPartitions == old(unfinishedPartitions)
    {
      for p := 0 to |order|
        invariant View() == old(View()).(files := old(intermediateFiles) + Whole.FilesOf(a, p))
        invariant unfinishedPartitions == old(unfinishedPartitions)
      {
        intermediateFiles := intermediateFiles + {(a, p)};
      }
    }

    /** Lines 248-251. */
    method CountReduced(a: nat)
      modifies this
      ensures View() == Whole.Note(old(View()), Spec.Call(a, false), true, true)
      ensures unfinishedPartitions == old(unfinishedPartitions)
    {
      numReduceMsgs := numReduceMsgs + 1;
      completedReduceJobs := completedReduceJobs[a :=
        (if a in completedReduceJobs then completedReduceJobs[a] else 0) + 1];
      outputFiles := outputFiles + [if a in sentPart then sentPart[a] else 0];
    }

    /** Lines 240-262, as far as they are about files and reduce jobs. */
    method Note(c: Spec.Call, ok: bool, taken: bool)
      requires taken ==> ok
      modifies this
      ensures View() == Whole.Note(old(View()), c, ok, taken) && unfinishedPartitions == old(unfinishedPartitions)
    {
      if c.isMap {
        if taken {
          InsertFiles(c.addr);
          answered := answered + {c.addr};
        }
      } else if taken {
        CountReduced(c.addr);
      } else {
        lost := lost + {Whole.PartOf(View(), c.addr)};
        if !ok { numDroppedReduceJobs, errors := numDroppedReduceJobs + 1, errors + 1; }
      }
    }

    /**
     Lines 126-135 and 145-151.  The first loop stops at the first of the worker's files, in the order of their names;
     the second runs over the empty reduce_partitions.
    */
    method Drop(a: nat, mapComplete: bool)
      modifies this
      ensures View() == Whole.Drop(old(View()), a, mapComplete) && unfinishedPartitions == old(unfinishedPartitions)
    {
      if mapComplete {
        numDroppedReduceJobs := numDroppedReduceJobs + if a in completedReduceJobs then completedReduceJobs[a] else 0;
      } else {
        intermediateFiles := intermediateFiles - {(a, 0)};
        droppedEarly := droppedEarly + {a};
      }
    }

    /** Lines 201-206. */
    method Judge()
      requires unfinishedPartitions == []
      modifies this
      ensures View() == Whole.Judge(old(View())) && unfinishedPartitions == []
    {
      if !reduceComplete {
        if |unfinishedPartitions| == 0 && |outputFiles| == |order| {
          reduceComplete := true;
        }
      }
      stage := Whole.Judged;
    }

    /** Lines 362-375. */
    method ListPartitions()
      modifies this
      ensures View() == old(View()).(parts := Whole.PartsOf(order, intermediateFiles))
      ensures unfinishedPartitions == old(unfinishedPartitions)
    {
      partitions := FiledPartitions(order, intermediateFiles);
    }

    /** Lines 402-411. */
    method NextReduce()
      requires unfinishedPartitions == []
      modifies this
      ensures View() == Whole.NextReduce(old(View())) && unfinishedPartitions == []
    {
      if stage == Whole.Judged {
        if |unfinishedPartitions| == 0 && reduceComplete {
          stage, partitions, nextPartition := Whole.Finished, [], 0;
        } else {
          stage, nextPartition, restarted := Whole.Sending, 0, true;
        }
      }
    }
  }

  method FiledPartitions(order: seq<nat>, files: set<(nat, nat)>) returns (partitions: seq<nat>)
    ensures partitions == Whole.PartsOf(order, files)
  {
    partitions := [];
    for k := 0 to |order|
      invariant partitions + Whole.PartsOf(order[k..], files) == Whole.PartsOf(order, files)
    {
      assert order[k..][0] == order[k] && order[k..][1..] == order[k + 1..];
      if f :| f in files && f.1 == order[k] {
        partitions := partitions + [order[k]];
      }
    }
  }

  class Master {
    const clients: array<WorkerClient?>
    const reduce: ReduceJobs
    const numShards: nat
    var pc: Spec.Pc
    var shards: seq<FileShard>
    var next: nat
    var unfinishedShards: seq<FileShard>
    var dropped: set<nat>
    var readyQueue: seq<nat>
    var calls: multiset<Spec.Call>
    var numMapMsgs: int
    var numDroppedMapJobs: int
    var numDroppedWorkers: nat
    var mapComplete: bool
    ghost var errors: nat
    ghost var rescanned: bool
    ghost const heap: set<WorkerClient>

    ghost predicate Valid()
      reads clients
    {
      && (forall i :: 0 <= i < clients.Length && clients[i] != null ==> clients[i] in heap)
      && (forall i, k :: 0 <= i < k < clients.Length && clients[i] != null ==> clients[i] != clients[k])
    }

    ghost function SlotAt(i: nat): Spec.Slot
      requires Valid() && i < clients.Length
      reads clients, heap
    {
      if clients[i] == null then Spec.Gone else Spec.Worker(clients[i].mapShards, clients[i].completedMapJobs)
    }

    ghost function Slots(): seq<Spec.Slot>
      requires Valid()
      reads clients, heap
    {
      seq(clients.Length, i requires 0 <= i < clients.Length && Valid() reads clients, heap => SlotAt(i))
    }

    /** The map phase. */
    ghost function Base(): Spec.State
      requires Valid()
      reads this, clients, heap
    {
      Spec.State(pc, shards, next, unfinishedShards, Slots(), dropped, readyQueue, calls, numMapMsgs, numDroppedMapJobs,
                 numDroppedWorkers, numShards, mapComplete, errors, rescanned)
    }

    ghost function View(): Whole.State
      requires Valid()
      reads this, reduce, clients, heap
    {
      Whole.State(Base(), reduce.View())
    }

    ghost predicate Ready()
      reads this, reduce, clients
    {
      Valid() && reduce.unfinishedPartitions == []
    }

    constructor (fileShards: seq<FileShard>, workers: nat, order: seq<nat>)
      ensures Ready() && View() == Whole.Start(fileShards, workers, order)
      ensures fresh(clients) && fresh(heap) && fresh(reduce)
    {
      var cs := new WorkerClient?[workers](_ => null);
      var ready: seq<nat> := [];
      ghost var all: set<WorkerClient> := {};
      for i := 0 to workers
        invariant fresh(cs) && fresh(all)
        invariant ready == seq(i, k requires 0 <= k => k)
        invariant forall k :: 0 <= k < i ==>
          cs[k] != null && cs[k] in all && cs[k].mapShards == [] && cs[k].completedMapJobs == 0
        invariant forall k, l :: 0 <= k < l < i ==> cs[k] != cs[l]
      {
        var client := new WorkerClient();
        cs[i] := client;
        all := all + {client};
        ready := ready + [i];
      }
      clients, heap, readyQueue := cs, all, ready;
      reduce := new ReduceJobs(order);
      numShards := |fileShards|;
      pc, shards, next, unfinishedShards := Spec.Dispatching, fileShards, 0, [];
      dropped, calls := {}, multiset{};
      numMapMsgs, numDroppedMapJobs, numDroppedWorkers, mapComplete := 0, 0, 0, false;
      errors, rescanned := 0, false;
      new;
      assert Slots() == Spec.Start(fileShards, workers).clients;
    }

    /** send_mapper_job: the client records the shard, and the call is on its way. */
    method SendMapperJob(a: nat, shard: FileShard)
      requires Valid() && a < clients.Length && clients[a] != null
      modifies this`calls, clients[a]
      ensures Valid() && calls == old(calls) + multiset{Spec.Call(a, true)}
      ensures Slots() == old(Slots())[a := old(Slots())[a].(mapShards := old(Slots())[a].mapShards + [shard])]
    {
      clients[a].mapShards := clients[a].mapShards + [shard];
      calls := calls + multiset{Spec.Call(a, true)};
    }

    /** One iteration of the loop at lines 324-345. */
    method DispatchMap()
      requires Valid() && Spec.OneJob(Base()) && Spec.DropsKnown(Base())
      modifies this, heap
      ensures Valid() && Base() == Spec.DispatchMapStep(old(Base()))
    {
      if pc == Spec.Dispatching && next < |shards| && readyQueue != [] {
        ghost var s := Base();
        var a := readyQueue[0];
        if a !in dropped { Spec.DispatchFindsClient(s); }
        readyQueue := readyQueue[1..];
        if a !in dropped {
          SendMapperJob(a, shards[next]);
          next := next + 1;
        }
      }
    }

    /** The worker that is ready first leaves the queue; if it is still there, it gets a reduce job. */
    method TakeReady() returns (a: nat, sent: bool)
      requires Valid() && pc == Spec.Reducing && readyQueue != []
      modifies this`readyQueue, this`calls
      ensures Valid() && Base() == Spec.DispatchReduceStep(old(Base()))
      ensures a == old(readyQueue)[0] && sent == (a !in dropped)
    {
      a := readyQueue[0];
      readyQueue := readyQueue[1..];
      sent := a !in dropped;
      if sent {
        calls := calls + multiset{Spec.Call(a, false)};
      }
    }

    /** One iteration of the loop at lines 381-400. */
    method DispatchReduce()
      requires Ready()
      modifies this, reduce
      ensures Ready() && View() == Whole.DispatchReduceStep(old(View()))
    {
      if pc == Spec.Reducing && reduce.stage == Whole.Sending && reduce.nextPartition < |reduce.partitions| &&
        readyQueue != []
      {
        var a, sent := TakeReady();
        if sent { reduce.Send(a); }
      }
    }

    method CountCompleted(a: nat)
      requires Valid() && a < clients.Length && clients[a] != null
      modifies this`numMapMsgs, clients[a]
      ensures Valid() && numMapMsgs == old(numMapMsgs) + 1
      ensures Slots() == old(Slots())[a := old(Slots())[a].(completed := old(Slots())[a].completed + 1)]
    {
      numMapMsgs := numMapMsgs + 1;
      clients[a].completedMapJobs := clients[a].completedMapJobs + 1;
    }

    /** Lines 231-242: a worker that is still there has done its job. */
    method HandleSuccess(c: Spec.Call)
      requires Valid() && c in calls && c.addr < clients.Length && clients[c.addr] != null
      modifies this`calls, this`readyQueue, this`numMapMsgs, clients[c.addr]
      ensures Valid() && Base() == Spec.Answer(old(Base()), c, true)
    {
      calls := calls - multiset{c};
      readyQueue := readyQueue + [c.addr];
      if c.isMap {
        CountCompleted(c.addr);
      }
    }

    /** Line 259. */
    method CountError()
      requires Valid()
      modifies this`numDroppedMapJobs, this`errors
      ensures Valid()
      ensures Base() == old(Base()).(numDroppedMapJobs := old(numDroppedMapJobs) + 1, errors := old(errors) + 1)
    {
      numDroppedMapJobs := numDroppedMapJobs + 1;
      errors := errors + 1;
    }

    /** Lines 222-226 and 255-260: the answer of a dropped worker, or an error. */
    method DiscardAnswer(c: Spec.Call, ok: bool)
      requires Valid() && c in calls && !(ok && c.addr < clients.Length && clients[c.addr] != null)
      modifies this`calls, this`numDroppedMapJobs, this`errors
      ensures Valid() && Base() == Spec.Answer(old(Base()), c, ok)
    {
      calls := calls - multiset{c};
      if !ok && c.isMap {
        CountError();
      }
    }

    method TakeAnswer(c: Spec.Call, ok: bool) returns (taken: bool)
      requires Valid() && c in calls
      modifies this, heap
      ensures Valid() && Base() == Spec.Answer(old(Base()), c, ok)
      ensures taken == (ok && Spec.Live(old(Base()), c.addr))
    {
      taken := ok && c.addr < clients.Length && clients[c.addr] != null;
      if taken {
        HandleSuccess(c);
      } else {
        DiscardAnswer(c, ok);
      }
    }

    /** Lines 220-265. */
    method HandleAnswer(c: Spec.Call, ok: bool)
      requires Ready() && c in calls
      modifies this, reduce, heap
      ensures Ready() && View() == Whole.Answer(old(View()), c, ok)
    {
      var taken := TakeAnswer(c, ok);
      reduce.Note(c, ok, taken);
    }

    /** Lines 266-287. */
    method WakeMaster()
      requires Ready()
      modifies this`pc, reduce`stage
      ensures Ready() && View() == Whole.Woken(old(View()))
    {
      if (numDroppedWorkers == 0 && numMapMsgs - numDroppedMapJobs == numShards && !mapComplete) ||
        (numDroppedWorkers == 0 && reduce.numReduceMsgs - reduce.numDroppedReduceJobs == |reduce.order| &&
         !reduce.reduceComplete) ||
        numDroppedWorkers > 0
      {
        if pc == Spec.Waiting {
          pc := Spec.Notified;
        } else if pc == Spec.Reducing && reduce.stage == Whole.Awaiting {
          reduce.stage := Whole.Told;
        }
      }
    }

    /** Lines 117-121, 97-107: give back the worker's shards, and forget it. */
    method DropClient(a: nat)
      requires Valid() && a < clients.Length && clients[a] != null
      modifies this`unfinishedShards, this`numDroppedMapJobs, clients
      ensures Valid()
      ensures unfinishedShards == old(unfinishedShards) + old(clients[a].mapShards)
      ensures numDroppedMapJobs == old(numDroppedMapJobs) + old(clients[a].completedMapJobs)
      ensures Slots() == old(Slots())[a := Spec.Gone]
    {
      var client := clients[a];
      ghost var before := unfinishedShards;
      for i := 0 to |client.mapShards|
        invariant unfinishedShards == before + client.mapShards[..i]
        modifies this`unfinishedShards
      {
        unfinishedShards := unfinishedShards + [client.mapShards[i]];
      }
      assert client.mapShards[..|client.mapShards|] == client.mapShards;
      numDroppedMapJobs := numDroppedMapJobs + client.completedMapJobs;
      clients[a] := null;
    }

    method DropWorker(a: nat)
      requires Valid() && a < clients.Length && clients[a] != null
      modifies this, clients
      ensures Valid() && Base() == Spec.FailStep(old(Base()), a)
    {
      if !mapComplete {
        DropClient(a);
      } else {
        clients[a] := null;
      }
      dropped := dropped + {a};
      numDroppedWorkers := numDroppedWorkers + 1;
    }

    /** handle_worker_failure */
    method HandleWorkerFailure(a: nat)
      requires Ready()
      modifies this, reduce, clients
      ensures Ready() && View() == Whole.FailStep(old(View()), a)
    {
      if a < clients.Length && clients[a] != null {
        reduce.Drop(a, mapComplete);
        DropWorker(a);
      }
    }

    /** Lines 196-200 and 209. */
    method DecideMap()
      requires Valid() && Spec.Control(Base()) && (pc == Spec.Notified || pc == Spec.Reducing)
      modifies this`mapComplete, this`numDroppedWorkers, this`pc
      ensures Valid() && Base() == Spec.DecideStep(old(Base()))
    {
      if !mapComplete {
        if |unfinishedShards| == 0 && numMapMsgs - numDroppedMapJobs == numShards {
          mapComplete := true;
        }
      }
      numDroppedWorkers := 0;
      if pc == Spec.Notified {
        pc := Spec.Decided;
      }
    }

    /** Lines 194-211. */
    method Decide()
      requires Ready() && Spec.Control(Base())
      modifies this, reduce
      ensures Ready() && View() == Whole.DecideStep(old(View()))
    {
      if pc == Spec.Notified {
        DecideMap();
      } else if pc == Spec.Reducing && reduce.stage == Whole.Told {
        reduce.Judge();
        DecideMap();
      }
    }

    /** Lines 348-357. */
    method NextMapPass()
      requires Valid() && pc == Spec.Decided
      modifies this`pc, this`shards, this`unfinishedShards, this`next, this`rescanned
      ensures Valid() && Base() == Spec.NextPassStep(old(Base()))
    {
      if |unfinishedShards| > 0 {
        pc, shards, unfinishedShards, next := Spec.Dispatching, unfinishedShards, [], 0;
      } else if mapComplete {
        pc, shards, next := Spec.Reducing, [], 0;
      } else {
        pc, next, rescanned := Spec.Dispatching, 0, true;
      }
    }

    /** Lines 348-375 and 402-411. */
    method NextPass()
      requires Ready()
      modifies this, reduce
      ensures Ready() && View() == Whole.NextPassStep(old(View()))
    {
      if pc == Spec.Decided {
        NextMapPass();
        if pc == Spec.Reducing {
          reduce.ListPartitions();
        }
      } else if pc == Spec.Reducing {
        reduce.NextReduce();
      }
    }

    method EndOfPass()
      requires Ready()
      modifies this`pc, reduce`stage
      ensures Ready() && View() == Whole.EndOfPassStep(old(View()))
    {
      if pc == Spec.Dispatching && next == |shards| {
        pc := Spec.Waiting;
      } else if pc == Spec.Reducing && reduce.stage == Whole.Sending &&
        reduce.nextPartition == |reduce.partitions|
      {
        reduce.stage := Whole.Awaiting;
      }
    }

    /** The scheduler lets one thread of the master act, or the network deliver an answer. */
    method Advance(e: Spec.Event)
      requires Ready() && Spec.Control(Base()) && Spec.OneJob(Base()) && Spec.DropsKnown(Base())
      modifies this, reduce, clients, heap
      ensures Ready() && View() == Whole.Step(old(View()), e)
    {
      match e {
        case DispatchMap => DispatchMap();
        case DispatchReduce => DispatchReduce();
        case EndOfPass => EndOfPass();
        case Reply(c, ok) =>
          if !reduce.reduceComplete && c in calls {
            HandleAnswer(c, ok);
            WakeMaster();
          }
        case Fail(a) => HandleWorkerFailure(a);
        case Decide => Decide();
        case NextPass => NextPass();
      }
    }

    /** Any interleaving of the master's threads with answers, errors and failures, from the start. */
    method Execute(schedule: seq<Spec.Event>, ghost all: seq<FileShard>)
      requires Ready() && Whole.Inv(View(), all)
      modifies this, reduce, clients, heap
      ensures Ready() && View() == Run(Whole.Step, old(View()), schedule) && Whole.Inv(View(), all)
    {
      ghost var start := View();
      for k := 0 to |schedule|
        invariant Ready() && Whole.Inv(View(), all)
        invariant Run(Whole.Step, View(), schedule[k..]) == Run(Whole.Step, start, schedule)
      {
        assert schedule[k..][1..] == schedule[k + 1..];
        Whole.StepInv(View(), schedule[k], all);
        Advance(schedule[k]);
      }
    }
  }
}
