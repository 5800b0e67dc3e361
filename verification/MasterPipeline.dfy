/**
 The master's own dispatch, as far as it decides what the workers map: the link between the two models of project4.
*/
module MasterPipeline {
  import opened Sequences
  import opened Bags
  import opened FairRuns
  import opened Text
  import opened Pairs
  import opened Sharding
  import opened MapTask
  import opened ReduceTask
  import opened WordCount
  import opened Pipeline
  import Program = Master
  import Spec = MasterSpec
  import Whole = ReduceSpec

  // ---- naming shards by their numbers

  function Named(all: seq<FileShard>, idx: seq<nat>): seq<FileShard>
    requires forall i :: 0 <= i < |idx| ==> idx[i] < |all|
  {
    seq(|idx|, i requires 0 <= i < |idx| => all[idx[i]])
  }

  /** `idx` are numbers of the shards `flat`. */
  ghost predicate Refers(all: seq<FileShard>, idx: seq<nat>, flat: seq<FileShard>) {
    |idx| == |flat| && forall i :: 0 <= i < |idx| ==> idx[i] < |all| && all[idx[i]] == flat[i]
  }

  ghost predicate Numbers(all: seq<FileShard>, idx: seq<nat>, flat: seq<FileShard>) {
    multiset(idx) == multiset(InOrder(|all|)) && Refers(all, idx, flat)
  }

  lemma InsertMultiset<T>(a: seq<T>, k: nat, x: T)
    requires k <= |a|
    ensures multiset(a[..k] + [x] + a[k..]) == multiset(a) + multiset{x}
  {
    assert a == a[..k] + a[k..];
  }

  lemma InOrderGrows(n: nat)
    ensures multiset(InOrder(n + 1)) == multiset(InOrder(n)) + multiset{n}
  {
    InOrderInit(n + 1);
    LastOut(InOrder(n + 1));
  }

  /** Putting `x` in at the same place of both sequences. */
  lemma PutIn(all: seq<FileShard>, idx: seq<nat>, l: seq<FileShard>, r: seq<FileShard>, i: nat)
    requires all != [] && i <= |idx| && Refers(all[..|all| - 1], idx, l + r)
    ensures var idx' := idx[..|l|] + [|all| - 1] + idx[|l|..];
      |idx'| == |idx| + 1 && idx'[i] < |all| && all[idx'[i]] == (l + [all[|all| - 1]] + r)[i]
  {
    if i < |l| {
      assert (l + r)[i] == l[i];
    } else if i > |l| {
      assert (l + r)[i - 1] == r[i - 1 - |l|];
    }
  }

  lemma RefersInsert(all: seq<FileShard>, idx: seq<nat>, l: seq<FileShard>, r: seq<FileShard>)
    requires all != [] && Refers(all[..|all| - 1], idx, l + r)
    ensures Refers(all, idx[..|l|] + [|all| - 1] + idx[|l|..], l + [all[|all| - 1]] + r)
  {
    var idx' := idx[..|l|] + [|all| - 1] + idx[|l|..];
    forall i: nat | i < |idx'| ensures idx'[i] < |all| && all[idx'[i]] == (l + [all[|all| - 1]] + r)[i] {
      PutIn(all, idx, l, r, i);
    }
  }

  lemma NumbersInsert(all: seq<FileShard>, idx: seq<nat>, l: seq<FileShard>, r: seq<FileShard>)
    requires all != [] && Numbers(all[..|all| - 1], idx, l + r)
    ensures Numbers(all, idx[..|l|] + [|all| - 1] + idx[|l|..], l + [all[|all| - 1]] + r)
  {
    RefersInsert(all, idx, l, r);
    InsertMultiset(idx, |l|, |all| - 1);
    InOrderGrows(|all| - 1);
  }

  /** A rearrangement of the shards can be written as a rearrangement of their numbers. */
  lemma {:induction false} NumberAll(all: seq<FileShard>, flat: seq<FileShard>) returns (idx: seq<nat>)
    requires multiset(flat) == multiset(all)
    ensures Numbers(all, idx, flat)
    decreases |all|
  {
    if all == [] {
      MultisetEmpty(flat);
      idx := [];
      assert InOrder(0) == [];
    } else {
      LastOut(all);
      var l, r := Split(flat, all[|all| - 1]);
      var before := NumberAll(all[..|all| - 1], l + r);
      idx := before[..|l|] + [|all| - 1] + before[|l|..];
      NumbersInsert(all, before, l, r);
    }
  }

  // ---- the jobs of a master

  /** All that has been sent, worker by worker. */
  function Flat(clients: seq<Spec.Slot>): seq<FileShard> {
    if clients == [] then [] else Spec.SlotShards(clients[0]) + Flat(clients[1..])
  }

  lemma {:induction false} FlatIsGathered(clients: seq<Spec.Slot>)
    ensures multiset(Flat(clients)) == Gather(clients, Spec.SlotBag)
    decreases |clients|
  {
    if clients != [] {
      FlatIsGathered(clients[1..]);
      MultisetConcat(Spec.SlotShards(clients[0]), Flat(clients[1..]));
    }
  }

  function JobsOf(w: nat, idx: seq<nat>): seq<Job> {
    seq(|idx|, i requires 0 <= i < |idx| => Job(w, idx[i]))
  }

  /** The jobs of the clients, the first of which is worker `w`; `idx` are the numbers of their shards. */
  function Jobs(clients: seq<Spec.Slot>, w: nat, idx: seq<nat>): seq<Job>
    requires |idx| == |Flat(clients)|
  {
    if clients == [] then [] else
    var n := |Spec.SlotShards(clients[0])|;
    JobsOf(w, idx[..n]) + Jobs(clients[1..], w + 1, idx[n..])
  }

  lemma ShardOrderConcat(w: nat, own: seq<nat>, more: seq<Job>)
    ensures ShardOrder(JobsOf(w, own) + more) == own + ShardOrder(more)
  {
  }

  lemma {:induction false} JobsOrder(clients: seq<Spec.Slot>, w: nat, idx: seq<nat>)
    requires |idx| == |Flat(clients)|
    ensures ShardOrder(Jobs(clients, w, idx)) == idx
    decreases |clients|
  {
    if clients != [] {
      var n := |Spec.SlotShards(clients[0])|;
      JobsOrder(clients[1..], w + 1, idx[n..]);
      ShardOrderConcat(w, idx[..n], Jobs(clients[1..], w + 1, idx[n..]));
      TakeDrop(idx, n);
    }
  }

  lemma TakeDrop<T>(s: seq<T>, n: nat)
    requires n <= |s|
    ensures s[..n] + s[n..] == s
  {
  }

  lemma {:induction false} JobsWorkers(clients: seq<Spec.Slot>, w: nat, idx: seq<nat>)
    requires |idx| == |Flat(clients)|
    ensures forall j :: 0 <= j < |Jobs(clients, w, idx)| ==> w <= Jobs(clients, w, idx)[j].worker < w + |clients|
    decreases |clients|
  {
    if clients != [] {
      JobsWorkers(clients[1..], w + 1, idx[|Spec.SlotShards(clients[0])|..]);
    }
  }

  // ---- what a worker emits

  // What mapping a shard emits.
  type Mapping = FileShard -> seq<Pair>

  function MappingOf(fs: Files, mapper: string -> seq<Pair>): Mapping {
    (shard: FileShard) =>
      if forall r :: r in shard.ranges ==> 0 <= r.start <= r.end
      then MapLines(mapper, RangeLines(fs, shard.ranges)) else []
  }

  /** What mapping these shards in turn emits. */
  function MapShards(shards: seq<FileShard>, m: Mapping): seq<Pair> {
    if shards == [] then [] else MapShards(shards[..|shards| - 1], m) + m(shards[|shards| - 1])
  }

  /** `e` is the mapping, by shard number. */
  ghost predicate ByNumber(e: Emission, all: seq<FileShard>, m: Mapping) {
    forall s: nat :: s < |all| ==> e(s) == m(all[s])
  }

  lemma ShardsByNumber(fs: Files, all: seq<FileShard>, mapper: string -> seq<Pair>)
    ensures ByNumber(ShardPairs(fs, all, mapper), all, MappingOf(fs, mapper))
  {
  }

  lemma {:induction false} OthersEmitNothing(jobs: seq<Job>, w: nat, e: Emission)
    requires forall j :: 0 <= j < |jobs| ==> jobs[j].worker != w
    ensures WorkerPairs(jobs, w, e) == []
    decreases |jobs|
  {
    if jobs != [] { OthersEmitNothing(jobs[..|jobs| - 1], w, e); }
  }

  lemma {:induction false} WorkerPairsConcat(a: seq<Job>, b: seq<Job>, w: nat, e: Emission)
    ensures WorkerPairs(a + b, w, e) == WorkerPairs(a, w, e) + WorkerPairs(b, w, e)
    decreases |b|
  {
    if b == [] {
      EmptyRight(a);
      EmptyRight(WorkerPairs(a, w, e));
    } else {
      var b', last := b[..|b| - 1], b[|b| - 1];
      ConcatInit(a, b);
      WorkerPairsConcat(a, b', w, e);
      Assoc(WorkerPairs(a, w, e), WorkerPairs(b', w, e), if last.worker == w then e(last.shard) else []);
    }
  }

  lemma NamedInit(all: seq<FileShard>, idx: seq<nat>)
    requires idx != [] && forall i :: 0 <= i < |idx| ==> idx[i] < |all|
    ensures Named(all, idx)[..|idx| - 1] == Named(all, idx[..|idx| - 1])
  {
  }

  lemma JobsOfInit(w: nat, idx: seq<nat>)
    requires idx != []
    ensures JobsOf(w, idx)[..|idx| - 1] == JobsOf(w, idx[..|idx| - 1])
  {
  }

  lemma JobsOfLast(w: nat, idx: seq<nat>, e: Emission)
    requires idx != []
    ensures WorkerPairs(JobsOf(w, idx), w, e) == WorkerPairs(JobsOf(w, idx[..|idx| - 1]), w, e) + e(idx[|idx| - 1])
  {
    JobsOfInit(w, idx);
  }

  /** The jobs of one worker, one after the other. */
  lemma {:induction false} OneWorker(all: seq<FileShard>, w: nat, idx: seq<nat>, e: Emission, m: Mapping)
    requires ByNumber(e, all, m) && forall i :: 0 <= i < |idx| ==> idx[i] < |all|
    ensures WorkerPairs(JobsOf(w, idx), w, e) == MapShards(Named(all, idx), m)
    decreases |idx|
  {
    if idx != [] {
      NamedInit(all, idx);
      JobsOfLast(w, idx, e);
      OneWorker(all, w, idx[..|idx| - 1], e, m);
    }
  }

  lemma RefersSplit(all: seq<FileShard>, idx: seq<nat>, a: seq<FileShard>, b: seq<FileShard>)
    requires Refers(all, idx, a + b)
    ensures Refers(all, idx[..|a|], a) && Refers(all, idx[|a|..], b)
  {
  }

  ghost predicate NoJobFor(jobs: seq<Job>, v: nat) {
    forall j :: 0 <= j < |jobs| ==> jobs[j].worker != v
  }

  /** Between the jobs of other workers are those of worker `v`, in the order of its shards. */
  lemma {:induction false} JobsAround(all: seq<FileShard>, clients: seq<Spec.Slot>, w: nat, idx: seq<nat>, v: nat)
    returns (a: seq<Job>, own: seq<nat>, b: seq<Job>)
    requires Refers(all, idx, Flat(clients)) && w <= v < w + |clients|
    ensures Jobs(clients, w, idx) == a + (JobsOf(v, own) + b) && NoJobFor(a, v) && NoJobFor(b, v)
    ensures Refers(all, own, Spec.SlotShards(clients[v - w]))
    decreases |clients|
  {
    var n := |Spec.SlotShards(clients[0])|;
    var tail, rest := clients[1..], idx[n..];
    RefersSplit(all, idx, Spec.SlotShards(clients[0]), Flat(tail));
    if v == w {
      a, own, b := [], idx[..n], Jobs(tail, w + 1, rest);
      JobsWorkers(tail, w + 1, rest);
      Empty(JobsOf(v, own) + b);
    } else {
      var a';
      a', own, b := JobsAround(all, tail, w + 1, rest, v);
      a := JobsOf(w, idx[..n]) + a';
      Assoc(JobsOf(w, idx[..n]), a', JobsOf(v, own) + b);
    }
  }

  lemma EmitsOwn(a: seq<Job>, own: seq<nat>, b: seq<Job>, v: nat, e: Emission)
    requires NoJobFor(a, v) && NoJobFor(b, v)
    ensures WorkerPairs(a + (JobsOf(v, own) + b), v, e) == WorkerPairs(JobsOf(v, own), v, e)
  {
    WorkerPairsConcat(a, JobsOf(v, own) + b, v, e);
    WorkerPairsConcat(JobsOf(v, own), b, v, e);
    OthersEmitNothing(a, v, e);
    OthersEmitNothing(b, v, e);
    EmptyRight(WorkerPairs(JobsOf(v, own), v, e));
    Empty(WorkerPairs(JobsOf(v, own), v, e));
  }

  lemma ReferNamed(all: seq<FileShard>, idx: seq<nat>, flat: seq<FileShard>)
    requires Refers(all, idx, flat)
    ensures Named(all, idx) == flat
  {
  }

  /** Every worker emits what mapping the shards that were sent to it, in that order, emits. */
  lemma JobsEmit(all: seq<FileShard>, clients: seq<Spec.Slot>, idx: seq<nat>, e: Emission, m: Mapping, v: nat)
    requires ByNumber(e, all, m) && Refers(all, idx, Flat(clients)) && v < |clients|
    ensures WorkerPairs(Jobs(clients, 0, idx), v, e) == MapShards(Spec.SlotShards(clients[v]), m)
  {
    var a, own, b := JobsAround(all, clients, 0, idx, v);
    EmitsOwn(a, own, b, v, e);
    OneWorker(all, v, own, e, m);
    ReferNamed(all, own, Spec.SlotShards(clients[v]));
  }

  // ---- the master's run

  /** The pairs of partition `i` in the files of all workers, after they have mapped what was sent to them. */
  function SentPairs(clients: seq<Spec.Slot>, workers: nat, m: Mapping, hash: string -> nat, n: nat, i: nat): seq<Pair>
    requires n > 0 && workers <= |clients|
  {
    if workers == 0 then [] else
    SentPairs(clients, workers - 1, m, hash, n, i) +
      Part(MapShards(Spec.SlotShards(clients[workers - 1]), m), hash, n, i)
  }

  /** The jobs are what was sent to the workers. */
  ghost predicate JobsSent(jobs: seq<Job>, clients: seq<Spec.Slot>, e: Emission, m: Mapping) {
    forall w: nat :: w < |clients| ==> WorkerPairs(jobs, w, e) == MapShards(Spec.SlotShards(clients[w]), m)
  }

  lemma JobsSentAt(jobs: seq<Job>, clients: seq<Spec.Slot>, e: Emission, m: Mapping, w: nat)
    requires w < |clients| && JobsSent(jobs, clients, e, m)
    ensures WorkerPairs(jobs, w, e) == MapShards(Spec.SlotShards(clients[w]), m)
  {
  }

  /** One worker more. */
  lemma SentStep(clients: seq<Spec.Slot>, workers: nat, m: Mapping, hash: string -> nat, n: nat, i: nat,
                 jobs: seq<Job>, e: Emission)
    requires n > 0 && 0 < workers <= |clients|
    requires WorkerPairs(jobs, workers - 1, e) == MapShards(Spec.SlotShards(clients[workers - 1]), m)
    requires SentPairs(clients, workers - 1, m, hash, n, i) == PartitionPairs(jobs, workers - 1, e, hash, n, i)
    ensures SentPairs(clients, workers, m, hash, n, i) == PartitionPairs(jobs, workers, e, hash, n, i)
  {
  }

  lemma {:induction false} SentIsPartition(clients: seq<Spec.Slot>, workers: nat, m: Mapping,
                                           hash: string -> nat, n: nat, i: nat, jobs: seq<Job>, e: Emission)
    requires n > 0 && workers <= |clients| && JobsSent(jobs, clients, e, m)
    ensures SentPairs(clients, workers, m, hash, n, i) == PartitionPairs(jobs, workers, e, hash, n, i)
    decreases workers
  {
    if workers > 0 {
      SentIsPartition(clients, workers - 1, m, hash, n, i, jobs, e);
      JobsSentAt(jobs, clients, e, m, workers - 1);
      SentStep(clients, workers, m, hash, n, i, jobs, e);
    }
  }

  lemma ClientsYieldJobs(all: seq<FileShard>, clients: seq<Spec.Slot>, e: Emission, m: Mapping) returns (jobs: seq<Job>)
    requires Gather(clients, Spec.SlotBag) == multiset(all) && ByNumber(e, all, m)
    ensures EachOnce(jobs, |all|, |clients|) && JobsSent(jobs, clients, e, m)
  {
    FlatIsGathered(clients);
    var idx := NumberAll(all, Flat(clients));
    jobs := Jobs(clients, 0, idx);
    JobsOrder(clients, 0, idx);
    JobsWorkers(clients, 0, idx);
    forall w: nat | w < |clients| ensures WorkerPairs(jobs, w, e) == MapShards(Spec.SlotShards(clients[w]), m) {
      JobsEmit(all, clients, idx, e, m, w);
    }
  }

  /**
   A failure-free run of the master that completes the map phase is a list of jobs in which every shard occurs
   once; every worker has been sent its shards in the order of its jobs.
  */
  lemma MasterYieldsJobs(all: seq<FileShard>, workers: nat, events: seq<Spec.Event>, e: Emission, m: Mapping)
    returns (jobs: seq<Job>)
    requires forall k :: 0 <= k < |events| ==> Spec.Harmless(events[k])
    requires Run(Spec.Step, Spec.Start(all, workers), events).mapComplete && ByNumber(e, all, m)
    ensures EachOnce(jobs, |all|, workers)
    ensures JobsSent(jobs, Run(Spec.Step, Spec.Start(all, workers), events).clients, e, m)
  {
    var s := Run(Spec.Step, Spec.Start(all, workers), events);
    Spec.ReduceWaitsForMap(all, workers, events, 0);
    Spec.RunClients(all, workers, events);
    jobs := ClientsYieldJobs(all, s.clients, e, m);
  }

  /**
   The master end to end: after such a run the workers' files hold, in partition `i`, for each of its keys exactly
   the values that mapping every record of every input file in turn would emit, and nothing for any other key.
  */
  lemma MasterRunIsSequential(fs: Files, files: seq<string>, shards: seq<FileShard>, parts: seq<seq<Range>>,
                              workers: nat, events: seq<Spec.Event>, mapper: string -> seq<Pair>,
                              hash: string -> nat, n: nat, i: nat, key: string)
    requires Tiles(fs, files, parts) && AllRanges(shards) == Concat(parts) && ReadableShards(shards) && n > 0
    requires forall k :: 0 <= k < |events| ==> Spec.Harmless(events[k])
    requires Run(Spec.Step, Spec.Start(shards, workers), events).mapComplete
    ensures var clients := Run(Spec.Step, Spec.Start(shards, workers), events).clients;
      && |clients| == workers
      && Values(SentPairs(clients, workers, MappingOf(fs, mapper), hash, n, i), key) ==
         if hash(key) % n == i then Values(MapLines(mapper, InputLines(fs, files)), key) else multiset{}
  {
    var clients := Run(Spec.Step, Spec.Start(shards, workers), events).clients;
    var e, m := ShardPairs(fs, shards, mapper), MappingOf(fs, mapper);
    ShardsByNumber(fs, shards, mapper);
    Spec.RunClients(shards, workers, events);
    var jobs := MasterYieldsJobs(shards, workers, events, e, m);
    SentIsPartition(clients, workers, m, hash, n, i, jobs, e);
    PartitionMeaning(fs, files, shards, parts, jobs, workers, mapper, hash, n, i, key);
  }

  // ---- the program

  /** `files` hold, partition by partition, what mapping `shards` in turn emits. */
  ghost predicate HoldsMapped(files: seq<string>, shards: seq<FileShard>, m: Mapping, hash: string -> nat, n: nat)
    requires n > 0
  {
    |files| == n && forall i: nat :: i < n ==> files[i] == Printed(MapShards(shards, m), hash, n, i)
  }

  lemma MapNothing(files: seq<string>, m: Mapping, hash: string -> nat, n: nat)
    requires n > 0 && files == seq(n, _ => "")
    ensures HoldsMapped(files, [], m, hash, n)
  {
  }

  lemma MapOneMore(before: seq<string>, after: seq<string>, shards: seq<FileShard>, k: nat, m: Mapping,
                   hash: string -> nat, n: nat)
    requires n > 0 && k < |shards| && HoldsMapped(before, shards[..k], m, hash, n) && |after| == n
    requires forall i: nat :: i < n ==> after[i] == before[i] + Printed(m(shards[k]), hash, n, i)
    ensures HoldsMapped(after, shards[..k + 1], m, hash, n)
  {
    SliceInit(shards, k + 1);
    forall i: nat | i < n ensures after[i] == Printed(MapShards(shards[..k + 1], m), hash, n, i) {
      PrintedConcat("", MapShards(shards[..k], m), m(shards[k]), hash, n, i);
      Empty(Printed(MapShards(shards[..k + 1], m), hash, n, i));
      Empty(Printed(MapShards(shards[..k], m), hash, n, i));
    }
  }

  /** A worker maps the shards that it is sent, in that order. */
  method MapSent(fs: Files, shards: seq<FileShard>, mapper: string -> seq<Pair>, hash: string -> nat, n: nat,
                 disk: Disk)
    requires ReadableShards(shards) && n > 0 && disk.files == seq(n, _ => "")
    modifies disk
    ensures HoldsMapped(disk.files, shards, MappingOf(fs, mapper), hash, n)
  {
    ghost var m := MappingOf(fs, mapper);
    MapNothing(disk.files, m, hash, n);
    TakeNone(shards);
    for k := 0 to |shards|
      invariant HoldsMapped(disk.files, shards[..k], m, hash, n)
    {
      ghost var before := disk.files;
      assert m(shards[k]) == MapLines(mapper, RangeLines(fs, shards[k].ranges));
      HandleMapJob(fs, shards[k], n, hash, mapper, disk);
      MapOneMore(before, disk.files, shards, k, m, hash, n);
    }
    TakeAll(shards);
  }

  lemma TakeNone<T>(s: seq<T>)
    ensures s[..0] == []
  {
  }

  /** What the master has sent to each worker; nothing counts for one that is gone. */
  method SentTo(master: Program.Master) returns (sent: seq<seq<FileShard>>)
    requires master.Valid()
    ensures |sent| == master.clients.Length
    ensures forall w: nat :: w < |sent| ==> sent[w] == Spec.SlotShards(master.SlotAt(w))
  {
    sent := [];
    for w := 0 to master.clients.Length
      invariant |sent| == w && forall v: nat :: v < w ==> sent[v] == Spec.SlotShards(master.SlotAt(v))
    {
      sent := sent + [if master.clients[w] == null then [] else master.clients[w].mapShards];
    }
  }

  /** All workers map what they are sent. */
  method MapAllSent(fs: Files, sent: seq<seq<FileShard>>, mapper: string -> seq<Pair>, hash: string -> nat, n: nat,
                    disks: seq<Disk>)
    requires |disks| == |sent| && Distinct(disks) && n > 0
    requires forall w: nat :: w < |sent| ==> ReadableShards(sent[w])
    requires forall w :: 0 <= w < |disks| ==> disks[w].files == seq(n, _ => "")
    modifies disks
    ensures forall w: nat :: w < |sent| ==> HoldsMapped(disks[w].files, sent[w], MappingOf(fs, mapper), hash, n)
  {
    for w := 0 to |disks|
      invariant forall v: nat :: v < w ==> HoldsMapped(disks[v].files, sent[v], MappingOf(fs, mapper), hash, n)
      invariant forall v :: w <= v < |disks| ==> disks[v].files == seq(n, _ => "")
    {
      MapSent(fs, sent[w], mapper, hash, n, disks[w]);
    }
  }

  lemma SentReadable(clients: seq<Spec.Slot>, all: seq<FileShard>, w: nat)
    requires ReadableShards(all) && Gather(clients, Spec.SlotBag) == multiset(all) && w < |clients|
    ensures ReadableShards(Spec.SlotShards(clients[w]))
  {
    forall k | 0 <= k < |Spec.SlotShards(clients[w])| ensures Readable(Spec.SlotShards(clients[w])[k].ranges) {
      OwnedIsGathered(clients, w, Spec.SlotShards(clients[w])[k]);
      assert Spec.SlotShards(clients[w])[k] in all;
    }
  }

  lemma {:induction false} OwnedIsGathered(clients: seq<Spec.Slot>, w: nat, x: FileShard)
    requires w < |clients| && x in Spec.SlotShards(clients[w])
    ensures x in Gather(clients, Spec.SlotBag)
    decreases |clients|
  {
    if w == 0 {
      assert x in Spec.SlotBag(clients[0]);
    } else {
      OwnedIsGathered(clients[1..], w - 1, x);
    }
  }

  lemma MappedMeansDone(files: seq<string>, shards: seq<FileShard>, m: Mapping, jobs: seq<Job>, w: nat, e: Emission,
                        hash: string -> nat, n: nat)
    requires n > 0 && HoldsMapped(files, shards, m, hash, n) && WorkerPairs(jobs, w, e) == MapShards(shards, m)
    ensures WorkerDone(files, jobs, w, e, hash, n)
  {
  }

  /** The map phase under a master whose run has completed it, and the reduce phase after it. */
  method RunUnder(fs: Files, ghost files: seq<string>, shards: seq<FileShard>, ghost parts: seq<seq<Range>>,
                  master: Program.Master, ghost events: seq<Spec.Event>, ghost workers: nat,
                  mapper: string -> seq<Pair>, reducer: Reducer, hash: string -> nat, n: nat)
    returns (outputs: seq<string>, ghost keys: seq<seq<string>>, ghost grouped: seq<seq<Pair>>)
    requires n > 0 && CleanMapper(mapper)
    requires Tiles(fs, files, parts) && AllRanges(shards) == Concat(parts) && ReadableShards(shards)
    requires forall k :: 0 <= k < |events| ==> Spec.Harmless(events[k])
    requires master.Valid() && master.Base() == Run(Spec.Step, Spec.Start(shards, workers), events)
    requires master.mapComplete
    ensures Correct(outputs, keys, grouped, MapLines(mapper, InputLines(fs, files)), reducer, hash, n)
  {
    ghost var e, m := ShardPairs(fs, shards, mapper), MappingOf(fs, mapper);
    ghost var clients := master.Slots();
    Spec.RunClients(shards, workers, events);
    Spec.ReduceWaitsForMap(shards, workers, events, 0);
    ShardsByNumber(fs, shards, mapper);
    ghost var jobs := MasterYieldsJobs(shards, workers, events, e, m);
    AllJobsClean(jobs, fs, shards, mapper);
    var disks := NewDisks(master.clients.Length, n);
    var sent := SentTo(master);
    forall w: nat | w < |sent| ensures ReadableShards(sent[w]) && sent[w] == Spec.SlotShards(clients[w]) {
      assert clients[w] == master.SlotAt(w);
      SentReadable(clients, shards, w);
    }
    MapAllSent(fs, sent, mapper, hash, n, disks);
    forall w: nat | w < |disks| ensures WorkerDone(disks[w].files, jobs, w, e, hash, n) {
      MappedMeansDone(disks[w].files, sent[w], m, jobs, w, e, hash, n);
    }
    outputs, keys := ReducePhase(reducer, n, disks, jobs, e, hash);
    grouped := Grouped(jobs, workers, e, hash, n);
    GroupedCorrect(outputs, keys, fs, files, shards, parts, jobs, workers, mapper, reducer, hash, n);
  }

  /**
   The program from the configuration to the outputs, with the master's threads and the answers interleaved as
   `events` says, without failures.  If the master comes to its end, every partition has been reduced exactly once
   (`ReduceSpec.HarmlessReduced`), and the outputs are those of one pass over all records of all files.
  */
  method MapReduceUnderMaster(fs: Files, files: seq<string>, mapKilobytes: int, workers: nat,
                              order: seq<nat>, events: seq<FileShard> -> seq<Spec.Event>,
                              mapper: string -> seq<Pair>, reducer: Reducer, hash: string -> nat, n: nat)
    returns (ok: bool, complete: bool, outputs: seq<string>, ghost keys: seq<seq<string>>,
             ghost grouped: seq<seq<Pair>>)
    requires mapKilobytes > 0 && n > 0 && CleanMapper(mapper) && AllTerminated(fs, files)
    requires Whole.Partitions(order) && |order| == n
    requires forall shards: seq<FileShard>, k :: 0 <= k < |events(shards)| ==> Spec.Harmless(events(shards)[k])
    ensures ok <==> Splittable(fs, files, mapKilobytes * 1024, mapKilobytes * 1024)
    ensures ok && complete ==>
      Correct(outputs, keys, grouped, MapLines(mapper, InputLines(fs, files)), reducer, hash, n)
  {
    var shards: seq<FileShard>;
    ghost var parts: seq<seq<Range>>;
    complete, outputs, keys, grouped := false, [], [], [];
    ok, shards, parts := ShardFiles(fs, files, mapKilobytes);
    if !ok {
      return;
    }
    TilesLines(fs, files, parts);
    ShardsReadable(shards);
    var master := new Program.Master(shards, workers, order);
    Whole.StartInv(shards, workers, order);
    master.Execute(events(shards), shards);
    complete := master.reduce.reduceComplete;
    if complete {
      ghost var mapping := Whole.RunIsBaseRun(Whole.Start(shards, workers, order), events(shards));
      Whole.HarmlessReduced(shards, workers, order, events(shards));
      assert master.Base() == Run(Spec.Step, Spec.Start(shards, workers), mapping);
      outputs, keys, grouped := RunUnder(fs, files, shards, parts, master, mapping, workers, mapper, reducer, hash, n);
    }
  }

  /** Word count under the master: exactly the words of the input, each with the number of its occurrences. */
  method CountWordsUnderMaster(fs: Files, files: seq<string>, mapKilobytes: int, workers: nat,
                               order: seq<nat>, events: seq<FileShard> -> seq<Spec.Event>, hash: string -> nat, n: nat)
    returns (ok: bool, complete: bool, outputs: seq<string>, ghost words: seq<seq<string>>)
    requires mapKilobytes > 0 && n > 0 && AllTerminated(fs, files)
    requires Whole.Partitions(order) && |order| == n
    requires forall shards: seq<FileShard>, k :: 0 <= k < |events(shards)| ==> Spec.Harmless(events(shards)[k])
    ensures ok <==> Splittable(fs, files, mapKilobytes * 1024, mapKilobytes * 1024)
    ensures ok && complete ==> |outputs| == |words| == n && forall i: nat :: i < n ==>
      && PartitionWords(words[i], InputLines(fs, files), hash, n, i)
      && outputs[i] == CountText(words[i], InputLines(fs, files))
    ensures ok && complete && NoNul(InputLines(fs, files)) ==> forall i: nat :: i < n ==>
      CountedLines(Lines(outputs[i]), words[i], InputLines(fs, files))
  {
    WordMapperIsClean();
    ghost var grouped;
    ok, complete, outputs, words, grouped :=
      MapReduceUnderMaster(fs, files, mapKilobytes, workers, order, events, WordMapper, SumReducer, hash, n);
    if ok && complete {
      CorrectMeansCounted(outputs, words, grouped, InputLines(fs, files), hash, n);
      OutputsRead(outputs, words, fs, files, hash, n);
    }
  }
}
