/** The whole of a map-reduce run: sharding, map tasks on several workers, and reduce tasks. */
module Pipeline {
  import opened Sequences
  import opened Text
  import opened Pairs
  import opened Sharding
  import opened MapTask
  import opened ReduceTask
  import opened WordCount

  /** Shard `shard` is mapped by worker `worker`. */
  datatype Job = Job(worker: nat, shard: nat)

  // What mapping a shard emits.
  type Emission = nat -> seq<Pair>

  function ShardPairs(fs: Files, shards: seq<FileShard>, mapper: string -> seq<Pair>): Emission {
    (s: nat) =>
      if s < |shards| && (forall r :: r in shards[s].ranges ==> 0 <= r.start <= r.end)
      then MapLines(mapper, RangeLines(fs, shards[s].ranges)) else []
  }

  /** Everything that worker `w` emits in the course of `jobs`. */
  function WorkerPairs(jobs: seq<Job>, w: nat, e: Emission): seq<Pair> {
    if jobs == [] then [] else
    var last := jobs[|jobs| - 1];
    WorkerPairs(jobs[..|jobs| - 1], w, e) + if last.worker == w then e(last.shard) else []
  }

  function ShardOrder(jobs: seq<Job>): seq<nat> {
    seq(|jobs|, i requires 0 <= i < |jobs| => jobs[i].shard)
  }

  function InOrder(n: nat): seq<nat> {
    seq(n, i requires 0 <= i => i)
  }

  /** Every shard is mapped exactly once, by some worker, in some order. */
  ghost predicate EachOnce(jobs: seq<Job>, shards: nat, workers: nat) {
    && multiset(ShardOrder(jobs)) == multiset(InOrder(shards))
    && forall j :: 0 <= j < |jobs| ==> jobs[j].worker < workers
  }

  // ---- sums of multisets

  lemma SumAssoc<T>(a: multiset<T>, b: multiset<T>, c: multiset<T>)
    ensures (a + b) + c == a + (b + c)
    ensures (a + b) + c == (a + c) + b
  {
  }

  lemma SumEmpty<T>(a: multiset<T>)
    ensures a + multiset{} == a
  {
  }

  ghost function SumTo<T>(n: nat, v: nat -> multiset<T>): multiset<T> {
    if n == 0 then multiset{} else SumTo(n - 1, v) + v(n - 1)
  }

  ghost function SumOver<T>(xs: seq<nat>, v: nat -> multiset<T>): multiset<T> {
    if xs == [] then multiset{} else SumOver(xs[..|xs| - 1], v) + v(xs[|xs| - 1])
  }

  /** Adding `d` at one point adds `d` to the sum. */
  lemma {:induction false} SumToPoint<T>(n: nat, v: nat -> multiset<T>, v': nat -> multiset<T>, w: nat, d: multiset<T>)
    requires v'(w) == v(w) + d && forall x: nat :: x != w ==> v'(x) == v(x)
    ensures SumTo(n, v') == if w < n then SumTo(n, v) + d else SumTo(n, v)
  {
    if n > 0 {
      SumToPoint(n - 1, v, v', w, d);
      SumAssoc(SumTo(n - 1, v), v(n - 1), d);
    }
  }

  lemma {:induction false} SumToEmpty<T>(n: nat, v: nat -> multiset<T>)
    requires forall x: nat :: v(x) == multiset{}
    ensures SumTo(n, v) == multiset{}
  {
    if n > 0 {
      SumToEmpty(n - 1, v);
    }
  }

  lemma {:induction false} SumOverConcat<T>(a: seq<nat>, b: seq<nat>, v: nat -> multiset<T>)
    ensures SumOver(a + b, v) == SumOver(a, v) + SumOver(b, v)
    decreases |b|
  {
    if b == [] {
      assert a + b == a;
    } else {
      assert (a + b)[..|a + b| - 1] == a + b[..|b| - 1];
      SumOverConcat(a, b[..|b| - 1], v);
      SumAssoc(SumOver(a, v), SumOver(b[..|b| - 1], v), v(b[|b| - 1]));
    }
  }

  lemma SumOverOne<T>(x: nat, v: nat -> multiset<T>)
    ensures SumOver([x], v) == v(x)
  {
    assert [x][..0] == [];
  }

  /** The order in which things are added up does not matter. */
  lemma {:induction false} SumOverPermuted<T>(a: seq<nat>, b: seq<nat>, v: nat -> multiset<T>)
    requires multiset(a) == multiset(b)
    ensures SumOver(a, v) == SumOver(b, v)
    decreases |a|
  {
    if a == [] {
      assert |multiset(b)| == 0;
    } else {
      var x := a[|a| - 1];
      LastOut(a);
      var l, r := Split(b, x);
      SumOverPermuted(a[..|a| - 1], l + r, v);
      SumOverConcat(l + [x], r, v);
      SumOverConcat(l, [x], v);
      SumOverConcat(l, r, v);
      SumOverOne(x, v);
      SumAssoc(SumOver(l, v), SumOver(r, v), v(x));
    }
  }

  // ---- counting values, whoever emitted them

  /** The values of a key, without their order. */
  ghost function Values(ps: seq<Pair>, key: string): multiset<string> {
    if ps == [] then multiset{} else
    var last := ps[|ps| - 1];
    if last.0 == key then Values(ps[..|ps| - 1], key) + multiset{last.1} else Values(ps[..|ps| - 1], key)
  }

  lemma {:induction false} ValuesAreValues(ps: seq<Pair>, key: string)
    ensures Values(ps, key) == multiset(ValuesOf(ps, key))
    decreases |ps|
  {
    if ps != [] {
      ValuesAreValues(ps[..|ps| - 1], key);
      EmptyRight(ValuesOf(ps[..|ps| - 1], key));
    }
  }

  lemma {:induction false} ValuesConcat(a: seq<Pair>, b: seq<Pair>, key: string)
    ensures Values(a + b, key) == Values(a, key) + Values(b, key)
    decreases |b|
  {
    if b == [] {
      EmptyRight(a);
      SumEmpty(Values(a, key));
    } else {
      var b', p := b[..|b| - 1], b[|b| - 1];
      ConcatInit(a, b);
      ValuesConcat(a, b', key);
      SumAssoc(Values(a, key), Values(b', key), multiset{p.1});
    }
  }

  ghost function WorkerValues(jobs: seq<Job>, e: Emission, key: string): nat -> multiset<string> {
    (w: nat) => Values(WorkerPairs(jobs, w, e), key)
  }

  ghost function ShardValues(e: Emission, key: string): nat -> multiset<string> {
    (s: nat) => Values(e(s), key)
  }

  lemma JobValues(jobs: seq<Job>, job: Job, w: nat, e: Emission, key: string)
    ensures WorkerValues(jobs + [job], e, key)(w) ==
      if job.worker == w then WorkerValues(jobs, e, key)(w) + ShardValues(e, key)(job.shard)
      else WorkerValues(jobs, e, key)(w)
  {
    assert (jobs + [job])[..|jobs|] == jobs;
    if job.worker == w {
      ValuesConcat(WorkerPairs(jobs, w, e), e(job.shard), key);
    } else {
      EmptyRight(WorkerPairs(jobs, w, e));
    }
  }

  lemma ShardOrderInit(jobs: seq<Job>)
    requires jobs != []
    ensures ShardOrder(jobs) != [] && ShardOrder(jobs)[..|ShardOrder(jobs)| - 1] == ShardOrder(jobs[..|jobs| - 1])
    ensures ShardOrder(jobs)[|ShardOrder(jobs)| - 1] == jobs[|jobs| - 1].shard
  {
  }

  /** The workers together emit what the jobs emit. */
  lemma {:induction false} WorkersAreJobs(jobs: seq<Job>, workers: nat, e: Emission, key: string)
    requires forall j :: 0 <= j < |jobs| ==> jobs[j].worker < workers
    ensures SumTo(workers, WorkerValues(jobs, e, key)) == SumOver(ShardOrder(jobs), ShardValues(e, key))
    decreases |jobs|
  {
    if jobs == [] {
      SumToEmpty(workers, WorkerValues(jobs, e, key));
    } else {
      var before, last := jobs[..|jobs| - 1], jobs[|jobs| - 1];
      WorkersAreJobs(before, workers, e, key);
      forall w: nat ensures WorkerValues(jobs, e, key)(w) ==
        if last.worker == w then WorkerValues(before, e, key)(w) + ShardValues(e, key)(last.shard)
        else WorkerValues(before, e, key)(w)
      {
        Snoc(jobs);
        JobValues(before, last, w, e, key);
      }
      SumToPoint(workers, WorkerValues(before, e, key), WorkerValues(jobs, e, key), last.worker,
        ShardValues(e, key)(last.shard));
      ShardOrderInit(jobs);
    }
  }

  ghost predicate ReadableShards(shards: seq<FileShard>) {
    forall s :: 0 <= s < |shards| ==> Readable(shards[s].ranges)
  }

  /** Mapping the shards in order emits what mapping all their records in order emits. */
  lemma {:induction false} InOrderValues(fs: Files, shards: seq<FileShard>, n: nat, mapper: string -> seq<Pair>,
                                         key: string)
    requires n <= |shards| && ReadableShards(shards)
    ensures Readable(AllRanges(shards[..n]))
    ensures SumOver(InOrder(n), ShardValues(ShardPairs(fs, shards, mapper), key)) ==
      Values(MapLines(mapper, RangeLines(fs, AllRanges(shards[..n]))), key)
    decreases n
  {
    if n > 0 {
      InOrderValues(fs, shards, n - 1, mapper, key);
      InOrderInit(n);
      AllRangesInit(shards, n);
      ShardAppended(fs, AllRanges(shards[..n - 1]), shards[n - 1].ranges, mapper, key);
    }
  }

  lemma InOrderInit(n: nat)
    requires n > 0
    ensures InOrder(n) != [] && InOrder(n)[..|InOrder(n)| - 1] == InOrder(n - 1) &&
      InOrder(n)[|InOrder(n)| - 1] == n - 1
  {
  }

  lemma AllRangesInit(shards: seq<FileShard>, n: nat)
    requires 0 < n <= |shards|
    ensures AllRanges(shards[..n]) == AllRanges(shards[..n - 1]) + shards[n - 1].ranges
  {
    SliceInit(shards, n);
  }

  lemma ShardAppended(fs: Files, before: seq<Range>, more: seq<Range>, mapper: string -> seq<Pair>, key: string)
    requires Readable(before) && Readable(more)
    ensures Readable(before + more)
    ensures Values(MapLines(mapper, RangeLines(fs, before + more)), key) ==
      Values(MapLines(mapper, RangeLines(fs, before)), key) + Values(MapLines(mapper, RangeLines(fs, more)), key)
  {
    RangeLinesConcat(fs, before, more);
    MapLinesConcat(mapper, RangeLines(fs, before), RangeLines(fs, more));
    ValuesConcat(MapLines(mapper, RangeLines(fs, before)), MapLines(mapper, RangeLines(fs, more)), key);
  }

  // ---- what a reducer finds

  /** The pairs in the files of partition `i`, worker by worker. */
  function PartitionPairs(jobs: seq<Job>, workers: nat, e: Emission, hash: string -> nat, n: nat, i: nat): seq<Pair>
    requires n > 0
  {
    if workers == 0 then []
    else PartitionPairs(jobs, workers - 1, e, hash, n, i) + Part(WorkerPairs(jobs, workers - 1, e), hash, n, i)
  }

  lemma PartValues(ps: seq<Pair>, key: string, hash: string -> nat, n: nat, i: nat)
    requires n > 0
    ensures Values(Part(ps, hash, n, i), key) == if hash(key) % n == i then Values(ps, key) else multiset{}
  {
    ValuesOfPart(ps, key, hash, n, i);
    ValuesAreValues(ps, key);
    ValuesAreValues(Part(ps, hash, n, i), key);
  }

  /** One worker more. */
  lemma WorkerPartition(jobs: seq<Job>, workers: nat, e: Emission, hash: string -> nat, n: nat, i: nat, key: string)
    requires n > 0 && workers > 0
    ensures var rest := Values(PartitionPairs(jobs, workers - 1, e, hash, n, i), key);
      Values(PartitionPairs(jobs, workers, e, hash, n, i), key) ==
        if hash(key) % n == i then rest + WorkerValues(jobs, e, key)(workers - 1) else rest
  {
    var own := WorkerPairs(jobs, workers - 1, e);
    var rest := PartitionPairs(jobs, workers - 1, e, hash, n, i);
    PartValues(own, key, hash, n, i);
    ValuesConcat(rest, Part(own, hash, n, i), key);
    SumEmpty(Values(rest, key));
  }

  lemma {:induction false} PartitionValues(jobs: seq<Job>, workers: nat, e: Emission, hash: string -> nat, n: nat,
                                           i: nat, key: string)
    requires n > 0
    ensures Values(PartitionPairs(jobs, workers, e, hash, n, i), key) ==
      if hash(key) % n == i then SumTo(workers, WorkerValues(jobs, e, key)) else multiset{}
    decreases workers
  {
    if workers > 0 {
      PartitionValues(jobs, workers - 1, e, hash, n, i, key);
      WorkerPartition(jobs, workers, e, hash, n, i, key);
    }
  }

  /**
   The meaning of the run: partition `i` holds for each of its keys exactly the values that mapping
   every record of every input file in turn would emit, and nothing for any other key.
  */
  lemma PartitionMeaning(fs: Files, files: seq<string>, shards: seq<FileShard>, parts: seq<seq<Range>>,
                         jobs: seq<Job>, workers: nat, mapper: string -> seq<Pair>, hash: string -> nat, n: nat,
                         i: nat, key: string)
    requires Tiles(fs, files, parts) && AllRanges(shards) == Concat(parts) && ReadableShards(shards)
    requires EachOnce(jobs, |shards|, workers) && n > 0
    ensures Values(PartitionPairs(jobs, workers, ShardPairs(fs, shards, mapper), hash, n, i), key) ==
      if hash(key) % n == i then Values(MapLines(mapper, InputLines(fs, files)), key) else multiset{}
  {
    var e := ShardPairs(fs, shards, mapper);
    PartitionValues(jobs, workers, e, hash, n, i, key);
    WorkersAreJobs(jobs, workers, e, key);
    SumOverPermuted(ShardOrder(jobs), InOrder(|shards|), ShardValues(e, key));
    InOrderValues(fs, shards, |shards|, mapper, key);
    assert shards[..|shards|] == shards;
    TilesLines(fs, files, parts);
  }

  // ---- the files carry the pairs

  /** The user's mapper emits only pairs that survive the intermediate files. */
  ghost predicate CleanMapper(mapper: string -> seq<Pair>) {
    forall line :: '\n' !in line ==> AllClean(mapper(line))
  }

  lemma CleanConcat(a: seq<Pair>, b: seq<Pair>)
    requires AllClean(a) && AllClean(b)
    ensures AllClean(a + b)
  {
  }

  lemma {:induction false} MapLinesClean(mapper: string -> seq<Pair>, lines: seq<string>)
    requires CleanMapper(mapper) && PlainLines(lines)
    ensures AllClean(MapLines(mapper, lines))
    decreases |lines|
  {
    if lines != [] {
      MapLinesClean(mapper, lines[..|lines| - 1]);
      CleanConcat(MapLines(mapper, lines[..|lines| - 1]), mapper(lines[|lines| - 1]));
    }
  }

  lemma PlainConcat(a: seq<string>, b: seq<string>)
    requires PlainLines(a) && PlainLines(b)
    ensures PlainLines(a + b)
  {
  }

  lemma {:induction false} RangeLinesPlain(fs: Files, rs: seq<Range>)
    requires Readable(rs)
    ensures PlainLines(RangeLines(fs, rs))
    decreases |rs|
  {
    if rs != [] {
      RangeLinesPlain(fs, rs[..|rs| - 1]);
      LinesPlain(ReadRange(fs, rs[|rs| - 1]));
      PlainConcat(RangeLines(fs, rs[..|rs| - 1]), Lines(ReadRange(fs, rs[|rs| - 1])));
    }
  }

  lemma {:induction false} WorkerPairsClean(jobs: seq<Job>, w: nat, fs: Files, shards: seq<FileShard>,
                                            mapper: string -> seq<Pair>)
    requires CleanMapper(mapper) && ReadableShards(shards)
    ensures AllClean(WorkerPairs(jobs, w, ShardPairs(fs, shards, mapper)))
    decreases |jobs|
  {
    if jobs != [] {
      var last := jobs[|jobs| - 1];
      WorkerPairsClean(jobs[..|jobs| - 1], w, fs, shards, mapper);
      if last.worker == w && last.shard < |shards| {
        RangeLinesPlain(fs, shards[last.shard].ranges);
        MapLinesClean(mapper, RangeLines(fs, shards[last.shard].ranges));
        CleanConcat(WorkerPairs(jobs[..|jobs| - 1], w, ShardPairs(fs, shards, mapper)),
          ShardPairs(fs, shards, mapper)(last.shard));
      }
    }
  }

  lemma {:induction false} PartClean(ps: seq<Pair>, hash: string -> nat, n: nat, i: nat)
    requires n > 0 && AllClean(ps)
    ensures AllClean(Part(ps, hash, n, i))
    decreases |ps|
  {
    if ps != [] {
      CleanSplit(ps);
      PartClean(ps[..|ps| - 1], hash, n, i);
    }
  }

  /** What partition `i` of every worker holds after the map phase. */
  function PartitionFiles(jobs: seq<Job>, workers: nat, e: Emission, hash: string -> nat, n: nat,
                          i: nat): seq<Option<string>>
    requires n > 0
  {
    seq(workers, w requires 0 <= w => Some(Printed(WorkerPairs(jobs, w, e), hash, n, i)))
  }

  /** The reducer parses from these files exactly the pairs of the partition. */
  lemma {:induction false} PartitionParsed(jobs: seq<Job>, workers: nat, e: Emission, hash: string -> nat, n: nat,
                                           i: nat)
    requires n > 0 && forall w: nat :: AllClean(WorkerPairs(jobs, w, e))
    ensures ParseLines(FileLines(PartitionFiles(jobs, workers, e, hash, n, i))) ==
      Some(PartitionPairs(jobs, workers, e, hash, n, i))
    decreases workers
  {
    if workers > 0 {
      var own := Part(WorkerPairs(jobs, workers - 1, e), hash, n, i);
      PartitionParsed(jobs, workers - 1, e, hash, n, i);
      assert PartitionFiles(jobs, workers, e, hash, n, i)[..workers - 1] ==
        PartitionFiles(jobs, workers - 1, e, hash, n, i);
      assert AllClean(WorkerPairs(jobs, workers - 1, e));
      PartClean(WorkerPairs(jobs, workers - 1, e), hash, n, i);
      ParsePrintAll(own);
      ParseLinesConcat(FileLines(PartitionFiles(jobs, workers - 1, e, hash, n, i)), Lines(PrintAll(own)));
    }
  }

  // ---- the program

  /** One map task: the worker's file `i` grows by the pairs of the shard that belong to partition `i`. */
  method MapShard(fs: Files, shards: seq<FileShard>, s: nat, mapper: string -> seq<Pair>, hash: string -> nat, n: nat,
                  disk: Disk)
    requires ReadableShards(shards) && s < |shards| && |disk.files| == n > 0
    modifies disk
    ensures |disk.files| == n
    ensures forall i: nat :: i < n ==>
      disk.files[i] == old(disk.files[i]) + Printed(ShardPairs(fs, shards, mapper)(s), hash, n, i)
  {
    assert ShardPairs(fs, shards, mapper)(s) == MapLines(mapper, RangeLines(fs, shards[s].ranges));
    HandleMapJob(fs, shards[s], n, hash, mapper, disk);
  }

  /** `files` are the files of a worker that has done its part of `jobs`. */
  ghost predicate WorkerDone(files: seq<string>, jobs: seq<Job>, w: nat, e: Emission, hash: string -> nat, n: nat)
    requires n > 0
  {
    |files| == n && forall i: nat :: i < n ==> files[i] == Printed(WorkerPairs(jobs, w, e), hash, n, i)
  }

  ghost predicate MapDone(disks: seq<Disk>, jobs: seq<Job>, e: Emission, hash: string -> nat, n: nat)
    requires n > 0
    reads disks
  {
    forall w: nat :: w < |disks| ==> WorkerDone(disks[w].files, jobs, w, e, hash, n)
  }

  lemma WorkerStep(before: seq<string>, after: seq<string>, jobs: seq<Job>, j: nat, w: nat, e: Emission,
                   hash: string -> nat, n: nat)
    requires j < |jobs| && n > 0 && WorkerDone(before, jobs[..j], w, e, hash, n)
    requires |after| == n
    requires if w == jobs[j].worker then forall i: nat :: i < n ==>
      after[i] == before[i] + Printed(e(jobs[j].shard), hash, n, i)
             else after == before
    ensures WorkerDone(after, jobs[..j + 1], w, e, hash, n)
  {
    forall i: nat | i < n ensures after[i] == Printed(WorkerPairs(jobs[..j + 1], w, e), hash, n, i) {
      JobPrinted(jobs, j, w, e, hash, n, i);
      EmptyRight(before[i]);
    }
  }

  lemma NothingDone(files: seq<string>, w: nat, e: Emission, hash: string -> nat, n: nat)
    requires n > 0 && files == seq(n, _ => "")
    ensures WorkerDone(files, [], w, e, hash, n)
  {
  }

  /** All map tasks; each worker appends to its own files. */
  method MapPhase(fs: Files, shards: seq<FileShard>, jobs: seq<Job>, mapper: string -> seq<Pair>,
                  hash: string -> nat, n: nat, disks: seq<Disk>)
    requires n > 0 && Distinct(disks) && ReadableShards(shards)
    requires forall j :: 0 <= j < |jobs| ==> jobs[j].worker < |disks| && jobs[j].shard < |shards|
    requires forall w :: 0 <= w < |disks| ==> disks[w].files == seq(n, _ => "")
    modifies disks
    ensures MapDone(disks, jobs, ShardPairs(fs, shards, mapper), hash, n)
  {
    ghost var e := ShardPairs(fs, shards, mapper);
    forall w: nat | w < |disks| ensures WorkerDone(disks[w].files, [], w, e, hash, n) {
      NothingDone(disks[w].files, w, e, hash, n);
    }
    NoneYet(jobs);
    for j := 0 to |jobs|
      invariant MapDone(disks, jobs[..j], e, hash, n)
    {
      var job := jobs[j];
      label before:
      assert WorkerDone(disks[job.worker].files, jobs[..j], job.worker, e, hash, n);
      MapShard(fs, shards, job.shard, mapper, hash, n, disks[job.worker]);
      forall w: nat | w < |disks| ensures WorkerDone(disks[w].files, jobs[..j + 1], w, e, hash, n) {
        assert old@before(WorkerDone(disks[w].files, jobs[..j], w, e, hash, n));
        assert w != job.worker ==> disks[w] != disks[job.worker];
        WorkerStep(old@before(disks[w].files), disks[w].files, jobs, j, w, e, hash, n);
      }
    }
    NoneYet(jobs);
  }

  lemma NoneYet<T>(s: seq<T>)
    ensures s[..0] == [] && s[..|s|] == s
  {
  }

  lemma JobPrinted(jobs: seq<Job>, j: nat, w: nat, e: Emission, hash: string -> nat, n: nat, i: nat)
    requires j < |jobs| && n > 0
    ensures Printed(WorkerPairs(jobs[..j + 1], w, e), hash, n, i) ==
      Printed(WorkerPairs(jobs[..j], w, e), hash, n, i) +
        if w == jobs[j].worker then Printed(e(jobs[j].shard), hash, n, i) else ""
  {
    assert jobs[..j + 1][..j] == jobs[..j];
    var before := WorkerPairs(jobs[..j], w, e);
    assert before + [] == before;
    PrintedConcat("", before, e(jobs[j].shard), hash, n, i);
    Empty(Printed(before + e(jobs[j].shard), hash, n, i));
    Empty(Printed(before, hash, n, i));
    EmptyRight(Printed(before, hash, n, i));
  }

  /** `keys` are the keys of partition `i` in ascending order, and `text` is what reducing them in turn writes. */
  ghost predicate Reduced(text: string, keys: seq<string>, ps: seq<Pair>, reducer: Reducer) {
    KeysInOrder(keys, ps) && text == ReduceText(reducer, keys, ps)
  }

  /** The intermediate files of partition `i`, in the order of the workers. */
  method CollectFiles(disks: seq<Disk>, n: nat, i: nat) returns (files: seq<Option<string>>)
    requires i < n && forall w: nat :: w < |disks| ==> i < |disks[w].files|
    ensures |files| == |disks|
    ensures forall w: nat :: w < |disks| ==> files[w] == Some(disks[w].files[i])
  {
    files := [];
    for w := 0 to |disks|
      invariant |files| == w
      invariant forall v: nat :: v < w ==> files[v] == Some(disks[v].files[i])
    {
      files := files + [Some(disks[w].files[i])];
    }
  }

  ghost predicate CleanJobs(jobs: seq<Job>, e: Emission) {
    forall w: nat :: AllClean(WorkerPairs(jobs, w, e))
  }

  method ReducePartition(reducer: Reducer, n: nat, i: nat, disks: seq<Disk>, ghost jobs: seq<Job>, ghost e: Emission,
                         hash: string -> nat)
    returns (text: string, ghost keys: seq<string>)
    requires i < n && CleanJobs(jobs, e) && MapDone(disks, jobs, e, hash, n)
    ensures Reduced(text, keys, PartitionPairs(jobs, |disks|, e, hash, n, i), reducer)
  {
    assert forall w: nat :: w < |disks| ==> WorkerDone(disks[w].files, jobs, w, e, hash, n);
    var files := CollectFiles(disks, n, i);
    assert files == PartitionFiles(jobs, |disks|, e, hash, n, i);
    PartitionParsed(jobs, |disks|, e, hash, n, i);
    var ok: bool;
    text, ok, keys := HandleReduceJob(files, reducer, "");
    Empty(ReduceText(reducer, keys, PartitionPairs(jobs, |disks|, e, hash, n, i)));
  }

  ghost predicate AllReduced(outputs: seq<string>, keys: seq<seq<string>>, jobs: seq<Job>, workers: nat, e: Emission,
                             hash: string -> nat, n: nat, reducer: Reducer)
    requires |outputs| == |keys| == n > 0
  {
    forall i: nat :: i < n ==> Reduced(outputs[i], keys[i], PartitionPairs(jobs, workers, e, hash, n, i), reducer)
  }

  ghost predicate ReducedFirst(outputs: seq<string>, keys: seq<seq<string>>, ps: nat -> seq<Pair>, reducer: Reducer) {
    |outputs| == |keys| && forall i: nat :: i < |outputs| ==> Reduced(outputs[i], keys[i], ps(i), reducer)
  }

  lemma ReducedOneMore(outputs: seq<string>, keys: seq<seq<string>>, ps: nat -> seq<Pair>, reducer: Reducer,
                       text: string, inOrder: seq<string>)
    requires ReducedFirst(outputs, keys, ps, reducer) && Reduced(text, inOrder, ps(|outputs|), reducer)
    ensures ReducedFirst(outputs + [text], keys + [inOrder], ps, reducer)
  {
  }

  /** All reduce tasks: one output file per partition. */
  method ReducePhase(reducer: Reducer, n: nat, disks: seq<Disk>, ghost jobs: seq<Job>, ghost e: Emission,
                     hash: string -> nat)
    returns (outputs: seq<string>, ghost keys: seq<seq<string>>)
    requires n > 0 && CleanJobs(jobs, e) && MapDone(disks, jobs, e, hash, n)
    ensures |outputs| == |keys| == n
    ensures AllReduced(outputs, keys, jobs, |disks|, e, hash, n, reducer)
  {
    ghost var ps := (i: nat) => PartitionPairs(jobs, |disks|, e, hash, n, i);
    outputs, keys := [], [];
    for i := 0 to n
      invariant |outputs| == i && ReducedFirst(outputs, keys, ps, reducer)
    {
      var text;
      ghost var inOrder;
      text, inOrder := ReducePartition(reducer, n, i, disks, jobs, e, hash);
      ReducedOneMore(outputs, keys, ps, reducer, text, inOrder);
      outputs, keys := outputs + [text], keys + [inOrder];
    }
  }

  /**
   The result of a run: for every partition its keys in ascending order are exactly the keys of the
   sequential run that hash to it, each with the values of the sequential run.
  */
  ghost predicate Correct(outputs: seq<string>, keys: seq<seq<string>>, grouped: seq<seq<Pair>>,
                          sequential: seq<Pair>, reducer: Reducer, hash: string -> nat, n: nat)
    requires n > 0
  {
    && |outputs| == |keys| == |grouped| == n
    && (forall i: nat :: i < n ==> Reduced(outputs[i], keys[i], grouped[i], reducer))
    && (forall i: nat :: i < n ==> SameGroups(grouped[i], sequential, hash, n, i))
  }

  /** Partition `i` has the values of the sequential run for its own keys, and no others. */
  ghost predicate SameGroups(partition: seq<Pair>, sequential: seq<Pair>, hash: string -> nat, n: nat, i: nat)
    requires n > 0
  {
    forall key :: Values(partition, key) == if hash(key) % n == i then Values(sequential, key) else multiset{}
  }

  /**
   A whole run without failures: shard the files, map every shard once on some worker, reduce every
   partition.  It fails only when sharding does; otherwise it computes what one pass over all
   records of all files would.
  */
  method MapReduce(fs: Files, files: seq<string>, mapKilobytes: int, schedule: nat -> seq<Job>, workers: nat,
                   mapper: string -> seq<Pair>, reducer: Reducer, hash: string -> nat, n: nat)
    returns (ok: bool, outputs: seq<string>, ghost keys: seq<seq<string>>, ghost grouped: seq<seq<Pair>>)
    requires mapKilobytes > 0 && n > 0
    requires CleanMapper(mapper) && AllTerminated(fs, files)
    requires forall shards: nat :: EachOnce(schedule(shards), shards, workers)
    ensures ok <==> Splittable(fs, files, mapKilobytes * 1024, mapKilobytes * 1024)
    ensures ok ==> Correct(outputs, keys, grouped, MapLines(mapper, InputLines(fs, files)), reducer, hash, n)
  {
    var shards: seq<FileShard>;
    ghost var parts: seq<seq<Range>>;
    outputs, keys, grouped := [], [], [];
    ok, shards, parts := ShardFiles(fs, files, mapKilobytes);
    if !ok {
      return;
    }
    TilesLines(fs, files, parts);
    ShardsReadable(shards);
    outputs, keys, grouped := RunShards(fs, files, shards, parts, schedule(|shards|), workers, mapper, reducer, hash,
      n);
  }

  function Grouped(jobs: seq<Job>, workers: nat, e: Emission, hash: string -> nat, n: nat): seq<seq<Pair>>
    requires n > 0
  {
    seq(n, i requires 0 <= i => PartitionPairs(jobs, workers, e, hash, n, i))
  }

  lemma GroupedCorrect(outputs: seq<string>, keys: seq<seq<string>>, fs: Files, files: seq<string>,
                       shards: seq<FileShard>, parts: seq<seq<Range>>, jobs: seq<Job>, workers: nat,
                       mapper: string -> seq<Pair>, reducer: Reducer,
                       hash: string -> nat, n: nat)
    requires n > 0 && |outputs| == |keys| == n
    requires Tiles(fs, files, parts) && AllRanges(shards) == Concat(parts) && ReadableShards(shards)
    requires EachOnce(jobs, |shards|, workers)
    requires AllReduced(outputs, keys, jobs, workers, ShardPairs(fs, shards, mapper), hash, n, reducer)
    ensures Correct(outputs, keys, Grouped(jobs, workers, ShardPairs(fs, shards, mapper), hash, n),
                    MapLines(mapper, InputLines(fs, files)), reducer, hash, n)
  {
    forall i: nat | i < n
      ensures SameGroups(PartitionPairs(jobs, workers, ShardPairs(fs, shards, mapper), hash, n, i),
                         MapLines(mapper, InputLines(fs, files)), hash, n, i)
    {
      forall key
        ensures Values(PartitionPairs(jobs, workers, ShardPairs(fs, shards, mapper), hash, n, i), key) ==
          if hash(key) % n == i then Values(MapLines(mapper, InputLines(fs, files)), key) else multiset{}
      {
        PartitionMeaning(fs, files, shards, parts, jobs, workers, mapper, hash, n, i, key);
      }
    }
  }

  lemma AllJobsClean(jobs: seq<Job>, fs: Files, shards: seq<FileShard>, mapper: string -> seq<Pair>)
    requires CleanMapper(mapper) && ReadableShards(shards)
    ensures CleanJobs(jobs, ShardPairs(fs, shards, mapper))
  {
    forall w: nat ensures AllClean(WorkerPairs(jobs, w, ShardPairs(fs, shards, mapper))) {
      WorkerPairsClean(jobs, w, fs, shards, mapper);
    }
  }

  /** The two phases, once the shards are there. */
  method RunShards(fs: Files, ghost files: seq<string>, shards: seq<FileShard>, ghost parts: seq<seq<Range>>,
                   jobs: seq<Job>, workers: nat, mapper: string -> seq<Pair>, reducer: Reducer,
                   hash: string -> nat, n: nat)
    returns (outputs: seq<string>, ghost keys: seq<seq<string>>, ghost grouped: seq<seq<Pair>>)
    requires n > 0 && CleanMapper(mapper)
    requires Tiles(fs, files, parts) && AllRanges(shards) == Concat(parts) && ReadableShards(shards)
    requires EachOnce(jobs, |shards|, workers)
    ensures Correct(outputs, keys, grouped, MapLines(mapper, InputLines(fs, files)), reducer, hash, n)
  {
    JobsInRange(jobs, |shards|, workers);
    AllJobsClean(jobs, fs, shards, mapper);
    outputs, keys := RunPhases(fs, shards, jobs, workers, mapper, reducer, hash, n);
    grouped := Grouped(jobs, workers, ShardPairs(fs, shards, mapper), hash, n);
    GroupedCorrect(outputs, keys, fs, files, shards, parts, jobs, workers, mapper, reducer, hash, n);
  }

  method RunPhases(fs: Files, shards: seq<FileShard>, jobs: seq<Job>, workers: nat,
                   mapper: string -> seq<Pair>, reducer: Reducer, hash: string -> nat, n: nat)
    returns (outputs: seq<string>, ghost keys: seq<seq<string>>)
    requires n > 0 && ReadableShards(shards) && CleanJobs(jobs, ShardPairs(fs, shards, mapper))
    requires forall j :: 0 <= j < |jobs| ==> jobs[j].worker < workers && jobs[j].shard < |shards|
    ensures |outputs| == |keys| == n
    ensures AllReduced(outputs, keys, jobs, workers, ShardPairs(fs, shards, mapper), hash, n, reducer)
  {
    var disks := NewDisks(workers, n);
    MapPhase(fs, shards, jobs, mapper, hash, n, disks);
    outputs, keys := ReducePhase(reducer, n, disks, jobs, ShardPairs(fs, shards, mapper), hash);
  }

  method NewDisks(workers: nat, n: nat) returns (disks: seq<Disk>)
    ensures |disks| == workers && Distinct(disks) && fresh(disks)
    ensures forall w :: 0 <= w < |disks| ==> disks[w].files == seq(n, _ => "")
  {
    disks := [];
    for w := 0 to workers
      invariant |disks| == w && Distinct(disks) && fresh(disks)
      invariant forall v :: 0 <= v < w ==> disks[v].files == seq(n, _ => "")
    {
      var disk := new Disk(n);
      disks := disks + [disk];
    }
  }

  lemma {:induction false} ShardsReadable(shards: seq<FileShard>)
    requires Readable(AllRanges(shards))
    ensures ReadableShards(shards)
    decreases |shards|
  {
    if shards != [] {
      var before, last := AllRanges(shards[..|shards| - 1]), shards[|shards| - 1].ranges;
      assert forall r :: r in before || r in last ==> r in before + last;
      ShardsReadable(shards[..|shards| - 1]);
      forall s | 0 <= s < |shards| ensures Readable(shards[s].ranges) {
        if s < |shards| - 1 { assert shards[..|shards| - 1][s] == shards[s]; }
      }
    }
  }

  lemma JobsInRange(jobs: seq<Job>, shards: nat, workers: nat)
    requires EachOnce(jobs, shards, workers)
    ensures forall j :: 0 <= j < |jobs| ==> jobs[j].worker < workers && jobs[j].shard < shards
  {
    forall j | 0 <= j < |jobs| ensures jobs[j].shard < shards {
      assert ShardOrder(jobs)[j] == jobs[j].shard;
      assert jobs[j].shard in multiset(ShardOrder(jobs));
      assert jobs[j].shard in InOrder(shards);
    }
  }

  // ---- reducers that do not depend on the order of their values

  ghost predicate OrderFree(reducer: Reducer) {
    forall key, a, b :: multiset(a) == multiset(b) ==> reducer(key, a) == reducer(key, b)
  }

  lemma SameGroup(partition: seq<Pair>, sequential: seq<Pair>, reducer: Reducer, hash: string -> nat, n: nat, i: nat,
                  key: string)
    requires n > 0 && SameGroups(partition, sequential, hash, n, i) && OrderFree(reducer)
    ensures ValuesOf(partition, key) != [] <==> hash(key) % n == i && ValuesOf(sequential, key) != []
    ensures hash(key) % n == i ==> reducer(key, ValuesOf(partition, key)) == reducer(key, ValuesOf(sequential, key))
  {
    ValuesAreValues(partition, key);
    ValuesAreValues(sequential, key);
    MultisetEmpty(ValuesOf(partition, key));
    MultisetEmpty(ValuesOf(sequential, key));
  }

  lemma {:induction false} SameText(keys: seq<string>, partition: seq<Pair>, sequential: seq<Pair>, reducer: Reducer,
                                    hash: string -> nat, n: nat, i: nat)
    requires n > 0 && SameGroups(partition, sequential, hash, n, i) && OrderFree(reducer)
    requires forall k :: 0 <= k < |keys| ==> hash(keys[k]) % n == i
    ensures ReduceText(reducer, keys, partition) == ReduceText(reducer, keys, sequential)
    decreases |keys|
  {
    if keys != [] {
      SameText(keys[..|keys| - 1], partition, sequential, reducer, hash, n, i);
      SameGroup(partition, sequential, reducer, hash, n, i, keys[|keys| - 1]);
    }
  }

  /** `keys` are the keys of the sequential run that belong to partition `i`, in ascending order. */
  ghost predicate PartitionKeys(keys: seq<string>, sequential: seq<Pair>, hash: string -> nat, n: nat, i: nat)
    requires n > 0
  {
    Ascending(keys) && forall key :: key in keys <==> hash(key) % n == i && ValuesOf(sequential, key) != []
  }

  /**
   For such a reducer every output file is a function of the input records alone: schedule, workers and shards leave
   no trace.
  */
  lemma OutputIsSequential(outputs: seq<string>, keys: seq<seq<string>>, grouped: seq<seq<Pair>>, sequential: seq<Pair>,
                           reducer: Reducer, hash: string -> nat, n: nat, i: nat)
    requires i < n && Correct(outputs, keys, grouped, sequential, reducer, hash, n) && OrderFree(reducer)
    ensures PartitionKeys(keys[i], sequential, hash, n, i)
    ensures outputs[i] == ReduceText(reducer, keys[i], sequential)
  {
    assert Reduced(outputs[i], keys[i], grouped[i], reducer) && SameGroups(grouped[i], sequential, hash, n, i);
    forall key ensures ValuesOf(grouped[i], key) != [] <==> hash(key) % n == i && ValuesOf(sequential, key) != [] {
      SameGroup(grouped[i], sequential, reducer, hash, n, i, key);
    }
    forall k | 0 <= k < |keys[i]| ensures hash(keys[i][k]) % n == i {
      assert keys[i][k] in keys[i];
    }
    SameText(keys[i], grouped[i], sequential, reducer, hash, n, i);
  }

  // ---- counting words

  lemma {:induction false} SumAtoiConcat(a: seq<string>, b: seq<string>)
    ensures SumAtoi(a + b) == SumAtoi(a) + SumAtoi(b)
    decreases |b|
  {
    if b == [] {
      EmptyRight(a);
    } else {
      ConcatInit(a, b);
      SumAtoiConcat(a, b[..|b| - 1]);
    }
  }

  lemma SumAtoiOut(l: seq<string>, x: string, r: seq<string>)
    ensures SumAtoi(l + [x] + r) == SumAtoi(l + r) + Atoi(x)
  {
    SumAtoiConcat(l + [x], r);
    SumAtoiConcat(l, r);
    Snoc(l + [x]);
    SumAtoiConcat(l, [x]);
    NoneYet([x][..0]);
  }

  lemma {:induction false} SumAtoiPermuted(a: seq<string>, b: seq<string>)
    requires multiset(a) == multiset(b)
    ensures SumAtoi(a) == SumAtoi(b)
    decreases |a|
  {
    if a == [] {
      MultisetEmpty(b);
    } else {
      var a', x := a[..|a| - 1], a[|a| - 1];
      LastOut(a);
      var l, r := Split(b, x);
      SumAtoiPermuted(a', l + r);
      SumAtoiOut(l, x, r);
    }
  }

  lemma SumReducerOrderFree()
    ensures OrderFree(SumReducer)
  {
    forall key: string, a: seq<string>, b: seq<string> | multiset(a) == multiset(b)
      ensures SumReducer(key, a) == SumReducer(key, b)
    {
      SumAtoiPermuted(a, b);
    }
  }

  /** One line for each of `words`: the word, a blank, and how often it occurs in the records. */
  function CountText(words: seq<string>, lines: seq<string>): string {
    if words == [] then "" else
    var w := words[|words| - 1];
    CountText(words[..|words| - 1], lines) + (w + " " + ToString(Occurrences(w, lines)) + "\n")
  }

  lemma {:induction false} ReduceTextCounts(words: seq<string>, lines: seq<string>)
    ensures ReduceText(SumReducer, words, MapLines(WordMapper, lines)) == CountText(words, lines)
    decreases |words|
  {
    if words != [] {
      var w := words[|words| - 1];
      var values := ValuesOf(MapLines(WordMapper, lines), w);
      ReduceTextCounts(words[..|words| - 1], lines);
      ValuesOfWord(lines, w);
      SumOfOnes(values);
      EmitOne((w, ToString(SumAtoi(values))));
    }
  }

  /** A line with a word, a blank, and the decimal number of places where the word is in the records. */
  ghost predicate CountedLine(line: string, word: string, lines: seq<string>) {
    exists s :: IsNumeral(s) && Positional(s) == |Places(word, lines)| && line == word + " " + s
  }

  lemma NumeralLine(word: string, n: nat, line: string)
    requires line == word + " " + NatToString(n) && '\n' !in word
    ensures '\n' !in line && Lines(line + "\n") == [line]
  {
    NumeralOf(n);
    assert '\n' !in NatToString(n);
    LinesPrint(line, "");
    EmptyRight(line + "\n");
  }

  lemma OneLineMore(text: string, line: string)
    requires Terminated(text) && Lines(line + "\n") == [line]
    ensures Terminated(text + (line + "\n")) && Lines(text + (line + "\n")) == Lines(text) + [line]
  {
    LinesConcat(text, line + "\n");
    EndsInNewline(text, line);
  }

  lemma CountTextLast(words: seq<string>, lines: seq<string>, line: string)
    requires words != []
    requires line == words[|words| - 1] + " " + NatToString(Occurrences(words[|words| - 1], lines))
    ensures CountText(words, lines) == CountText(words[..|words| - 1], lines) + (line + "\n")
  {
  }

  lemma LineIsCounted(word: string, lines: seq<string>, line: string)
    requires line == word + " " + NatToString(Occurrences(word, lines)) && '\n' !in word
    requires NoNul(lines)
    ensures CountedLine(line, word, lines) && Lines(line + "\n") == [line]
  {
    OccurrencesArePlaces(word, lines);
    NumeralLine(word, Occurrences(word, lines), line);
    NumeralOf(Occurrences(word, lines));
  }

  ghost predicate CountedLines(read: seq<string>, words: seq<string>, lines: seq<string>) {
    |read| == |words| && forall i :: 0 <= i < |words| ==> CountedLine(read[i], words[i], lines)
  }

  lemma CountedSnoc(read: seq<string>, words: seq<string>, lines: seq<string>, line: string)
    requires words != [] && CountedLines(read, words[..|words| - 1], lines)
    requires CountedLine(line, words[|words| - 1], lines)
    ensures CountedLines(read + [line], words, lines)
  {
  }

  /** Read back record by record, the text has one such line for each of the words, in their order. */
  lemma {:induction false} CountTextReads(words: seq<string>, lines: seq<string>)
    requires PlainLines(words) && NoNul(lines)
    ensures Terminated(CountText(words, lines)) && CountedLines(Lines(CountText(words, lines)), words, lines)
    decreases |words|
  {
    if words != [] {
      var before, w := words[..|words| - 1], words[|words| - 1];
      var line := w + " " + NatToString(Occurrences(w, lines));
      CountTextReads(before, lines);
      LineIsCounted(w, lines, line);
      CountTextLast(words, lines, line);
      OneLineMore(CountText(before, lines), line);
      CountedSnoc(Lines(CountText(before, lines)), words, lines, line);
    }
  }

  /** `words` are exactly the words of the records that belong to partition `i`, in ascending order. */
  ghost predicate PartitionWords(words: seq<string>, lines: seq<string>, hash: string -> nat, n: nat, i: nat)
    requires n > 0
  {
    Ascending(words) && forall w :: w in words <==> hash(w) % n == i && Occurrences(w, lines) > 0
  }

  lemma {:induction false} OccursInRecord(word: string, lines: seq<string>)
    requires Occurrences(word, lines) > 0 && PlainLines(lines)
    ensures '\n' !in word
    decreases |lines|
  {
    var last := lines[|lines| - 1];
    if word in Words(CStr(last)) {
      WordIsPlain(CStr(last), word);
      assert forall c :: c in CStr(last) ==> c in last;
    } else {
      OccursInRecord(word, lines[..|lines| - 1]);
    }
  }

  lemma {:induction false} InputLinesPlain(fs: Files, files: seq<string>)
    ensures PlainLines(InputLines(fs, files))
    decreases |files|
  {
    if files != [] {
      var last := files[|files| - 1];
      InputLinesPlain(fs, files[..|files| - 1]);
      LinesPlain(if last in fs then fs[last] else []);
      PlainConcat(InputLines(fs, files[..|files| - 1]), Lines(if last in fs then fs[last] else []));
    }
  }

  /** What an output file says when it is read back: a line for each word, with the decimal number of its places. */
  lemma OutputReads(words: seq<string>, lines: seq<string>, hash: string -> nat, n: nat, i: nat)
    requires n > 0 && PartitionWords(words, lines, hash, n, i) && PlainLines(lines) && NoNul(lines)
    ensures CountedLines(Lines(CountText(words, lines)), words, lines)
  {
    forall k | 0 <= k < |words| ensures '\n' !in words[k] {
      assert words[k] in words;
      OccursInRecord(words[k], lines);
    }
    CountTextReads(words, lines);
  }

  lemma OutputsRead(outputs: seq<string>, words: seq<seq<string>>, fs: Files, files: seq<string>,
                    hash: string -> nat, n: nat)
    requires n > 0 && |outputs| == |words| == n
    requires forall i: nat :: i < n ==>
      PartitionWords(words[i], InputLines(fs, files), hash, n, i) &&
        outputs[i] == CountText(words[i], InputLines(fs, files))
    ensures NoNul(InputLines(fs, files)) ==> forall i: nat :: i < n ==>
      CountedLines(Lines(outputs[i]), words[i], InputLines(fs, files))
  {
    InputLinesPlain(fs, files);
    forall i: nat | i < n && NoNul(InputLines(fs, files))
      ensures CountedLines(Lines(outputs[i]), words[i], InputLines(fs, files))
    {
      OutputReads(words[i], InputLines(fs, files), hash, n, i);
    }
  }

  /** Correct outputs of the word-count reducer list the words and their counts. */
  lemma CorrectMeansCounted(outputs: seq<string>, words: seq<seq<string>>, grouped: seq<seq<Pair>>, lines: seq<string>,
                            hash: string -> nat, n: nat)
    requires n > 0 && Correct(outputs, words, grouped, MapLines(WordMapper, lines), SumReducer, hash, n)
    ensures forall i: nat :: i < n ==>
      PartitionWords(words[i], lines, hash, n, i) && outputs[i] == CountText(words[i], lines)
  {
    forall i: nat | i < n
      ensures PartitionWords(words[i], lines, hash, n, i) && outputs[i] == CountText(words[i], lines)
    {
      SumReducerOrderFree();
      OutputIsSequential(outputs, words, grouped, MapLines(WordMapper, lines), SumReducer, hash, n, i);
      ReduceTextCounts(words[i], lines);
      forall w ensures ValuesOf(MapLines(WordMapper, lines), w) != [] <==> Occurrences(w, lines) > 0 {
        ValuesOfWord(lines, w);
      }
    }
  }

  lemma WordMapperIsClean()
    ensures CleanMapper(WordMapper)
  {
    forall line | '\n' !in line ensures AllClean(WordMapper(line)) { WordPairsAreClean(line); }
  }

  /**
   The word-count program: output file `i` lists, in ascending order, every word of the input that
   hashes to `i`, each once and with the number of times it occurs in all the input files together.
  */
  method CountWords(fs: Files, files: seq<string>, mapKilobytes: int, schedule: nat -> seq<Job>, workers: nat,
                    hash: string -> nat, n: nat)
    returns (ok: bool, outputs: seq<string>, ghost words: seq<seq<string>>)
    requires mapKilobytes > 0 && n > 0 && AllTerminated(fs, files)
    requires forall shards: nat :: EachOnce(schedule(shards), shards, workers)
    ensures ok <==> Splittable(fs, files, mapKilobytes * 1024, mapKilobytes * 1024)
    ensures ok ==> |outputs| == |words| == n
    ensures ok ==> forall i: nat :: i < n ==>
      PartitionWords(words[i], InputLines(fs, files), hash, n, i) &&
        outputs[i] == CountText(words[i], InputLines(fs, files))
    ensures ok && NoNul(InputLines(fs, files)) ==> forall i: nat :: i < n ==>
      CountedLines(Lines(outputs[i]), words[i], InputLines(fs, files))
  {
    WordMapperIsClean();
    ghost var grouped;
    ok, outputs, words, grouped := MapReduce(fs, files, mapKilobytes, schedule, workers, WordMapper, SumReducer, hash,
      n);
    if ok {
      CorrectMeansCounted(outputs, words, grouped, InputLines(fs, files), hash, n);
      OutputsRead(outputs, words, fs, files, hash, n);
    }
  }
}
