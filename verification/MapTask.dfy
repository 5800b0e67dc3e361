/** The map side of a worker (project4/src/mr_tasks.cc, handle_map_job in worker_request.cc). */
module MapTask {
  import opened Sequences
  import opened Text
  import opened Pairs
  import opened Sharding

  const KEY_VALUE_PAIR_DUMP_THRESHOLD := 1000

  /** The intermediate files of one worker, one per partition; files are only ever appended to. */
  class Disk {
    var files: seq<string>

    constructor (n: nat)
      ensures files == seq(n, _ => "") && |files| == n
    {
      files := seq(n, _ => "");
    }
  }

  class BaseMapperInternal {
    const numPartitions: nat
    const hash: string -> nat
    const disk: Disk
    var keyValuePairs: seq<Pair>

    ghost predicate Valid()
      reads this, disk
    {
      |disk.files| == numPartitions > 0 && |keyValuePairs| <= KEY_VALUE_PAIR_DUMP_THRESHOLD
    }

    /** What file `i` will hold once the buffer has been dumped. */
    ghost function Output(i: nat): string
      requires Valid() && i < numPartitions
      reads this, disk
    {
      disk.files[i] + PrintAll(Part(keyValuePairs, hash, numPartitions, i))
    }

    constructor (n: nat, hash: string -> nat, disk: Disk)
      requires |disk.files| == n > 0
      ensures Valid() && this.disk == disk && this.hash == hash && numPartitions == n && keyValuePairs == []
    {
      numPartitions, this.hash, this.disk := n, hash, disk;
      keyValuePairs := [];
    }

    method Dump()
      requires Valid()
      modifies this, disk
      ensures Valid() && keyValuePairs == []
      ensures forall i: nat :: i < numPartitions ==> Output(i) == disk.files[i] == old(Output(i))
    {
      ghost var files0 := disk.files;
      for k := 0 to |keyValuePairs|
        invariant |disk.files| == numPartitions && keyValuePairs == old(keyValuePairs)
        invariant forall i: nat :: i < numPartitions ==>
          disk.files[i] == files0[i] + PrintAll(Part(keyValuePairs[..k], hash, numPartitions, i))
      {
        var p := keyValuePairs[k];
        var target := hash(p.0) % numPartitions;
        assert keyValuePairs[..k + 1][..k] == keyValuePairs[..k];
        DumpOne(keyValuePairs[..k + 1], hash, numPartitions, target);
        Assoc(files0[target], PrintAll(Part(keyValuePairs[..k], hash, numPartitions, target)), PrintLine(p) + "\n");
        disk.files := disk.files[target := disk.files[target] + (PrintLine(p) + "\n")];
      }
      assert keyValuePairs[..|keyValuePairs|] == keyValuePairs;
      keyValuePairs := [];
    }

    /** The last pair of a list goes to the end of its own file. */
    static lemma DumpOne(ps: seq<Pair>, hash: string -> nat, n: nat, target: nat)
      requires ps != [] && n > 0 && target == hash(ps[|ps| - 1].0) % n
      ensures PrintAll(Part(ps, hash, n, target)) ==
        PrintAll(Part(ps[..|ps| - 1], hash, n, target)) + (PrintLine(ps[|ps| - 1]) + "\n")
      ensures forall i: nat :: i != target ==> Part(ps, hash, n, i) == Part(ps[..|ps| - 1], hash, n, i)
    {
      var before := Part(ps[..|ps| - 1], hash, n, target);
      assert (before + [ps[|ps| - 1]])[..|before|] == before;
    }

    method Emit(key: string, val: string)
      requires Valid()
      modifies this, disk
      ensures Valid() && |keyValuePairs| <= 1000
      ensures forall i: nat :: i < numPartitions ==>
        Output(i) == old(Output(i)) + if hash(key) % numPartitions == i then PrintAll([(key, val)]) else ""
    {
      if |keyValuePairs| >= KEY_VALUE_PAIR_DUMP_THRESHOLD {
        Dump();
      }
      label dumped:
      keyValuePairs := keyValuePairs + [(key, val)];
      forall i: nat | i < numPartitions
        ensures Output(i) == old@dumped(Output(i)) +
          if hash(key) % numPartitions == i then PrintAll([(key, val)]) else ""
      {
        Buffered(disk.files[i], old@dumped(keyValuePairs), (key, val), hash, numPartitions, i);
      }
    }

    static lemma Buffered(file: string, ps: seq<Pair>, p: Pair, hash: string -> nat, n: nat, i: nat)
      requires n > 0
      ensures file + PrintAll(Part(ps + [p], hash, n, i)) ==
        file + PrintAll(Part(ps, hash, n, i)) + if hash(p.0) % n == i then PrintAll([p]) else ""
    {
      PartConcat(ps, [p], hash, n, i);
      assert [p][..0] == [];
      var one: seq<Pair> := if hash(p.0) % n == i then [p] else [];
      assert Part([p], hash, n, i) == [] + one == one;
      PrintAllConcat(Part(ps, hash, n, i), one);
      Assoc(file, PrintAll(Part(ps, hash, n, i)), PrintAll(one));
    }
  }

  /** The pairs that a mapper emits for a list of records. */
  function MapLines(mapper: string -> seq<Pair>, lines: seq<string>): seq<Pair> {
    if lines == [] then [] else MapLines(mapper, lines[..|lines| - 1]) + mapper(lines[|lines| - 1])
  }

  lemma MapLinesOne(mapper: string -> seq<Pair>, line: string)
    ensures MapLines(mapper, [line]) == mapper(line)
  {
    assert [line][..0] == [];
    Empty(mapper(line));
  }

  lemma {:induction false} MapLinesConcat(mapper: string -> seq<Pair>, a: seq<string>, b: seq<string>)
    ensures MapLines(mapper, a + b) == MapLines(mapper, a) + MapLines(mapper, b)
    decreases |b|
  {
    if b == [] {
      assert a + b == a;
    } else {
      var b', l := b[..|b| - 1], b[|b| - 1];
      assert (a + b)[..|a + b| - 1] == a + b';
      MapLinesConcat(mapper, a, b');
      Assoc(MapLines(mapper, a), MapLines(mapper, b'), mapper(l));
    }
  }

  /** What a map task adds to file `i` when its mapper emits `ps`. */
  function Printed(ps: seq<Pair>, hash: string -> nat, n: nat, i: nat): string
    requires n > 0
  {
    PrintAll(Part(ps, hash, n, i))
  }

  lemma PrintedConcat(file: string, a: seq<Pair>, b: seq<Pair>, hash: string -> nat, n: nat, i: nat)
    requires n > 0
    ensures file + Printed(a + b, hash, n, i) == file + Printed(a, hash, n, i) + Printed(b, hash, n, i)
  {
    PartConcat(a, b, hash, n, i);
    PrintAllConcat(Part(a, hash, n, i), Part(b, hash, n, i));
    Assoc(file, Printed(a, hash, n, i), Printed(b, hash, n, i));
  }

  /** mapper->map(record): the user's function decides what is emitted, in what order. */
  method MapRecord(base: BaseMapperInternal, emitted: seq<Pair>)
    requires base.Valid()
    modifies base, base.disk
    ensures base.Valid()
    ensures forall i: nat :: i < base.numPartitions ==>
      base.Output(i) == old(base.Output(i)) + Printed(emitted, base.hash, base.numPartitions, i)
  {
    var n := base.numPartitions;
    for k := 0 to |emitted|
      invariant base.Valid()
      invariant forall i: nat :: i < n ==>
        base.Output(i) == old(base.Output(i)) + Printed(emitted[..k], base.hash, n, i)
    {
      ghost var p := emitted[k];
      forall i: nat | i < n
        ensures old(base.Output(i)) + Printed(emitted[..k + 1], base.hash, n, i) ==
          old(base.Output(i)) + Printed(emitted[..k], base.hash, n, i) + Printed([p], base.hash, n, i)
        ensures Printed([p], base.hash, n, i) == if base.hash(p.0) % n == i then PrintAll([p]) else ""
      {
        assert emitted[..k + 1] == emitted[..k] + [p];
        PrintedConcat(old(base.Output(i)), emitted[..k], [p], base.hash, n, i);
        assert [p][..0] == [];
      }
      base.Emit(emitted[k].0, emitted[k].1);
    }
    assert emitted[..|emitted|] == emitted;
  }

  /** Lines 63-65: map every record of one range. */
  method MapRange(base: BaseMapperInternal, mapper: string -> seq<Pair>, buffer: string)
    requires base.Valid()
    modifies base, base.disk
    ensures base.Valid()
    ensures forall i: nat :: i < base.numPartitions ==>
      base.Output(i) == old(base.Output(i)) + Printed(MapLines(mapper, Lines(buffer)), base.hash, base.numPartitions, i)
  {
    var n := base.numPartitions;
    var lines := ReadLines(buffer);
    for k := 0 to |lines|
      invariant base.Valid()
      invariant forall i: nat :: i < n ==>
        base.Output(i) == old(base.Output(i)) + Printed(MapLines(mapper, lines[..k]), base.hash, n, i)
    {
      assert lines[..k + 1][..k] == lines[..k];
      forall i: nat | i < n
        ensures old(base.Output(i)) + Printed(MapLines(mapper, lines[..k + 1]), base.hash, n, i) ==
          old(base.Output(i)) + Printed(MapLines(mapper, lines[..k]), base.hash, n, i) +
            Printed(mapper(lines[k]), base.hash, n, i)
      {
        PrintedConcat(old(base.Output(i)), MapLines(mapper, lines[..k]), mapper(lines[k]), base.hash, n, i);
      }
      MapRecord(base, mapper(lines[k]));
    }
    assert lines[..|lines|] == lines;
  }

  lemma OneRangeMore(fs: Files, rs: seq<Range>, k: nat, mapper: string -> seq<Pair>, file: string,
                     hash: string -> nat, n: nat, i: nat)
    requires Readable(rs) && k < |rs| && n > 0
    ensures file + Printed(MapLines(mapper, RangeLines(fs, rs[..k + 1])), hash, n, i) ==
      file + Printed(MapLines(mapper, RangeLines(fs, rs[..k])), hash, n, i)
      + Printed(MapLines(mapper, Lines(ReadRange(fs, rs[k]))), hash, n, i)
  {
    var before, more := RangeLines(fs, rs[..k]), Lines(ReadRange(fs, rs[k]));
    assert rs[..k + 1][..k] == rs[..k];
    assert RangeLines(fs, rs[..k + 1]) == before + more;
    MapLinesConcat(mapper, before, more);
    PrintedConcat(file, MapLines(mapper, before), MapLines(mapper, more), hash, n, i);
  }

  /**
   handle_map_job: whatever the buffering, file `i` of the worker grows by exactly the pairs of
   partition `i`, in the order in which the records of the shard emit them.
  */
  method HandleMapJob(fs: Files, shard: FileShard, n: nat, hash: string -> nat, mapper: string -> seq<Pair>, disk: Disk)
    requires Readable(shard.ranges) && |disk.files| == n > 0
    modifies disk
    ensures |disk.files| == n
    ensures forall i: nat :: i < n ==>
      disk.files[i] == old(disk.files[i]) + Printed(MapLines(mapper, RangeLines(fs, shard.ranges)), hash, n, i)
  {
    var base := new BaseMapperInternal(n, hash, disk);
    ghost var files0 := disk.files;
    assert forall i: nat :: i < n ==> base.Output(i) == files0[i] + "";
    for k := 0 to |shard.ranges|
      invariant base.Valid() && fresh(base) && base.disk == disk && base.numPartitions == n && base.hash == hash
      invariant forall i: nat :: i < n ==>
        base.Output(i) == files0[i] + Printed(MapLines(mapper, RangeLines(fs, shard.ranges[..k])), hash, n, i)
    {
      var r := shard.ranges[k];
      forall i: nat | i < n
        ensures files0[i] + Printed(MapLines(mapper, RangeLines(fs, shard.ranges[..k + 1])), hash, n, i) ==
          files0[i] + Printed(MapLines(mapper, RangeLines(fs, shard.ranges[..k])), hash, n, i)
          + Printed(MapLines(mapper, Lines(ReadRange(fs, r))), hash, n, i)
      {
        OneRangeMore(fs, shard.ranges, k, mapper, files0[i], hash, n, i);
      }
      MapRange(base, mapper, ReadRange(fs, r));
    }
    assert shard.ranges[..|shard.ranges|] == shard.ranges;
    base.Dump();
  }
}
