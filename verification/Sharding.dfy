/** Cutting the input files into shards of whole records (project4/src/file_shard.h). */
module Sharding {
  import opened Sequences
  import opened Text

  // File contents by name; a name that is not in the map cannot be opened.
  type Files = map<string, string>

  // One (file, start, end) entry of a shard; the source keeps names and offsets in parallel vectors.
  datatype Range = Range(file: string, start: int, end: int)

  datatype FileShard = FileShard(ranges: seq<Range>)

  /**
   get_split: from `offset`, skip `remain` bytes and go on to the end of the line found there.
   At or past the end of the file getline reads nothing and the split fails.
  */
  function GetSplit(fs: Files, f: string, offset: int, remain: int): int {
    if f !in fs then -1 else
    var pos := offset + remain;
    if pos < 0 || pos >= |fs[f]| then -1 else remain + FirstIndex(fs[f][pos..], '\n') + 1
  }

  // ---- what a list of ranges covers

  /** `rs` cuts the first `upto` bytes of `f` into adjacent non-empty pieces, each ending in a newline. */
  predicate Covers(fs: Files, f: string, rs: seq<Range>, upto: nat)
    decreases |rs|
  {
    && f in fs
    && upto <= |fs[f]|
    && if rs == [] then upto == 0 else
       var last := rs[|rs| - 1];
       && last.file == f && 0 <= last.start < last.end == upto
       && fs[f][upto - 1] == '\n'
       && Covers(fs, f, rs[..|rs| - 1], last.start)
  }

  function Length(rs: seq<Range>): int {
    if rs == [] then 0 else Length(rs[..|rs| - 1]) + rs[|rs| - 1].end - rs[|rs| - 1].start
  }

  lemma {:induction false} LengthConcat(a: seq<Range>, b: seq<Range>)
    ensures Length(a + b) == Length(a) + Length(b)
    decreases |b|
  {
    if b == [] {
      assert a + b == a;
    } else {
      assert (a + b)[..|a + b| - 1] == a + b[..|b| - 1];
      LengthConcat(a, b[..|b| - 1]);
    }
  }

  lemma {:induction false} CoversLength(fs: Files, f: string, rs: seq<Range>, upto: nat)
    requires Covers(fs, f, rs, upto)
    ensures Length(rs) == upto
    decreases |rs|
  {
    if rs != [] {
      CoversLength(fs, f, rs[..|rs| - 1], rs[|rs| - 1].start);
    }
  }

  /** The bytes that a worker finds in a range (worker_request.cc:55-59); what lies past the end stays NUL. */
  function ReadRange(fs: Files, r: Range): string
    requires 0 <= r.start <= r.end
  {
    var content := if r.file in fs then fs[r.file] else [];
    seq(r.end - r.start, i requires 0 <= i => if r.start + i < |content| then content[r.start + i] else '\0')
  }

  ghost predicate Readable(rs: seq<Range>) {
    forall r :: r in rs ==> 0 <= r.start <= r.end
  }

  /** The records that a mapper reads from a list of ranges, one range after the other. */
  function RangeLines(fs: Files, rs: seq<Range>): seq<string>
    requires forall r :: r in rs ==> 0 <= r.start <= r.end
  {
    if rs == [] then [] else RangeLines(fs, rs[..|rs| - 1]) + Lines(ReadRange(fs, rs[|rs| - 1]))
  }

  lemma {:induction false} RangeLinesConcat(fs: Files, a: seq<Range>, b: seq<Range>)
    requires Readable(a) && Readable(b)
    ensures Readable(a + b) && RangeLines(fs, a + b) == RangeLines(fs, a) + RangeLines(fs, b)
    decreases |b|
  {
    if b == [] {
      assert a + b == a;
    } else {
      var b', r := b[..|b| - 1], b[|b| - 1];
      assert (a + b)[..|a + b| - 1] == a + b';
      RangeLinesConcat(fs, a, b');
      Assoc(RangeLines(fs, a), RangeLines(fs, b'), Lines(ReadRange(fs, r)));
    }
  }

  lemma ReadInside(fs: Files, r: Range)
    requires r.file in fs && 0 <= r.start <= r.end <= |fs[r.file]|
    ensures ReadRange(fs, r) == fs[r.file][r.start..r.end]
  {
  }

  lemma LinesGlue(t: string, from: nat, to: nat)
    requires from <= to <= |t| && Terminated(t[..from])
    ensures Lines(t[..to]) == Lines(t[..from]) + Lines(t[from..to])
  {
    SliceSplit(t, from, to);
    LinesConcat(t[..from], t[from..to]);
  }

  lemma TerminatedAt(t: string, to: nat)
    requires to <= |t| && (to == 0 || t[to - 1] == '\n')
    ensures Terminated(t[..to])
  {
  }

  lemma {:induction false} CoversReadable(fs: Files, f: string, rs: seq<Range>, upto: nat)
    requires Covers(fs, f, rs, upto)
    ensures Readable(rs)
    decreases |rs|
  {
    if rs != [] {
      CoversReadable(fs, f, rs[..|rs| - 1], rs[|rs| - 1].start);
      assert rs == rs[..|rs| - 1] + [rs[|rs| - 1]];
    }
  }

  /** Record-aligned pieces have, together, exactly the records of the text that they cover. */
  lemma {:induction false} CoversLines(fs: Files, f: string, rs: seq<Range>, upto: nat)
    requires Covers(fs, f, rs, upto)
    ensures Readable(rs) && Terminated(fs[f][..upto])
    ensures RangeLines(fs, rs) == Lines(fs[f][..upto])
    decreases |rs|
  {
    CoversReadable(fs, f, rs, upto);
    TerminatedAt(fs[f], upto);
    if rs != [] {
      var last := rs[|rs| - 1];
      CoversLines(fs, f, rs[..|rs| - 1], last.start);
      ReadInside(fs, last);
      LinesGlue(fs[f], last.start, upto);
    }
  }

  // ---- the input as a whole

  ghost predicate AllTerminated(fs: Files, files: seq<string>) {
    forall f :: f in files && f in fs ==> Terminated(fs[f])
  }

  function InputLines(fs: Files, files: seq<string>): seq<string> {
    if files == [] then [] else
    var last := files[|files| - 1];
    InputLines(fs, files[..|files| - 1]) + Lines(if last in fs then fs[last] else [])
  }

  function InputSize(fs: Files, files: seq<string>): nat {
    if files == [] then 0 else
    var last := files[|files| - 1];
    InputSize(fs, files[..|files| - 1]) + if last in fs then |fs[last]| else 0
  }

  /** `parts[j]` cuts the whole of the j-th file. */
  ghost predicate Tiles(fs: Files, files: seq<string>, parts: seq<seq<Range>>) {
    && |parts| == |files|
    && forall j :: 0 <= j < |files| ==> files[j] in fs && Covers(fs, files[j], parts[j], |fs[files[j]]|)
  }

  lemma {:induction false} TilesLines(fs: Files, files: seq<string>, parts: seq<seq<Range>>)
    requires Tiles(fs, files, parts)
    ensures Readable(Concat(parts)) && RangeLines(fs, Concat(parts)) == InputLines(fs, files)
    ensures Length(Concat(parts)) == InputSize(fs, files)
    decreases |files|
  {
    if files != [] {
      var n := |files| - 1;
      assert Tiles(fs, files[..n], parts[..n]);
      TilesLines(fs, files[..n], parts[..n]);
      Snoc(parts);
      ConcatOne(parts[..n], parts[n]);
      LastFileLines(fs, files[n], parts[n]);
      RangesOneMore(fs, Concat(parts[..n]), parts[n]);
    }
  }

  lemma RangesOneMore(fs: Files, ranges: seq<Range>, part: seq<Range>)
    requires Readable(ranges) && Readable(part)
    ensures Readable(ranges + part) && RangeLines(fs, ranges + part) == RangeLines(fs, ranges) + RangeLines(fs, part)
    ensures Length(ranges + part) == Length(ranges) + Length(part)
  {
    RangeLinesConcat(fs, ranges, part);
    LengthConcat(ranges, part);
  }

  lemma LastFileLines(fs: Files, f: string, part: seq<Range>)
    requires f in fs && Covers(fs, f, part, |fs[f]|)
    ensures Readable(part) && RangeLines(fs, part) == Lines(fs[f]) && Length(part) == |fs[f]|
  {
    CoversLines(fs, f, part, |fs[f]|);
    CoversLength(fs, f, part, |fs[f]|);
    assert fs[f][..|fs[f]|] == fs[f];
  }

  function AllRanges(shards: seq<FileShard>): seq<Range> {
    if shards == [] then [] else AllRanges(shards[..|shards| - 1]) + shards[|shards| - 1].ranges
  }

  lemma AllRangesPush(shards: seq<FileShard>, s: FileShard)
    ensures AllRanges(shards + [s]) == AllRanges(shards) + s.ranges
  {
    assert (shards + [s])[..|shards|] == shards;
  }

  // ---- size and number of shards

  /** From every position the end of the line comes within `l` bytes. */
  ghost predicate RecordsWithin(t: string, l: nat) {
    forall pos :: 0 <= pos < |t| ==> FirstIndex(t[pos..], '\n') < l
  }

  lemma IndexInRecord(line: string, rest: string, pos: nat)
    requires '\n' !in line && pos <= |line|
    ensures FirstIndex((line + "\n" + rest)[pos..], '\n') == |line| - pos
  {
    var t := (line + "\n" + rest)[pos..];
    FirstIndexIs(t, '\n', |line| - pos);
  }

  /** The first record and the rest of the file, each on its own. */
  lemma WithinSplit(line: string, rest: string, l: nat)
    requires '\n' !in line
    ensures RecordsWithin(line + "\n" + rest, l) <==> |line| + 1 <= l && RecordsWithin(rest, l)
  {
    var t := line + "\n" + rest;
    forall pos | |line| < pos < |t| ensures t[pos..] == rest[pos - |line| - 1..] {
      DropFirst(line + "\n", rest, pos);
    }
    IndexInRecord(line, rest, 0);
    if RecordsWithin(t, l) {
      forall pos | 0 <= pos < |rest| ensures FirstIndex(rest[pos..], '\n') < l {
        assert t[pos + |line| + 1..] == rest[pos..];
      }
    }
    if |line| + 1 <= l && RecordsWithin(rest, l) {
      forall pos | 0 <= pos < |t| ensures FirstIndex(t[pos..], '\n') < l {
        if pos <= |line| { IndexInRecord(line, rest, pos); }
      }
    }
  }

  lemma DropFirst<T>(a: seq<T>, b: seq<T>, pos: nat)
    requires |a| <= pos <= |a| + |b|
    ensures (a + b)[pos..] == b[pos - |a|..]
  {
  }

  /** In a newline-terminated file that means: every record, with its newline, has at most `l` bytes. */
  lemma {:induction false} LongestRecord(t: string, l: nat)
    requires Terminated(t)
    ensures RecordsWithin(t, l) <==> forall line :: line in Lines(t) ==> |line| + 1 <= l
    decreases |t|
  {
    if t != [] {
      var line, rest := FirstRecord(t);
      LinesPrint(line, rest);
      LongestRecord(rest, l);
      WithinSplit(line, rest, l);
      InCons(line, Lines(rest));
    }
  }

  /** Every shard holds more than the budget ... */
  ghost predicate Full(shards: seq<FileShard>, budget: int) {
    forall k :: 0 <= k < |shards| ==> Length(shards[k].ranges) > budget
  }

  /** ... and no more than `max` bytes. */
  ghost predicate AllRecordsWithin(fs: Files, files: seq<string>, l: nat) {
    forall f :: f in files && f in fs ==> RecordsWithin(fs[f], l)
  }

  ghost predicate Within(shards: seq<FileShard>, max: int) {
    forall k :: 0 <= k < |shards| ==> Length(shards[k].ranges) <= max
  }

  lemma OneMore(n: int, b: int)
    ensures (n + 1) * b == n * b + b
  {
  }

  lemma {:induction false} FullTotal(shards: seq<FileShard>, budget: nat)
    requires Full(shards, budget)
    ensures Length(AllRanges(shards)) >= |shards| * (budget + 1)
    decreases |shards|
  {
    if shards != [] {
      var n := |shards| - 1;
      FullTotal(shards[..n], budget);
      LengthConcat(AllRanges(shards[..n]), shards[n].ranges);
      OneMore(n, budget + 1);
      assert Length(shards[n].ranges) > budget;
    }
  }

  // ---- when sharding succeeds

  datatype Budget = Exact | Left(bytes: int)

  /**
   The budget that is left after the rest of a file, from `offset`, has been cut; Exact when a rest
   is exactly as long as the budget: then get_split looks for a line at the end of the file.
  */
  function Consume(t: string, offset: int, b: int, size: int): Budget
    decreases |t| - offset
  {
    var pos := offset + b;
    if offset >= |t| then Left(b)
    else if pos > |t| then Left(pos - |t|)
    else if pos == |t| || offset < 0 || b < 0 then Exact
    else
      var to := pos + FirstIndex(t[pos..], '\n') + 1;
      if to >= |t| then Left(size) else Consume(t, to, size, size)
  }

  predicate Splittable(fs: Files, files: seq<string>, b: int, size: int) {
    files == [] ||
    (files[0] in fs && Consume(fs[files[0]], 0, b, size).Left? &&
     Splittable(fs, files[1..], Consume(fs[files[0]], 0, b, size).bytes, size))
  }

  /** An input of exactly one shard budget is refused. */
  lemma ExactFitFails(content: string, kilobytes: int)
    requires kilobytes > 0 && |content| == kilobytes * 1024
    ensures !Splittable(map["in" := content], ["in"], kilobytes * 1024, kilobytes * 1024)
  {
    assert content != [];
  }

  /** A split of a newline-terminated file ends just after a newline, inside the file. */
  lemma SplitEnds(t: string, pos: nat)
    requires pos < |t| && Terminated(t)
    ensures pos + FirstIndex(t[pos..], '\n') < |t| && t[pos + FirstIndex(t[pos..], '\n')] == '\n'
  {
    assert t[pos..][|t| - pos - 1] == '\n';
  }

  // ---- the program

  // The variables of shard_files that live across files: the finished shards, the shard being
  // filled, and what is left of its budget.
  datatype Cutting = Cutting(fileShards: seq<FileShard>, shard: FileShard, remain: int)

  /** Everything cut so far, in order. */
  function Cut(c: Cutting): seq<Range> {
    AllRanges(c.fileShards) + c.shard.ranges
  }

  /** The finished shards exceed the budget; the open one is below it by what remains. */
  ghost predicate Accounted(c: Cutting, size: int) {
    && Full(c.fileShards, size)
    && Length(c.shard.ranges) == size - c.remain
    && 0 < c.remain <= size
    && (c.shard.ranges == [] <==> c.remain == size)
  }

  /** Where the inner loop stands: `part` is what it has cut of file `f`, up to `offset`. */
  ghost predicate CutInv(fs: Files, f: string, size: int, c0: Cutting, c: Cutting, part: seq<Range>, offset: int) {
    && f in fs
    && Accounted(c, size)
    && Cut(c) == Cut(c0) + part
    && (Terminated(fs[f]) ==> 0 <= offset <= |fs[f]| && Covers(fs, f, part, offset))
    && GrownWithin(fs[f], size, c0, c)
  }

  /** No finished shard exceeds the budget by more than a record. */
  ghost predicate GrownWithin(t: string, size: int, c0: Cutting, c: Cutting) {
    forall l: nat :: RecordsWithin(t, l) && Within(c0.fileShards, size + l) ==> Within(c.fileShards, size + l)
  }

  /** What is still to be consumed of the file gives the outcome that the whole file gives. */
  ghost predicate ConsumeInv(t: string, size: int, c0: Cutting, c: Cutting, offset: int) {
    && 0 <= offset
    && if offset < |t| then Consume(t, offset, c.remain, size) == Consume(t, 0, c0.remain, size)
       else Consume(t, 0, c0.remain, size) == Left(c.remain)
  }

  function TakeRest(c: Cutting, r: Range): Cutting {
    Cutting(c.fileShards, FileShard(c.shard.ranges + [r]), c.remain - (r.end - r.start))
  }

  function TakeSplit(c: Cutting, r: Range, size: int): Cutting {
    Cutting(c.fileShards + [FileShard(c.shard.ranges + [r])], FileShard([]), size)
  }

  lemma PushedLength(rs: seq<Range>, r: Range)
    ensures Length(rs + [r]) == Length(rs) + r.end - r.start
  {
    assert (rs + [r])[..|rs|] == rs;
  }

  lemma PushedCovers(fs: Files, f: string, rs: seq<Range>, from: nat, to: nat)
    requires Covers(fs, f, rs, from) && from < to <= |fs[f]| && fs[f][to - 1] == '\n'
    ensures Covers(fs, f, rs + [Range(f, from, to)], to)
  {
    assert (rs + [Range(f, from, to)])[..|rs|] == rs;
  }

  lemma TakeRestConsume(t: string, size: int, c0: Cutting, c: Cutting, r: Range)
    requires ConsumeInv(t, size, c0, c, r.start) && r.start < r.end == |t| && c.remain > |t| - r.start
    ensures ConsumeInv(t, size, c0, TakeRest(c, r), r.end)
  {
  }

  lemma TakeSplitConsume(t: string, size: int, c0: Cutting, c: Cutting, r: Range)
    requires ConsumeInv(t, size, c0, c, r.start) && 0 <= c.remain && r.start + c.remain < |t|
    requires r.end == r.start + c.remain + FirstIndex(t[r.start + c.remain..], '\n') + 1
    ensures ConsumeInv(t, size, c0, TakeSplit(c, r, size), r.end)
  {
  }

  lemma TakeRestInv(fs: Files, f: string, size: int, c0: Cutting, c: Cutting, part: seq<Range>, r: Range)
    requires CutInv(fs, f, size, c0, c, part, r.start)
    requires r.file == f && 0 <= r.start < r.end == |fs[f]| && c.remain > r.end - r.start
    ensures CutInv(fs, f, size, c0, TakeRest(c, r), part + [r], r.end)
  {
    PushedLength(c.shard.ranges, r);
    Assoc(AllRanges(c.fileShards), c.shard.ranges, [r]);
    Assoc(Cut(c0), part, [r]);
    if Terminated(fs[f]) {
      PushedCovers(fs, f, part, r.start, r.end);
    }
  }

  lemma TakeSplitInv(fs: Files, f: string, size: int, c0: Cutting, c: Cutting, part: seq<Range>, r: Range)
    requires size > 0 && CutInv(fs, f, size, c0, c, part, r.start)
    requires r.file == f && 0 <= r.start && r.start + c.remain < |fs[f]|
    requires r.end == r.start + GetSplit(fs, f, r.start, c.remain)
    ensures CutInv(fs, f, size, c0, TakeSplit(c, r, size), part + [r], r.end)
  {
    var pos := r.start + c.remain;
    var closed := FileShard(c.shard.ranges + [r]);
    PushedLength(c.shard.ranges, r);
    AllRangesPush(c.fileShards, closed);
    Assoc(AllRanges(c.fileShards), c.shard.ranges, [r]);
    Assoc(Cut(c0), part, [r]);
    assert AllRanges(c.fileShards + [closed]) + [] == AllRanges(c.fileShards + [closed]);
    if Terminated(fs[f]) {
      SplitEnds(fs[f], pos);
      PushedCovers(fs, f, part, r.start, r.end);
    }
    forall l: nat | RecordsWithin(fs[f], l) && Within(c0.fileShards, size + l)
      ensures Within(c.fileShards + [closed], size + l)
    {
      assert FirstIndex(fs[f][pos..], '\n') < l;
    }
  }

  /** Lines 55-75: cut one file. */
  method ShardFile(fs: Files, f: string, size: int, c0: Cutting) returns (ok: bool, c: Cutting, ghost part: seq<Range>)
    requires size > 0 && f in fs && Accounted(c0, size)
    ensures ok <==> Consume(fs[f], 0, c0.remain, size).Left?
    ensures ok ==> c.remain == Consume(fs[f], 0, c0.remain, size).bytes
    ensures ok ==> exists offset ::
      (Terminated(fs[f]) ==> offset == |fs[f]|) && CutInv(fs, f, size, c0, c, part, offset)
  {
    c, part := c0, [];
    var fileSize, fileOffset := |fs[f]|, 0;
    assert Cut(c0) + [] == Cut(c0);
    while fileSize > 0
      invariant fileSize == |fs[f]| - fileOffset
      invariant ConsumeInv(fs[f], size, c0, c, fileOffset)
      invariant CutInv(fs, f, size, c0, c, part, fileOffset)
    {
      if c.remain > fileSize {
        var r := Range(f, fileOffset, fileOffset + fileSize);
        TakeRestInv(fs, f, size, c0, c, part, r);
        TakeRestConsume(fs[f], size, c0, c, r);
        c, part := TakeRest(c, r), part + [r];
        fileOffset, fileSize := r.end, 0;
      } else {
        var splitSize := GetSplit(fs, f, fileOffset, c.remain);
        if splitSize == -1 {
          return false, c, part;
        }
        var r := Range(f, fileOffset, fileOffset + splitSize);
        TakeSplitInv(fs, f, size, c0, c, part, r);
        TakeSplitConsume(fs[f], size, c0, c, r);
        c, part := TakeSplit(c, r, size), part + [r];
        fileOffset, fileSize := r.end, fileSize - splitSize;
      }
    }
    ok := true;
  }

  /** Lines 77-79: the last shard is kept if it holds anything. */
  function Finished(c: Cutting): seq<FileShard> {
    if |c.shard.ranges| > 0 then c.fileShards + [c.shard] else c.fileShards
  }

  /**
   Every shard but the last exceeds the budget, none is empty, and there are at most
   ceil(total / budget) of them.
  */
  ghost predicate WellSized(shards: seq<FileShard>, budget: int) {
    && (forall k :: 0 <= k < |shards| - 1 ==> Length(shards[k].ranges) > budget)
    && (forall k :: 0 <= k < |shards| ==> Length(shards[k].ranges) > 0)
    && (|shards| > 0 ==> (|shards| - 1) * budget < Length(AllRanges(shards)))
  }

  lemma FinishedClosed(c: Cutting, size: int)
    requires size > 0 && Accounted(c, size) && c.shard.ranges == []
    ensures AllRanges(Finished(c)) == Cut(c) && WellSized(Finished(c), size)
  {
    FullTotal(c.fileShards, size);
    assert Cut(c) == AllRanges(c.fileShards);
    OneMore(|c.fileShards|, size);
    OneMore(|c.fileShards| - 1, size);
  }

  lemma FinishedOpen(c: Cutting, size: int)
    requires size > 0 && Accounted(c, size) && c.shard.ranges != []
    ensures AllRanges(Finished(c)) == Cut(c) && WellSized(Finished(c), size)
  {
    FullTotal(c.fileShards, size);
    LengthConcat(AllRanges(c.fileShards), c.shard.ranges);
    AllRangesPush(c.fileShards, c.shard);
    TimesMore(|c.fileShards|, size);
  }

  lemma TimesMore(n: int, b: int)
    ensures n * (b + 1) == n * b + n
  {
  }

  lemma FinishedSizes(c: Cutting, size: int)
    requires size > 0 && Accounted(c, size)
    ensures AllRanges(Finished(c)) == Cut(c) && WellSized(Finished(c), size)
  {
    if c.shard.ranges == [] { FinishedClosed(c, size); } else { FinishedOpen(c, size); }
  }

  lemma FinishedWithin(c: Cutting, size: int, l: nat)
    requires size > 0 && Accounted(c, size) && Within(c.fileShards, size + l)
    ensures Within(Finished(c), size + l)
  {
  }

  /** The budget is divided over the files in turn. */
  lemma SplittableStep(fs: Files, files: seq<string>, i: nat, b: int, size: int)
    requires i < |files|
    ensures Splittable(fs, files[i..], b, size) <==>
      (files[i] in fs && Consume(fs[files[i]], 0, b, size).Left? &&
       Splittable(fs, files[i + 1..], Consume(fs[files[i]], 0, b, size).bytes, size))
  {
    SliceSlice(files, i, 1);
    assert files[i..][0] == files[i];
  }

  lemma TilesStep(fs: Files, files: seq<string>, i: nat, parts: seq<seq<Range>>, part: seq<Range>)
    requires i < |files| && Tiles(fs, files[..i], parts)
    requires files[i] in fs && Covers(fs, files[i], part, |fs[files[i]]|)
    ensures Tiles(fs, files[..i + 1], parts + [part])
  {
    forall j | 0 <= j < i + 1
      ensures files[..i + 1][j] in fs && Covers(fs, files[..i + 1][j], (parts + [part])[j], |fs[files[..i + 1][j]]|)
    {
      if j < i { assert files[..i][j] == files[j]; }
    }
  }

  /** shard_files; `parts` names, file by file, what was cut. */
  method ShardFiles(fs: Files, files: seq<string>, mapKilobytes: int)
    returns (ok: bool, fileShards: seq<FileShard>, ghost parts: seq<seq<Range>>)
    requires mapKilobytes > 0
    ensures ok <==> Splittable(fs, files, mapKilobytes * 1024, mapKilobytes * 1024)
    ensures ok ==> AllRanges(fileShards) == Concat(parts)
    ensures ok && AllTerminated(fs, files) ==> Tiles(fs, files, parts)
    ensures ok ==> WellSized(fileShards, mapKilobytes * 1024)
    ensures ok ==> forall l: nat :: AllRecordsWithin(fs, files, l) ==> Within(fileShards, mapKilobytes * 1024 + l)
  {
    var size := mapKilobytes * 1024;
    var c := Cutting([], FileShard([]), size);
    fileShards, parts := [], [];
    assert files[0..] == files;
    for i := 0 to |files|
      invariant Splittable(fs, files[i..], c.remain, size) == Splittable(fs, files, size, size)
      invariant Accounted(c, size)
      invariant Cut(c) == Concat(parts)
      invariant AllTerminated(fs, files) ==> Tiles(fs, files[..i], parts)
      invariant forall l: nat :: AllRecordsWithin(fs, files, l) ==> Within(c.fileShards, size + l)
    {
      SplittableStep(fs, files, i, c.remain, size);
      if files[i] !in fs {
        return false, c.fileShards, parts;
      }
      var c0 := c;
      var cut: bool;
      ghost var part: seq<Range>;
      cut, c, part := ShardFile(fs, files[i], size, c);
      if !cut {
        return false, c.fileShards, parts;
      }
      if AllTerminated(fs, files) {
        TilesStep(fs, files, i, parts, part);
      }
      ConcatOne(parts, part);
      parts := parts + [part];
    }
    assert files[..|files|] == files;
    FinishedSizes(c, size);
    forall l: nat | AllRecordsWithin(fs, files, l) ensures Within(Finished(c), size + l) { FinishedWithin(c, size, l); }
    return true, Finished(c), parts;
  }
}
