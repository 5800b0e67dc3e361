/** Which inputs shard_files accepts, in terms of their text (project4/src/file_shard.h:45-92). */
module SplitPoints {
  import opened Sequences
  import opened Text
  import opened Sharding

  /** The contents of the files; a missing file counts as empty here. */
  function Texts(fs: Files, files: seq<string>): (texts: seq<string>)
    ensures |texts| == |files|
  {
    seq(|files|, i requires 0 <= i < |files| => if files[i] in fs then fs[files[i]] else "")
  }

  ghost predicate Present(fs: Files, files: seq<string>) {
    forall i :: 0 <= i < |files| ==> files[i] in fs
  }

  /** Where file `i` starts when the files are put one after the other. */
  function StartOf(texts: seq<string>, i: nat): nat
    requires i <= |texts|
  {
    if i == 0 then 0 else StartOf(texts, i - 1) + |texts[i - 1]|
  }

  function Joined(texts: seq<string>): string {
    if texts == [] then "" else Joined(texts[..|texts| - 1]) + texts[|texts| - 1]
  }

  /** A file that is not empty ends at `e`. */
  ghost predicate EndsAt(texts: seq<string>, e: int) {
    exists i :: 0 <= i < |texts| && IsEnd(texts, i, e)
  }

  ghost function Ends(texts: seq<string>): int -> bool {
    (e: int) => EndsAt(texts, e)
  }

  predicate IsEnd(texts: seq<string>, i: nat, e: int)
    requires i < |texts|
  {
    texts[i] != [] && e == StartOf(texts, i + 1)
  }

  /** Where the shard is closed that starts at `q`: after the line that the budget reaches into. */
  function NextClose(t: string, q: nat, size: nat): (c: nat)
    requires q + size < |t|
    ensures q + size < c <= |t| + 1
  {
    q + size + FirstIndex(t[q + size..], '\n') + 1
  }

  /** A shard is closed at `x`, if one is closed at `q`; 0 counts as the first such place. */
  predicate ClosesAt(t: string, q: nat, size: nat, x: nat)
    requires size > 0
    decreases |t| + 1 - q
  {
    x == q || (q + size < |t| && ClosesAt(t, NextClose(t, q, size), size, x))
  }

  /** From `q` on, some closing is one budget before an end. */
  predicate Hits(ends: int -> bool, t: string, q: nat, size: nat)
    requires size > 0
    decreases |t| + 1 - q
  {
    ends(q + size) || (q + size < |t| && Hits(ends, t, NextClose(t, q, size), size))
  }

  lemma {:induction false} HitFound(ends: int -> bool, t: string, q: nat, size: nat) returns (x: nat)
    requires size > 0 && Hits(ends, t, q, size)
    ensures ClosesAt(t, q, size, x) && ends(x + size)
    decreases |t| + 1 - q
  {
    x := q;
    if !ends(q + size) { x := HitFound(ends, t, NextClose(t, q, size), size); }
  }

  lemma {:induction false} FoundHits(ends: int -> bool, t: string, q: nat, size: nat, x: nat)
    requires size > 0 && ClosesAt(t, q, size, x) && ends(x + size)
    ensures Hits(ends, t, q, size)
    decreases |t| + 1 - q
  {
    if x != q { FoundHits(ends, t, NextClose(t, q, size), size, x); }
  }

  ghost predicate SomeHit(ends: int -> bool, t: string, size: nat)
    requires size > 0
  {
    exists x: nat :: ClosesAt(t, 0, size, x) && ends(x + size)
  }

  lemma SomeHitIff(ends: int -> bool, t: string, size: nat)
    requires size > 0
    ensures Hits(ends, t, 0, size) <==> SomeHit(ends, t, size)
  {
    if Hits(ends, t, 0, size) {
      var x := HitFound(ends, t, 0, size);
    }
    if SomeHit(ends, t, size) {
      var x: nat :| ClosesAt(t, 0, size, x) && ends(x + size);
      FoundHits(ends, t, 0, size, x);
    }
  }

  /** All that the following needs to know of `Hits`. */
  ghost predicate HitSpec(hit: nat -> bool, ends: int -> bool, t: string, size: nat) {
    && (forall q: nat :: ends(q + size) ==> hit(q))
    && (forall q: nat :: q + size >= |t| && !ends(q + size) ==> !hit(q))
    && (forall q: nat {:trigger NextClose(t, q, size)} ::
          q + size < |t| && !ends(q + size) ==> (hit(q) <==> hit(NextClose(t, q, size))))
  }

  ghost function HitFrom(ends: int -> bool, t: string, size: nat): nat -> bool
    requires size > 0
  {
    (q: nat) => Hits(ends, t, q, size)
  }

  lemma HitFromSpec(ends: int -> bool, t: string, size: nat)
    requires size > 0
    ensures HitSpec(HitFrom(ends, t, size), ends, t, size)
  {
  }

  // ---- files inside the joined text

  lemma {:induction false} StartWithin(texts: seq<string>, i: nat, n: nat)
    requires i <= n <= |texts|
    ensures StartOf(texts, i) <= StartOf(texts, n)
    decreases n
  {
    if i < n { StartWithin(texts, i, n - 1); }
  }

  lemma {:induction false} StartOfPrefix(texts: seq<string>, i: nat, n: nat)
    requires i <= n <= |texts|
    ensures StartOf(texts[..n], i) == StartOf(texts, i)
    decreases i
  {
    if i > 0 { StartOfPrefix(texts, i - 1, n); }
  }

  lemma {:induction false} JoinedLength(texts: seq<string>)
    ensures |Joined(texts)| == StartOf(texts, |texts|)
    decreases |texts|
  {
    if texts != [] {
      JoinedLength(texts[..|texts| - 1]);
      StartOfPrefix(texts, |texts| - 1, |texts| - 1);
    }
  }

  lemma SliceLeft<T>(a: seq<T>, b: seq<T>, from: nat, to: nat)
    requires from <= to <= |a|
    ensures (a + b)[from..to] == a[from..to]
  {
  }

  lemma SliceRight<T>(a: seq<T>, b: seq<T>)
    ensures (a + b)[|a|..|a| + |b|] == b
  {
  }

  /** File `i` is where it should be in the joined text. */
  lemma {:induction false} FileAt(texts: seq<string>, i: nat)
    requires i < |texts|
    ensures StartOf(texts, i + 1) <= |Joined(texts)|
    ensures Joined(texts)[StartOf(texts, i)..StartOf(texts, i + 1)] == texts[i]
    decreases |texts|
  {
    var before, last := texts[..|texts| - 1], texts[|texts| - 1];
    JoinedLength(texts);
    JoinedLength(before);
    StartWithin(texts, i + 1, |texts|);
    StartOfPrefix(texts, |texts| - 1, |texts| - 1);
    if i == |texts| - 1 {
      SliceRight(Joined(before), last);
    } else {
      FileAt(before, i);
      StartOfPrefix(texts, i, |texts| - 1);
      StartOfPrefix(texts, i + 1, |texts| - 1);
      SliceLeft(Joined(before), last, StartOf(texts, i), StartOf(texts, i + 1));
    }
  }

  /** Strictly inside a file no file ends. */
  lemma InsideIsNoEnd(texts: seq<string>, i: nat, e: int)
    requires i < |texts| && StartOf(texts, i) < e < StartOf(texts, i + 1)
    ensures !EndsAt(texts, e)
  {
    forall j | 0 <= j < |texts| ensures !IsEnd(texts, j, e) {
      if j < i { StartWithin(texts, j + 1, i); } else { StartWithin(texts, i + 1, j + 1); }
    }
  }

  ghost predicate FileIn(text: string, at: nat, t: string) {
    at + |t| <= |text| && forall x :: 0 <= x < |t| ==> text[at + x] == t[x]
  }

  lemma SliceIn(text: string, at: nat, t: string)
    requires at + |t| <= |text| && text[at..at + |t|] == t
    ensures FileIn(text, at, t)
  {
    forall x | 0 <= x < |t| ensures text[at + x] == t[x] { assert text[at..at + |t|][x] == text[at + x]; }
  }

  lemma SameIndex(u: string, v: string, c: char)
    requires FirstIndex(v, c) < |v| <= |u| && forall x :: 0 <= x < |v| ==> u[x] == v[x]
    ensures FirstIndex(u, c) == FirstIndex(v, c)
  {
    var k := FirstIndex(v, c);
    forall x | 0 <= x < k ensures u[x] != c { assert u[x] == v[x]; }
    FirstIndexIs(u, c, k);
  }

  /** In a file that ends in a newline the next line end is that of the file. */
  lemma LineInFile(text: string, at: nat, t: string, pos: nat)
    requires FileIn(text, at, t) && pos < |t| && Terminated(t)
    ensures FirstIndex(text[at + pos..], '\n') == FirstIndex(t[pos..], '\n') < |t| - pos
  {
    SplitEnds(t, pos);
    forall x | 0 <= x < |t[pos..]| ensures text[at + pos..][x] == t[pos..][x] {
      assert text[at + (pos + x)] == t[pos + x];
    }
    SameIndex(text[at + pos..], t[pos..], '\n');
  }

  // ---- what is left of the budget

  /** In the rest of a file, from `offset` on, with the last shard closed at `q`. */
  ghost predicate InFile(text: string, at: nat, t: string, offset: nat, q: nat, size: nat) {
    && size > 0 && FileIn(text, at, t) && Terminated(t)
    && offset <= |t| && q <= at + offset < q + size
  }

  /** Where a shard that is closed in a file ends, seen from the start of the file. */
  function CutEnd(t: string, pos: nat): (to: nat)
    requires pos < |t|
    ensures pos < to
  {
    pos + FirstIndex(t[pos..], '\n') + 1
  }

  lemma CutStep(text: string, at: nat, t: string, offset: nat, q: nat, size: nat)
    requires InFile(text, at, t, offset, q, size) && q + size - at < |t|
    ensures q + size < |text|
    ensures var to := CutEnd(t, q + size - at);
      NextClose(text, q, size) == at + to && to <= |t| && InFile(text, at, t, to, at + to, size)
  {
    LineInFile(text, at, t, q + size - at);
  }

  lemma ConsumeStep(t: string, offset: nat, b: nat, size: nat)
    requires offset + b < |t|
    ensures var to := CutEnd(t, offset + b);
      Consume(t, offset, b, size) == if to >= |t| then Left(size) else Consume(t, to, size, size)
  {
  }

  /** What `c`, the budget left after a file, says about the last closing `q'` in it. */
  ghost predicate Outcome(at: nat, t: string, c: Budget, q': nat, size: nat) {
    match c
    case Exact => t != [] && q' + size == at + |t|
    case Left(b) => q' <= at + |t| < q' + size && b == q' + size - at - |t|
  }

  /** `k` is `Consume` for this file and budget. */
  ghost predicate Consumes(k: (int, int) -> Budget, t: string, size: nat) {
    forall o: int, b: int {:trigger Consume(t, o, b, size)} :: k(o, b) == Consume(t, o, b, size)
  }

  lemma ConsumeRest(k: (int, int) -> Budget, at: nat, t: string, offset: nat, q: nat, size: nat, b: int)
    requires Consumes(k, t, size) && offset <= |t| && q <= at + offset < q + size && q + size - at >= |t|
    requires b == q + size - at - offset
    ensures Outcome(at, t, k(offset, b), q, size)
  {
    assert k(offset, b) == Consume(t, offset, b, size);
  }

  /** One cut inside the file. */
  lemma OneCut(hit: nat -> bool, ends: int -> bool, k: (int, int) -> Budget, text: string, at: nat, t: string,
               offset: nat, q: nat, size: nat, b: int)
    returns (to: nat)
    requires InFile(text, at, t, offset, q, size) && b == q + size - at - offset && q + size - at < |t|
    requires HitSpec(hit, ends, text, size) && Consumes(k, t, size) && forall e :: at < e < at + |t| ==> !ends(e)
    ensures offset < to <= |t| && InFile(text, at, t, to, at + to, size)
    ensures k(offset, b) == if to == |t| then Left(size) else k(to, size)
    ensures hit(q) <==> hit(at + to)
  {
    to := CutEnd(t, q + size - at);
    CutStep(text, at, t, offset, q, size);
    ConsumeStep(t, offset, b, size);
    assert k(offset, b) == Consume(t, offset, b, size) && k(to, size) == Consume(t, to, size, size);
  }

  /**
   Cutting the rest of a file leads to a closing `q'`: it fails if that is a whole budget before the end of the
   file, and no closing on the way is one before any end.
  */
  lemma {:induction false} ConsumeMeans(hit: nat -> bool, ends: int -> bool, k: (int, int) -> Budget, text: string,
                                        at: nat, t: string, offset: nat, q: nat, size: nat, b: int)
    returns (q': nat)
    requires InFile(text, at, t, offset, q, size) && b == q + size - at - offset
    requires HitSpec(hit, ends, text, size) && Consumes(k, t, size) && forall e :: at < e < at + |t| ==> !ends(e)
    ensures Outcome(at, t, k(offset, b), q', size) && (hit(q) <==> hit(q'))
    decreases |t| - offset
  {
    if q + size - at >= |t| {
      ConsumeRest(k, at, t, offset, q, size, b);
      q' := q;
    } else {
      var to := OneCut(hit, ends, k, text, at, t, offset, q, size, b);
      q' := at + to;
      if to < |t| {
        q' := ConsumeMeans(hit, ends, k, text, at, t, to, at + to, size, size);
      }
    }
  }

  lemma SplittableFrom(fs: Files, files: seq<string>, i: nat, b: int, size: int)
    requires i < |files| && files[i] in fs
    ensures Splittable(fs, files[i..], b, size) <==>
      var c := Consume(fs[files[i]], 0, b, size); c.Left? && Splittable(fs, files[i + 1..], c.bytes, size)
  {
    assert files[i..][0] == files[i] && files[i..][1..] == files[i + 1..];
  }

  /** Where file `i` leaves the budget. */
  ghost predicate FileOutcome(texts: seq<string>, i: nat, c: Budget, q: nat, size: nat)
    requires i < |texts|
  {
    match c
    case Exact => Ends(texts)(q + size)
    case Left(b) => q <= StartOf(texts, i + 1) < q + size && b == q + size - StartOf(texts, i + 1)
  }

  lemma OutcomeOfFile(texts: seq<string>, i: nat, c: Budget, q: nat, size: nat)
    requires i < |texts| && Outcome(StartOf(texts, i), texts[i], c, q, size)
    ensures FileOutcome(texts, i, c, q, size)
  {
    if c.Exact? { assert IsEnd(texts, i, q + size); }
  }

  /** One file more. */
  lemma FileMeans(texts: seq<string>, hit: nat -> bool, i: nat, q: nat, size: nat, b: int) returns (q': nat)
    requires i < |texts| && size > 0 && Terminated(texts[i]) && HitSpec(hit, Ends(texts), Joined(texts), size)
    requires q <= StartOf(texts, i) < q + size && b == q + size - StartOf(texts, i)
    ensures FileOutcome(texts, i, Consume(texts[i], 0, b, size), q', size) && (hit(q) <==> hit(q'))
  {
    var at := StartOf(texts, i);
    FileAt(texts, i);
    SliceIn(Joined(texts), at, texts[i]);
    forall e | at < e < at + |texts[i]| ensures !Ends(texts)(e) { InsideIsNoEnd(texts, i, e); }
    var t := texts[i];
    var k := (o: int, b: int) => Consume(t, o, b, size);
    q' := ConsumeMeans(hit, Ends(texts), k, Joined(texts), at, t, 0, q, size, b);
    OutcomeOfFile(texts, i, Consume(texts[i], 0, b, size), q', size);
  }

  lemma {:induction false} SplittableMeans(fs: Files, files: seq<string>, texts: seq<string>, hit: nat -> bool,
                                           i: nat, q: nat, size: nat, b: int)
    requires AllTerminated(fs, files) && Present(fs, files) && i <= |files| && size > 0
    requires texts == Texts(fs, files) && HitSpec(hit, Ends(texts), Joined(texts), size)
    requires q <= StartOf(texts, i) < q + size && b == q + size - StartOf(texts, i)
    ensures Splittable(fs, files[i..], b, size) <==> !hit(q)
    decreases |files| - i
  {
    if i == |files| {
      JoinedLength(texts);
      PastTheEnd(texts, q + size);
    } else {
      SplittableFrom(fs, files, i, b, size);
      var q' := FileMeans(texts, hit, i, q, size, b);
      var c := Consume(texts[i], 0, b, size);
      if c.Left? { SplittableMeans(fs, files, texts, hit, i + 1, q', size, c.bytes); }
    }
  }

  lemma PastTheEnd(texts: seq<string>, e: int)
    requires e > StartOf(texts, |texts|)
    ensures !Ends(texts)(e)
  {
    forall j | 0 <= j < |texts| ensures !IsEnd(texts, j, e) { StartWithin(texts, j + 1, |texts|); }
  }

  lemma {:induction false} MissingFails(fs: Files, files: seq<string>, b: int, size: int)
    requires Splittable(fs, files, b, size)
    ensures Present(fs, files)
    decreases |files|
  {
    if files != [] {
      MissingFails(fs, files[1..], Consume(fs[files[0]], 0, b, size).bytes, size);
      assert forall i :: 1 <= i < |files| ==> files[i] == files[1..][i - 1];
    }
  }

  /**
   For files that end in newlines: sharding succeeds if and only if all files are there and none that is not
   empty ends exactly one budget after a place at which a shard is closed.
  */
  lemma SplittableIff(fs: Files, files: seq<string>, size: nat)
    requires AllTerminated(fs, files) && size > 0
    ensures Splittable(fs, files, size, size) <==>
      Present(fs, files) && !SomeHit(Ends(Texts(fs, files)), Joined(Texts(fs, files)), size)
  {
    var texts := Texts(fs, files);
    var text, ends := Joined(texts), Ends(texts);
    if Present(fs, files) {
      assert files[0..] == files;
      HitFromSpec(ends, text, size);
      SplittableMeans(fs, files, texts, HitFrom(ends, text, size), 0, 0, size, size);
      SomeHitIff(ends, text, size);
    } else if Splittable(fs, files, size, size) {
      MissingFails(fs, files, size, size);
    }
  }

  // ---- a condition that needs no cutting

  lemma {:induction false} ClosedAfterLine(t: string, q: nat, size: nat, x: nat)
    requires size > 0 && Terminated(t) && q <= |t| && ClosesAt(t, q, size, x)
    ensures x == q || (0 < x <= |t| && t[x - 1] == '\n')
    decreases |t| - q
  {
    if x != q {
      SplitEnds(t, q + size);
      ClosedAfterLine(t, NextClose(t, q, size), size, x);
    }
  }

  lemma {:induction false} JoinedTerminated(texts: seq<string>)
    requires forall i :: 0 <= i < |texts| ==> Terminated(texts[i])
    ensures Terminated(Joined(texts))
    decreases |texts|
  {
    if texts != [] { JoinedTerminated(texts[..|texts| - 1]); }
  }

  /** One budget before the end of a file there is neither the start of the input nor a line end. */
  ghost predicate ClearOfEnds(ends: int -> bool, text: string, size: nat) {
    forall e: nat :: ends(e) && size <= e <= |text| ==> e > size && text[e - size - 1] != '\n'
  }

  lemma NoHit(ends: int -> bool, text: string, size: nat, q: nat)
    requires size > 0 && Terminated(text) && ClearOfEnds(ends, text, size) && ClosesAt(text, 0, size, q)
    requires forall e :: e > |text| ==> !ends(e)
    ensures !ends(q + size)
  {
    ClosedAfterLine(text, 0, size, q);
    var e: nat := q + size;
    assert e - size - 1 == q - 1;
  }

  /** Then sharding succeeds, wherever the shards are closed. */
  lemma EnoughToSplit(fs: Files, files: seq<string>, size: nat)
    requires AllTerminated(fs, files) && Present(fs, files) && size > 0
    requires ClearOfEnds(Ends(Texts(fs, files)), Joined(Texts(fs, files)), size)
    ensures Splittable(fs, files, size, size)
  {
    var texts := Texts(fs, files);
    var ends, text := Ends(texts), Joined(texts);
    JoinedTerminated(texts);
    JoinedLength(texts);
    forall e | e > |text| ensures !ends(e) { PastTheEnd(texts, e); }
    if SomeHit(ends, text, size) {
      var q: nat :| ClosesAt(text, 0, size, q) && ends(q + size);
      NoHit(ends, text, size, q);
    }
    SplittableIff(fs, files, size);
  }
}
