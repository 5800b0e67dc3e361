/** The reduce side of a worker (handle_reduce_job in project4/src/worker_request.cc). */
module ReduceTask {
  import opened Sequences
  import opened Text
  import opened Pairs

  /** The values of a key, in the order of the pairs. */
  function ValuesOf(ps: seq<Pair>, key: string): seq<string> {
    if ps == [] then [] else
    var last := ps[|ps| - 1];
    ValuesOf(ps[..|ps| - 1], key) + if last.0 == key then [last.1] else []
  }

  lemma {:induction false} ValuesOfConcat(a: seq<Pair>, b: seq<Pair>, key: string)
    ensures ValuesOf(a + b, key) == ValuesOf(a, key) + ValuesOf(b, key)
    decreases |b|
  {
    if b == [] {
      assert a + b == a;
    } else {
      var b', p := b[..|b| - 1], b[|b| - 1];
      assert (a + b)[..|a + b| - 1] == a + b';
      ValuesOfConcat(a, b', key);
      Assoc(ValuesOf(a, key), ValuesOf(b', key), if p.0 == key then [p.1] else []);
    }
  }

  /** A key keeps all its values in its own partition and has none in any other. */
  lemma {:induction false} ValuesOfPart(ps: seq<Pair>, key: string, hash: string -> nat, n: nat, i: nat)
    requires n > 0
    ensures ValuesOf(Part(ps, hash, n, i), key) == if hash(key) % n == i then ValuesOf(ps, key) else []
  {
    if ps != [] {
      var ps', p := ps[..|ps| - 1], ps[|ps| - 1];
      ValuesOfPart(ps', key, hash, n, i);
      ValuesOfConcat(Part(ps', hash, n, i), if hash(p.0) % n == i then [p] else [], key);
      ValuesOfOne(p, key);
      assert Part(ps', hash, n, i) + [] == Part(ps', hash, n, i);
    }
  }

  lemma ValuesOfOne(p: Pair, key: string)
    ensures ValuesOf([p], key) == if p.0 == key then [p.1] else []
  {
    assert [p][..0] == [];
  }

  /** word2values after the pairs `ps`. */
  ghost predicate Groups(m: map<string, seq<string>>, ps: seq<Pair>) {
    && (forall key :: key in m ==> ValuesOf(ps, key) == m[key] != [])
    && (forall key :: key !in m ==> ValuesOf(ps, key) == [])
  }

  lemma GroupsStep(m: map<string, seq<string>>, ps: seq<Pair>, p: Pair)
    requires Groups(m, ps)
    ensures Groups(m[p.0 := (if p.0 in m then m[p.0] else []) + [p.1]], ps + [p])
  {
    forall key ensures ValuesOf(ps + [p], key) == ValuesOf(ps, key) + if p.0 == key then [p.1] else [] {
      ValuesOfConcat(ps, [p], key);
      ValuesOfOne(p, key);
    }
    assert forall key :: ValuesOf(ps, key) + [] == ValuesOf(ps, key);
  }

  /** The lines of the files that could be opened; the others are skipped. */
  function FileLines(files: seq<Option<string>>): seq<string> {
    if files == [] then [] else
    var last := files[|files| - 1];
    FileLines(files[..|files| - 1]) + if last.Some? then Lines(last.value) else []
  }

  lemma {:induction false} ParsePrefix(a: seq<string>, b: seq<string>)
    requires ParseLines(a).None?
    ensures ParseLines(a + b).None?
    decreases |a|
  {
    assert a != [];
    assert (a + b)[1..] == a[1..] + b && (a + b)[0] == a[0];
    if ParseLine(a[0]).Some? {
      ParsePrefix(a[1..], b);
    }
  }

  lemma ParseSnoc(a: seq<string>, line: string)
    requires ParseLines(a).Some?
    ensures ParseLines(a + [line]) ==
      if ParseLine(line).Some? then Some(ParseLines(a).value + [ParseLine(line).value]) else None
  {
    assert [line][1..] == [];
    if ParseLine(line).Some? {
      assert [ParseLine(line).value] + [] == [ParseLine(line).value];
      ParseLinesConcat(a, [line]);
    } else {
      ParseBadLast(a, line);
    }
  }

  lemma {:induction false} ParseBadLast(a: seq<string>, line: string)
    requires ParseLine(line).None?
    ensures ParseLines(a + [line]).None?
    decreases |a|
  {
    if a != [] {
      assert (a + [line])[1..] == a[1..] + [line];
      ParseBadLast(a[1..], line);
    }
  }

  /** Lines 133-142: add the pairs of one file; an unparsable line ends the worker. */
  method AddFile(m0: map<string, seq<string>>, text: string, ghost before: seq<string>)
    returns (m: map<string, seq<string>>, ok: bool)
    requires ParseLines(before).Some? && Groups(m0, ParseLines(before).value)
    ensures ok <==> ParseLines(before + Lines(text)).Some?
    ensures ok ==> Groups(m, ParseLines(before + Lines(text)).value)
  {
    m := m0;
    var lines := ReadLines(text);
    assert before + lines[..0] == before;
    for k := 0 to |lines|
      invariant ParseLines(before + lines[..k]).Some?
      invariant Groups(m, ParseLines(before + lines[..k]).value)
    {
      var parsed := ParseLine(lines[k]);
      TakeMore(before, lines, k);
      ParseSnoc(before + lines[..k], lines[k]);
      if parsed.None? {
        ParsePrefix(before + lines[..k + 1], lines[k + 1..]);
        return m, false;
      }
      var key, value := parsed.value.0, parsed.value.1;
      GroupsStep(m, ParseLines(before + lines[..k]).value, parsed.value);
      m := m[key := (if key in m then m[key] else []) + [value]];
    }
    assert lines[..|lines|] == lines;
    ok := true;
  }

  /** Lines 124-144: read and group all files. */
  method GroupFiles(files: seq<Option<string>>) returns (m: map<string, seq<string>>, ok: bool)
    ensures ok <==> ParseLines(FileLines(files)).Some?
    ensures ok ==> Groups(m, ParseLines(FileLines(files)).value)
  {
    m := map[];
    for k := 0 to |files|
      invariant ParseLines(FileLines(files[..k])).Some?
      invariant Groups(m, ParseLines(FileLines(files[..k])).value)
    {
      assert files[..k + 1][..k] == files[..k];
      assert FileLines(files[..k]) + [] == FileLines(files[..k]);
      if files[k].Some? {
        m, ok := AddFile(m, files[k].value, FileLines(files[..k]));
        if !ok {
          FailedFile(files, k);
          return m, false;
        }
      }
    }
    assert files[..|files|] == files;
    ok := true;
  }

  lemma {:induction false} FailedFile(files: seq<Option<string>>, k: nat)
    requires k < |files| && ParseLines(FileLines(files[..k + 1])).None?
    ensures ParseLines(FileLines(files)).None?
    decreases |files| - k
  {
    if k + 1 == |files| {
      assert files[..k + 1] == files;
    } else {
      assert files[..k + 2][..k + 1] == files[..k + 1];
      ParsePrefix(FileLines(files[..k + 1]), if files[k + 1].Some? then Lines(files[k + 1].value) else []);
      FailedFile(files, k + 1);
    }
  }

  // ---- the order of std::map

  predicate LexLess(a: string, b: string) {
    b != [] && (a == [] || a[0] < b[0] || (a[0] == b[0] && LexLess(a[1..], b[1..])))
  }

  lemma {:induction false} LexTotal(a: string, b: string)
    ensures a == b || LexLess(a, b) || LexLess(b, a)
    decreases |a|
  {
    if a != [] && b != [] && a[0] == b[0] {
      LexTotal(a[1..], b[1..]);
      if a[1..] == b[1..] {
        assert a == [a[0]] + a[1..] && b == [b[0]] + b[1..];
      }
    }
  }

  lemma {:induction false} LexTransitive(a: string, b: string, c: string)
    requires LexLess(a, b) && LexLess(b, c)
    ensures LexLess(a, c)
    decreases |a|
  {
    if a != [] && a[0] == b[0] == c[0] {
      LexTransitive(a[1..], b[1..], c[1..]);
    }
  }

  /** `a` and `b` agree before `k` and differ there. */
  predicate LessAt(a: string, b: string, k: nat) {
    k < |a| && k < |b| && a[..k] == b[..k] && a[k] < b[k]
  }

  /** `a` comes before `b` as std::string compares them: at the first difference, or because it is the shorter one. */
  ghost predicate Before(a: string, b: string) {
    || (|a| < |b| && a == b[..|a|])
    || exists k: nat :: LessAt(a, b, k)
  }

  lemma TailPrefix(a: string, k: nat)
    requires k < |a|
    ensures a[..k + 1] == [a[0]] + a[1..][..k] && a[1..][..k] == a[..k + 1][1..]
  {
  }

  lemma LessAtTail(a: string, b: string, k: nat)
    requires a != [] && b != [] && a[0] == b[0] && k + 1 < |a| && k + 1 < |b|
    ensures LessAt(a, b, k + 1) <==> LessAt(a[1..], b[1..], k)
  {
    TailPrefix(a, k);
    TailPrefix(b, k);
  }

  lemma ShorterTail(a: string, b: string)
    requires a != [] && b != [] && a[0] == b[0] && |a| < |b|
    ensures a == b[..|a|] <==> a[1..] == b[1..][..|a| - 1]
  {
    TailPrefix(b, |a| - 1);
    assert a == [a[0]] + a[1..];
  }

  lemma BeforeTail(a: string, b: string)
    requires a != [] && b != [] && a[0] == b[0]
    ensures Before(a, b) <==> Before(a[1..], b[1..])
  {
    if |a| < |b| { ShorterTail(a, b); }
    forall k: nat | LessAt(a, b, k) ensures k > 0 && LessAt(a[1..], b[1..], k - 1) {
      LessAtTail(a, b, k - 1);
    }
    forall k: nat | LessAt(a[1..], b[1..], k) ensures LessAt(a, b, k + 1) {
      LessAtTail(a, b, k);
    }
  }

  lemma HeadsDiffer(a: string, b: string)
    requires a != [] && b != [] && a[0] != b[0]
    ensures Before(a, b) <==> a[0] < b[0]
  {
    assert a[0] < b[0] ==> LessAt(a, b, 0);
    assert forall k :: 0 < k <= |a| ==> a[..k][0] == a[0];
    assert forall k :: 0 < k <= |b| ==> b[..k][0] == b[0];
    assert a[..0] == b[..0];
    assert a[..|a|] == a;
  }

  lemma {:induction false} LexLessIff(a: string, b: string)
    ensures LexLess(a, b) <==> Before(a, b)
    decreases |a|
  {
    if a != [] && b != [] && a[0] == b[0] {
      BeforeTail(a, b);
      LexLessIff(a[1..], b[1..]);
    } else if a != [] && b != [] {
      HeadsDiffer(a, b);
    } else if a == [] && b != [] {
      assert b[..0] == [];
    }
  }

  ghost predicate IsLeast(key: string, keys: set<string>) {
    key in keys && forall other :: other in keys && other != key ==> LexLess(key, other)
  }

  lemma {:induction false} LeastExists(keys: set<string>) returns (least: string)
    requires keys != {}
    ensures IsLeast(least, keys)
    decreases |keys|
  {
    least :| least in keys;
    var rest := keys - {least};
    if rest != {} {
      var other := LeastExists(rest);
      LexTotal(least, other);
      forall k | k in rest && LexLess(least, other) ensures LexLess(least, k) {
        if k != other { LexTransitive(least, other, k); }
      }
      if !LexLess(least, other) {
        least := other;
      }
    }
  }

  ghost predicate Ascending(keys: seq<string>) {
    forall i, j :: 0 <= i < j < |keys| ==> Before(keys[i], keys[j])
  }

  // The pairs that the user's reducer emits for a key and its values.
  type Reducer = (string, seq<string>) -> seq<Pair>

  /** BaseReducerInternal::emit */
  function EmitText(ps: seq<Pair>): string {
    if ps == [] then "" else
    var last := ps[|ps| - 1];
    EmitText(ps[..|ps| - 1]) + (last.0 + " " + last.1 + "\n")
  }

  lemma EmitOne(p: Pair)
    ensures EmitText([p]) == p.0 + " " + p.1 + "\n"
  {
    assert [p][..0] == [];
    Empty(p.0 + " " + p.1 + "\n");
  }

  lemma {:induction false} EmitConcat(a: seq<Pair>, b: seq<Pair>)
    ensures EmitText(a + b) == EmitText(a) + EmitText(b)
    decreases |b|
  {
    if b == [] {
      EmptyRight(a);
      EmptyRight(EmitText(a));
    } else {
      ConcatInit(a, b);
      EmitConcat(a, b[..|b| - 1]);
      var last := b[|b| - 1];
      Assoc(EmitText(a), EmitText(b[..|b| - 1]), last.0 + " " + last.1 + "\n");
    }
  }

  /** What the reducer writes when it is called for `keys` in turn. */
  function ReduceText(reducer: Reducer, keys: seq<string>, ps: seq<Pair>): string {
    if keys == [] then "" else
    var key := keys[|keys| - 1];
    ReduceText(reducer, keys[..|keys| - 1], ps) + EmitText(reducer(key, ValuesOf(ps, key)))
  }

  /** `keys` are exactly the keys of `ps`, in ascending order. */
  ghost predicate KeysInOrder(keys: seq<string>, ps: seq<Pair>) {
    Ascending(keys) && forall key :: key in keys <==> ValuesOf(ps, key) != []
  }

  lemma AppendLarger(keys: seq<string>, key: string)
    requires Ascending(keys) && forall k :: k in keys ==> LexLess(k, key)
    ensures Ascending(keys + [key])
  {
    forall k | k in keys ensures Before(k, key) { LexLessIff(k, key); }
  }

  /** An in-order iteration over `all` that has visited `keys` and has `rest` to go. */
  ghost predicate Iterated(all: set<string>, rest: set<string>, keys: seq<string>) {
    && rest <= all
    && Ascending(keys)
    && (forall k :: k in keys <==> k in all && k !in rest)
    && (forall k, r :: k in keys && r in rest ==> LexLess(k, r))
  }

  lemma IterateStep(all: set<string>, rest: set<string>, keys: seq<string>, key: string)
    requires Iterated(all, rest, keys) && IsLeast(key, rest)
    ensures Iterated(all, rest - {key}, keys + [key])
  {
    AppendLarger(keys, key);
  }

  lemma ReduceTextSnoc(output0: string, reducer: Reducer, keys: seq<string>, key: string, ps: seq<Pair>)
    ensures output0 + ReduceText(reducer, keys + [key], ps) ==
      output0 + ReduceText(reducer, keys, ps) + EmitText(reducer(key, ValuesOf(ps, key)))
  {
    assert (keys + [key])[..|keys|] == keys;
    Assoc(output0, ReduceText(reducer, keys, ps), EmitText(reducer(key, ValuesOf(ps, key))));
  }

  /** Lines 146-148: the iteration over word2values. */
  method ReduceAll(m: map<string, seq<string>>, reducer: Reducer, output0: string, ghost ps: seq<Pair>)
    returns (output: string, ghost keys: seq<string>)
    requires Groups(m, ps)
    ensures KeysInOrder(keys, ps) && output == output0 + ReduceText(reducer, keys, ps)
  {
    output, keys := output0, [];
    EmptyRight(output0);
    var rest := m.Keys;
    while rest != {}
      invariant Iterated(m.Keys, rest, keys)
      invariant output == output0 + ReduceText(reducer, keys, ps)
      decreases |rest|
    {
      ghost var least := LeastExists(rest);
      var key :| key in rest && forall other :: other in rest && other != key ==> LexLess(key, other);
      IterateStep(m.Keys, rest, keys, key);
      ReduceTextSnoc(output0, reducer, keys, key, ps);
      output := output + EmitText(reducer(key, m[key]));
      keys := keys + [key];
      rest := rest - {key};
    }
  }

  /**
   handle_reduce_job: every key of the parsed pairs is reduced once, with all its values in file
   order, in ascending key order; the output is appended to what the output file held.
  */
  method HandleReduceJob(files: seq<Option<string>>, reducer: Reducer, output0: string)
    returns (output: string, ok: bool, ghost keys: seq<string>)
    ensures ok <==> ParseLines(FileLines(files)).Some?
    ensures ok ==> var ps := ParseLines(FileLines(files)).value;
      KeysInOrder(keys, ps) && output == output0 + ReduceText(reducer, keys, ps)
  {
    output, keys := output0, [];
    var m: map<string, seq<string>>;
    m, ok := GroupFiles(files);
    if ok {
      output, keys := ReduceAll(m, reducer, output0, ParseLines(FileLines(files)).value);
    }
  }
}
