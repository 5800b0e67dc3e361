/** Key/value pairs as text: what a mapper prints and what a reducer parses. */
module Pairs {
  import opened Sequences
  import opened Text

  type Pair = (string, string)

  function PrintLine(p: Pair): string { p.0 + ", " + p.1 }

  function PrintAll(ps: seq<Pair>): string {
    if ps == [] then "" else PrintAll(ps[..|ps| - 1]) + (PrintLine(ps[|ps| - 1]) + "\n")
  }

  lemma {:induction false} PrintAllConcat(a: seq<Pair>, b: seq<Pair>)
    ensures PrintAll(a + b) == PrintAll(a) + PrintAll(b)
    decreases |b|
  {
    if b == [] {
      assert a + b == a;
    } else {
      var b', p := b[..|b| - 1], b[|b| - 1];
      assert (a + b)[..|a + b| - 1] == a + b';
      PrintAllConcat(a, b');
      Assoc(PrintAll(a), PrintAll(b'), PrintLine(p) + "\n");
    }
  }

  /** The pairs that belong to partition `i` of `n`, in order. */
  function Part(ps: seq<Pair>, hash: string -> nat, n: nat, i: nat): seq<Pair>
    requires n > 0
  {
    if ps == [] then [] else
    var last := ps[|ps| - 1];
    Part(ps[..|ps| - 1], hash, n, i) + if hash(last.0) % n == i then [last] else []
  }

  lemma {:induction false} PartConcat(a: seq<Pair>, b: seq<Pair>, hash: string -> nat, n: nat, i: nat)
    requires n > 0
    ensures Part(a + b, hash, n, i) == Part(a, hash, n, i) + Part(b, hash, n, i)
    decreases |b|
  {
    if b == [] {
      assert a + b == a;
    } else {
      var b', p := b[..|b| - 1], b[|b| - 1];
      assert (a + b)[..|a + b| - 1] == a + b';
      PartConcat(a, b', hash, n, i);
      Assoc(Part(a, hash, n, i), Part(b', hash, n, i), if hash(p.0) % n == i then [p] else []);
    }
  }

  // ---- parsing

  // None is the exception that substr throws for a position past the end.
  datatype Option<T> = None | Some(value: T)

  /** worker_request.cc:135-137; without a comma find_first_of yields npos, which becomes -1. */
  function ParseLine(line: string): Option<Pair> {
    var pos := FirstIndex(line, ',');
    if pos < |line| then
      if pos + 2 <= |line| then Some((line[..pos], line[pos + 2..])) else None
    else if |line| >= 1 then Some((line, line[1..])) else None
  }

  function ParseLines(lines: seq<string>): Option<seq<Pair>> {
    if lines == [] then Some([]) else
    match (ParseLine(lines[0]), ParseLines(lines[1..]))
    case (Some(p), Some(ps)) => Some([p] + ps)
    case _ => None
  }

  lemma {:induction false} ParseLinesConcat(a: seq<string>, b: seq<string>)
    requires ParseLines(a).Some? && ParseLines(b).Some?
    ensures ParseLines(a + b) == Some(ParseLines(a).value + ParseLines(b).value)
    decreases |a|
  {
    if a == [] {
      assert a + b == b;
      assert [] + ParseLines(b).value == ParseLines(b).value;
    } else {
      assert (a + b)[1..] == a[1..] + b && (a + b)[0] == a[0];
      ParseLinesConcat(a[1..], b);
      Assoc([ParseLine(a[0]).value], ParseLines(a[1..]).value, ParseLines(b).value);
    }
  }

  lemma FirstIndexBefore(a: string, b: string, c: char)
    requires c !in a
    ensures FirstIndex(a + b, c) == |a| + FirstIndex(b, c)
  {
    FirstIndexIs(a + b, c, |a| + FirstIndex(b, c));
  }

  /** A line that reaches the parser whole is parsed back exactly if its key has no comma. */
  lemma ParsePrintLine(p: Pair)
    ensures ParseLine(PrintLine(p)) == Some(p) <==> ',' !in p.0
  {
    var line := PrintLine(p);
    var rest := ", " + p.1;
    assert line == p.0 + rest;
    if ',' !in p.0 {
      FirstIndexBefore(p.0, rest, ',');
      assert line[..|p.0|] == p.0;
      assert line[|p.0| + 2..] == p.1;
    } else {
      var k :| 0 <= k < |p.0| && p.0[k] == ',';
      assert line[k] == ',';
    }
  }

  /** A parsed line is the printed form of what it was parsed to exactly if there is a comma with a blank behind it. */
  lemma PrintParseLine(line: string)
    requires ParseLine(line).Some?
    ensures PrintLine(ParseLine(line).value) == line <==>
      var k := FirstIndex(line, ','); k + 1 < |line| && line[k + 1] == ' '
  {
    var k, p := FirstIndex(line, ','), ParseLine(line).value;
    if k < |line| {
      CutTwo(line, k);
      SameMiddle(line[..k], [line[k], line[k + 1]], ", ", line[k + 2..]);
      Assoc(p.0, ", ", p.1);
    } else {
      assert |PrintLine(p)| == |line| + 2 + |line| - 1;
    }
  }

  lemma CutTwo<T>(s: seq<T>, k: nat)
    requires k + 1 < |s|
    ensures s == s[..k] + [s[k], s[k + 1]] + s[k + 2..]
  {
  }

  lemma SameMiddle<T>(a: seq<T>, x: seq<T>, y: seq<T>, b: seq<T>)
    requires |x| == |y|
    ensures a + x + b == a + y + b <==> x == y
  {
    assert (a + x + b)[|a|..|a| + |x|] == x;
    assert (a + y + b)[|a|..|a| + |y|] == y;
  }

  /** The parser throws exactly for the empty line and for a line whose first comma is its last character. */
  lemma ParseFailsIff(line: string)
    ensures ParseLine(line).None? <==> line == "" || (line[|line| - 1] == ',' && ',' !in line[..|line| - 1])
  {
    if line != "" && line[|line| - 1] == ',' && ',' !in line[..|line| - 1] {
      forall i | 0 <= i < |line| - 1 ensures line[i] != ',' { assert line[i] in line[..|line| - 1]; }
      FirstIndexIs(line, ',', |line| - 1);
    }
    if FirstIndex(line, ',') == |line| - 1 { NotInPrefix(line, |line| - 1, ','); }
  }

  /** Without a comma the key is the line and the value the line without its first character. */
  lemma ParseNoComma(line: string)
    requires ',' !in line && line != ""
    ensures ParseLine(line) == Some((line, line[1..]))
  {
    FirstIndexIs(line, ',', |line|);
  }

  /** What a mapper must emit for its pairs to survive the files. */
  predicate Clean(p: Pair) {
    ',' !in p.0 && '\n' !in p.0 && '\n' !in p.1
  }

  ghost predicate AllClean(ps: seq<Pair>) {
    forall p :: p in ps ==> Clean(p)
  }

  lemma ParsePrintOne(p: Pair)
    requires Clean(p)
    ensures Lines(PrintLine(p) + "\n") == [PrintLine(p)]
    ensures ParseLines([PrintLine(p)]) == Some([p])
  {
    var line := PrintLine(p);
    assert '\n' !in line;
    LinesPrint(line, "");
    assert line + "\n" + "" == line + "\n";
    ParsePrintLine(p);
    assert ParseLines([line][1..]) == Some([]);
    assert [p] + [] == [p];
  }

  lemma EndsInNewline(a: string, line: string)
    ensures Terminated(a + (line + "\n"))
  {
  }

  lemma ParseAppended(text: string, ps: seq<Pair>, p: Pair)
    requires Terminated(text) && ParseLines(Lines(text)) == Some(ps) && Clean(p)
    ensures Terminated(text + (PrintLine(p) + "\n"))
    ensures ParseLines(Lines(text + (PrintLine(p) + "\n"))) == Some(ps + [p])
  {
    ParsePrintOne(p);
    LinesConcat(text, PrintLine(p) + "\n");
    EndsInNewline(text, PrintLine(p));
    ParseLinesConcat(Lines(text), [PrintLine(p)]);
  }

  lemma CleanSplit(ps: seq<Pair>)
    requires ps != [] && AllClean(ps)
    ensures AllClean(ps[..|ps| - 1]) && Clean(ps[|ps| - 1])
  {
  }

  /** The reducer reads back from a file exactly the pairs that were printed to it. */
  lemma {:induction false} ParsePrintAll(ps: seq<Pair>)
    requires AllClean(ps)
    ensures Terminated(PrintAll(ps)) && ParseLines(Lines(PrintAll(ps))) == Some(ps)
    decreases |ps|
  {
    if ps != [] {
      var ps', p := ps[..|ps| - 1], ps[|ps| - 1];
      CleanSplit(ps);
      ParsePrintAll(ps');
      ParseAppended(PrintAll(ps'), ps', p);
      Snoc(ps);
    }
  }

  // ---- exactly the clean pairs survive

  lemma {:induction false} ParseLength(lines: seq<string>)
    ensures ParseLines(lines).Some? ==> |ParseLines(lines).value| == |lines|
    decreases |lines|
  {
    if lines != [] { ParseLength(lines[1..]); }
  }

  lemma {:induction false} ParseSplit(a: seq<string>, b: seq<string>)
    requires ParseLines(a + b).Some?
    ensures ParseLines(a).Some? && ParseLines(b).Some?
    ensures ParseLines(a + b).value == ParseLines(a).value + ParseLines(b).value
    decreases |a|
  {
    if a == [] {
      assert a + b == b;
    } else {
      assert (a + b)[1..] == a[1..] + b && (a + b)[0] == a[0];
      ParseSplit(a[1..], b);
    }
    ParseLinesConcat(a, b);
  }

  lemma {:induction false} PrintAllTerminated(ps: seq<Pair>)
    ensures Terminated(PrintAll(ps))
    decreases |ps|
  {
    if ps != [] { EndsInNewline(PrintAll(ps[..|ps| - 1]), PrintLine(ps[|ps| - 1])); }
  }

  /** A printed line is read as one record, or as more if there is a newline in it. */
  lemma RecordsOf(line: string)
    ensures |Lines(line + "\n")| >= 1
    ensures |Lines(line + "\n")| == 1 ==> '\n' !in line && Lines(line + "\n") == [line]
  {
    var t := line + "\n";
    var k := FirstIndex(t, '\n');
    assert t[|line|] == '\n';
    if k < |line| {
      assert t[k + 1..] != [];
      assert |Lines(t[k + 1..])| >= 1;
    } else {
      forall i | 0 <= i < |line| ensures line[i] != '\n' { assert t[i] == line[i]; }
      LinesPrint(line, "");
      EmptyRight(t);
    }
  }

  lemma PrintAllLast(ps: seq<Pair>)
    requires ps != []
    ensures Lines(PrintAll(ps)) == Lines(PrintAll(ps[..|ps| - 1])) + Lines(PrintLine(ps[|ps| - 1]) + "\n")
  {
    PrintAllTerminated(ps[..|ps| - 1]);
    LinesConcat(PrintAll(ps[..|ps| - 1]), PrintLine(ps[|ps| - 1]) + "\n");
  }

  lemma {:induction false} RecordsOfAll(ps: seq<Pair>)
    ensures |Lines(PrintAll(ps))| >= |ps|
    decreases |ps|
  {
    if ps != [] {
      PrintAllLast(ps);
      RecordsOfAll(ps[..|ps| - 1]);
      RecordsOf(PrintLine(ps[|ps| - 1]));
    }
  }

  lemma ParseOne(line: string, p: Pair)
    requires ParseLines([line]) == Some([p])
    ensures ParseLine(line) == Some(p)
  {
    assert [line][1..] == [] && [line][0] == line;
    assert ([ParseLine(line).value] + [])[0] == ParseLine(line).value;
  }

  lemma OneSurvives(p: Pair)
    requires |Lines(PrintLine(p) + "\n")| == 1 && ParseLines(Lines(PrintLine(p) + "\n")) == Some([p])
    ensures Clean(p)
  {
    var line := PrintLine(p);
    RecordsOf(line);
    ParseOne(line, p);
    ParsePrintLine(p);
    NoNewlineInParts(p);
  }

  lemma NoNewlineInParts(p: Pair)
    requires '\n' !in PrintLine(p)
    ensures '\n' !in p.0 && '\n' !in p.1
  {
    assert forall c :: c in p.0 || c in p.1 ==> c in PrintLine(p);
  }

  lemma SplitEqual<T>(x: seq<T>, y: seq<T>, ps: seq<T>)
    requires x + y == ps && |y| == 1
    ensures ps != [] && x == ps[..|ps| - 1] && y == [ps[|ps| - 1]]
  {
  }

  lemma {:induction false} SurvivorsAreClean(ps: seq<Pair>)
    requires ParseLines(Lines(PrintAll(ps))) == Some(ps)
    ensures AllClean(ps)
    decreases |ps|
  {
    if ps != [] {
      var a, b := Lines(PrintAll(ps[..|ps| - 1])), Lines(PrintLine(ps[|ps| - 1]) + "\n");
      PrintAllLast(ps);
      ParseSplit(a, b);
      ParseLength(a);
      ParseLength(b);
      RecordsOfAll(ps[..|ps| - 1]);
      RecordsOf(PrintLine(ps[|ps| - 1]));
      SplitEqual(ParseLines(a).value, ParseLines(b).value, ps);
      SurvivorsAreClean(ps[..|ps| - 1]);
      OneSurvives(ps[|ps| - 1]);
      Snoc(ps);
    }
  }

  /**
   A reducer reads back from a file what was printed to it if and only if no key has a comma and neither keys nor
   values have a newline.
  */
  lemma SurvivesIff(ps: seq<Pair>)
    ensures ParseLines(Lines(PrintAll(ps))) == Some(ps) <==> AllClean(ps)
  {
    if AllClean(ps) { ParsePrintAll(ps); }
    if ParseLines(Lines(PrintAll(ps))) == Some(ps) { SurvivorsAreClean(ps); }
  }
}
