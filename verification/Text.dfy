/** Text files and records: what std::getline makes of a buffer. */
module Text {
  import opened Sequences

  /** The first position of `c`, or the length if it does not occur. */
  function FirstIndex(t: string, c: char): (k: nat)
    ensures k <= |t|
    ensures forall i :: 0 <= i < k ==> t[i] != c
    ensures k < |t| ==> t[k] == c
  {
    if t == [] || t[0] == c then 0 else 1 + FirstIndex(t[1..], c)
  }

  lemma {:induction false} FirstIndexIs(t: string, c: char, k: nat)
    requires k <= |t| && (forall i :: 0 <= i < k ==> t[i] != c) && (k < |t| ==> t[k] == c)
    ensures FirstIndex(t, c) == k
    decreases k
  {
    if k > 0 {
      assert t[0] != c;
      FirstIndexIs(t[1..], c, k - 1);
    }
  }

  /** The records that repeated getline calls read: the text between newlines, without them. */
  function Lines(t: string): seq<string>
    decreases |t|
  {
    if t == [] then [] else
    var k := FirstIndex(t, '\n');
    [t[..k]] + if k < |t| then Lines(t[k + 1..]) else []
  }

  /** Nothing is read past the last newline. */
  predicate Terminated(t: string) {
    t == [] || t[|t| - 1] == '\n'
  }

  /** A printed record is read back as that record. */
  lemma LinesPrint(line: string, rest: string)
    requires '\n' !in line
    ensures Lines(line + "\n" + rest) == [line] + Lines(rest)
  {
    var t := line + "\n" + rest;
    FirstIndexIs(t, '\n', |line|);
    assert t[..|line|] == line;
    assert t[|line| + 1..] == rest;
  }

  /** A text that ends in a newline starts with a whole record. */
  lemma FirstRecord(a: string) returns (line: string, rest: string)
    requires a != [] && Terminated(a)
    ensures a == line + "\n" + rest && '\n' !in line && Terminated(rest)
  {
    var k := FirstIndex(a, '\n');
    assert a[|a| - 1] == '\n';
    line, rest := a[..k], a[k + 1..];
  }

  /** A cut just after a newline separates no record from its continuation. */
  lemma {:induction false} LinesConcat(a: string, b: string)
    requires Terminated(a)
    ensures Lines(a + b) == Lines(a) + Lines(b)
    decreases |a|
  {
    if a == [] {
      assert a + b == b;
    } else {
      var line, rest := FirstRecord(a);
      LinesPrint(line, rest);
      LinesPrint(line, rest + b);
      LinesConcat(rest, b);
      Assoc(line + "\n", rest, b);
      Assoc([line], Lines(rest), Lines(b));
    }
  }

  /** No record that is read contains a newline. */
  lemma {:induction false} LineIsClean(t: string, line: string)
    requires line in Lines(t)
    ensures '\n' !in line
    decreases |t|
  {
    var k := FirstIndex(t, '\n');
    NotInPrefix(t, k, '\n');
    if line != t[..k] {
      InCons(t[..k], if k < |t| then Lines(t[k + 1..]) else []);
      LineIsClean(t[k + 1..], line);
    }
  }

  /** The text that consists of these records, each with its newline. */
  function Unlines(lines: seq<string>): string {
    if lines == [] then "" else lines[0] + "\n" + Unlines(lines[1..])
  }

  ghost predicate PlainLines(lines: seq<string>) {
    forall i :: 0 <= i < |lines| ==> '\n' !in lines[i]
  }

  lemma LinesPlain(t: string)
    ensures PlainLines(Lines(t))
  {
    forall i | 0 <= i < |Lines(t)| ensures '\n' !in Lines(t)[i] { LineIsClean(t, Lines(t)[i]); }
  }

  lemma {:induction false} LinesOfUnlines(lines: seq<string>)
    requires PlainLines(lines)
    ensures Lines(Unlines(lines)) == lines
    decreases |lines|
  {
    if lines != [] {
      LinesPrint(lines[0], Unlines(lines[1..]));
      LinesOfUnlines(lines[1..]);
    }
  }

  lemma UnlinesCons(line: string, lines: seq<string>)
    ensures Unlines([line] + lines) == line + "\n" + Unlines(lines)
  {
    assert ([line] + lines)[1..] == lines;
  }

  lemma {:induction false} UnlinesOfLines(t: string)
    requires Terminated(t)
    ensures Unlines(Lines(t)) == t
    decreases |t|
  {
    if t != [] {
      var line, rest := FirstRecord(t);
      LinesPrint(line, rest);
      UnlinesOfLines(rest);
      UnlinesCons(line, Lines(rest));
    }
  }

  /** The records of a text that ends in a newline are the one list without newlines that makes up the text. */
  lemma LinesIff(t: string, lines: seq<string>)
    requires Terminated(t)
    ensures Lines(t) == lines <==> t == Unlines(lines) && PlainLines(lines)
  {
    UnlinesOfLines(t);
    LinesPlain(t);
    if PlainLines(lines) { LinesOfUnlines(lines); }
  }

  /** A last record without a newline is read as if it had one. */
  lemma LinesOpen(a: string, last: string)
    requires Terminated(a) && last != [] && '\n' !in last
    ensures Lines(a + last) == Lines(a) + [last]
  {
    LinesConcat(a, last);
    FirstIndexIs(last, '\n', |last|);
    TakeAll(last);
    EmptyRight([last]);
  }

  /** The getline loop; `unread` is what the stream has not delivered yet. */
  method ReadLines(buffer: string) returns (lines: seq<string>)
    ensures lines == Lines(buffer)
  {
    lines := [];
    var unread := buffer;
    while unread != []
      invariant lines + Lines(unread) == Lines(buffer)
      decreases |unread|
    {
      var k := FirstIndex(unread, '\n');
      var line, rest := unread[..k], if k < |unread| then unread[k + 1..] else [];
      Assoc(lines, [line], Lines(rest));
      lines, unread := lines + [line], rest;
    }
  }
}
