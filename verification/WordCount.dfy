/** The word-count instance (project4/test/user_tasks.cc). */
module WordCount {
  import opened Sequences
  import opened Text
  import opened Pairs
  import opened MapTask
  import opened ReduceTask

  // ---- words

  predicate IsDelim(c: char) { c in " ,.\"'" }

  /** The number of leading characters that are not delimiters. */
  function WordLength(t: string): (k: nat)
    ensures k <= |t| && (forall i :: 0 <= i < k ==> !IsDelim(t[i])) && (k < |t| ==> IsDelim(t[k]))
  {
    if t == [] || IsDelim(t[0]) then 0 else 1 + WordLength(t[1..])
  }

  /** The words of a text: what is left of it when it is cut at every delimiter and empty pieces are dropped. */
  function Words(t: string): seq<string>
    decreases |t|
  {
    var k := WordLength(t);
    (if k == 0 then [] else [t[..k]]) + if k < |t| then Words(t[k + 1..]) else []
  }

  lemma {:induction false} WordLengthIs(t: string, k: nat)
    requires k <= |t| && (forall i :: 0 <= i < k ==> !IsDelim(t[i])) && (k < |t| ==> IsDelim(t[k]))
    ensures WordLength(t) == k
    decreases k
  {
    if k > 0 {
      assert !IsDelim(t[0]);
      WordLengthIs(t[1..], k - 1);
    }
  }

  function Piece(w: string): seq<string> { if w == [] then [] else [w] }

  lemma WordsCut(w: string, d: char, rest: string)
    requires IsDelim(d) && forall i :: 0 <= i < |w| ==> !IsDelim(w[i])
    ensures Words(w + [d] + rest) == Piece(w) + Words(rest)
  {
    var t := w + [d] + rest;
    WordLengthIs(t, |w|);
    assert t[..|w|] == w;
    assert t[|w| + 1..] == rest;
  }

  lemma CutFirst(t: string) returns (w: string, d: char, rest: string)
    requires WordLength(t) < |t|
    ensures t == w + [d] + rest && IsDelim(d) && forall i :: 0 <= i < |w| ==> !IsDelim(w[i])
  {
    var k := WordLength(t);
    w, d, rest := t[..k], t[k], t[k + 1..];
  }

  lemma Reassoc<T>(w: seq<T>, d: seq<T>, rest: seq<T>, more: seq<T>)
    ensures w + d + rest + more == w + d + (rest + more)
  {
  }

  /** A delimiter separates: the words before it and the words after it. */
  lemma {:induction false} WordsConcat(a: string, d: char, b: string)
    requires IsDelim(d)
    ensures Words(a + [d] + b) == Words(a) + Words(b)
    decreases |a|
  {
    if WordLength(a) == |a| {
      WordsCut(a, d, b);
      assert a[..|a|] == a;
      assert Piece(a) + [] == Piece(a);
    } else {
      var w, c, rest := CutFirst(a);
      Reassoc(w, [c], rest, [d] + b);
      Assoc(a, [d], b);
      Assoc(rest, [d], b);
      assert a + [d] + b == w + [c] + (rest + [d] + b);
      WordsCut(w, c, rest + [d] + b);
      WordsCut(w, c, rest);
      WordsConcat(rest, d, b);
      Assoc(Piece(w), Words(rest), Words(b));
    }
  }

  /** A word is not empty and has no delimiter in it. */
  lemma {:induction false} WordIsPlain(t: string, w: string)
    requires w in Words(t)
    ensures w != [] && (forall c :: c in w ==> !IsDelim(c)) && (forall c :: c in w ==> c in t)
    decreases |t|
  {
    var k := WordLength(t);
    if k > 0 && w == t[..k] {
      assert forall c :: c in w ==> exists i :: 0 <= i < k && t[i] == c;
    } else {
      assert k < |t|;
      var tail := t[k + 1..];
      assert w in Words(tail);
      WordIsPlain(tail, w);
      assert forall c :: c in tail ==> c in t;
    }
  }

  // ---- words as maximal runs

  /** The five delimiters of line 16. */
  predicate Separates(c: char) { c == ' ' || c == ',' || c == '.' || c == '"' || c == '\'' }

  /** From `i` to `j` the text has no separator, and cannot be extended on either side. */
  ghost predicate IsRun(t: string, i: nat, j: nat) {
    && i < j <= |t| && (forall k :: i <= k < j ==> !Separates(t[k]))
    && (i > 0 ==> Separates(t[i - 1])) && (j < |t| ==> Separates(t[j]))
  }

  lemma SeparatorsAreDelims(c: char)
    ensures IsDelim(c) <==> Separates(c)
  {
  }

  /** Behind a separator there are the runs of the rest. */
  lemma ShiftRun(t: string, k: nat, i: nat, j: nat)
    requires k < |t| && Separates(t[k])
    ensures IsRun(t[k + 1..], i, j) <==> IsRun(t, k + 1 + i, k + 1 + j)
  {
    var tail := t[k + 1..];
    assert forall x :: 0 <= x < |tail| ==> tail[x] == t[k + 1 + x];
    if IsRun(t, k + 1 + i, k + 1 + j) {
      forall x | i <= x < j ensures !Separates(tail[x]) { assert !Separates(t[k + 1 + x]); }
    }
    if IsRun(tail, i, j) {
      forall x | k + 1 + i <= x < k + 1 + j ensures !Separates(t[x]) { assert !Separates(tail[x - k - 1]); }
    }
  }

  /** The text has its first separator at `k`, or none, and then `k` is its length. */
  ghost predicate CutAt(t: string, k: nat) {
    k <= |t| && (forall x :: 0 <= x < k ==> !Separates(t[x])) && (k < |t| ==> Separates(t[k]))
  }

  lemma WordLengthCuts(t: string)
    ensures CutAt(t, WordLength(t))
  {
    assert forall x :: 0 <= x < |t| ==> (IsDelim(t[x]) <==> Separates(t[x]));
  }

  /** The first word is a run. */
  lemma FirstRun(t: string, k: nat)
    requires CutAt(t, k)
    ensures k > 0 ==> IsRun(t, 0, k)
  {
  }

  /** The other runs are behind the separator that ends it. */
  lemma LaterRun(t: string, k: nat, i: nat, j: nat)
    requires CutAt(t, k) && IsRun(t, i, j)
    ensures (i == 0 && j == k) || i > k
  {
  }

  function Shift(starts: seq<nat>, d: nat): seq<nat> {
    seq(|starts|, x requires 0 <= x < |starts| => starts[x] + d)
  }

  /** `starts` are the starts of the runs of `t`, in order, and `words` the runs. */
  ghost predicate RunsAt(t: string, words: seq<string>, starts: seq<nat>) {
    && |starts| == |words|
    && (forall x :: 0 <= x < |words| ==> RunIs(t, starts[x], words[x]))
    && (forall x, y :: 0 <= x < y < |starts| ==> starts[x] < starts[y])
    && (forall i: nat, j: nat :: IsRun(t, i, j) ==> i in starts)
  }

  ghost predicate RunIs(t: string, i: nat, w: string) {
    i + |w| <= |t| && t[i..i + |w|] == w && IsRun(t, i, i + |w|)
  }

  lemma ShiftRunIs(t: string, k: nat, i: nat, w: string)
    requires k < |t| && Separates(t[k])
    ensures RunIs(t[k + 1..], i, w) <==> RunIs(t, k + 1 + i, w)
  {
    ShiftRun(t, k, i, i + |w|);
    if k + 1 + i + |w| <= |t| { assert t[k + 1..][i..i + |w|] == t[k + 1 + i..k + 1 + i + |w|]; }
  }

  /** The runs of what is behind the first separator, with the first word if there is one. */
  function Starts(k: nat, starts: seq<nat>): seq<nat> {
    (if k == 0 then [] else [0]) + Shift(starts, k + 1)
  }

  lemma StartsIncrease(k: nat, starts: seq<nat>)
    requires forall x, y :: 0 <= x < y < |starts| ==> starts[x] < starts[y]
    ensures forall x, y :: 0 <= x < y < |Starts(k, starts)| ==> Starts(k, starts)[x] < Starts(k, starts)[y]
  {
  }

  lemma StartsSpell(t: string, k: nat, words: seq<string>, starts: seq<nat>)
    requires CutAt(t, k) && k < |t| && |starts| == |words|
    requires forall x :: 0 <= x < |words| ==> RunIs(t[k + 1..], starts[x], words[x])
    ensures |Starts(k, starts)| == |Piece(t[..k]) + words|
    ensures forall x :: 0 <= x < |Starts(k, starts)| ==> RunIs(t, Starts(k, starts)[x], (Piece(t[..k]) + words)[x])
  {
    FirstRun(t, k);
    forall x | 0 <= x < |words| ensures RunIs(t, Shift(starts, k + 1)[x], words[x]) {
      ShiftRunIs(t, k, starts[x], words[x]);
    }
  }

  lemma InStarts(k: nat, starts: seq<nat>, i: nat)
    requires if i > k then i - (k + 1) in starts else i == 0 < k
    ensures i in Starts(k, starts)
  {
    if i > k { InShift(starts, i - (k + 1), k + 1); }
    assert k > 0 ==> Starts(k, starts)[0] == 0;
  }

  lemma StartsAreAll(t: string, k: nat, words: seq<string>, starts: seq<nat>, i: nat, j: nat)
    requires CutAt(t, k) && k < |t| && IsRun(t, i, j) && RunsAt(t[k + 1..], words, starts)
    ensures i in Starts(k, starts)
  {
    LaterRun(t, k, i, j);
    if i > k { ShiftRun(t, k, i - (k + 1), j - (k + 1)); }
    InStarts(k, starts, i);
  }

  lemma InShift(starts: seq<nat>, i: nat, d: nat)
    requires i in starts
    ensures i + d in Shift(starts, d)
  {
    var x :| 0 <= x < |starts| && starts[x] == i;
    assert Shift(starts, d)[x] == i + d;
  }

  lemma RunsBehind(t: string, k: nat, words: seq<string>, starts: seq<nat>)
    requires CutAt(t, k) && k < |t| && RunsAt(t[k + 1..], words, starts)
    ensures RunsAt(t, Piece(t[..k]) + words, Starts(k, starts))
  {
    StartsIncrease(k, starts);
    StartsSpell(t, k, words, starts);
    forall i: nat, j: nat | IsRun(t, i, j) ensures i in Starts(k, starts) {
      StartsAreAll(t, k, words, starts, i, j);
    }
  }

  /** The words of a text are its maximal runs of characters other than the separators, from left to right. */
  lemma {:induction false} WordsAreRuns(t: string) returns (starts: seq<nat>)
    ensures RunsAt(t, Words(t), starts)
    decreases |t|
  {
    var k := WordLength(t);
    WordLengthCuts(t);
    if k < |t| {
      var rest := WordsAreRuns(t[k + 1..]);
      starts := Starts(k, rest);
      RunsBehind(t, k, Words(t[k + 1..]), rest);
    } else {
      starts := if k == 0 then [] else [0];
      OneRun(t, starts);
    }
  }

  lemma OneRun(t: string, starts: seq<nat>)
    requires CutAt(t, |t|) && starts == if t == [] then [] else [0]
    ensures RunsAt(t, Piece(t), starts) && t[..|t|] == t && Piece(t) + [] == Piece(t)
  {
    FirstRun(t, |t|);
    assert t[0..|t|] == t;
    forall i: nat, j: nat | IsRun(t, i, j) ensures i in starts {
      LaterRun(t, |t|, i, j);
      assert starts[0] == 0;
    }
  }

  /** The places where `w` is a word of `t`. */
  ghost function RunsOf(t: string, w: string): set<nat> {
    set i: nat | i <= |t| && RunIs(t, i, w)
  }

  ghost function Shifted(places: set<nat>, d: nat): set<nat> {
    set i: nat | i in places :: i + d
  }

  lemma ShiftedPlus(places: set<nat>, x: nat, d: nat)
    requires x !in places
    ensures Shifted(places + {x}, d) == Shifted(places, d) + {x + d} && x + d !in Shifted(places, d)
  {
    assert x in places + {x};
    forall i | i in places ensures i in places + {x} {}
  }

  lemma {:induction false} ShiftedSize(places: set<nat>, d: nat)
    ensures |Shifted(places, d)| == |places|
    decreases |places|
  {
    if places == {} {
      assert Shifted(places, d) == {};
    } else {
      var x :| x in places;
      ShiftedSize(places - {x}, d);
      ShiftedPlus(places - {x}, x, d);
      assert places - {x} + {x} == places;
    }
  }

  lemma RunAtFirst(t: string, k: nat, w: string, i: nat)
    requires CutAt(t, k) && i <= k
    ensures RunIs(t, i, w) <==> k > 0 && w == t[..k] && i == 0
  {
    assert t[0..k] == t[..k];
    if RunIs(t, i, w) { LaterRun(t, k, i, i + |w|); }
    FirstRun(t, k);
  }

  lemma SplitAt(all: set<nat>, first: set<nat>, rest: set<nat>, k: nat)
    requires forall i: nat :: i <= k ==> (i in all <==> i in first)
    requires forall i: nat {:trigger i in all} :: i > k ==> (i in all <==> i - (k + 1) in rest)
    requires forall i :: i in first ==> i <= k
    ensures all == first + Shifted(rest, k + 1) && first !! Shifted(rest, k + 1)
  {
    forall i: nat ensures i in all <==> i in first || i in Shifted(rest, k + 1) {
      assert i > k && i - (k + 1) in rest ==> i - (k + 1) + (k + 1) in Shifted(rest, k + 1);
    }
  }

  lemma RunsUpTo(t: string, k: nat, w: string, first: set<nat>)
    requires CutAt(t, k) && first == if k > 0 && w == t[..k] then {0} else {}
    ensures forall i: nat :: i <= k ==> (i in RunsOf(t, w) <==> i in first)
  {
    forall i: nat | i <= k ensures i in RunsOf(t, w) <==> i in first { RunAtFirst(t, k, w, i); }
  }

  lemma RunsFrom(t: string, k: nat, w: string, rest: set<nat>)
    requires CutAt(t, k) && k < |t| && rest == RunsOf(t[k + 1..], w)
    ensures forall i: nat {:trigger i in RunsOf(t, w)} :: i > k ==> (i in RunsOf(t, w) <==> i - (k + 1) in rest)
  {
    forall i: nat | i > k ensures i in RunsOf(t, w) <==> i - (k + 1) in rest { ShiftRunIs(t, k, i - (k + 1), w); }
  }

  lemma RunsOfRest(t: string, k: nat, w: string, first: set<nat>, rest: set<nat>)
    requires CutAt(t, k) && k < |t|
    requires first == if k > 0 && w == t[..k] then {0} else {}
    requires rest == RunsOf(t[k + 1..], w)
    ensures RunsOf(t, w) == first + Shifted(rest, k + 1) && first !! Shifted(rest, k + 1)
  {
    RunsUpTo(t, k, w, first);
    RunsFrom(t, k, w, rest);
    SplitAt(RunsOf(t, w), first, rest, k);
  }

  lemma OnlyRun(t: string, w: string)
    requires CutAt(t, |t|)
    ensures RunsOf(t, w) == if t != [] && w == t then {0} else {}
  {
    TakeAll(t);
    forall i: nat | i <= |t| ensures RunIs(t, i, w) <==> t != [] && w == t && i == 0 { RunAtFirst(t, |t|, w, i); }
  }

  lemma CountFirst(w: string, first: string, rest: seq<string>)
    ensures multiset(Piece(first) + rest)[w] == multiset(rest)[w] + if first != [] && w == first then 1 else 0
  {
  }

  /** A word occurs in a text as often as there are runs that spell it. */
  lemma {:induction false} CountIsRuns(t: string, w: string)
    ensures multiset(Words(t))[w] == |RunsOf(t, w)|
    decreases |t|
  {
    var k := WordLength(t);
    WordLengthCuts(t);
    if k < |t| {
      var first: set<nat>, rest := if k > 0 && w == t[..k] then {0} else {}, RunsOf(t[k + 1..], w);
      CountIsRuns(t[k + 1..], w);
      RunsOfRest(t, k, w, first, rest);
      ShiftedSize(rest, k + 1);
      CountFirst(w, t[..k], Words(t[k + 1..]));
    } else {
      OnlyRun(t, w);
      CountFirst(w, t, []);
      TakeAll(t);
    }
  }

  // ---- UserMapper

  /** strcpy copies a C string: up to the first NUL. */
  function CStr(line: string): string { line[..FirstIndex(line, '\0')] }

  /** It is the whole line if there is none, and otherwise what is before the first. */
  lemma CStrIs(line: string, rest: string)
    requires '\0' !in line
    ensures CStr(line) == line && CStr(line + "\0" + rest) == line
  {
    FirstIndexIs(line, '\0', |line|);
    FirstIndexIs(line + "\0" + rest, '\0', |line|);
    TakeAll(line);
    assert (line + "\0" + rest)[..|line|] == line;
  }

  lemma SkipDelim(t: string)
    requires t != [] && IsDelim(t[0])
    ensures Words(t) == Words(t[1..])
  {
    assert [] + Words(t[1..]) == Words(t[1..]);
  }

  function FirstWord(t: string): string { t[..WordLength(t)] }

  /** What strtok_r remembers: the text after the delimiter that ends the word. */
  function AfterWord(t: string): string {
    if WordLength(t) < |t| then t[WordLength(t) + 1..] else ""
  }

  lemma TakeWord(t: string)
    requires t != [] && !IsDelim(t[0])
    ensures Words(t) == [FirstWord(t)] + Words(AfterWord(t)) && |AfterWord(t)| < |t|
  {
    assert Words("") == [];
  }

  /** strtok_r: skip delimiters and take a word. */
  method StrTok(t: string) returns (start: Option<string>, save: string)
    ensures start.None? ==> Words(t) == []
    ensures start.Some? ==> Words(t) == [start.value] + Words(save) && |save| < |t|
  {
    var rest := t;
    while rest != [] && IsDelim(rest[0])
      invariant Words(rest) == Words(t) && |rest| <= |t|
    {
      SkipDelim(rest);
      rest := rest[1..];
    }
    if rest == [] {
      return None, "";
    }
    TakeWord(rest);
    return Some(FirstWord(rest)), AfterWord(rest);
  }

  function One(w: string): Pair { (w, "1") }

  function Ones(ws: seq<string>): seq<Pair> {
    seq(|ws|, i requires 0 <= i < |ws| => One(ws[i]))
  }

  /** What UserMapper emits for a record. */
  function WordMapper(line: string): seq<Pair> { Ones(Words(CStr(line))) }

  /** For a line without NUL: its runs, from left to right, each with the value 1. */
  lemma MapperEmitsRuns(line: string) returns (starts: seq<nat>)
    requires '\0' !in line
    ensures |starts| == |WordMapper(line)|
    ensures forall x :: 0 <= x < |starts| ==>
      RunIs(line, starts[x], WordMapper(line)[x].0) && WordMapper(line)[x].1 == "1"
    ensures forall x, y :: 0 <= x < y < |starts| ==> starts[x] < starts[y]
    ensures forall i: nat, j: nat :: IsRun(line, i, j) ==> i in starts
  {
    CStrIs(line, "");
    starts := WordsAreRuns(line);
  }

  lemma OnesSnoc(ws: seq<string>, w: string)
    ensures Ones(ws + [w]) == Ones(ws) + [One(w)]
  {
  }

  /** UserMapper::map: the strtok_r loop. */
  method UserMap(line: string) returns (emitted: seq<Pair>)
    ensures emitted == WordMapper(line)
  {
    emitted := [];
    ghost var done: seq<string> := [];
    var start, save := StrTok(CStr(line));
    while start.Some?
      invariant emitted == Ones(done)
      invariant Words(CStr(line)) == done + if start.Some? then [start.value] + Words(save) else []
      decreases start.Some?, |save|
    {
      OnesSnoc(done, start.value);
      Assoc(done, [start.value], Words(save));
      emitted := emitted + [(start.value, "1")];
      done := done + [start.value];
      assert done + Words(save) == Words(CStr(line));
      start, save := StrTok(save);
      assert start.None? ==> done + [] == Words(CStr(line));
    }
    assert done + [] == done;
  }

  /** The word-count mapper emits what the files can carry: a word holds neither comma nor newline. */
  lemma WordPairsAreClean(line: string)
    requires '\n' !in line
    ensures AllClean(WordMapper(line))
  {
    var ws := Words(CStr(line));
    forall p | p in WordMapper(line) ensures Clean(p) {
      var i :| 0 <= i < |ws| && p == One(ws[i]);
      WordIsPlain(CStr(line), ws[i]);
      assert IsDelim(',');
      assert forall c :: c in CStr(line) ==> c in line;
    }
  }

  // ---- UserReducer

  predicate IsDigit(c: char) { '0' <= c <= '9' }

  predicate IsSpace(c: char) { c == ' ' || '\t' <= c <= '\r' }

  function DigitsValue(s: string, acc: nat): nat {
    if s == [] || !IsDigit(s[0]) then acc else DigitsValue(s[1..], 10 * acc + (s[0] as int - '0' as int))
  }

  /** atoi, without the limits of int. */
  function Atoi(s: string): int {
    if s == [] then 0
    else if IsSpace(s[0]) then Atoi(s[1..])
    else if s[0] == '-' then 0 - DigitsValue(s[1..], 0)
    else if s[0] == '+' then DigitsValue(s[1..], 0)
    else DigitsValue(s, 0)
  }

  function DigitChar(d: nat): char
    requires d < 10
  {
    '0' + d as char
  }

  /** std::to_string */
  function NatToString(n: nat): string {
    if n < 10 then [DigitChar(n)] else NatToString(n / 10) + [DigitChar(n % 10)]
  }

  function ToString(n: int): string { if n < 0 then "-" + NatToString(-n) else NatToString(n) }

  lemma {:induction false} DigitsValueSnoc(s: string, d: nat, acc: nat)
    requires d < 10 && forall i :: 0 <= i < |s| ==> IsDigit(s[i])
    ensures DigitsValue(s + [DigitChar(d)], acc) == 10 * DigitsValue(s, acc) + d
    decreases |s|
  {
    if s == [] {
      assert [] + [DigitChar(d)] == [DigitChar(d)];
      assert DigitsValue([DigitChar(d)][1..], 10 * acc + d) == 10 * acc + d;
    } else {
      assert IsDigit(s[0]);
      assert (s + [DigitChar(d)])[1..] == s[1..] + [DigitChar(d)];
      DigitsValueSnoc(s[1..], d, 10 * acc + (s[0] as int - '0' as int));
    }
  }

  lemma {:induction false} NatToStringDigits(n: nat)
    ensures |NatToString(n)| > 0 && forall i :: 0 <= i < |NatToString(n)| ==> IsDigit(NatToString(n)[i])
    ensures DigitsValue(NatToString(n), 0) == n
  {
    if n < 10 {
      assert DigitsValue([DigitChar(n)][1..], n) == n;
    } else {
      NatToStringDigits(n / 10);
      DigitsValueSnoc(NatToString(n / 10), n % 10, 0);
    }
  }

  function Pow10(k: nat): nat { if k == 0 then 1 else 10 * Pow10(k - 1) }

  /** A decimal numeral: digits, and none of them a leading zero. */
  predicate IsNumeral(s: string) {
    s != [] && (forall i :: 0 <= i < |s| ==> '0' <= s[i] <= '9') && (|s| == 1 || s[0] != '0')
  }

  /** Its value, digit by digit; the code of '0' is 48. */
  function Positional(s: string): int {
    if s == [] then 0 else (s[0] as int - 48) * Pow10(|s| - 1) + Positional(s[1..])
  }

  lemma {:induction false} PositionalSnoc(s: string, c: char)
    ensures Positional(s + [c]) == 10 * Positional(s) + (c as int - 48)
    decreases |s|
  {
    if s == [] {
      assert [] + [c] == [c] && [c][1..] == [];
      assert Pow10(0) == 1;
    } else {
      assert (s + [c])[1..] == s[1..] + [c];
      PositionalSnoc(s[1..], c);
      TimesTen(s[0] as int - 48, Pow10(|s| - 1));
    }
  }

  lemma TimesTen(d: int, p: int)
    ensures d * (10 * p) == 10 * (d * p)
  {
  }

  lemma NumeralInit(s: string)
    requires IsNumeral(s) && |s| > 1
    ensures IsNumeral(s[..|s| - 1]) && s[0] != '0'
  {
  }

  lemma {:induction false} PositionalSign(s: string)
    requires IsNumeral(s)
    ensures Positional(s) >= if s[0] == '0' then 0 else 1
    decreases |s|
  {
    Snoc(s);
    PositionalSnoc(s[..|s| - 1], s[|s| - 1]);
    if |s| > 1 {
      NumeralInit(s);
      PositionalSign(s[..|s| - 1]);
    } else {
      assert s[..0] == [];
    }
  }

  /** std::to_string of a number is the one numeral of that value. */
  lemma {:induction false} NumeralIff(s: string, n: nat)
    ensures s == NatToString(n) <==> IsNumeral(s) && Positional(s) == n
    decreases n
  {
    NumeralOf(n);
    if IsNumeral(s) && Positional(s) == n { NumeralUnique(s, NatToString(n)); }
  }

  lemma {:induction false} NumeralOf(n: nat)
    ensures IsNumeral(NatToString(n)) && Positional(NatToString(n)) == n
    ensures n > 0 ==> NatToString(n)[0] != '0'
  {
    if n < 10 {
      assert [] + [DigitChar(n)] == [DigitChar(n)];
      PositionalSnoc([], DigitChar(n));
    } else {
      NumeralOf(n / 10);
      PositionalSnoc(NatToString(n / 10), DigitChar(n % 10));
    }
  }

  lemma OneDigit(s: string, c: char, d: string, e: char)
    requires '0' <= c <= '9' && '0' <= e <= '9' && Positional(s + [c]) == Positional(d + [e])
    ensures c == e && Positional(s) == Positional(d)
  {
    PositionalSnoc(s, c);
    PositionalSnoc(d, e);
  }

  lemma {:induction false} NumeralUnique(s: string, t: string)
    requires IsNumeral(s) && IsNumeral(t) && Positional(s) == Positional(t)
    ensures s == t
    decreases |s| + |t|
  {
    Snoc(s);
    Snoc(t);
    OneDigit(s[..|s| - 1], s[|s| - 1], t[..|t| - 1], t[|t| - 1]);
    if |s| > 1 {
      NumeralInit(s);
      PositionalSign(s[..|s| - 1]);
    }
    if |t| > 1 {
      NumeralInit(t);
      PositionalSign(t[..|t| - 1]);
    }
    if |s| > 1 && |t| > 1 { NumeralUnique(s[..|s| - 1], t[..|t| - 1]); }
    assert |s| == 1 ==> s[..|s| - 1] == [];
    assert |t| == 1 ==> t[..|t| - 1] == [];
  }

  // ---- atoi

  lemma {:induction false} DigitsStop(s: string, rest: string, acc: nat)
    requires (forall i :: 0 <= i < |s| ==> IsDigit(s[i])) && (rest == [] || !IsDigit(rest[0]))
    ensures DigitsValue(s + rest, acc) == DigitsValue(s, acc)
    decreases |s|
  {
    if s == [] {
      assert [] + rest == rest;
    } else {
      assert (s + rest)[1..] == s[1..] + rest;
      DigitsStop(s[1..], rest, 10 * acc + (s[0] as int - '0' as int));
    }
  }

  /** Blanks, and the characters from tab to carriage return. */
  ghost predicate White(s: string) {
    forall i :: 0 <= i < |s| ==> s[i] == ' ' || '\t' <= s[i] <= '\r'
  }

  lemma {:induction false} AtoiSkips(spaces: string, t: string)
    requires White(spaces)
    ensures Atoi(spaces + t) == Atoi(t)
    decreases |spaces|
  {
    if spaces == [] {
      assert [] + t == t;
    } else {
      assert (spaces + t)[1..] == spaces[1..] + t;
      AtoiSkips(spaces[1..], t);
    }
  }

  lemma SignOut(sign: char, t: string)
    ensures [sign] + t != [] && ([sign] + t)[0] == sign && ([sign] + t)[1..] == t
  {
  }

  lemma AtoiMinus(t: string)
    ensures Atoi(['-'] + t) == 0 - DigitsValue(t, 0)
  {
    SignOut('-', t);
  }

  lemma AtoiPlus(t: string)
    ensures Atoi(['+'] + t) == DigitsValue(t, 0)
  {
    SignOut('+', t);
  }

  lemma AtoiDigit(t: string)
    requires t != [] && IsDigit(t[0])
    ensures Atoi(t) == DigitsValue(t, 0)
  {
  }

  lemma NumeralThen(n: nat, rest: string, t: string)
    requires t == NatToString(n) + rest && (rest == [] || !('0' <= rest[0] <= '9'))
    ensures DigitsValue(t, 0) == n && t != [] && IsDigit(t[0])
  {
    NatToStringDigits(n);
    DigitsStop(NatToString(n), rest, 0);
  }

  /** White space, a sign, a numeral and anything that does not begin with a digit: the numeral counts. */
  lemma AtoiReads(spaces: string, n: nat, rest: string, t: string)
    requires White(spaces) && t == NatToString(n) + rest && (rest == [] || !('0' <= rest[0] <= '9'))
    ensures Atoi(spaces + t) == Atoi(spaces + (['+'] + t)) == n && Atoi(spaces + (['-'] + t)) == 0 - n
  {
    NumeralThen(n, rest, t);
    AtoiDigit(t);
    AtoiPlus(t);
    AtoiMinus(t);
    AtoiSkips(spaces, t);
    AtoiSkips(spaces, ['-'] + t);
    AtoiSkips(spaces, ['+'] + t);
  }

  /** Without a digit after white space and a sign there is nothing to read. */
  lemma AtoiOfNone(spaces: string, rest: string)
    requires White(spaces)
    requires rest == [] || !(rest[0] == ' ' || '\t' <= rest[0] <= '\r' || rest[0] in "+-0123456789")
    ensures Atoi(spaces + rest) == 0
  {
    AtoiSkips(spaces, rest);
    if rest != [] { assert !IsDigit(rest[0]); }
  }

  /** Reading back a printed number gives the number. */
  lemma AtoiToString(n: int)
    ensures Atoi(ToString(n)) == n
  {
    if n < 0 {
      NatToStringDigits(-n);
      assert ("-" + NatToString(-n))[1..] == NatToString(-n);
    } else {
      NatToStringDigits(n);
      assert IsDigit(NatToString(n)[0]);
    }
  }

  function SumAtoi(values: seq<string>): int {
    if values == [] then 0 else SumAtoi(values[..|values| - 1]) + Atoi(values[|values| - 1])
  }

  /** UserReducer::reduce: transform with atoi, accumulate, emit the total. */
  function SumReducer(key: string, values: seq<string>): seq<Pair> {
    [(key, ToString(SumAtoi(values)))]
  }

  method UserReduce(key: string, values: seq<string>) returns (emitted: seq<Pair>)
    ensures emitted == SumReducer(key, values)
  {
    var counts: seq<int> := [];
    for i := 0 to |values|
      invariant |counts| == i && forall j :: 0 <= j < i ==> counts[j] == Atoi(values[j])
    {
      counts := counts + [Atoi(values[i])];
    }
    var total := 0;
    for i := 0 to |counts|
      invariant total == SumAtoi(values[..i])
    {
      assert values[..i + 1][..i] == values[..i];
      total := total + counts[i];
    }
    assert values[..|values|] == values;
    emitted := [(key, ToString(total))];
  }

  // ---- counting

  /** How often `word` occurs in the records. */
  function Occurrences(word: string, lines: seq<string>): nat {
    if lines == [] then 0
    else Occurrences(word, lines[..|lines| - 1]) + multiset(Words(CStr(lines[|lines| - 1])))[word]
  }

  /** Where `word` is in the records: record and position. */
  ghost function Places(word: string, lines: seq<string>): set<(nat, nat)> {
    set l: nat, i: nat | l < |lines| && i in RunsOf(lines[l], word) :: (l, i)
  }

  lemma PlacesInLast(word: string, lines: seq<string>)
    requires lines != []
    ensures |Places(word, lines)| == |Places(word, lines[..|lines| - 1])| + |RunsOf(lines[|lines| - 1], word)|
  {
    var n := |lines| - 1;
    var before, runs := Places(word, lines[..n]), RunsOf(lines[n], word);
    var there := set i: nat | i in runs :: (n, i);
    PairedSize(n, runs);
    assert Places(word, lines) == before + there;
  }

  lemma {:induction false} PairedSize(n: nat, runs: set<nat>)
    ensures |set i: nat | i in runs :: (n, i)| == |runs|
    decreases |runs|
  {
    if runs != {} {
      var x :| x in runs;
      PairedSize(n, runs - {x});
      assert (set i: nat | i in runs :: (n, i)) == (set i: nat | i in runs - {x} :: (n, i)) + {(n, x)};
    }
  }

  ghost predicate NoNul(lines: seq<string>) {
    forall i :: 0 <= i < |lines| ==> '\0' !in lines[i]
  }

  /** In records without NUL a word occurs as often as there are places where it is a run. */
  lemma {:induction false} OccurrencesArePlaces(word: string, lines: seq<string>)
    requires NoNul(lines)
    ensures Occurrences(word, lines) == |Places(word, lines)|
    decreases |lines|
  {
    if lines == [] {
      assert Places(word, lines) == {};
    } else {
      var last := lines[|lines| - 1];
      OccurrencesArePlaces(word, lines[..|lines| - 1]);
      CStrIs(last, "");
      CountIsRuns(last, word);
      PlacesInLast(word, lines);
    }
  }

  ghost predicate AllOnes(values: seq<string>) {
    forall i :: 0 <= i < |values| ==> values[i] == "1"
  }

  lemma {:induction false} SumOfOnes(values: seq<string>)
    requires AllOnes(values)
    ensures SumAtoi(values) == |values|
    decreases |values|
  {
    if values != [] {
      var last := values[|values| - 1];
      AtoiToString(1);
      assert DigitChar(1) == '1';
      assert ToString(1) == [DigitChar(1)];
      SumOfOnes(values[..|values| - 1]);
    }
  }

  lemma {:induction false} ValuesOfOnes(ws: seq<string>, word: string)
    ensures AllOnes(ValuesOf(Ones(ws), word)) && |ValuesOf(Ones(ws), word)| == multiset(ws)[word]
    decreases |ws|
  {
    if ws != [] {
      var ws', w := ws[..|ws| - 1], ws[|ws| - 1];
      ValuesOfOnes(ws', word);
      assert Ones(ws)[..|ws| - 1] == Ones(ws');
      Snoc(ws);
      assert multiset(ws) == multiset(ws') + multiset{w};
    }
  }

  /** A word gets one value "1" for each of its occurrences. */
  lemma {:induction false} ValuesOfWord(lines: seq<string>, word: string)
    ensures AllOnes(ValuesOf(MapLines(WordMapper, lines), word))
    ensures |ValuesOf(MapLines(WordMapper, lines), word)| == Occurrences(word, lines)
    decreases |lines|
  {
    if lines != [] {
      var last := lines[|lines| - 1];
      ValuesOfWord(lines[..|lines| - 1], word);
      ValuesOfOnes(Words(CStr(last)), word);
      ValuesOfConcat(MapLines(WordMapper, lines[..|lines| - 1]), WordMapper(last), word);
    }
  }
}
