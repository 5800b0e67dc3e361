/** The vCPU scheduler (project1-1/cpu/src/vcpu_scheduler.c). */
module CpuScheduler {
  import opened Sequences
  import opened Loads
  import opened LongestFirst
  import opened Pinning
  import FewVms

  const BALANCE_THRESHOLD := 5.0

  // VM_CPU_Usage
  datatype Usage = Usage(cpuUsage: real, vmId: nat)

  /** cmp_vm_usage */
  function CmpVmUsage(a: Usage, b: Usage): int {
    if a.cpuUsage > b.cpuUsage then -1 else if a.cpuUsage == b.cpuUsage then 0 else 1
  }

  function Sizes(vms: seq<Usage>): seq<real> {
    seq(|vms|, i requires 0 <= i < |vms| => vms[i].cpuUsage)
  }

  /** The pCPU of VM `v` under a mapping. */
  function CpuOf(mapping: seq<nat>, v: nat): nat {
    if v < |mapping| then mapping[v] else 0
  }

  function Cpus(vms: seq<Usage>, mapping: seq<nat>): seq<nat> {
    seq(|vms|, i requires 0 <= i < |vms| => CpuOf(mapping, vms[i].vmId))
  }

  /** The usages of the VMs that a mapping puts on pCPU `j`. */
  function LoadOf(vms: seq<Usage>, mapping: seq<nat>, j: nat): real {
    if vms == [] then 0.0 else
    var last := vms[|vms| - 1];
    LoadOf(vms[..|vms| - 1], mapping, j) + if CpuOf(mapping, last.vmId) == j then last.cpuUsage else 0.0
  }

  lemma {:induction false} LoadOfPrefix(vms: seq<Usage>, mapping: seq<nat>, j: nat, n: nat)
    requires n <= |vms|
    ensures LoadOf(vms[..n], mapping, j) == Load(Sizes(vms), Cpus(vms, mapping), j, n)
    decreases n
  {
    if n > 0 {
      LoadOfPrefix(vms, mapping, j, n - 1);
      SliceInit(vms, n);
    }
  }

  lemma LoadOfIsLoad(vms: seq<Usage>, mapping: seq<nat>, j: nat)
    ensures LoadOf(vms, mapping, j) == Load(Sizes(vms), Cpus(vms, mapping), j, |vms|)
  {
    LoadOfPrefix(vms, mapping, j, |vms|);
    TakeAll(vms);
  }

  lemma {:induction false} LoadOfConcat(a: seq<Usage>, b: seq<Usage>, mapping: seq<nat>, j: nat)
    ensures LoadOf(a + b, mapping, j) == LoadOf(a, mapping, j) + LoadOf(b, mapping, j)
    decreases |b|
  {
    if b == [] {
      EmptyRight(a);
    } else {
      ConcatInit(a, b);
      LoadOfConcat(a, b[..|b| - 1], mapping, j);
    }
  }

  lemma LoadOfOne(vm: Usage, mapping: seq<nat>, j: nat)
    requires vm.vmId < |mapping|
    ensures LoadOf([vm], mapping, j) == if mapping[vm.vmId] == j then vm.cpuUsage else 0.0
  {
    assert [vm][..0] == [];
  }

  /** The load of a pCPU does not depend on the order in which the VMs are listed. */
  lemma {:induction false} LoadOfPermuted(a: seq<Usage>, b: seq<Usage>, mapping: seq<nat>, j: nat)
    requires multiset(a) == multiset(b)
    ensures LoadOf(a, mapping, j) == LoadOf(b, mapping, j)
    decreases |a|
  {
    if a == [] {
      MultisetEmpty(b);
    } else {
      var x := a[|a| - 1];
      LastOut(a);
      var l, r := Split(b, x);
      LoadOfPermuted(a[..|a| - 1], l + r, mapping, j);
      LoadOfConcat(l + [x], r, mapping, j);
      LoadOfConcat(l, r, mapping, j);
      Snoc(l + [x]);
      ConcatInit(l, [x]);
      EmptyRight(l);
    }
  }

  // ---- sorting

  ghost predicate Sorted(vms: seq<Usage>) {
    forall i, k :: 0 <= i < k < |vms| ==> CmpVmUsage(vms[i], vms[k]) <= 0
  }

  /** The comparator is a total preorder, heaviest first: what qsort demands of it. */
  lemma CmpVmUsageOrders(a: Usage, b: Usage, c: Usage)
    ensures CmpVmUsage(a, b) == -CmpVmUsage(b, a)
    ensures CmpVmUsage(a, b) <= 0 && CmpVmUsage(b, c) <= 0 ==> CmpVmUsage(a, c) <= 0
    ensures CmpVmUsage(a, b) <= 0 <==> a.cpuUsage >= b.cpuUsage
  {
  }

  /** Some sort that uses the comparator; that of the C library is not part of this model. */
  method Sort(a: array<Usage>)
    modifies a
    ensures Sorted(a[..]) && multiset(a[..]) == old(multiset(a[..]))
  {
    for i := 0 to a.Length
      invariant Sorted(a[..i])
      invariant multiset(a[..]) == old(multiset(a[..]))
    {
      Insert(a, i);
    }
    TakeAll(a[..]);
  }

  method Swap(a: array<Usage>, k: nat)
    requires 0 < k < a.Length
    modifies a
    ensures a[..] == old(a[..][k - 1 := a[k]][k := a[k - 1]]) && multiset(a[..]) == old(multiset(a[..]))
  {
    a[k - 1], a[k] := a[k], a[k - 1];
  }

  /** The first `n + 1` elements are in order, but for the one at `k`, which may belong further to the front. */
  ghost predicate SortedBut(s: seq<Usage>, n: nat, k: nat) {
    k <= n < |s| && forall i, j :: 0 <= i < j <= n && j != k ==> CmpVmUsage(s[i], s[j]) <= 0
  }

  lemma SortedSwap(s: seq<Usage>, n: nat, k: nat)
    requires SortedBut(s, n, k) && k > 0 && CmpVmUsage(s[k - 1], s[k]) > 0
    ensures SortedBut(s[k - 1 := s[k]][k := s[k - 1]], n, k - 1)
  {
  }

  method Insert(a: array<Usage>, n: nat)
    requires n < a.Length && Sorted(a[..n])
    modifies a
    ensures Sorted(a[..n + 1]) && multiset(a[..]) == old(multiset(a[..]))
  {
    var k: nat := n;
    assert SortedBut(a[..], n, k) by {
      assert forall i :: 0 <= i < n ==> a[..][i] == a[..n][i];
    }
    while k > 0 && CmpVmUsage(a[k - 1], a[k]) > 0
      invariant SortedBut(a[..], n, k)
      invariant multiset(a[..]) == old(multiset(a[..]))
    {
      SortedSwap(a[..], n, k);
      Swap(a, k);
      k := k - 1;
    }
    SortedEnough(a[..], n, k);
    assert a[..n + 1] == a[..][..n + 1];
  }

  lemma SortedEnough(s: seq<Usage>, n: nat, k: nat)
    requires SortedBut(s, n, k) && (k == 0 || CmpVmUsage(s[k - 1], s[k]) <= 0)
    ensures Sorted(s[..n + 1])
  {
    forall i | 0 <= i < k ensures CmpVmUsage(s[i], s[k]) <= 0 {
      if i < k - 1 { CmpVmUsageOrders(s[i], s[k - 1], s[k]); }
    }
  }

  // ---- balance

  function Sum(w: seq<real>): real {
    if w == [] then 0.0 else Sum(w[..|w| - 1]) + w[|w| - 1]
  }

  function SquaredDiffs(w: seq<real>, mean: real): real {
    if w == [] then 0.0 else
    var diff := w[|w| - 1] - mean;
    SquaredDiffs(w[..|w| - 1], mean) + diff * diff
  }

  function Variance(w: seq<real>): real
    requires w != []
  {
    SquaredDiffs(w, Sum(w) / |w| as real) / |w| as real
  }

  // ---- the variance from the differences between the workloads

  /** The squares of the differences between `x` and the first `n` workloads. */
  function SquaresFrom(w: seq<real>, x: real, n: nat): real
    requires n <= |w|
  {
    if n == 0 then 0.0 else SquaresFrom(w, x, n - 1) + (w[n - 1] - x) * (w[n - 1] - x)
  }

  /** The squares of the differences between each of the first `n` workloads and every workload. */
  function PairSquares(w: seq<real>, n: nat): real
    requires n <= |w|
  {
    if n == 0 then 0.0 else PairSquares(w, n - 1) + SquaresFrom(w, w[n - 1], |w|)
  }

  function Squares(w: seq<real>): real {
    if w == [] then 0.0 else Squares(w[..|w| - 1]) + w[|w| - 1] * w[|w| - 1]
  }

  /** The squared differences from `x` in terms of the sums over the workloads. */
  ghost predicate DiffsExpanded(diffs: real, squares: real, sum: real, n: real, x: real) {
    diffs == squares - 2.0 * (x * sum) + n * (x * x)
  }

  lemma DiffsExpandedNext(d: real, x: real, diffs: real, squares: real, sum: real, n: real)
    requires DiffsExpanded(diffs, squares, sum, n, x)
    ensures DiffsExpanded(diffs + (d - x) * (d - x), squares + d * d, sum + d, n + 1.0, x)
  {
  }

  // The squared differences of the first workloads from a value, the sums of their squares and of themselves, and their
  // number.
  datatype Diffs = Diffs(diffs: real, squares: real, sum: real, count: real)

  function NextDiff(d: real, x: real, t: Diffs): Diffs {
    Diffs(t.diffs + (d - x) * (d - x), t.squares + d * d, t.sum + d, t.count + 1.0)
  }

  function DiffsOf(w: seq<real>, x: real): Diffs {
    if w == [] then Diffs(0.0, 0.0, 0.0, 0.0) else NextDiff(w[|w| - 1], x, DiffsOf(w[..|w| - 1], x))
  }

  lemma {:induction false} DiffsAre(w: seq<real>, x: real)
    ensures DiffsOf(w, x) == Diffs(SquaredDiffs(w, x), Squares(w), Sum(w), |w| as real)
    decreases |w|
  {
    if w != [] { DiffsAre(w[..|w| - 1], x); }
  }

  ghost predicate AllExpanded(t: Diffs, x: real) {
    DiffsExpanded(t.diffs, t.squares, t.sum, t.count, x)
  }

  lemma AllExpandedNext(d: real, x: real, t: Diffs)
    requires AllExpanded(t, x)
    ensures AllExpanded(NextDiff(d, x, t), x)
  {
    DiffsExpandedNext(d, x, t.diffs, t.squares, t.sum, t.count);
  }

  lemma {:induction false} DiffsOfExpand(w: seq<real>, x: real)
    ensures AllExpanded(DiffsOf(w, x), x)
    decreases |w|
  {
    if w == [] {
      NoDiffs(x);
    } else {
      DiffsOfExpand(w[..|w| - 1], x);
      AllExpandedNext(w[|w| - 1], x, DiffsOf(w[..|w| - 1], x));
    }
  }

  lemma NoDiffs(x: real)
    ensures AllExpanded(Diffs(0.0, 0.0, 0.0, 0.0), x)
  {
  }

  lemma DiffsExpand(w: seq<real>, x: real)
    ensures DiffsExpanded(SquaredDiffs(w, x), Squares(w), Sum(w), |w| as real, x)
  {
    DiffsAre(w, x);
    DiffsOfExpand(w, x);
  }

  lemma {:induction false} SquaresFromIs(w: seq<real>, x: real, n: nat)
    requires n <= |w|
    ensures SquaresFrom(w, x, n) == SquaredDiffs(w[..n], x)
    decreases n
  {
    if n > 0 {
      SquaresFromIs(w, x, n - 1);
      SliceInit(w, n);
    }
  }

  lemma ExpandRow(row: real, x: real, pairs: real, s2: real, s: real, m: real, k: real, p2: real, p: real)
    requires row == s2 - 2.0 * (x * s) + m * (x * x) && pairs == k * s2 - 2.0 * (p * s) + m * p2
    ensures pairs + row == (k + 1.0) * s2 - 2.0 * ((p + x) * s) + m * (p2 + x * x)
  {
  }

  /** The sum over pairs in terms of the sums over single workloads. */
  ghost predicate Expanded(pairs: real, s2: real, s: real, m: real, k: real, p2: real, p: real) {
    pairs == k * s2 - 2.0 * (p * s) + m * p2
  }

  lemma ExpandedNext(row: real, x: real, pairs: real, s2: real, s: real, m: real, k: real, p2: real, p: real)
    requires DiffsExpanded(row, s2, s, m, x) && Expanded(pairs, s2, s, m, k, p2, p)
    ensures Expanded(pairs + row, s2, s, m, k + 1.0, p2 + x * x, p + x)
  {
    ExpandRow(row, x, pairs, s2, s, m, k, p2, p);
  }

  lemma RowIs(w: seq<real>, x: real)
    ensures DiffsExpanded(SquaresFrom(w, x, |w|), Squares(w), Sum(w), |w| as real, x)
  {
    SquaresFromIs(w, x, |w|);
    TakeAll(w);
    DiffsExpand(w, x);
  }

  // The sum over the pairs of the first rows, their number, and the sums over their squares and their workloads.
  datatype Rows = Rows(pairs: real, count: real, squares: real, sum: real)

  function NextRow(w: seq<real>, i: nat, t: Rows): Rows
    requires i < |w|
  {
    Rows(t.pairs + SquaresFrom(w, w[i], |w|), t.count + 1.0, t.squares + w[i] * w[i], t.sum + w[i])
  }

  function FirstRows(w: seq<real>, n: nat): Rows
    requires n <= |w|
  {
    if n == 0 then Rows(0.0, 0.0, 0.0, 0.0) else NextRow(w, n - 1, FirstRows(w, n - 1))
  }

  lemma {:induction false} FirstRowsAre(w: seq<real>, n: nat)
    requires n <= |w|
    ensures FirstRows(w, n) == Rows(PairSquares(w, n), n as real, Squares(w[..n]), Sum(w[..n]))
    decreases n
  {
    if n > 0 {
      FirstRowsAre(w, n - 1);
      SliceInit(w, n);
    }
  }

  ghost predicate RowsExpanded(t: Rows, s2: real, s: real, m: real) {
    Expanded(t.pairs, s2, s, m, t.count, t.squares, t.sum)
  }

  lemma RowsExpandedNext(w: seq<real>, i: nat, t: Rows, s2: real, s: real, m: real)
    requires i < |w| && s2 == Squares(w) && s == Sum(w) && m == |w| as real && RowsExpanded(t, s2, s, m)
    ensures RowsExpanded(NextRow(w, i, t), s2, s, m)
  {
    RowIs(w, w[i]);
    ExpandedNext(SquaresFrom(w, w[i], |w|), w[i], t.pairs, s2, s, m, t.count, t.squares, t.sum);
  }

  lemma {:induction false} FirstRowsExpand(w: seq<real>, n: nat, s2: real, s: real, m: real)
    requires n <= |w| && s2 == Squares(w) && s == Sum(w) && m == |w| as real
    ensures RowsExpanded(FirstRows(w, n), s2, s, m)
    decreases n
  {
    if n > 0 {
      FirstRowsExpand(w, n - 1, s2, s, m);
      RowsExpandedNext(w, n - 1, FirstRows(w, n - 1), s2, s, m);
    } else {
      NoRows(s2, s, m);
    }
  }

  lemma NoRows(s2: real, s: real, m: real)
    ensures RowsExpanded(Rows(0.0, 0.0, 0.0, 0.0), s2, s, m)
  {
  }

  lemma PairsExpand(w: seq<real>, s2: real, s: real, m: real)
    requires s2 == Squares(w) && s == Sum(w) && m == |w| as real
    ensures Expanded(PairSquares(w, |w|), s2, s, m, m, s2, s)
  {
    FirstRowsExpand(w, |w|, s2, s, m);
    FirstRowsAre(w, |w|);
    TakeAll(w);
  }

  /** Twice the variance of `m` values, times m^2, is `pairs`. */
  ghost predicate Pairwise(variance: real, m: real, pairs: real) {
    2.0 * (m * (m * variance)) == pairs
  }

  lemma ExpandMean(m: real, mean: real, s: real, s2: real, d: real, v: real, pairs: real)
    requires m * mean == s && m * v == d && DiffsExpanded(d, s2, s, m, mean)
    requires Expanded(pairs, s2, s, m, m, s2, s)
    ensures Pairwise(v, m, pairs)
  {
    assert m * (mean * s) == s * s;
    assert m * (m * (mean * mean)) == s * s;
    assert m * d == m * s2 - 2.0 * (m * (mean * s)) + m * (m * (mean * mean));
  }

  lemma Divided(n: nat, x: real)
    requires n > 0
    ensures n as real * (x / n as real) == x
  {
  }

  lemma VarianceParts(w: seq<real>, m: real) returns (mean: real, d: real, v: real)
    requires w != [] && m == |w| as real
    ensures v == Variance(w) && d == SquaredDiffs(w, mean) && m * mean == Sum(w) && m * v == d
  {
    mean := Sum(w) / |w| as real;
    d := SquaredDiffs(w, mean);
    v := d / |w| as real;
    Divided(|w|, Sum(w));
    Divided(|w|, d);
  }

  /** The variance, and what it takes to relate it to the pairs. */
  lemma VarianceTerms(w: seq<real>, m: real) returns (mean: real, s: real, s2: real, d: real, v: real)
    requires w != [] && m == |w| as real
    ensures v == Variance(w) && m * mean == s && m * v == d
    ensures DiffsExpanded(d, s2, s, m, mean) && Expanded(PairSquares(w, |w|), s2, s, m, m, s2, s)
  {
    mean, d, v := VarianceParts(w, m);
    s, s2 := Sum(w), Squares(w);
    DiffsExpand(w, mean);
    PairsExpand(w, s2, s, m);
  }

  /** Twice the variance, times the number of workloads squared: the squared differences of all pairs, summed up. */
  lemma VarianceIsPairwise(w: seq<real>, m: real)
    requires w != [] && m == |w| as real
    ensures Pairwise(Variance(w), m, PairSquares(w, |w|))
  {
    var mean, s, s2, d, v := VarianceTerms(w, m);
    ExpandMean(m, mean, s, s2, d, v, PairSquares(w, |w|));
  }

  /** calculate_std_dev, without the square root. */
  method CalculateVariance(workloads: array<real>) returns (variance: real)
    requires workloads.Length > 0
    ensures variance == Variance(workloads[..])
    ensures Pairwise(variance, workloads.Length as real, PairSquares(workloads[..], workloads.Length))
  {
    var sum := 0.0;
    for i := 0 to workloads.Length
      invariant sum == Sum(workloads[..i])
    {
      SliceInit(workloads[..], i + 1);
      ArraySlice(workloads, i);
      sum := sum + workloads[i];
    }
    TakeAll(workloads[..]);
    var mean := sum / workloads.Length as real;
    var sumSquaredDiff := 0.0;
    for i := 0 to workloads.Length
      invariant sumSquaredDiff == SquaredDiffs(workloads[..i], mean)
    {
      SliceInit(workloads[..], i + 1);
      ArraySlice(workloads, i);
      var diff := workloads[i] - mean;
      sumSquaredDiff := sumSquaredDiff + diff * diff;
    }
    variance := sumSquaredDiff / workloads.Length as real;
    VarianceIsPairwise(workloads[..], workloads.Length as real);
  }

  lemma ArraySlice<T>(a: array<T>, i: nat)
    requires i < a.Length
    ensures a[..][..i + 1] == a[..i + 1] && a[..][..i] == a[..i] && a[..][i] == a[i]
  {
  }

  ghost predicate SpreadWithin(w: seq<real>, s: real) {
    forall i, j :: 0 <= i < |w| && 0 <= j < |w| ==> w[i] - w[j] <= s
  }

  /** The square of a distance from `c` is at most linear in the distance, at all workloads. */
  ghost predicate BelowLine(w: seq<real>, c: real, p: real, q: real) {
    forall i :: 0 <= i < |w| ==> (w[i] - c) * (w[i] - c) <= p * (w[i] - c) + q
  }

  lemma AllBelowLine(w: seq<real>, c: real, lo: real, hi: real)
    requires forall i :: 0 <= i < |w| ==> lo <= w[i] <= hi
    ensures BelowLine(w, c, hi + lo - 2.0 * c, (hi - c) * (c - lo))
  {
    forall i | 0 <= i < |w| ensures (w[i] - c) * (w[i] - c) <= (hi + lo - 2.0 * c) * (w[i] - c) + (hi - c) * (c - lo) {
      PointBound(w[i], c, lo, hi);
    }
  }

  lemma PointBound(x: real, c: real, lo: real, hi: real)
    requires lo <= x <= hi
    ensures (x - c) * (x - c) <= (hi + lo - 2.0 * c) * (x - c) + (hi - c) * (c - lo)
  {
    Multiply(hi - x, 0.0, x - lo);
    assert (hi - x) * (x - lo) >= 0.0;
  }

  function Deviations(w: seq<real>, c: real): real {
    if w == [] then 0.0 else Deviations(w[..|w| - 1], c) + (w[|w| - 1] - c)
  }

  lemma {:induction false} DeviationsAre(w: seq<real>, c: real)
    ensures Deviations(w, c) == Sum(w) - Times(|w|, c)
    decreases |w|
  {
    if w != [] { DeviationsAre(w[..|w| - 1], c); }
  }

  lemma Distribute(p: real, x: real, y: real)
    ensures p * (x + y) == p * x + p * y
  {
  }

  function ScaledDeviations(w: seq<real>, c: real, p: real): real {
    if w == [] then 0.0 else ScaledDeviations(w[..|w| - 1], c, p) + p * (w[|w| - 1] - c)
  }

  lemma {:induction false} ScaledDeviationsAre(w: seq<real>, c: real, p: real)
    ensures ScaledDeviations(w, c, p) == p * Deviations(w, c)
    decreases |w|
  {
    if w != [] {
      ScaledDeviationsAre(w[..|w| - 1], c, p);
      Distribute(p, Deviations(w[..|w| - 1], c), w[|w| - 1] - c);
    }
  }

  lemma {:induction false} SquaresBelowLine(w: seq<real>, c: real, p: real, q: real)
    requires BelowLine(w, c, p, q)
    ensures SquaredDiffs(w, c) <= ScaledDeviations(w, c, p) + Times(|w|, q)
    decreases |w|
  {
    if w != [] {
      BelowLineInit(w, c, p, q);
      SquaresBelowLine(w[..|w| - 1], c, p, q);
    }
  }

  lemma BelowLineInit(w: seq<real>, c: real, p: real, q: real)
    requires w != [] && BelowLine(w, c, p, q)
    ensures BelowLine(w[..|w| - 1], c, p, q)
    ensures (w[|w| - 1] - c) * (w[|w| - 1] - c) <= p * (w[|w| - 1] - c) + q
  {
  }

  lemma ProductPositive(a: real, b: real)
    requires a > 0.0 && b > 0.0
    ensures a * b > 0.0
  {
  }

  lemma Cancel(n: nat, r: real, q: real)
    requires n > 0 && Times(n, r) <= Times(n, q)
    ensures r <= q
  {
    TimesIs(n, r);
    TimesIs(n, q);
    assert n as real * (r - q) == n as real * r - n as real * q;
    if r > q {
      ProductPositive(n as real, r - q);
    }
  }

  lemma QuotientIs(n: nat, x: real)
    requires n > 0
    ensures Times(n, x / n as real) == x
  {
    TimesIs(n, x / n as real);
  }

  lemma MidPoint(c: real, lo: real, hi: real)
    ensures (hi - c) * (c - lo) <= (hi - lo) * (hi - lo) / 4.0
  {
    var x, y := hi - c, c - lo;
    SquareNonNegative(x - y);
    assert (x + y) * (x + y) == (x - y) * (x - y) + 4.0 * (x * y);
    assert hi - lo == x + y;
  }

  lemma SquareNonNegative(x: real)
    ensures x * x >= 0.0
  {
    if x < 0.0 { assert x * x == (-x) * (-x); }
  }

  lemma SquareGrows(a: real, b: real)
    requires 0.0 <= a <= b
    ensures a * a <= b * b
  {
    Multiply(a, a, b);
    Multiply(b, a, b);
  }

  lemma {:induction false} Extremes(w: seq<real>) returns (lo: nat, hi: nat)
    requires w != []
    ensures lo < |w| && hi < |w| && forall i :: 0 <= i < |w| ==> w[lo] <= w[i] <= w[hi]
    decreases |w|
  {
    lo, hi := 0, 0;
    if |w| > 1 {
      lo, hi := Extremes(w[..|w| - 1]);
      if w[|w| - 1] < w[lo] { lo := |w| - 1; }
      if w[|w| - 1] > w[hi] { hi := |w| - 1; }
    }
  }

  /** The variance is at most a quarter of the squared spread. */
  lemma VarianceBound(w: seq<real>, s: real)
    requires w != [] && SpreadWithin(w, s)
    ensures Variance(w) <= s * s / 4.0
  {
    var lo, hi := Extremes(w);
    VarianceBetween(w, w[lo], w[hi], s);
  }

  lemma VarianceBetween(w: seq<real>, lo: real, hi: real, s: real)
    requires w != [] && 0.0 <= hi - lo <= s && forall i :: 0 <= i < |w| ==> lo <= w[i] <= hi
    ensures Variance(w) <= s * s / 4.0
  {
    var c := Sum(w) / |w| as real;
    QuotientIs(|w|, Sum(w));
    QuotientIs(|w|, SquaredDiffs(w, c));
    SquaresAtMean(w, c, lo, hi);
    Cancel(|w|, Variance(w), (hi - c) * (c - lo));
    QuarterBound(c, lo, hi, s);
  }

  lemma QuarterBound(c: real, lo: real, hi: real, s: real)
    requires 0.0 <= hi - lo <= s
    ensures (hi - c) * (c - lo) <= s * s / 4.0
  {
    MidPoint(c, lo, hi);
    SquareGrows(hi - lo, s);
  }

  lemma SquaresAtMean(w: seq<real>, c: real, lo: real, hi: real)
    requires Times(|w|, c) == Sum(w) && forall i :: 0 <= i < |w| ==> lo <= w[i] <= hi
    ensures SquaredDiffs(w, c) <= Times(|w|, (hi - c) * (c - lo))
  {
    AllBelowLine(w, c, lo, hi);
    DeviationsAre(w, c);
    SquaresBelowLine(w, c, hi + lo - 2.0 * c, (hi - c) * (c - lo));
    ScaledDeviationsAre(w, c, hi + lo - 2.0 * c);
  }

  // ---- placing

  /** new_mapping (0 means that no VM has been put there), workloads, and the pCPU chosen for each VM so far. */
  datatype Placement = Placement(newMapping: seq<nat>, workloads: seq<real>, cpus: seq<nat>)

  /** The first pCPU that counts as empty; the length if there is none. */
  function FirstEmpty(s: seq<nat>): (j: nat)
    ensures j <= |s| && (forall i :: 0 <= i < j ==> s[i] != 0) && (j < |s| ==> s[j] == 0)
  {
    if s == [] || s[0] == 0 then 0 else 1 + FirstEmpty(s[1..])
  }

  /** The first pCPU of least load. */
  function MinCpu(w: seq<real>): (c: nat)
    requires w != []
    ensures c < |w| && (forall j :: 0 <= j < |w| ==> w[c] <= w[j]) && (forall j :: 0 <= j < c ==> w[j] > w[c])
  {
    if |w| == 1 then 0 else
    var c := MinCpu(w[..|w| - 1]);
    if w[|w| - 1] < w[c] then |w| - 1 else c
  }

  function Start(m: nat): Placement {
    Placement(seq(m, _ => 0), seq(m, _ => 0.0), [])
  }

  /** The pCPU that the code picks. */
  function Pick(p: Placement, home: nat): nat {
    if home < |p.newMapping| && p.newMapping[home] == 0 then home else FirstEmpty(p.newMapping)
  }

  /**
   One of the heaviest VMs stays where it is if that pCPU counts as empty, and otherwise goes to the first that does.
  */
  function PlaceHeavy(p: Placement, vm: Usage, home: nat): Placement {
    var c := Pick(p, home);
    if c < |p.newMapping| && c < |p.workloads|
    then Placement(p.newMapping[c := vm.vmId], p.workloads[c := vm.cpuUsage], p.cpus + [c])
    else p
  }

  /** Every other VM goes to a pCPU of least load. */
  function PlaceLight(p: Placement, vm: Usage): Placement {
    if p.workloads == [] then p else
    var c := MinCpu(p.workloads);
    p.(workloads := p.workloads[c := p.workloads[c] + vm.cpuUsage], cpus := p.cpus + [c])
  }

  function Place(vms: seq<Usage>, mapping: seq<nat>, m: nat, i: nat): Placement
    requires i <= |vms|
  {
    if i == 0 then Start(m) else
    var p, vm := Place(vms, mapping, m, i - 1), vms[i - 1];
    if i - 1 < m then PlaceHeavy(p, vm, CpuOf(mapping, vm.vmId)) else PlaceLight(p, vm)
  }

  function NonZeros(s: seq<nat>): nat {
    if s == [] then 0 else NonZeros(s[..|s| - 1]) + if s[|s| - 1] == 0 then 0 else 1
  }

  lemma {:induction false} NonZerosUpdate(s: seq<nat>, c: nat, v: nat)
    requires c < |s|
    ensures NonZeros(s[c := v]) <= NonZeros(s) + 1
    decreases |s|
  {
    if c < |s| - 1 {
      assert s[c := v][..|s| - 1] == s[..|s| - 1][c := v];
      NonZerosUpdate(s[..|s| - 1], c, v);
    } else {
      assert s[c := v][..|s| - 1] == s[..|s| - 1];
    }
  }

  lemma {:induction false} NonZerosFull(s: seq<nat>)
    requires forall i :: 0 <= i < |s| ==> s[i] != 0
    ensures NonZeros(s) == |s|
    decreases |s|
  {
    if s != [] { NonZerosFull(s[..|s| - 1]); }
  }

  lemma {:induction false} NonZerosNone(m: nat)
    ensures NonZeros(seq(m, _ => 0)) == 0
  {
    if m > 0 {
      assert seq(m, _ => 0)[..m - 1] == seq(m - 1, _ => 0);
      NonZerosNone(m - 1);
    }
  }

  /** Every VM that has had its turn has been put on some pCPU, whatever the ids are. */
  lemma {:induction false} PlacedAll(vms: seq<Usage>, mapping: seq<nat>, m: nat, i: nat)
    requires 0 < m && i <= |vms|
    ensures var p := Place(vms, mapping, m, i);
      && |p.newMapping| == |p.workloads| == m && |p.cpus| == i && Assigns(p.cpus, i, m)
      && (i <= m ==> NonZeros(p.newMapping) <= i)
    decreases i
  {
    if i == 0 {
      NonZerosNone(m);
    } else {
      PlacedAll(vms, mapping, m, i - 1);
      var p := Place(vms, mapping, m, i - 1);
      if i - 1 < m {
        var c := FirstEmpty(p.newMapping);
        if c == m { NonZerosFull(p.newMapping); }
        var home := CpuOf(mapping, vms[i - 1].vmId);
        NonZerosUpdate(p.newMapping, if home < m && p.newMapping[home] == 0 then home else c, vms[i - 1].vmId);
      }
    }
  }

  lemma PlaceStep(vms: seq<Usage>, mapping: seq<nat>, m: nat, i: nat)
    requires 0 < m && i < |vms|
    ensures var p, q := Place(vms, mapping, m, i), Place(vms, mapping, m, i + 1);
      |p.cpus| == i && |q.cpus| == i + 1 && q.cpus[..i] == p.cpus &&
        (m <= i ==> p.workloads != [] && q.cpus[i] == MinCpu(p.workloads))
  {
    PlacedAll(vms, mapping, m, i);
    PlacedAll(vms, mapping, m, i + 1);
  }

  /** Earlier choices stand. */
  lemma {:induction false} PlaceAgrees(vms: seq<Usage>, mapping: seq<nat>, m: nat, k: nat, i: nat)
    requires 0 < m && k <= i <= |vms|
    ensures var p, q := Place(vms, mapping, m, k), Place(vms, mapping, m, i);
      |p.cpus| == k && |q.cpus| == i && forall x :: 0 <= x < k ==> q.cpus[x] == p.cpus[x]
    decreases i
  {
    if k == i {
      PlacedAll(vms, mapping, m, k);
    } else {
      PlaceAgrees(vms, mapping, m, k, i - 1);
      NextAgrees(vms, mapping, m, Place(vms, mapping, m, k).cpus, i - 1);
    }
  }

  lemma NextAgrees(vms: seq<Usage>, mapping: seq<nat>, m: nat, cpus: seq<nat>, i: nat)
    requires 0 < m && |cpus| <= i < |vms|
    requires var q := Place(vms, mapping, m, i); |q.cpus| == i && forall x :: 0 <= x < |cpus| ==> q.cpus[x] == cpus[x]
    ensures var q := Place(vms, mapping, m, i + 1);
      |q.cpus| == i + 1 && forall x :: 0 <= x < |cpus| ==> q.cpus[x] == cpus[x]
  {
    PlaceStep(vms, mapping, m, i);
    AgreesMore(cpus, Place(vms, mapping, m, i).cpus, Place(vms, mapping, m, i + 1).cpus);
  }

  lemma AgreesMore<T>(p: seq<T>, q: seq<T>, r: seq<T>)
    requires |p| <= |q| < |r| && r[..|q|] == q && forall x :: 0 <= x < |p| ==> q[x] == p[x]
    ensures forall x :: 0 <= x < |p| ==> r[x] == p[x]
  {
    assert forall x :: 0 <= x < |q| ==> r[x] == r[..|q|][x];
  }

  // ---- VM 0

  /** As long as fewer than `m` VMs are placed, some pCPU counts as empty. */
  lemma OneIsEmpty(vms: seq<Usage>, mapping: seq<nat>, m: nat, i: nat)
    requires i < m && i <= |vms|
    ensures |Place(vms, mapping, m, i).workloads| == m && FirstEmpty(Place(vms, mapping, m, i).newMapping) < m
  {
    var p := Place(vms, mapping, m, i);
    PlacedAll(vms, mapping, m, i);
    if FirstEmpty(p.newMapping) == m { NonZerosFull(p.newMapping); }
  }

  /** The `m` heaviest VMs end on distinct pCPUs. */
  ghost predicate ApartFor(vms: seq<Usage>, mapping: seq<nat>, m: nat)
    requires m <= |vms|
  {
    FirstDistinct(Place(vms, mapping, m, m).cpus, m)
  }

  /** The first pCPU from `j` on that is not in use. */
  function FirstFree(used: seq<nat>, j: nat, m: nat): (k: nat)
    requires j <= m
    ensures j <= k <= m && (forall i :: j <= i < k ==> i in used) && (k < m ==> k !in used)
    decreases m - j
  {
    if j == m || j !in used then j else FirstFree(used, j + 1, m)
  }

  /** Where the first `i` VMs would go if it were recorded which pCPUs are in use. */
  function Intended(vms: seq<Usage>, mapping: seq<nat>, m: nat, i: nat): (used: seq<nat>)
    requires i <= |vms|
    ensures |used| == i
  {
    if i == 0 then [] else
    var used, home := Intended(vms, mapping, m, i - 1), CpuOf(mapping, vms[i - 1].vmId);
    used + [if home !in used then home else FirstFree(used, 0, m)]
  }

  /** VM 0 is at place `k`, and its pCPU, which still counts as empty, is what the VM at place `i` goes for. */
  ghost predicate Displaces(vms: seq<Usage>, mapping: seq<nat>, m: nat, k: nat, i: nat)
    requires k < i < |vms|
  {
    var used, home := Intended(vms, mapping, m, i), CpuOf(mapping, vms[i].vmId);
    && vms[k].vmId == 0
    && (home == used[k] || (home in used && forall j: nat :: j < used[k] ==> j in used))
  }

  ghost predicate NoneDisplaced(vms: seq<Usage>, mapping: seq<nat>, m: nat)
    requires m <= |vms|
  {
    forall k: nat, i: nat :: k < i < m ==> !Displaces(vms, mapping, m, k, i)
  }

  /** A pCPU with a VM 0 on it. */
  ghost predicate HasZero(vms: seq<Usage>, used: seq<nat>, j: nat) {
    exists k :: 0 <= k < |used| && k < |vms| && vms[k].vmId == 0 && used[k] == j
  }

  /** What counts as empty: the pCPUs not in use, and that of VM 0. */
  ghost predicate Tracks(p: Placement, vms: seq<Usage>, used: seq<nat>, m: nat) {
    && |p.newMapping| == |p.workloads| == m && p.cpus == used && |used| <= |vms| && FirstDistinct(used, |used|)
    && forall j: nat :: j < m ==> (p.newMapping[j] == 0 <==> j !in used || HasZero(vms, used, j))
  }

  lemma HasZeroSnoc(vms: seq<Usage>, used: seq<nat>, c: nat, j: nat)
    requires |used| < |vms|
    ensures HasZero(vms, used + [c], j) <==> HasZero(vms, used, j) || (vms[|used|].vmId == 0 && c == j)
  {
    var used' := used + [c];
    if HasZero(vms, used, j) {
      var k :| 0 <= k < |used| && vms[k].vmId == 0 && used[k] == j;
      assert used'[k] == j;
    }
    if vms[|used|].vmId == 0 && c == j {
      assert used'[|used|] == j;
    }
  }

  lemma TracksStep(p: Placement, vms: seq<Usage>, used: seq<nat>, m: nat, c: nat, x: real)
    requires Tracks(p, vms, used, m) && |used| < |vms| && c < m && c !in used
    ensures Tracks(Placement(p.newMapping[c := vms[|used|].vmId], p.workloads[c := x], used + [c]), vms, used + [c], m)
  {
    forall j: nat | j < m
      ensures p.newMapping[c := vms[|used|].vmId][j] == 0 <==> j !in used + [c] || HasZero(vms, used + [c], j)
    {
      HasZeroSnoc(vms, used, c, j);
      if HasZero(vms, used, j) {
        var k :| 0 <= k < |used| && vms[k].vmId == 0 && used[k] == j;
      }
    }
  }

  /** If a VM goes for the pCPU of VM 0, it is put on one that is in use. */
  lemma PicksUsed(p: Placement, vms: seq<Usage>, mapping: seq<nat>, m: nat, k: nat, i: nat)
    requires k < i < m && i < |vms| && Tracks(p, vms, Intended(vms, mapping, m, i), m)
    requires FirstEmpty(p.newMapping) < m && CpuOf(mapping, vms[i].vmId) < m && Displaces(vms, mapping, m, k, i)
    ensures Pick(p, CpuOf(mapping, vms[i].vmId)) in Intended(vms, mapping, m, i)
  {
    var used := Intended(vms, mapping, m, i);
    assert HasZero(vms, used, used[k]);
    assert used[k] in used;
  }

  /** Otherwise it is put where it should be. */
  lemma PicksFree(p: Placement, vms: seq<Usage>, mapping: seq<nat>, m: nat, i: nat)
    requires i < m && i < |vms| && Tracks(p, vms, Intended(vms, mapping, m, i), m)
    requires FirstEmpty(p.newMapping) < m && CpuOf(mapping, vms[i].vmId) < m
    requires forall k: nat :: k < i ==> !Displaces(vms, mapping, m, k, i)
    ensures var c := Pick(p, CpuOf(mapping, vms[i].vmId));
      && c < m && c !in Intended(vms, mapping, m, i)
      && Intended(vms, mapping, m, i + 1) == Intended(vms, mapping, m, i) + [c]
  {
    var used, home := Intended(vms, mapping, m, i), CpuOf(mapping, vms[i].vmId);
    var c := Pick(p, home);
    if c in used {
      assert HasZero(vms, used, c);
      var k :| 0 <= k < |used| && vms[k].vmId == 0 && used[k] == c;
      assert Displaces(vms, mapping, m, k, i);
    }
  }

  lemma {:induction false} TracksIntended(vms: seq<Usage>, mapping: seq<nat>, m: nat, i: nat)
    requires 0 < m <= |vms| && i <= m && Mapped(mapping, |vms|, m)
    requires forall k: nat, l: nat :: k < l < i ==> !Displaces(vms, mapping, m, k, l)
    ensures Tracks(Place(vms, mapping, m, i), vms, Intended(vms, mapping, m, i), m)
    decreases i
  {
    if i > 0 {
      var p, used := Place(vms, mapping, m, i - 1), Intended(vms, mapping, m, i - 1);
      TracksIntended(vms, mapping, m, i - 1);
      OneIsEmpty(vms, mapping, m, i - 1);
      PicksFree(p, vms, mapping, m, i - 1);
      TracksStep(p, vms, used, m, Pick(p, CpuOf(mapping, vms[i - 1].vmId)), vms[i - 1].cpuUsage);
    }
  }

  lemma FirstShares(vms: seq<Usage>, mapping: seq<nat>, m: nat, k: nat, i: nat) returns (x: nat)
    requires 0 < m <= |vms| && k < i < m && Mapped(mapping, |vms|, m) && Displaces(vms, mapping, m, k, i)
    requires Tracks(Place(vms, mapping, m, i), vms, Intended(vms, mapping, m, i), m)
    ensures |Place(vms, mapping, m, i + 1).cpus| == i + 1
    ensures x < i && Place(vms, mapping, m, i + 1).cpus[x] == Place(vms, mapping, m, i + 1).cpus[i]
  {
    var p, used := Place(vms, mapping, m, i), Intended(vms, mapping, m, i);
    OneIsEmpty(vms, mapping, m, i);
    PicksUsed(p, vms, mapping, m, k, i);
    PlaceStep(vms, mapping, m, i);
    var cpus := Place(vms, mapping, m, i + 1).cpus;
    assert cpus == used + [cpus[i]] && cpus[i] in used;
    x :| x < i && used[x] == cpus[i];
  }

  /** The first VM that goes for the pCPU of VM 0 ends on a pCPU that is in use. */
  lemma {:induction false} SharesWith(vms: seq<Usage>, mapping: seq<nat>, m: nat, k: nat, i: nat)
    requires 0 < m <= |vms| && k < i < m && Mapped(mapping, |vms|, m) && Displaces(vms, mapping, m, k, i)
    ensures !ApartFor(vms, mapping, m)
    decreases i
  {
    if k': nat, i': nat :| k' < i' < i && Displaces(vms, mapping, m, k', i') {
      SharesWith(vms, mapping, m, k', i');
    } else {
      TracksIntended(vms, mapping, m, i);
      var x := FirstShares(vms, mapping, m, k, i);
      PlaceAgrees(vms, mapping, m, i + 1, m);
      assert Place(vms, mapping, m, m).cpus[x] == Place(vms, mapping, m, m).cpus[i];
    }
  }

  /**
   For any current mapping: the heaviest VMs end on distinct pCPUs if and only if none of them is where VM 0
   is, or without a place while every pCPU below that of VM 0 is in use.
  */
  lemma ApartIff(vms: seq<Usage>, mapping: seq<nat>, m: nat)
    requires 0 < m <= |vms| && Mapped(mapping, |vms|, m)
    ensures ApartFor(vms, mapping, m) <==> NoneDisplaced(vms, mapping, m)
    ensures NoneDisplaced(vms, mapping, m) ==> Place(vms, mapping, m, m).cpus == Intended(vms, mapping, m, m)
  {
    if NoneDisplaced(vms, mapping, m) {
      TracksIntended(vms, mapping, m, m);
    } else {
      var k: nat, i: nat :| k < i < m && Displaces(vms, mapping, m, k, i);
      SharesWith(vms, mapping, m, k, i);
    }
  }

  /** VM 0, whose id also means "empty", is not among the `m - 1` heaviest VMs. */
  ghost predicate VmZeroFits(vms: seq<Usage>, m: nat) {
    forall i :: 0 <= i < |vms| && i < m - 1 ==> vms[i].vmId != 0
  }

  /** A condition that does not look at the mapping: then the heaviest VMs end apart. */
  lemma FitsMeansApart(vms: seq<Usage>, mapping: seq<nat>, m: nat)
    requires 0 < m <= |vms| && Mapped(mapping, |vms|, m) && VmZeroFits(vms, m)
    ensures ApartFor(vms, mapping, m)
  {
    ApartIff(vms, mapping, m);
  }

  lemma {:induction false} IntendedFromZero(vms: seq<Usage>, mapping: seq<nat>, m: nat, i: nat)
    requires i <= m && i <= |vms| && forall v :: 0 <= v < |mapping| ==> mapping[v] == 0
    ensures forall x :: 0 <= x < i ==> Intended(vms, mapping, m, i)[x] == x
    decreases i
  {
    if i > 0 {
      IntendedFromZero(vms, mapping, m, i - 1);
      var used := Intended(vms, mapping, m, i - 1);
      assert i - 1 !in used;
      forall x: nat | x < i - 1 ensures x in used { assert used[x] == x; }
    }
  }

  /** Whenever VM 0 is among the `m - 1` heaviest, two of the heaviest end on one pCPU if all are on pCPU 0 now. */
  lemma Collision(vms: seq<Usage>, m: nat, k: nat) returns (mapping: seq<nat>)
    requires 0 < m <= |vms| && k < m - 1 && vms[k].vmId == 0
    ensures Mapped(mapping, |vms|, m) && !ApartFor(vms, mapping, m)
  {
    mapping := seq(|vms|, _ => 0);
    IntendedFromZero(vms, mapping, m, k + 1);
    var used := Intended(vms, mapping, m, k + 1);
    assert forall x: nat :: x <= k ==> used[x] in used;
    assert Displaces(vms, mapping, m, k, k + 1);
    SharesWith(vms, mapping, m, k, k + 1);
  }

  /** The heaviest end apart for every current mapping if and only if VM 0 is not among the `m - 1` heaviest. */
  lemma HeavyApartIff(vms: seq<Usage>, m: nat)
    requires 0 < m <= |vms|
    ensures (forall mapping :: Mapped(mapping, |vms|, m) ==> ApartFor(vms, mapping, m)) <==> VmZeroFits(vms, m)
  {
    if VmZeroFits(vms, m) {
      forall mapping | Mapped(mapping, |vms|, m) ensures ApartFor(vms, mapping, m) {
        FitsMeansApart(vms, mapping, m);
      }
    } else {
      var k :| 0 <= k < m - 1 && vms[k].vmId == 0;
      var mapping := Collision(vms, m, k);
    }
  }

  // ---- what the placement achieves

  ghost predicate Accounts(w: seq<real>, p: Placement, m: nat) {
    |p.workloads| == m && |p.cpus| <= |w| && forall j: nat :: j < m ==> p.workloads[j] == Load(w, p.cpus, j, |p.cpus|)
  }

  lemma AccountStep(w: seq<real>, p: Placement, q: Placement, m: nat, c: nat)
    requires Accounts(w, p, m) && |p.cpus| < |w| && c < m
    requires q.cpus == p.cpus + [c] && q.workloads == p.workloads[c := p.workloads[c] + w[|p.cpus|]]
    ensures Accounts(w, q, m)
  {
    forall j: nat | j < m ensures q.workloads[j] == Load(w, q.cpus, j, |q.cpus|) {
      LoadPrefix(w, p.cpus, q.cpus, j, |p.cpus|);
    }
  }

  /** What is placed apart in the end was placed apart from those before it. */
  lemma NotYetThere(vms: seq<Usage>, mapping: seq<nat>, m: nat, i: nat)
    requires i < m <= |vms| && ApartFor(vms, mapping, m)
    ensures var p, q := Place(vms, mapping, m, i), Place(vms, mapping, m, i + 1);
      |p.cpus| == i && |q.cpus| == i + 1 && q.cpus[i] < m && q.cpus == p.cpus + [q.cpus[i]] && q.cpus[i] !in p.cpus
  {
    var p, q := Place(vms, mapping, m, i), Place(vms, mapping, m, i + 1);
    PlaceStep(vms, mapping, m, i);
    PlacedAll(vms, mapping, m, i + 1);
    PlaceAgrees(vms, mapping, m, i + 1, m);
    LastNew(q.cpus, Place(vms, mapping, m, m).cpus, i);
  }

  lemma LastNew(a: seq<nat>, b: seq<nat>, i: nat)
    requires |a| == i + 1 <= |b| && FirstDistinct(b, |b|) && forall x :: 0 <= x <= i ==> b[x] == a[x]
    ensures a == a[..i] + [a[i]] && a[i] !in a[..i]
  {
  }

  lemma HeavyAccounts(vms: seq<Usage>, mapping: seq<nat>, m: nat, i: nat)
    requires i < m <= |vms| && ApartFor(vms, mapping, m) && Accounts(Sizes(vms), Place(vms, mapping, m, i), m)
    ensures Accounts(Sizes(vms), Place(vms, mapping, m, i + 1), m)
  {
    var p, q := Place(vms, mapping, m, i), Place(vms, mapping, m, i + 1);
    OneIsEmpty(vms, mapping, m, i);
    NotYetThere(vms, mapping, m, i);
    var c := q.cpus[i];
    NothingThere(Sizes(vms), p.cpus, c, i);
    AccountStep(Sizes(vms), p, q, m, c);
  }

  lemma LightAccounts(vms: seq<Usage>, mapping: seq<nat>, m: nat, i: nat)
    requires 0 < m <= i < |vms| && Accounts(Sizes(vms), Place(vms, mapping, m, i), m)
    ensures Accounts(Sizes(vms), Place(vms, mapping, m, i + 1), m)
  {
    var p := Place(vms, mapping, m, i);
    PlacedAll(vms, mapping, m, i);
    AccountStep(Sizes(vms), p, Place(vms, mapping, m, i + 1), m, MinCpu(p.workloads));
  }

  /** The workloads that the scheduler keeps are the usages of the VMs that it pinned. */
  lemma {:induction false} WorkloadsAreLoads(vms: seq<Usage>, mapping: seq<nat>, m: nat, i: nat)
    requires 0 < m <= |vms| && i <= |vms| && ApartFor(vms, mapping, m)
    ensures |Place(vms, mapping, m, i).cpus| == i && Accounts(Sizes(vms), Place(vms, mapping, m, i), m)
    decreases i
  {
    if i == 0 {
      NoneAccounted(vms, mapping, m);
    } else {
      WorkloadsAreLoads(vms, mapping, m, i - 1);
      NextAccounts(vms, mapping, m, i - 1);
    }
  }

  lemma NextAccounts(vms: seq<Usage>, mapping: seq<nat>, m: nat, i: nat)
    requires 0 < m <= |vms| && i < |vms| && ApartFor(vms, mapping, m)
    requires |Place(vms, mapping, m, i).cpus| == i && Accounts(Sizes(vms), Place(vms, mapping, m, i), m)
    ensures |Place(vms, mapping, m, i + 1).cpus| == i + 1 && Accounts(Sizes(vms), Place(vms, mapping, m, i + 1), m)
  {
    PlacedAll(vms, mapping, m, i + 1);
    if i < m {
      HeavyAccounts(vms, mapping, m, i);
    } else {
      LightAccounts(vms, mapping, m, i);
    }
  }

  lemma NoneAccounted(vms: seq<Usage>, mapping: seq<nat>, m: nat)
    ensures |Place(vms, mapping, m, 0).cpus| == 0 && Accounts(Sizes(vms), Place(vms, mapping, m, 0), m)
  {
  }

  lemma {:induction false} LoadPrefix(w: seq<real>, a: seq<nat>, b: seq<nat>, j: nat, n: nat)
    requires n <= |w| && n <= |a| && n <= |b| && forall i :: 0 <= i < n ==> a[i] == b[i]
    ensures Load(w, a, j, n) == Load(w, b, j, n)
    decreases n
  {
    if n > 0 { LoadPrefix(w, a, b, j, n - 1); }
  }

  ghost predicate Usages(vms: seq<Usage>) {
    forall i :: 0 <= i < |vms| ==> vms[i].cpuUsage >= 0.0
  }

  /** The scheduler places VMs longest first on least loaded pCPUs. */
  lemma PlacementIsLpt(vms: seq<Usage>, mapping: seq<nat>, m: nat)
    requires 0 < m < |vms| && ApartFor(vms, mapping, m) && Usages(vms) && Sorted(vms)
    ensures Lpt(Sizes(vms), Place(vms, mapping, m, |vms|).cpus, m)
  {
    var u, a := Sizes(vms), Place(vms, mapping, m, |vms|).cpus;
    PlacedAll(vms, mapping, m, |vms|);
    PlaceAgrees(vms, mapping, m, m, |vms|);
    forall i | m <= i < |u| ensures LeastLoaded(u, a, m, i) {
      LeastLoadedAt(vms, mapping, m, i);
    }
    forall i, k | 0 <= i < k < |u| ensures u[i] >= u[k] {
      CmpVmUsageOrders(vms[i], vms[k], vms[k]);
    }
  }

  lemma LeastLoadedAt(vms: seq<Usage>, mapping: seq<nat>, m: nat, i: nat)
    requires 0 < m <= i < |vms| && ApartFor(vms, mapping, m)
    ensures |Place(vms, mapping, m, |vms|).cpus| == |vms|
    ensures LeastLoaded(Sizes(vms), Place(vms, mapping, m, |vms|).cpus, m, i)
  {
    var a, p := Place(vms, mapping, m, |vms|).cpus, Place(vms, mapping, m, i);
    PlaceAgrees(vms, mapping, m, i, |vms|);
    PlaceAgrees(vms, mapping, m, i + 1, |vms|);
    PlaceStep(vms, mapping, m, i);
    WorkloadsAreLoads(vms, mapping, m, i);
    LeastIsLeast(Sizes(vms), p, a, m, i);
  }

  lemma LeastIsLeast(w: seq<real>, p: Placement, a: seq<nat>, m: nat, i: nat)
    requires 0 < m && |p.cpus| == i < |a| == |w| && Accounts(w, p, m) && a[i] == MinCpu(p.workloads)
    requires forall x :: 0 <= x < i ==> a[x] == p.cpus[x]
    ensures LeastLoaded(w, a, m, i)
  {
    forall j: nat | j < m ensures Load(w, a, a[i], i) <= Load(w, a, j, i) {
      LoadPrefix(w, p.cpus, a, j, i);
      LoadPrefix(w, p.cpus, a, a[i], i);
    }
  }

  /** No workload exceeds 4/3 - 1/(3m) times what any other mapping of the same VMs needs at least. */
  lemma SchedulerBound(vms: seq<Usage>, mapping: seq<nat>, m: nat, other: seq<nat>, opt: real, j: nat)
    requires 0 < m < |vms| && ApartFor(vms, mapping, m) && Usages(vms) && Sorted(vms)
    requires Mapped(other, |vms|, m) && forall c: nat :: c < m ==> LoadOf(vms, other, c) <= opt
    requires j < m
    ensures |Place(vms, mapping, m, |vms|).workloads| == m
    ensures Place(vms, mapping, m, |vms|).workloads[j] <= (4.0 / 3.0 - 1.0 / (3.0 * m as real)) * opt
  {
    PlacementIsLpt(vms, mapping, m);
    WorkloadsAreLoads(vms, mapping, m, |vms|);
    forall c: nat | c < m ensures Load(Sizes(vms), Cpus(vms, other), c, |vms|) <= opt {
      LoadOfIsLoad(vms, other, c);
    }
    assert Achieves(Sizes(vms), Cpus(vms, other), m, opt);
    LptBound(Sizes(vms), Place(vms, mapping, m, |vms|).cpus, Cpus(vms, other), m, opt, j);
  }

  // ---- spread and stability

  lemma LightSpread(p: Placement, vm: Usage, s: real)
    requires SpreadWithin(p.workloads, s) && 0.0 <= vm.cpuUsage <= s
    ensures SpreadWithin(PlaceLight(p, vm).workloads, s)
  {
  }

  function Max(a: real, b: real): real { if a >= b then a else b }

  /** The spread of the `m` heaviest usages, or the heaviest of the others. */
  function SpreadLimit(vms: seq<Usage>, m: nat): real
    requires 0 < m < |vms|
  {
    Max(vms[0].cpuUsage - vms[m - 1].cpuUsage, vms[m].cpuUsage)
  }

  lemma SpreadOfHeavy(vms: seq<Usage>, mapping: seq<nat>, m: nat)
    requires 0 < m < |vms| && ApartFor(vms, mapping, m) && Usages(vms) && Sorted(vms)
    ensures SpreadWithin(Place(vms, mapping, m, m).workloads, vms[0].cpuUsage - vms[m - 1].cpuUsage)
  {
    var p, u := Place(vms, mapping, m, m), Sizes(vms);
    PlacedAll(vms, mapping, m, m);
    WorkloadsAreLoads(vms, mapping, m, m);
    AllCovered(p.cpus, m);
    forall j: nat | j < m ensures vms[m - 1].cpuUsage <= p.workloads[j] <= vms[0].cpuUsage {
      assert Count(p.cpus, j, m) == 1.0;
      var k := LastJob(u, p.cpus, j, m);
      OnlyJob(u, p.cpus, k, m);
      CmpVmUsageOrders(vms[0], vms[k], vms[k]);
      CmpVmUsageOrders(vms[k], vms[m - 1], vms[k]);
    }
  }

  /** Placing the lighter VMs never spreads the workloads further than the heaviest of these. */
  lemma {:induction false} SpreadBound(vms: seq<Usage>, mapping: seq<nat>, m: nat, i: nat)
    requires 0 < m < |vms| && ApartFor(vms, mapping, m) && Usages(vms) && Sorted(vms) && m <= i <= |vms|
    ensures SpreadWithin(Place(vms, mapping, m, i).workloads, SpreadLimit(vms, m))
    decreases i
  {
    if i == m {
      SpreadOfHeavy(vms, mapping, m);
    } else {
      SpreadBound(vms, mapping, m, i - 1);
      CmpVmUsageOrders(vms[m], vms[i - 1], vms[m]);
      LightSpread(Place(vms, mapping, m, i - 1), vms[i - 1], SpreadLimit(vms, m));
    }
  }

  function WorkloadsOf(vms: seq<Usage>, mapping: seq<nat>, m: nat): seq<real> {
    seq(m, j requires 0 <= j => LoadOf(vms, mapping, j))
  }

  /** The test that makes the scheduler act: the standard deviation exceeds the threshold. */
  predicate Unbalanced(vms: seq<Usage>, mapping: seq<nat>, m: nat)
    requires m > 0
  {
    Variance(WorkloadsOf(vms, mapping, m)) > BALANCE_THRESHOLD * BALANCE_THRESHOLD
  }

  lemma AboveIff(m: real, v: real, p: real)
    requires m > 0.0 && Pairwise(v, m, p)
    ensures v > 25.0 <==> p > 50.0 * (m * m)
  {
    assert m * (m * v) - 25.0 * (m * m) == m * (m * (v - 25.0));
    if v > 25.0 {
      ProductPositive(m, v - 25.0);
      ProductPositive(m, m * (v - 25.0));
    } else {
      Multiply(m, v - 25.0, 0.0);
      Multiply(m, m * (v - 25.0), 0.0);
    }
  }

  /** The scheduler acts exactly if the squared differences of all pairs of workloads add up to more than 50 m^2. */
  lemma UnbalancedIff(vms: seq<Usage>, mapping: seq<nat>, n: nat, m: real)
    requires n > 0 && m == n as real
    ensures Unbalanced(vms, mapping, n) <==> PairSquares(WorkloadsOf(vms, mapping, n), n) > 50.0 * (m * m)
  {
    var w := WorkloadsOf(vms, mapping, n);
    VarianceIsPairwise(w, m);
    AboveIff(m, Variance(w), PairSquares(w, n));
  }

  /** In `after`, every VM is where the scheduler put it. */
  ghost predicate PinnedTo(vms: seq<Usage>, cpus: seq<nat>, after: seq<nat>) {
    |cpus| == |vms| && forall i :: 0 <= i < |vms| ==> CpuOf(after, vms[i].vmId) == cpus[i]
  }

  lemma WorkloadsAfter(vms: seq<Usage>, mapping: seq<nat>, m: nat, now: seq<Usage>, after: seq<nat>)
    requires 0 < m < |vms| && ApartFor(vms, mapping, m) && multiset(now) == multiset(vms)
    requires PinnedTo(vms, Place(vms, mapping, m, |vms|).cpus, after)
    ensures WorkloadsOf(now, after, m) == Place(vms, mapping, m, |vms|).workloads
  {
    var p := Place(vms, mapping, m, |vms|);
    WorkloadsAreLoads(vms, mapping, m, |vms|);
    forall j: nat | j < m ensures LoadOf(now, after, j) == p.workloads[j] {
      LoadOfPermuted(now, vms, after, j);
      LoadOfIsLoad(vms, after, j);
      LoadPrefix(Sizes(vms), Cpus(vms, after), p.cpus, j, |vms|);
    }
  }

  /**
   With unchanged usages the tick after a rebalancing acts again exactly if the new workloads are still too uneven.
  */
  lemma NextTickIff(vms: seq<Usage>, mapping: seq<nat>, m: nat, now: seq<Usage>, after: seq<nat>)
    requires 0 < m < |vms| && ApartFor(vms, mapping, m) && multiset(now) == multiset(vms)
    requires PinnedTo(vms, Place(vms, mapping, m, |vms|).cpus, after)
    ensures |Place(vms, mapping, m, |vms|).workloads| == m
    ensures Unbalanced(now, after, m) <==>
      Variance(Place(vms, mapping, m, |vms|).workloads) > BALANCE_THRESHOLD * BALANCE_THRESHOLD
  {
    PlacedAll(vms, mapping, m, |vms|);
    WorkloadsAfter(vms, mapping, m, now, after);
  }

  /** It does nothing if the new workloads are at most twice the threshold apart. */
  lemma StaysBalanced(vms: seq<Usage>, mapping: seq<nat>, m: nat, now: seq<Usage>, after: seq<nat>)
    requires 0 < m < |vms| && ApartFor(vms, mapping, m) && multiset(now) == multiset(vms)
    requires PinnedTo(vms, Place(vms, mapping, m, |vms|).cpus, after)
    requires SpreadWithin(Place(vms, mapping, m, |vms|).workloads, 2.0 * BALANCE_THRESHOLD)
    ensures !Unbalanced(now, after, m)
  {
    NextTickIff(vms, mapping, m, now, after);
    VarianceBound(Place(vms, mapping, m, |vms|).workloads, 10.0);
  }

  /** As they are if the usages are not too uneven. */
  lemma EvenUsagesStay(vms: seq<Usage>, mapping: seq<nat>, m: nat)
    requires 0 < m < |vms| && ApartFor(vms, mapping, m) && Usages(vms) && Sorted(vms)
    requires SpreadLimit(vms, m) <= 2.0 * BALANCE_THRESHOLD
    ensures SpreadWithin(Place(vms, mapping, m, |vms|).workloads, 2.0 * BALANCE_THRESHOLD)
  {
    SpreadBound(vms, mapping, m, |vms|);
  }

  ghost predicate DistinctIds(vms: seq<Usage>) {
    forall i, k :: 0 <= i < k < |vms| ==> vms[i].vmId != vms[k].vmId
  }

  /** A rebalancing leaves every VM where it pinned it. */
  lemma {:induction false} PinsHold(vms: seq<Usage>, cpus: seq<nat>, mapping: seq<nat>)
    requires |cpus| <= |vms| && DistinctIds(vms) && forall i :: 0 <= i < |vms| ==> vms[i].vmId < |mapping|
    ensures forall i :: 0 <= i < |cpus| ==> CpuOf(AfterPins(mapping, Pins(vms, cpus)), vms[i].vmId) == cpus[i]
    decreases |cpus|
  {
    if cpus != [] {
      var cpus', c := cpus[..|cpus| - 1], cpus[|cpus| - 1];
      PinsHold(vms, cpus', mapping);
      assert Pins(vms, cpus)[..|cpus| - 1] == Pins(vms, cpus');
    }
  }

  // ---- the scheduler

  function Pins(vms: seq<Usage>, cpus: seq<nat>): seq<(nat, nat)>
    requires |cpus| <= |vms|
  {
    seq(|cpus|, i requires 0 <= i < |cpus| => (vms[i].vmId, cpus[i]))
  }

  /** calculate_pcpu_workload */
  method CalculatePcpuWorkload(workloads: array<real>, usages: array<Usage>, mapping: seq<nat>)
    requires forall j :: 0 <= j < workloads.Length ==> workloads[j] == 0.0
    requires Mapped(mapping, usages.Length, workloads.Length)
    requires forall i :: 0 <= i < usages.Length ==> usages[i].vmId < usages.Length
    modifies workloads
    ensures workloads[..] == WorkloadsOf(usages[..], mapping, workloads.Length)
  {
    for i := 0 to usages.Length
      invariant forall j: nat :: j < workloads.Length ==> workloads[j] == LoadOf(usages[..i], mapping, j)
    {
      SliceInit(usages[..], i + 1);
      ArraySlice(usages, i);
      workloads[mapping[usages[i].vmId]] := workloads[mapping[usages[i].vmId]] + usages[i].cpuUsage;
    }
    TakeAll(usages[..]);
  }

  /** The pCPU that is least loaded (lines 341-348). */
  method FindMin(workloads: array<real>) returns (c: nat)
    requires workloads.Length > 0
    ensures c == MinCpu(workloads[..])
  {
    c := 0;
    var min := workloads[0];
    for j := 0 to workloads.Length
      invariant c < workloads.Length && min == workloads[c]
      invariant forall k :: 0 <= k < j ==> workloads[k] >= min
      invariant forall k :: 0 <= k < c ==> workloads[k] > min
    {
      if workloads[j] < min {
        c, min := j, workloads[j];
      }
    }
    assert forall k :: 0 <= k < workloads.Length ==> workloads[..][k] == workloads[k];
  }

  /** The first pCPU that counts as empty (lines 324-325). */
  method FindEmpty(newMapping: array<nat>) returns (j: nat)
    ensures j == FirstEmpty(newMapping[..])
  {
    j := 0;
    while j < newMapping.Length && newMapping[j] != 0
      invariant j <= newMapping.Length && forall k :: 0 <= k < j ==> newMapping[k] != 0
    {
      j := j + 1;
    }
    assert forall k :: 0 <= k < newMapping.Length ==> newMapping[..][k] == newMapping[k];
  }

  /** Lines 314-333: the turn of one of the heaviest VMs. */
  method PlaceOneHeavy(vm: Usage, home: nat, newMapping: array<nat>, workloads: array<real>, host: Host,
                       ghost cpus: seq<nat>)
    returns (c: nat)
    requires newMapping.Length == workloads.Length && home < newMapping.Length &&
      FirstEmpty(newMapping[..]) < newMapping.Length
    modifies newMapping, workloads, host
    ensures Placement(newMapping[..], workloads[..], cpus + [c]) ==
      PlaceHeavy(Placement(old(newMapping[..]), old(workloads[..]), cpus), vm, home)
    ensures host.pins == old(host.pins) + [(vm.vmId, c)]
  {
    c := home;
    assert newMapping[..][home] == newMapping[home];
    if newMapping[c] != 0 {
      c := FindEmpty(newMapping);
    }
    newMapping[c] := vm.vmId;
    workloads[c] := vm.cpuUsage;
    host.PinVmToPcpu(vm.vmId, c);
    assert newMapping[..] == old(newMapping[..])[c := vm.vmId];
    assert workloads[..] == old(workloads[..])[c := vm.cpuUsage];
  }

  /** Lines 341-353: the turn of any other VM. */
  method PlaceOneLight(vm: Usage, ghost newMapping: seq<nat>, workloads: array<real>, host: Host, ghost cpus: seq<nat>)
    returns (c: nat)
    requires workloads.Length > 0
    modifies workloads, host
    ensures Placement(newMapping, workloads[..], cpus + [c]) ==
      PlaceLight(Placement(newMapping, old(workloads[..]), cpus), vm)
    ensures host.pins == old(host.pins) + [(vm.vmId, c)]
  {
    c := FindMin(workloads);
    host.PinVmToPcpu(vm.vmId, c);
    workloads[c] := workloads[c] + vm.cpuUsage;
    assert workloads[..] == old(workloads[..])[c := old(workloads[..])[c] + vm.cpuUsage];
  }

  /** Lines 313-334: the `m` heaviest VMs. */
  method PlaceHeaviest(usages: array<Usage>, mapping: seq<nat>, newMapping: array<nat>, workloads: array<real>,
                       host: Host)
    returns (ghost cpus: seq<nat>)
    requires 0 < workloads.Length == newMapping.Length < usages.Length &&
      Mapped(mapping, usages.Length, workloads.Length)
    requires forall i :: 0 <= i < usages.Length ==> usages[i].vmId < usages.Length
    requires Placement(newMapping[..], workloads[..], []) == Start(workloads.Length)
    modifies newMapping, workloads, host
    ensures Placement(newMapping[..], workloads[..], cpus) ==
      Place(usages[..], mapping, workloads.Length, workloads.Length)
    ensures |cpus| == workloads.Length && host.pins == old(host.pins) + Pins(usages[..], cpus)
  {
    var m := workloads.Length;
    ghost var vms := usages[..];
    cpus := [];
    EmptyRight(host.pins);
    NoPins(vms);
    for i := 0 to m
      invariant Placement(newMapping[..], workloads[..], cpus) == Place(vms, mapping, m, i)
      invariant |cpus| == i && host.pins == old(host.pins) + Pins(vms, cpus)
    {
      OneIsEmpty(vms, mapping, m, i);
      var c := PlaceOneHeavy(usages[i], mapping[usages[i].vmId], newMapping, workloads, host, cpus);
      PinsSnoc(vms, cpus, c, old(host.pins));
      cpus := cpus + [c];
    }
  }

  /** Lines 310-355: a new place for every VM. */
  method Rebalance(usages: array<Usage>, mapping: seq<nat>, workloads: array<real>, host: Host)
    returns (ghost cpus: seq<nat>)
    requires 0 < workloads.Length < usages.Length && Mapped(mapping, usages.Length, workloads.Length)
    requires forall i :: 0 <= i < usages.Length ==> usages[i].vmId < usages.Length
    modifies workloads, host
    ensures |cpus| == usages.Length && cpus == Place(usages[..], mapping, workloads.Length, usages.Length).cpus
    ensures workloads[..] == Place(usages[..], mapping, workloads.Length, usages.Length).workloads
    ensures host.pins == old(host.pins) + Pins(usages[..], cpus)
  {
    var m, n := workloads.Length, usages.Length;
    ghost var vms, pins0 := usages[..], host.pins;
    for i := 0 to m
      invariant host.pins == pins0 && forall k :: 0 <= k < i ==> workloads[k] == 0.0
    {
      workloads[i] := 0.0;
    }
    var newMapping := new nat[m](_ => 0);
    assert newMapping[..] == Start(m).newMapping && workloads[..] == Start(m).workloads;
    cpus := PlaceHeaviest(usages, mapping, newMapping, workloads, host);
    for i := m to n
      invariant Placement(newMapping[..], workloads[..], cpus) == Place(vms, mapping, m, i)
      invariant |cpus| == i && host.pins == pins0 + Pins(vms, cpus)
    {
      var c := PlaceOneLight(usages[i], newMapping[..], workloads, host, cpus);
      PinsSnoc(vms, cpus, c, pins0);
      cpus := cpus + [c];
    }
  }

  lemma NoPins(vms: seq<Usage>)
    ensures Pins(vms, []) == []
  {
  }

  lemma PinsSnoc(vms: seq<Usage>, cpus: seq<nat>, c: nat, before: seq<(nat, nat)>)
    requires |cpus| < |vms|
    ensures before + Pins(vms, cpus + [c]) == before + Pins(vms, cpus) + [(vms[|cpus|].vmId, c)]
  {
  }

  /** One tick, from the measured usages on; `mapping` is where the VMs run now. */
  method CPUScheduler(usages: array<Usage>, mapping: seq<nat>, nHostCpus: nat, host: Host)
    returns (ghost cpus: seq<nat>)
    requires 0 < nHostCpus && Mapped(mapping, usages.Length, nHostCpus)
    requires forall i :: 0 <= i < usages.Length ==> usages[i].vmId == i
    modifies usages, host
    ensures !Unbalanced(old(usages[..]), mapping, nHostCpus) ==>
      usages[..] == old(usages[..]) && host.pins == old(host.pins)
    ensures Unbalanced(old(usages[..]), mapping, nHostCpus) ==>
      Sorted(usages[..]) && multiset(usages[..]) == old(multiset(usages[..]))
    ensures Unbalanced(old(usages[..]), mapping, nHostCpus) && usages.Length <= nHostCpus ==>
      host.pins == old(host.pins) + FewVms.SpreadOut(mapping, nHostCpus, |mapping|).pins
    ensures Unbalanced(old(usages[..]), mapping, nHostCpus) && usages.Length > nHostCpus ==>
      && |cpus| == usages.Length && cpus == Place(usages[..], mapping, nHostCpus, usages.Length).cpus
      && host.pins == old(host.pins) + Pins(usages[..], cpus)
  {
    cpus := [];
    var workloads := new real[nHostCpus](_ => 0.0);
    CalculatePcpuWorkload(workloads, usages, mapping);
    var variance := CalculateVariance(workloads);
    if variance > BALANCE_THRESHOLD * BALANCE_THRESHOLD {
      Sort(usages);
      if usages.Length <= nHostCpus {
        FewVms.SpreadVms(mapping, nHostCpus, host);
      } else {
        IdsInRange(old(usages[..]), usages[..]);
        cpus := Rebalance(usages, mapping, workloads, host);
      }
    }
  }

  /**
   Two ticks with the same usages (the loop at lines 86-92); after the first, every VM runs where it was
   pinned.  `vms` are the usages in the order of the first tick, `first` the pins after it.
  */
  method TwoTicks(usages: array<Usage>, mapping: seq<nat>, nHostCpus: nat, host: Host)
    returns (ghost vms: seq<Usage>, ghost first: seq<(nat, nat)>)
    requires 0 < nHostCpus && Mapped(mapping, usages.Length, nHostCpus)
    requires forall i :: 0 <= i < usages.Length ==> usages[i].vmId == i
    modifies usages, host
    ensures |vms| == usages.Length && multiset(vms) == old(multiset(usages[..]))
    ensures !Unbalanced(old(usages[..]), mapping, nHostCpus) ==> host.pins == old(host.pins)
    ensures Unbalanced(old(usages[..]), mapping, nHostCpus) && usages.Length <= nHostCpus ==>
      && first == old(host.pins) + FewVms.SpreadOut(mapping, nHostCpus, |mapping|).pins
      && (host.pins == first <==>
          || !Unbalanced(old(usages[..]), FewVms.Tick(mapping, nHostCpus), nHostCpus)
          || FewVms.OthersApart(FewVms.Tick(mapping, nHostCpus), |mapping|))
    ensures Unbalanced(old(usages[..]), mapping, nHostCpus) && usages.Length > nHostCpus ==>
      && Sorted(vms) && |Place(vms, mapping, nHostCpus, |vms|).cpus| == |vms|
      && first == old(host.pins) + Pins(vms, Place(vms, mapping, nHostCpus, |vms|).cpus)
    ensures (Unbalanced(old(usages[..]), mapping, nHostCpus) && usages.Length > nHostCpus
      && ApartFor(vms, mapping, nHostCpus)) ==>
      && |Place(vms, mapping, nHostCpus, |vms|).workloads| == nHostCpus
      && (host.pins == first <==>
          Variance(Place(vms, mapping, nHostCpus, |vms|).workloads) <= BALANCE_THRESHOLD * BALANCE_THRESHOLD)
  {
    var again := new Usage[usages.Length](i requires 0 <= i < usages.Length reads usages => usages[i]);
    ghost var now := usages[..];
    var pins0 := host.pins;
    assert again[..] == now;
    ghost var cpus := CPUScheduler(usages, mapping, nHostCpus, host);
    vms, first := usages[..], host.pins;
    var added := host.pins[|pins0|..];
    var after := AfterPins(mapping, added);
    if !Unbalanced(now, mapping, nHostCpus) {
      assert added == [];
    } else if |now| <= nHostCpus {
      assert added == FewVms.SpreadOut(mapping, nHostCpus, |mapping|).pins;
      FewVms.TickMapped(mapping, nHostCpus);
    } else {
      assert added == Pins(vms, cpus);
      Pinned(now, vms, mapping, nHostCpus, cpus);
    }
    ghost var cpus' := CPUScheduler(again, after, nHostCpus, host);
    if Unbalanced(now, mapping, nHostCpus) {
      if |now| <= nHostCpus {
        SomeVms(now, mapping, nHostCpus);
        FewVms.PinsNothingIff(after, nHostCpus);
      } else if ApartFor(vms, mapping, nHostCpus) {
        NextTickIff(vms, mapping, nHostCpus, now, after);
      }
    }
  }

  /** Without VMs nothing is unbalanced. */
  lemma SomeVms(vms: seq<Usage>, mapping: seq<nat>, m: nat)
    requires m > 0 && Unbalanced(vms, mapping, m)
    ensures vms != []
  {
    if vms == [] {
      var w := WorkloadsOf(vms, mapping, m);
      assert forall j :: 0 <= j < m ==> w[j] == 0.0;
      VarianceBound(w, 0.0);
    }
  }

  lemma Pinned(now: seq<Usage>, vms: seq<Usage>, mapping: seq<nat>, m: nat, cpus: seq<nat>)
    requires 0 < m < |now| && Mapped(mapping, |now|, m) && multiset(now) == multiset(vms)
    requires forall i :: 0 <= i < |now| ==> now[i].vmId == i
    requires |vms| == |now| && cpus == Place(vms, mapping, m, |vms|).cpus
    ensures |cpus| == |vms| && PinnedTo(vms, cpus, AfterPins(mapping, Pins(vms, cpus)))
    ensures Mapped(AfterPins(mapping, Pins(vms, cpus)), |now|, m)
  {
    PlacedAll(vms, mapping, m, |vms|);
    IdsInRange(now, vms);
    DistinctAfter(now, vms);
    PinsHold(vms, cpus, mapping);
    PinsMapped(Pins(vms, cpus), mapping, |now|, m);
  }

  lemma IdsInRange(before: seq<Usage>, after: seq<Usage>)
    requires multiset(before) == multiset(after) && forall i :: 0 <= i < |before| ==> before[i].vmId == i
    ensures |after| == |before| && forall i :: 0 <= i < |after| ==> after[i].vmId < |before|
  {
    assert |multiset(before)| == |before| && |multiset(after)| == |after|;
    forall i | 0 <= i < |after| ensures after[i].vmId < |before| {
      assert after[i] in multiset(after);
      assert after[i] in before;
    }
  }

  /** A rebalancing pins every VM exactly once. */
  lemma EachPinnedOnce(before: seq<Usage>, after: seq<Usage>, cpus: seq<nat>, v: nat)
    requires multiset(before) == multiset(after) && |cpus| == |after| && v < |before|
    requires forall i :: 0 <= i < |before| ==> before[i].vmId == i
    ensures exists i :: 0 <= i < |after| && Pins(after, cpus)[i].0 == v
    ensures forall i, k :: 0 <= i < k < |after| ==> Pins(after, cpus)[i].0 != Pins(after, cpus)[k].0
  {
    assert before[v] in multiset(before);
    assert before[v] in after;
    var i :| 0 <= i < |after| && after[i] == before[v];
    assert Pins(after, cpus)[i].0 == v;
    DistinctAfter(before, after);
  }

  lemma DistinctAfter(before: seq<Usage>, after: seq<Usage>)
    requires multiset(before) == multiset(after) && forall i :: 0 <= i < |before| ==> before[i].vmId == i
    ensures DistinctIds(after)
  {
    forall i, k | 0 <= i < k < |after| ensures after[i].vmId != after[k].vmId {
      assert after[i] in multiset(after) && after[k] in multiset(after);
      assert after[i] in before && after[k] in before;
      if after[i].vmId == after[k].vmId {
        SeenTwice(after, i, k);
        SeenOnce(before, after[i]);
      }
    }
  }
}
