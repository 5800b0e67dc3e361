/** Loads of machines under an assignment of jobs. */
module Loads {
  import opened Sequences

  /** The load of machine `j` when the first `n` jobs, of sizes `w`, are where `a` puts them. */
  function Load(w: seq<real>, a: seq<nat>, j: nat, n: nat): real
    requires n <= |w| && n <= |a|
  {
    if n == 0 then 0.0 else Load(w, a, j, n - 1) + if a[n - 1] == j then w[n - 1] else 0.0
  }

  function SumLoads(w: seq<real>, a: seq<nat>, n: nat, m: nat): real
    requires n <= |w| && n <= |a|
  {
    if m == 0 then 0.0 else SumLoads(w, a, n, m - 1) + Load(w, a, m - 1, n)
  }

  function SizeOf(w: seq<real>, n: nat): real
    requires n <= |w|
  {
    if n == 0 then 0.0 else SizeOf(w, n - 1) + w[n - 1]
  }

  ghost predicate Assigns(a: seq<nat>, n: nat, m: nat) {
    n <= |a| && forall i :: 0 <= i < n ==> a[i] < m
  }

  ghost predicate NonNegative(w: seq<real>) {
    forall i :: 0 <= i < |w| ==> w[i] >= 0.0
  }

  lemma {:induction false} SumLoadsStep(w: seq<real>, a: seq<nat>, n: nat, m: nat)
    requires n < |w| && n < |a|
    ensures SumLoads(w, a, n + 1, m) == SumLoads(w, a, n, m) + if a[n] < m then w[n] else 0.0
    decreases m
  {
    if m > 0 {
      SumLoadsStep(w, a, n, m - 1);
    }
  }

  /** No job is lost or counted twice. */
  lemma {:induction false} LoadsTotal(w: seq<real>, a: seq<nat>, n: nat, m: nat)
    requires n <= |w| && Assigns(a, n, m)
    ensures SumLoads(w, a, n, m) == SizeOf(w, n)
    decreases n
  {
    if n > 0 {
      LoadsTotal(w, a, n - 1, m);
      SumLoadsStep(w, a, n - 1, m);
    } else {
      NoLoads(w, a, m);
    }
  }

  lemma {:induction false} NoLoads(w: seq<real>, a: seq<nat>, m: nat)
    ensures SumLoads(w, a, 0, m) == 0.0
    decreases m
  {
    if m > 0 { NoLoads(w, a, m - 1); }
  }

  /** `m` times `x`. */
  function Times(m: nat, x: real): real { if m == 0 then 0.0 else Times(m - 1, x) + x }

  lemma {:induction false} TimesIs(m: nat, x: real)
    ensures Times(m, x) == m as real * x
  {
    if m > 0 { TimesIs(m - 1, x); }
  }

  lemma {:induction false} TimesSum(m: nat, x: real, y: real)
    ensures Times(m, x + y) == Times(m, x) + Times(m, y)
  {
    if m > 0 { TimesSum(m - 1, x, y); }
  }

  lemma {:induction false} SumAtLeast(w: seq<real>, a: seq<nat>, n: nat, m: nat, x: real)
    requires n <= |w| && n <= |a| && forall j: nat :: j < m ==> Load(w, a, j, n) >= x
    ensures SumLoads(w, a, n, m) >= Times(m, x)
    decreases m
  {
    if m > 0 { SumAtLeast(w, a, n, m - 1, x); }
  }

  lemma {:induction false} SumAtMost(w: seq<real>, a: seq<nat>, n: nat, m: nat, x: real)
    requires n <= |w| && n <= |a| && forall j: nat :: j < m ==> Load(w, a, j, n) <= x
    ensures SumLoads(w, a, n, m) <= Times(m, x)
    decreases m
  {
    if m > 0 { SumAtMost(w, a, n, m - 1, x); }
  }

  lemma {:induction false} LoadGrows(w: seq<real>, a: seq<nat>, j: nat, k: nat, n: nat)
    requires k <= n <= |w| && n <= |a| && NonNegative(w)
    ensures 0.0 <= Load(w, a, j, k) <= Load(w, a, j, n)
    decreases n
  {
    if k < n {
      LoadGrows(w, a, j, k, n - 1);
    } else if n > 0 {
      LoadGrows(w, a, j, n - 1, n - 1);
    }
  }

  lemma {:induction false} TotalGrows(w: seq<real>, k: nat, n: nat)
    requires k <= n <= |w| && NonNegative(w)
    ensures SizeOf(w, k) <= SizeOf(w, n)
    decreases n
  {
    if k < n { TotalGrows(w, k, n - 1); }
  }

  lemma {:induction false} JobWithinLoad(w: seq<real>, a: seq<nat>, i: nat, n: nat)
    requires i < n <= |w| && n <= |a| && NonNegative(w)
    ensures w[i] <= Load(w, a, a[i], n)
  {
    LoadGrows(w, a, a[i], i, i);
    LoadGrows(w, a, a[i], i + 1, n);
  }

  lemma {:induction false} NothingThere(w: seq<real>, a: seq<nat>, j: nat, n: nat)
    requires n <= |w| && n <= |a| && forall i :: 0 <= i < n ==> a[i] != j
    ensures Load(w, a, j, n) == 0.0
    decreases n
  {
    if n > 0 { NothingThere(w, a, j, n - 1); }
  }

  // ---- counting jobs

  function Ones(n: nat): seq<real> { seq(n, _ => 1.0) }

  function Count(a: seq<nat>, j: nat, n: nat): real
    requires n <= |a|
  {
    Load(Ones(|a|), a, j, n)
  }

  lemma {:induction false} TotalOnes(k: nat, n: nat)
    requires n <= k
    ensures SizeOf(Ones(k), n) == n as real
    decreases n
  {
    if n > 0 { TotalOnes(k, n - 1); }
  }

  lemma {:induction false} CountsAreWhole(a: seq<nat>, j: nat, n: nat)
    requires n <= |a|
    ensures Count(a, j, n) == 0.0 || Count(a, j, n) >= 1.0
    decreases n
  {
    if n > 0 { CountsAreWhole(a, j, n - 1); }
  }

  lemma CountDistinct(a: seq<nat>, j: nat, m: nat, n: nat)
    requires FirstDistinct(a, m) && n <= m
    ensures Count(a, j, n) <= 1.0
    decreases n
  {
    if n > 0 {
      if a[n - 1] == j {
        NothingThere(Ones(|a|), a, j, n - 1);
      } else {
        CountDistinct(a, j, m, n - 1);
      }
    }
  }

  lemma {:induction false} AllFull(w: seq<real>, a: seq<nat>, n: nat, m: nat)
    requires n <= |w| && n <= |a| && SumLoads(w, a, n, m) >= m as real
    requires forall j: nat :: j < m ==> Load(w, a, j, n) <= 1.0
    ensures forall j: nat :: j < m ==> Load(w, a, j, n) >= 1.0
    decreases m
  {
    if m > 0 {
      SumAtMost(w, a, n, m - 1, 1.0);
      TimesIs(m - 1, 1.0);
      AllFull(w, a, n, m - 1);
    }
  }

  /** `m` jobs on distinct machines leave no machine empty. */
  lemma AllCovered(a: seq<nat>, m: nat)
    requires FirstDistinct(a, m) && Assigns(a, m, m)
    ensures forall j: nat :: j < m ==> Count(a, j, m) == 1.0
  {
    forall j: nat | j < m ensures Load(Ones(|a|), a, j, m) <= 1.0 { CountDistinct(a, j, m, m); }
    LoadsTotal(Ones(|a|), a, m, m);
    TotalOnes(|a|, m);
    AllFull(Ones(|a|), a, m, m);
  }

  /** The last job on a machine that has one. */
  lemma {:induction false} LastJob(w: seq<real>, a: seq<nat>, j: nat, n: nat) returns (k: nat)
    requires n <= |w| && n <= |a| && Count(a, j, n) > 0.0
    ensures k < n && a[k] == j && Load(w, a, j, n) == Load(w, a, j, k) + w[k]
    decreases n
  {
    if a[n - 1] == j {
      k := n - 1;
    } else {
      k := LastJob(w, a, j, n - 1);
    }
  }

  lemma {:induction false} OnlyJob(w: seq<real>, a: seq<nat>, i: nat, n: nat)
    requires i < n <= |w| && n <= |a| && Count(a, a[i], n) == 1.0
    ensures Load(w, a, a[i], n) == w[i]
    decreases n
  {
    if i == n - 1 {
      if exists k :: 0 <= k < n - 1 && a[k] == a[i] {
        var k :| 0 <= k < n - 1 && a[k] == a[i];
        JobWithinLoad(Ones(|a|), a, k, n - 1);
      }
      NothingThere(w, a, a[i], n - 1);
    } else {
      JobWithinLoad(Ones(|a|), a, i, n - 1);
      OnlyJob(w, a, i, n - 1);
    }
  }
}
