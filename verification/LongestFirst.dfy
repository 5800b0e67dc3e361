/** Longest processing time first, against every other assignment. */
module LongestFirst {
  import opened Sequences
  import opened Loads

  ghost predicate Descending(u: seq<real>) {
    forall i, k :: 0 <= i < k < |u| ==> u[i] >= u[k]
  }

  /** From job `m` on, every job went to a machine of least load. */
  ghost predicate ToLeastLoaded(u: seq<real>, a: seq<nat>, m: nat) {
    |a| == |u| && forall i :: m <= i < |u| ==> LeastLoaded(u, a, m, i)
  }

  ghost predicate LeastLoaded(u: seq<real>, a: seq<nat>, m: nat, i: nat)
    requires i < |a| == |u|
  {
    forall j: nat :: j < m ==> Load(u, a, a[i], i) <= Load(u, a, j, i)
  }

  ghost predicate Lpt(u: seq<real>, a: seq<nat>, m: nat) {
    && 0 < m < |u| && NonNegative(u) && Descending(u)
    && Assigns(a, |u|, m) && FirstDistinct(a, m) && ToLeastLoaded(u, a, m)
  }

  /** No machine holds more than `opt` under the assignment `b`. */
  ghost predicate Achieves(u: seq<real>, b: seq<nat>, m: nat, opt: real) {
    |b| == |u| && Assigns(b, |u|, m) && forall j: nat :: j < m ==> Load(u, b, j, |u|) <= opt
  }

  lemma Multiply(m: real, x: real, y: real)
    requires m >= 0.0 && x <= y
    ensures m * x <= m * y
  {
  }

  /** Job `k`, put on a least loaded machine, ends at most at the average plus its own excess. */
  lemma AverageBound(u: seq<real>, a: seq<nat>, b: seq<nat>, m: nat, k: nat, opt: real)
    requires Lpt(u, a, m) && Achieves(u, b, m, opt) && m <= k < |u|
    ensures Times(m, Load(u, a, a[k], k) + u[k]) <= Times(m, opt) + Times(m - 1, u[k])
  {
    assert LeastLoaded(u, a, m, k);
    SumAtLeast(u, a, k, m, Load(u, a, a[k], k));
    LoadsTotal(u, a, k, m);
    TotalGrows(u, k + 1, |u|);
    LoadsTotal(u, b, |u|, m);
    SumAtMost(u, b, |u|, m, opt);
    TimesSum(m, Load(u, a, a[k], k), u[k]);
  }

  // ---- the case of a large last job, by weighing jobs

  /** A job that is alone on its machine weighs 2, any other 1. */
  function Weights(a: seq<nat>, k: nat): seq<real>
    requires k <= |a|
  {
    seq(|a|, i requires 0 <= i < |a| => if i < k && Count(a, a[i], k) == 1.0 then 2.0 else 1.0)
  }

  lemma {:induction false} WeightOfMachine(a: seq<nat>, j: nat, k: nat, n: nat)
    requires n <= k <= |a|
    ensures Load(Weights(a, k), a, j, n) == (if Count(a, j, k) == 1.0 then 2.0 else 1.0) * Count(a, j, n)
    decreases n
  {
    if n > 0 { WeightOfMachine(a, j, k, n - 1); }
  }

  /** Every machine with a job on it weighs at least 2. */
  lemma MachineWeighsTwo(a: seq<nat>, m: nat, j: nat, k: nat)
    requires FirstDistinct(a, m) && Assigns(a, m, m) && m <= k <= |a| && j < m
    ensures Load(Weights(a, k), a, j, k) >= 2.0
  {
    AllCovered(a, m);
    assert Count(a, j, m) == 1.0;
    LoadGrows(Ones(|a|), a, j, m, k);
    WeightOfMachine(a, j, k, k);
    CountAboveOne(a, j, k);
  }

  lemma {:induction false} CountAboveOne(a: seq<nat>, j: nat, n: nat)
    requires n <= |a|
    ensures Count(a, j, n) <= 1.0 || Count(a, j, n) >= 2.0
    decreases n
  {
    if n > 0 {
      CountAboveOne(a, j, n - 1);
      CountsAreWhole(a, j, n - 1);
    }
  }

  /** Job `k` is large, and so is the load of every machine before it. */
  ghost predicate LargeJob(u: seq<real>, a: seq<nat>, m: nat, k: nat, opt: real) {
    && Lpt(u, a, m) && m <= k < |u|
    && 3.0 * u[k] > opt
    && Load(u, a, a[k], k) + u[k] > opt
  }

  lemma SizeOfWeight(u: seq<real>, a: seq<nat>, m: nat, k: nat, opt: real, i: nat)
    requires LargeJob(u, a, m, k, opt) && i <= k
    ensures Weights(a, k)[i] == 1.0 || Weights(a, k)[i] == 2.0
    ensures u[i] >= u[k] && (Weights(a, k)[i] == 2.0 ==> u[i] > opt - u[k])
  {
    if i < k && Count(a, a[i], k) == 1.0 {
      OnlyJob(u, a, i, k);
      assert LeastLoaded(u, a, m, k);
    }
  }

  /** Whatever the assignment, a machine that stays within `opt` carries weight at most 2. */
  lemma {:induction false} WeightWithin(u: seq<real>, a: seq<nat>, b: seq<nat>, m: nat, k: nat, opt: real, j: nat,
                                        n: nat)
    requires LargeJob(u, a, m, k, opt) && Achieves(u, b, m, opt) && j < m && n <= k + 1
    ensures var weight := Load(Weights(a, k), b, j, n);
      || (weight == 0.0 && Load(u, b, j, n) == 0.0)
      || (weight == 1.0 && Load(u, b, j, n) >= u[k])
      || (weight == 2.0 && Load(u, b, j, n) > opt - u[k])
    decreases n
  {
    if n > 0 {
      WeightWithin(u, a, b, m, k, opt, j, n - 1);
      SizeOfWeight(u, a, m, k, opt, n - 1);
      LoadGrows(u, b, j, n, |u|);
    }
  }

  /** A large job that ends a machine above `opt` would need more weight than `m` machines carry. */
  lemma LargeJobImpossible(u: seq<real>, a: seq<nat>, b: seq<nat>, m: nat, k: nat, opt: real)
    requires Achieves(u, b, m, opt)
    ensures !LargeJob(u, a, m, k, opt)
  {
    if LargeJob(u, a, m, k, opt) {
      var w := Weights(a, k);
      var placed := k + 1;
      forall j: nat | j < m ensures Load(w, b, j, placed) <= 2.0 { WeightWithin(u, a, b, m, k, opt, j, placed); }
      SumAtMost(w, b, k + 1, m, 2.0);
      LoadsTotal(w, b, k + 1, m);
      forall j: nat | j < m ensures Load(w, a, j, k) >= 2.0 { MachineWeighsTwo(a, m, j, k); }
      SumAtLeast(w, a, k, m, 2.0);
      LoadsTotal(w, a, k, m);
      assert false;
    }
  }

  /** 4/3 - 1/(3m) times `opt` */
  function GrahamBound(m: nat, opt: real): real
    requires m > 0
  {
    (4.0 / 3.0 - 1.0 / (3.0 * m as real)) * opt
  }

  lemma BoundArithmetic(m: nat, load: real, size: real, opt: real)
    requires m > 0 && Times(m, load) <= Times(m, opt) + Times(m - 1, size) && 3.0 * size <= opt
    ensures load <= GrahamBound(m, opt)
  {
    TimesIs(m, load);
    TimesIs(m, opt);
    TimesIs(m - 1, size);
    BoundFromAverage(m as real, load, size, opt);
  }

  lemma BoundFromAverage(m: real, load: real, size: real, opt: real)
    requires m >= 1.0 && m * load <= m * opt + (m - 1.0) * size && 3.0 * size <= opt
    ensures load <= (4.0 / 3.0 - 1.0 / (3.0 * m)) * opt
  {
    Multiply(m - 1.0, 3.0 * size, opt);
    assert 3.0 * m * load <= (4.0 * m - 1.0) * opt;
    DivideBound(m, load, opt);
  }

  lemma DivideBound(m: real, load: real, opt: real)
    requires m >= 1.0 && 3.0 * m * load <= (4.0 * m - 1.0) * opt
    ensures load <= (4.0 / 3.0 - 1.0 / (3.0 * m)) * opt
  {
    var r := 1.0 / (3.0 * m);
    assert r * (3.0 * m) == 1.0;
    Multiply(r, 3.0 * m * load, (4.0 * m - 1.0) * opt);
    assert r * (3.0 * m * load) == (r * (3.0 * m)) * load;
    assert r * ((4.0 * m - 1.0) * opt) == (r * (4.0 * m - 1.0)) * opt;
    assert r * (4.0 * m - 1.0) == 4.0 / 3.0 * (r * (3.0 * m)) - r;
  }

  lemma BoundAboveOpt(m: nat, load: real, opt: real)
    requires m > 0 && load <= opt && opt >= 0.0
    ensures load <= GrahamBound(m, opt)
  {
    var n := m as real;
    Multiply(n, load, opt);
    Multiply(n - 1.0, 0.0, opt);
    assert 3.0 * n * load == 3.0 * (n * load);
    DivideBound(n, load, opt);
  }

  /** Graham's bound: no machine ends above 4/3 - 1/(3m) times what any assignment needs. */
  lemma LptBound(u: seq<real>, a: seq<nat>, b: seq<nat>, m: nat, opt: real, j: nat)
    requires Lpt(u, a, m) && Achieves(u, b, m, opt) && j < m
    ensures Load(u, a, j, |u|) <= (4.0 / 3.0 - 1.0 / (3.0 * m as real)) * opt
  {
    AllCovered(a, m);
    assert Count(a, j, m) == 1.0;
    LoadGrows(Ones(|a|), a, j, m, |u|);
    var k := LastJob(u, a, j, |u|);
    JobWithinLoad(u, b, k, |u|);
    if k < m {
      CountDistinct(a, j, m, k + 1);
      LoadGrows(Ones(|a|), a, j, k, k);
      JobWithinLoad(Ones(|a|), a, k, k + 1);
      OnlyJob(u, a, k, k + 1);
      BoundAboveOpt(m, Load(u, a, j, |u|), opt);
    } else if 3.0 * u[k] <= opt {
      AverageBound(u, a, b, m, k, opt);
      BoundArithmetic(m, Load(u, a, j, |u|), u[k], opt);
    } else {
      LargeJobImpossible(u, a, b, m, k, opt);
      BoundAboveOpt(m, Load(u, a, j, |u|), opt);
    }
  }

  /** The factor cannot be improved: with two machines it is reached. */
  lemma BoundIsReached()
    ensures var u, a, b := [3.0, 3.0, 2.0, 2.0, 2.0], [0, 1, 0, 1, 0], [0, 0, 1, 1, 1];
      Lpt(u, a, 2) && Achieves(u, b, 2, 6.0) && Load(u, a, 0, 5) == 7.0 == GrahamBound(2, 6.0)
  {
    var u, a, b := [3.0, 3.0, 2.0, 2.0, 2.0], [0, 1, 0, 1, 0], [0, 0, 1, 1, 1];
    forall j: nat | j < 2
      ensures Load(u, a, j, 2) == 3.0
      ensures Load(u, a, j, 3) == if j == 0 then 5.0 else 3.0
      ensures Load(u, a, j, 4) == 5.0
      ensures Load(u, b, j, 5) == 6.0
    {
      assert Load(u, a, j, 1) == if j == 0 then 3.0 else 0.0;
      assert Load(u, b, j, 1) == if j == 0 then 3.0 else 0.0;
      assert Load(u, b, j, 2) == if j == 0 then 6.0 else 0.0;
      assert Load(u, b, j, 3) == if j == 0 then 6.0 else 2.0;
      assert Load(u, b, j, 4) == if j == 0 then 6.0 else 4.0;
    }
  }
}
