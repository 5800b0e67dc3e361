/** The memory coordinator (project1-1/memory/src/memory_coordinator.c); all amounts are in MB. */
module MemoryCoordinator {
  import opened Sequences

  const UNUSED_MEM_LOW := 100
  const UNUSED_MEM_HIGH := 300
  const MEM_ALLOC_UNIT := 100
  const HOST_MEM_LOW := 200

  /** unsigned long long */
  function U64(x: int): nat { x % 0x1_0000_0000_0000_0000 }

  const INT_MAX := 0x7fff_ffff

  /** What the hypervisor reports of a VM besides its balloon. */
  datatype Reading = Reading(unused: nat, maxMem: nat)

  // vm_status 0, 1, 2
  datatype Status = Extra | Lacks | Enough

  function Classify(r: Reading, balloon: nat): Status {
    if r.unused < UNUSED_MEM_LOW then
      if r.maxMem < balloon + MEM_ALLOC_UNIT then Enough else Lacks
    else if r.unused > UNUSED_MEM_HIGH then Extra
    else Enough
  }

  /** How many of the first `n` VMs have a status. */
  function Count(rs: seq<Reading>, bs: seq<nat>, st: Status, n: nat): (c: nat)
    requires n <= |rs| == |bs|
    ensures c <= n
  {
    if n == 0 then 0 else Count(rs, bs, st, n - 1) + if Classify(rs[n - 1], bs[n - 1]) == st then 1 else 0
  }

  function Needed(rs: seq<Reading>, bs: seq<nat>): nat
    requires |rs| == |bs|
  {
    MEM_ALLOC_UNIT * Count(rs, bs, Lacks, |rs|)
  }

  function Available(rs: seq<Reading>, bs: seq<nat>): nat
    requires |rs| == |bs|
  {
    MEM_ALLOC_UNIT * Count(rs, bs, Extra, |rs|)
  }

  /** What the VMs need beyond what the VMs can give. */
  function Shortfall(rs: seq<Reading>, bs: seq<nat>): nat
    requires |rs| == |bs|
  {
    if Needed(rs, bs) > Available(rs, bs) then Needed(rs, bs) - Available(rs, bs) else 0
  }

  /** The test of line 160, in unsigned arithmetic. */
  predicate HostCovers(shortfall: nat, host: nat) {
    U64(host - shortfall) >= HOST_MEM_LOW
  }

  /** There is enough for every VM that lacks memory. */
  predicate EnoughForAll(rs: seq<Reading>, bs: seq<nat>, host: nat)
    requires |rs| == |bs|
  {
    Shortfall(rs, bs) == 0 || HostCovers(Shortfall(rs, bs), host)
  }

  /** VM `i` is inflated: it lacks memory, and there is enough for all or for as many VMs as lack it up to here. */
  predicate Granted(rs: seq<Reading>, bs: seq<nat>, host: nat, i: nat)
    requires i < |rs| == |bs|
  {
    && Classify(rs[i], bs[i]) == Lacks
    && (EnoughForAll(rs, bs, host) || Count(rs, bs, Lacks, i) < Count(rs, bs, Extra, |rs|))
  }

  function NewBalloon(rs: seq<Reading>, bs: seq<nat>, host: nat, i: nat): nat
    requires i < |rs| == |bs|
  {
    if Classify(rs[i], bs[i]) == Extra then U64(bs[i] - MEM_ALLOC_UNIT)
    else if Granted(rs, bs, host, i) then bs[i] + MEM_ALLOC_UNIT
    else bs[i]
  }

  function Tick(rs: seq<Reading>, bs: seq<nat>, host: nat): seq<nat>
    requires |rs| == |bs|
  {
    seq(|rs|, i requires 0 <= i < |rs| => NewBalloon(rs, bs, host, i))
  }

  // ---- what a tick does to the host

  /** A VM has no more unused memory than memory. */
  ghost predicate Sane(rs: seq<Reading>, bs: seq<nat>) {
    |rs| == |bs| <= INT_MAX && forall i :: 0 <= i < |rs| ==> rs[i].unused <= bs[i] < 0x40_0000_0000_0000
  }

  function GrantedCount(rs: seq<Reading>, bs: seq<nat>, host: nat, n: nat): nat
    requires n <= |rs| == |bs|
  {
    if n == 0 then 0 else GrantedCount(rs, bs, host, n - 1) + if Granted(rs, bs, host, n - 1) then 1 else 0
  }

  function Sum(bs: seq<nat>, n: nat): nat
    requires n <= |bs|
  {
    if n == 0 then 0 else Sum(bs, n - 1) + bs[n - 1]
  }

  /** Either all are served that lack memory, or exactly as many as there are VMs that give. */
  lemma {:induction false} GrantedCountIs(rs: seq<Reading>, bs: seq<nat>, host: nat, n: nat)
    requires n <= |rs| == |bs|
    ensures GrantedCount(rs, bs, host, n) ==
      if EnoughForAll(rs, bs, host) || Count(rs, bs, Lacks, n) <= Count(rs, bs, Extra, |rs|)
      then Count(rs, bs, Lacks, n) else Count(rs, bs, Extra, |rs|)
    decreases n
  {
    if n > 0 { GrantedCountIs(rs, bs, host, n - 1); }
  }

  lemma {:induction false} SumChange(rs: seq<Reading>, bs: seq<nat>, host: nat, n: nat)
    requires Sane(rs, bs) && n <= |rs|
    ensures Sum(Tick(rs, bs, host), n) ==
      Sum(bs, n) + MEM_ALLOC_UNIT * GrantedCount(rs, bs, host, n) - MEM_ALLOC_UNIT * Count(rs, bs, Extra, n)
    decreases n
  {
    if n > 0 { SumChange(rs, bs, host, n - 1); }
  }

  /** What the host has after the tick: it takes a surplus, covers a shortfall, or stays out of it. */
  function HostAfter(rs: seq<Reading>, bs: seq<nat>, host: nat): int
    requires |rs| == |bs|
  {
    if EnoughForAll(rs, bs, host) then host + Available(rs, bs) - Needed(rs, bs) else host
  }

  /**
   No memory appears or disappears: what the VMs gain the host loses, and a tick that the host does not cover is
   zero-sum.
  */
  lemma TickConserves(rs: seq<Reading>, bs: seq<nat>, host: nat)
    requires Sane(rs, bs)
    ensures HostAfter(rs, bs, host) + Sum(Tick(rs, bs, host), |rs|) == host + Sum(bs, |rs|)
    ensures !EnoughForAll(rs, bs, host) ==> Sum(Tick(rs, bs, host), |rs|) == Sum(bs, |rs|)
  {
    SumChange(rs, bs, host, |rs|);
    GrantedCountIs(rs, bs, host, |rs|);
  }

  function Min(a: int, b: int): int { if a <= b then a else b }

  /** The tick leaves the host its reserve, or what it had, exactly if the shortfall does not exceed its free memory. */
  lemma HostKeepsReserveIff(rs: seq<Reading>, bs: seq<nat>, host: nat)
    requires |rs| == |bs| <= INT_MAX && host < 0x1_0000_0000_0000_0000
    ensures HostAfter(rs, bs, host) >= Min(host, 200) <==> Shortfall(rs, bs) <= host
  {
    var shortfall := Shortfall(rs, bs);
    assert shortfall <= MEM_ALLOC_UNIT * INT_MAX;
    if shortfall > host {
      assert U64(host - shortfall) == host - shortfall + 0x1_0000_0000_0000_0000;
    } else {
      assert U64(host - shortfall) == host - shortfall;
    }
  }

  /**
   Three VMs that lack memory and a host with exactly its reserve: the unsigned difference passes the test, and the
   host is overdrawn.
  */
  lemma ReserveOverdrawn()
    ensures var rs, bs := [Reading(50, 1000), Reading(50, 1000), Reading(50, 1000)], [500, 500, 500];
      HostAfter(rs, bs, HOST_MEM_LOW) == -100
  {
    var rs, bs := [Reading(50, 1000), Reading(50, 1000), Reading(50, 1000)], [500, 500, 500];
    assert Count(rs, bs, Lacks, 1) == 1 && Count(rs, bs, Lacks, 2) == 2 && Count(rs, bs, Lacks, 3) == 3;
    assert Count(rs, bs, Extra, 1) == 0 && Count(rs, bs, Extra, 2) == 0 && Count(rs, bs, Extra, 3) == 0;
  }

  /** With two VMs the test cannot be passed by wrapping unless the host is below its reserve already. */
  lemma TwoVmsAreSafe(rs: seq<Reading>, bs: seq<nat>, host: nat)
    requires |rs| == |bs| <= 2 && HOST_MEM_LOW <= host < 0x1_0000_0000_0000_0000
    ensures HostAfter(rs, bs, host) >= HOST_MEM_LOW
  {
    HostKeepsReserveIff(rs, bs, host);
  }

  /** Balloons grow only up to the maximum; a VM that gives keeps more than the reserve of unused memory asks for. */
  lemma BalloonLimits(rs: seq<Reading>, bs: seq<nat>, host: nat, i: nat)
    requires Sane(rs, bs) && i < |rs|
    ensures var b := Tick(rs, bs, host)[i];
      && (b > bs[i] ==> b == bs[i] + MEM_ALLOC_UNIT <= rs[i].maxMem && rs[i].unused < UNUSED_MEM_LOW)
      && (b < bs[i] ==>
           && b == bs[i] - MEM_ALLOC_UNIT
           && rs[i].unused - MEM_ALLOC_UNIT > UNUSED_MEM_HIGH - MEM_ALLOC_UNIT >= UNUSED_MEM_LOW)
  {
  }

  // ---- which balloons move, in the numbers of the source

  /** The first `n` VMs that have more than 300 MB unused, and those below 100 MB that can grow by 100 MB. */
  ghost function Giving(rs: seq<Reading>, n: nat): set<nat>
    requires n <= |rs|
  {
    set i: nat | i < n && rs[i].unused > 300
  }

  ghost function Lacking(rs: seq<Reading>, bs: seq<nat>, n: nat): set<nat>
    requires n <= |rs| == |bs|
  {
    set i: nat | i < n && rs[i].unused < 100 && bs[i] + 100 <= rs[i].maxMem
  }

  lemma {:induction false} CountGiving(rs: seq<Reading>, bs: seq<nat>, n: nat)
    requires n <= |rs| == |bs|
    ensures Count(rs, bs, Extra, n) == |Giving(rs, n)|
    decreases n
  {
    if n > 0 {
      CountGiving(rs, bs, n - 1);
      assert Giving(rs, n) == Giving(rs, n - 1) + if rs[n - 1].unused > 300 then {n - 1} else {};
    }
  }

  lemma {:induction false} CountLacking(rs: seq<Reading>, bs: seq<nat>, n: nat)
    requires n <= |rs| == |bs|
    ensures Count(rs, bs, Lacks, n) == |Lacking(rs, bs, n)|
    decreases n
  {
    if n > 0 {
      CountLacking(rs, bs, n - 1);
      assert Lacking(rs, bs, n) == Lacking(rs, bs, n - 1) +
        if rs[n - 1].unused < 100 && bs[n - 1] + 100 <= rs[n - 1].maxMem then {n - 1} else {};
    }
  }

  /**
   Enough for all: the VMs that give are as many as lack memory, or the host covers 100 MB for each one too many and
   keeps 200 MB, or the unsigned difference wraps because it does not have that much.
  */
  ghost predicate Suffices(lacking: nat, giving: nat, host: nat) {
    lacking <= giving || 100 * (lacking - giving) + 200 <= host || host < 100 * (lacking - giving)
  }

  lemma EnoughIff(rs: seq<Reading>, bs: seq<nat>, host: nat)
    requires |rs| == |bs| <= INT_MAX && host < 0x1_0000_0000_0000_0000
    ensures EnoughForAll(rs, bs, host) <==> Suffices(|Lacking(rs, bs, |rs|)|, |Giving(rs, |rs|)|, host)
  {
    CountLacking(rs, bs, |rs|);
    CountGiving(rs, bs, |rs|);
    var shortfall := Shortfall(rs, bs);
    assert shortfall <= MEM_ALLOC_UNIT * INT_MAX;
    if shortfall > host {
      assert U64(host - shortfall) == host - shortfall + 0x1_0000_0000_0000_0000;
    } else {
      assert U64(host - shortfall) == host - shortfall;
    }
  }

  /** The subtraction at line 171 does not wrap: a VM that has to give has 100 MB, as it has if the reading is sane. */
  predicate CanGive(r: Reading, balloon: nat) {
    balloon < 0x1_0000_0000_0000_0000 && (r.unused > 300 ==> balloon >= 100)
  }

  /** A balloon shrinks, by 100 MB, if and only if its VM has more than 300 MB unused. */
  lemma ShrinksIff(rs: seq<Reading>, bs: seq<nat>, host: nat, i: nat)
    requires i < |rs| == |bs| && CanGive(rs[i], bs[i])
    ensures Tick(rs, bs, host)[i] < bs[i] <==> rs[i].unused > 300
    ensures Tick(rs, bs, host)[i] < bs[i] ==> Tick(rs, bs, host)[i] == bs[i] - 100
  {
  }

  /**
   It grows, by 100 MB, if and only if its VM has less than 100 MB unused and may grow, and there is enough for all or
   fewer VMs lack memory before it than give any.
  */
  lemma GrowsIff(rs: seq<Reading>, bs: seq<nat>, host: nat, i: nat)
    requires i < |rs| == |bs| <= INT_MAX && host < 0x1_0000_0000_0000_0000 && CanGive(rs[i], bs[i])
    ensures Tick(rs, bs, host)[i] > bs[i] <==>
      && rs[i].unused < 100 && bs[i] + 100 <= rs[i].maxMem
      && (Suffices(|Lacking(rs, bs, |rs|)|, |Giving(rs, |rs|)|, host) ||
          |Lacking(rs, bs, i)| < |Giving(rs, |rs|)|)
    ensures Tick(rs, bs, host)[i] > bs[i] ==> Tick(rs, bs, host)[i] == bs[i] + 100
  {
    EnoughIff(rs, bs, host);
    CountLacking(rs, bs, i);
    CountGiving(rs, bs, |rs|);
  }

  // ---- runs

  datatype State = State(host: int, balloons: seq<nat>)

  /** One tick; a host without free memory ends the program (line 117). */
  function After(s: State, rs: seq<Reading>): State {
    if s.host <= 0 || |rs| != |s.balloons| then s
    else State(HostAfter(rs, s.balloons, s.host), Tick(rs, s.balloons, s.host))
  }

  function Run(s: State, rss: seq<seq<Reading>>): State {
    if rss == [] then s else After(Run(s, rss[..|rss| - 1]), rss[|rss| - 1])
  }

  /** Every tick sees readings that fit the balloons, and a host that can cover the shortfall. */
  ghost predicate Covered(s: State, rss: seq<seq<Reading>>) {
    forall k :: 0 <= k < |rss| ==> CoveredAt(Run(s, rss[..k]), rss[k])
  }

  ghost predicate CoveredAt(s: State, rs: seq<Reading>) {
    Sane(rs, s.balloons) && Shortfall(rs, s.balloons) <= s.host < 0x1_0000_0000_0000_0000
  }

  ghost predicate MaxIs(rs: seq<Reading>, maxMem: seq<nat>) {
    |rs| == |maxMem| && forall i :: 0 <= i < |rs| ==> rs[i].maxMem == maxMem[i]
  }

  lemma CoveredPrefix(s: State, rss: seq<seq<Reading>>)
    requires Covered(s, rss) && rss != []
    ensures Covered(s, rss[..|rss| - 1]) && CoveredAt(Run(s, rss[..|rss| - 1]), rss[|rss| - 1])
  {
    var before := rss[..|rss| - 1];
    forall k | 0 <= k < |before| ensures CoveredAt(Run(s, before[..k]), before[k]) {
      assert before[..k] == rss[..k];
    }
  }

  /** Whatever the VMs report over a run: memory is conserved, and the host keeps its reserve. */
  lemma {:induction false} RunConserves(s: State, rss: seq<seq<Reading>>)
    requires s.host >= 0 && Covered(s, rss)
    ensures var t := Run(s, rss);
      && |t.balloons| == |s.balloons|
      && t.host + Sum(t.balloons, |t.balloons|) == s.host + Sum(s.balloons, |s.balloons|)
      && t.host >= Min(s.host, 200)
    decreases |rss|
  {
    if rss != [] {
      CoveredPrefix(s, rss);
      var t, rs := Run(s, rss[..|rss| - 1]), rss[|rss| - 1];
      RunConserves(s, rss[..|rss| - 1]);
      TickConserves(rs, t.balloons, t.host);
      HostKeepsReserveIff(rs, t.balloons, t.host);
    }
  }

  /** No run takes a balloon above the maximum of its VM. */
  lemma {:induction false} RunWithinMax(s: State, rss: seq<seq<Reading>>, maxMem: seq<nat>)
    requires s.host >= 0 && Covered(s, rss) && |maxMem| == |s.balloons|
    requires forall k :: 0 <= k < |rss| ==> MaxIs(rss[k], maxMem)
    requires forall i :: 0 <= i < |maxMem| ==> s.balloons[i] <= maxMem[i]
    ensures |Run(s, rss).balloons| == |maxMem|
    ensures forall i :: 0 <= i < |maxMem| ==> Run(s, rss).balloons[i] <= maxMem[i]
    decreases |rss|
  {
    if rss != [] {
      CoveredPrefix(s, rss);
      var t, rs := Run(s, rss[..|rss| - 1]), rss[|rss| - 1];
      RunWithinMax(s, rss[..|rss| - 1], maxMem);
      assert MaxIs(rs, maxMem);
      forall i | 0 <= i < |maxMem| ensures Run(s, rss).balloons[i] <= maxMem[i] {
        if t.host > 0 { BalloonLimits(rs, t.balloons, t.host, i); }
      }
    }
  }

  // ---- the program

  /** A virtual machine as libvirt shows it. */
  class Domain {
    const maxMem: nat
    var unused: nat
    var balloon: nat

    constructor (maxMem: nat, unused: nat, balloon: nat)
      ensures this.maxMem == maxMem && this.unused == unused && this.balloon == balloon
    {
      this.maxMem, this.unused, this.balloon := maxMem, unused, balloon;
    }

    method SetMemory(mb: nat)
      modifies this`balloon
      ensures balloon == mb
    {
      balloon := mb;
    }
  }

  ghost function Readings(ds: seq<Domain>): seq<Reading>
    reads ds
  {
    seq(|ds|, i requires 0 <= i < |ds| reads ds => Reading(ds[i].unused, ds[i].maxMem))
  }

  ghost function Balloons(ds: seq<Domain>): seq<nat>
    reads ds
  {
    seq(|ds|, i requires 0 <= i < |ds| reads ds => ds[i].balloon)
  }

  /** Lines 137-156. */
  method ClassifyAll(ds: seq<Domain>, unused: array<nat>, balloons: array<nat>)
    returns (status: array<Status>, memNeeded: nat, memAvail: nat, lackCount: nat)
    requires unused.Length == balloons.Length == |ds|
    requires forall i :: 0 <= i < |ds| ==> unused[i] == ds[i].unused && balloons[i] == ds[i].balloon
    ensures status.Length == |ds| && fresh(status)
    ensures forall i :: 0 <= i < |ds| ==> status[i] == Classify(Readings(ds)[i], Balloons(ds)[i])
    ensures memNeeded == Needed(Readings(ds), Balloons(ds)) && memAvail == Available(Readings(ds), Balloons(ds))
    ensures lackCount == Count(Readings(ds), Balloons(ds), Lacks, |ds|)
  {
    status := new Status[|ds|](_ => Enough);
    memNeeded, memAvail, lackCount := 0, 0, 0;
    ghost var rs, bs := Readings(ds), Balloons(ds);
    for i := 0 to |ds|
      invariant rs == Readings(ds) && bs == Balloons(ds)
      invariant forall k :: 0 <= k < i ==> status[k] == Classify(rs[k], bs[k])
      invariant lackCount == Count(rs, bs, Lacks, i) && memNeeded == MEM_ALLOC_UNIT * lackCount
      invariant memAvail == MEM_ALLOC_UNIT * Count(rs, bs, Extra, i)
    {
      if unused[i] < UNUSED_MEM_LOW {
        var maxMem := ds[i].maxMem;
        if maxMem < balloons[i] + MEM_ALLOC_UNIT {
          status[i] := Enough;
          continue;
        }
        status[i] := Lacks;
        memNeeded := memNeeded + MEM_ALLOC_UNIT;
        lackCount := lackCount + 1;
      } else if unused[i] > UNUSED_MEM_HIGH {
        status[i] := Extra;
        memAvail := memAvail + MEM_ALLOC_UNIT;
      } else {
        status[i] := Enough;
      }
    }
  }

  ghost predicate Classified(ds: seq<Domain>, balloons: array<nat>, status: array<Status>, rs: seq<Reading>,
                             bs: seq<nat>)
    reads ds, balloons, status
  {
    && |rs| == |bs| == |ds| == balloons.Length == status.Length
    && forall i :: 0 <= i < |ds| ==> balloons[i] == bs[i] && status[i] == Classify(rs[i], bs[i])
  }

  /** Lines 168-179: every VM gets what it lacks. */
  method ResizeAll(ds: seq<Domain>, balloons: array<nat>, status: array<Status>,
                   ghost rs: seq<Reading>, ghost bs: seq<nat>, ghost host: nat)
    requires Distinct(ds) && Classified(ds, balloons, status, rs, bs) && EnoughForAll(rs, bs, host)
    requires forall i :: 0 <= i < |ds| ==> ds[i].balloon == bs[i]
    modifies ds`balloon
    ensures forall i :: 0 <= i < |ds| ==> ds[i].balloon == NewBalloon(rs, bs, host, i)
  {
    for i := 0 to |ds|
      invariant forall k :: 0 <= k < |ds| ==> ds[k].balloon == if k < i then NewBalloon(rs, bs, host, k) else bs[k]
    {
      if status[i] == Extra {
        ds[i].SetMemory(U64(balloons[i] - MEM_ALLOC_UNIT));
      } else if status[i] == Lacks {
        ds[i].SetMemory(balloons[i] + MEM_ALLOC_UNIT);
      }
    }
  }

  /** What is left of the memory that the VMs give after the first `i` VMs. */
  function Left(rs: seq<Reading>, bs: seq<nat>, host: nat, i: nat): int
    requires i <= |rs| == |bs|
  {
    Available(rs, bs) - MEM_ALLOC_UNIT * GrantedCount(rs, bs, host, i)
  }

  lemma LeftStep(rs: seq<Reading>, bs: seq<nat>, host: nat, i: nat)
    requires i < |rs| == |bs| && !EnoughForAll(rs, bs, host)
    ensures Classify(rs[i], bs[i]) == Lacks ==> (Left(rs, bs, host, i) > 0 <==> Granted(rs, bs, host, i))
    ensures Left(rs, bs, host, i + 1) == Left(rs, bs, host, i) - if Granted(rs, bs, host, i) then MEM_ALLOC_UNIT else 0
    ensures Left(rs, bs, host, i + 1) >= 0
  {
    GrantedCountIs(rs, bs, host, i);
    GrantedCountIs(rs, bs, host, i + 1);
  }

  /** The body of the loop at lines 181-192. */
  method ResizeOne(d: Domain, balloon: nat, status: Status, memAvail: nat) returns (left: nat)
    modifies d`balloon
    requires status == Lacks && memAvail > 0 ==> memAvail >= MEM_ALLOC_UNIT
    ensures d.balloon ==
      if status == Extra then U64(balloon - MEM_ALLOC_UNIT)
      else if status == Lacks && memAvail > 0 then balloon + MEM_ALLOC_UNIT
      else old(d.balloon)
    ensures left == if status == Lacks && memAvail > 0 then memAvail - MEM_ALLOC_UNIT else memAvail
  {
    left := memAvail;
    if status == Extra {
      d.SetMemory(U64(balloon - MEM_ALLOC_UNIT));
    } else if status == Lacks {
      if memAvail > 0 {
        d.SetMemory(balloon + MEM_ALLOC_UNIT);
        left := memAvail - MEM_ALLOC_UNIT;
      }
    }
  }

  /** Lines 181-192: the VMs that lack memory share what the others give, first come first served. */
  method ResizeSome(ds: seq<Domain>, balloons: array<nat>, status: array<Status>, memAvail0: nat,
                    ghost rs: seq<Reading>, ghost bs: seq<nat>, ghost host: nat)
    requires Distinct(ds) && Classified(ds, balloons, status, rs, bs) && !EnoughForAll(rs, bs, host)
    requires forall i :: 0 <= i < |ds| ==> ds[i].balloon == bs[i]
    requires memAvail0 == Available(rs, bs)
    modifies ds`balloon
    ensures forall i :: 0 <= i < |ds| ==> ds[i].balloon == NewBalloon(rs, bs, host, i)
  {
    var memAvail := memAvail0;
    for i := 0 to |ds|
      invariant forall k :: 0 <= k < |ds| ==> ds[k].balloon == if k < i then NewBalloon(rs, bs, host, k) else bs[k]
      invariant memAvail == Left(rs, bs, host, i)
    {
      LeftStep(rs, bs, host, i);
      memAvail := ResizeOne(ds[i], balloons[i], status[i], memAvail);
    }
  }

  /** get_mem_stats */
  method GetMemStats(ds: seq<Domain>) returns (unused: array<nat>, balloons: array<nat>)
    ensures fresh(unused) && fresh(balloons) && unused.Length == balloons.Length == |ds|
    ensures forall i :: 0 <= i < |ds| ==> unused[i] == ds[i].unused && balloons[i] == ds[i].balloon
  {
    unused, balloons := new nat[|ds|](_ => 0), new nat[|ds|](_ => 0);
    for i := 0 to |ds|
      invariant forall k :: 0 <= k < i ==> unused[k] == ds[k].unused && balloons[k] == ds[k].balloon
    {
      unused[i], balloons[i] := ds[i].unused, ds[i].balloon;
    }
  }

  /** Lines 167-193. */
  method Resize(ds: seq<Domain>, balloons: array<nat>, status: array<Status>, memNeeded: nat, memAvail: nat,
                lackCount: nat,
                ghost rs: seq<Reading>, ghost bs: seq<nat>, ghost host: nat)
    requires Distinct(ds) && Classified(ds, balloons, status, rs, bs)
    requires forall i :: 0 <= i < |ds| ==> ds[i].balloon == bs[i]
    requires memNeeded == Needed(rs, bs) && lackCount == Count(rs, bs, Lacks, |rs|)
    requires memAvail == if Shortfall(rs, bs) > 0 && EnoughForAll(rs, bs, host) then memNeeded else Available(rs, bs)
    modifies ds`balloon
    ensures forall i :: 0 <= i < |ds| ==> ds[i].balloon == NewBalloon(rs, bs, host, i)
  {
    if memAvail >= memNeeded {
      ResizeAll(ds, balloons, status, rs, bs, host);
    } else if lackCount > 0 {
      ResizeSome(ds, balloons, status, memAvail, rs, bs, host);
    }
  }

  /** One tick.  A host without free memory makes the program exit before it changes anything. */
  method MemoryScheduler(ds: seq<Domain>, hostMemAvail: nat) returns (ok: bool)
    requires Distinct(ds)
    modifies ds`balloon
    ensures ok <==> hostMemAvail > 0
    ensures Balloons(ds) == if ok then Tick(old(Readings(ds)), old(Balloons(ds)), hostMemAvail) else old(Balloons(ds))
  {
    if hostMemAvail == 0 {
      return false;
    }
    ghost var rs, bs := Readings(ds), Balloons(ds);
    var unused, balloons := GetMemStats(ds);
    var status, memNeeded, memAvail, lackCount := ClassifyAll(ds, unused, balloons);
    assert Balloons(ds) == bs;
    if memNeeded > memAvail {
      if U64(hostMemAvail - (memNeeded - memAvail)) >= HOST_MEM_LOW {
        memAvail := memNeeded;
      }
    }
    Resize(ds, balloons, status, memNeeded, memAvail, lackCount, rs, bs, hostMemAvail);
    return true;
  }
}
