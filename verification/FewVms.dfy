/**
 The vCPU scheduler when there are at most as many VMs as pCPUs (project1-1/cpu/src/vcpu_scheduler.c,
 lines 296-308): it means to give every VM a pCPU of its own.
*/
module FewVms {
  import opened Sequences
  import opened Pinning

  // `newMapping[j]` is the VM that pCPU `j` has been given to; 0 also stands for none.
  datatype Spread = Spread(newMapping: seq<nat>, pins: seq<(nat, nat)>)

  /** VM `v` takes every pCPU below `j` that counts as empty. */
  function Fill(s: Spread, v: nat, j: nat): (r: Spread)
    requires j <= |s.newMapping|
    ensures |r.newMapping| == |s.newMapping|
  {
    if j == 0 then s else
    var t := Fill(s, v, j - 1);
    if t.newMapping[j - 1] == 0 then
      Spread(t.newMapping[j - 1 := v], t.pins + [(v, j - 1)])
    else
      t
  }

  /** VM `v` keeps its pCPU if that counts as empty. */
  function Visit(s: Spread, v: nat, home: nat): (r: Spread)
    requires home < |s.newMapping|
    ensures |r.newMapping| == |s.newMapping|
  {
    if s.newMapping[home] == 0 then s.(newMapping := s.newMapping[home := v]) else Fill(s, v, |s.newMapping|)
  }

  /** After the first `i` VMs. */
  function SpreadOut(mapping: seq<nat>, m: nat, i: nat): (r: Spread)
    requires i <= |mapping| && forall v :: 0 <= v < |mapping| ==> mapping[v] < m
    ensures |r.newMapping| == m
  {
    if i == 0 then Spread(seq(m, _ => 0), []) else Visit(SpreadOut(mapping, m, i - 1), i - 1, mapping[i - 1])
  }

  /** The branch of the scheduler, statement by statement. */
  method SpreadVms(mapping: seq<nat>, nHostCpus: nat, host: Host)
    requires Mapped(mapping, |mapping|, nHostCpus)
    modifies host
    ensures host.pins == old(host.pins) + SpreadOut(mapping, nHostCpus, |mapping|).pins
  {
    ghost var pins0 := host.pins;
    var newMapping := new nat[nHostCpus](_ => 0);
    assert newMapping[..] == seq(nHostCpus, _ => 0);
    for i := 0 to |mapping|
      invariant newMapping[..] == SpreadOut(mapping, nHostCpus, i).newMapping
      invariant host.pins == pins0 + SpreadOut(mapping, nHostCpus, i).pins
    {
      ghost var s := SpreadOut(mapping, nHostCpus, i);
      if newMapping[mapping[i]] == 0 {
        newMapping[mapping[i]] := i;
      } else {
        TakeEmpty(newMapping, i, host, s, pins0);
      }
    }
  }

  /** Lines 301-306: the loop goes on after it has found a pCPU. */
  method TakeEmpty(newMapping: array<nat>, i: nat, host: Host, ghost s: Spread, ghost pins0: seq<(nat, nat)>)
    requires newMapping[..] == s.newMapping && host.pins == pins0 + s.pins
    modifies newMapping, host
    ensures newMapping[..] == Fill(s, i, |s.newMapping|).newMapping
    ensures host.pins == pins0 + Fill(s, i, |s.newMapping|).pins
  {
    for j := 0 to newMapping.Length
      invariant newMapping[..] == Fill(s, i, j).newMapping && host.pins == pins0 + Fill(s, i, j).pins
    {
      if newMapping[j] == 0 {
        newMapping[j] := i;
        host.PinVmToPcpu(i, j);
      }
    }
  }

  // ---- where the VMs end

  predicate Among(cpus: seq<nat>, from: nat, to: nat, c: nat) {
    exists v :: from <= v < to <= |cpus| && cpus[v] == c
  }

  /** The first VM from `k` on, other than VM 0, whose pCPU one of the VMs 1, 2, ... before it has. */
  function Collider(mapping: seq<nat>, k: nat): (r: nat)
    requires k <= |mapping|
    ensures k <= r <= |mapping|
    ensures forall v :: k <= v < r ==> !Among(mapping, 1, v, mapping[v])
    ensures r < |mapping| ==> Among(mapping, 1, r, mapping[r])
    decreases |mapping| - k
  {
    if k == |mapping| || Among(mapping, 1, k, mapping[k]) then k else Collider(mapping, k + 1)
  }

  /** The last pCPU below `j` that none of the VMs 1, 2, ... before VM `k` has; `m` if they have all. */
  function LastFree(mapping: seq<nat>, k: nat, j: nat, m: nat): (c: nat)
    requires j <= m
    ensures c == m || (c < j && !Among(mapping, 1, k, c))
    ensures forall x :: 0 <= x < j && !Among(mapping, 1, k, x) ==> x <= c < m
  {
    if j == 0 then m
    else if !Among(mapping, 1, k, j - 1) then j - 1
    else LastFree(mapping, k, j - 1, m)
  }

  /** `k` VMs leave at least `m - k` pCPUs free. */
  lemma {:induction false} FreeOnes(mapping: seq<nat>, k: nat, m: nat) returns (free: set<nat>)
    requires 1 <= k <= |mapping|
    ensures |free| + k >= m + 1 && forall c :: c in free ==> c < m && !Among(mapping, 1, k, c)
  {
    if k == 1 {
      free := Below(m);
    } else {
      var before := FreeOnes(mapping, k - 1, m);
      free := before - {mapping[k - 1]};
      assert free == before || free + {mapping[k - 1]} == before;
    }
  }

  lemma SomeFree(mapping: seq<nat>, k: nat, m: nat)
    requires 1 <= k <= |mapping| && k <= m
    ensures LastFree(mapping, k, m, m) < m
  {
    var free := FreeOnes(mapping, k, m);
    assert free != {};
    var c :| c in free;
  }

  /** Up to the first collision every VM keeps its pCPU, and nothing is pinned. */
  lemma {:induction false} NoneMoved(mapping: seq<nat>, m: nat, i: nat)
    requires Mapped(mapping, |mapping|, m) && i <= Collider(mapping, if |mapping| == 0 then 0 else 1)
    ensures var s := SpreadOut(mapping, m, i);
      s.pins == [] && forall j :: 0 <= j < m ==> (s.newMapping[j] == 0 <==> !Among(mapping, 1, i, j))
  {
    if i > 0 {
      NoneMoved(mapping, m, i - 1);
    }
  }

  /** Taking all empty pCPUs, a VM ends on the last of them, and none is left. */
  lemma {:induction false} Filled(s: Spread, v: nat, j: nat, mapping: seq<nat>, k: nat, m: nat)
    requires j <= |s.newMapping| == m && 0 < v < |mapping|
    requires forall x :: 0 <= x < m ==> (s.newMapping[x] == 0 <==> !Among(mapping, 1, k, x))
    ensures var t := Fill(s, v, j);
      && (forall x :: 0 <= x < j ==> t.newMapping[x] != 0)
      && (forall x :: j <= x < m ==> t.newMapping[x] == s.newMapping[x])
      && var c := LastFree(mapping, k, j, m);
         AfterPins(mapping, t.pins) == if c < m then AfterPins(mapping, s.pins)[v := c] else AfterPins(mapping, s.pins)
  {
    if j > 0 {
      Filled(s, v, j - 1, mapping, k, m);
    }
  }

  lemma {:induction false} FillFull(s: Spread, v: nat, j: nat)
    requires j <= |s.newMapping| && forall x :: 0 <= x < |s.newMapping| ==> s.newMapping[x] != 0
    ensures Fill(s, v, j) == s
  {
    if j > 0 {
      FillFull(s, v, j - 1);
    }
  }

  /** After the first collision nothing is empty, and nobody else moves. */
  lemma {:induction false} OneMoved(mapping: seq<nat>, m: nat, i: nat)
    requires 0 < |mapping| <= m && Mapped(mapping, |mapping|, m) && Collider(mapping, 1) < i <= |mapping|
    ensures var s, k := SpreadOut(mapping, m, i), Collider(mapping, 1);
      && (forall x :: 0 <= x < m ==> s.newMapping[x] != 0)
      && AfterPins(mapping, s.pins) == mapping[k := LastFree(mapping, k, m, m)]
  {
    var k := Collider(mapping, 1);
    if i == k + 1 {
      NoneMoved(mapping, m, k);
      SomeFree(mapping, k, m);
      Filled(SpreadOut(mapping, m, k), k, m, mapping, k, m);
    } else {
      OneMoved(mapping, m, i - 1);
      FillFull(SpreadOut(mapping, m, i - 1), i - 1, m);
    }
  }

  /** Where the VMs run after a tick that finds the workloads unbalanced. */
  function Tick(mapping: seq<nat>, m: nat): (after: seq<nat>)
    requires Mapped(mapping, |mapping|, m)
  {
    AfterPins(mapping, SpreadOut(mapping, m, |mapping|).pins)
  }

  /** A tick moves the first VM that collides, and nobody else, to the last pCPU free at that point. */
  lemma TickMovesOne(mapping: seq<nat>, m: nat)
    requires 0 < |mapping| <= m && Mapped(mapping, |mapping|, m)
    ensures var k := Collider(mapping, 1);
      Tick(mapping, m) == if k < |mapping| then mapping[k := LastFree(mapping, k, m, m)] else mapping
    ensures Collider(mapping, 1) < |mapping| ==> LastFree(mapping, Collider(mapping, 1), m, m) < m
  {
    var k := Collider(mapping, 1);
    if k < |mapping| {
      OneMoved(mapping, m, |mapping|);
      SomeFree(mapping, k, m);
    } else {
      NoneMoved(mapping, m, |mapping|);
    }
  }

  lemma {:induction false} FillMapped(s: Spread, v: nat, j: nat)
    requires j <= |s.newMapping| && OnHost(s.pins, |s.newMapping|)
    ensures OnHost(Fill(s, v, j).pins, |s.newMapping|)
  {
    if j > 0 {
      FillMapped(s, v, j - 1);
    }
  }

  lemma {:induction false} SpreadMapped(mapping: seq<nat>, m: nat, i: nat)
    requires Mapped(mapping, |mapping|, m) && i <= |mapping|
    ensures OnHost(SpreadOut(mapping, m, i).pins, m)
  {
    if i > 0 {
      SpreadMapped(mapping, m, i - 1);
      FillMapped(SpreadOut(mapping, m, i - 1), i - 1, m);
    }
  }

  lemma TickMapped(mapping: seq<nat>, m: nat)
    requires Mapped(mapping, |mapping|, m)
    ensures Mapped(Tick(mapping, m), |mapping|, m)
  {
    SpreadMapped(mapping, m, |mapping|);
    PinsMapped(SpreadOut(mapping, m, |mapping|).pins, mapping, |mapping|, m);
  }

  // ---- a pCPU for each

  /** The VMs before VM `n`, except for VM 0, run on pCPUs of their own. */
  ghost predicate OthersApart(mapping: seq<nat>, n: nat) {
    n <= |mapping| && forall u, v :: 1 <= u < v < n ==> mapping[u] != mapping[v]
  }

  lemma ApartUpToCollider(mapping: seq<nat>, i: nat)
    requires 0 < i <= |mapping|
    ensures OthersApart(mapping, i) <==> i <= Collider(mapping, 1)
  {
    var k := Collider(mapping, 1);
    if k < i {
      var u :| 1 <= u < k && mapping[u] == mapping[k];
    }
    forall u, v | 1 <= u < v < i && i <= k ensures mapping[u] != mapping[v] {
      assert !Among(mapping, 1, v, mapping[v]);
    }
  }

  /** A tick pins nothing exactly if the VMs other than VM 0 have pCPUs of their own. */
  lemma PinsNothingIff(mapping: seq<nat>, m: nat)
    requires 0 < |mapping| <= m && Mapped(mapping, |mapping|, m)
    ensures SpreadOut(mapping, m, |mapping|).pins == [] <==> OthersApart(mapping, |mapping|)
  {
    var k := Collider(mapping, 1);
    ApartUpToCollider(mapping, |mapping|);
    if k < |mapping| {
      TickMovesOne(mapping, m);
      assert Among(mapping, 1, k, mapping[k]);
      assert Tick(mapping, m)[k] != mapping[k];
    } else {
      NoneMoved(mapping, m, |mapping|);
    }
  }

  /** With `k` gone, all have pCPUs of their own, and `c` is none of them. */
  ghost predicate ApartWithout(mapping: seq<nat>, k: nat, c: nat) {
    && (forall u, v :: 0 <= u < v < |mapping| && u != k && v != k ==> mapping[u] != mapping[v])
    && (forall u :: 0 <= u < |mapping| && u != k ==> mapping[u] != c)
  }

  /** One tick gives every VM a pCPU of its own exactly if they have them, or moving the first that collides does. */
  lemma OneEachIff(mapping: seq<nat>, m: nat)
    requires 0 < |mapping| <= m && Mapped(mapping, |mapping|, m)
    ensures Distinct(Tick(mapping, m)) <==>
      var k := Collider(mapping, 1);
      Distinct(mapping) || (k < |mapping| && ApartWithout(mapping, k, LastFree(mapping, k, m, m)))
  {
    var k, n, after := Collider(mapping, 1), |mapping|, Tick(mapping, m);
    TickMovesOne(mapping, m);
    if k < n {
      var c := LastFree(mapping, k, m, m);
      assert !Distinct(mapping) by { ApartUpToCollider(mapping, n); }
      assert after[k] == c && forall u :: 0 <= u < n && u != k ==> after[u] == mapping[u];
    }
  }

  function Ticks(mapping: seq<nat>, m: nat, t: nat): (after: seq<nat>)
    requires Mapped(mapping, |mapping|, m)
    ensures Mapped(after, |mapping|, m)
  {
    if t == 0 then mapping else
    var before := Ticks(mapping, m, t - 1);
    TickMapped(before, m);
    Tick(before, m)
  }

  /** A tick leaves VM 0 where it is, and the first collision afterwards, if any, is a later one. */
  lemma TickAdvances(mapping: seq<nat>, m: nat)
    requires 0 < |mapping| <= m && Mapped(mapping, |mapping|, m)
    ensures |Tick(mapping, m)| == |mapping| && Tick(mapping, m)[0] == mapping[0]
    ensures var k := Collider(mapping, 1); k < |mapping| ==> k < Collider(Tick(mapping, m), 1)
    ensures Collider(mapping, 1) == |mapping| ==> Tick(mapping, m) == mapping
  {
    var k, after := Collider(mapping, 1), Tick(mapping, m);
    TickMovesOne(mapping, m);
    if k < |mapping| {
      ApartUpToCollider(mapping, k);
      forall u | 1 <= u < k ensures after[u] != after[k] {
        assert !Among(mapping, 1, k, after[k]);
      }
      ApartUpToCollider(after, k + 1);
    }
  }

  /** All but one or two of the VMs are settled by as many ticks, and VM 0 is never moved. */
  lemma {:induction false} Settles(mapping: seq<nat>, m: nat, t: nat)
    requires 0 < |mapping| <= m && Mapped(mapping, |mapping|, m)
    ensures Ticks(mapping, m, t)[0] == mapping[0]
    ensures Collider(Ticks(mapping, m, t), 1) >= if t + 2 <= |mapping| then t + 2 else |mapping|
    ensures t + 2 >= |mapping| ==> OthersApart(Ticks(mapping, m, t), |mapping|)
  {
    if t == 0 {
      ApartUpToCollider(mapping, if |mapping| < 2 then 1 else 2);
    } else {
      Settles(mapping, m, t - 1);
      TickAdvances(Ticks(mapping, m, t - 1), m);
    }
    ApartUpToCollider(Ticks(mapping, m, t), |mapping|);
  }

  /** Whoever shares a pCPU with VM 0, when the others have their own, shares it for ever. */
  lemma {:induction false} SharedWithVmZero(mapping: seq<nat>, m: nat, t: nat)
    requires 0 < |mapping| <= m && Mapped(mapping, |mapping|, m)
    requires OthersApart(mapping, |mapping|) && Among(mapping, 1, |mapping|, mapping[0])
    ensures Ticks(mapping, m, t) == mapping && !Distinct(mapping)
  {
    ApartUpToCollider(mapping, |mapping|);
    if t > 0 {
      SharedWithVmZero(mapping, m, t - 1);
      TickAdvances(mapping, m);
    }
  }

  /** After that nothing changes, and the VMs are apart exactly if none of the others shares with VM 0. */
  lemma {:induction false} SettledApartIff(mapping: seq<nat>, m: nat, t: nat, more: nat)
    requires 0 < |mapping| <= m && Mapped(mapping, |mapping|, m) && t + 2 >= |mapping|
    ensures Ticks(mapping, m, t + more) == Ticks(mapping, m, t)
    ensures Distinct(Ticks(mapping, m, t)) <==> !Among(Ticks(mapping, m, t), 1, |mapping|, mapping[0])
  {
    Settles(mapping, m, t);
    if more > 0 {
      SettledApartIff(mapping, m, t, more - 1);
      TickAdvances(Ticks(mapping, m, t), m);
    }
  }
}
