/** What the vCPU scheduler does to the hypervisor: pinning VMs to pCPUs. */
module Pinning {
  /** Each of `n` VMs runs on one of `m` pCPUs. */
  ghost predicate Mapped(mapping: seq<nat>, n: nat, m: nat) {
    |mapping| == n && forall v :: 0 <= v < n ==> mapping[v] < m
  }

  /** The hypervisor, as far as virDomainPinVcpu changes it: which VM was pinned to which pCPU, in order. */
  class Host {
    var pins: seq<(nat, nat)>

    constructor ()
      ensures pins == []
    {
      pins := [];
    }

    method PinVmToPcpu(vm: nat, pcpu: nat)
      modifies this
      ensures pins == old(pins) + [(vm, pcpu)]
    {
      pins := pins + [(vm, pcpu)];
    }
  }

  /** Where the VMs run after a sequence of pins. */
  function AfterPins(mapping: seq<nat>, pins: seq<(nat, nat)>): (after: seq<nat>)
    ensures |after| == |mapping|
  {
    if pins == [] then mapping else
    var before, last := AfterPins(mapping, pins[..|pins| - 1]), pins[|pins| - 1];
    if last.0 < |before| then before[last.0 := last.1] else before
  }

  ghost predicate OnHost(pins: seq<(nat, nat)>, m: nat) {
    forall i :: 0 <= i < |pins| ==> pins[i].1 < m
  }

  lemma {:induction false} PinsMapped(pins: seq<(nat, nat)>, mapping: seq<nat>, n: nat, m: nat)
    requires Mapped(mapping, n, m) && OnHost(pins, m)
    ensures Mapped(AfterPins(mapping, pins), n, m)
    decreases |pins|
  {
    if pins != [] { PinsMapped(pins[..|pins| - 1], mapping, n, m); }
  }
}
