/** The two trees of the MCS barrier: arrivals go up a 4-ary tree, wakeups come down a binary one. */
module HeapTrees {
  function Parent4(c: nat): nat
    requires c > 0
  {
    (c - 1) / 4
  }

  function Slot4(c: nat): nat
    requires c > 0
  {
    (c - 1) % 4
  }

  function Parent2(c: nat): nat
    requires c > 0
  {
    (c - 1) / 2
  }

  function Slot2(c: nat): nat
    requires c > 0
  {
    (c - 1) % 2
  }

  lemma Child4(p: nat, k: nat)
    requires k < 4
    ensures Parent4(4 * p + 1 + k) == p && Slot4(4 * p + 1 + k) == k
  {
  }

  lemma Child2(p: nat, k: nat)
    requires k < 2
    ensures Parent2(2 * p + 1 + k) == p && Slot2(2 * p + 1 + k) == k
  {
  }

  lemma Up(c: nat)
    requires c > 0
    ensures Parent4(c) < c && c == 4 * Parent4(c) + 1 + Slot4(c) && Slot4(c) < 4
    ensures Parent2(c) < c && c == 2 * Parent2(c) + 1 + Slot2(c) && Slot2(c) < 2
  {
  }

  lemma SameChild4(c: nat, d: nat)
    requires c > 0 && d > 0 && Parent4(c) == Parent4(d) && Slot4(c) == Slot4(d)
    ensures c == d
  {
    Up(c);
    Up(d);
  }

}
