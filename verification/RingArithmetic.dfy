/** Powers of two, the number of dissemination rounds, and ranks modulo the number of processes. */
module RingArithmetic {

  function Pow2(k: nat): (r: nat)
    ensures r > 0
  {
    if k == 0 then 1 else 2 * Pow2(k - 1)
  }

  lemma {:induction false} Pow2Increases(j: nat, k: nat)
    requires j < k
    ensures Pow2(j) < Pow2(k)
  {
    if j < k - 1 {
      Pow2Increases(j, k - 1);
    }
  }

  /** ceil(log2(n)): the least k with 2^k >= n. */
  function CeilLog2(n: nat): (k: nat)
    requires n > 0
    ensures n <= Pow2(k)
    ensures k > 0 ==> Pow2(k - 1) < n
  {
    if n == 1 then 0 else 1 + CeilLog2((n + 1) / 2)
  }

  lemma RoundOffset(n: nat, r: nat)
    requires n > 0 && r < CeilLog2(n)
    ensures Pow2(r) < n
  {
    if r < CeilLog2(n) - 1 {
      Pow2Increases(r, CeilLog2(n) - 1);
    }
  }

  /** The % of C: truncating, so the sign follows the dividend. */
  function CRem(a: int, b: int): int
    requires b > 0
  {
    if a >= 0 then a % b else -((-a) % b)
  }

  function SendTo(rank: nat, r: nat, n: nat): int
    requires n > 0
  {
    CRem(rank + Pow2(r), n)
  }

  function RecvFrom(rank: nat, r: nat, n: nat): int
    requires n > 0
  {
    CRem(rank - Pow2(r) + n, n)
  }

  /** The process `d` places before `rank` on the ring. */
  function Back(rank: nat, d: nat, n: nat): (r: nat)
    requires n > 0
    ensures r < n
  {
    (rank - d) % n
  }

  lemma ModShift(a: int, k: int, n: int)
    requires n > 0
    ensures (a + k * n) % n == a % n
  {
    ModUnique(a + k * n, a / n + k, a % n, n);
  }

  lemma MultipleIsFar(k: int, n: int)
    requires n > 0 && k != 0
    ensures k * n >= n || k * n <= -n
  {
    if k >= 1 {
      assert (k - 1) * n >= 0;
    } else {
      assert (-k - 1) * n >= 0;
    }
  }

  lemma ModUnique(x: int, q: int, r: int, n: int)
    requires 0 <= r < n && x == q * n + r
    ensures x % n == r
  {
    var d := q - x / n;
    assert x == (x / n) * n + x % n;
    assert d * n == q * n - (x / n) * n;
    if d != 0 {
      MultipleIsFar(d, n);
    }
  }

  lemma BackBack(rank: nat, c: nat, d: nat, n: nat)
    requires n > 0
    ensures Back(Back(rank, c, n), d, n) == Back(rank, c + d, n)
  {
    var q := (rank - c) / n;
    assert rank - c == n * q + Back(rank, c, n);
    ModShift(Back(rank, c, n) - d, q, n);
    assert rank - (c + d) == (Back(rank, c, n) - d) + q * n;
  }

  /** Everybody is some number of places less than `n` before `rank`. */
  lemma BackReaches(rank: nat, j: nat, n: nat) returns (d: nat)
    requires j < n && rank < n
    ensures d < n && Back(rank, d, n) == j
  {
    d := if j <= rank then rank - j else rank - j + n;
    if j <= rank {
      ModUnique(rank - d, 0, j, n);
    } else {
      ModUnique(rank - d, -1, j, n);
    }
  }

  lemma SendToIs(rank: nat, r: nat, n: nat)
    requires rank < n && Pow2(r) < n
    ensures SendTo(rank, r, n) == if rank + Pow2(r) < n then rank + Pow2(r) else rank + Pow2(r) - n
  {
    SmallMod(rank + Pow2(r), n);
  }

  lemma RecvFromIs(rank: nat, r: nat, n: nat)
    requires rank < n && Pow2(r) < n
    ensures RecvFrom(rank, r, n) == if rank >= Pow2(r) then rank - Pow2(r) else rank - Pow2(r) + n
    ensures RecvFrom(rank, r, n) == Back(rank, Pow2(r), n)
  {
    SmallMod(rank - Pow2(r) + n, n);
    ModShift(rank - Pow2(r), 1, n);
  }

  /**
   For every round that is run, sender and receiver are ranks, receiving undoes sending, and the
   C expression for the receiver, with its truncating %, is the ring predecessor.
  */
  lemma Partners(rank: nat, r: nat, n: nat)
    requires rank < n && Pow2(r) < n
    ensures 0 <= SendTo(rank, r, n) < n && 0 <= RecvFrom(rank, r, n) < n
    ensures RecvFrom(SendTo(rank, r, n), r, n) == rank
    ensures SendTo(RecvFrom(rank, r, n), r, n) == rank
    ensures RecvFrom(rank, r, n) == Back(rank, Pow2(r), n)
    ensures SendTo(rank, r, n) == if rank + Pow2(r) < n then rank + Pow2(r) else rank + Pow2(r) - n
  {
    SendToIs(rank, r, n);
    RecvFromIs(rank, r, n);
    RecvFromIs(SendTo(rank, r, n), r, n);
    SendToIs(RecvFrom(rank, r, n), r, n);
  }

  lemma SmallMod(x: nat, n: nat)
    requires 0 <= x < 2 * n
    ensures x % n == if x < n then x else x - n
  {
    if x < n { ModUnique(x, 0, x, n); } else { ModUnique(x, 1, x - n, n); }
  }

  /** With at most 2^30 processes no value in the partner expressions leaves the range of a 32-bit int. */
  lemma PartnersFitInt32(rank: nat, r: nat, n: nat)
    requires rank < n <= 0x4000_0000 && r < CeilLog2(n)
    ensures 0 < Pow2(r) < 0x8000_0000 && rank + Pow2(r) < 0x8000_0000
    ensures -0x8000_0000 <= rank - Pow2(r) < 0x8000_0000 && 0 <= rank - Pow2(r) + n < 0x8000_0000
  {
    RoundOffset(n, r);
  }
}
