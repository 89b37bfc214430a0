/** 16-bit ids cut from a rolling 32-bit counter, as `genHeaderID` and `genObservaID` do. */
module RollingIds {
  import opened Types

  const ID_SPACE := 0x1_0000

  /** `uint16(counter.Add(1))`: the id of the n-th draw. */
  function RollingId(n: nat): uint16 {
    n % UINT32 % ID_SPACE
  }

  /** Taking the low 16 bits of the 32-bit counter is taking the low 16 bits of the number of draws. */
  lemma LowBits(n: nat)
    ensures RollingId(n) == n % 0x1_0000
  {
    var q, r := n / 0x1_0000_0000, n % 0x1_0000_0000;
    var h := r / 0x1_0000;
    assert n == (q * 0x1_0000 + h) * 0x1_0000 + r % 0x1_0000;
  }

  /** Two draws get the same id exactly when they are a multiple of 65536 draws apart. */
  lemma SameId(m: nat, n: nat)
    ensures RollingId(m) == RollingId(n) <==> (n - m) % 0x1_0000 == 0
  {
    LowBits(m);
    LowBits(n);
    var a, b := m / 0x1_0000, n / 0x1_0000;
    assert n - m == (b - a) * 0x1_0000 + (n % 0x1_0000 - m % 0x1_0000);
  }

  lemma CloseIdsDiffer(m: nat, n: nat)
    requires m < n < m + ID_SPACE
    ensures RollingId(m) != RollingId(n)
  {
    SameId(m, n);
  }
}
