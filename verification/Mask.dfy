/** The 64-bit mask of dataset entries not matched yet, as a natural number read bit by bit. */
module Mask {

  /** `m & (1 << i) != 0`. */
  predicate On(m: nat, i: nat) {
    if i == 0 then m % 2 == 1 else On(m / 2, i - 1)
  }

  /** `m ^ (1 << i)`. */
  function Flip(m: nat, i: nat): nat {
    if i == 0 then (if m % 2 == 1 then m - 1 else m + 1)
    else 2 * Flip(m / 2, i - 1) + m % 2
  }

  function Pow2(n: nat): (p: nat)
    ensures p > 0
  {
    if n == 0 then 1 else 2 * Pow2(n - 1)
  }

  /** `(1 << n) - 1`; an unchecked 64-bit shift reduces its amount modulo 64. */
  function Initial(n: nat): nat {
    Pow2(n % 64) - 1
  }

  lemma {:induction false} FlipBits(m: nat, i: nat, j: nat)
    ensures On(Flip(m, i), j) == if i == j then !On(m, j) else On(m, j)
  {
    if i > 0 && j > 0 {
      FlipBits(m / 2, i - 1, j - 1);
    }
  }

  lemma {:induction false} LowBits(n: nat, j: nat)
    ensures On(Pow2(n) - 1, j) == (j < n)
  {
    if n == 0 {
      ZeroBits(j);
    } else if j > 0 {
      assert (Pow2(n) - 1) / 2 == Pow2(n - 1) - 1;
      LowBits(n - 1, j - 1);
    }
  }

  lemma {:induction false} ZeroBits(j: nat)
    ensures !On(0, j)
  {
    if j > 0 {
      ZeroBits(j - 1);
    }
  }

  /** A positive number has a bit that is on. */
  lemma {:induction false} SomeBit(m: nat) returns (j: nat)
    requires m > 0
    ensures On(m, j)
  {
    if m % 2 == 1 {
      j := 0;
    } else {
      var k := SomeBit(m / 2);
      j := k + 1;
    }
  }
}
