/** Machine widths the source relies on, and the capped doubling that all of its
    retry delays share. */
module Numeric {

  const U32_MAX: nat := 0xFFFF_FFFF
  const U64_MAX: nat := 0xFFFF_FFFF_FFFF_FFFF

  type u32 = x: nat | x <= U32_MAX
  type u64 = x: nat | x <= U64_MAX

  /** `saturating_add(1)` on a `u32`. */
  function SatInc(x: u32): u32 {
    if x == U32_MAX then x else x + 1
  }

  function Min(a: int, b: int): int {
    if a <= b then a else b
  }

  function Pow2(k: nat): (p: nat)
    ensures p >= 1
  {
    if k == 0 then 1 else 2 * Pow2(k - 1)
  }

  /** `base` doubled `k` times, capped. The reference definition of every delay. */
  function Capped(base: nat, k: nat, cap: nat): nat {
    Min(base * Pow2(k), cap)
  }

  lemma {:induction false} Pow2Monotone(j: nat, k: nat)
    requires j <= k
    ensures Pow2(j) <= Pow2(k)
    decreases k
  {
    if j < k {
      Pow2Monotone(j, k - 1);
    }
  }

  lemma Doubles(base: nat, k: nat)
    ensures base * Pow2(k + 1) == 2 * (base * Pow2(k))
  {
    assert base * (2 * Pow2(k)) == 2 * (base * Pow2(k));
  }

  lemma Scaled(base: nat, x: nat, y: nat)
    requires x <= y
    ensures base * x <= base * y
  {
  }

  /** A longer failure streak never shortens a delay. */
  lemma CappedMonotone(base: nat, j: nat, k: nat, cap: nat)
    requires j <= k
    ensures Capped(base, j, cap) <= Capped(base, k, cap) <= cap
  {
    Pow2Monotone(j, k);
    Scaled(base, Pow2(j), Pow2(k));
  }

  /** Once the cap is reached it stays reached. */
  lemma CappedStays(base: nat, j: nat, k: nat, cap: nat)
    requires j <= k
    requires base * Pow2(j) >= cap
    ensures Capped(base, k, cap) == cap
  {
    Pow2Monotone(j, k);
    Scaled(base, Pow2(j), Pow2(k));
  }
}
