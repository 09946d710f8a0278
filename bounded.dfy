/** Integer widths of the runtime the pallet is configured for (Balance is
    u128, BlockNumber is u64, PoolId is u32) and the saturating arithmetic
    the pallet applies to them: a saturating operation clamps at the type's
    bounds instead of wrapping or failing. */
module Bounded {

  const MAX_U32: nat := 0xFFFF_FFFF
  const MAX_U64: nat := 0xFFFF_FFFF_FFFF_FFFF
  const MAX_U128: nat := 0xFFFF_FFFF_FFFF_FFFF_FFFF_FFFF_FFFF_FFFF

  type Balance = x: nat | x <= MAX_U128
  type BlockNumber = x: nat | x <= MAX_U64
  type PoolId = x: nat | x <= MAX_U32

  /** `saturating_add` on an unsigned type whose largest value is `max`. */
  function SatAdd(a: nat, b: nat, max: nat): (r: nat)
    requires a <= max && b <= max
    ensures a <= r && b <= r && r <= max
    ensures a + b <= max ==> r == a + b
    ensures max < a + b ==> r == max
  {
    if a + b <= max then a + b else max
  }

  /** `saturating_sub` on an unsigned type: never below zero. */
  function SatSub(a: nat, b: nat): (r: nat)
    ensures r <= a
    ensures b <= a ==> r + b == a
    ensures a < b ==> r == 0
  {
    if b <= a then a - b else 0
  }

  /** `saturating_mul` on an unsigned type whose largest value is `max`. */
  function SatMul(a: nat, b: nat, max: nat): (r: nat)
    ensures r <= max && r <= a * b
    ensures a * b <= max ==> r == a * b
    ensures max < a * b ==> r == max
  {
    if a * b <= max then a * b else max
  }
}
