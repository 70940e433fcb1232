/** Machine integers and the saturating operations on them. */
module Numbers {

  type U32 = n: nat | n < 0x1_0000_0000

  type U64 = n: nat | n < 0x1_0000_0000_0000_0000

  /** `saturating_sub` on unsigned integers. */
  function SaturatingSub(a: nat, b: nat): nat {
    if a < b then 0 else a - b
  }

  /** `max(1)`. */
  function AtLeastOne(n: nat): (m: nat)
    ensures 1 <= m
  {
    if n < 1 then 1 else n
  }
}
