/**
 * Bit helpers of the GPIO driver over 8-bit registers.
 *
 * GET_BIT, ASSIGN_BIT, TOGGLE_BIT and LOW come from gpio.h, which is not part
 * of this model; each is defined here once, as the assumed meaning stated in
 * its doc comment. Bit indices are uint8 values, like the C loop counters.
 *
 * "r keeps the bits outside m and takes those of v inside m" is written
 * r & !m == x & !m && r & m == v & m throughout.
 */
module Bits {

  /** LOW: the logic level "low", compared against in gpioPinWrite. */
  const LOW: bv8 := 0

  /** The masks that gpioUpperNibbleRead and gpioLowerNibbleRead apply. */
  const UPPER_NIBBLE: bv8 := 0xF0
  const LOWER_NIBBLE: bv8 := 0x0F

  /**
   * GET_BIT(x, i): bit i of x, as 0 or 1. A uint8 has no bit 8 or above,
   * so those indices read as 0.
   */
  function GetBit(x: bv8, i: bv8): (b: bv8)
    ensures b == 0 || b == 1
    ensures b == 1 <==> i < 8 && x & (1 << i) != 0
  {
    if i < 8 then (x >> i) & 1 else 0
  }

  /** TOGGLE_BIT(r, i): r with bit i flipped and every other bit kept. */
  function ToggleBit(r: bv8, i: bv8): (t: bv8)
    requires i < 8
    ensures t & !(1 << i) == r & !(1 << i)
    ensures t & (1 << i) == !r & (1 << i)
  {
    r ^ (1 << i)
  }

  /** ASSIGN_BIT(r, i, v): r with bit i replaced by bit i of v, every other bit kept. */
  function AssignBit(r: bv8, i: bv8, v: bv8): (a: bv8)
    requires i < 8
    ensures a & !(1 << i) == r & !(1 << i)
    ensures a & (1 << i) == v & (1 << i)
  {
    (r & !(1 << i)) | (v & (1 << i))
  }

  /** The mask of bits 0 .. n-1: the positions a loop counting up to n has passed. */
  function BitsBelow(n: bv8): bv8
    requires n <= 8
  {
    if n == 8 then 0xFF else (1 << n) - 1
  }

  /** Counting one position further adds bit n to the mask. */
  lemma BitsBelowStep(n: bv8)
    requires n < 8
    ensures BitsBelow(n + 1) == BitsBelow(n) | (1 << n)
  {
    if n == 0 {} else if n == 1 {} else if n == 2 {} else if n == 3 {}
    else if n == 4 {} else if n == 5 {} else if n == 6 {} else {}
  }

  /** The mask of bits lo .. hi-1 (BitRangeSelects states it bit by bit). */
  function BitRange(lo: bv8, hi: bv8): bv8
    requires lo <= hi <= 8
  {
    BitsBelow(hi) & !BitsBelow(lo)
  }

  /** Bit j of BitRange(lo, hi) is set exactly when lo <= j < hi. */
  lemma BitRangeSelects(lo: bv8, hi: bv8, j: bv8)
    requires lo <= hi <= 8 && j < 8
    ensures GetBit(BitRange(lo, hi), j) == 1 <==> lo <= j < hi
  {
  }

  /** The nibble loops run over 4..8 and 0..4: these are the nibble masks. */
  lemma NibbleRanges()
    ensures BitRange(4, 8) == UPPER_NIBBLE
    ensures BitRange(0, 4) == LOWER_NIBBLE
  {
  }

  /** r with the bits that mask selects flipped and every other bit kept. */
  function FlipMask(r: bv8, mask: bv8): (t: bv8)
    ensures t & !mask == r & !mask
    ensures t & mask == !r & mask
  {
    r ^ mask
  }

  /** r with the bits that mask selects replaced by the same bits of v. */
  function MaskedCopy(r: bv8, v: bv8, mask: bv8): (c: bv8)
    ensures c & !mask == r & !mask
    ensures c & mask == v & mask
  {
    (r & !mask) | (v & mask)
  }
}
