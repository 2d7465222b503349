/** Shared helpers: the masked merge MAME handlers use for partial-width
    writes, small bit-field accessors, and an Option type. */
module Bits {

  datatype Option<T> = None | Some(value: T)

  /** An unsigned byte held as an integer, for registers that are only
      stored, compared and counted; increments wrap explicitly. */
  type Byte = x: int | 0 <= x < 256

  /** uint8_t increment with wrap-around. */
  function Inc8(x: Byte): (r: Byte)
    ensures r == if x == 255 then 0 else x + 1
  {
    (x + 1) % 256
  }

  /** C truthiness of a bit test, as 0 or 1. */
  function Flag8(b: bool): bv8 { if b then 1 else 0 }

  /** COMBINE_DATA on a 16-bit register: the lanes selected by `mask` take
      `data`, every other bit keeps its previous value. */
  function Combine16(prev: bv16, data: bv16, mask: bv16): (r: bv16)
    ensures r & mask == data & mask
    ensures r & !mask == prev & !mask
  {
    (prev & !mask) | (data & mask)
  }

  /** COMBINE_DATA on a 32-bit register. */
  function Combine32(prev: bv32, data: bv32, mask: bv32): (r: bv32)
    ensures r & mask == data & mask
    ensures r & !mask == prev & !mask
  {
    (prev & !mask) | (data & mask)
  }

  /** The two halves of Combine16's contract pin its result down. */
  lemma Combine16Unique(prev: bv16, data: bv16, mask: bv16, r: bv16)
    requires r & mask == data & mask
    requires r & !mask == prev & !mask
    ensures r == Combine16(prev, data, mask)
  {
    assert r == (r & mask) | (r & !mask);
  }

  /** The same for Combine32. */
  lemma Combine32Unique(prev: bv32, data: bv32, mask: bv32, r: bv32)
    requires r & mask == data & mask
    requires r & !mask == prev & !mask
    ensures r == Combine32(prev, data, mask)
  {
    assert r == (r & mask) | (r & !mask);
  }

  /** A full mask replaces the register; an empty one leaves it alone. */
  lemma Combine32Extremes(prev: bv32, data: bv32)
    ensures Combine32(prev, data, 0xffff_ffff) == data
    ensures Combine32(prev, data, 0) == prev
  {
  }

  /** Bit reversal of a byte: bit i moves to bit 7 - i (BITSWAP8(7..0)
      reversed, as the PC-98 GRCG tile latch and planar VRAM ports need). */
  function Reverse8(b: bv8): (r: bv8)
    ensures forall i: nat {:trigger (r >> i)} :: i < 8 ==> (r >> i) & 1 == (b >> (7 - i)) & 1
  {
    ((b & 0x01) << 7) | ((b & 0x02) << 5) | ((b & 0x04) << 3) | ((b & 0x08) << 1)
    | ((b & 0x10) >> 1) | ((b & 0x20) >> 3) | ((b & 0x40) >> 5) | ((b & 0x80) >> 7)
  }

  /** Reversing twice gives the byte back. */
  lemma Reverse8Involution(b: bv8)
    ensures Reverse8(Reverse8(b)) == b
  {
  }

  /** Bit reversal inside each byte of a 16-bit word, the byte lanes staying
      where they are (BITSWAP16 with order 8..15, 0..7). */
  function Reverse16Bytes(w: bv16): (r: bv16)
    ensures (r & 0xff) as bv8 == Reverse8((w & 0xff) as bv8)
    ensures (r >> 8) as bv8 == Reverse8((w >> 8) as bv8)
  {
    ((w & 0x0101) << 7) | ((w & 0x0202) << 5) | ((w & 0x0404) << 3) | ((w & 0x0808) << 1)
    | ((w & 0x1010) >> 1) | ((w & 0x2020) >> 3) | ((w & 0x4040) >> 5) | ((w & 0x8080) >> 7)
  }

  /** Reversing each byte twice gives the word back. */
  lemma Reverse16BytesInvolution(w: bv16)
    ensures Reverse16Bytes(Reverse16Bytes(w)) == w
  {
  }
}
