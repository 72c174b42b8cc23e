/** The bit macros of include/bitops.h and the address and size macros of include/mm.h, on
    32-bit words. */
module Bits {
  import opened Numbers

  // ---------- include/bitops.h ----------

  function Nbits2(n: bv32): bv32 { if n & 2 != 0 then 1 else 0 }

  function Nbits4(n: bv32): bv32 { if n & 0xC != 0 then 2 + Nbits2(n >> 2) else Nbits2(n) }

  function Nbits8(n: bv32): bv32 { if n & 0xF0 != 0 then 4 + Nbits4(n >> 4) else Nbits4(n) }

  function Nbits16(n: bv32): bv32 { if n & 0xFF00 != 0 then 8 + Nbits8(n >> 8) else Nbits8(n) }

  function Nbits32(n: bv32): bv32 {
    if n & 0xFFFF_0000 != 0 then 16 + Nbits16(n >> 16) else Nbits16(n)
  }

  /** NBITS is the position of the highest bit set. */
  function Nbits(n: bv32): (k: bv32)
    ensures n == 0 ==> k == 0
    ensures n != 0 ==> k <= 31 && n >> k == 1
  {
    if n == 0 then 0 else Nbits32(n)
  }

  /** Which is to say the floor of the binary logarithm. */
  lemma HighestBitIsFloorLog(n: bv32, k: bv32)
    requires k <= 31
    ensures n >> k == 1 <==> 1 << k <= n && (k < 31 ==> n < 1 << (k + 1))
  {
  }

  /** And there is only one such number. */
  lemma HighestBitUnique(n: bv32, j: bv32, k: bv32)
    requires j <= 31 && k <= 31 && n >> j == 1 && n >> k == 1
    ensures j == k
  {
  }

  // Whether bit k of w is set.
  predicate Bit(w: bv32, k: bv32)
    requires k <= 31
  {
    (w >> k) & 1 == 1
  }

  /** GENMASK has exactly the bits from l to h, so its value is 2^(h+1) - 2^l, where 2^32 is 0
      in a word. */
  function Genmask(h: bv32, l: bv32): (m: bv32)
    requires l <= h <= 31
    ensures forall k: bv32 | k <= 31 :: Bit(m, k) <==> l <= k <= h
    ensures m == (2 << h) - (1 << l)
  {
    (0xFFFF_FFFF << l) & (0xFFFF_FFFF >> (32 - h - 1))
  }

  function DivRoundUp(n: nat, d: nat): nat
    requires d > 0
  {
    (n + d - 1) / d
  }

  /** DIV_ROUND_UP is the least number of pieces of size d that n fits in. */
  lemma RoundsUp(n: nat, d: nat, r: nat)
    requires d > 0
    ensures n <= r * d <==> DivRoundUp(n, d) <= r
  {
    var q := DivRoundUp(n, d);
    assert n <= q * d < n + d;
    if q <= r {
      MulMonotone(q, r, d);
    } else {
      MulMonotone(r + 1, q, d);
    }
  }

  // ---------- include/mm.h ----------

  const CPU_BUS_WIDTH: bv32 := 22
  const PAGESZ: bv32 := 256
  const MEMRAMSZ: bv32 := 1 << 21
  const MEMSWPSZ: bv32 := 1 << 29
  const BUS_SPACE: bv32 := 1 << CPU_BUS_WIDTH
  const MAX_PGN: nat := DivRoundUp(BUS_SPACE as nat, PAGESZ as nat)

  function SetBit(v: bv32, mask: bv32): bv32 { v | mask }

  function ClrBit(v: bv32, mask: bv32): bv32 { v & !mask }

  function SetVal(v: bv32, value: bv32, mask: bv32, offst: bv32): bv32
    requires offst <= 31
  {
    (v & !mask) | ((value << offst) & mask)
  }

  function GetVal(v: bv32, mask: bv32, offst: bv32): bv32
    requires offst <= 31
  {
    (v & mask) >> offst
  }

  const OFFST_MASK: bv32 := Genmask(7, 0)
  const PGN_MASK: bv32 := Genmask(21, 8)

  // PAGING_OFFST
  function Offst(x: bv32): bv32 { GetVal(x, OFFST_MASK, 0) }

  // PAGING_PGN
  function Pgn(x: bv32): bv32 { GetVal(x, PGN_MASK, Nbits(PAGESZ)) }

  /** The literals 7, 8 and 21 in the masks are what the macros for the field bounds give. */
  lemma MaskBounds()
    ensures OFFST_MASK == Genmask(Nbits(PAGESZ) - 1, 0)
    ensures PGN_MASK == Genmask(CPU_BUS_WIDTH - 1, Nbits(PAGESZ))
    ensures OFFST_MASK == 0xFF && PGN_MASK == 0x3F_FF00
  {
  }

  // PAGING_MAX_PGN is 2^14.
  lemma PageNumbers(page: bv32)
    ensures page as nat < MAX_PGN <==> page < 0x4000
  {
  }

  lemma FieldRanges(x: bv32)
    ensures Pgn(x) < 0x4000 && Offst(x) < PAGESZ
    ensures Pgn(x) * PAGESZ + Offst(x) == x <==> x < 1 << CPU_BUS_WIDTH
  {
    MaskBounds();
  }

  /** Every word has a page number below PAGING_MAX_PGN and an offset below PAGING_PAGESZ, and
      the two reassemble to the address exactly when it fits the 22-bit bus. */
  lemma AddressSplits(x: bv32)
    ensures Pgn(x) as nat < MAX_PGN && Offst(x) < PAGESZ
    ensures Pgn(x) * PAGESZ + Offst(x) == x <==> x < 1 << CPU_BUS_WIDTH
  {
    FieldRanges(x);
    PageNumbers(Pgn(x));
  }

  lemma FieldsUnique(x: bv32, pgn: bv32, off: bv32)
    requires pgn < 0x4000 && off < PAGESZ && pgn * PAGESZ + off == x
    ensures pgn == Pgn(x) && off == Offst(x) && x < 1 << CPU_BUS_WIDTH
  {
    MaskBounds();
  }

  /** And no other page number and offset give that address. */
  lemma AddressSplitUnique(x: bv32, pgn: bv32, off: bv32)
    requires pgn as nat < MAX_PGN && off < PAGESZ && pgn * PAGESZ + off == x
    ensures pgn == Pgn(x) && off == Offst(x) && x < 1 << CPU_BUS_WIDTH
  {
    PageNumbers(pgn);
    FieldsUnique(x, pgn, off);
  }
}
