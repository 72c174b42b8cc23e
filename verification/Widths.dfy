/** The frame number fields of a page table entry are as wide as the devices need. */
module Widths {
  import Bits
  import opened Frames
  import opened Pte

  // The mapping is read back as it was set.
  predicate Survives(pte: bv32, m: Mapping) {
    Decode(Set(pte, m)) == m
  }

  // Two fields side by side, in numbers: first as words of their own widths.
  lemma NarrowFields(page: bv14, off: bv8)
    ensures (((page as bv32) << 8) | (off as bv32)) as int == 256 * (page as bv32) as int + (off as bv32) as int
  {
  }

  lemma WideFields(x: bv32, page: bv32, off: bv32, narrowPage: bv14, narrowOff: bv8)
    requires page == narrowPage as bv32 && off == narrowOff as bv32 && x == (page << 8) | off
    ensures x as int == 256 * page as int + off as int
  {
    NarrowFields(narrowPage, narrowOff);
  }

  lemma FieldsInNumbers(x: bv32, page: bv32, off: bv32)
    requires page < 0x4000 && off < 0x100 && x == (page << 8) | off
    ensures x as int == 256 * page as int + off as int
  {
    WideFields(x, page, off, page as bv14, off as bv8);
  }

  lemma FieldsOfWord(x: bv32)
    requires x < 0x40_0000
    ensures (x & 0x3F_FF00) >> 8 < 0x4000 && x & 0xFF < 0x100
    ensures x == (((x & 0x3F_FF00) >> 8) << 8) | (x & 0xFF)
  {
  }

  lemma MasksOfFields(x: bv32)
    ensures Bits.Pgn(x) == (x & 0x3F_FF00) >> 8 && Bits.Offst(x) == x & 0xFF
  {
    Bits.MaskBounds();
  }

  lemma AddressFields(x: bv32)
    requires x < 1 << Bits.CPU_BUS_WIDTH
    ensures Bits.Pgn(x) < 0x4000 && Bits.Offst(x) < 0x100
    ensures x == (Bits.Pgn(x) << 8) | Bits.Offst(x)
  {
    MasksOfFields(x);
    FieldsOfWord(x);
  }

  lemma OffsetInNumbers(off: bv32)
    requires off < 0x100
    ensures off as int < 0x100
  {
  }

  lemma DivideByPage(n: int, page: int, off: int)
    requires n == 256 * page + off && 0 <= off < 256
    ensures n / PAGESZ == page && n % PAGESZ == off
  {
  }

  lemma FrameOfFields(x: bv32, page: bv32, off: bv32)
    requires page < 0x4000 && off < 0x100 && x == (page << 8) | off
    ensures x as int / PAGESZ == page as int && x as int % PAGESZ == off as int
  {
    FieldsInNumbers(x, page, off);
    OffsetInNumbers(off);
    DivideByPage(x as int, page as int, off as int);
  }

  /** On a device whose bytes are numbered by addresses, the page number of an address is the
      frame it lies in and the offset its place there. */
  lemma FrameOfAddress(x: bv32)
    requires x < 1 << Bits.CPU_BUS_WIDTH
    ensures x as int / PAGESZ == Bits.Pgn(x) as int
    ensures x as int % PAGESZ == Bits.Offst(x) as int
  {
    AddressFields(x);
    FrameOfFields(x, Bits.Pgn(x), Bits.Offst(x));
  }

  // The number of frames of a device of PAGING_MEMRAMSZ and of PAGING_MEMSWPSZ bytes.
  lemma FrameCounts()
    ensures Bits.MEMRAMSZ / Bits.PAGESZ == 1 << 13
    ensures Bits.MEMSWPSZ / Bits.PAGESZ == 1 << 21
  {
  }

  /** The frame numbers that survive a page table entry are exactly those of a RAM device of
      PAGING_MEMRAMSZ bytes, ... */
  lemma RamNumbersThatSurvive(pte: bv32, fpn: bv32)
    ensures Survives(pte, Online(fpn)) <==> fpn < Bits.MEMRAMSZ / Bits.PAGESZ
  {
    FrameCounts();
    SetMeans(pte, Online(fpn));
  }

  /** ... and of a swap device of PAGING_MEMSWPSZ bytes, for each of the 32 swap types. */
  lemma SwapNumbersThatSurvive(pte: bv32, typ: bv32, off: bv32)
    requires typ < 1 << 5
    ensures Survives(pte, Swapped(typ, off)) <==> off < Bits.MEMSWPSZ / Bits.PAGESZ
  {
    FrameCounts();
    SetMeans(pte, Swapped(typ, off));
  }

  /** So every frame that a formatted RAM device of at most 2^21 bytes has free or held survives
      being mapped online, ... */
  lemma RamFramesSurvive(free: seq<int>, held: set<int>, maxsz: nat, f: int, pte: bv32)
    requires Partition(free, held, maxsz / PAGESZ) && maxsz <= 0x20_0000
    requires f in free || f in held
    ensures 0 <= f < 0x2000 && Survives(pte, Online(f as bv32))
  {
    assert 0 <= f < maxsz / PAGESZ;
    assert f as bv32 < 0x2000;
    SetMeans(pte, Online(f as bv32));
  }

  /** ... and every frame of a swap device of at most 2^29 bytes survives being swapped to. */
  lemma SwapFramesSurvive(free: seq<int>, held: set<int>, maxsz: nat, f: int, pte: bv32, typ: bv32)
    requires Partition(free, held, maxsz / PAGESZ) && maxsz <= 0x2000_0000
    requires (f in free || f in held) && typ < 1 << 5
    ensures 0 <= f < 0x20_0000 && Survives(pte, Swapped(typ, f as bv32))
  {
    assert 0 <= f < maxsz / PAGESZ;
    assert f as bv32 < 0x20_0000;
    SetMeans(pte, Swapped(typ, f as bv32));
  }
}
