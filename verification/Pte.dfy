/** Page table entries: pte_set_fpn, pte_set_swap and init_pte of src/mm.c over the field layout
    of include/mm.h. The frame number overlaps the swap type and the swap offset. */
module Pte {
  import opened Bits

  const PRESENT: bv32 := 1 << 31
  const SWAPPED: bv32 := 1 << 30
  const DIRTY: bv32 := 1 << 28
  const FPN_MASK: bv32 := Genmask(12, 0)
  const SWPTYP_MASK: bv32 := Genmask(4, 0)
  const SWPOFF_MASK: bv32 := Genmask(25, 5)

  // ---------- what the words mean ----------

  // PAGING_PTE_FPN
  function Fpn(pte: bv32): bv32 { GetVal(pte, FPN_MASK, 0) }

  function SwpTyp(pte: bv32): bv32 { GetVal(pte, SWPTYP_MASK, 0) }

  // PAGING_PTE_SWP
  function SwpOff(pte: bv32): bv32 { GetVal(pte, SWPOFF_MASK, 5) }

  datatype Mapping = Online(fpn: bv32) | Swapped(typ: bv32, off: bv32)

  /** What a present entry says. PRESENT is set for both kinds; SWAPPED tells them apart. */
  function Decode(pte: bv32): Mapping {
    if pte & SWAPPED != 0 then Swapped(SwpTyp(pte), SwpOff(pte)) else Online(Fpn(pte))
  }

  predicate InRange(m: Mapping) {
    match m
    case Online(fpn) => fpn < 1 << 13
    case Swapped(typ, off) => typ < 1 << 5 && off < 1 << 21
  }

  // ---------- the setters ----------

  function SetFpn(pte: bv32, fpn: bv32): bv32 {
    SetVal(ClrBit(SetBit(pte, PRESENT), SWAPPED), fpn, FPN_MASK, 0)
  }

  function SetSwap(pte: bv32, typ: bv32, off: bv32): bv32 {
    SetVal(SetVal(SetBit(SetBit(pte, PRESENT), SWAPPED), typ, SWPTYP_MASK, 0), off, SWPOFF_MASK, 5)
  }

  function Set(pte: bv32, m: Mapping): bv32 {
    match m
    case Online(fpn) => SetFpn(pte, fpn)
    case Swapped(typ, off) => SetSwap(pte, typ, off)
  }

  function SetAll(pte: bv32, ms: seq<Mapping>): bv32
    decreases |ms|
  {
    if ms == [] then pte else SetAll(Set(pte, ms[0]), ms[1..])
  }

  lemma MaskValues()
    ensures FPN_MASK == 0x1FFF && SWPTYP_MASK == 0x1F && SWPOFF_MASK == 0x3FF_FFE0
  {
  }

  // A field reads back what was set in it, cut to its mask; a disjoint mask is not affected.
  lemma FieldReadsBack(v: bv32, value: bv32, mask: bv32, other: bv32, offst: bv32)
    requires offst <= 31
    ensures SetVal(v, value, mask, offst) & mask == (value << offst) & mask
    ensures mask & other == 0 ==> SetVal(v, value, mask, offst) & other == v & other
  {
  }

  lemma FieldCuts(fpn: bv32, typ: bv32, off: bv32)
    ensures ((fpn << 0) & 0x1FFF) >> 0 == fpn & 0x1FFF
    ensures ((typ << 0) & 0x1F) >> 0 == typ & 0x1F
    ensures ((off << 5) & 0x3FF_FFE0) >> 5 == off & 0x1F_FFFF
    ensures fpn & 0x1FFF == fpn <==> fpn < 1 << 13
    ensures typ & 0x1F == typ <==> typ < 1 << 5
    ensures off & 0x1F_FFFF == off <==> off < 1 << 21
  {
  }

  /** One setter on any word: it decodes to the arguments cut to their fields, so to the
      arguments exactly when they fit, and no other field changes. */
  lemma SetFpnMeans(pte: bv32, fpn: bv32)
    ensures Decode(SetFpn(pte, fpn)) == Online(fpn & 0x1FFF)
    ensures fpn & 0x1FFF == fpn <==> fpn < 1 << 13
    ensures SetFpn(pte, fpn) & PRESENT == PRESENT
    ensures SetFpn(pte, fpn) & 0x3FFF_E000 == pte & 0x3FFF_E000
  {
    MaskValues();
    FieldCuts(fpn, 0, 0);
    SetFpnKeeps(pte, fpn);
    FieldReadsBack(ClrBit(SetBit(pte, PRESENT), SWAPPED), fpn, FPN_MASK, 0, 0);
  }

  lemma SetFpnKeeps(pte: bv32, fpn: bv32)
    ensures SetFpn(pte, fpn) & SWAPPED == 0 && SetFpn(pte, fpn) & PRESENT == PRESENT
    ensures SetFpn(pte, fpn) & 0x3FFF_E000 == pte & 0x3FFF_E000
  {
    MaskValues();
    var v := ClrBit(SetBit(pte, PRESENT), SWAPPED);
    FieldReadsBack(v, fpn, FPN_MASK, SWAPPED, 0);
    FieldReadsBack(v, fpn, FPN_MASK, PRESENT, 0);
    FieldReadsBack(v, fpn, FPN_MASK, 0x3FFF_E000, 0);
    OnlineFlags(pte);
  }

  lemma SetFlag(v: bv32, mask: bv32)
    ensures SetBit(v, mask) & mask == mask
  {
  }

  lemma SetFlagApart(v: bv32, mask: bv32, other: bv32)
    requires mask & other == 0
    ensures SetBit(v, mask) & other == v & other
  {
  }

  lemma ClrFlag(v: bv32, mask: bv32)
    ensures ClrBit(v, mask) & mask == 0
  {
  }

  lemma ClrFlagApart(v: bv32, mask: bv32, other: bv32)
    requires mask & other == 0
    ensures ClrBit(v, mask) & other == v & other
  {
  }

  lemma OnlineFlags(pte: bv32)
    ensures ClrBit(SetBit(pte, PRESENT), SWAPPED) & SWAPPED == 0
    ensures ClrBit(SetBit(pte, PRESENT), SWAPPED) & PRESENT == PRESENT
    ensures ClrBit(SetBit(pte, PRESENT), SWAPPED) & 0x3FFF_E000 == pte & 0x3FFF_E000
  {
    var p := SetBit(pte, PRESENT);
    SetFlag(pte, PRESENT);
    SetFlagApart(pte, PRESENT, 0x3FFF_E000);
    ClrFlag(p, SWAPPED);
    ClrFlagApart(p, SWAPPED, PRESENT);
    ClrFlagApart(p, SWAPPED, 0x3FFF_E000);
  }

  lemma SwappedFlags(pte: bv32)
    ensures SetBit(SetBit(pte, PRESENT), SWAPPED) & SWAPPED == SWAPPED
    ensures SetBit(SetBit(pte, PRESENT), SWAPPED) & PRESENT == PRESENT
    ensures SetBit(SetBit(pte, PRESENT), SWAPPED) & 0x3C00_0000 == pte & 0x3C00_0000
  {
    var p := SetBit(pte, PRESENT);
    SetFlag(pte, PRESENT);
    SetFlagApart(pte, PRESENT, 0x3C00_0000);
    SetFlag(p, SWAPPED);
    SetFlagApart(p, SWAPPED, PRESENT);
    SetFlagApart(p, SWAPPED, 0x3C00_0000);
  }

  lemma SetSwapMeans(pte: bv32, typ: bv32, off: bv32)
    ensures Decode(SetSwap(pte, typ, off)) == Swapped(typ & 0x1F, off & 0x1F_FFFF)
    ensures typ & 0x1F == typ <==> typ < 1 << 5
    ensures off & 0x1F_FFFF == off <==> off < 1 << 21
    ensures SetSwap(pte, typ, off) & PRESENT != 0
    ensures SetSwap(pte, typ, off) & 0x3C00_0000 == pte & 0x3C00_0000
  {
    MaskValues();
    FieldCuts(0, typ, off);
    var v := SetBit(SetBit(pte, PRESENT), SWAPPED);
    var w := SetVal(v, typ, SWPTYP_MASK, 0);
    FieldReadsBack(v, typ, SWPTYP_MASK, SWAPPED, 0);
    FieldReadsBack(w, off, SWPOFF_MASK, SWAPPED, 5);
    FieldReadsBack(v, typ, SWPTYP_MASK, PRESENT, 0);
    FieldReadsBack(w, off, SWPOFF_MASK, PRESENT, 5);
    FieldReadsBack(v, typ, SWPTYP_MASK, 0x3C00_0000, 0);
    FieldReadsBack(w, off, SWPOFF_MASK, 0x3C00_0000, 5);
    FieldReadsBack(w, off, SWPOFF_MASK, SWPTYP_MASK, 5);
    SwappedFlags(pte);
  }

  /** The words in numbers: PRESENT is bit 31, SWAPPED bit 30, the frame number bits 0 to 12. */
  lemma SetFpnWord(pte: bv32, fpn: bv32)
    ensures SetFpn(pte, fpn) == 0x8000_0000 | (pte & 0x3FFF_E000) | (fpn & 0x1FFF)
  {
    MaskValues();
  }

  /** The swap type is bits 0 to 4 and the swap offset bits 5 to 25. */
  lemma SetSwapWord(pte: bv32, typ: bv32, off: bv32)
    ensures SetSwap(pte, typ, off)
         == 0xC000_0000 | (pte & 0x3C00_0000) | ((off & 0x1F_FFFF) << 5) | (typ & 0x1F)
  {
    MaskValues();
  }

  /** What init_pte writes: the same words with DIRTY, bit 28, cleared. */
  lemma InitWords(pte: bv32, fpn: bv32, typ: bv32, off: bv32)
    ensures ClrBit(SetFpn(pte, fpn), DIRTY) == 0x8000_0000 | (pte & 0x2FFF_E000) | (fpn & 0x1FFF)
    ensures ClrBit(SetSwap(pte, typ, off), DIRTY)
         == 0xC000_0000 | (pte & 0x2C00_0000) | ((off & 0x1F_FFFF) << 5) | (typ & 0x1F)
  {
    MaskValues();
  }

  /** Decoding in numbers. */
  lemma DecodeWord(pte: bv32)
    ensures Decode(pte) == if pte & 0x4000_0000 == 0 then Online(pte & 0x1FFF)
                           else Swapped(pte & 0x1F, (pte >> 5) & 0x1F_FFFF)
  {
    MaskValues();
  }

  lemma SetMeans(pte: bv32, m: Mapping)
    ensures Set(pte, m) & PRESENT != 0
    ensures Decode(Set(pte, m)) == m <==> InRange(m)
    ensures Set(pte, m) & 0x3C00_0000 == pte & 0x3C00_0000
  {
    match m {
      case Online(fpn) => OnlineMeans(pte, fpn);
      case Swapped(typ, off) => SetSwapMeans(pte, typ, off);
    }
  }

  lemma OnlineMeans(pte: bv32, fpn: bv32)
    ensures SetFpn(pte, fpn) & PRESENT != 0
    ensures Decode(SetFpn(pte, fpn)) == Online(fpn) <==> fpn < 1 << 13
    ensures SetFpn(pte, fpn) & 0x3C00_0000 == pte & 0x3C00_0000
  {
    SetFpnMeans(pte, fpn);
    KeepsUpper(SetFpn(pte, fpn), pte);
  }

  lemma KeepsUpper(a: bv32, b: bv32)
    requires a & 0x3FFF_E000 == b & 0x3FFF_E000
    ensures a & 0x3C00_0000 == b & 0x3C00_0000
  {
  }

  /** The last write wins: after any nonempty sequence of calls on any word, the entry is present
      and decodes to the arguments of the last call, exactly when those fit; bits 26 to 29, DIRTY
      among them, are those of the first word. */
  lemma {:induction false} LastWriteWins(pte: bv32, ms: seq<Mapping>)
    requires ms != []
    ensures SetAll(pte, ms) & PRESENT != 0
    ensures Decode(SetAll(pte, ms)) == ms[|ms| - 1] <==> InRange(ms[|ms| - 1])
    ensures SetAll(pte, ms) & 0x3C00_0000 == pte & 0x3C00_0000
    decreases |ms|
  {
    SetMeans(pte, ms[0]);
    if |ms| == 1 {
      assert SetAll(pte, ms) == Set(pte, ms[0]);
    } else {
      LastWriteWins(Set(pte, ms[0]), ms[1..]);
    }
  }

  /** Whatever was in the word before, and whatever was called before, the decoded entry depends
      only on the last call. */
  lemma OnlyLastCallMatters(p: bv32, q: bv32, m: Mapping)
    ensures Decode(Set(p, m)) == Decode(Set(q, m))
  {
    match m {
      case Online(fpn) => SetFpnMeans(p, fpn); SetFpnMeans(q, fpn);
      case Swapped(typ, off) => SetSwapMeans(p, typ, off); SetSwapMeans(q, typ, off);
    }
  }

  // No field reaches DIRTY, so it can be cleared before or after they are set.
  lemma DirtyIsApart(v: bv32, value: bv32, mask: bv32, offst: bv32)
    requires offst <= 31 && mask & DIRTY == 0
    ensures SetVal(ClrBit(v, DIRTY), value, mask, offst) == ClrBit(SetVal(v, value, mask, offst), DIRTY)
  {
  }

  // ---------- the procedures, on an entry of a page table ----------

  method PteSetFpn(pgd: array<bv32>, k: nat, fpn: bv32) returns (rc: int)
    requires k < pgd.Length
    modifies pgd
    ensures rc == 0 && pgd[..] == old(pgd[..][k := Set(pgd[k], Online(fpn))])
  {
    pgd[k] := SetBit(pgd[k], PRESENT);
    pgd[k] := ClrBit(pgd[k], SWAPPED);
    pgd[k] := SetVal(pgd[k], fpn, FPN_MASK, 0);
    rc := 0;
  }

  method PteSetSwap(pgd: array<bv32>, k: nat, swptyp: bv32, swpoff: bv32) returns (rc: int)
    requires k < pgd.Length
    modifies pgd
    ensures rc == 0 && pgd[..] == old(pgd[..][k := Set(pgd[k], Swapped(swptyp, swpoff))])
  {
    pgd[k] := SetBit(pgd[k], PRESENT);
    pgd[k] := SetBit(pgd[k], SWAPPED);
    pgd[k] := SetVal(pgd[k], swptyp, SWPTYP_MASK, 0);
    pgd[k] := SetVal(pgd[k], swpoff, SWPOFF_MASK, 5);
    rc := 0;
  }

  /** init_pte refuses exactly the online mapping of frame 0, leaves an entry that is not to be
      present alone, and otherwise does what the matching setter does and clears DIRTY. */
  method InitPte(pgd: array<bv32>, k: nat, pre: int, fpn: bv32, drt: int, swp: int,
                 swptyp: bv32, swpoff: bv32) returns (rc: int)
    requires k < pgd.Length
    modifies pgd
    ensures rc == if pre != 0 && swp == 0 && fpn == 0 then -1 else 0
    ensures pre == 0 || rc == -1 ==> pgd[..] == old(pgd[..])
    ensures pre != 0 && rc == 0 ==>
      pgd[..] == old(pgd[..][k :=
        ClrBit(Set(pgd[k], if swp == 0 then Online(fpn) else Swapped(swptyp, swpoff)), DIRTY)])
  {
    if pre != 0 {
      if swp == 0 {
        if fpn == 0 {
          return -1;
        }
        pgd[k] := SetBit(pgd[k], PRESENT);
        pgd[k] := ClrBit(pgd[k], SWAPPED);
        MaskValues();
        DirtyIsApart(pgd[k], fpn, FPN_MASK, 0);
        pgd[k] := ClrBit(pgd[k], DIRTY);
        pgd[k] := SetVal(pgd[k], fpn, FPN_MASK, 0);
      } else {
        pgd[k] := SetBit(pgd[k], PRESENT);
        pgd[k] := SetBit(pgd[k], SWAPPED);
        MaskValues();
        DirtyIsApart(pgd[k], swptyp, SWPTYP_MASK, 0);
        DirtyIsApart(SetVal(pgd[k], swptyp, SWPTYP_MASK, 0), swpoff, SWPOFF_MASK, 5);
        pgd[k] := ClrBit(pgd[k], DIRTY);
        pgd[k] := SetVal(pgd[k], swptyp, SWPTYP_MASK, 0);
        pgd[k] := SetVal(pgd[k], swpoff, SWPOFF_MASK, 5);
      }
    }
    rc := 0;
  }
}
