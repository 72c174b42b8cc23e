/** Swapping pages between two devices: __mm_swap_page of src/mm-vm.c and __sys_memmap of
    src/sys_mem.c, and what a swapped page keeps over whole runs. */
module Swap {
  import opened Frames
  import opened Memphy
  import opened Numbers

  // ---------- runs of swaps, as values ----------

  /** The bytes of RAM and of the swap device, the free list of the latter, and, for every swap
      frame taken, the page that was copied into it. */
  datatype Store = Store(ram: seq<byte>, swp: seq<byte>, free: seq<int>, kept: map<int, seq<byte>>)

  datatype Op =
    | SwapOut(v: int)           // take a free swap frame and copy RAM frame v into it
    | SwapIn(f: int, v: int)    // copy swap frame f into RAM frame v
    | RamWrite(a: int, b: byte) // store a byte in RAM
    | GiveBack(f: int)          // return swap frame f

  predicate OpEnabled(s: Store, op: Op) {
    match op
    case SwapOut(v) => IsFrame(s.ram, v) && s.free != [] && IsFrame(s.swp, s.free[0])
    case SwapIn(f, v) => f in s.kept && IsFrame(s.swp, f) && IsFrame(s.ram, v)
    case RamWrite(a, b) => 0 <= a < |s.ram|
    case GiveBack(f) => f in s.kept
  }

  function OpDo(s: Store, op: Op): Store
    requires OpEnabled(s, op)
  {
    match op
    case SwapOut(v) =>
      var f := s.free[0];
      s.(swp := CopyPage(s.ram, v, s.swp, f), free := s.free[1..], kept := s.kept[f := Page(s.ram, v)])
    case SwapIn(f, v) => s.(ram := CopyPage(s.swp, f, s.ram, v))
    case RamWrite(a, b) => s.(ram := s.ram[a := b])
    case GiveBack(f) => s.(free := [f] + s.free, kept := s.kept - {f})
  }

  predicate OpsValid(s: Store, ops: seq<Op>)
    decreases |ops|
  {
    ops == [] || (OpEnabled(s, ops[0]) && OpsValid(OpDo(s, ops[0]), ops[1..]))
  }

  function OpsDo(s: Store, ops: seq<Op>): Store
    requires OpsValid(s, ops)
    decreases |ops|
  {
    if ops == [] then s else OpsDo(OpDo(s, ops[0]), ops[1..])
  }

  /** Free and taken swap frames partition the device, and every taken frame still holds exactly
      the page copied into it. */
  ghost predicate Isolated(s: Store) {
    && Partition(s.free, s.kept.Keys, |s.swp| / PAGESZ)
    && forall f :: f in s.kept ==> IsFrame(s.swp, f) && Page(s.swp, f) == s.kept[f]
  }

  // The devices as init_memphy leaves them.
  function Fresh(ram: seq<byte>, swp: seq<byte>): Store {
    Store(ram, swp, UpTo(|swp| / PAGESZ), map[])
  }

  lemma FreshIsolated(ram: seq<byte>, swp: seq<byte>)
    ensures Isolated(Fresh(ram, swp))
  {
    FormatPartitions(|swp| / PAGESZ);
    assert Fresh(ram, swp).kept.Keys == {};
  }

  lemma SwapOutIsolated(s: Store, v: int)
    requires Isolated(s) && OpEnabled(s, SwapOut(v))
    ensures Isolated(OpDo(s, SwapOut(v)))
  {
    var f := s.free[0];
    var s' := OpDo(s, SwapOut(v));
    TakePartitions(s.free, s.kept.Keys, |s.swp| / PAGESZ);
    assert s'.kept.Keys == s.kept.Keys + {f};
    forall g | g in s'.kept ensures IsFrame(s'.swp, g) && Page(s'.swp, g) == s'.kept[g] {
      CopyPageMeans(s.ram, v, s.swp, f, g);
    }
  }

  lemma StepIsolated(s: Store, op: Op)
    requires Isolated(s) && OpEnabled(s, op)
    ensures Isolated(OpDo(s, op))
  {
    match op
    case SwapOut(v) => SwapOutIsolated(s, v);
    case GiveBack(f) =>
      ReturnPartitions(s.free, s.kept.Keys, |s.swp| / PAGESZ, f);
      assert OpDo(s, op).kept.Keys == s.kept.Keys - {f};
    case _ =>
  }

  lemma {:induction false} RunIsolated(s: Store, ops: seq<Op>)
    requires Isolated(s) && OpsValid(s, ops)
    ensures Isolated(OpsDo(s, ops))
    decreases |ops|
  {
    if ops == [] {
    } else {
      StepIsolated(s, ops[0]);
      RunIsolated(OpDo(s, ops[0]), ops[1..]);
    }
  }

  /** Swap isolation: from the devices as they are initialised, over any run of swaps out and in,
      RAM writes and returned frames, every swap frame still taken keeps exactly the bytes copied
      into it, and is not free. */
  lemma SwapIsolation(ram: seq<byte>, swp: seq<byte>, ops: seq<Op>, f: int)
    requires OpsValid(Fresh(ram, swp), ops) && f in OpsDo(Fresh(ram, swp), ops).kept
    ensures var s := OpsDo(Fresh(ram, swp), ops);
      f !in s.free && IsFrame(s.swp, f) && Page(s.swp, f) == s.kept[f]
  {
    FreshIsolated(ram, swp);
    RunIsolated(Fresh(ram, swp), ops);
  }

  lemma StepKeepsTaken(s: Store, op: Op, f: int)
    requires Isolated(s) && OpEnabled(s, op) && f in s.kept && op != GiveBack(f)
    ensures f in OpDo(s, op).kept && OpDo(s, op).kept[f] == s.kept[f]
  {
  }

  lemma {:induction false} RunKeepsTaken(s: Store, ops: seq<Op>, f: int)
    requires Isolated(s) && OpsValid(s, ops) && f in s.kept && GiveBack(f) !in ops
    ensures f in OpsDo(s, ops).kept && OpsDo(s, ops).kept[f] == s.kept[f]
    decreases |ops|
  {
    if ops == [] {
    } else {
      StepKeepsTaken(s, ops[0], f);
      StepIsolated(s, ops[0]);
      RunKeepsTaken(OpDo(s, ops[0]), ops[1..], f);
    }
  }

  /** A page swapped out comes back unchanged, into whatever RAM frame and after whatever run
      in between, as long as its swap frame was not returned. */
  lemma PageComesBack(s: Store, v: int, ops: seq<Op>, w: int)
    requires Isolated(s) && OpEnabled(s, SwapOut(v))
    requires OpsValid(OpDo(s, SwapOut(v)), ops) && GiveBack(s.free[0]) !in ops
    requires IsFrame(OpsDo(OpDo(s, SwapOut(v)), ops).ram, w)
    ensures var t := OpsDo(OpDo(s, SwapOut(v)), ops);
      && OpEnabled(t, SwapIn(s.free[0], w))
      && IsFrame(OpDo(t, SwapIn(s.free[0], w)).ram, w)
      && Page(OpDo(t, SwapIn(s.free[0], w)).ram, w) == Page(s.ram, v)
  {
    var f := s.free[0];
    var s1 := OpDo(s, SwapOut(v));
    SwapOutIsolated(s, v);
    RunIsolated(s1, ops);
    RunKeepsTaken(s1, ops, f);
    var t := OpsDo(s1, ops);
    CopyPageMeans(t.swp, f, t.ram, w, w);
  }

  /** What each operation does to RAM and to the free frames. */
  lemma OpMeans(s: Store, op: Op)
    requires Isolated(s) && OpEnabled(s, op)
    ensures var s' := OpDo(s, op);
      match op
      case SwapOut(v) =>
        && s'.ram == s.ram && s'.free == s.free[1..] && s.free[0] !in s'.free
        && s'.kept == s.kept[s.free[0] := Page(s.ram, v)]
      case SwapIn(f, v) =>
        && s'.swp == s.swp && s'.free == s.free && s'.kept == s.kept
        && |s'.ram| == |s.ram| && Page(s'.ram, v) == s.kept[f]
        && (forall w :: IsFrame(s.ram, w) && w != v ==> Page(s'.ram, w) == Page(s.ram, w))
      case RamWrite(a, b) =>
        && s'.swp == s.swp && s'.free == s.free && s'.kept == s.kept
        && |s'.ram| == |s.ram| && s'.ram[a] == b
        && (forall i :: 0 <= i < |s.ram| && i != a ==> s'.ram[i] == s.ram[i])
      case GiveBack(f) =>
        && s'.ram == s.ram && s'.swp == s.swp && s'.kept == s.kept - {f}
        && f in s'.free && (forall g :: g in s'.free <==> g in s.free || g == f)
  {
    match op
    case SwapIn(f, v) =>
      forall w | IsFrame(s.ram, w) ensures Page(OpDo(s, op).ram, w) == if w == v then s.kept[f] else Page(s.ram, w) {
        CopyPageMeans(s.swp, f, s.ram, v, w);
      }
    case _ =>
  }

  // ---------- on the devices of a process ----------

  // The fields of struct pcb_t that memory calls use.
  class Pcb {
    var mram: Device
    var activeMswp: Device

    constructor (mram: Device, activeMswp: Device)
      ensures this.mram == mram && this.activeMswp == activeMswp
    {
      this.mram, this.activeMswp := mram, activeMswp;
    }
  }

  ghost predicate RandomAccess(caller: Pcb)
    reads caller, caller.mram, caller.activeMswp
  {
    caller.mram.rdmflg && caller.activeMswp.rdmflg
  }

  // The frames that a swap touches exist, on the devices that it can access.
  ghost predicate FramesExist(caller: Pcb, vicfpn: int, swpfpn: int)
    reads caller, caller.mram, caller.mram.storage, caller.activeMswp, caller.activeMswp.storage
  {
    && (caller.mram.rdmflg ==> IsFrame(caller.mram.storage[..], vicfpn))
    && (caller.activeMswp.rdmflg ==> IsFrame(caller.activeMswp.storage[..], swpfpn))
  }

  /** __mm_swap_page: the swap frame becomes the victim frame and no other byte changes. */
  method MmSwapPage(caller: Pcb, vicfpn: int, swpfpn: int) returns (rc: int)
    requires FramesExist(caller, vicfpn, swpfpn)
    modifies caller.mram, caller.activeMswp, caller.activeMswp.storage
    ensures rc == 0 && unchanged(caller.mram) && unchanged(caller.activeMswp)
    ensures RandomAccess(caller) ==>
      caller.activeMswp.storage[..]
        == old(CopyPage(caller.mram.storage[..], vicfpn, caller.activeMswp.storage[..], swpfpn))
    ensures !caller.activeMswp.rdmflg ==>
      caller.activeMswp.storage[..] == old(caller.activeMswp.storage[..])
    ensures caller.activeMswp.rdmflg ==>
      SameOutside(caller.activeMswp.storage[..], old(caller.activeMswp.storage[..]), swpfpn, PAGESZ)
  {
    var _ := SwapCpPage(caller.mram, vicfpn, caller.activeMswp, swpfpn);
    rc := 0;
  }

  // RAM, swap and the free list of the swap device, with `kept` as bookkeeping.
  ghost function StoreOf(caller: Pcb, kept: map<int, seq<byte>>): Store
    reads caller, caller.mram, caller.mram.storage
    reads caller.activeMswp, caller.activeMswp.storage, caller.activeMswp.spine
  {
    Store(caller.mram.storage[..], caller.activeMswp.storage[..], caller.activeMswp.Free(), kept)
  }

  /** init_memphy of both devices, of two frames or more, is the start of the run. */
  method InitMemory(ramSize: nat, swpSize: nat) returns (caller: Pcb)
    requires ramSize / PAGESZ >= 2 && swpSize / PAGESZ >= 2
    ensures fresh(caller) && RandomAccess(caller) && Apart(caller) && caller.activeMswp.Valid()
    ensures StoreOf(caller, map[])
      == Fresh(seq(ramSize, _ => 0 as byte), seq(swpSize, _ => 0 as byte))
  {
    var mram := new Device(ramSize, 1);
    var mswp := new Device(swpSize, 1);
    caller := new Pcb(mram, mswp);
    assert mram.storage[..] == seq(ramSize, _ => 0 as byte);
    assert mswp.storage[..] == seq(swpSize, _ => 0 as byte);
  }

  ghost predicate Apart(caller: Pcb)
    reads caller, caller.mram, caller.activeMswp
  {
    caller.mram.storage != caller.activeMswp.storage
  }

  /** Taking a free swap frame and swapping a RAM frame out to it is one SwapOut of the run. */
  method TakeAndSwapOut(caller: Pcb, vicfpn: int, ghost kept: map<int, seq<byte>>)
    returns (swpfpn: int)
    requires RandomAccess(caller) && Apart(caller) && caller.activeMswp.Valid()
    requires OpEnabled(StoreOf(caller, kept), SwapOut(vicfpn))
    modifies caller.mram, caller.activeMswp, caller.activeMswp.storage
    ensures caller.activeMswp.Valid() && unchanged(caller)
    ensures swpfpn == old(caller.activeMswp.Free())[0]
    ensures caller.mram.storage == old(caller.mram.storage)
    ensures caller.activeMswp.storage == old(caller.activeMswp.storage)
    ensures StoreOf(caller, kept[swpfpn := old(Page(caller.mram.storage[..], vicfpn))])
      == OpDo(old(StoreOf(caller, kept)), SwapOut(vicfpn))
  {
    var rc;
    rc, swpfpn := caller.activeMswp.GetFreeFp(0);
    rc := MmSwapPage(caller, vicfpn, swpfpn);
  }

  /** Copying a swap frame back to a RAM frame is one SwapIn. */
  method SwapPageIn(caller: Pcb, swpfpn: int, vicfpn: int, ghost kept: map<int, seq<byte>>)
    requires RandomAccess(caller) && Apart(caller) && caller.activeMswp.Valid()
    requires OpEnabled(StoreOf(caller, kept), SwapIn(swpfpn, vicfpn))
    modifies caller.activeMswp, caller.mram, caller.mram.storage
    ensures caller.activeMswp.Valid() && Apart(caller) && RandomAccess(caller)
    ensures StoreOf(caller, kept) == OpDo(old(StoreOf(caller, kept)), SwapIn(swpfpn, vicfpn))
  {
    var _ := SwapCpPage(caller.activeMswp, swpfpn, caller.mram, vicfpn);
  }

  /** MEMPHY_write to RAM is one RamWrite. */
  method StoreInRam(caller: Pcb, addr: int, data: byte, ghost kept: map<int, seq<byte>>)
    requires RandomAccess(caller) && Apart(caller) && caller.activeMswp.Valid()
    requires OpEnabled(StoreOf(caller, kept), RamWrite(addr, data))
    modifies caller.mram, caller.mram.storage
    ensures caller.activeMswp.Valid() && Apart(caller) && RandomAccess(caller)
    ensures StoreOf(caller, kept) == OpDo(old(StoreOf(caller, kept)), RamWrite(addr, data))
  {
    var _ := Write(caller.mram, addr, data);
  }

  /** MEMPHY_put_freefp of a taken frame is one GiveBack. */
  method ReturnFrame(caller: Pcb, fpn: int, ghost kept: map<int, seq<byte>>)
    requires RandomAccess(caller) && Apart(caller) && caller.activeMswp.Valid()
    requires OpEnabled(StoreOf(caller, kept), GiveBack(fpn))
    modifies caller.activeMswp
    ensures caller.activeMswp.Valid() && Apart(caller) && RandomAccess(caller)
    ensures StoreOf(caller, kept - {fpn}) == OpDo(old(StoreOf(caller, kept)), GiveBack(fpn))
  {
    var _ := caller.activeMswp.PutFreeFp(fpn);
  }

  // ---------- the memory system call ----------

  type u32 = x: int | 0 <= x < 0x1_0000_0000

  // An unsigned register passed as an int.
  function AsInt(a: u32): int { if a < 0x8000_0000 then a else a - 0x1_0000_0000 }

  // An unsigned register passed as a BYTE: its low eight bits.
  function AsByte(a: u32): byte {
    var low := a % 256;
    (if low < 128 then low else low - 256) as byte
  }

  // A BYTE assigned to an unsigned register: sign-extended.
  function AsReg(b: byte): u32 {
    if b >= 0 then b as int else b as int + 0x1_0000_0000
  }

  /** A byte survives the registers; a register survives a byte exactly when it is the
      sign extension of one. */
  lemma ByteThroughRegister(b: byte, a: u32)
    ensures AsByte(AsReg(b)) == b
    ensures AsReg(AsByte(a)) == a <==> a < 128 || a >= 0xFFFF_FF80
  {
  }

  /** What the conversions compute: the number modulo 2^32 in the range of an int, the number
      modulo 256 in the range of a signed char, and a byte modulo 2^32. */
  lemma Conversions(a: u32, b: byte)
    ensures -0x8000_0000 <= AsInt(a) < 0x8000_0000 && (a - AsInt(a)) % 0x1_0000_0000 == 0
    ensures (a - AsByte(a) as int) % 256 == 0
    ensures (AsReg(b) - b as int) % 0x1_0000_0000 == 0
  {
  }

  const SYSMEM_SWP_OP: u32 := 3
  const SYSMEM_IO_READ: u32 := 4
  const SYSMEM_IO_WRITE: u32 := 5

  class ScRegs {
    var a1: u32
    var a2: u32
    var a3: u32
  }

  /** __sys_memmap, except SYSMEM_INC_OP, which is 2. Operation 3 swaps a page out, 4 reads and 5
      writes a byte of RAM, and each does nothing else; reading a device that is not random access
      leaves an unspecified value. */
  method SysMemmap(caller: Pcb, regs: ScRegs) returns (rc: int)
    requires regs.a1 != 2
    requires regs.a1 == 3 ==> FramesExist(caller, AsInt(regs.a2), AsInt(regs.a3))
    requires regs.a1 == 4 || regs.a1 == 5 ==>
      caller.mram.rdmflg ==> 0 <= AsInt(regs.a2) < caller.mram.storage.Length
    modifies regs`a3, caller.mram, caller.mram.storage, caller.activeMswp, caller.activeMswp.storage
    ensures rc == 0 && unchanged(caller.mram) && unchanged(caller.activeMswp)
    ensures regs.a1 != 4 ==> regs.a3 == old(regs.a3)
    ensures regs.a1 == 4 && caller.mram.rdmflg ==>
      regs.a3 == AsReg(caller.mram.storage[AsInt(regs.a2)])
    ensures regs.a1 == 5 && caller.mram.rdmflg ==>
      && caller.mram.storage[..]
         == old(caller.mram.storage[..])[AsInt(regs.a2) := AsByte(regs.a3)]
      && (caller.activeMswp.storage != caller.mram.storage ==>
           caller.activeMswp.storage[..] == old(caller.activeMswp.storage[..]))
    ensures regs.a1 == 3 ==>
      && (RandomAccess(caller) ==>
           caller.activeMswp.storage[..]
             == old(CopyPage(caller.mram.storage[..], AsInt(regs.a2),
                             caller.activeMswp.storage[..], AsInt(regs.a3))))
      && (!caller.activeMswp.rdmflg ==>
           caller.activeMswp.storage[..] == old(caller.activeMswp.storage[..]))
      && (caller.activeMswp.rdmflg ==>
           SameOutside(caller.activeMswp.storage[..], old(caller.activeMswp.storage[..]),
                       AsInt(regs.a3), PAGESZ))
      && (caller.activeMswp.storage != caller.mram.storage ==>
           caller.mram.storage[..] == old(caller.mram.storage[..]))
    ensures (regs.a1 != 5 || !caller.mram.rdmflg) && regs.a1 != 3 ==>
      && caller.mram.storage[..] == old(caller.mram.storage[..])
      && caller.activeMswp.storage[..] == old(caller.activeMswp.storage[..])
  {
    var memop := regs.a1;
    if memop == SYSMEM_SWP_OP {
      var _ := MmSwapPage(caller, AsInt(regs.a2), AsInt(regs.a3));
    } else if memop == SYSMEM_IO_READ {
      var value: byte := *;
      var _, read := Read(caller.mram, AsInt(regs.a2), value);
      regs.a3 := AsReg(read);
    } else if memop == SYSMEM_IO_WRITE {
      var _ := Write(caller.mram, AsInt(regs.a2), AsByte(regs.a3));
    }
    rc := 0;
  }
}
