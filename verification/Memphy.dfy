/** Physical memory devices: the free-frame list and the storage of src/mm-memphy.c, and the page
    copy of src/mm.c. */
module Memphy {
  import opened Frames
  import opened Numbers

  /** struct framephy_struct. There is no constructor: the fields of a new node hold whatever
      malloc left in them. */
  class FramePhy {
    var fpn: int
    var next: FramePhy?
  }

  /** The chain of links from `head` runs through exactly the nodes of `spine`, each once. */
  ghost predicate Linked(head: FramePhy?, spine: seq<FramePhy>)
    reads spine
    decreases |spine|
  {
    if spine == [] then head == null
    else head == spine[0] && spine[0] !in spine[1..] && Linked(spine[0].next, spine[1..])
  }

  lemma {:induction false} ChainIsLinked(nodes: seq<FramePhy>, k: nat)
    requires k < |nodes| && nodes[|nodes| - 1].next == null
    requires forall i :: 0 <= i < |nodes| - 1 ==> nodes[i].next == nodes[i + 1]
    requires forall i :: 0 <= i < |nodes| ==> nodes[i].fpn == i
    ensures Linked(nodes[k], nodes[k..])
    decreases |nodes| - k
  {
    assert nodes[k..][1..] == nodes[k + 1..];
    assert nodes[k] !in nodes[k + 1..];
    if k + 1 == |nodes| {
    } else {
      ChainIsLinked(nodes, k + 1);
      assert nodes[k].next == nodes[k + 1];
    }
  }

  ghost function Fpns(spine: seq<FramePhy>): seq<int>
    reads spine
  {
    seq(|spine|, i requires 0 <= i < |spine| reads spine => spine[i].fpn)
  }

  /** struct memphy_struct. `spine` are the nodes of the free list in order, `held` the frames
      taken from it and not yet returned. */
  class Device {
    var storage: array<byte>
    var maxsz: nat
    var rdmflg: bool
    var cursor: nat
    var freeList: FramePhy?
    ghost var spine: seq<FramePhy>
    ghost var held: set<int>

    // The free list is a finite chain of distinct nodes, so it has no cycle.
    ghost predicate Valid()
      reads this, spine
    {
      Linked(freeList, spine)
    }

    ghost function Free(): seq<int>
      reads this, spine
    {
      Fpns(spine)
    }

    /** init_memphy, which ignores what MEMPHY_format returns. */
    constructor (maxSize: nat, randomflg: int)
      ensures fresh(storage) && storage.Length == maxsz == maxSize
      ensures forall i :: 0 <= i < maxSize ==> storage[i] == 0
      ensures rdmflg == (randomflg != 0)
      ensures maxSize / 256 >= 2 ==>
        && Valid() && fresh(spine) && Free() == UpTo(maxSize / 256) && held == {}
        && Partition(Free(), held, maxSize / 256)
    {
      storage := new byte[maxSize](_ => 0);
      maxsz := maxSize;
      rdmflg := randomflg != 0;
      new;
      var _ := Format(PAGESZ);
      FormatPartitions(maxSize / PAGESZ);
      if !rdmflg {
        cursor := 0;
      }
    }

    /** MEMPHY_format. With no whole frame it refuses; with exactly one it leaves the link of the
        only node as malloc left it; otherwise the list is the frames in order. */
    method Format(pagesz: int) returns (rc: int)
      requires pagesz != 0
      modifies this`freeList, this`spine, this`held
      ensures maxsz / pagesz <= 0 ==>
        rc == -1 && freeList == old(freeList) && spine == old(spine) && held == old(held)
      ensures maxsz / pagesz == 1 ==>
        && rc == 0 && freeList != null && fresh(freeList) && freeList.fpn == 0
        && spine == [freeList] && held == {} && (Valid() <==> freeList.next == null)
      ensures maxsz / pagesz >= 2 ==>
        rc == 0 && Valid() && fresh(spine) && Free() == UpTo(maxsz / pagesz) && held == {}
    {
      var numfp := maxsz / pagesz;
      if numfp <= 0 {
        return -1;
      }
      var fst := new FramePhy;
      fst.fpn := 0;
      freeList := fst;
      ghost var nodes := [fst];
      var iter := 1;
      while iter < numfp
        invariant 1 <= iter <= numfp && |nodes| == iter
        invariant fst == nodes[iter - 1] && freeList == nodes[0]
        invariant fresh(nodes) && (iter > 1 ==> fst.next == null)
        invariant forall i :: 0 <= i < iter ==> nodes[i].fpn == i
        invariant forall i :: 0 <= i < iter - 1 ==> nodes[i].next == nodes[i + 1]
      {
        var newfst := new FramePhy;
        newfst.fpn := iter;
        newfst.next := null;
        fst.next := newfst;
        fst := newfst;
        nodes := nodes + [newfst];
        iter := iter + 1;
      }
      spine, held := nodes, {};
      if numfp >= 2 {
        ChainIsLinked(nodes, 0);
      } else {
        assert nodes[1..] == [] && (Linked(fst.next, nodes[1..]) <==> fst.next == null);
      }
      rc := 0;
    }

    /** MEMPHY_get_freefp: the first free frame, or -1 and the result left alone. */
    method GetFreeFp(retfpn: int) returns (rc: int, fpn: int)
      requires Valid()
      modifies this`freeList, this`spine, this`held
      ensures Valid()
      ensures old(Free()) == [] ==>
        rc == -1 && fpn == retfpn && Free() == [] && held == old(held)
      ensures old(Free()) != [] ==>
        && rc == 0 && fpn == old(Free())[0]
        && Free() == old(Free())[1..] && held == old(held) + {fpn}
      ensures forall n :: old(Partition(Free(), held, n)) ==> Partition(Free(), held, n)
      ensures spine == old(if spine == [] then [] else spine[1..])
    {
      var fp := freeList;
      if fp == null {
        return -1, retfpn;
      }
      fpn := fp.fpn;
      ghost var free := Free();
      forall n | Partition(free, held, n) ensures Partition(free[1..], held + {fpn}, n) {
        TakePartitions(free, held, n);
      }
      freeList := fp.next;
      spine, held := spine[1..], held + {fpn};
      assert Free() == free[1..];
      rc := 0;
    }

    /** MEMPHY_put_freefp: whatever frame is returned becomes the first free one. Free and held
        frames stay a partition exactly when the frame was held. */
    method PutFreeFp(fpn: int) returns (rc: int)
      requires Valid()
      modifies this`freeList, this`spine, this`held
      ensures Valid() && rc == 0
      ensures Free() == [fpn] + old(Free()) && held == old(held) - {fpn}
      ensures forall n :: old(Partition(Free(), held, n)) ==>
        (Partition(Free(), held, n) <==> fpn in old(held))
      ensures |spine| > 0 && spine[1..] == old(spine) && fresh(spine[0])
    {
      ghost var free, was := Free(), held;
      var newnode := new FramePhy;
      newnode.fpn := fpn;
      newnode.next := freeList;
      assert ([newnode] + spine)[1..] == spine;
      freeList := newnode;
      spine, held := [newnode] + spine, held - {fpn};
      assert Free() == [fpn] + free;
      forall n | Partition(free, was, n)
        ensures Partition([fpn] + free, was - {fpn}, n) <==> fpn in was
      {
        ReturnPartitions(free, was, n, fpn);
      }
      rc := 0;
    }

    /** MEMPHY_mv_csr walks to the offset; past the end it comes back to 0. */
    method MvCsr(offset: int) returns (rc: int)
      modifies this`cursor
      ensures rc == 0 && cursor == if 0 <= offset < maxsz then offset else 0
    {
      var numstep := 0;
      cursor := 0;
      while numstep < offset && numstep < maxsz
        invariant 0 <= numstep <= maxsz && (numstep == 0 || numstep <= offset)
        invariant cursor == if numstep < maxsz then numstep else 0
      {
        cursor := (cursor + 1) % maxsz;
        numstep := numstep + 1;
      }
      rc := 0;
    }
  }

  /** MEMPHY_seq_read. Despite its name it refuses the devices that are not random access. */
  method SeqRead(mp: Device?, addr: int, value: byte) returns (rc: int, result: byte)
    requires mp != null && mp.rdmflg ==> 0 <= addr < mp.storage.Length
    modifies if mp == null then {} else {mp}
    ensures mp != null ==> unchanged(mp`storage, mp`maxsz, mp`rdmflg, mp`freeList, mp`spine, mp`held)
    ensures mp != null && !mp.rdmflg ==> unchanged(mp)
    ensures mp == null || !mp.rdmflg ==> rc == -1 && result == value
    ensures mp != null && mp.rdmflg ==> rc == 0 && result == mp.storage[addr]
  {
    if mp == null {
      return -1, value;
    }
    if !mp.rdmflg {
      return -1, value;
    }
    var _ := mp.MvCsr(addr);
    result := mp.storage[addr];
    rc := 0;
  }

  /** MEMPHY_read: the byte at the address, or -1 and the result left alone. */
  method Read(mp: Device?, addr: int, value: byte) returns (rc: int, result: byte)
    requires mp != null && mp.rdmflg ==> 0 <= addr < mp.storage.Length
    modifies if mp == null then {} else {mp}
    ensures mp != null ==> unchanged(mp)
    ensures mp == null || !mp.rdmflg ==> rc == -1 && result == value
    ensures mp != null && mp.rdmflg ==> rc == 0 && result == mp.storage[addr]
  {
    if mp == null {
      return -1, value;
    }
    if mp.rdmflg {
      result := mp.storage[addr];
    } else {
      rc, result := SeqRead(mp, addr, value);
      return;
    }
    rc := 0;
  }

  method SeqWrite(mp: Device?, addr: int, value: byte) returns (rc: int)
    requires mp != null && mp.rdmflg ==> 0 <= addr < mp.storage.Length
    modifies if mp == null then {} else {mp, mp.storage}
    ensures mp == null || !mp.rdmflg ==> rc == -1
    ensures mp != null ==> unchanged(mp`storage, mp`maxsz, mp`rdmflg, mp`freeList, mp`spine, mp`held)
    ensures mp != null && !mp.rdmflg ==> unchanged(mp) && mp.storage[..] == old(mp.storage[..])
    ensures mp != null && mp.rdmflg ==>
      rc == 0 && mp.storage[..] == old(mp.storage[..][addr := value])
  {
    if mp == null {
      return -1;
    }
    if !mp.rdmflg {
      return -1;
    }
    var _ := mp.MvCsr(addr);
    mp.storage[addr] := value;
    rc := 0;
  }

  /** MEMPHY_write: stores the byte at the address and nothing else, or -1. */
  method Write(mp: Device?, addr: int, data: byte) returns (rc: int)
    requires mp != null && mp.rdmflg ==> 0 <= addr < mp.storage.Length
    modifies if mp == null then {} else {mp, mp.storage}
    ensures mp == null || !mp.rdmflg ==> rc == -1
    ensures mp != null ==> unchanged(mp)
    ensures mp != null && !mp.rdmflg ==> mp.storage[..] == old(mp.storage[..])
    ensures mp != null && mp.rdmflg ==>
      rc == 0 && mp.storage[..] == old(mp.storage[..][addr := data])
  {
    if mp == null {
      return -1;
    }
    if mp.rdmflg {
      mp.storage[addr] := data;
    } else {
      rc := SeqWrite(mp, addr, data);
      return;
    }
    rc := 0;
  }

  // What has happened to the destination after c rounds of the loop of __swap_cp_page.
  ghost predicate Copied(src: Device?, srcfpn: int, dst: Device?, dstfpn: int,
                         from: seq<byte>, to: seq<byte>, c: nat)
    requires c <= PAGESZ
    reads if src == null then {} else {src, src.storage}
    reads if dst == null then {} else {dst, dst.storage}
  {
    && (src != null && src.rdmflg ==> IsFrame(from, srcfpn) && |from| == src.storage.Length)
    && (src != null && (dst == null || src.storage != dst.storage) ==> src.storage[..] == from)
    && (dst != null ==> |to| == dst.storage.Length)
    && (dst != null && !dst.rdmflg ==> dst.storage[..] == to)
    && (dst != null && dst.rdmflg ==>
         && IsFrame(to, dstfpn)
         && SameOutside(dst.storage[..], to, dstfpn, c)
         && (src != null && src.rdmflg ==>
              && dst.storage[..] == CopyUpTo(from, srcfpn, to, dstfpn, c)
              && (src.storage == dst.storage ==> from == to)))
  }

  // One round: the byte is read, if there is one to read, and written, if there is where to.
  method CopyCell(src: Device?, srcfpn: int, dst: Device?, dstfpn: int, cellidx: nat,
                  ghost from: seq<byte>, ghost to: seq<byte>)
    requires cellidx < PAGESZ && Copied(src, srcfpn, dst, dstfpn, from, to, cellidx)
    modifies if src == null then {} else {src}
    modifies if dst == null then {} else {dst, dst.storage}
    ensures (src != null ==> unchanged(src)) && (dst != null ==> unchanged(dst))
    ensures Copied(src, srcfpn, dst, dstfpn, from, to, cellidx + 1)
  {
    var addrsrc := srcfpn * PAGESZ + cellidx;
    var addrdst := dstfpn * PAGESZ + cellidx;
    ghost var now := if dst == null then [] else dst.storage[..];
    if dst != null && dst.rdmflg && src != null && src.rdmflg {
      if src.storage == dst.storage { CopyAhead(from, srcfpn, dstfpn, cellidx); }
      CopyNext(from, srcfpn, to, dstfpn, cellidx);
      assert src.storage[..][addrsrc] == from[addrsrc];
    }
    var data: byte := *;
    var _, read := Read(src, addrsrc, data);
    if dst != null && dst.rdmflg {
      SameOutsideNext(now, to, dstfpn, cellidx, read);
    }
    var _ := Write(dst, addrdst, read);
  }

  /** __swap_cp_page. Between random-access devices, be they the same device or not and the
      frames equal or not, the destination frame becomes the old source frame and every other
      byte stays; a device that is absent or not random access is neither read nor written. */
  method SwapCpPage(src: Device?, srcfpn: int, dst: Device?, dstfpn: int) returns (rc: int)
    requires src != null && src.rdmflg ==> IsFrame(src.storage[..], srcfpn)
    requires dst != null && dst.rdmflg ==> IsFrame(dst.storage[..], dstfpn)
    modifies if src == null then {} else {src}
    modifies if dst == null then {} else {dst, dst.storage}
    ensures rc == 0
    ensures (src != null ==> unchanged(src)) && (dst != null ==> unchanged(dst))
    ensures dst != null && !dst.rdmflg ==> dst.storage[..] == old(dst.storage[..])
    ensures dst != null && dst.rdmflg && src != null && src.rdmflg ==>
      dst.storage[..] == old(CopyPage(src.storage[..], srcfpn, dst.storage[..], dstfpn))
    ensures dst != null && dst.rdmflg ==>
      SameOutside(dst.storage[..], old(dst.storage[..]), dstfpn, PAGESZ)
  {
    ghost var from := if src == null then [] else src.storage[..];
    ghost var to := if dst == null then [] else dst.storage[..];
    var cellidx := 0;
    while cellidx < PAGESZ
      invariant 0 <= cellidx <= PAGESZ
      invariant (src != null ==> unchanged(src)) && (dst != null ==> unchanged(dst))
      invariant Copied(src, srcfpn, dst, dstfpn, from, to, cellidx)
    {
      CopyCell(src, srcfpn, dst, dstfpn, cellidx, from, to);
      cellidx := cellidx + 1;
    }
    rc := 0;
  }
}
