/** Free and held frame numbers of a device, and the bytes of its frames, as values. */
module Frames {
  import opened Numbers

  // PAGING_PAGESZ
  const PAGESZ: nat := 256

  // BYTE, a signed char.
  newtype byte = x: int | -128 <= x < 128

  // ---------- frame numbers ----------

  /** The free list has no duplicates, shares nothing with the held frames, and together they
      are exactly the frames 0 .. n-1. */
  ghost predicate Partition(free: seq<int>, held: set<int>, n: int) {
    && (forall i, j :: 0 <= i < j < |free| ==> free[i] != free[j])
    && (forall f :: f in free ==> f !in held)
    && (forall f :: 0 <= f < n <==> f in free || f in held)
  }

  lemma FormatPartitions(n: nat)
    ensures Partition(UpTo(n), {}, n)
  {
    forall f ensures 0 <= f < n <==> f in UpTo(n) {
      if 0 <= f < n { assert UpTo(n)[f] == f; }
    }
  }

  lemma TakePartitions(free: seq<int>, held: set<int>, n: int)
    requires Partition(free, held, n) && free != []
    ensures Partition(free[1..], held + {free[0]}, n)
  {
    assert free == [free[0]] + free[1..];
  }

  /** Returning a frame keeps the partition exactly when the frame is held. */
  lemma ReturnPartitions(free: seq<int>, held: set<int>, n: int, f: int)
    requires Partition(free, held, n)
    ensures Partition([f] + free, held - {f}, n) <==> f in held
  {
    var free' := [f] + free;
    assert f in free';
    if f in held {
      forall i, j | 0 <= i < j < |free'| ensures free'[i] != free'[j] {
        assert free'[j] == free[j - 1] && free[j - 1] in free;
      }
    } else if f in free {
      var k :| 0 <= k < |free| && free[k] == f;
      assert free'[0] == free'[k + 1];
    }
  }

  /** Every frame of a device of maxsz bytes lies inside its storage. */
  lemma FrameInside(free: seq<int>, held: set<int>, maxsz: nat, pagesz: nat, f: int)
    requires pagesz > 0 && Partition(free, held, maxsz / pagesz) && (f in free || f in held)
    ensures 0 <= f * pagesz && (f + 1) * pagesz <= maxsz
  {
    var n := maxsz / pagesz;
    assert 0 <= f && f + 1 <= n;
    MulMonotone(f + 1, n, pagesz);
  }

  // ---------- frame contents ----------

  predicate IsFrame(storage: seq<byte>, f: int) {
    0 <= f && (f + 1) * PAGESZ <= |storage|
  }

  function Page(storage: seq<byte>, f: int): (page: seq<byte>)
    requires IsFrame(storage, f)
  {
    storage[f * PAGESZ..(f + 1) * PAGESZ]
  }

  /** The storage of the destination after the page of the source frame is copied into it. */
  function CopyPage(src: seq<byte>, s: int, dst: seq<byte>, d: int): (r: seq<byte>)
    requires IsFrame(src, s) && IsFrame(dst, d)
    ensures |r| == |dst|
  {
    CopyUpTo(src, s, dst, d, PAGESZ)
  }

  // The same after the first c bytes.
  function CopyUpTo(src: seq<byte>, s: int, dst: seq<byte>, d: int, c: nat): (r: seq<byte>)
    requires IsFrame(src, s) && IsFrame(dst, d) && c <= PAGESZ
    ensures |r| == |dst|
  {
    dst[..d * PAGESZ] + src[s * PAGESZ..s * PAGESZ + c] + dst[d * PAGESZ + c..]
  }

  // All bytes but the first c of frame f are as in `was`.
  predicate SameOutside(now: seq<byte>, was: seq<byte>, f: int, c: nat) {
    && |now| == |was|
    && forall i :: 0 <= i < |now| && !(f * PAGESZ <= i < f * PAGESZ + c) ==> now[i] == was[i]
  }

  lemma SameOutsideNext(now: seq<byte>, was: seq<byte>, f: int, c: nat, b: byte)
    requires IsFrame(was, f) && c < PAGESZ && SameOutside(now, was, f, c)
    ensures SameOutside(now[f * PAGESZ + c := b], was, f, c + 1)
  {
  }

  lemma CopyNext(src: seq<byte>, s: int, dst: seq<byte>, d: int, c: nat)
    requires IsFrame(src, s) && IsFrame(dst, d) && c < PAGESZ
    ensures CopyUpTo(src, s, dst, d, c)[d * PAGESZ + c := src[s * PAGESZ + c]]
         == CopyUpTo(src, s, dst, d, c + 1)
  {
  }

  /** Copying inside one device never overwrites a byte of the source frame that is still to be
      read, whether the two frames are equal or not. */
  lemma CopyAhead(dev: seq<byte>, s: int, d: int, c: nat)
    requires IsFrame(dev, s) && IsFrame(dev, d) && c < PAGESZ
    ensures CopyUpTo(dev, s, dev, d, c)[s * PAGESZ + c] == dev[s * PAGESZ + c]
  {
  }

  /** A copied page, byte by byte. */
  lemma CopyPageBytes(src: seq<byte>, s: int, dst: seq<byte>, d: int, i: nat)
    requires IsFrame(src, s) && IsFrame(dst, d) && i < |dst|
    ensures CopyPage(src, s, dst, d)[i] ==
      if d * 256 <= i < d * 256 + 256 then src[s * 256 + (i - d * 256)] else dst[i]
  {
  }

  /** The frames that can be copied are those that a formatted device of this storage has. */
  lemma IsFrameMeans(storage: seq<byte>, f: int)
    ensures IsFrame(storage, f) <==> 0 <= f < |storage| / 256
  {
  }

  lemma PageBytes(storage: seq<byte>, f: int, i: nat)
    requires IsFrame(storage, f) && i < 256
    ensures |Page(storage, f)| == 256 && Page(storage, f)[i] == storage[f * 256 + i]
  {
  }

  /** The copied page is there, and every other frame, in whole or in part, is as before. */
  lemma CopyPageMeans(src: seq<byte>, s: int, dst: seq<byte>, d: int, f: int)
    requires IsFrame(src, s) && IsFrame(dst, d) && IsFrame(dst, f)
    ensures Page(CopyPage(src, s, dst, d), f) == if f == d then Page(src, s) else Page(dst, f)
  {
    var r := CopyPage(src, s, dst, d);
    if f == d {
    } else if f < d {
      MulMonotone(f + 1, d, PAGESZ);
    } else {
      MulMonotone(d + 1, f, PAGESZ);
    }
  }

  /** Swapping a page out to a frame of another device and back in again restores it, even when
      the frame it came from has been overwritten and whatever else was stored meanwhile. */
  lemma SwapOutThenIn(ram: seq<byte>, v: int, swp: seq<byte>, f: int, later: seq<byte>, w: int)
    requires IsFrame(ram, v) && IsFrame(swp, f) && IsFrame(later, w)
    ensures var swp' := CopyPage(ram, v, swp, f);
      Page(CopyPage(swp', f, later, w), w) == Page(ram, v)
  {
    CopyPageMeans(ram, v, swp, f, f);
    CopyPageMeans(CopyPage(ram, v, swp, f), f, later, w, w);
  }
}
