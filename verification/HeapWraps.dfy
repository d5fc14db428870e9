/**
 Two calls of xmalloc_aligned whose pointers xfree cannot find the block of, because the distance
 does not fit the 16-bit index.  Heap.AlignedFreeable says for which alignments that can happen.
 */
module HeapWraps {
  import opened PowerOfTwo
  import opened Bytes
  import opened Options
  import opened Heap

  lemma {:induction false} FitsOnce(nbytes: nat, b: nat, c: nat)
    requires Fits(nbytes, b) && Fits(nbytes, c)
    ensures b == c
  {
    hide Size;
    if b < c - 1 { SizeGrows(b, c - 1); }
    if c < b - 1 { SizeGrows(c, b - 1); }
  }

  /** A request of 65544 or 65545 bytes goes to the bucket of 128 KiB. */
  lemma Bucket14(nbytes: nat)
    requires 65544 <= nbytes <= 65545
    ensures Size(14) == 131072 && Fits(nbytes, 14)
  {
    assert Pow2(10) == 1024;
    assert Pow2(13) == 8192;
  }

  lemma Page4096()
    ensures PageOk(4096) && IsPow2(65536) && IsPow2(32768)
  {
    Pow2IsPow2(12);
    Pow2IsPow2(15);
    Pow2IsPow2(16);
    assert Pow2(10) == 1024;
    assert Pow2(12) == 4096 && Pow2(15) == 32768 && Pow2(16) == 65536;
  }

  const FirstPages: nat := 0x1_0000
  const MorePagesAt: nat := 0x10_0000 - 4096

  /**
   An allocator with pages of 4096 bytes for which mmap will put new pages so that the data of a
   large block starts at 1 MiB.
   */
  method Example(ghost nbytes: nat) returns (a: Allocator)
    requires 65544 <= nbytes <= 65545
    ensures fresh(a) && fresh(a.nextf) && Sound(a.Now()) && a.pagesz == 4096 && a.user == map[] &&
            a.nextf[..] == seq(NBuckets, _ => 0)
    ensures forall b: nat :: b < 29 && Fits(nbytes, b) && a.Now().nextf[b] == 0 ==> a.Granted(b, MorePagesAt)
    ensures a.start <= a.end && PoolStart(a.Now(), 14, MorePagesAt) == 0x10_0000 - 8
  {
    Page4096();
    Bucket14(nbytes);
    hide Sound, PageOk, Fits, Size;
    a := new Allocator(4096, FirstPages, map[], {});
    assert a.Granted(14, MorePagesAt) by { ExampleGranted(a.mapped); }
    forall b: nat | b < 29 && Fits(nbytes, b) && a.Now().nextf[b] == 0
      ensures a.Granted(b, MorePagesAt)
    {
      FitsOnce(nbytes, b, 14);
    }
  }

  lemma ExampleGranted(mapped: set<nat>)
    requires mapped == {} + Range(FirstPages, FirstPages + PoolBytes)
    ensures Amount(14, 4096) == 131072 && Grow(14, 4096) == 163840
    ensures FreshPages(MorePagesAt, 163840, 4096, mapped - Leftover(4096, FirstPages + 4088, FirstPages + PoolBytes))
  {
    Bucket14(65544);
    Page4096();
    hide Size, PageOk;
    GrowIs(14, 4096);
  }

  lemma BoundaryDistance(align: nat, offset: nat)
    requires (align == 65536 && offset == 0) || (align == 32768 && offset == 32760)
    ensures Distance(0x10_0000, align, offset) == align + offset + 8
  {
    assert 0x10_0000 % align == 0 && align % 8 == 0;
    DistanceBound(0x10_0000, align, offset);
  }

  /** Alignment to 64 KiB: the index wraps to 8, xfree takes the inner header for the block's, and the block is lost. */
  method WideAlignmentLeaks() returns (a: Allocator, p: nat, outcome: Outcome)
    ensures Sound(a.Now()) && p in a.user && p - a.user[p].block == 65544 && outcome == Ignored
  {
    hide Sound, Fits, Allocator.Granted, PoolStart, Distance;
    a := Example(65545);
    Page4096();
    Bucket14(65545);
    var r := a.XmallocAligned(1, 65536, 0, MorePagesAt);
    p := r.value;
    FitsOnce(65545, a.blocks[a.user[p].block], 14);
    BoundaryDistance(65536, 0);
    WrapsTo8(a.Now(), p);
    outcome := a.XFree(p);
  }

  lemma WrapsTo8(h: State, p: nat)
    requires Sound(h) && p in h.user && p - h.user[p].block == 65544
    ensures Rejected(h.mem, p)
  {
    hide Size, Load, Geometry, Inventory, PoolZero, AllLinked;
    assert Tagged(h.mem, p, h.user[p], h.blocks[h.user[p].block]);
  }

  method Aligned32K() returns (a: Allocator, p: nat)
    ensures fresh(a) && fresh(a.nextf) && Sound(a.Now()) && p in a.user && a.user[p].size == 8 &&
            p - a.user[p].block == 65536
  {
    hide Sound, Fits, Allocator.Granted, PoolStart, Distance, Load, Kept;
    a := Example(65544);
    Page4096();
    Bucket14(65544);
    var r := a.XmallocAligned(8, 32768, 32760, MorePagesAt);
    p := r.value;
    FitsOnce(65544, a.blocks[a.user[p].block], 14);
    BoundaryDistance(32768, 32760);
  }

  /**
   Alignment to 32 KiB with offset 32760: the index wraps to 0, and xfree takes the caller's own
   bytes for a header.
   */
  method WrappedFreeBogus() returns (a: Allocator, p: nat, outcome: Outcome)
    ensures p in a.user && p - a.user[p].block == 65536 && outcome == Put(p, 0) &&
            forall l :: !Sound(a.Now().(lists := l))
  {
    hide Sound, Load, Kept, Located, Rejected;
    a, p := Aligned32K();
    a.Write(p, 0, 0);
    a.Write(p, 1, 0);
    a.Write(p, 2, Magic);
    WrapsTo0(a.Now(), p);
    outcome := a.XFree(p);
  }

  lemma WrapsTo0(h: State, p: nat)
    requires Sound(h) && p in h.user && p - h.user[p].block == 65536 && At(h.mem, p) == 0 && At(h.mem, p + 1) == 0 &&
             At(h.mem, p + 2) == Magic
    ensures p >= 8 && Located(h.mem, p) == p && Load(h.mem, p, 2) == 0 && !Rejected(h.mem, p)
  {
    hide Size, Geometry, Inventory, PoolZero, AllLinked;
    assert Tagged(h.mem, p, h.user[p], h.blocks[h.user[p].block]);
    LoadZero(h.mem, p, 2);
  }
}
