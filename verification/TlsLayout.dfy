/**
 Static thread-local storage, Variant II: where the blocks of objects lie below each thread's
 control block, and what they contain (_rtld_tls_offset_allocate,
 _rtld_tls_initial_allocation, _rtld_tls_allocate_locked).
 */
module TlsLayout {
  import opened PowerOfTwo

  const RESERVATION: nat := 64           // RTLD_STATIC_TLS_RESERVATION
  const TCB_ALIGN: nat := 16             // the larger of the alignments of max_align_t and struct tls_tcb

  type Lwp = nat

  /** An object that was given static storage: `offset` below the TCB, with its initial contents. */
  datatype Block = Block(offset: nat, size: nat, align: nat, init: seq<nat>)

  /** The static area of a thread: the bytes that end at its TCB. */
  datatype Area = Area(tcb: nat, bytes: seq<nat>)

  // ---- the layout as a value ------------------------------------------------------------------

  ghost predicate BlockOk(b: Block, top: nat) {
    && |b.init| <= b.size
    && (b.size > 0 ==> IsPow2(b.align) && b.offset % b.align == 0 && b.size <= b.offset <= top)
    && (b.size == 0 ==> b.offset == 0)
  }

  /** Blocks lie one below the other, in the order of allocation, and none below `top`. */
  ghost predicate Stacked(blocks: seq<Block>, top: nat) {
    && (forall i :: 0 <= i < |blocks| ==> BlockOk(blocks[i], top))
    && (forall i, j :: 0 <= i < j < |blocks| && blocks[i].size > 0 && blocks[j].size > 0 ==>
          blocks[i].offset <= blocks[j].offset - blocks[j].size)
  }

  /** The first n blocks need at most this alignment. */
  ghost predicate AlignedTo(blocks: seq<Block>, n: nat, align: nat) {
    n <= |blocks| && forall i :: 0 <= i < n && blocks[i].size > 0 ==> blocks[i].align <= align
  }

  /** Some block asks for this alignment. */
  ghost predicate Asked(blocks: seq<Block>, align: nat) {
    exists i :: 0 <= i < |blocks| && blocks[i].size > 0 && blocks[i].align == align
  }

  lemma AskedMore(blocks: seq<Block>, b: Block, align: nat)
    requires Asked(blocks, align) || (b.size > 0 && b.align == align)
    ensures Asked(blocks + [b], align)
  {
    var more := blocks + [b];
    if Asked(blocks, align) {
      var i :| 0 <= i < |blocks| && blocks[i].size > 0 && blocks[i].align == align;
      assert more[i] == blocks[i];
    } else {
      assert more[|blocks|] == b;
    }
  }

  function Zeros(n: nat): seq<nat> { seq(n, _ => 0) }

  /** The area of a thread: what was never given to an object is still zero. */
  ghost predicate AreaOk(a: Area, space: nat, top: nat, align: nat) {
    && |a.bytes| == space <= a.tcb && top <= space && align > 0 && a.tcb % align == 0
    && a.bytes[..space - top] == Zeros(space - top)
  }

  /** The contents of a block in an area. */
  function Contents(bytes: seq<nat>, b: Block): seq<nat>
    requires b.size <= b.offset <= |bytes|
  {
    bytes[|bytes| - b.offset..|bytes| - b.offset + b.size]
  }

  /** The whole state; startAlign and startBlocks are what was fixed at startup. */
  datatype State = State(offset: nat, space: nat, maxAlign: nat, blocks: seq<Block>, areas: map<Lwp, Area>,
                         startAlign: nat, startBlocks: nat)

  ghost predicate Sound(s: State) {
    && IsPow2(s.maxAlign) && Stacked(s.blocks, s.offset)
    && AlignedTo(s.blocks, |s.blocks|, s.maxAlign) && (s.space == 0 ==> s.areas == map[])
    && (s.space > 0 ==> Started(s))
  }

  ghost predicate Started(s: State) {
    && IsPow2(s.startAlign) && s.startAlign <= s.maxAlign && s.offset <= s.space && s.space % s.startAlign == 0
    && AlignedTo(s.blocks, s.startBlocks, s.startAlign) && (s.maxAlign == s.startAlign || Asked(s.blocks, s.maxAlign))
    && (forall i :: s.startBlocks <= i < |s.blocks| ==> s.blocks[i].init == [])
    && (forall t :: t in s.areas ==> AreaOk(s.areas[t], s.space, s.offset, s.startAlign))
  }

  lemma PushBlock(blocks: seq<Block>, top: nat, b: Block)
    requires Stacked(blocks, top) && BlockOk(b, b.offset) && (b.size > 0 ==> top <= b.offset - b.size)
    ensures Stacked(blocks + [b], if b.size == 0 then top else b.offset)
  {}

  /** A block below everything allocated so far is still zero in every area. */
  lemma FreshIsZero(a: Area, space: nat, top: nat, align: nat, b: Block)
    requires AreaOk(a, space, top, align) && top <= b.offset - b.size && b.size <= b.offset <= space
    ensures Contents(a.bytes, b) == Zeros(b.size)
  {}

  lemma AreaShrinks(a: Area, space: nat, top: nat, align: nat, top': nat)
    requires AreaOk(a, space, top, align) && top <= top' <= space
    ensures AreaOk(a, space, top', align)
  {}

  function Allocated(s: State, b: Block): State {
    s.(offset := if b.size == 0 then s.offset else b.offset,
       maxAlign := if b.size > 0 && b.align > s.maxAlign then b.align else s.maxAlign,
       blocks := s.blocks + [b])
  }

  /** What one allocation does to one area. */
  lemma AllocatedArea(s: State, b: Block, t: Lwp)
    requires Sound(s) && s.space > 0 && t in s.areas && b.init == []
    requires b.size > 0 ==> s.offset <= b.offset - b.size && b.offset <= s.space
    requires b.size == 0 ==> b.offset == 0
    ensures AreaOk(s.areas[t], s.space, Allocated(s, b).offset, s.startAlign)
    ensures b.size <= b.offset <= |s.areas[t].bytes| && Contents(s.areas[t].bytes, b) == Zeros(b.size)
  {
    assert AreaOk(s.areas[t], s.space, s.offset, s.startAlign);
    hide Sound, IsPow2;
    AreaShrinks(s.areas[t], s.space, s.offset, s.startAlign, Allocated(s, b).offset);
    if b.size > 0 { FreshIsZero(s.areas[t], s.space, s.offset, s.startAlign, b); }
  }

  lemma AllocatedStarted(s: State, b: Block)
    requires Sound(s) && s.space > 0 && b.init == [] &&
             (b.size > 0 ==> s.offset <= b.offset - b.size && b.offset <= s.space && IsPow2(b.align))
    requires b.size == 0 ==> b.offset == 0
    ensures Started(Allocated(s, b))
  {
    var s' := Allocated(s, b);
    assert Started(s);
    if s'.maxAlign != s.startAlign { AskedMore(s.blocks, b, s'.maxAlign); }
    forall t | t in s.areas ensures AreaOk(s.areas[t], s.space, s'.offset, s.startAlign) { AllocatedArea(s, b, t); }
    hide Sound, AreaOk, IsPow2, Asked, Stacked;
  }

  lemma AllocatedSound(s: State, b: Block)
    requires Sound(s) && BlockOk(b, b.offset) && (b.size > 0 ==> s.offset <= b.offset - b.size)
    requires s.space > 0 ==> b.init == [] && (b.size > 0 ==> b.offset <= s.space)
    ensures Sound(Allocated(s, b))
    ensures s.space > 0 ==>
              forall t ::
                t in s.areas ==> b.offset <= |s.areas[t].bytes| && Contents(s.areas[t].bytes, b) == Zeros(b.size)
  {
    PushBlock(s.blocks, s.offset, b);
    if s.space > 0 {
      AllocatedStarted(s, b);
      forall t | t in s.areas
        ensures b.offset <= |s.areas[t].bytes| && Contents(s.areas[t].bytes, b) == Zeros(b.size)
      {
        AllocatedArea(s, b, t);
      }
    }
    hide IsPow2, BlockOk, Started, Stacked, Contents, Zeros;
  }

  class Layout {
    var staticOffset: nat                // _rtld_tls_static_offset
    var staticSpace: nat                 // _rtld_tls_static_space, 0 until startup is over
    var maxAlign: nat                    // _rtld_tls_static_max_align
    var blocks: seq<Block>               // everything that ever got static storage
    var areas: map<Lwp, Area>            // the threads
    ghost var startAlign: nat
    ghost var startBlocks: nat

    ghost function Now(): State
      reads this
    {
      State(staticOffset, staticSpace, maxAlign, blocks, areas, startAlign, startBlocks)
    }

    ghost predicate Valid()
      reads this
    {
      Sound(Now())
    }

    constructor ()
      ensures Valid() && blocks == [] && areas == map[] && staticSpace == 0 && staticOffset == 0 &&
              maxAlign == TCB_ALIGN
    {
      staticOffset, staticSpace, maxAlign, blocks, areas := 0, 0, TCB_ALIGN, [], map[];
      startAlign, startBlocks := 1, 0;
      new;
      assert IsPow2(16) by { assert IsPow2(8) by { assert IsPow2(4) by { assert IsPow2(2); } } }
    }

    /** _rtld_tls_offset_allocate for an object that has neither static nor dynamic storage yet. */
    method OffsetAllocate(size: nat, align: nat, init: seq<nat>) returns (status: int, offset: nat)
      requires Valid() && |init| <= size && (size > 0 ==> IsPow2(align))
      modifies this`staticOffset, this`maxAlign, this`blocks
      ensures Valid()
      ensures status ==
              if size > 0 && staticSpace > 0 &&
                 (init != [] || RoundUp(old(staticOffset) + size, align) > staticSpace) then -1
              else 0
      ensures status == -1 ==> unchanged(this)
      ensures status == 0 ==> offset == if size == 0 then 0 else RoundUp(old(staticOffset) + size, align)
      ensures status == 0 ==> Now() == Allocated(old(Now()), Block(offset, size, align, init))
      ensures status == 0 && staticSpace > 0 ==>
                forall t ::
                  t in areas ==>
                    size <= offset <= |areas[t].bytes| &&
                    Contents(areas[t].bytes, blocks[|blocks| - 1]) == Zeros(size)
    {
      hide Sound;
      if size == 0 {
        AllocatedSound(Now(), Block(0, 0, align, init));
        blocks := blocks + [Block(0, 0, align, init)];
        return 0, 0;
      }
      offset := RoundUp(staticOffset + size, align);
      RoundUpIs(staticOffset + size, align);
      if staticSpace > 0 {
        if init != [] { return -1, 0; }
        if offset > staticSpace { return -1, 0; }
      }
      AllocatedSound(Now(), Block(offset, size, align, init));
      if align > maxAlign { maxAlign := align; }
      staticOffset := offset;
      blocks := blocks + [Block(offset, size, align, init)];
      status := 0;
    }

    /** _rtld_tls_initial_allocation: the size of the area is fixed and the first thread gets one. */
    method InitialAllocation(t: Lwp, p: nat, objlist: seq<nat>)
      requires Valid() && staticSpace == 0 && p % maxAlign == 0 && ObjsOf(objlist, blocks)
      modifies this`staticSpace, this`areas, this`startAlign, this`startBlocks
      ensures Valid() && staticSpace == RoundUp(staticOffset + RESERVATION, maxAlign) && startBlocks == |blocks| &&
              startAlign == maxAlign
      ensures t in areas && areas.Keys == {t} && areas[t].tcb == p + staticSpace &&
              Initialised(areas[t].bytes, blocks, objlist)
      ensures staticSpace % maxAlign == 0
    {
      RoundUpIs(staticOffset + RESERVATION, maxAlign);
      staticSpace := RoundUp(staticOffset + RESERVATION, maxAlign);
      startAlign, startBlocks := maxAlign, |blocks|;
      AllocateThread(t, p, objlist);
    }

    /**
     _rtld_tls_allocate_locked: p is aligned memory for the area and the TCB; objlist are the
     static objects loaded now.
     */
    method AllocateThread(t: Lwp, p: nat, objlist: seq<nat>)
      requires Valid() && staticSpace > 0 && p % maxAlign == 0 && ObjsOf(objlist, blocks)
      modifies this`areas
      ensures Valid() && areas.Keys == old(areas.Keys) + {t} &&
              forall u :: u in old(areas) && u != t ==> areas[u] == old(areas)[u]
      ensures areas[t].tcb == p + staticSpace && Initialised(areas[t].bytes, blocks, objlist)
      ensures forall i :: 0 <= i < |blocks| && blocks[i].size > 0 ==>
                blocks[i].align > 0 && (AlignedAt(areas[t].tcb, blocks[i]) <==> staticSpace % blocks[i].align == 0)
    {
      SoundParts(Now());
      NewThreadAligned(Now(), p);
      hide Sound, Stacked, Contents, Zeros, Initialised;
      var bytes := Zeros(staticSpace);
      BlankArea(staticSpace, staticOffset, blocks, objlist);
      for k := 0 to |objlist|
        modifies {}
        invariant |bytes| == staticSpace && Initialised(bytes, blocks, objlist[..k])
        invariant bytes[..staticSpace - staticOffset] == Zeros(staticSpace - staticOffset)
        invariant forall j ::
                    k <= j < |objlist| ==> Contents(bytes, blocks[objlist[j]]) == Zeros(blocks[objlist[j]].size)
      {
        var b := blocks[objlist[k]];
        CopyInit(bytes, blocks, staticOffset, objlist, k);
        bytes := Copied(bytes, b);
      }
      assert objlist[..|objlist|] == objlist;
      NewAreaSound(Now(), t, p, bytes);
      areas := areas[t := Area(p + staticSpace, bytes)];
    }

    /** A thread writes to its own copy of an object's variables. */
    method Write(t: Lwp, i: nat, at: nat, v: nat)
      requires Valid() && t in areas && i < |blocks| && at < blocks[i].size
      modifies this`areas
      ensures Valid() && areas.Keys == old(areas.Keys) && forall u :: u in areas && u != t ==> areas[u] == old(areas)[u]
      ensures blocks[i].offset <= staticSpace &&
              areas[t] == old(areas[t]).(bytes := old(areas[t].bytes)[staticSpace - blocks[i].offset + at := v])
    {
      var a, b := areas[t], blocks[i];
      assert BlockOk(b, staticOffset) && AreaOk(a, staticSpace, staticOffset, startAlign);
      var bytes := a.bytes[staticSpace - b.offset + at := v];
      assert bytes[..staticSpace - staticOffset] == a.bytes[..staticSpace - staticOffset];
      areas := areas[t := a.(bytes := bytes)];
    }
  }

  // ---- filling an area ------------------------------------------------------------------------

  /** Distinct objects that have static storage. */
  ghost predicate ObjsOf(objlist: seq<nat>, blocks: seq<Block>) {
    && (forall k :: 0 <= k < |objlist| ==> objlist[k] < |blocks|)
    && (forall j, k :: 0 <= j < k < |objlist| ==> objlist[j] != objlist[k])
  }

  /** The initial contents of a block: its image followed by zeros. */
  function Image(b: Block): seq<nat>
    requires |b.init| <= b.size
  {
    b.init + Zeros(b.size - |b.init|)
  }

  /** Block i holds its image. */
  ghost predicate Holds(bytes: seq<nat>, blocks: seq<Block>, i: nat) {
    i < |blocks| && |blocks[i].init| <= blocks[i].size <= blocks[i].offset <= |bytes| &&
    Contents(bytes, blocks[i]) == Image(blocks[i])
  }

  /** The blocks of these objects hold their images. */
  ghost predicate Initialised(bytes: seq<nat>, blocks: seq<Block>, objlist: seq<nat>) {
    forall i :: i in objlist ==> Holds(bytes, blocks, i)
  }

  lemma NewAreaSound(s: State, t: Lwp, p: nat, bytes: seq<nat>)
    requires Sound(s) && s.space > 0 && |bytes| == s.space && s.offset <= s.space &&
             bytes[..s.space - s.offset] == Zeros(s.space - s.offset)
    requires p % s.maxAlign == 0
    ensures Sound(s.(areas := s.areas[t := Area(p + s.space, bytes)]))
  {
    TcbAligned(p, s.space, s.maxAlign, s.startAlign);
    assert AreaOk(Area(p + s.space, bytes), s.space, s.offset, s.startAlign);
    hide AreaOk, IsPow2, Stacked;
  }

  /** memcpy of the image to the block. */
  function Copied(bytes: seq<nat>, b: Block): seq<nat>
    requires |b.init| <= b.size <= b.offset <= |bytes|
  {
    var q := |bytes| - b.offset;
    bytes[..q] + b.init + bytes[q + |b.init|..]
  }

  lemma SoundParts(s: State)
    requires Sound(s)
    ensures Stacked(s.blocks, s.offset) && (s.space > 0 ==> s.offset <= s.space) && s.maxAlign > 0
    ensures forall i :: 0 <= i < |s.blocks| ==> |s.blocks[i].init| <= s.blocks[i].size <= s.blocks[i].offset <= s.offset
  {}

  lemma BlankArea(space: nat, top: nat, blocks: seq<Block>, objlist: seq<nat>)
    requires Stacked(blocks, top) && top <= space && ObjsOf(objlist, blocks)
    ensures |Zeros(space)| == space && Initialised(Zeros(space), blocks, []) &&
            Zeros(space)[..space - top] == Zeros(space - top)
    ensures forall i :: 0 <= i < |blocks| ==> |blocks[i].init| <= blocks[i].size <= blocks[i].offset <= space
    ensures forall j ::
              0 <= j < |objlist| ==> Contents(Zeros(space), blocks[objlist[j]]) == Zeros(blocks[objlist[j]].size)
  {}

  lemma CopiedBlock(bytes: seq<nat>, b: Block)
    requires |b.init| <= b.size <= b.offset <= |bytes| && Contents(bytes, b) == Zeros(b.size)
    ensures |Copied(bytes, b)| == |bytes| && Contents(Copied(bytes, b), b) == Image(b)
  {
    var c, q := Contents(Copied(bytes, b), b), |bytes| - b.offset;
    forall k | 0 <= k < b.size ensures c[k] == Image(b)[k] {
      if k >= |b.init| { assert c[k] == bytes[q + k] == Contents(bytes, b)[k]; }
    }
  }

  lemma CopiedElsewhere(bytes: seq<nat>, b: Block, c: Block)
    requires |b.init| <= b.size <= b.offset <= |bytes| && c.size <= c.offset <= |bytes|
    requires b.offset <= c.offset - c.size || c.offset <= b.offset - b.size || c.size == 0 || b.size == 0
    ensures |Copied(bytes, b)| == |bytes| && Contents(Copied(bytes, b), c) == Contents(bytes, c)
  {}

  /** Copying one image keeps the images copied before, and the blocks still to come are untouched. */
  lemma CopyInit(bytes: seq<nat>, blocks: seq<Block>, top: nat, objlist: seq<nat>, k: nat)
    requires Stacked(blocks, top) && top <= |bytes| && ObjsOf(objlist, blocks) && k < |objlist|
    requires forall i :: 0 <= i < |blocks| ==> |blocks[i].init| <= blocks[i].size <= blocks[i].offset <= top
    requires Initialised(bytes, blocks, objlist[..k])
    requires bytes[..|bytes| - top] == Zeros(|bytes| - top)
    requires forall j :: k <= j < |objlist| ==> Contents(bytes, blocks[objlist[j]]) == Zeros(blocks[objlist[j]].size)
    ensures var bytes' := Copied(bytes, blocks[objlist[k]]);
            && |bytes'| == |bytes| && Initialised(bytes', blocks, objlist[..k + 1])
            && bytes'[..|bytes| - top] == Zeros(|bytes| - top)
            && forall j :: k < j < |objlist| ==> Contents(bytes', blocks[objlist[j]]) == Zeros(blocks[objlist[j]].size)
  {
    hide Contents, Zeros, BlockOk;
    var b := blocks[objlist[k]];
    var bytes' := Copied(bytes, b);
    CopiedBlock(bytes, b);
    CopiedTop(bytes, b, top);
    forall j | 0 <= j < |objlist| && j != k
      ensures Contents(bytes', blocks[objlist[j]]) == Contents(bytes, blocks[objlist[j]])
    {
      hide Copied;
      assert objlist[j] != objlist[k];
      CopiedElsewhere(bytes, b, blocks[objlist[j]]);
    }
    forall i | i in objlist[..k + 1] ensures Holds(bytes', blocks, i) {
      var j :| 0 <= j < k + 1 && objlist[j] == i;
      if j < k { assert objlist[..k][j] == i && Holds(bytes, blocks, i); }
    }
  }

  lemma CopiedTop(bytes: seq<nat>, b: Block, top: nat)
    requires |b.init| <= b.size <= b.offset <= top <= |bytes|
    ensures Copied(bytes, b)[..|bytes| - top] == bytes[..|bytes| - top]
  {}

  lemma TcbAligned(p: nat, space: nat, maxAlign: nat, startAlign: nat)
    requires IsPow2(maxAlign) && IsPow2(startAlign) && startAlign <= maxAlign && p % maxAlign == 0 &&
             space % startAlign == 0
    ensures startAlign > 0 && (p + space) % startAlign == 0
  {
    Pow2Divides(startAlign, maxAlign);
    ModTransitive(p, maxAlign, startAlign);
    SubMultiple(p + space, space, startAlign);
  }

  // ---- the theorems ---------------------------------------------------------------------------

  /** The address of a block in a thread: TCB - tlsoffset. */
  function Address(a: Area, b: Block): int { a.tcb - b.offset }

  /**
   In every thread, the non-empty blocks of any two objects are disjoint and lie inside the
   static area, below the TCB.
   */
  lemma BlocksDisjoint(s: State, t: Lwp, i: nat, j: nat)
    requires Sound(s) && s.space > 0 && t in s.areas && i < j < |s.blocks| && s.blocks[i].size > 0 &&
             s.blocks[j].size > 0
    ensures var a := s.areas[t]; var lo, hi := a.tcb - s.space, a.tcb;
            && lo <= Address(a, s.blocks[j]) && Address(a, s.blocks[j]) + s.blocks[j].size <= Address(a, s.blocks[i])
            && Address(a, s.blocks[i]) + s.blocks[i].size <= hi
  {}

  /**
   The memory p of a thread that was made before a late block was allocated is a multiple of the
   alignment fixed at startup, and otherwise arbitrary.  The block is aligned in every such
   thread if and only if it asks for no more than that alignment.
   */
  lemma AlignedIffEarlyAlign(s: State, i: nat)
    requires Sound(s) && s.space > 0 && i < |s.blocks| && s.blocks[i].size > 0
    ensures s.blocks[i].align > 0
    ensures (forall p: nat :: p % s.startAlign == 0 ==> AlignedAt(p + s.space, s.blocks[i])) <==>
              s.blocks[i].align <= s.startAlign
  {
    var b := s.blocks[i];
    assert BlockOk(b, s.offset);
    if b.align <= s.startAlign {
      forall p: nat | p % s.startAlign == 0 ensures AlignedAt(p + s.space, b) {
        AddDivisible(p, s.space, s.startAlign);
        MultipleAligned(p + s.space, s.startAlign, b);
      }
    } else {
      MultipleMod(s.startAlign, 0);
      MultipleMod(s.startAlign, 1);
      NotBoth(s.space, s.startAlign, b);
    }
  }

  /** The block is aligned below a TCB at this address. */
  predicate AlignedAt(tcb: nat, b: Block) { b.align > 0 && (tcb - b.offset) % b.align == 0 }

  lemma MultipleAligned(tcb: nat, align: nat, b: Block)
    requires IsPow2(align) && IsPow2(b.align) && b.align <= align && tcb % align == 0 && b.offset % b.align == 0
    ensures AlignedAt(tcb, b)
  {
    Pow2Divides(b.align, align);
    ModTransitive(tcb, align, b.align);
    SubMultiple(tcb, b.offset, b.align);
  }

  /** Two addresses less than an alignment apart are not both aligned. */
  lemma NotBoth(space: nat, step: nat, b: Block)
    requires 0 < step < b.align
    ensures !(AlignedAt(0 + space, b) && AlignedAt(step + space, b))
  {
    var x := space - b.offset;
    if x % b.align == 0 {
      DivModUnique(x + step, b.align, x / b.align, step);
    }
  }

  /** Blocks from before startup are aligned in every thread, and so are those within the startup alignment. */
  lemma BlockAligned(s: State, t: Lwp, i: nat)
    requires Sound(s) && s.space > 0 && t in s.areas && i < |s.blocks| && s.blocks[i].size > 0
    ensures i < s.startBlocks || s.blocks[i].align <= s.startAlign ==> AlignedAt(s.areas[t].tcb, s.blocks[i])
  {
    var a, b := s.areas[t], s.blocks[i];
    assert BlockOk(b, s.offset) && AreaOk(a, s.space, s.offset, s.startAlign);
    if b.align <= s.startAlign { MultipleAligned(a.tcb, s.startAlign, b); }
  }

  /**
   A thread made now gets memory that is a multiple of the present maximum: its blocks are
   aligned exactly if the size of the area is a multiple of their alignment, and all of them are
   exactly if the assertion on entry holds, that it is a multiple of the maximum.
   */
  lemma NewThreadAligned(s: State, p: nat)
    requires Sound(s) && s.space > 0 && p % s.maxAlign == 0
    ensures s.maxAlign > 0
    ensures forall i :: 0 <= i < |s.blocks| && s.blocks[i].size > 0 ==>
              s.blocks[i].align > 0 && (AlignedAt(p + s.space, s.blocks[i]) <==> s.space % s.blocks[i].align == 0)
    ensures s.space % s.maxAlign == 0 <==>
              forall i :: 0 <= i < |s.blocks| && s.blocks[i].size > 0 ==> AlignedAt(p + s.space, s.blocks[i])
  {
    forall i | 0 <= i < |s.blocks| && s.blocks[i].size > 0
      ensures s.blocks[i].align > 0 && (AlignedAt(p + s.space, s.blocks[i]) <==> s.space % s.blocks[i].align == 0)
      ensures s.space % s.maxAlign == 0 ==> AlignedAt(p + s.space, s.blocks[i])
    {
      NewBlockAligned(s, p, i);
    }
    if s.maxAlign != s.startAlign {
      var i :| 0 <= i < |s.blocks| && s.blocks[i].size > 0 && s.blocks[i].align == s.maxAlign;
    }
  }

  lemma NewBlockAligned(s: State, p: nat, i: nat)
    requires Sound(s) && p % s.maxAlign == 0 && i < |s.blocks| && s.blocks[i].size > 0
    ensures var b := s.blocks[i];
            && b.align > 0 && (AlignedAt(p + s.space, b) <==> s.space % b.align == 0)
            && (s.space % s.maxAlign == 0 ==> AlignedAt(p + s.space, b))
  {
    var b := s.blocks[i];
    assert BlockOk(b, s.offset) && b.align <= s.maxAlign;
    Pow2Divides(b.align, s.maxAlign);
    ModTransitive(p, s.maxAlign, b.align);
    AddDivisible(s.space, p, b.align);
    SubMultiple(p + s.space, b.offset, b.align);
    if s.space % s.maxAlign == 0 { ModTransitive(s.space, s.maxAlign, b.align); }
  }

  /**
   A late object that wants more than the alignment fixed at startup, misaligned in the thread
   that was there, although its allocation succeeded.
   */
  method LateAlignmentFails() returns (l: Layout)
    ensures l.Valid() && 1 in l.areas && |l.blocks| == 1 && l.blocks[0].size > 0 &&
            !AlignedAt(l.areas[1].tcb, l.blocks[0])
  {
    hide Sound, RoundUp, Initialised, IsPow2, Contents, Zeros;
    l := new Layout();
    l.InitialAllocation(1, 16, []);
    SmallNumbers();
    var status, offset := l.OffsetAllocate(8, 64, []);
    assert l.blocks == [Block(64, 8, 64, [])];
  }

  lemma SmallNumbers()
    ensures RoundUp(RESERVATION, 16) == 64 && RoundUp(8, 64) == 64 && IsPow2(64)
  {
    Pow2IsPow2(6);
    assert Pow2(6) == 64;
  }
}
