/**
 The linker's own allocator: power-of-two buckets of blocks with an eight-byte header, carved
 from a pool of mapped pages (imalloc, xmalloc_aligned, morecore, xfree, morepages).
 Memory is modelled byte by byte, little-endian, with the 16-bit index and the 8-bit magic
 number inside the header, so that a stale header or a clobbered link would be seen.
 */
module Heap {
  import opened PowerOfTwo
  import opened Bytes
  import opened Options

  const NBuckets: nat := 30
  const Magic: Byte := 0xef
  const AMagic: Byte := 0xdf
  const PoolBytes: nat := 32768

  // ---- headers ------------------------------------------------------------------------------

  /** A header in use: the index in bytes 0 and 1, the magic number in byte 2, the rest as it was. */
  function SetHeader(m: Mem, a: nat, magic: Byte, index: nat): Mem
  {
    Store(m[a + 2 := magic], a, index, 2)
  }

  lemma HeaderIs(m: Mem, a: nat, magic: Byte, index: nat)
    ensures var m' := SetHeader(m, a, magic, index);
            At(m', a + 2) == magic && Load(m', a, 2) == index % 65536 && SameOutside(m, m', a, a + 8)
  {}

  // ---- the heap as a value ---------------------------------------------------------------------

  /** What a pointer given to a caller stands for: the block under it and the bytes asked for. */
  datatype Alloc = Alloc(block: nat, size: nat)

  /**
   The allocator's variables, and beside them what they stand for: every block ever carved with
   its bucket, the free lists, the pointers that callers hold, and the mapped bytes.
   */
  datatype State = State(page: nat, start: nat, end: nat, mem: Mem, nextf: seq<nat>,
                         blocks: map<nat, nat>, lists: seq<seq<nat>>, user: map<nat, Alloc>, mapped: set<nat>)

  function Size(bucket: nat): (r: nat) ensures r >= 8 { 8 * Pow2(bucket) }

  predicate Apart(a: nat, n: nat, c: nat, m: nat) { a + n <= c || c + m <= a }

  /** The bucket for a request: the least whose blocks hold it past the header. */
  predicate Fits(nbytes: nat, bucket: nat) {
    nbytes + 8 <= Size(bucket) && (bucket > 0 ==> Size(bucket - 1) < nbytes + 8)
  }

  ghost predicate PageOk(page: nat) { 8 <= page <= PoolBytes && IsPow2(page) }

  predicate AllMapped(lo: nat, hi: nat, mapped: set<nat>) { forall x :: lo <= x < hi ==> x in mapped }

  /** The pool starts one header before a page boundary and ends at one. */
  predicate PoolOk(page: nat, start: nat, end: nat, mapped: set<nat>)
    requires page > 0
  {
    0 < start <= end <= AddressTop && (start + 8) % page == 0 && end % page == 0 && AllMapped(start, end, mapped)
  }

  predicate DataAligned(a: nat, bucket: nat, page: nat)
    requires page > 0
  {
    (a + 8) % (if Size(bucket) < page then Size(bucket) else page) == 0
  }

  predicate BlockOk(a: nat, bucket: nat, page: nat, start: nat, end: nat, mapped: set<nat>)
    requires page > 0
  {
    && 0 < a && bucket < 29 && a + Size(bucket) <= AddressTop && DataAligned(a, bucket, page)
    && (a + Size(bucket) <= start || end <= a) && AllMapped(a, a + Size(bucket), mapped)
  }

  ghost predicate Tiled(blocks: map<nat, nat>) {
    forall a, c :: a in blocks && c in blocks && a != c ==> Apart(a, Size(blocks[a]), c, Size(blocks[c]))
  }

  /** Blocks and pool share no byte, and are mapped. */
  ghost predicate Geometry(page: nat, start: nat, end: nat, blocks: map<nat, nat>, mapped: set<nat>) {
    && PageOk(page) && PoolOk(page, start, end, mapped) && Tiled(blocks)
    && forall a :: a in blocks ==> BlockOk(a, blocks[a], page, start, end, mapped)
  }

  ghost predicate Held(user: map<nat, Alloc>, a: nat) { exists p :: p in user && user[p].block == a }

  predicate NoDup(s: seq<nat>) { forall i, j :: 0 <= i < j < |s| ==> s[i] != s[j] }

  predicate OfBucket(blocks: map<nat, nat>, list: seq<nat>, bucket: nat) {
    NoDup(list) && forall k :: 0 <= k < |list| ==> list[k] in blocks && blocks[list[k]] == bucket
  }

  /** Every block is held through exactly one pointer or is once on the list of its own bucket, never both. */
  ghost predicate Inventory(blocks: map<nat, nat>, lists: seq<seq<nat>>, user: map<nat, Alloc>) {
    && |lists| == NBuckets
    && (forall b :: 0 <= b < NBuckets ==> OfBucket(blocks, lists[b], b))
    && (forall p :: p in user ==> user[p].block in blocks)
    && (forall p, q :: p in user && q in user && user[p].block == user[q].block ==> p == q)
    && (forall a :: a in blocks ==> blocks[a] < NBuckets && (a in lists[blocks[a]] <==> !Held(user, a)))
  }

  predicate PoolZero(mem: Mem, start: nat, end: nat) { forall x :: start <= x < end ==> At(mem, x) == 0 }

  function NextOf(list: seq<nat>, k: nat): nat { if k + 1 < |list| then list[k + 1] else 0 }

  /** The links in memory from this head on are the list, ended by NULL. */
  predicate Linked(mem: Mem, head: nat, list: seq<nat>) {
    && head == (if |list| == 0 then 0 else list[0])
    && forall k :: 0 <= k < |list| ==> Load(mem, list[k], 8) == NextOf(list, k)
  }

  predicate AllLinked(mem: Mem, nextf: seq<nat>, lists: seq<seq<nat>>) {
    |nextf| == |lists| == NBuckets && forall b :: 0 <= b < NBuckets ==> Linked(mem, nextf[b], lists[b])
  }

  /**
   The headers under a pointer p: the block's own header is intact, the bytes asked for are
   inside the block, and an aligned pointer has a second header between the two.
   */
  predicate Tagged(mem: Mem, p: nat, u: Alloc, bucket: nat) {
    && u.block + 8 <= p && p + u.size <= u.block + Size(bucket)
    && At(mem, u.block + 2) == Magic && Load(mem, u.block, 2) == bucket
    && (p == u.block + 8 ||
        (u.block + 16 <= p && p + u.size < u.block + Size(bucket) && At(mem, p - 6) == AMagic &&
         Load(mem, p - 8, 2) == (p - u.block) % 65536))
  }

  ghost predicate AllTagged(mem: Mem, blocks: map<nat, nat>, user: map<nat, Alloc>) {
    forall p :: p in user ==> user[p].block in blocks && Tagged(mem, p, user[p], blocks[user[p].block])
  }

  ghost predicate Sound(h: State) {
    && Geometry(h.page, h.start, h.end, h.blocks, h.mapped)
    && Inventory(h.blocks, h.lists, h.user)
    && PoolZero(h.mem, h.start, h.end)
    && AllLinked(h.mem, h.nextf, h.lists)
    && AllTagged(h.mem, h.blocks, h.user)
  }

  /** The bytes behind every pointer but `gone` are as they were. */
  ghost predicate Kept(h: State, h': State, gone: nat) {
    forall p ::
      p in h.user && p != gone ==>
        p in h'.user && h'.user[p] == h.user[p] && SameBytes(h.mem, h'.mem, p, h.user[p].size)
  }

  /** Blocks are never given up or resized. */
  ghost predicate Extends(blocks: map<nat, nat>, blocks': map<nat, nat>) {
    forall a :: a in blocks ==> a in blocks' && blocks'[a] == blocks[a]
  }

  predicate SameBytes(m: Mem, m': Mem, p: nat, size: nat) { forall x :: p <= x < p + size ==> At(m', x) == At(m, x) }

  // ---- what soundness means to callers -------------------------------------------------------

  /** Regions of different pointers, free blocks and the pool are pairwise disjoint. */
  lemma Partition(h: State)
    requires Sound(h)
    ensures forall p, q :: p in h.user && q in h.user && p != q ==> Apart(p, h.user[p].size, q, h.user[q].size)
    ensures forall p, b, k ::
              p in h.user && 0 <= b < NBuckets && 0 <= k < |h.lists[b]| ==>
                Apart(p, h.user[p].size, h.lists[b][k], Size(b))
    ensures forall p :: p in h.user ==> Apart(p, h.user[p].size, h.start, h.end - h.start)
    ensures forall b, k ::
              0 <= b < NBuckets && 0 <= k < |h.lists[b]| ==> Apart(h.lists[b][k], Size(b), h.start, h.end - h.start)
    ensures forall b, k, c, j ::
              0 <= b < NBuckets && 0 <= k < |h.lists[b]| && 0 <= c < NBuckets && 0 <= j < |h.lists[c]| &&
              (b, k) != (c, j) ==>
              Apart(h.lists[b][k], Size(b), h.lists[c][j], Size(c))
  {
    ListCount(h);
    hide Geometry, Inventory, PoolZero, AllLinked, AllTagged, Size, Held;
    forall p | p in h.user ensures Apart(p, h.user[p].size, h.start, h.end - h.start) { InsideBlock(h, p); }
    forall p, q | p in h.user && q in h.user && p != q
      ensures Apart(p, h.user[p].size, q, h.user[q].size)
    {
      PointersApart(h, p, q);
    }
    forall b, k | 0 <= b < NBuckets && 0 <= k < |h.lists[b]|
      ensures Apart(h.lists[b][k], Size(b), h.start, h.end - h.start)
    {
      OnList(h, b, k);
    }
    forall p, b, k | p in h.user && 0 <= b < NBuckets && 0 <= k < |h.lists[b]|
      ensures Apart(p, h.user[p].size, h.lists[b][k], Size(b))
    {
      InsideBlock(h, p);
      OnList(h, b, k);
      HeldBy(h.user, p);
      BlocksApart(h, h.user[p].block, h.lists[b][k]);
    }
    forall b, k, c, j | 0 <= b < NBuckets && 0 <= k < |h.lists[b]| && 0 <= c < NBuckets && 0 <= j < |h.lists[c]| && (b,
        k) != (c, j)
      ensures Apart(h.lists[b][k], Size(b), h.lists[c][j], Size(c))
    {
      OnList(h, b, k);
      OnList(h, c, j);
      NotAmong(h, b, k);
      BlocksApart(h, h.lists[b][k], h.lists[c][j]);
    }
  }

  lemma PointersApart(h: State, p: nat, q: nat)
    requires Sound(h) && p in h.user && q in h.user && p != q
    ensures Apart(p, h.user[p].size, q, h.user[q].size)
  {
    hide Geometry, PoolZero, AllLinked, AllTagged, Size, OfBucket;
    InsideBlock(h, p);
    InsideBlock(h, q);
    BlocksApart(h, h.user[p].block, h.user[q].block);
  }

  lemma InsideBlock(h: State, p: nat)
    requires Sound(h) && p in h.user
    ensures var a := h.user[p].block;
            && a in h.blocks && a + 8 <= p && p + h.user[p].size <= a + Size(h.blocks[a])
            && Apart(a, Size(h.blocks[a]), h.start, h.end - h.start)
  {
    hide Inventory, AllLinked, PoolZero, Size, Load;
    assert Tagged(h.mem, p, h.user[p], h.blocks[h.user[p].block]);
    assert BlockOk(h.user[p].block, h.blocks[h.user[p].block], h.page, h.start, h.end, h.mapped);
  }

  lemma BlocksApart(h: State, a: nat, c: nat)
    requires Sound(h) && a in h.blocks && c in h.blocks && a != c
    ensures Apart(a, Size(h.blocks[a]), c, Size(h.blocks[c]))
  {
    hide Inventory, AllLinked, AllTagged, PoolZero, Size, BlockOk, PoolOk;
  }

  lemma OnList(h: State, b: nat, k: nat)
    requires Sound(h) && b < NBuckets && k < |h.lists[b]|
    ensures var a := h.lists[b][k];
            && a in h.blocks && h.blocks[a] == b && !Held(h.user, a) && a > 0
            && Apart(a, Size(b), h.start, h.end - h.start)
  {
    hide AllLinked, AllTagged, PoolZero, Size, Held;
    var a := h.lists[b][k];
    assert OfBucket(h.blocks, h.lists[b], b);
    assert a in h.lists[b];
    assert BlockOk(a, h.blocks[a], h.page, h.start, h.end, h.mapped);
  }

  // ---- frames ------------------------------------------------------------------------------------

  lemma LinkedKept(m: Mem, m': Mem, head: nat, list: seq<nat>)
    requires Linked(m, head, list)
    requires forall k :: 0 <= k < |list| ==> SameBytes(m, m', list[k], 8)
    ensures Linked(m', head, list)
  {}

  lemma TaggedKept(m: Mem, m': Mem, p: nat, u: Alloc, bucket: nat)
    requires Tagged(m, p, u, bucket)
    requires forall x :: u.block <= x < p ==> At(m', x) == At(m, x)
    ensures Tagged(m', p, u, bucket)
  {}

  /**
   A write inside block `a` is not seen by the pool, by the other blocks' links, or through other
   blocks' pointers.
   */
  lemma WriteInside(h: State, m': Mem, a: nat)
    requires Sound(h) && a in h.blocks && SameOutside(h.mem, m', a, a + Size(h.blocks[a]))
    ensures PoolZero(m', h.start, h.end)
    ensures forall b :: 0 <= b < NBuckets && a !in h.lists[b] ==> Linked(m', h.nextf[b], h.lists[b])
    ensures forall b, k ::
              0 <= b < NBuckets && 0 <= k < |h.lists[b]| && h.lists[b][k] != a ==>
                Load(m', h.lists[b][k], 8) == NextOf(h.lists[b], k)
    ensures forall p :: p in h.user && h.user[p].block != a ==>
              Tagged(m', p, h.user[p], h.blocks[h.user[p].block]) && SameBytes(h.mem, m', p, h.user[p].size)
  {
    hide Size, Load;
    assert BlockOk(a, h.blocks[a], h.page, h.start, h.end, h.mapped);
    forall b, k | 0 <= b < NBuckets && 0 <= k < |h.lists[b]| && h.lists[b][k] != a
      ensures SameBytes(h.mem, m', h.lists[b][k], 8) && Load(m', h.lists[b][k], 8) == NextOf(h.lists[b], k)
    {
      OtherList(h, m', a, b, k);
    }
    forall b | 0 <= b < NBuckets && a !in h.lists[b] ensures Linked(m', h.nextf[b], h.lists[b]) {
      LinkedKept(h.mem, m', h.nextf[b], h.lists[b]);
    }
    forall p | p in h.user && h.user[p].block != a
      ensures Tagged(m', p, h.user[p], h.blocks[h.user[p].block]) && SameBytes(h.mem, m', p, h.user[p].size)
    {
      OtherUser(h, m', a, p);
    }
  }

  lemma OtherList(h: State, m': Mem, a: nat, b: nat, k: nat)
    requires Sound(h) && a in h.blocks && SameOutside(h.mem, m', a, a + Size(h.blocks[a]))
    requires b < NBuckets && k < |h.lists[b]| && h.lists[b][k] != a
    ensures SameBytes(h.mem, m', h.lists[b][k], 8) && Load(m', h.lists[b][k], 8) == NextOf(h.lists[b], k)
  {
    hide Size, Load, Geometry, Inventory, AllTagged, PoolZero, NextOf;
    OnList(h, b, k);
    BlocksApart(h, a, h.lists[b][k]);
    assert Linked(h.mem, h.nextf[b], h.lists[b]);
    LoadFrame(h.mem, m', h.lists[b][k], 8);
  }

  lemma OtherUser(h: State, m': Mem, a: nat, p: nat)
    requires Sound(h) && a in h.blocks && SameOutside(h.mem, m', a, a + Size(h.blocks[a]))
    requires p in h.user && h.user[p].block != a
    ensures h.user[p].block in h.blocks && Tagged(m', p, h.user[p], h.blocks[h.user[p].block]) &&
            SameBytes(h.mem, m', p, h.user[p].size)
  {
    hide Size, Load, Geometry, Inventory, AllLinked, PoolZero, Tagged;
    InsideBlock(h, p);
    BlocksApart(h, a, h.user[p].block);
    TaggedKept(h.mem, m', p, h.user[p], h.blocks[h.user[p].block]);
  }

  /** No pointer to another block points into block `a` past its header, nor just behind it. */
  lemma NotPointedAt(h: State, a: nat, p: nat)
    requires Sound(h) && a in h.blocks && a + 8 <= p <= a + Size(h.blocks[a]) && p in h.user
    ensures h.user[p].block == a
  {
    hide Size, Load, Geometry, Inventory, AllLinked, PoolZero, AllTagged;
    InsideBlock(h, p);
    if h.user[p].block != a { BlocksApart(h, a, h.user[p].block); }
  }

  // ---- a block is taken from its list -----------------------------------------------------------

  function Taken(h: State, b: nat, nbytes: nat): State
    requires b < |h.nextf| && b < |h.lists| && |h.lists[b]| > 0
  {
    var op := h.nextf[b];
    h.(mem := SetHeader(h.mem, op, Magic, b), nextf := h.nextf[b := Load(h.mem, op, 8)],
       lists := h.lists[b := h.lists[b][1..]], user := h.user[op + 8 := Alloc(op, nbytes)])
  }

  lemma TakenInventory(blocks: map<nat, nat>, lists: seq<seq<nat>>, user: map<nat, Alloc>, b: nat, p: nat, u: Alloc)
    requires Inventory(blocks, lists, user) && b < NBuckets && |lists[b]| > 0 && u.block == lists[b][0] && p !in user
    ensures Inventory(blocks, lists[b := lists[b][1..]], user[p := u])
  {
    var lists', user' := lists[b := lists[b][1..]], user[p := u];
    assert OfBucket(blocks, lists[b], b);
    assert lists[b][0] in lists[b];
    forall c | 0 <= c < NBuckets ensures OfBucket(blocks, lists'[c], c) { assert OfBucket(blocks, lists[c], c); }
    forall a | a in blocks ensures a in lists'[blocks[a]] <==> !Held(user', a) {
      HeldAdd(user, p, u, a);
      if blocks[a] == b { assert a in lists[b] <==> a == u.block || a in lists'[b]; }
    }
    forall q | q in user ensures user[q].block != u.block { HeldBy(user, q); }
  }

  lemma HeldAdd(user: map<nat, Alloc>, p: nat, u: Alloc, a: nat)
    requires p !in user
    ensures Held(user[p := u], a) <==> Held(user, a) || a == u.block
  {
    var user' := user[p := u];
    if Held(user, a) { var q :| q in user && user[q].block == a; assert q in user' && user'[q].block == a; }
    if a == u.block { assert p in user' && user'[p].block == a; }
  }

  lemma TakenSound(h: State, b: nat, nbytes: nat)
    requires Sound(h) && b < 29 && h.nextf[b] != 0 && nbytes + 8 <= Size(b)
    ensures |h.lists[b]| > 0 && h.nextf[b] == h.lists[b][0] && h.nextf[b] in h.blocks && h.blocks[h.nextf[b]] == b &&
            h.nextf[b] + 8 !in h.user
    ensures Sound(Taken(h, b, nbytes)) && Kept(h, Taken(h, b, nbytes), 0)
  {
    hide Size, Load, Geometry, Inventory, PoolZero, AllTagged, Tagged, SameOutside, SetHeader, SameBytes, Held;
    assert Linked(h.mem, h.nextf[b], h.lists[b]);
    assert |h.lists[b]| > 0 && h.nextf[b] == h.lists[b][0] && Load(h.mem, h.nextf[b], 8) == NextOf(h.lists[b], 0);
    OnList(h, b, 0);
    var op := h.nextf[b];
    if op + 8 in h.user { NotPointedAt(h, op, op + 8); HeldBy(h.user, op + 8); }
    var h' := Taken(h, b, nbytes);
    HeaderIs(h.mem, op, Magic, b);
    WiderFrame(h.mem, h'.mem, op, op + 8, op + Size(b));
    WriteInside(h, h'.mem, op);
    TakenInventory(h.blocks, h.lists, h.user, b, op + 8, Alloc(op, nbytes));
    TakenLinks(h, b, nbytes);
    TakenTags(h, b, nbytes);
  }

  lemma HeldBy(user: map<nat, Alloc>, p: nat)
    requires p in user
    ensures Held(user, user[p].block)
  {}

  lemma WiderFrame(m: Mem, m': Mem, lo: nat, hi: nat, top: nat)
    requires SameOutside(m, m', lo, hi) && hi <= top
    ensures SameOutside(m, m', lo, top)
  {}

  lemma TakenLinks(h: State, b: nat, nbytes: nat)
    requires Sound(h) && b < 29 && |h.lists[b]| > 0 && h.nextf[b] == h.lists[b][0]
    ensures AllLinked(Taken(h, b, nbytes).mem, Taken(h, b, nbytes).nextf, Taken(h, b, nbytes).lists)
  {
    hide Size, Load, Geometry, Inventory, PoolZero, AllTagged, Tagged, SameOutside, SetHeader, Held, SameBytes,
         Linked, NextOf;
    assert Linked(h.mem, h.nextf[b], h.lists[b]);
    var op, h' := h.nextf[b], Taken(h, b, nbytes);
    OnList(h, b, 0);
    HeaderIs(h.mem, op, Magic, b);
    WiderFrame(h.mem, h'.mem, op, op + 8, op + Size(b));
    WriteInside(h, h'.mem, op);
    NotAmong(h, b, 0);
    LinkedTail(h.mem, h'.mem, op, h.lists[b]);
    assert forall c :: 0 <= c < NBuckets && c != b ==> h'.lists[c] == h.lists[c] && h'.nextf[c] == h.nextf[c];
  }

  /** A free block is nowhere else on a list. */
  lemma NotAmong(h: State, b: nat, k: nat)
    requires Sound(h) && b < NBuckets && k < |h.lists[b]|
    ensures forall j :: 0 <= j < |h.lists[b]| && j != k ==> h.lists[b][j] != h.lists[b][k]
    ensures forall c :: 0 <= c < NBuckets && c != b ==> h.lists[b][k] !in h.lists[c]
  {
    hide Size, Load, Geometry, PoolZero, AllTagged, AllLinked, Held;
    assert OfBucket(h.blocks, h.lists[b], b);
    forall c | 0 <= c < NBuckets && c != b
      ensures h.lists[b][k] !in h.lists[c]
    {
      assert OfBucket(h.blocks, h.lists[c], c);
    }
  }

  lemma LinkedTail(m: Mem, m': Mem, head: nat, list: seq<nat>)
    requires Linked(m, head, list) && |list| > 0
    requires forall k :: 0 < k < |list| ==> Load(m', list[k], 8) == NextOf(list, k)
    ensures Linked(m', Load(m, head, 8), list[1..])
  {}

  lemma TakenTags(h: State, b: nat, nbytes: nat)
    requires Sound(h) && b < 29 && b < |h.lists| && |h.lists[b]| > 0 && h.nextf[b] == h.lists[b][0] &&
             nbytes + 8 <= Size(b) && h.nextf[b] + 8 !in h.user
    ensures var h' := Taken(h, b, nbytes); AllTagged(h'.mem, h'.blocks, h'.user) && Kept(h, h', 0)
  {
    hide Size, Load, Geometry, Inventory, PoolZero, SameOutside, SetHeader, Linked, SameBytes, Held;
    var op, h' := h.nextf[b], Taken(h, b, nbytes);
    OnList(h, b, 0);
    HeaderIs(h.mem, op, Magic, b);
    WiderFrame(h.mem, h'.mem, op, op + 8, op + Size(b));
    WriteInside(h, h'.mem, op);
    forall p | p in h.user ensures h.user[p].block != op { HeldBy(h.user, p); }
    assert Tagged(h'.mem, op + 8, Alloc(op, nbytes), b);
  }

  // ---- a block goes back to its list ---------------------------------------------------------

  function Given(h: State, p: nat): State
    requires p in h.user && h.user[p].block in h.blocks && h.blocks[h.user[p].block] < |h.nextf| &&
             h.blocks[h.user[p].block] < |h.lists|
  {
    var op := h.user[p].block;
    var b := h.blocks[op];
    h.(mem := Store(h.mem, op, h.nextf[b], 8), nextf := h.nextf[b := op], lists := h.lists[b := [op] + h.lists[b]],
       user := h.user - {p})
  }

  lemma HeldRemove(user: map<nat, Alloc>, p: nat, a: nat)
    requires p in user && forall q :: q in user && user[q].block == user[p].block ==> q == p
    ensures Held(user - {p}, a) <==> Held(user, a) && a != user[p].block
  {
    if Held(user, a) && a != user[p].block { var q :| q in user && user[q].block == a; assert q in user - {p}; }
  }

  lemma GivenInventory(blocks: map<nat, nat>, lists: seq<seq<nat>>, user: map<nat, Alloc>, p: nat)
    requires Inventory(blocks, lists, user) && p in user
    ensures var op := user[p].block; Inventory(blocks, lists[blocks[op] := [op] + lists[blocks[op]]], user - {p})
  {
    var op := user[p].block;
    var b := blocks[op];
    HeldBy(user, p);
    var lists', user' := lists[b := [op] + lists[b]], user - {p};
    assert OfBucket(blocks, lists[b], b) && op !in lists[b];
    forall c | 0 <= c < NBuckets ensures OfBucket(blocks, lists'[c], c) { assert OfBucket(blocks, lists[c], c); }
    forall a | a in blocks ensures a in lists'[blocks[a]] <==> !Held(user', a) { HeldRemove(user, p, a); }
  }

  /** The block under a pointer, and that no list has it. */
  lemma UserBlock(h: State, p: nat)
    requires Sound(h) && p in h.user
    ensures var op := h.user[p].block;
            && op in h.blocks && h.blocks[op] < 29 && op > 0 && op + Size(h.blocks[op]) <= AddressTop &&
               Tagged(h.mem, p, h.user[p], h.blocks[op])
            && forall c :: 0 <= c < NBuckets ==> op !in h.lists[c]
    ensures forall q :: q in h.user && h.user[q].block == h.user[p].block ==> q == p
  {
    hide Size, Load, PoolZero, AllLinked, Held, Tagged;
    var op := h.user[p].block;
    HeldBy(h.user, p);
    assert BlockOk(op, h.blocks[op], h.page, h.start, h.end, h.mapped);
    forall c | 0 <= c < NBuckets ensures op !in h.lists[c] { assert OfBucket(h.blocks, h.lists[c], c); }
  }

  /** The heads are addresses, so that a header has room for them. */
  lemma HeadIsAddress(h: State, b: nat)
    requires Sound(h) && b < NBuckets
    ensures h.nextf[b] < AddressTop
  {}

  lemma LinkedCons(m': Mem, head: nat, list: seq<nat>, op: nat)
    requires Linked(m', head, list) && Load(m', op, 8) == head
    ensures Linked(m', op, [op] + list)
  {}

  lemma GivenSound(h: State, p: nat)
    requires Sound(h) && p in h.user
    ensures h.user[p].block in h.blocks && h.blocks[h.user[p].block] < NBuckets == |h.nextf| == |h.lists|
    ensures Sound(Given(h, p)) && Kept(h, Given(h, p), p)
  {
    hide Size, Load, Store, Geometry, Inventory, PoolZero, Tagged, SameOutside, SameBytes, Held, Linked;
    UserBlock(h, p);
    var op, h' := h.user[p].block, Given(h, p);
    var b := h.blocks[op];
    HeadIsAddress(h, b);
    StoreOutside(h.mem, op, h.nextf[b], 8);
    LoadStoreWord(h.mem, op, h.nextf[b]);
    WiderFrame(h.mem, h'.mem, op, op + 8, op + Size(b));
    WriteInside(h, h'.mem, op);
    LinkedCons(h'.mem, h.nextf[b], h.lists[b], op);
    GivenInventory(h.blocks, h.lists, h.user, p);
    assert forall c :: 0 <= c < NBuckets && c != b ==> h'.lists[c] == h.lists[c] && h'.nextf[c] == h.nextf[c];
  }

  // ---- an aligned pointer replaces the plain one ---------------------------------------------

  function Realigned(h: State, p: nat, x: nat, size: nat): State
    requires p in h.user && x >= 8 && x >= h.user[p].block
  {
    var op := h.user[p].block;
    h.(mem := SetHeader(h.mem, x - 8, AMagic, x - op), user := (h.user - {p})[x := Alloc(op, size)])
  }

  lemma RealignedInventory(blocks: map<nat, nat>, lists: seq<seq<nat>>, user: map<nat, Alloc>, p: nat, x: nat, u: Alloc)
    requires Inventory(blocks, lists, user) && p in user && x !in user && u.block == user[p].block
    ensures Inventory(blocks, lists, (user - {p})[x := u])
  {
    hide OfBucket;
    var user' := (user - {p})[x := u];
    HeldBy(user, p);
    forall a | a in blocks ensures Held(user', a) <==> Held(user, a) {
      HeldRemove(user, p, a);
      HeldAdd(user - {p}, x, u, a);
    }
  }

  lemma RealignedSound(h: State, p: nat, x: nat, size: nat)
    requires Sound(h) && p in h.user && h.user[p].block in h.blocks && p == h.user[p].block + 8 && p + 8 <= x
    requires x + size < h.user[p].block + Size(h.blocks[h.user[p].block])
    ensures x !in h.user && Sound(Realigned(h, p, x, size)) && Kept(h, Realigned(h, p, x, size), p)
  {
    hide Size, Load, SetHeader, Geometry, Inventory, PoolZero, SameOutside, SameBytes, Held, Linked, Tagged;
    UserBlock(h, p);
    var op, h' := h.user[p].block, Realigned(h, p, x, size);
    var b := h.blocks[op];
    if x in h.user { NotPointedAt(h, op, x); }
    HeaderIs(h.mem, x - 8, AMagic, x - op);
    Within(h.mem, h'.mem, x - 8, x, op, op + Size(b));
    WriteInside(h, h'.mem, op);
    RealignedTag(h.mem, h'.mem, op, h.user[p].size, b, x, size);
    RealignedInventory(h.blocks, h.lists, h.user, p, x, Alloc(op, size));
  }

  lemma Within(m: Mem, m': Mem, lo: nat, hi: nat, bottom: nat, top: nat)
    requires SameOutside(m, m', lo, hi) && bottom <= lo && hi <= top
    ensures SameOutside(m, m', bottom, top)
  {}

  lemma RealignedTag(m: Mem, m': Mem, op: nat, n: nat, b: nat, x: nat, size: nat)
    requires Tagged(m, op + 8, Alloc(op, n), b)
    requires op + 16 <= x && x + size < op + Size(b) && SameOutside(m, m', x - 8, x)
    requires At(m', x - 6) == AMagic && Load(m', x - 8, 2) == (x - op) % 65536
    ensures Tagged(m', x, Alloc(op, size), b)
  {}

  // ---- callers write to their own bytes --------------------------------------------------------

  lemma WrittenSound(h: State, p: nat, k: nat, v: Byte)
    requires Sound(h) && p in h.user && k < h.user[p].size
    ensures Sound(h.(mem := h.mem[p + k := v])) && Kept(h, h.(mem := h.mem[p + k := v]), p)
  {
    hide Size, Load, Geometry, Inventory, PoolZero, SameBytes, Held, Linked, Tagged;
    UserBlock(h, p);
    InsideBlock(h, p);
    var op, m' := h.user[p].block, h.mem[p + k := v];
    WriteInside(h, m', op);
    TaggedKept(h.mem, m', p, h.user[p], h.blocks[op]);
  }

  // ---- the pool is replaced --------------------------------------------------------------------

  function Range(lo: nat, hi: nat): (r: set<nat>)
    ensures forall x :: x in r <==> lo <= x < hi
    decreases hi - lo
  {
    if lo >= hi then {} else {lo} + Range(lo + 1, hi)
  }

  /** What morepages unmaps of the old pool. */
  function Leftover(page: nat, start: nat, end: nat): set<nat>
    requires page > 0 && start <= end
  {
    if end - start > page then Range(RoundUp(start, page), end) else {}
  }

  /** What mmap promises: page-aligned bytes that were not mapped. */
  predicate FreshPages(base: nat, len: nat, page: nat, mapped: set<nat>)
    requires page > 0
  {
    0 < base && base % page == 0 && len % page == 0 && page <= len && base + len <= AddressTop &&
    Range(base, base + len) !! mapped
  }

  /** Newly mapped bytes are zero. */
  function Zeroed(m: Mem, lo: nat, hi: nat): Mem { map a | a in m && !(lo <= a < hi) :: m[a] }

  function Repooled(h: State, base: nat, len: nat): State
    requires h.page > 0 && h.start <= h.end
  {
    h.(start := base + h.start % h.page, end := base + len, mem := Zeroed(h.mem, base, base + len),
       mapped := h.mapped - Leftover(h.page, h.start, h.end) + Range(base, base + len))
  }

  lemma RepooledGeometry(h: State, base: nat, len: nat)
    requires Sound(h) && FreshPages(base, len, h.page, h.mapped - Leftover(h.page, h.start, h.end))
    ensures var h' := Repooled(h, base, len); Geometry(h'.page, h'.start, h'.end, h'.blocks, h'.mapped)
  {
    hide Size, Inventory, PoolZero, AllLinked, AllTagged, Tiled;
    var h' := Repooled(h, base, len);
    var page := h.page;
    RoundUpIs(h.start, page);
    forall a | a in h.blocks
      ensures BlockOk(a, h.blocks[a], page, h'.start, h'.end, h'.mapped) && Apart(a, Size(h.blocks[a]), base, len)
    {
      assert BlockOk(a, h.blocks[a], page, h.start, h.end, h.mapped);
      BlockAway(h, base, len, a);
    }
    PoolCongruent(page, h.start, base, len);
  }

  lemma PoolCongruent(page: nat, start: nat, base: nat, len: nat)
    requires page > 0 && (start + 8) % page == 0 && base % page == 0 && len % page == 0
    ensures (base + start % page + 8) % page == 0 && (base + len) % page == 0
  {
    assert start == start % page + page * (start / page);
    AddMultiple(start % page + 8, page, start / page);
    AddDivisible(start % page + 8, base, page);
    AddDivisible(base, len, page);
  }

  /** A carved block is neither in what is unmapped nor in what is mapped. */
  lemma BlockAway(h: State, base: nat, len: nat, a: nat)
    requires Sound(h) && FreshPages(base, len, h.page, h.mapped - Leftover(h.page, h.start, h.end)) && a in h.blocks
    ensures Apart(a, Size(h.blocks[a]), base, len)
    ensures AllMapped(a, a + Size(h.blocks[a]), h.mapped - Leftover(h.page, h.start, h.end))
  {
    hide Size, Inventory, PoolZero, AllLinked, AllTagged, Tiled;
    var n := Size(h.blocks[a]);
    assert BlockOk(a, h.blocks[a], h.page, h.start, h.end, h.mapped);
    RoundUpIs(h.start, h.page);
    assert AllMapped(a, a + n, h.mapped - Leftover(h.page, h.start, h.end));
    var m := h.mapped - Leftover(h.page, h.start, h.end);
    assert base in Range(base, base + len) && base !in m;
    assert a in m && a !in Range(base, base + len);
  }

  lemma RepooledSound(h: State, base: nat, len: nat)
    requires Sound(h) && FreshPages(base, len, h.page, h.mapped - Leftover(h.page, h.start, h.end))
    ensures h.page > 0 && h.start <= h.end && Sound(Repooled(h, base, len)) && Kept(h, Repooled(h, base, len), 0)
  {
    hide Size, Load, Inventory, Held, Tagged, Linked, FreshPages, Leftover, Tiled, BlockOk;
    var h' := Repooled(h, base, len);
    RepooledGeometry(h, base, len);
    forall b | 0 <= b < NBuckets ensures Linked(h'.mem, h'.nextf[b], h'.lists[b]) {
      forall k | 0 <= k < |h.lists[b]| ensures SameBytes(h.mem, h'.mem, h.lists[b][k], 8) {
        OnList(h, b, k);
        BlockAway(h, base, len, h.lists[b][k]);
      }
      LinkedKept(h.mem, h'.mem, h.nextf[b], h.lists[b]);
    }
    forall p | p in h.user
      ensures Tagged(h'.mem, p, h.user[p], h.blocks[h.user[p].block]) && SameBytes(h.mem, h'.mem, p, h.user[p].size)
    {
      InsideBlock(h, p);
      BlockAway(h, base, len, h.user[p].block);
      TaggedKept(h.mem, h'.mem, p, h.user[p], h.blocks[h.user[p].block]);
    }
  }

  // ---- new blocks are carved from the pool -----------------------------------------------------

  /** What morecore takes from the pool for a bucket: a page, or one block if that is larger. */
  function Amount(bucket: nat, page: nat): nat { if Size(bucket) < page then page else Size(bucket) }

  /** How many blocks that makes. */
  function BlockCount(bucket: nat, page: nat): nat { Amount(bucket, page) / Size(bucket) }

  lemma AmountFacts(bucket: nat, page: nat)
    requires PageOk(page)
    ensures Amount(bucket, page) % page == 0 && Amount(bucket, page) % Size(bucket) == 0
    ensures page <= Amount(bucket, page) && Size(bucket) <= Amount(bucket, page)
    ensures page % (if Size(bucket) < page then Size(bucket) else page) == 0
    ensures Size(bucket) % (if Size(bucket) < page then Size(bucket) else page) == 0
  {
    Pow2IsPow2(bucket + 3);
    assert Pow2(bucket + 3) == 2 * Pow2(bucket + 2) == 4 * Pow2(bucket + 1) == 8 * Pow2(bucket);
    if Size(bucket) < page { Pow2Divides(Size(bucket), page); } else { Pow2Divides(page, Size(bucket)); }
    MultipleMod(page, 1);
    MultipleMod(Size(bucket), 1);
  }

  /** The addresses of n adjacent blocks. */
  function Row(first: nat, sz: nat, n: nat): seq<nat> { seq(n, k requires k >= 0 => first + sz * k) }

  ghost predicate Spaced(row: seq<nat>, sz: nat) { forall i, j :: 0 <= i < j < |row| ==> row[i] + sz <= row[j] }

  lemma RowFacts(first: nat, sz: nat, n: nat)
    ensures Spaced(Row(first, sz, n), sz)
    ensures forall k :: 0 <= k < n ==> first <= Row(first, sz, n)[k] && Row(first, sz, n)[k] + sz <= first + sz * n
    ensures forall k :: 0 <= k < n - 1 ==> Row(first, sz, n)[k + 1] == Row(first, sz, n)[k] + sz
  {
    forall i: nat, j: nat | i < j
      ensures sz * i + sz <= sz * j
    {
      assert sz * j == sz * i + sz * (j - i);
      MulLess(sz, j - i);
    }
    forall k | 0 <= k < n - 1
      ensures Row(first, sz, n)[k + 1] == Row(first, sz, n)[k] + sz
    {
      assert sz * (k + 1) == sz * k + sz;
    }
  }

  lemma RowAligned(first: nat, page: nat, bucket: nat, n: nat, k: nat)
    requires PageOk(page) && (first + 8) % page == 0 && k < n
    ensures DataAligned(Row(first, Size(bucket), n)[k], bucket, page)
  {
    AmountFacts(bucket, page);
    var g := if Size(bucket) < page then Size(bucket) else page;
    ModTransitive(first + 8, page, g);
    var j := Size(bucket) / g;
    assert Size(bucket) * k == g * (j * k) by { assert Size(bucket) == g * j; }
    AddMultiple(first + 8, g, j * k);
  }

  /** After k links: row[0] .. row[k] are chained, and nothing else was written. */
  ghost predicate PartlyLinked(m0: Mem, m: Mem, row: seq<nat>, k: nat) {
    k < |row| && SameOutside(m0, m, row[0], row[k]) && forall j :: 0 <= j < k ==> Load(m, row[j], 8) == row[j + 1]
  }

  lemma LinkOne(m0: Mem, m: Mem, row: seq<nat>, sz: nat, k: nat)
    requires PartlyLinked(m0, m, row, k) && Spaced(row, sz) && sz >= 8 && k + 1 < |row| && row[k + 1] < AddressTop
    ensures PartlyLinked(m0, Store(m, row[k], row[k + 1], 8), row, k + 1)
  {
    hide Load, Store;
    var m' := Store(m, row[k], row[k + 1], 8);
    StoreOutside(m, row[k], row[k + 1], 8);
    LoadStoreWord(m, row[k], row[k + 1]);
    assert row[k] + sz <= row[k + 1];
    forall j | 0 <= j < k ensures Load(m', row[j], 8) == row[j + 1] {
      assert row[j] + sz <= row[k];
      LoadFrame(m, m', row[j], 8);
    }
  }

  /** The last block was never written: its link is NULL because the pool is zero. */
  lemma LinkedRow(m0: Mem, m: Mem, row: seq<nat>, end: nat)
    requires |row| > 0 && PartlyLinked(m0, m, row, |row| - 1) && PoolZero(m0, row[0], end) &&
             row[0] <= row[|row| - 1] && row[|row| - 1] + 8 <= end
    ensures Linked(m, row[0], row)
  {}

  function Carved(h: State, b: nat, m: Mem, row: seq<nat>): State
    requires b < |h.nextf| && b < |h.lists| && |row| > 0
  {
    h.(start := h.start + Amount(b, h.page), mem := m, nextf := h.nextf[b := h.start], lists := h.lists[b := row],
       blocks := h.blocks + map a | a in row :: b)
  }

  /** One of the new blocks. */
  lemma NewBlock(h: State, b: nat, n: nat, k: nat)
    requires Sound(h) && b < 29 && k < n && Size(b) * n == Amount(b, h.page) <= h.end - h.start
    ensures var a := Row(h.start, Size(b), n)[k];
            && h.start <= a && a + Size(b) <= h.start + Amount(b, h.page) && a !in h.blocks
            && BlockOk(a, b, h.page, h.start + Amount(b, h.page), h.end, h.mapped)
  {
    hide Size, Inventory, PoolZero, AllLinked, AllTagged, Row, Amount, DataAligned, IsPow2, Tiled;
    RowLength(h.start, Size(b), n);
    RowFacts(h.start, Size(b), n);
    RowAligned(h.start, h.page, b, n, k);
    var a := Row(h.start, Size(b), n)[k];
    forall c | c in h.blocks
      ensures c < h.start || h.end <= c
    {
      assert BlockOk(c, h.blocks[c], h.page, h.start, h.end, h.mapped);
    }
  }

  lemma TiledAdd(blocks: map<nat, nat>, b: nat, row: seq<nat>, lo: nat, hi: nat)
    requires Tiled(blocks) && Spaced(row, Size(b))
    requires forall a :: a in blocks ==> a + Size(blocks[a]) <= lo || hi <= a
    requires forall k :: 0 <= k < |row| ==> lo <= row[k] && row[k] + Size(b) <= hi
    ensures Tiled(blocks + map a | a in row :: b)
  {}

  lemma CarvedGeometry(h: State, b: nat, m: Mem, n: nat)
    requires Sound(h) && b < 29 && b < |h.nextf| && b < |h.lists| && n > 0 &&
             Size(b) * n == Amount(b, h.page) <= h.end - h.start
    ensures |Row(h.start, Size(b), n)| == n
    ensures var row := Row(h.start, Size(b), n);
            var h' := Carved(h, b, m, row);
            && (forall a :: a in row ==> a !in h.blocks) && Geometry(h'.page, h'.start, h'.end, h'.blocks, h'.mapped)
  {
    hide Size, Inventory, PoolZero, AllLinked, AllTagged, Row, Amount, DataAligned, IsPow2, Tiled, Spaced;
    var row := Row(h.start, Size(b), n);
    RowLength(h.start, Size(b), n);
    var h' := Carved(h, b, m, row);
    RowFacts(h.start, Size(b), n);
    forall k | 0 <= k < n
      ensures row[k] !in h.blocks && BlockOk(row[k], b, h.page, h'.start, h'.end, h.mapped)
    {
      NewBlock(h, b, n, k);
    }
    forall a | a in h.blocks
      ensures BlockOk(a, h.blocks[a], h.page, h'.start, h'.end, h.mapped) &&
              (a + Size(h.blocks[a]) <= h.start || h.end <= a)
    {
      assert BlockOk(a, h.blocks[a], h.page, h.start, h.end, h.mapped);
    }
    TiledAdd(h.blocks, b, row, h.start, h.start + Amount(b, h.page));
    PoolShrinks(h.page, h.start, b);
  }

  lemma RowLength(first: nat, sz: nat, n: nat) ensures |Row(first, sz, n)| == n &&
  (n > 0 ==> Row(first, sz, n)[0] == first) {}

  lemma ListCount(h: State)
    requires Sound(h)
    ensures |h.lists| == NBuckets == |h.nextf|
  {}

  lemma PoolShrinks(page: nat, start: nat, b: nat)
    requires PageOk(page) && (start + 8) % page == 0
    ensures (start + Amount(b, page) + 8) % page == 0
  {
    AmountFacts(b, page);
    AddDivisible(start + 8, Amount(b, page), page);
  }

  lemma CarvedInventory(blocks: map<nat, nat>, lists: seq<seq<nat>>, user: map<nat, Alloc>, b: nat, row: seq<nat>,
                        sz: nat)
    requires Inventory(blocks, lists, user) && b < NBuckets && lists[b] == [] && Spaced(row, sz) && sz > 0 &&
             forall a :: a in row ==> a !in blocks
    ensures Inventory(blocks + map a | a in row :: b, lists[b := row], user)
  {}

  lemma CarvedSound(h: State, b: nat, m: Mem, n: nat)
    requires Sound(h) && b < 29 && n > 0 && Size(b) * n == Amount(b, h.page) <= h.end - h.start && h.nextf[b] == 0
    requires SameOutside(h.mem, m, h.start, h.start + Amount(b, h.page)) && Linked(m, h.start, Row(h.start, Size(b), n))
    ensures |h.lists| == NBuckets == |h.nextf|
    ensures |Row(h.start, Size(b), n)| == n
    ensures var h' := Carved(h, b, m, Row(h.start, Size(b), n));
            Sound(h') && Kept(h, h', 0) && Extends(h.blocks, h'.blocks)
  {
    hide Size, Load, Inventory, Held, Tagged, Linked, Row, Tiled, BlockOk, Amount, DataAligned, IsPow2;
    ListCount(h);
    RowFacts(h.start, Size(b), n);
    RowLength(h.start, Size(b), n);
    var row := Row(h.start, Size(b), n);
    var h' := Carved(h, b, m, row);
    CarvedGeometry(h, b, m, n);
    NullIsEmpty(h, b);
    CarvedInventory(h.blocks, h.lists, h.user, b, row, Size(b));
    forall c | 0 <= c < NBuckets ensures Linked(m, h'.nextf[c], h'.lists[c]) {
      if c != b {
        forall k | 0 <= k < |h.lists[c]| ensures SameBytes(h.mem, m, h.lists[c][k], 8) { OnList(h, c, k); }
        LinkedKept(h.mem, m, h.nextf[c], h.lists[c]);
      }
    }
    forall p | p in h.user
      ensures Tagged(m, p, h.user[p], h'.blocks[h.user[p].block]) && SameBytes(h.mem, m, p, h.user[p].size)
    {
      InsideBlock(h, p);
      TaggedKept(h.mem, m, p, h.user[p], h.blocks[h.user[p].block]);
    }
  }

  /** A NULL head means an empty list, because no block is at address 0. */
  lemma NullIsEmpty(h: State, b: nat)
    requires Sound(h) && b < NBuckets && h.nextf[b] == 0
    ensures h.lists[b] == []
  {}

  // ---- finding the block under a pointer ------------------------------------------------------

  /** Where xfree looks for the block's header. */
  function Located(m: Mem, p: nat): int
    requires p >= 8
  {
    if At(m, p - 6) == AMagic then p - Load(m, p - 8, 2) else p - 8
  }

  /** xfree finds the block exactly when the distance fits the 16-bit index; otherwise it looks inside the block. */
  lemma LocatesBlock(h: State, p: nat)
    requires Sound(h) && p in h.user
    ensures p >= 8 && (Located(h.mem, p) == h.user[p].block <==> p - h.user[p].block < 65536)
    ensures h.user[p].block in h.blocks
    ensures h.user[p].block <= Located(h.mem, p) <= p &&
            Located(h.mem, p) < h.user[p].block + Size(h.blocks[h.user[p].block])
  {
    hide Size, Load, Geometry, Inventory, PoolZero, AllLinked;
    assert Tagged(h.mem, p, h.user[p], h.blocks[h.user[p].block]);
    IndexWraps(p - h.user[p].block);
  }

  lemma IndexWraps(d: nat)
    ensures d % 65536 <= d && (d % 65536 == d <==> d < 65536)
  {}

  /** What lies strictly inside a block is no block. */
  lemma InsideIsNoBlock(h: State, a: nat, x: nat)
    requires Sound(h) && a in h.blocks && a < x < a + Size(h.blocks[a])
    ensures x !in h.blocks && x > 0
  {
    hide Size;
    if x in h.blocks { BlocksApart(h, a, x); }
  }

  /** From the block to the pointer that xmalloc_aligned makes of the plain pointer `mem`. */
  function Distance(mem: nat, align: nat, offset: nat): int
    requires align > 0
  {
    RoundUp(mem + 8, align) + offset - mem + 8
  }

  lemma DistanceBound(mem: nat, align: nat, offset: nat)
    requires align % 8 == 0 && align > 0 && mem % 8 == 0
    ensures 16 <= Distance(mem, align, offset) <= align + offset + 8
    ensures mem % align == 0 ==> Distance(mem, align, offset) == align + offset + 8
  {
    hide RoundUp;
    RoundUpIs(mem + 8, align);
    RoundedPlace(mem, align, RoundUp(mem + 8, align));
    if mem % align == 0 { RoundedNext(mem, align, RoundUp(mem + 8, align)); }
  }

  lemma RoundedPlace(mem: nat, align: nat, x: nat)
    requires align % 8 == 0 && align > 0 && mem % 8 == 0 && x % align == 0 && x < mem + 8 + align
    ensures x <= mem + align
  {
    ModTransitive(x, align, 8);
    AddDivisible(mem, align, 8);
    NoGap8(x, mem + align);
  }

  lemma RoundedNext(mem: nat, align: nat, x: nat)
    requires align >= 8 && mem % align == 0 && x % align == 0 && mem + 8 <= x < mem + 8 + align
    ensures x == mem + align
  {
    SubMultiple(x, mem, align);
    OnlyMultiple(x - mem, align);
  }

  lemma NoGap8(x: nat, y: nat)
    requires x % 8 == 0 && y % 8 == 0 && x < y + 8
    ensures x <= y
  {}

  lemma OnlyMultiple(d: nat, m: nat)
    requires m >= 8 && d % m == 0 && 8 <= d < 8 + m
    ensures d == m
  {}

  /** Wherever the block lies, the pointer can be freed: exactly for these alignments and offsets. */
  lemma AlignedFreeable(align: nat, offset: nat)
    requires IsPow2(align) && align >= 8
    ensures (forall mem: nat {:trigger Distance(mem, align, offset)} ::
               mem % 8 == 0 ==> Distance(mem, align, offset) < 65536) <==>
              align + offset + 8 < 65536
  {
    Pow2Divides(8, align);
    forall mem: nat | mem % 8 == 0
      ensures Distance(mem, align, offset) <= align + offset + 8
    {
      DistanceBound(mem, align, offset);
    }
    MultipleMod(align, 1);
    DistanceBound(align, align, offset);
  }

  // ---- the allocator --------------------------------------------------------------------------

  lemma SizesOfNote()
    ensures Size(28) == 0x8000_0000 && Size(29) == 0x1_0000_0000
  {
    assert Pow2(10) == 1024;
    assert Pow2(20) == 1024 * 1024;
    assert Pow2(28) == 0x1000_0000;
  }

  lemma {:induction false} SizeGrows(b: nat, c: nat)
    requires b < c
    ensures 2 * Size(b) <= Size(c)
    decreases c
  {
    if b + 1 < c { SizeGrows(b, c - 1); }
  }

  lemma PoolPages(page: nat)
    requires PageOk(page)
    ensures PoolBytes % page == 0 && PoolBytes / page * page == PoolBytes
  {
    Pow2IsPow2(15);
    assert Pow2(10) == 1024;
    assert Pow2(15) == 32768;
    Pow2Divides(page, PoolBytes);
    assert PoolBytes == page * (PoolBytes / page);
  }

  /** How many bytes morecore asks morepages for. */
  function Grow(b: nat, page: nat): nat
    requires page > 0
  {
    (Amount(b, page) / page + PoolBytes / page) * page
  }

  lemma GrowIs(b: nat, page: nat)
    requires PageOk(page)
    ensures Grow(b, page) == Amount(b, page) + PoolBytes
  {
    hide Amount;
    AmountFacts(b, page);
    PoolPages(page);
    assert Amount(b, page) == page * (Amount(b, page) / page);
  }

  /** Requests that the bucket loop and the 32-bit shift in morecore handle: up to 2^31 - 8 bytes, or refused ones. */
  predicate Servable(nbytes: nat) { nbytes <= 0x7fff_fff8 || nbytes > 0xffff_fff8 }

  /**
   From h to h', callers gain the pointer p to `size` bytes in block `op`, whose bucket is the
   best fit for nbytes; a free block of that bucket is used again, the last one freed first.
   */
  ghost predicate Allocated(h: State, h': State, p: nat, op: nat, size: nat, nbytes: nat) {
    && p !in h.user && h'.user == h.user[p := Alloc(op, size)]
    && op in h'.blocks && h'.blocks[op] < |h.nextf| && Fits(nbytes, h'.blocks[op]) && Extends(h.blocks, h'.blocks) &&
       Kept(h, h', 0)
    && (h.nextf[h'.blocks[op]] != 0 ==> op == h.nextf[h'.blocks[op]] && h'.blocks == h.blocks)
  }

  /** Where new blocks of a bucket come from: the pool, or the pages that replace it. */
  function PoolStart(h: State, b: nat, base: nat): nat
    requires h.page > 0 && h.start <= h.end
  {
    if Amount(b, h.page) <= h.end - h.start then h.start else base + h.start % h.page
  }

  /** A block taken in the second step, after the first made sure that there is one, was allocated over both. */
  lemma TakenAllocated(h: State, h1: State, b: nat, nbytes: nat)
    requires Sound(h) && Sound(h1) && b < 29 && h1.nextf[b] != 0 && Fits(nbytes, b) && h1.user == h.user &&
             Extends(h.blocks, h1.blocks)
    requires Kept(h, h1, 0) && (h.nextf[b] != 0 ==> h1 == h)
    ensures |h1.lists[b]| > 0
    ensures Sound(Taken(h1, b, nbytes)) &&
            Allocated(h, Taken(h1, b, nbytes), h1.nextf[b] + 8, h1.nextf[b], nbytes, nbytes)
    ensures h1.page > 0 && DataAligned(h1.nextf[b], b, h1.page) && h1.nextf[b] in h1.blocks &&
            h1.blocks[h1.nextf[b]] == b
  {
    ListCount(h);
    ListCount(h1);
    hide AllLinked, AllTagged, Inventory, PoolZero, Kept, Size, Load, SetHeader, Extends, Tiled, IsPow2;
    TakenSound(h1, b, nbytes);
    KeptTransitive(h, h1, Taken(h1, b, nbytes));
    assert BlockOk(h1.nextf[b], b, h1.page, h1.start, h1.end, h1.mapped);
  }

  lemma ExtendsReflexive(blocks: map<nat, nat>)
    ensures Extends(blocks, blocks)
  {}

  /** The loop over the buckets never meets one whose size overflows the 32-bit shift. */
  lemma BucketSmall(nbytes: nat, b: nat)
    requires Servable(nbytes) && Fits(nbytes, b) && b < NBuckets
    ensures b < 29 && nbytes <= 0x7fff_fff8
  {
    SizesOfNote();
    if b < 28 { SizeGrows(b, 28); }
  }

  lemma BucketBound(nbytes: nat, b: nat)
    requires Fits(nbytes, b) && b < NBuckets
    ensures nbytes <= 0xffff_fff8
  {
    SizesOfNote();
    if b < 29 { SizeGrows(b, 29); }
  }

  lemma BucketOverflow(nbytes: nat)
    requires Size(29) < nbytes + 8
    ensures nbytes > 0xffff_fff8
  {
    SizesOfNote();
  }

  lemma SizeDoubles(b: nat) ensures Size(b + 1) == 2 * Size(b) {}

  class Allocator {
    const pagesz: nat
    const nextf: array<nat>
    var start: nat
    var end: nat
    var mem: Mem
    ghost var blocks: map<nat, nat>
    ghost var lists: seq<seq<nat>>
    ghost var user: map<nat, Alloc>
    ghost var mapped: set<nat>

    ghost function Now(): State
      reads this, nextf
    {
      State(pagesz, start, end, mem, nextf[..], blocks, lists, user, mapped)
    }

    /** The mapping that the next morecore for this bucket may ask for. */
    ghost predicate Granted(b: nat, base: nat)
      reads this, nextf
    {
      pagesz > 0 && start <= end &&
      (Amount(b, pagesz) > end - start ==>
         FreshPages(base, Grow(b, pagesz), pagesz, mapped - Leftover(pagesz, start, end)))
    }

    /**
     The set-up in the first call of imalloc: 32 KiB are mapped, and the pool starts 8 bytes
     before the second page.
     */
    constructor (page: nat, base: nat, memory: Mem, ghost others: set<nat>)
      requires PageOk(page) && FreshPages(base, PoolBytes, page, others)
      ensures Sound(Now()) && pagesz == page && user == map[] && blocks == map[] && fresh(nextf) &&
              nextf[..] == seq(NBuckets, _ => 0)
      ensures start == base + (page - 8) && end == base + PoolBytes && mapped == others + Range(base, base + PoolBytes)
    {
      pagesz := page;
      nextf := new nat[NBuckets](_ => 0);
      var n := page;
      var m := 8 - base % page;
      if n < m { n := n + page - m; } else { n := n - m; }
      start := base + n;
      end := base + PoolBytes / page * page;
      mem := Zeroed(memory, base, base + PoolBytes / page * page);
      blocks, lists, user := map[], seq(NBuckets, _ => []), map[];
      mapped := others + Range(base, base + PoolBytes);
      new;
      PoolPages(page);
      FirstPool(page, base);
      assert nextf[..] == seq(NBuckets, _ => 0);
    }

    method MorePages(n: nat, base: nat)
      requires Sound(Now()) && FreshPages(base, n * pagesz, pagesz, mapped - Leftover(pagesz, start, end))
      modifies this`start, this`end, this`mem, this`mapped
      ensures Now() == Repooled(old(Now()), base, n * pagesz) && Sound(Now()) && Kept(old(Now()), Now(), 0)
    {
      hide Sound, Kept;
      RepooledSound(Now(), base, n * pagesz);
      mapped := mapped - Leftover(pagesz, start, end) + Range(base, base + n * pagesz);
      mem := Zeroed(mem, base, base + n * pagesz);
      start, end := base + start % pagesz, base + n * pagesz;
    }

    /** The pool has room for the bucket's next blocks afterwards. */
    method MoreRoom(b: nat, base: nat)
      requires Sound(Now()) && b < 29 && Granted(b, base)
      modifies this`start, this`end, this`mem, this`mapped
      ensures Sound(Now()) && Kept(old(Now()), Now(), 0) && Amount(b, pagesz) <= end - start
      ensures nextf[..] == old(nextf[..]) && blocks == old(blocks) && lists == old(lists) && user == old(user)
      ensures start == PoolStart(old(Now()), b, base)
    {
      hide Sound, Kept, Amount, Grow, Leftover, FreshPages, Range, Zeroed;
      KeptReflexive(Now());
      PoolPlace(Now());
      if Amount(b, pagesz) > end - start {
        assert Grow(b, pagesz) == (Amount(b, pagesz) / pagesz + PoolBytes / pagesz) * pagesz by { GrowDef(b, pagesz); }
        GrowIs(b, pagesz);
        MorePages(Amount(b, pagesz) / pagesz + PoolBytes / pagesz, base);
      }
    }

    method MoreCore(b: nat, base: nat)
      requires Sound(Now()) && b < 29 && nextf[b] == 0 && Granted(b, base)
      modifies this, nextf
      ensures Sound(Now()) && Kept(old(Now()), Now(), 0) && nextf[b] != 0 && nextf[b] == PoolStart(old(Now()), b, base)
      ensures user == old(user) && Extends(old(blocks), blocks)
      ensures forall c :: 0 <= c < NBuckets && c != b ==> nextf[c] == old(nextf[c]) && lists[c] == old(lists)[c]
    {
      hide Sound, Kept, Amount, Size, BlockCount, Granted, Row, Linked, PoolZero, SameOutside, Spaced, PageOk,
           Extends, PoolStart;
      ghost var h0 := Now();
      PoolPlace(h0);
      MoreRoom(b, base);
      ghost var h1 := Now();
      PoolPlace(h1);
      ListCount(h1);
      RowPlace(start, b, pagesz);
      var sz, amt, nblks := Size(b), Amount(b, pagesz), BlockCount(b, pagesz);
      ZeroPrefix(mem, start, start + amt, end);
      var op := start;
      ghost var row := Row(start, sz, nblks);
      ChainBlocks(op, sz, nblks, row, start + amt);
      CarvedSound(h1, b, mem, nblks);
      start := start + amt;
      nextf[b] := op;
      lists := lists[b := row];
      blocks := blocks + map a | a in row :: b;
      assert nextf[..] == h1.nextf[b := op];
      assert Now() == Carved(h1, b, mem, row);
      KeptTransitive(h0, h1, Now());
    }

    /** The loop of morecore over the new blocks. */
    method ChainBlocks(first: nat, sz: nat, total: nat, ghost row: seq<nat>, ghost limit: nat)
      requires total > 0 && |row| == total && row[0] == first && Spaced(row, sz) && sz >= 8
      requires (forall k :: 0 <= k < total - 1 ==> row[k + 1] == row[k] + sz) &&
               row[total - 1] + sz <= limit <= AddressTop
      requires PoolZero(mem, first, limit)
      modifies this`mem
      ensures SameOutside(old(mem), mem, first, limit) && Linked(mem, first, row)
    {
      hide Load, Store, SameOutside, PartlyLinked, PoolZero, Linked;
      NoneLinked(mem, row);
      var nblks, op := total - 1, first;
      while nblks > 0
        invariant 0 <= nblks < total && op == row[total - 1 - nblks] &&
                  PartlyLinked(old(mem), mem, row, total - 1 - nblks)
      {
        assert row[total - 1 - nblks] + sz == row[total - nblks] &&
               (nblks > 1 ==> row[total - nblks] + sz <= row[total - 1]);
        LinkOne(old(mem), mem, row, sz, total - 1 - nblks);
        mem := Store(mem, op, op + sz, 8);
        op := op + sz;
        nblks := nblks - 1;
      }
      assert row[0] <= row[total - 1];
      LinkedRow(old(mem), mem, row, limit);
      LinkedWithin(old(mem), mem, row, total - 1, limit);
    }

    /** The loop of imalloc over the buckets; NBuckets if no block is large enough. */
    method BucketFor(nbytes: nat) returns (bucket: nat)
      ensures bucket <= NBuckets && (bucket < NBuckets ==> Fits(nbytes, bucket)) &&
              (bucket == NBuckets <==> nbytes > 0xffff_fff8)
    {
      hide Size;
      var amt := 8;
      bucket := 0;
      SizeZero();
      while nbytes > amt - 8
        invariant bucket < NBuckets && amt == Size(bucket) && (bucket > 0 ==> Size(bucket - 1) < nbytes + 8)
        decreases NBuckets - bucket
      {
        SizeDoubles(bucket);
        amt := amt * 2;
        bucket := bucket + 1;
        if bucket >= NBuckets {
          BucketOverflow(nbytes);
          return;
        }
      }
      BucketBound(nbytes, bucket);
    }

    /** Allocate nbytes; base is where mmap puts new pages if they are needed. */
    method Imalloc(nbytes: nat, base: nat) returns (r: Option<nat>)
      requires Sound(Now()) && Servable(nbytes)
      requires forall b: nat :: b < 29 && Fits(nbytes, b) && Now().nextf[b] == 0 ==> Granted(b, base)
      modifies this, nextf
      ensures Sound(Now()) && (r.None? <==> nbytes > 0xffff_fff8) && (r.None? ==> Now() == old(Now()))
      ensures r.Some? ==> r.value >= 8 && Allocated(old(Now()), Now(), r.value, r.value - 8, nbytes, nbytes)
      ensures r.Some? ==> pagesz > 0 && DataAligned(r.value - 8, blocks[r.value - 8], pagesz)
      ensures r.Some? && old(Now()).nextf[blocks[r.value - 8]] == 0 ==>
                old(start) <= old(end) && r.value - 8 == PoolStart(old(Now()), blocks[r.value - 8], base)
    {
      hide Sound, Kept, Size, Load, SetHeader, Granted, Extends, DataAligned, Fits, PoolStart, Allocated;
      ghost var h0 := Now();
      ListCount(h0);
      var bucket := BucketFor(nbytes);
      if bucket >= NBuckets { return None; }
      BucketSmall(nbytes, bucket);
      KeptReflexive(h0);
      ExtendsReflexive(blocks);
      PoolPlace(h0);
      if nextf[bucket] == 0 { MoreCore(bucket, base); }
      r := TakeHead(h0, bucket, nbytes);
    }

    /** The end of imalloc: the head of the list is taken and marked. */
    method TakeHead(ghost h0: State, bucket: nat, nbytes: nat) returns (r: Option<nat>)
      requires Sound(Now()) && Sound(h0) && bucket < 29 && nextf.Length == NBuckets == |h0.nextf| &&
               nextf[bucket] != 0 && Fits(nbytes, bucket)
      requires user == h0.user && Extends(h0.blocks, blocks) && Kept(h0, Now(), 0) &&
               (h0.nextf[bucket] != 0 ==> Now() == h0)
      modifies this, nextf
      ensures Sound(Now()) && r.Some? && r.value == old(nextf[bucket]) + 8 &&
              Allocated(h0, Now(), r.value, r.value - 8, nbytes, nbytes)
      ensures pagesz > 0 && r.value - 8 in blocks && blocks[r.value - 8] == bucket &&
              DataAligned(r.value - 8, bucket, pagesz)
    {
      hide Sound, Kept, Size, Load, SetHeader, Granted, Extends, DataAligned, Fits, Allocated;
      ghost var h1 := Now();
      ListCount(h1);
      TakenAllocated(h0, h1, bucket, nbytes);
      var op := nextf[bucket];
      nextf[bucket] := Load(mem, op, 8);
      mem := SetHeader(mem, op, Magic, bucket);
      lists := lists[bucket := lists[bucket][1..]];
      user := user[op + 8 := Alloc(op, nbytes)];
      assert nextf[..] == h1.nextf[bucket := Load(h1.mem, op, 8)];
      assert Now() == Taken(h1, bucket, nbytes);
      r := Some(op + 8);
    }

    /** Allocate `size` bytes at an address congruent to the offset modulo the alignment. */
    method XmallocAligned(size: nat, alignment: nat, shift: nat, base: nat) returns (r: Option<nat>)
      requires Sound(Now()) && IsPow2(alignment) && Servable(Request(size, alignment, shift)) &&
               Request(size, alignment, shift) < AddressTop
      requires forall b: nat ::
                 b < 29 && Fits(Request(size, alignment, shift), b) && Now().nextf[b] == 0 ==> Granted(b, base)
      modifies this, nextf
      ensures Sound(Now()) && (r.None? <==> Request(size, alignment, shift) > 0xffff_fff8) &&
              (r.None? ==> Now() == old(Now()))
      ensures r.Some? ==>
                r.value in user &&
                Allocated(old(Now()), Now(), r.value, user[r.value].block, size, Request(size, alignment, shift))
      ensures r.Some? ==> r.value % AtLeast8(alignment) == shift % AtLeast8(alignment)
      ensures r.Some? ==>
                r.value - user[r.value].block ==
                Distance(user[r.value].block + 8, AtLeast8(alignment), shift % AtLeast8(alignment))
      ensures r.Some? && AtLeast8(alignment) + shift % AtLeast8(alignment) + 8 < 65536 ==>
                r.value - user[r.value].block < 65536
      ensures r.Some? && old(Now()).nextf[blocks[user[r.value].block]] == 0 ==>
                pagesz > 0 && old(start) <= old(end) &&
                user[r.value].block == PoolStart(old(Now()), blocks[user[r.value].block], base)
    {
      hide Sound, Allocated, IsPow2, RoundUp, SetHeader, Servable, PoolStart;
      ghost var h0 := Now();
      var align := if alignment < 8 then 8 else alignment;
      var offset := shift % align;
      var p := Imalloc(size + align + offset + 8, base);
      if p.None? { return None; }
      ghost var h1 := Now();
      var x := RoundUp(p.value + 8, align) + offset;
      AlignedPlace(h0, h1, p.value, size, alignment, shift, x);
      mem := SetHeader(mem, x - 8, AMagic, x - p.value + 8);
      user := (user - {p.value})[x := Alloc(p.value - 8, size)];
      assert Now() == Realigned(h1, p.value, x, size);
      r := Some(x);
    }

    /**
     Free.  A pointer whose distance fits the index gives its block back; nothing happens for NULL
     or where the magic number is not found.  A pointer beyond the index whose block has bytes
     that read as a header where xfree looks has those bytes put on a free list: no reading of
     the lists makes such a heap sound again.
     */
    method XFree(cp: nat) returns (outcome: Outcome)
      requires Sound(Now()) && (cp == 0 || cp in user || Rejected(mem, cp))
      modifies this, nextf
      ensures blocks == old(blocks) && (outcome == Ignored <==> cp == 0 || Rejected(old(mem), cp))
      ensures outcome.Ignored? || outcome.OutOfBounds? ==> Now() == old(Now())
      ensures outcome.OutOfBounds? ==>
                cp in old(user) && !Findable(old(user), cp) && Load(mem, Located(mem, cp), 2) >= NBuckets
      ensures Findable(old(user), cp) ==>
                && Sound(Now()) && Kept(old(Now()), Now(), cp) && user == old(user) - {cp}
                && (var op := old(user)[cp].block;
                    && op in blocks && blocks[op] < |old(lists)| && outcome == Put(op, blocks[op])
                    && lists == old(lists)[blocks[op] := [op] + old(lists)[blocks[op]]])
      ensures outcome.Put? ==>
                cp >= 8 && outcome.op == Located(old(mem), cp) && outcome.bucket == Load(old(mem), outcome.op, 2)
      ensures outcome.Put? && !Findable(old(user), cp) ==>
                && cp in user && user == old(user) && outcome.op !in blocks && outcome.bucket < nextf.Length &&
                   nextf[outcome.bucket] == outcome.op
                && forall l :: !Sound(Now().(lists := l))
    {
      hide Sound, Kept, Load, Store, Given;
      ghost var h0 := Now();
      ListCount(h0);
      FreeReads(h0, cp);
      if cp == 0 { return Ignored; }
      var op: int := if At(mem, cp - 6) == AMagic then cp - Load(mem, cp - 8, 2) else cp - 8;
      if At(mem, op + 2) != Magic { return Ignored; }
      var size := Load(mem, op, 2);
      if size >= NBuckets { return OutOfBounds; }
      mem := Store(mem, op, nextf[size], 8);
      nextf[size] := op;
      outcome := Put(op, size);
      assert nextf[..] == h0.nextf[size := op];
      if Findable(h0.user, cp) {
        GivenSound(h0, cp);
        lists := lists[size := [op] + lists[size]];
        user := user - {cp};
        assert Now() == Given(h0, cp) by { GivenIs(h0, cp); }
      } else {
        BogusUnsound(h0, Now(), op, size);
      }
    }

    /** A caller writes to the bytes it asked for. */
    method Write(p: nat, k: nat, v: Byte)
      requires Sound(Now()) && p in user && k < user[p].size
      modifies this`mem
      ensures Sound(Now()) && Kept(old(Now()), Now(), p) && mem == old(mem)[p + k := v]
    {
      hide Sound, Kept;
      WrittenSound(Now(), p, k, v);
      mem := mem[p + k := v];
    }
  }

  lemma FirstPool(page: nat, base: nat)
    requires PageOk(page) && FreshPages(base, PoolBytes, page, {})
    ensures (base + (page - 8) + 8) % page == 0 && (base + PoolBytes) % page == 0
  {
    MultipleMod(page, 1);
    AddDivisible(base, page, page);
    AddDivisible(base, PoolBytes, page);
  }

  lemma KeptReflexive(h: State)
    ensures Kept(h, h, 0)
  {}

  lemma KeptTransitive(h: State, h': State, h'': State)
    requires Kept(h, h', 0) && Kept(h', h'', 0)
    ensures Kept(h, h'', 0)
  {}

  lemma NoneLinked(m: Mem, row: seq<nat>)
    requires |row| > 0
    ensures PartlyLinked(m, m, row, 0)
  {}

  lemma LinkedWithin(m: Mem, m': Mem, row: seq<nat>, k: nat, limit: nat)
    requires PartlyLinked(m, m', row, k) && row[k] <= limit
    ensures SameOutside(m, m', row[0], limit)
  {}

  /** The new blocks of a bucket fill what is taken from the pool. */
  lemma RowPlace(start: nat, b: nat, page: nat)
    requires PageOk(page)
    ensures var n := BlockCount(b, page);
            var row := Row(start, Size(b), n);
            && n > 0 && Size(b) * n == Amount(b, page) && |row| == n && row[0] == start && Spaced(row, Size(b))
            && (forall k :: 0 <= k < n - 1 ==> row[k + 1] == row[k] + Size(b))
            && row[n - 1] + Size(b) <= start + Amount(b, page)
  {
    hide Size, Amount, Row, IsPow2, Spaced;
    AmountFacts(b, page);
    Quotient(Amount(b, page), Size(b));
    var n := BlockCount(b, page);
    RowLength(start, Size(b), n);
    RowFacts(start, Size(b), n);
    assert n - 1 >= 0;
  }

  lemma Quotient(x: nat, m: nat)
    requires m > 0 && x > 0 && x % m == 0
    ensures x / m > 0 && m * (x / m) == x
  {}

  lemma ZeroPrefix(m: Mem, start: nat, mid: nat, end: nat)
    requires PoolZero(m, start, end) && mid <= end
    ensures PoolZero(m, start, mid)
  {}

  lemma GrowDef(b: nat, page: nat)
    requires page > 0
    ensures Grow(b, page) == (Amount(b, page) / page + PoolBytes / page) * page
  {}

  lemma PoolPlace(h: State)
    requires Sound(h)
    ensures PageOk(h.page) && 0 < h.start <= h.end <= AddressTop && h.start % h.page < h.page &&
            PoolZero(h.mem, h.start, h.end)
  {}

  lemma SizeZero() ensures Size(0) == 8 {}

  function AtLeast8(align: nat): nat { if align < 8 then 8 else align }

  /** What xmalloc_aligned asks imalloc for. */
  function Request(size: nat, align: nat, offset: nat): nat { size + AtLeast8(align) + offset % AtLeast8(align) + 8 }

  /** A pointer that does not lead xfree to the header of a block in use. */
  predicate Rejected(m: Mem, p: nat) { p >= 8 && Located(m, p) >= 0 && At(m, Located(m, p) + 2) != Magic }

  /** What xfree did: it put `op` on the list of `bucket`, or nothing, or it read a bucket that does not exist. */
  datatype Outcome = Put(op: nat, bucket: nat) | Ignored | OutOfBounds

  /** Something that is no block heads a list: not a sound heap, whatever the lists are taken to be. */
  lemma BogusUnsound(h: State, h': State, op: nat, b: nat)
    requires op > 0 && op !in h.blocks && h'.blocks == h.blocks && b < |h'.nextf| && h'.nextf[b] == op
    ensures forall l :: !Sound(h'.(lists := l))
  {
    forall l ensures !Sound(h'.(lists := l)) {
      if Sound(h'.(lists := l)) { HeadIsBlock(h'.(lists := l), b); }
    }
  }

  lemma HeadIsBlock(h: State, b: nat)
    requires Sound(h) && b < |h.nextf| && h.nextf[b] > 0
    ensures h.nextf[b] in h.blocks
  {
    hide Geometry, PoolZero, AllTagged, Held, Size, Load;
    assert Linked(h.mem, h.nextf[b], h.lists[b]) && OfBucket(h.blocks, h.lists[b], b);
  }

  lemma GivenIs(h: State, p: nat)
    requires Sound(h) && p in h.user
    ensures h.user[p].block in h.blocks && h.blocks[h.user[p].block] < NBuckets == |h.nextf| == |h.lists|
    ensures var op := h.user[p].block;
            var b := h.blocks[op];
            Given(h, p) == h.(mem := Store(h.mem, op, h.nextf[b], 8), nextf := h.nextf[b := op],
                              lists := h.lists[b := [op] + h.lists[b]], user := h.user - {p})
  {
    GivenSound(h, p);
  }

  /** A pointer in use whose distance to its block fits the index. */
  predicate Findable(user: map<nat, Alloc>, p: nat) { p in user && p - user[p].block < 65536 }

  /** What xfree reads under the pointer. */
  lemma FreeReads(h: State, p: nat)
    requires Sound(h) && (p == 0 || p in h.user || Rejected(h.mem, p))
    ensures p == 0 ==> !Findable(h.user, p) && !Rejected(h.mem, p)
    ensures p != 0 ==>
              p >= 8 && Located(h.mem, p) >= 0 && (Rejected(h.mem, p) <==> At(h.mem, Located(h.mem, p) + 2) != Magic)
    ensures Findable(h.user, p) ==>
              && !Rejected(h.mem, p) && Located(h.mem, p) == h.user[p].block && h.user[p].block in h.blocks
              && Load(h.mem, h.user[p].block, 2) == h.blocks[h.user[p].block] < NBuckets
    ensures p in h.user && !Findable(h.user, p) ==> Located(h.mem, p) > 0 && Located(h.mem, p) !in h.blocks
  {
    hide Size, Load, Geometry, Inventory, PoolZero, AllLinked, Located;
    if p in h.user {
      UserBlock(h, p);
      LocatesBlock(h, p);
      assert Tagged(h.mem, p, h.user[p], h.blocks[h.user[p].block]);
      if !Findable(h.user, p) { InsideIsNoBlock(h, h.user[p].block, Located(h.mem, p)); }
    }
  }

  lemma AlignedPlace(h: State, h1: State, p: nat, size: nat, alignment: nat, shift: nat, x: nat)
    requires Sound(h1) && IsPow2(alignment) && p >= 8 &&
             Allocated(h, h1, p, p - 8, Request(size, alignment, shift), Request(size, alignment, shift))
    requires h1.page > 0 && DataAligned(p - 8, h1.blocks[p - 8], h1.page)
    requires x == RoundUp(p + 8, AtLeast8(alignment)) + shift % AtLeast8(alignment)
    ensures x >= p + 8 && p in h1.user && h1.user[p].block == p - 8
    ensures Sound(Realigned(h1, p, x, size)) &&
            Allocated(h, Realigned(h1, p, x, size), x, p - 8, size, Request(size, alignment, shift))
    ensures x % AtLeast8(alignment) == shift % AtLeast8(alignment) &&
            x - p + 8 == Distance(p, AtLeast8(alignment), shift % AtLeast8(alignment))
    ensures AtLeast8(alignment) + shift % AtLeast8(alignment) + 8 < 65536 ==> x - p + 8 < 65536
  {
    hide Size, Geometry, Inventory, PoolZero, AllLinked, AllTagged, SetHeader, IsPow2, SameBytes, DataAligned,
         RoundUp, Realigned, Allocated, Request;
    var align := AtLeast8(alignment);
    RoundUpIs(p + 8, align);
    AddMultipleOf(shift % align, RoundUp(p + 8, align), align);
    AllocatedBlock(h, h1, p, size, alignment, shift);
    Multiple8(h1, p, alignment);
    RealignedSound(h1, p, x, size);
    RealignedAllocated(h, h1, p, x, size, Request(size, alignment, shift));
    DistanceBound(p, align, shift % align);
  }

  lemma AllocatedBlock(h: State, h1: State, p: nat, size: nat, alignment: nat, shift: nat)
    requires p >= 8 && Allocated(h, h1, p, p - 8, Request(size, alignment, shift), Request(size, alignment, shift))
    ensures p in h1.user && h1.user[p].block == p - 8 && p - 8 in h1.blocks
    ensures Request(size, alignment, shift) == size + AtLeast8(alignment) + shift % AtLeast8(alignment) + 8
    ensures p + Request(size, alignment, shift) <= p - 8 + Size(h1.blocks[p - 8])
  {}

  lemma RealignedAllocated(h: State, h1: State, p: nat, x: nat, size: nat, n: nat)
    requires 8 <= p < x && Allocated(h, h1, p, p - 8, n, n) && x !in h1.user
    requires Kept(h1, Realigned(h1, p, x, size), p)
    ensures Allocated(h, Realigned(h1, p, x, size), x, p - 8, size, n)
  {}

  lemma AddMultipleOf(x: nat, y: nat, m: nat)
    requires x < m && y % m == 0
    ensures (y + x) % m == x
  {
    DivModUnique(y + x, m, y / m, x);
  }

  lemma Multiple8(h: State, p: nat, alignment: nat)
    requires Sound(h) && p >= 8 && p - 8 in h.blocks && DataAligned(p - 8, h.blocks[p - 8], h.page) && IsPow2(alignment)
    ensures p % 8 == 0 && AtLeast8(alignment) % 8 == 0
  {
    hide Inventory, PoolZero, AllLinked, AllTagged, IsPow2, Size, Tiled, BlockOk;
    assert IsPow2(8) by { Pow2IsPow2(3); assert Pow2(3) == 8; }
    if alignment >= 8 { Pow2Divides(8, alignment); }
    Pow2Divides(8, h.page);
    SizeMod8(h.blocks[p - 8]);
    ModTransitive(p, if Size(h.blocks[p - 8]) < h.page then Size(h.blocks[p - 8]) else h.page, 8);
  }

  lemma SizeMod8(b: nat)
    ensures Size(b) % 8 == 0
  {}
}
