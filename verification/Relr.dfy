/**
 Relative relocations in the RELR encoding: _rtld_relocate_relr and its copy in the startup
 code, relocate_self.  A table is a sequence of address words (low bit clear), each followed
 by bitmap words (low bit set); words are 64 bits wide.
 */
module Relr {
  import opened PowerOfTwo

  const WORD: nat := 0x1_0000_0000_0000_0000
  const SIZE: nat := 8                        // sizeof(Elf_Addr)
  const BITS: nat := 63                       // usable bits of a bitmap word

  type Memory = map<nat, nat>                 // the words of the process, by address

  /** The test that the loops make. */
  predicate IsBitmap(w: nat) { w % 2 == 1 }

  // ---- what a table means -----------------------------------------------------------------

  /** How many bitmap words follow at the head of the table. */
  function Bitmaps(table: seq<nat>): (n: nat)
    ensures n <= |table|
  {
    if table != [] && table[0] % 2 == 1 then 1 + Bitmaps(table[1..]) else 0
  }

  /** Bit i, counted from 1, of the bitmaps of a group laid end to end without their low bits. */
  predicate GroupBit(bitmaps: seq<nat>, i: nat)
    requires 1 <= i <= BITS * |bitmaps|
  {
    Bit(bitmaps[(i - 1) / BITS], (i - 1) % BITS + 1)
  }

  /** The addresses a + 8 i for the first n bits i of a group. */
  function GroupTargets(a: nat, bitmaps: seq<nat>, n: nat): seq<nat>
    requires n <= BITS * |bitmaps|
  {
    if n == 0 then [] else GroupTargets(a, bitmaps, n - 1) + if GroupBit(bitmaps, n) then [a + SIZE * n] else []
  }

  /** Every address that a table names: for each address word, the word itself and its group. */
  function Targets(base: nat, table: seq<nat>): seq<nat> {
    if table == [] then []
    else
      var a, n := base + table[0], Bitmaps(table[1..]);
      [a] + GroupTargets(a, table[1..][..n], BITS * n) + Targets(base, table[1 + n..])
  }

  /** A group names the address of each set bit, each of them once, and nothing else. */
  lemma {:induction false} GroupTargetsMeaning(a: nat, bitmaps: seq<nat>, n: nat, i: nat)
    requires n <= BITS * |bitmaps| && 1 <= i
    ensures multiset(GroupTargets(a, bitmaps, n))[a + SIZE * i] == if i <= n && GroupBit(bitmaps, i) then 1 else 0
  {
    hide GroupBit;
    if n > 0 {
      GroupTargetsMeaning(a, bitmaps, n - 1, i);
      SameTarget(a, n, i);
      var prev: seq<nat> := GroupTargets(a, bitmaps, n - 1);
      var next: seq<nat> := if GroupBit(bitmaps, n) then [a + SIZE * n] else [];
      assert multiset(prev + next)[a + SIZE * i] == multiset(prev)[a + SIZE * i] + multiset(next)[a + SIZE * i];
    }
  }

  lemma SameTarget(a: nat, n: nat, i: nat)
    ensures a + SIZE * n == a + SIZE * i <==> n == i
  {}

  lemma {:induction false} GroupTargetsOnly(a: nat, bitmaps: seq<nat>, n: nat)
    requires n <= BITS * |bitmaps|
    ensures forall x :: x in GroupTargets(a, bitmaps, n) ==> a < x <= a + SIZE * n && (x - a) % SIZE == 0
  {
    hide GroupBit;
    if n > 0 {
      GroupTargetsOnly(a, bitmaps, n - 1);
      assert (SIZE * n) % SIZE == 0;
    }
  }

  // ---- adding the load address --------------------------------------------------------------

  function AddAt(mem: Memory, base: nat, a: nat): Memory {
    if a in mem then mem[a := (mem[a] + base) % WORD] else mem
  }

  function AddAll(mem: Memory, base: nat, addrs: seq<nat>): Memory {
    if addrs == [] then mem else AddAt(AddAll(mem, base, addrs[..|addrs| - 1]), base, addrs[|addrs| - 1])
  }

  lemma {:induction false} AddAllConcat(mem: Memory, base: nat, s: seq<nat>, t: seq<nat>)
    ensures AddAll(mem, base, s + t) == AddAll(AddAll(mem, base, s), base, t)
  {
    if t == [] {
      assert s + t == s;
    } else {
      var n := |t| - 1;
      assert (s + t)[..|s + t| - 1] == s + t[..n];
      AddAllConcat(mem, base, s, t[..n]);
    }
  }

  lemma AddAllOne(mem: Memory, base: nat, s: seq<nat>, a: nat)
    ensures AddAll(mem, base, s + [a]) == AddAt(AddAll(mem, base, s), base, a)
  {}

  lemma AddMod(x: nat, y: nat)
    ensures ((x % WORD) + y) % WORD == (x + y) % WORD
  {
    var q := x / WORD;
    assert x + y == (x % WORD) + y + WORD * q;
    assert (x % WORD) + y == WORD * (((x % WORD) + y) / WORD) + ((x % WORD) + y) % WORD;
  }

  lemma AddOnce(x: nat, k: nat, base: nat)
    ensures ((x + k * base) % WORD + base) % WORD == (x + (k + 1) * base) % WORD
  {
    AddMod(x + k * base, base);
    assert (k + 1) * base == k * base + base;
  }

  /** The order does not matter: each word grows by the load address once per occurrence. */
  lemma {:induction false} AddAllCounts(mem: Memory, base: nat, addrs: seq<nat>, a: nat)
    requires a in mem && mem[a] < WORD
    ensures AddAll(mem, base, addrs).Keys == mem.Keys
    ensures AddAll(mem, base, addrs)[a] == (mem[a] + multiset(addrs)[a] * base) % WORD
  {
    if addrs != [] {
      var n := |addrs| - 1;
      AddAllCounts(mem, base, addrs[..n], a);
      assert addrs == addrs[..n] + [addrs[n]];
      AddOnce(mem[a], multiset(addrs[..n])[a], base);
    }
  }

  // ---- the two decoders ---------------------------------------------------------------------

  lemma GroupBitAt(bitmaps: seq<nat>, j: nat, i: nat)
    requires j < |bitmaps| && 1 <= i <= BITS
    ensures BITS * j + i <= BITS * |bitmaps| && GroupBit(bitmaps, BITS * j + i) == Bit(bitmaps[j], i)
  {}

  lemma {:induction false} BitmapsAre(table: seq<nat>, j: nat)
    requires j <= Bitmaps(table)
    ensures Bitmaps(table[j..]) == Bitmaps(table) - j
    ensures j < |table| ==> (IsBitmap(table[j]) <==> j < Bitmaps(table))
  {
    if j > 0 {
      BitmapsAre(table[1..], j - 1);
      assert table[1..][j - 1..] == table[j..];
    }
  }

  /** The words of a loaded object, relocated in place. */
  class Image {
    var mem: Memory

    /** The innermost loop: all bits of one bitmap word, the j-th of the group of address a. */
    method ApplyBitmap(word: nat, start: nat, base: nat, ghost a: nat, ghost bitmaps: seq<nat>, ghost j: nat,
                       ghost before: Memory)
      returns (where: nat)
      requires j < |bitmaps| && bitmaps[j] == word && start == a + SIZE * (BITS * j + 1)
      requires mem == AddAll(before, base, GroupTargets(a, bitmaps, BITS * j))
      modifies this
      ensures where == a + SIZE * (BITS * (j + 1) + 1)
      ensures mem == AddAll(before, base, GroupTargets(a, bitmaps, BITS * (j + 1)))
    {
      hide AddAt, AddAll, Bit;
      where := start;
      var i := 1;
      while i < 64
        invariant 1 <= i <= 64 && where == a + SIZE * (BITS * j + i)
        invariant mem == AddAll(before, base, GroupTargets(a, bitmaps, BITS * j + i - 1))
      {
        GroupBitAt(bitmaps, j, i);
        ghost var found := GroupTargets(a, bitmaps, BITS * j + i - 1);
        assert found + [] == found;
        if Bit(word, i) {
          AddAllOne(before, base, found, where);
          mem := AddAt(mem, base, where);
        }
        i, where := i + 1, where + SIZE;
      }
    }

    /** One group: the address word table[r] and the bitmaps behind it. */
    method ApplyGroup(table: seq<nat>, r0: nat, base: nat) returns (r: nat)
      requires r0 < |table|
      modifies this
      ensures r == r0 + 1 + Bitmaps(table[r0 + 1..]) <= |table|
      ensures r < |table| ==> !IsBitmap(table[r])
      ensures var a, n := base + table[r0], Bitmaps(table[r0 + 1..]);
              mem == AddAll(old(mem), base, [a] + GroupTargets(a, table[r0 + 1..][..n], BITS * n))
    {
      hide AddAt, AddAll, GroupTargets, Bitmaps, IsBitmap;
      var where := base + table[r0];
      ghost var a, rest := where, table[r0 + 1..];
      ghost var n := Bitmaps(rest);
      ghost var bitmaps := rest[..n];
      mem := AddAt(mem, base, where);
      ghost var before := mem;
      FirstTarget(old(mem), base, a, bitmaps);
      where := where + SIZE;
      r := r0 + 1;
      while r < |table| && IsBitmap(table[r])
        invariant r0 + 1 <= r <= r0 + 1 + n && where == a + SIZE * (BITS * (r - r0 - 1) + 1)
        invariant mem == AddAll(before, base, GroupTargets(a, bitmaps, BITS * (r - r0 - 1)))
      {
        BitmapsAre(rest, r - r0 - 1);
        where := ApplyBitmap(table[r], where, base, a, bitmaps, r - r0 - 1, before);
        r := r + 1;
      }
      BitmapsAre(rest, r - r0 - 1);
      AddAllConcat(old(mem), base, [a], GroupTargets(a, bitmaps, BITS * n));
    }

    /** _rtld_relocate_relr: adds the load address once for each target of the table. */
    method RelocateRelr(table: seq<nat>, base: nat)
      requires table != [] ==> !IsBitmap(table[0])
      requires forall a :: a in Targets(base, table) ==> a in mem
      modifies this
      ensures mem == AddAll(old(mem), base, Targets(base, table))
    {
      hide AddAt, AddAll, GroupTargets, Targets, Bitmaps, IsBitmap;
      if |table| == 0 { AddAllNone(mem, base); return; }
      var r := 0;
      ghost var done: seq<nat> := [];
      AddAllNone(mem, base);
      assert table[0..] == table;
      while r < |table|
        invariant 0 <= r <= |table| && (r < |table| ==> !IsBitmap(table[r]))
        invariant done + Targets(base, table[r..]) == Targets(base, table)
        invariant mem == AddAll(old(mem), base, done)
        decreases |table| - r
      {
        assert !IsBitmap(table[r]);
        ghost var a, n := base + table[r], Bitmaps(table[r + 1..]);
        ghost var group := [a] + GroupTargets(a, table[r + 1..][..n], BITS * n);
        TargetsSplit(base, table, r);
        r := ApplyGroup(table, r, base);
        AddAllConcat(old(mem), base, done, group);
        done := done + group;
      }
      assert table[r..] == [] && done + [] == done;
      AddAllNone(mem, base);
    }

    /** The decoder of relocate_self in the startup code, a copy with its own loops. */
    method RelocateSelf(table: seq<nat>, base: nat)
      requires forall a :: a in Targets(base, table) ==> a in mem
      modifies this
      ensures mem == AddAll(old(mem), base, Targets(base, table))
    {
      hide AddAt, AddAll, GroupTargets, Targets, Bitmaps, IsBitmap, Bit;
      var relr := 0;
      ghost var done: seq<nat> := [];
      AddAllNone(mem, base);
      assert table[0..] == table;
      while relr < |table|
        invariant 0 <= relr <= |table| && done + Targets(base, table[relr..]) == Targets(base, table)
        invariant mem == AddAll(old(mem), base, done)
        decreases |table| - relr
      {
        ghost var start := relr;
        ghost var before, a := mem, base + table[relr];
        ghost var bitmaps := table[relr + 1..][..Bitmaps(table[relr + 1..])];
        ghost var n := |bitmaps|;
        TargetsSplit(base, table, relr);
        var where := base + table[relr];
        mem := AddAt(mem, base, where);
        ghost var first := mem;
        FirstTarget(before, base, a, bitmaps);
        where := where + SIZE;
        relr := relr + 1;
        while relr < |table| && IsBitmap(table[relr])
          invariant start + 1 <= relr <= start + 1 + n <= |table| && where == a + SIZE * (BITS * (relr - start - 1) + 1)
          invariant mem == AddAll(first, base, GroupTargets(a, bitmaps, BITS * (relr - start - 1)))
          decreases |table| - relr
        {
          ghost var j := relr - start - 1;
          BitmapsAre(table[start + 1..], j);
          assert bitmaps[j] == table[relr];
          for i := 1 to 64
            invariant where == a + SIZE * (BITS * j + i)
            invariant mem == AddAll(first, base, GroupTargets(a, bitmaps, BITS * j + i - 1))
          {
            NextBit(first, base, a, bitmaps, j, i);
            if Bit(table[relr], i) { mem := AddAt(mem, base, where); }
            where := where + SIZE;
          }
          relr := relr + 1;
        }
        BitmapsAre(table[start + 1..], relr - start - 1);
        AddAllConcat(before, base, [a], GroupTargets(a, bitmaps, BITS * n));
        AddAllConcat(old(mem), base, done, [a] + GroupTargets(a, bitmaps, BITS * n));
        done := done + ([a] + GroupTargets(a, bitmaps, BITS * n));
      }
      assert table[relr..] == [] && done + [] == done;
      AddAllNone(mem, base);
    }
  }

  /** One bit of the j-th bitmap of a group. */
  lemma NextBit(mem: Memory, base: nat, a: nat, bitmaps: seq<nat>, j: nat, i: nat)
    requires j < |bitmaps| && 1 <= i <= BITS
    ensures BITS * j + i <= BITS * |bitmaps|
    ensures var now := AddAll(mem, base, GroupTargets(a, bitmaps, BITS * j + i - 1));
            AddAll(mem, base, GroupTargets(a, bitmaps, BITS * j + i)) ==
            if Bit(bitmaps[j], i) then AddAt(now, base, a + SIZE * (BITS * j + i)) else now
  {
    hide AddAt, AddAll, Bit;
    GroupBitAt(bitmaps, j, i);
    var found := GroupTargets(a, bitmaps, BITS * j + i - 1);
    assert found + [] == found;
    AddAllOne(mem, base, found, a + SIZE * (BITS * j + i));
  }

  lemma TargetsSplit(base: nat, table: seq<nat>, r: nat)
    requires r < |table|
    ensures var a, n := base + table[r], Bitmaps(table[r + 1..]);
            Targets(base, table[r..]) ==
            [a] + GroupTargets(a, table[r + 1..][..n], BITS * n) + Targets(base, table[r + 1 + n..])
  {
    hide GroupTargets, Bitmaps;
    var n := Bitmaps(table[r + 1..]);
    assert table[r..][1..] == table[r + 1..];
    assert table[r..][1 + n..] == table[r + 1 + n..];
  }

  lemma AddAllNone(mem: Memory, base: nat)
    ensures AddAll(mem, base, []) == mem && Targets(base, []) == []
  {}

  lemma FirstTarget(mem: Memory, base: nat, a: nat, bitmaps: seq<nat>)
    ensures AddAll(mem, base, [a]) == AddAt(mem, base, a)
    ensures AddAll(AddAt(mem, base, a), base, GroupTargets(a, bitmaps, 0)) == AddAt(mem, base, a)
  {}
}
