/** The bit arithmetic of the System V hash on 32-bit words. */
module HashBits {

  /** What the hash function in chapter 5 of the System V gABI, section "Hash Table", does next. */
  function AbiFold(h: bv32): bv32 {
    var g := h & 0xf000_0000;
    if g != 0 then (h ^ (g >> 24)) & !g else h    // clearing no bits when g is 0
  }

  /** What the linker does instead: the top nibble is left alone. */
  function Fold(h: bv32): bv32 { h ^ ((h >> 24) & 0xf0) }

  function Low(h: bv32): bv32 { h & 0x0fff_ffff }

  lemma ShiftLow(h: bv32)
    ensures h << 4 == Low(h) << 4
  {}

  lemma FoldsAgreeClear(h: bv32)
    requires h & 0xf000_0000 == 0
    ensures Low(Fold(h)) == h
  {}

  lemma AbiFoldClear(h: bv32)
    requires h & 0xf000_0000 == 0
    ensures AbiFold(h) == h
  {}

  lemma FoldsAgreeSet(h: bv32)
    requires h & 0xf000_0000 != 0
    ensures Low(Fold(h)) == AbiFold(h)
  {}

  lemma FoldsAgree(h: bv32)
    ensures Low(Fold(h)) == AbiFold(h)
  {
    hide Low, Fold, AbiFold;
    if h & 0xf000_0000 == 0 { FoldsAgreeClear(h); AbiFoldClear(h); } else { FoldsAgreeSet(h); }
  }
}

/**
 The two symbol hash functions (_rtld_sysv_hash and _rtld_gnu_hash), against the hash of the
 System V ABI and against the GNU hash over the integers.
 */
module Hash {
  import opened HashBits

  /** A C string in memory: the characters before the first NUL. */
  function Chars(buf: seq<bv8>): seq<bv8> {
    if buf == [] || buf[0] == 0 then [] else [buf[0]] + Chars(buf[1..])
  }

  function Plus(h: bv32, c: bv8): bv32 { h + c as bv32 }

  /** The accumulator shifted up by a nibble with the next character added. */
  function Shift(h: bv32, c: bv8): bv32 { Plus(h << 4, c) }

  function AbiHash(name: seq<bv8>): bv32 {
    if name == [] then 0 else AbiFold(Shift(AbiHash(name[..|name| - 1]), name[|name| - 1]))
  }

  lemma ShiftDropsTop(h: bv32, c: bv8)
    ensures Shift(h, c) == Shift(Low(h), c)
  {
    hide Low, Plus;
    ShiftLow(h);
  }

  lemma AbiHashNext(buf: seq<bv8>, p: nat)
    requires p < |buf|
    ensures AbiHash(buf[..p + 1]) == AbiFold(Shift(AbiHash(buf[..p]), buf[p]))
  {
    hide AbiFold, Shift;
    assert buf[..p + 1][..p] == buf[..p];
  }

  lemma CharsAt(buf: seq<bv8>, p: nat)
    requires p < |buf|
    ensures Chars(buf[p..]) == if buf[p] == 0 then [] else [buf[p]] + Chars(buf[p + 1..])
  {
    assert buf[p..][1..] == buf[p + 1..];
  }

  lemma Regroup<T>(buf: seq<T>, p: nat, rest: seq<T>)
    requires p < |buf|
    ensures buf[..p] + ([buf[p]] + rest) == buf[..p + 1] + rest && buf[..p] + [] == buf[..p]
  {
    assert buf[..p] + [buf[p]] == buf[..p + 1];
    assert buf[..p] + ([buf[p]] + rest) == (buf[..p] + [buf[p]]) + rest;
  }

  lemma CharsNext(buf: seq<bv8>, p: nat)
    requires p < |buf| && Chars(buf) == buf[..p] + Chars(buf[p..])
    ensures buf[p] != 0 ==> Chars(buf) == buf[..p + 1] + Chars(buf[p + 1..])
    ensures buf[p] == 0 ==> Chars(buf) == buf[..p]
  {
    hide Chars;
    CharsAt(buf, p);
    Regroup(buf, p, Chars(buf[p + 1..]));
  }

  /** _rtld_sysv_hash returns the hash of the System V ABI, for every string. */
  method SysvHash(buf: seq<bv8>) returns (r: bv32)
    requires 0 in buf
    ensures r == AbiHash(Chars(buf))
  {
    hide Shift, Fold, AbiFold, AbiHash, Low, Chars;
    var h: bv32 := 0;
    var p := 0;
    StartsEmpty(buf);
    while buf[p] != 0
      invariant 0 <= p < |buf| && 0 in buf[p..]
      invariant Chars(buf) == buf[..p] + Chars(buf[p..])
      invariant Low(h) == AbiHash(buf[..p])
      decreases |buf| - p
    {
      CharsNext(buf, p);
      AbiHashNext(buf, p);
      ShiftDropsTop(h, buf[p]);
      FoldsAgree(Shift(h, buf[p]));
      h := Fold(Shift(h, buf[p]));
      p := p + 1;
    }
    CharsNext(buf, p);
    r := Low(h);
  }

  lemma StartsEmpty(buf: seq<bv8>)
    ensures Chars(buf) == buf[..0] + Chars(buf[0..]) && AbiHash(buf[..0]) == 0 == Low(0)
  {}

  const WORD: nat := 0x1_0000_0000

  /** The GNU hash, 5381 * 33^n + ..., over the integers. */
  function GnuSum(name: seq<bv8>): nat {
    if name == [] then 5381 else GnuSum(name[..|name| - 1]) * 33 + name[|name| - 1] as nat
  }

  /** Reducing after every step, to any multiple of 2^32, does not change the sum modulo 2^32. */
  lemma ReduceStep(h: nat, sum: nat, c: nat, m: nat)
    requires m > 0 && h % WORD == sum % WORD
    ensures ((h * 33 + c) % (WORD * m)) % WORD == (sum * 33 + c) % WORD
  {
    var x := h * 33 + c;
    var q := x / (WORD * m);
    assert x % (WORD * m) == x - (WORD * m) * q;
    assert (WORD * m) * q == WORD * (m * q);
    var d, e := h / WORD, sum / WORD;
    assert x % (WORD * m) == (h % WORD) * 33 + c + WORD * (33 * d - m * q);
    Multiples((h % WORD) * 33 + c, 33 * d - m * q);
    Multiples((sum % WORD) * 33 + c, 33 * e);
    assert sum * 33 + c == (sum % WORD) * 33 + c + WORD * (33 * e);
  }

  lemma Multiples(x: int, k: int)
    ensures (x + WORD * k) % WORD == x % WORD
  {}

  /**
   _rtld_gnu_hash with an accumulator that counts modulo 2^32 * m (uint_fast32_t may be
   wider than 32 bits): the result does not depend on how wide it is.
   */
  method GnuHash(buf: seq<bv8>, m: nat) returns (r: nat)
    requires 0 in buf && m > 0
    ensures r == GnuSum(Chars(buf)) % WORD
  {
    hide GnuSum, Chars;
    var h := 5381;
    var p := 0;
    StartsEmpty(buf);
    GnuSumEmpty(buf);
    while buf[p] != 0
      invariant 0 <= p < |buf| && 0 in buf[p..]
      invariant Chars(buf) == buf[..p] + Chars(buf[p..])
      invariant h >= 0 && h % WORD == GnuSum(buf[..p]) % WORD
      decreases |buf| - p
    {
      CharsNext(buf, p);
      GnuSumNext(buf, p);
      ReduceStep(h, GnuSum(buf[..p]), buf[p] as nat, m);
      h := (h * 33 + buf[p] as nat) % (WORD * m);
      p := p + 1;
    }
    CharsNext(buf, p);
    r := h % WORD;
  }

  lemma GnuSumEmpty(buf: seq<bv8>)
    ensures GnuSum(buf[..0]) == 5381
  {}

  lemma GnuSumNext(buf: seq<bv8>, p: nat)
    requires p < |buf|
    ensures GnuSum(buf[..p + 1]) == GnuSum(buf[..p]) * 33 + buf[p] as nat
  {
    assert buf[..p + 1][..p] == buf[..p];
  }
}
