/** Memory byte by byte: little-endian loads and stores, what they change and what they give back. */
module Bytes {
  import opened PowerOfTwo

  type Byte = x: int | 0 <= x < 256

  /** Bytes of the address space; a byte that was never written since its page was mapped is zero. */
  type Mem = map<nat, Byte>

  const AddressTop: nat := 0x1_0000_0000_0000_0000

  function At(m: Mem, a: nat): Byte { if a in m then m[a] else 0 }

  /** The n-byte little-endian number at a. */
  function Load(m: Mem, a: nat, n: nat): nat
    decreases n
  {
    if n == 0 then 0 else At(m, a) + 256 * Load(m, a + 1, n - 1)
  }

  function Store(m: Mem, a: nat, v: nat, n: nat): Mem
    decreases n
  {
    if n == 0 then m else Store(m[a := v % 256], a + 1, v / 256, n - 1)
  }

  function Pow256(n: nat): (r: nat)
    ensures r > 0
  {
    if n == 0 then 1 else 256 * Pow256(n - 1)
  }

  ghost predicate SameOutside(m: Mem, m': Mem, lo: nat, hi: nat) {
    forall x: nat :: x < lo || hi <= x ==> At(m', x) == At(m, x)
  }

  lemma {:induction false} StoreOutside(m: Mem, a: nat, v: nat, n: nat)
    ensures SameOutside(m, Store(m, a, v, n), a, a + n)
    decreases n
  {
    if n > 0 { StoreOutside(m[a := v % 256], a + 1, v / 256, n - 1); }
  }

  lemma {:induction false} LoadFrame(m: Mem, m': Mem, a: nat, n: nat)
    requires forall x :: a <= x < a + n ==> At(m', x) == At(m, x)
    ensures Load(m', a, n) == Load(m, a, n)
    decreases n
  {
    if n > 0 { LoadFrame(m, m', a + 1, n - 1); }
  }

  lemma {:induction false} LoadZero(m: Mem, a: nat, n: nat)
    requires forall x :: a <= x < a + n ==> At(m, x) == 0
    ensures Load(m, a, n) == 0
    decreases n
  {
    if n > 0 { LoadZero(m, a + 1, n - 1); }
  }

  /** A store of n bytes truncates to n bytes, and a load gives that back. */
  lemma {:induction false} LoadStore(m: Mem, a: nat, v: nat, n: nat)
    ensures Load(Store(m, a, v, n), a, n) == v % Pow256(n)
    decreases n
  {
    if n > 0 {
      LoadStore(m[a := v % 256], a + 1, v / 256, n - 1);
      StoreOutside(m[a := v % 256], a + 1, v / 256, n - 1);
      assert At(Store(m, a, v, n), a) == v % 256;
      LowBytes(v, Pow256(n - 1));
    }
  }

  lemma LowBytes(v: nat, c: nat)
    requires c > 0
    ensures v % (256 * c) == v % 256 + 256 * (v / 256 % c)
  {
    var w := v / 256;
    var q, r := w / c, w % c;
    assert w == c * q + r;
    assert v == (256 * c) * q + (v % 256 + 256 * r) by { assert 256 * (c * q) == (256 * c) * q; }
    DivModUnique(v, 256 * c, q, v % 256 + 256 * r);
  }

  lemma LoadStoreWord(m: Mem, a: nat, v: nat)
    requires v < AddressTop
    ensures Load(Store(m, a, v, 8), a, 8) == v
  {
    hide Load, Store;
    LoadStore(m, a, v, 8);
    assert Pow256(8) == AddressTop;
  }
}
