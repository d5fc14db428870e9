/** Powers of two, multiples and rounding: the arithmetic of alignments. */
module PowerOfTwo {

  ghost predicate IsPow2(n: nat)
    decreases n
  {
    n == 1 || (n > 1 && n % 2 == 0 && IsPow2(n / 2))
  }

  function Pow2(i: nat): (r: nat)
    ensures r > 0
  {
    if i == 0 then 1 else 2 * Pow2(i - 1)
  }

  /** Bit i of a word. */
  predicate Bit(w: nat, i: nat) { (w / Pow2(i)) % 2 == 1 }

  lemma MulLess(m: nat, k: int)
    requires k > 0
    ensures m * k >= m
  {}

  /** Quotient and remainder are unique. */
  lemma DivModUnique(x: int, m: nat, q: int, r: nat)
    requires r < m && x == m * q + r
    ensures x / m == q && x % m == r
  {
    var q', r' := x / m, x % m;
    assert m * q + r == m * q' + r';
    assert m * (q - q') == r' - r && m * (q' - q) == r - r';
    if q > q' { MulLess(m, q - q'); }
    if q < q' { MulLess(m, q' - q); }
  }

  lemma MultipleMod(m: nat, k: int)
    requires m > 0
    ensures (m * k) % m == 0
  {
    DivModUnique(m * k, m, k, 0);
  }

  /** Adding a multiple of m does not change the remainder. */
  lemma AddMultiple(x: int, m: nat, k: int)
    requires m > 0
    ensures (x + m * k) % m == x % m
  {
    var q, r := x / m, x % m;
    assert x + m * k == m * (q + k) + r by { assert x == m * q + r; assert m * (q + k) == m * q + m * k; }
    DivModUnique(x + m * k, m, q + k, r);
  }

  /** Divisibility is transitive. */
  lemma ModTransitive(x: int, b: nat, a: nat)
    requires a > 0 && b > 0 && x % b == 0 && b % a == 0
    ensures x % a == 0
  {
    var k, j := x / b, b / a;
    assert x == b * k && b == a * j;
    assert b * k == a * (j * k);
    MultipleMod(a, j * k);
  }

  /** Subtracting a multiple of m keeps divisibility, in both directions. */
  lemma SubMultiple(x: int, y: int, m: nat)
    requires m > 0 && y % m == 0
    ensures (x - y) % m == x % m
  {
    var k := y / m;
    assert y == m * k;
    assert x - y == x + m * (-k);
    AddMultiple(x, m, -k);
  }

  lemma AddDivisible(x: int, y: int, m: nat)
    requires m > 0 && y % m == 0
    ensures (x + y) % m == x % m
  {
    var k := y / m;
    assert y == m * k;
    AddMultiple(x, m, k);
  }

  /** Of two powers of two the smaller divides the larger. */
  lemma {:induction false} Pow2Divides(a: nat, b: nat)
    requires IsPow2(a) && IsPow2(b) && a <= b
    ensures b % a == 0
    decreases b
  {
    if a > 1 {
      Pow2Divides(a / 2, b / 2);
      var k := (b / 2) / (a / 2);
      assert b / 2 == (a / 2) * k;
      assert b == a * k by { assert a == 2 * (a / 2) && b == 2 * (b / 2); }
      MultipleMod(a, k);
    }
  }

  lemma {:induction false} Pow2IsPow2(i: nat)
    ensures IsPow2(Pow2(i))
  {
    if i > 0 { Pow2IsPow2(i - 1); }
  }

  /** roundup2: the least multiple of m, a power of two, that is not below x. */
  function RoundUp(x: nat, m: nat): nat
    requires m > 0
  {
    ((x + m - 1) / m) * m
  }

  lemma RoundUpIs(x: nat, m: nat)
    requires m > 0
    ensures x <= RoundUp(x, m) < x + m && RoundUp(x, m) % m == 0
  {
    var k := (x + m - 1) / m;
    assert x + m - 1 == m * k + (x + m - 1) % m;
    MultipleMod(m, k);
    assert RoundUp(x, m) == m * k;
  }
}
