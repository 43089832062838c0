/** Python's integer bit operations on non-negative integers: `1 << k`,
    `x >> k`, `x << k`, `x & y`, `x | y` and `int.bit_length()`. */
module Bits {

  /** `1 << k`. */
  function Pow2(k: nat): (r: nat)
    ensures r >= 1
  {
    if k == 0 then 1 else 2 * Pow2(k - 1)
  }

  /** `x >> k`, one bit at a time. */
  function Shr(x: nat, k: nat): nat
  {
    if k == 0 then x else Shr(x / 2, k - 1)
  }

  /** `x << k`. */
  function Shl(x: nat, k: nat): nat
  {
    x * Pow2(k)
  }

  /** `n.bit_length()`: the number of binary digits of `n`, 0 for 0. */
  function BitLength(n: nat): nat
  {
    if n == 0 then 0 else 1 + BitLength(n / 2)
  }

  /** `a & b`, bit by bit from the least significant end. */
  function And(a: nat, b: nat): nat
    decreases a
  {
    if a == 0 || b == 0 then 0
    else 2 * And(a / 2, b / 2) + (if a % 2 == 1 && b % 2 == 1 then 1 else 0)
  }

  /** `a | b`, bit by bit from the least significant end. */
  function Or(a: nat, b: nat): nat
    decreases a
  {
    if a == 0 then b
    else if b == 0 then a
    else 2 * Or(a / 2, b / 2) + (if a % 2 == 1 || b % 2 == 1 then 1 else 0)
  }

  // ---------------------------------------------------------------------
  // Division facts

  lemma MulAtLeast(d: int, z: int)
    requires d >= 0 && z >= 1
    ensures d * z >= d
  {
    if z > 1 {
      MulAtLeast(d, z - 1);
      assert d * z == d * (z - 1) + d;
    }
  }

  /** A quotient by a positive divisor never exceeds the dividend. */
  lemma DivAtMost(x: nat, d: nat)
    requires d >= 1
    ensures x / d <= x
  {
    DivModRebuild(x, d);
    MulAtLeast(x / d, d);
  }

  lemma MulSub(d: int, a: int, b: int)
    ensures d * a - d * b == d * (a - b)
  {}

  lemma MulDistAssoc(a: int, b: int, c: int, e: int)
    ensures a * (b * c + e) == (a * b) * c + a * e
  {}

  lemma MulMono(a: int, b: int, c: int)
    requires a >= 0 && b <= c
    ensures a * b <= a * c
  {
    if b < c {
      MulAtLeast(a, c - b);
      MulSub(a, c, b);
    }
  }

  /** Quotient and remainder are unique. */
  lemma DivModUnique(x: int, d: int, q: int, r: int)
    requires d > 0 && 0 <= r < d && x == d * q + r
    ensures x / d == q && x % d == r
  {
    var q', r' := x / d, x % d;
    assert x == d * q' + r';
    MulSub(d, q', q);
    assert d * (q' - q) == r - r';
    if q' > q {
      MulAtLeast(d, q' - q);
    } else if q' < q {
      MulSub(d, q, q');
      MulAtLeast(d, q - q');
    }
  }

  lemma DivModRebuild(x: int, d: int)
    requires d > 0
    ensures (x / d) * d + x % d == x
  {
    var q, r := x / d, x % d;
    assert x == d * q + r;
  }

  /** `1 << (a + b) == (1 << a) * (1 << b)`. */
  lemma {:induction false} Pow2Add(a: nat, b: nat)
    ensures Pow2(a + b) == Pow2(a) * Pow2(b)
  {
    if a > 0 {
      Pow2Add(a - 1, b);
      assert Pow2(a + b) == 2 * Pow2(a - 1 + b);
    }
  }

  /** Dividing by `pa` and then by `pb` is dividing by `pa * pb`. */
  lemma DivDiv(x: int, pa: int, pb: int)
    requires x >= 0 && pa > 0 && pb > 0
    ensures (x / pa) / pb == x / (pa * pb)
  {
    var q, r := x / pa, x % pa;
    var Q, R := q / pb, q % pb;
    var P := pa * pb;
    var low := pa * R + r;
    assert x == P * Q + low by {
      assert x == pa * q + r;
      assert q == pb * Q + R;
      MulDistAssoc(pa, pb, Q, R);
    }
    assert 0 <= low < P by {
      MulMono(pa, 0, R);
      MulMono(pa, R, pb - 1);
      MulSub(pa, pb, 1);
    }
    DivModUnique(x, P, Q, low);
  }

  /** `x >> k` is the quotient of `x` by `2^k`. */
  lemma {:induction false} ShrIsDiv(x: nat, k: nat)
    ensures Shr(x, k) == x / Pow2(k)
  {
    if k > 0 {
      ShrIsDiv(x / 2, k - 1);
      DivDiv(x, 2, Pow2(k - 1));
    }
  }

  /** `(x >> a) >> b == x >> (a + b)`. */
  lemma ShrShr(x: nat, a: nat, b: nat)
    ensures Shr(Shr(x, a), b) == Shr(x, a + b)
  {
    ShrIsDiv(x, a);
    ShrIsDiv(Shr(x, a), b);
    ShrIsDiv(x, a + b);
    Pow2Add(a, b);
    DivDiv(x, Pow2(a), Pow2(b));
  }

  lemma ModMod(x: int, pa: int, pc: int)
    requires pa > 0 && pc > 0
    ensures (x % (pa * pc)) % pa == x % pa
  {
    var pb := pa * pc;
    var Q := x / pb;
    var m := x % pb;
    var Q' := m / pa;
    var r := m % pa;
    assert x == pb * Q + m;
    assert m == pa * Q' + r;
    MulDistAssoc(pa, pc, Q, Q');
    assert x == pa * (pc * Q + Q') + r;
    DivModUnique(x, pa, pc * Q + Q', r);
  }

  /** Reducing modulo a larger power of two first changes nothing. */
  lemma ModModPow2(x: nat, a: nat, b: nat)
    requires a <= b
    ensures (x % Pow2(b)) % Pow2(a) == x % Pow2(a)
  {
    Pow2Add(a, b - a);
    ModMod(x, Pow2(a), Pow2(b - a));
  }

  /** Splitting off the lowest bit: if `a == 2 * h + bit` and `h == p * Q + R`
      then `a == (2 * p) * Q + (2 * R + bit)`. */
  lemma HalfSplit(a: int, h: int, bit: int, p: int, Q: int, R: int)
    requires a == 2 * h + bit && h == p * Q + R
    ensures a == (2 * p) * Q + (2 * R + bit)
  {}

  // ---------------------------------------------------------------------
  // bit_length

  /** `n.bit_length()` bits suffice for `n`, and (for `n >= 1`) are all needed. */
  lemma {:induction false} BitLengthBounds(n: nat)
    ensures n < Pow2(BitLength(n))
    ensures n >= 1 ==> Pow2(BitLength(n) - 1) <= n
  {
    if n > 0 {
      BitLengthBounds(n / 2);
    }
  }

  /** A number below `2^k` has at most `k` bits. */
  lemma {:induction false} BitLengthBelow(n: nat, k: nat)
    requires n < Pow2(k)
    ensures BitLength(n) <= k
  {
    if n > 0 {
      assert k > 0;
      BitLengthBelow(n / 2, k - 1);
    }
  }

  /** `(2^k).bit_length() == k + 1`. */
  lemma {:induction false} BitLengthPow2(k: nat)
    ensures BitLength(Pow2(k)) == k + 1
  {
    if k > 0 {
      BitLengthPow2(k - 1);
      assert Pow2(k) / 2 == Pow2(k - 1);
    }
  }

  /** `(2^k - 1).bit_length() == k`. */
  lemma {:induction false} BitLengthPow2Minus1(k: nat)
    ensures BitLength(Pow2(k) - 1) == k
  {
    if k > 0 {
      BitLengthPow2Minus1(k - 1);
      assert (Pow2(k) - 1) / 2 == Pow2(k - 1) - 1;
    }
  }

  // ---------------------------------------------------------------------
  // And / Or

  /** One step of `a & (2p - 1)`: the lowest bit of the odd mask is set. */
  lemma AndOddMask(a: nat, p: nat)
    requires a > 0 && p >= 1
    ensures And(a, 2 * p - 1) == 2 * And(a / 2, p - 1) + a % 2
  {
    assert (2 * p - 1) % 2 == 1 && (2 * p - 1) / 2 == p - 1;
  }

  /** `a mod 2p` from `(a / 2) mod p` and the lowest bit of `a`. */
  lemma ModDouble(a: nat, p: nat)
    requires p >= 1
    ensures a % (2 * p) == 2 * ((a / 2) % p) + a % 2
  {
    var R := (a / 2) % p;
    var Q := (a / 2) / p;
    assert a / 2 == p * Q + R;
    HalfSplit(a, a / 2, a % 2, p, Q, R);
    DivModUnique(a, 2 * p, Q, 2 * R + a % 2);
  }

  /** `a & ((1 << k) - 1)` keeps the low `k` bits: it is `a mod 2^k`. */
  lemma {:induction false} AndLowMask(a: nat, k: nat)
    ensures And(a, Pow2(k) - 1) == a % Pow2(k)
  {
    if k == 0 {
      assert a % 1 == 0;
    } else if a == 0 {
      DivModUnique(0, Pow2(k), 0, 0);
    } else {
      AndLowMask(a / 2, k - 1);
      AndLowMaskStep(a, Pow2(k - 1));
    }
  }

  /** One more bit of mask: from the low bits of `a / 2` to those of `a`. */
  lemma AndLowMaskStep(a: nat, p: nat)
    requires a > 0 && p >= 1
    requires And(a / 2, p - 1) == (a / 2) % p
    ensures And(a, 2 * p - 1) == a % (2 * p)
  {
    AndOddMask(a, p);
    ModDouble(a, p);
  }

  /** `a & b` never exceeds `b`. */
  lemma {:induction false} AndAtMost(a: nat, b: nat)
    ensures And(a, b) <= b
  {
    if a != 0 && b != 0 {
      AndAtMost(a / 2, b / 2);
    }
  }

  /** `(x << k) | y == (x << k) + y` when `y` fits in the low `k` bits. */
  lemma {:induction false} OrShifted(x: nat, k: nat, y: nat)
    requires y < Pow2(k)
    ensures Or(Shl(x, k), y) == Shl(x, k) + y
  {
    var a := Shl(x, k);
    if a != 0 && y != 0 {
      assert k > 0;
      assert a == 2 * (x * Pow2(k - 1));
      assert a / 2 == Shl(x, k - 1) && a % 2 == 0;
      OrShifted(x, k - 1, y / 2);
    }
  }

  /** `((x >> k) << k) + x mod 2^k == x`. */
  lemma ShrShlPlusMod(x: nat, k: nat)
    ensures Shl(Shr(x, k), k) + x % Pow2(k) == x
  {
    ShrIsDiv(x, k);
    DivModRebuild(x, Pow2(k));
  }

  /** Shifting `(x << k) + y` right by `k`, with `y < 2^k`, gives back `x`
      and the remainder is `y`. */
  lemma ShlPlusLowBits(x: nat, k: nat, y: nat)
    requires y < Pow2(k)
    ensures Shr(Shl(x, k) + y, k) == x
    ensures (Shl(x, k) + y) % Pow2(k) == y
  {
    ShrIsDiv(Shl(x, k) + y, k);
    DivModUnique(Shl(x, k) + y, Pow2(k), x, y);
  }

  /** `(x << k) + y` with `y < 2^k` lies between `lo << k` and `hi << k`
      when `lo <= x < hi`. */
  lemma ShlWindow(x: nat, k: nat, y: nat, lo: nat, hi: nat)
    requires lo <= x < hi && y < Pow2(k)
    ensures Shl(lo, k) <= Shl(x, k) + y < Shl(hi, k)
  {
    var p := Pow2(k);
    MulMono(p, lo, x);
    MulMono(p, x + 1, hi);
    assert p * (x + 1) == p * x + p;
  }
}
