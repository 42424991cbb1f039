/** Sizes of mip levels and macro tiles (radeon/radeon_surface.c). */
module SurfaceMath {
  import opened MmLayout
  import opened Arithmetic

  // ----- ALIGN, next_power_of_two and mip_minify

  /** x & y on unsigned numbers. */
  function And(x: nat, y: nat): (r: nat)
    ensures r <= x && r <= y
  {
    if x == 0 || y == 0 then 0 else 2 * And(x / 2, y / 2) + (x % 2) * (y % 2)
  }

  /** The ALIGN macro: (v + a - 1) & ~(a - 1). */
  function Align(v: nat, a: nat): (r: nat)
    requires a > 0
    ensures v <= r < v + a
  {
    v + a - 1 - And(v + a - 1, a - 1)
  }

  /** Masking with 2^k - 1 is a remainder. */
  lemma {:induction false} AndMask(x: nat, k: nat)
    ensures And(x, Pow2(k) - 1) == x % Pow2(k)
  {
    if k == 0 {
    } else if x == 0 {
      DivUnique(0, Pow2(k), 0, 0);
    } else {
      var p := Pow2(k - 1);
      AndMask(x / 2, k - 1);
      assert (Pow2(k) - 1) / 2 == p - 1 && (Pow2(k) - 1) % 2 == 1;
      HalfMod(x, p);
    }
  }

  lemma HalfMod(x: nat, p: int)
    requires p > 0
    ensures x % (2 * p) == 2 * (x / 2 % p) + x % 2
  {
    var h := x / 2;
    assert h == p * (h / p) + h % p;
    assert x == 2 * h + x % 2;
    assert x == (2 * p) * (h / p) + (2 * (h % p) + x % 2) by { assert 2 * (p * (h / p)) == (2 * p) * (h / p); }
    DivUnique(x, 2 * p, h / p, 2 * (h % p) + x % 2);
  }

  lemma {:induction false} AndSelf(x: nat)
    ensures And(x, x) == x
  {
    if x > 0 {
      AndSelf(x / 2);
    }
  }

  /** For powers of two ALIGN rounds up to a multiple. */
  lemma AlignIsMultiple(v: nat, k: nat)
    ensures Align(v, Pow2(k)) == AlignUp(v, Pow2(k))
    ensures Align(v, Pow2(k)) % Pow2(k) == 0
  {
    AndMask(v + Pow2(k) - 1, k);
    RoundDown(v + Pow2(k) - 1, Pow2(k));
  }

  /** ALIGN gives multiples of the alignment exactly when that is a power of two; otherwise it fails for 1. */
  lemma AlignExactIff(a: nat)
    requires a > 0
    ensures (forall v: nat :: Align(v, a) % a == 0) <==> (exists k: nat :: a == Pow2(k))
    ensures (forall v: nat :: Align(v, a) % a == 0) <==> Align(1, a) % a == 0
  {
    if Align(1, a) % a == 0 {
      OneIsAligned(a);
    }
    forall k: nat, v: nat | a == Pow2(k) ensures Align(v, a) % a == 0 {
      AlignIsMultiple(v, k);
    }
  }

  lemma OneIsAligned(a: nat)
    requires a > 0 && Align(1, a) % a == 0
    ensures exists k: nat :: a == Pow2(k)
  {
    LowestBit(a);
    var k: nat :| a - And(a, a - 1) == Pow2(k) && Pow2(k) <= a;
    if Pow2(k) < a {
      DivUnique(Pow2(k), a, 0, Pow2(k));
    }
  }

  /** a & ~(a - 1) is the lowest bit of a. */
  lemma {:induction false} LowestBit(a: nat)
    requires a > 0
    ensures exists k: nat :: a - And(a, a - 1) == Pow2(k) && Pow2(k) <= a
  {
    var h := a / 2;
    if a % 2 == 1 {
      AndSelf(h);
      assert a - And(a, a - 1) == Pow2(0);
    } else {
      LowestBit(h);
      var k: nat :| h - And(h, h - 1) == Pow2(k) && Pow2(k) <= h;
      assert (a - 1) / 2 == h - 1 && (a - 1) % 2 == 1;
      assert a - And(a, a - 1) == Pow2(k + 1) && Pow2(k + 1) <= a;
    }
  }

  lemma AndHalf(x: nat, y: nat)
    ensures And(x, y) == 2 * And(x / 2, y / 2) + (x % 2) * (y % 2)
  {
  }

  lemma Bits(x: nat, y: nat)
    ensures (x % 2) * (y % 2) == if x % 2 == 1 && y % 2 == 1 then 1 else 0
  {
  }

  /** Adding x to y leaves the bits of y alone exactly when the two have none in common. */
  lemma {:induction false} AndAdd(x: nat, y: nat)
    ensures And(x + y, y) == y <==> And(x, y) == 0
    decreases x + y
  {
    if x == 0 {
      AndSelf(y);
    } else if y > 0 {
      AndHalf(x + y, y);
      AndHalf(x, y);
      Bits(x + y, y);
      Bits(x, y);
      if x % 2 == 0 || y % 2 == 0 {
        assert (x + y) / 2 == x / 2 + y / 2;
        AndAdd(x / 2, y / 2);
      }
    }
  }

  lemma RemainderOf(v: int, r: int, a: int)
    requires a > 0 && v % a == 0 && 0 <= r < a
    ensures (v + r) % a == r
  {
    DivUnique(v + r, a, v / a, r);
  }

  /** ALIGN leaves a multiple of the alignment where it is exactly when it has no bit in common with
      a - 1; otherwise the result is no multiple. */
  lemma AlignStays(v: nat, a: nat)
    requires a > 0 && v % a == 0
    ensures Align(v, a) % a == 0 <==> And(v, a - 1) == 0
  {
    AndAdd(v, a - 1);
    RemainderOf(v, Align(v, a) - v, a);
  }

  ghost predicate IsPow2(n: int)
  {
    exists k: nat :: n == Pow2(k)
  }

  /** The highest bit. */
  lemma HighestBit(n: nat) returns (h: nat)
    requires n > 0
    ensures Pow2(h) <= n < 2 * Pow2(h) && (!IsPow2(n) ==> Pow2(h) < n)
  {
    h := BitLength(n) - 1;
  }

  /** An odd number and a power of two. */
  lemma {:induction false} OddPart(n: nat) returns (w: nat, q: nat)
    requires n > 0
    ensures n == Pow2(w) * q && q % 2 == 1
  {
    if n % 2 == 1 {
      w, q := 0, n;
    } else {
      w, q := OddPart(n / 2);
      assert 2 * (Pow2(w) * q) == Pow2(w + 1) * q;
      w := w + 1;
    }
  }

  /** A number with the lowest bit where `y` has its highest one. */
  lemma {:induction false} CommonBit(h: nat, q: nat, y: nat)
    requires q % 2 == 1 && Pow2(h) <= y < 2 * Pow2(h)
    ensures And(Pow2(h) * q, y) > 0
  {
    AndHalf(Pow2(h) * q, y);
    if h == 0 {
      OneBit(q, y);
    } else {
      CommonBit(h - 1, q, y / 2);
      Doubled(Pow2(h - 1), q);
    }
  }

  lemma OneBit(q: nat, y: nat)
    requires q % 2 == 1 && y == 1
    ensures Pow2(0) * q == q && And(q, y) == 1
  {
    AndHalf(q, y);
  }

  lemma Doubled(p: nat, q: nat)
    ensures 2 * p * q == 2 * (p * q) && 2 * p * q / 2 == p * q && 2 * p * q % 2 == 0
  {
  }

  /** Such a multiple of an alignment that is no power of two is moved off it. */
  lemma AlignMoves(v: nat, a: nat, h: nat, q: nat)
    requires a > 0 && v % a == 0 && !IsPow2(a) && Pow2(h) <= a < 2 * Pow2(h) && v == Pow2(h) * q && q % 2 == 1
    ensures Align(v, a) % a != 0
  {
    assert a != Pow2(h);
    CommonBit(h, q, a - 1);
    AlignStays(v, a);
  }

  /** Six macro tiles of 3072 bytes. */
  lemma AlignMisses(v: nat)
    requires v == 6 * 3072
    ensures Align(v, 3072) == 20480 && 20480 % 3072 == 2048
  {
    And3072();
  }

  lemma And3072()
    ensures And(21503, 3071) == 1023
  {
    assert And(20, 2) == 0;
    assert And(41, 5) == 1;
    assert And(83, 11) == 3;
    assert And(167, 23) == 7;
    assert And(335, 47) == 15;
    assert And(671, 95) == 31;
    assert And(1343, 191) == 63;
    assert And(2687, 383) == 127;
    assert And(5375, 767) == 255;
    assert And(10751, 1535) == 511;
  }

  lemma RoundDown(x: int, a: int)
    requires a > 0
    ensures x - x % a == x / a * a && x / a * a % a == 0
  {
    MultipleMod(x / a, a);
  }

  /** Number of bits of x: 32 - clz(x). */
  function BitLength(x: nat): (n: nat)
    ensures x < Pow2(n) && (x > 0 ==> n > 0 && Pow2(n - 1) <= x)
  {
    if x == 0 then 0 else 1 + BitLength(x / 2)
  }

  function NextPowerOfTwo(x: nat): (p: nat)
    ensures p >= 1
  {
    if x <= 1 then 1 else Pow2(BitLength(x - 1))
  }

  lemma {:induction false} Pow2Mono(j: nat, k: nat)
    requires j <= k
    ensures Pow2(j) <= Pow2(k)
  {
    if j < k {
      Pow2Mono(j, k - 1);
    }
  }

  /** It is the least power of two that is not smaller. */
  lemma NextPowerOfTwoIsLeast(x: nat, k: nat)
    ensures NextPowerOfTwo(x) >= x && exists n: nat :: NextPowerOfTwo(x) == Pow2(n)
    ensures Pow2(k) >= x ==> NextPowerOfTwo(x) <= Pow2(k)
  {
    if x <= 1 {
      assert Pow2(0) == 1;
    } else {
      var n := BitLength(x - 1);
      if Pow2(k) >= x {
        if k < n {
          Pow2Mono(k, n - 1);
        } else {
          Pow2Mono(n, k);
        }
      }
    }
  }

  /** size >> level */
  function Shift(size: nat, level: nat): nat
  {
    if level == 0 then size else Shift(size, level - 1) / 2
  }

  function MipMinify(size: nat, level: nat): (v: nat)
    ensures v >= 1
  {
    var val := if Shift(size, level) >= 1 then Shift(size, level) else 1;
    if level > 0 then NextPowerOfTwo(val) else val
  }

  lemma ShiftMono(size: nat, j: nat)
    ensures Shift(size, j + 1) <= Shift(size, j)
  {
  }

  lemma NextPowerMono(x: nat, y: nat)
    requires x <= y
    ensures NextPowerOfTwo(x) <= NextPowerOfTwo(y)
  {
    if y <= 1 {
    } else {
      NextPowerOfTwoIsLeast(y, 0);
      var n: nat :| NextPowerOfTwo(y) == Pow2(n);
      NextPowerOfTwoIsLeast(x, n);
    }
  }

  /** Behind level 0 the levels of a mip chain never grow. */
  lemma MipShrinks(size: nat, j: nat)
    requires j > 0
    ensures MipMinify(size, j + 1) <= MipMinify(size, j)
  {
    ShiftMono(size, j);
    var a := if Shift(size, j + 1) >= 1 then Shift(size, j + 1) else 1;
    var b := if Shift(size, j) >= 1 then Shift(size, j) else 1;
    NextPowerMono(a, b);
  }

  /** (n + d - 1) / d */
  function Blocks(n: nat, d: nat): (b: nat)
    requires d > 0 && n > 0
    ensures b >= 1
  {
    assert (n + d - 1) / d >= 1 by { AtLeastOne(n, d); }
    (n + d - 1) / d
  }

  lemma AtLeastOne(n: nat, d: nat)
    requires d > 0 && n > 0
    ensures (n + d - 1) / d >= 1
  {
    var q := (n + d - 1) / d;
    assert n + d - 1 == d * q + (n + d - 1) % d;
    MulCancel(0, q, d) by { assert 0 * d < q * d; }
  }

  lemma MulNonNeg(a: int, b: int)
    requires a >= 0 && b >= 0
    ensures a * b >= 0
  {
    if b > 0 {
      MulMono(0, a, b);
    }
  }

  lemma MulPositive(a: int, b: int)
    requires a >= 1 && b >= 1
    ensures a * b >= 1
  {
    MulMono(1, a, b);
  }

  /** A product of unsigned numbers. */
  function Mul(a: nat, b: nat): (r: nat)
    ensures r == a * b
  {
    MulNonNeg(a, b);
    a * b
  }
}
